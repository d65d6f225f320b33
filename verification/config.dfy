/** Server configuration (backend/src/config/env.js). The process
    environment is the parameter `Env`; an unset variable is `None`. */
module Config {
  import opened Common

  /** `parseOrigins`: the comma-separated segments of the value, trimmed,
      with the blank ones dropped; nothing for an unset or empty value. */
  function ParseOrigins(value: Option<string>): (r: seq<string>)
    ensures !Present(value) ==> r == []
    ensures forall k :: 0 <= k < |r| ==> r[k] != "" && IsTrimmed(r[k]) && ',' !in r[k]
    ensures Present(value) ==> |r| <= Count(value.value, ',') + 1
    ensures Present(value) ==> IsSubsequence(r, MapSeq(Split(value.value, ','), Trim))
    ensures Present(value) ==>
      forall x :: multiset(r)[x] == if x == "" then 0 else multiset(MapSeq(Split(value.value, ','), Trim))[x]
  {
    if !Present(value) then []
    else
      var trimmed := MapSeq(Split(value.value, ','), Trim);
      TrimmedSegments(value.value);
      Filter(trimmed, (s: string) => s != "")
  }

  /** The trimmed segments are trimmed and hold no comma. */
  lemma TrimmedSegments(value: string)
    ensures forall t :: t in MapSeq(Split(value, ','), Trim) ==> IsTrimmed(t) && ',' !in t
  {
    var segments := Split(value, ',');
    var trimmed := MapSeq(segments, Trim);
    forall t | t in trimmed
      ensures IsTrimmed(t) && ',' !in t
    {
      var k :| 0 <= k < |trimmed| && trimmed[k] == t;
      TrimIsSlice(segments[k]);
    }
  }

  /** Every character of `Trim(s)` comes from `s`. */
  lemma TrimIsSlice(s: string)
    ensures forall c :: c in Trim(s) ==> c in s
  {
    var t := TrimStart(s);
    TrimStartSuffix(s);
    TrimEndPrefix(t);
    var r := TrimEnd(t);
    assert Trim(s) == r;
    forall c | c in r
      ensures c in s
    {
      var k :| 0 <= k < |r| && r[k] == c;
      assert t[k] == c;
      assert s[|s| - |t| + k] == c;
    }
  }

  /** A list written without blanks or padding is read back as written. */
  lemma {:induction false} ParseOriginsJoin(origins: seq<string>)
    requires origins != []
    requires forall k :: 0 <= k < |origins| ==> origins[k] != "" && IsTrimmed(origins[k]) && ',' !in origins[k]
    ensures ParseOrigins(Some(Join(origins, ","))) == origins
  {
    var text := Join(origins, ",");
    JoinSplit(origins, ',');
    assert Split(text, ',') == origins;
    assert Present(Some(text)) by {
      assert |text| >= |origins[0]|;
    }
    forall k | 0 <= k < |origins|
      ensures Trim(origins[k]) == origins[k]
    {
      TrimOfTrimmed(origins[k]);
    }
    assert MapSeq(origins, Trim) == origins;
    FilterKeepsAll(origins, (s: string) => s != "");
  }

  /** Joining comma-free parts and splitting at commas gives the parts back. */
  lemma {:induction false} JoinSplit(parts: seq<string>, sep: char)
    requires parts != []
    requires forall k :: 0 <= k < |parts| ==> sep !in parts[k]
    ensures Split(Join(parts, [sep]), sep) == parts
    ensures |Join(parts, [sep])| >= |parts[0]|
    decreases |parts|
  {
    if |parts| == 1 {
      SplitNoSep(parts[0], sep);
    } else {
      JoinSplit(parts[1..], sep);
      SplitAfterPrefix(parts[0], sep, Join(parts[1..], [sep]));
      assert [parts[0]] + parts[1..] == parts;
    }
  }

  /** A string without the separator splits into itself alone. */
  lemma {:induction false} SplitNoSep(s: string, sep: char)
    requires sep !in s
    ensures Split(s, sep) == [s]
  {
    if s != [] {
      SplitNoSep(s[1..], sep);
      assert [s[0]] + s[1..] == s;
    }
  }

  /** Splitting `a + sep + b`, where `a` has no separator, gives `a` and
      then the pieces of `b`. */
  lemma {:induction false} SplitAfterPrefix(a: string, sep: char, b: string)
    requires sep !in a
    ensures Split(a + [sep] + b, sep) == [a] + Split(b, sep)
  {
    if a == [] {
      assert [] + [sep] + b == [sep] + b;
      assert ([sep] + b)[1..] == b;
    } else {
      SplitAfterPrefix(a[1..], sep, b);
      assert (a + [sep] + b)[1..] == a[1..] + [sep] + b;
      assert [a[0]] + a[1..] == a;
    }
  }

  /** The JWT settings. */
  datatype JwtSettings = JwtSettings(accessSecret: string, refreshSecret: string,
                                     accessExpiresIn: string, refreshExpiresIn: string)

  datatype Settings = Settings(env: string, port: int, jwt: JwtSettings, corsOrigins: seq<string>)

  /** The variables read: `NODE_ENV`, `PORT` (as the number it denotes),
      `JWT_SECRET`, `REFRESH_SECRET` and `CORS_ORIGINS`. */
  datatype Env = Env(nodeEnv: Option<string>, port: Option<int>, jwtSecret: Option<string>,
                     refreshSecret: Option<string>, corsOrigins: Option<string>)

  const DefaultOrigins: seq<string> := ["http://localhost:5173", "http://localhost:5174", "http://localhost:5175"]

  /** The exported `config`: each unset or empty variable falls back to its
      default; the token lifetimes are fixed. */
  function Load(e: Env): (c: Settings)
    ensures c.env == (if Present(e.nodeEnv) then e.nodeEnv.value else "development")
    ensures c.port == (if e.port.Some? then e.port.value else 5000)
    ensures c.jwt.accessSecret == (if Present(e.jwtSecret) then e.jwtSecret.value else "change-me")
    ensures c.jwt.refreshSecret == (if Present(e.refreshSecret) then e.refreshSecret.value else "change-me-too")
    ensures c.jwt.accessExpiresIn == "30m" && c.jwt.refreshExpiresIn == "7d"
    ensures |ParseOrigins(e.corsOrigins)| > 0 ==> c.corsOrigins == ParseOrigins(e.corsOrigins)
    ensures |ParseOrigins(e.corsOrigins)| == 0 ==> c.corsOrigins == DefaultOrigins
    ensures c.corsOrigins != []
  {
    var parsed := ParseOrigins(e.corsOrigins);
    Settings(OrElse(e.nodeEnv, "development"),
             e.port.GetOr(5000),
             JwtSettings(OrElse(e.jwtSecret, "change-me"), OrElse(e.refreshSecret, "change-me-too"), "30m", "7d"),
             if |parsed| > 0 then parsed else DefaultOrigins)
  }
}

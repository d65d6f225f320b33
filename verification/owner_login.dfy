/** The owner portal's sign-in and registration form
    (owner-portal/pages/Login.tsx). Registering is the parameter
    `register`; the session comes from `Sessions.EnsureOwnerSession`. */
module OwnerLogin {
  import opened Common
  import opened Browser
  import opened Sessions

  // ---------------------------------------------------------------------
  // Splitting the full name

  /** The leading run of non-space characters. */
  function Token(s: string): (w: string)
    ensures |w| <= |s| && w == s[..|w|]
    ensures forall i :: 0 <= i < |w| ==> !IsSpace(w[i])
    ensures |w| < |s| ==> IsSpace(s[|w|])
  {
    if s == [] || IsSpace(s[0]) then [] else [s[0]] + Token(s[1..])
  }

  /** A single word: non-empty, without white space. */
  predicate IsWord(w: string) {
    w != [] && forall i :: 0 <= i < |w| ==> !IsSpace(w[i])
  }

  /** The maximal runs of non-space characters, in order. */
  function Words(s: string): (r: seq<string>)
    ensures forall k :: 0 <= k < |r| ==> IsWord(r[k])
    ensures s != [] && !IsSpace(s[0]) ==> r != [] && r[0] == Token(s)
    decreases |s|
  {
    if s == [] then []
    else if IsSpace(s[0]) then Words(s[1..])
    else
      var w := Token(s);
      assert IsWord(w);
      [w] + Words(s[|w|..])
  }

  /** `trimmedName.split(/\s+/)`: a trimmed string splits into its words;
      the empty string splits into one empty string. */
  function SplitOnSpace(trimmed: string): (r: seq<string>)
    requires IsTrimmed(trimmed)
    ensures |r| >= 1
  {
    if trimmed == [] then [""] else Words(trimmed)
  }

  /** The first and last name sent on registration: the first word of the
      trimmed name and the remaining words joined by single spaces, with
      `'Owner'` and `'Partner'` standing in for either when empty. */
  function SplitName(name: string): (r: (string, string))
    ensures r.0 != "" && r.1 != ""
    ensures Trim(name) == "" ==> r == ("Owner", "Partner")
    ensures Trim(name) != "" ==> r.0 == Token(Trim(name))
  {
    var t := Trim(name);
    var parts := SplitOnSpace(t);
    (OrElse(Some(parts[0]), "Owner"), OrElse(Some(Join(parts[1..], " ")), "Partner"))
  }

  lemma {:induction false} TokenOfWord(w: string, rest: string)
    requires IsWord(w)
    requires rest == [] || IsSpace(rest[0])
    ensures Token(w + rest) == w
  {
    var s := w + rest;
    if |w| > 1 {
      assert s[1..] == w[1..] + rest;
      TokenOfWord(w[1..], rest);
    } else {
      assert s[1..] == rest;
    }
  }

  /** Words joined by single spaces split back into the same words. */
  lemma {:induction false} WordsOfJoin(ws: seq<string>)
    requires forall k :: 0 <= k < |ws| ==> IsWord(ws[k])
    ensures Words(Join(ws, " ")) == ws
  {
    if ws == [] {
    } else if |ws| == 1 {
      TokenOfWord(ws[0], "");
      assert ws[0] + "" == ws[0];
      assert Join(ws, " ") == ws[0];
      assert Join(ws, " ")[|ws[0]|..] == [];
    } else {
      var tail := Join(ws[1..], " ");
      var s := Join(ws, " ");
      assert s == ws[0] + (" " + tail);
      TokenOfWord(ws[0], " " + tail);
      assert s[|ws[0]|..] == " " + tail;
      assert (" " + tail)[1..] == tail;
      WordsOfJoin(ws[1..]);
      assert Words(s) == [ws[0]] + Words(" " + tail);
    }
  }

  /** Words joined by single spaces are already trimmed. */
  lemma {:induction false} JoinedWordsTrimmed(ws: seq<string>)
    requires ws != []
    requires forall k :: 0 <= k < |ws| ==> IsWord(ws[k])
    ensures Join(ws, " ") != [] && IsTrimmed(Join(ws, " "))
  {
    var w := ws[0];
    assert IsWord(w);
    if |ws| == 1 {
      assert Join(ws, " ") == w;
    } else {
      var tail := Join(ws[1..], " ");
      JoinedWordsTrimmed(ws[1..]);
      var s := w + " " + tail;
      assert Join(ws, " ") == s;
      assert s[0] == w[0];
      assert s[|s| - 1] == tail[|tail| - 1];
    }
  }

  /** White space ahead of the first word does not change the words. */
  lemma {:induction false} WordsOfTrimStart(s: string)
    ensures Words(TrimStart(s)) == Words(s)
  {
    if s != [] && IsSpace(s[0]) {
      WordsOfTrimStart(s[1..]);
    }
  }

  /** A run of white space holds no words. */
  lemma {:induction false} WordsOfSpaces(sp: string)
    requires forall i :: 0 <= i < |sp| ==> IsSpace(sp[i])
    ensures Words(sp) == []
  {
    if sp != [] {
      WordsOfSpaces(sp[1..]);
    }
  }

  /** White space after the last word does not change the words. */
  lemma {:induction false} WordsOfPadded(x: string, sp: string)
    requires forall i :: 0 <= i < |sp| ==> IsSpace(sp[i])
    ensures Words(x + sp) == Words(x)
    decreases |x|
  {
    var s := x + sp;
    if x == [] {
      assert s == sp;
      WordsOfSpaces(sp);
    } else if IsSpace(x[0]) {
      assert s[1..] == x[1..] + sp;
      WordsOfPadded(x[1..], sp);
    } else {
      var w := Token(x);
      var rest := x[|w|..] + sp;
      assert s == w + rest;
      assert IsWord(w);
      TokenOfWord(w, rest);
      assert s[|w|..] == rest;
      WordsOfPadded(x[|w|..], sp);
    }
  }

  /** Trimming a string keeps its words. */
  lemma WordsOfTrim(s: string)
    ensures Words(Trim(s)) == Words(s)
  {
    var t := TrimStart(s);
    WordsOfTrimStart(s);
    TrimEndPrefix(t);
    var r := TrimEnd(t);
    assert t == r + t[|r|..];
    WordsOfPadded(r, t[|r|..]);
  }

  /** Whatever is typed, the first name registered is the first word and
      the last name is the remaining words joined by single spaces, with
      `'Owner'` and `'Partner'` standing in when there are none. */
  lemma SplitNameWords(name: string)
    ensures var ws := Words(name);
      && (ws == [] ==> SplitName(name) == ("Owner", "Partner"))
      && (ws != [] ==> SplitName(name) == (ws[0], if |ws| == 1 then "Partner" else Join(ws[1..], " ")))
  {
    var ws := Words(name);
    var t := Trim(name);
    WordsOfTrim(name);
    if t != "" {
      assert ws == Words(t) && ws != [];
      assert SplitOnSpace(t) == ws;
      assert IsWord(ws[0]);
      if |ws| == 1 {
        assert Join(ws[1..], " ") == "";
      } else {
        JoinedWordsTrimmed(ws[1..]);
      }
    } else {
      assert ws == Words("") == [];
    }
  }

  /** A name typed as words separated by single spaces registers the first
      word as the first name and the rest, as typed, as the last name. */
  lemma NameRoundTrip(ws: seq<string>)
    requires ws != []
    requires forall k :: 0 <= k < |ws| ==> IsWord(ws[k])
    ensures SplitName(Join(ws, " ")) == (ws[0], if |ws| == 1 then "Partner" else Join(ws[1..], " "))
  {
    var s := Join(ws, " ");
    JoinedWordsTrimmed(ws);
    TrimOfTrimmed(s);
    WordsOfJoin(ws);
    assert SplitOnSpace(Trim(s)) == ws;
    assert IsWord(ws[0]);
    assert OrElse(Some(ws[0]), "Owner") == ws[0];
    if |ws| == 1 {
      assert Join(ws[1..], " ") == "";
    } else {
      JoinedWordsTrimmed(ws[1..]);
      assert OrElse(Some(Join(ws[1..], " ")), "Partner") == Join(ws[1..], " ");
    }
  }

  // ---------------------------------------------------------------------
  // Submitting the form

  /** A registration failure that means the backend could not be reached:
      its message mentions "Failed to fetch", "NetworkError" or "Unable to
      connect", in any letter case. */
  predicate IsOfflineError(message: string) {
    exists k :: 0 <= k < |OfflinePhrases| && Contains(ToLower(message), OfflinePhrases[k])
  }

  /** The phrases, lower-cased, that `IsOfflineError` looks for. */
  const OfflinePhrases: seq<string> := ["failed to fetch", "networkerror", "unable to connect"]

  datatype RegistrationData = RegistrationData(name: string, mobile: string, companyName: string, city: string)

  /** The body of the registration request. */
  datatype RegistrationPayload = RegistrationPayload(
    email: string, password: string, firstName: string, lastName: string,
    phone: string, companyName: string, address: string)

  /** How the registration request ended: accepted, or thrown, with whether
      the thrown value was an `Error` and its message. */
  datatype RegisterOutcome = Registered | Threw(isError: bool, message: string)

  function Payload(email: string, password: string, reg: RegistrationData): (p: RegistrationPayload)
    ensures (p.firstName, p.lastName) == SplitName(reg.name)
    ensures p.email == email && p.password == password
    ensures p.phone == reg.mobile && p.companyName == reg.companyName && p.address == reg.city
  {
    var (first, last) := SplitName(reg.name);
    RegistrationPayload(email, password, first, last, reg.mobile, reg.companyName, reg.city)
  }

  /** A registration outcome that stops the sign-in: any failure other than
      an `Error` whose message says the backend is unreachable. */
  predicate Aborts(outcome: RegisterOutcome) {
    outcome.Threw? && !(outcome.isError && IsOfflineError(outcome.message))
  }

  const ShortFailure := "Unable to connect to backend."
  const LongFailure := "Unable to connect to backend. Please ensure the API is running."

  /** The alert shown when sign-in stops: the error's message, or the long
      text when it is empty; the short text for a thrown non-`Error`. */
  function FailureAlert(outcome: RegisterOutcome): (r: string)
    requires outcome.Threw?
    ensures r != ""
    ensures outcome.isError && outcome.message != "" ==> r == outcome.message
    ensures outcome.isError && outcome.message == "" ==> r == LongFailure
    ensures !outcome.isError ==> r == ShortFailure
  {
    var message := if outcome.isError then outcome.message else ShortFailure;
    OrElse(Some(message), LongFailure)
  }

  /** The store after a successful sign-in: `isLoggedIn` is `'true'` and the
      owner's profile, if any, is written again. */
  function MarkSignedIn(items: map<string, string>, s: Session<OwnerAccount>,
                        showProfile: OwnerProfileInfo -> string): (r: map<string, string>)
    ensures "isLoggedIn" in r && r["isLoggedIn"] == "true"
    ensures s.user.ownerProfile.Some? ==> OwnerProfileKey in r && r[OwnerProfileKey] == showProfile(s.user.ownerProfile.value)
    ensures forall k :: k in items && k != "isLoggedIn" && k != OwnerProfileKey ==> k in r && r[k] == items[k]
    ensures s.user.ownerProfile.None? ==> r == items["isLoggedIn" := "true"]
  {
    var marked := items["isLoggedIn" := "true"];
    match s.user.ownerProfile
    case None => marked
    case Some(p) => marked[OwnerProfileKey := showProfile(p)]
  }

  class LoginPage {
    var isRegistering: bool
    var isLoading: bool
    var regData: RegistrationData
    var loginEmail: string
    var loginPassword: string
    /** Whether `setIsLoggedIn(true)` has been called. */
    var signedIn: bool
    /** The last alert shown. */
    var alert: Option<string>

    constructor ()
      ensures !isRegistering && !isLoading && !signedIn && alert.None?
      ensures regData == RegistrationData("", "", "", "")
      ensures loginEmail == "owner@connectiontravels.com" && loginPassword == "Owner@123"
    {
      isRegistering := false;
      isLoading := false;
      regData := RegistrationData("", "", "", "");
      loginEmail := "owner@connectiontravels.com";
      loginPassword := "Owner@123";
      signedIn := false;
      alert := None;
    }

    /** The credentials the form hands to `ensureOwnerSession`. */
    function SessionCredentials(): (c: Credentials)
      reads this
      ensures c.email == Some(loginEmail) && c.password == Some(loginPassword) && c.mobile == Some(regData.mobile)
    {
      Credentials(Some(loginEmail), Some(loginPassword), Some(regData.mobile))
    }

    /** `handleSubmit`. When registering, the registration request goes
        first and a failure stops everything, with an alert and the store
        untouched, unless it is an offline error. Then the owner session is
        obtained and the store marks the owner signed in. Loading ends
        false either way. */
    method HandleSubmit(store: Storage, register: RegistrationPayload -> RegisterOutcome,
                        envEmail: Option<string>, envPassword: Option<string>,
                        login: (string, string) -> LoginReply<OwnerAccount>, parse: string -> OwnerAccount,
                        showUser: OwnerAccount -> string, showProfile: OwnerProfileInfo -> string)
      modifies this, store
      ensures !isLoading
      ensures isRegistering == old(isRegistering) && regData == old(regData)
      ensures loginEmail == old(loginEmail) && loginPassword == old(loginPassword)
      ensures var outcome := register(Payload(old(loginEmail), old(loginPassword), old(regData)));
        old(isRegistering) && Aborts(outcome) ==>
          store.items == old(store.items) && alert == Some(FailureAlert(outcome)) && signedIn == old(signedIn)
      ensures var outcome := register(Payload(old(loginEmail), old(loginPassword), old(regData)));
        !(old(isRegistering) && Aborts(outcome)) ==>
          && store.items == SignedInStore(old(store.items), old(SessionCredentials()),
                                          envEmail, envPassword, login, parse, showUser, showProfile)
          && signedIn && alert == old(alert)
    {
      isLoading := true;
      var failure := Register(isRegistering, loginEmail, loginPassword, regData, register);
      if failure.Some? {
        alert := failure;
      } else {
        SignIn(store, SessionCredentials(), envEmail, envPassword, login, parse, showUser, showProfile);
        signedIn := true;
      }
      isLoading := false;
    }

    /** The registration step of `handleSubmit`: when registering, sends the
        request; a failure that is not an offline error gives the alert that
        stops the submission. */
    static method Register(registering: bool, email: string, password: string, reg: RegistrationData,
                           register: RegistrationPayload -> RegisterOutcome) returns (failure: Option<string>)
      ensures failure.Some? <==> registering && Aborts(register(Payload(email, password, reg)))
      ensures failure.Some? ==> failure.value == FailureAlert(register(Payload(email, password, reg)))
    {
      failure := None;
      if registering {
        var outcome := register(Payload(email, password, reg));
        if Aborts(outcome) {
          failure := Some(FailureAlert(outcome));
        }
      }
    }

    /** The part of `handleSubmit` after registration: the owner session is
        obtained and the store marks the owner signed in. */
    static method SignIn(store: Storage, creds: Credentials, envEmail: Option<string>, envPassword: Option<string>,
                  login: (string, string) -> LoginReply<OwnerAccount>, parse: string -> OwnerAccount,
                  showUser: OwnerAccount -> string, showProfile: OwnerProfileInfo -> string)
      modifies store
      ensures store.items == SignedInStore(old(store.items), creds,
                                           envEmail, envPassword, login, parse, showUser, showProfile)
    {
      ghost var items0 := store.items;
      var s := EnsureOwnerSession(store, creds, envEmail, envPassword, login, parse, showUser, showProfile);
      ghost var persisted := store.items;
      assert persisted == if Cached(items0, OwnerTokenKey, OwnerUserKey) then items0 else Persisted(items0, s, showUser, showProfile);
      store.SetItem("isLoggedIn", "true");
      if s.user.ownerProfile.Some? {
        store.SetItem(OwnerProfileKey, showProfile(s.user.ownerProfile.value));
      }
      assert store.items == MarkSignedIn(persisted, s, showProfile);
    }
  }

  /** The store once the owner is signed in from `items`: the session
      persisted (unless it was cached), then marked signed in. */
  function SignedInStore(items: map<string, string>, creds: Credentials, envEmail: Option<string>, envPassword: Option<string>,
                         login: (string, string) -> LoginReply<OwnerAccount>, parse: string -> OwnerAccount,
                         showUser: OwnerAccount -> string, showProfile: OwnerProfileInfo -> string): (r: map<string, string>)
    ensures "isLoggedIn" in r && r["isLoggedIn"] == "true"
    ensures OwnerTokenKey in r && r[OwnerTokenKey] == OwnerSessionFor(items, creds, envEmail, envPassword, login, parse).token
  {
    var s := OwnerSessionFor(items, creds, envEmail, envPassword, login, parse);
    var persisted := if Cached(items, OwnerTokenKey, OwnerUserKey) then items else Persisted(items, s, showUser, showProfile);
    MarkSignedIn(persisted, s, showProfile)
  }
}

/** The cache-first session helpers of the three web front-ends
    (owner-portal/services/session.ts, user-portal/src/services/session.ts,
    admin-portal/src/services/session.ts). Each keeps a token and the
    signed-in user in `localStorage` and logs in only when either is
    missing. Logging in is the parameter `login`, from an e-mail and a
    password to a reply; `JSON.stringify` and `JSON.parse` are the
    parameters `show…` and `parse`. */
module Sessions {
  import opened Common
  import opened Browser

  /** What the helpers resolve to. */
  datatype Session<U> = Session(token: string, user: U)

  /** What a login request yields: the token and user, or a rejection. */
  datatype LoginReply<U> = LoginOk(accessToken: string, user: U) | LoginFailed

  /** Both keys are stored with non-empty values, so the cache is used. */
  predicate Cached(items: map<string, string>, tokenKey: string, userKey: string) {
    tokenKey in items && items[tokenKey] != "" && userKey in items && items[userKey] != ""
  }

  /** `import.meta.env.X ?? fallback`. */
  function Configured(env: Option<string>, fallback: string): (r: string)
    ensures env.Some? ==> r == env.value
    ensures env.None? ==> r == fallback
  {
    env.GetOr(fallback)
  }

  // ---------------------------------------------------------------------
  // User and admin portals

  const UserTokenKey := "userToken"
  const UserAccountKey := "userAccount"
  const DefaultUserEmail := "user@connectiontravels.com"
  const DefaultUserPassword := "User@123"

  const AdminTokenKey := "adminToken"
  const AdminUserKey := "adminUser"
  const DefaultAdminEmail := "admin@connectiontravels.com"
  const DefaultAdminPassword := "Admin@123"

  /** The shared shape of `ensureUserSession` and `ensureAdminSession`: the
      cached pair if both are there; otherwise a login with the configured
      account, whose token and user are stored under the two keys. A login
      failure propagates (`None`) and writes nothing. */
  method EnsureSession<U>(store: Storage, tokenKey: string, userKey: string, email: string, password: string,
                          login: (string, string) -> LoginReply<U>, show: U -> string, parse: string -> U)
    returns (r: Option<Session<U>>)
    modifies store
    ensures Cached(old(store.items), tokenKey, userKey) ==>
      r == Some(Session(old(store.items)[tokenKey], parse(old(store.items)[userKey]))) && store.items == old(store.items)
    ensures !Cached(old(store.items), tokenKey, userKey) && login(email, password).LoginFailed? ==>
      r.None? && store.items == old(store.items)
    ensures !Cached(old(store.items), tokenKey, userKey) && login(email, password).LoginOk? ==>
      && r == Some(Session(login(email, password).accessToken, login(email, password).user))
      && store.items == old(store.items)[tokenKey := r.value.token][userKey := show(r.value.user)]
  {
    var cachedToken := store.GetItem(tokenKey);
    var cachedUser := store.GetItem(userKey);
    if Present(cachedToken) && Present(cachedUser) {
      return Some(Session(cachedToken.value, parse(cachedUser.value)));
    }
    var reply := login(email, password);
    if reply.LoginFailed? {
      return None;
    }
    store.SetItem(tokenKey, reply.accessToken);
    store.SetItem(userKey, show(reply.user));
    return Some(Session(reply.accessToken, reply.user));
  }

  /** `ensureUserSession`: the cached `userToken`/`userAccount` pair when
      both are stored, with the store untouched; otherwise a login with the configured
      account, whose token and user are then stored under those keys and
      returned. A failed login returns nothing and writes nothing. */
  method EnsureUserSession<U>(store: Storage, envEmail: Option<string>, envPassword: Option<string>,
                              login: (string, string) -> LoginReply<U>, show: U -> string, parse: string -> U)
    returns (r: Option<Session<U>>)
    modifies store
    ensures Cached(old(store.items), UserTokenKey, UserAccountKey) ==>
      && r == Some(Session(old(store.items)[UserTokenKey], parse(old(store.items)[UserAccountKey])))
      && store.items == old(store.items)
    ensures var reply := login(Configured(envEmail, DefaultUserEmail), Configured(envPassword, DefaultUserPassword));
      && (!Cached(old(store.items), UserTokenKey, UserAccountKey) && reply.LoginFailed? ==>
            r.None? && store.items == old(store.items))
      && (!Cached(old(store.items), UserTokenKey, UserAccountKey) && reply.LoginOk? ==>
            && r == Some(Session(reply.accessToken, reply.user))
            && store.items == old(store.items)[UserTokenKey := reply.accessToken][UserAccountKey := show(reply.user)])
    ensures r.Some? ==> UserTokenKey in store.items && store.items[UserTokenKey] == r.value.token
  {
    r := EnsureSession(store, UserTokenKey, UserAccountKey, Configured(envEmail, DefaultUserEmail),
                       Configured(envPassword, DefaultUserPassword), login, show, parse);
  }

  /** `ensureAdminSession`: the cached `adminToken`/`adminUser` pair when
      both are stored, with the store untouched; otherwise a login with the configured
      account, whose token and user are then stored under those keys and
      returned. A failed login returns nothing and writes nothing. */
  method EnsureAdminSession<U>(store: Storage, envEmail: Option<string>, envPassword: Option<string>,
                               login: (string, string) -> LoginReply<U>, show: U -> string, parse: string -> U)
    returns (r: Option<Session<U>>)
    modifies store
    ensures Cached(old(store.items), AdminTokenKey, AdminUserKey) ==>
      && r == Some(Session(old(store.items)[AdminTokenKey], parse(old(store.items)[AdminUserKey])))
      && store.items == old(store.items)
    ensures var reply := login(Configured(envEmail, DefaultAdminEmail), Configured(envPassword, DefaultAdminPassword));
      && (!Cached(old(store.items), AdminTokenKey, AdminUserKey) && reply.LoginFailed? ==>
            r.None? && store.items == old(store.items))
      && (!Cached(old(store.items), AdminTokenKey, AdminUserKey) && reply.LoginOk? ==>
            && r == Some(Session(reply.accessToken, reply.user))
            && store.items == old(store.items)[AdminTokenKey := reply.accessToken][AdminUserKey := show(reply.user)])
    ensures r.Some? ==> AdminTokenKey in store.items && store.items[AdminTokenKey] == r.value.token
  {
    r := EnsureSession(store, AdminTokenKey, AdminUserKey, Configured(envEmail, DefaultAdminEmail),
                       Configured(envPassword, DefaultAdminPassword), login, show, parse);
  }

  // ---------------------------------------------------------------------
  // Owner portal

  const OwnerTokenKey := "ownerToken"
  const OwnerUserKey := "ownerUser"
  const OwnerProfileKey := "ownerProfile"
  const DefaultOwnerEmail := "owner@connectiontravels.com"
  const DefaultOwnerPassword := "Owner@123"
  const DummyToken := "dummy-owner-token"
  const DemoEmail := "owner-demo@connectiontravels.com"
  const DemoMobile := "9487868172"

  datatype OwnerProfileInfo = OwnerProfileInfo(
    id: string, userId: string, companyName: string, city: string, verifiedByAdmin: bool)

  /** The signed-in owner as the owner portal keeps it. */
  datatype OwnerAccount = OwnerAccount(
    id: string,
    email: Option<string>,
    firstName: Option<string>,
    lastName: Option<string>,
    role: string,
    phone: Option<string>,
    ownerProfile: Option<OwnerProfileInfo>)

  /** What a caller may pass to `ensureOwnerSession`. */
  datatype Credentials = Credentials(email: Option<string>, password: Option<string>, mobile: Option<string>)

  /** `email?.trim().toLowerCase()`. */
  function Normalized(email: Option<string>): (r: Option<string>)
    ensures r.Some? <==> email.Some?
    ensures r.Some? ==> IsLower(r.value) && IsTrimmed(r.value)
  {
    match email
    case None => None
    case Some(e) =>
      var t := Trim(e);
      ToLowerIsLower(t);
      ToLowerKeepsTrimmed(t);
      Some(ToLower(t))
  }

  /** Normalizing an e-mail twice is normalizing it once. */
  lemma NormalizedTwice(email: string)
    ensures Normalized(Normalized(Some(email))) == Normalized(Some(email))
  {
    var n := Normalized(Some(email)).value;
    TrimOfTrimmed(n);
    assert ToLower(n) == n;
  }

  /** `createDummyUser`: the offline stand-in owner, with the normalized
      e-mail or the demo address and the trimmed mobile or the demo number,
      and a verified demo company. */
  function DummyUser(email: Option<string>, mobile: Option<string>): (u: OwnerAccount)
    ensures u.id == "dummy-owner" && u.role == "OWNER"
    ensures u.firstName == Some("Demo") && u.lastName == Some("Owner")
    ensures u.email == Some(OrElse(Normalized(email), DemoEmail))
    ensures u.phone == Some(if mobile.Some? && Trim(mobile.value) != "" then Trim(mobile.value) else DemoMobile)
    ensures u.ownerProfile.Some? && u.ownerProfile.value.userId == u.id && u.ownerProfile.value.verifiedByAdmin
  {
    var safeMobile := if mobile.Some? then OrElse(Some(Trim(mobile.value)), DemoMobile) else DemoMobile;
    OwnerAccount(
      "dummy-owner", Some(OrElse(Normalized(email), DemoEmail)), Some("Demo"), Some("Owner"), "OWNER", Some(safeMobile),
      Some(OwnerProfileInfo("dummy-owner-profile", "dummy-owner", "Demo Travels", "Bengaluru", true)))
  }

  /** The e-mail `ensureOwnerSession` logs in with: the caller's, trimmed
      and lower-cased, unless that is empty or missing. */
  function OwnerLoginEmail(creds: Credentials, envEmail: Option<string>): (r: string)
    ensures Present(Normalized(creds.email)) ==> r == Normalized(creds.email).value
    ensures !Present(Normalized(creds.email)) ==> r == Configured(envEmail, DefaultOwnerEmail)
  {
    OrElse(Normalized(creds.email), Configured(envEmail, DefaultOwnerEmail))
  }

  function OwnerLoginPassword(creds: Credentials, envPassword: Option<string>): (r: string)
    ensures Present(creds.password) ==> r == creds.password.value
    ensures !Present(creds.password) ==> r == Configured(envPassword, DefaultOwnerPassword)
  {
    OrElse(creds.password, Configured(envPassword, DefaultOwnerPassword))
  }

  /** The session a login attempt yields: the reply's, or on failure the
      dummy token with the stand-in owner. */
  function FreshOwnerSession(creds: Credentials, envEmail: Option<string>, envPassword: Option<string>,
                             login: (string, string) -> LoginReply<OwnerAccount>): (s: Session<OwnerAccount>)
    ensures var reply := login(OwnerLoginEmail(creds, envEmail), OwnerLoginPassword(creds, envPassword));
      && (reply.LoginOk? ==> s == Session(reply.accessToken, reply.user))
      && (reply.LoginFailed? ==> s.token == DummyToken && s.user == DummyUser(Some(OwnerLoginEmail(creds, envEmail)), creds.mobile))
  {
    var email := OwnerLoginEmail(creds, envEmail);
    match login(email, OwnerLoginPassword(creds, envPassword))
    case LoginOk(token, user) => Session(token, user)
    case LoginFailed => Session(DummyToken, DummyUser(Some(email), creds.mobile))
  }

  /** When login fails, the stand-in owner carries the e-mail the login was
      tried with, as long as the configured default is already in normal
      form (as the built-in default is). */
  lemma DummyKeepsLoginEmail(creds: Credentials, envEmail: Option<string>, envPassword: Option<string>,
                             login: (string, string) -> LoginReply<OwnerAccount>)
    requires var c := Configured(envEmail, DefaultOwnerEmail); c != "" && Normalized(Some(c)) == Some(c)
    requires login(OwnerLoginEmail(creds, envEmail), OwnerLoginPassword(creds, envPassword)).LoginFailed?
    ensures FreshOwnerSession(creds, envEmail, envPassword, login).user.email == Some(OwnerLoginEmail(creds, envEmail))
  {
    var email := OwnerLoginEmail(creds, envEmail);
    if Present(Normalized(creds.email)) {
      NormalizedTwice(creds.email.value);
    }
    assert Normalized(Some(email)) == Some(email);
  }

  /** The store after `persistSession`: token and user written, the profile
      written when the user has one, every other key as it was. */
  function Persisted(items: map<string, string>, s: Session<OwnerAccount>,
                     showUser: OwnerAccount -> string, showProfile: OwnerProfileInfo -> string): (r: map<string, string>)
    ensures OwnerTokenKey in r && r[OwnerTokenKey] == s.token
    ensures OwnerUserKey in r && r[OwnerUserKey] == showUser(s.user)
    ensures s.user.ownerProfile.Some? ==> OwnerProfileKey in r && r[OwnerProfileKey] == showProfile(s.user.ownerProfile.value)
    ensures s.user.ownerProfile.None? ==> (OwnerProfileKey in r <==> OwnerProfileKey in items)
    ensures s.user.ownerProfile.None? && OwnerProfileKey in items ==> r[OwnerProfileKey] == items[OwnerProfileKey]
    ensures forall k :: k in items && k != OwnerTokenKey && k != OwnerUserKey && k != OwnerProfileKey ==> k in r && r[k] == items[k]
    ensures forall k :: k in r ==> k in items || k == OwnerTokenKey || k == OwnerUserKey || k == OwnerProfileKey
  {
    var written := items[OwnerTokenKey := s.token][OwnerUserKey := showUser(s.user)];
    match s.user.ownerProfile
    case None => written
    case Some(p) => written[OwnerProfileKey := showProfile(p)]
  }

  /** `persistSession`: writes the session and hands it back. */
  method PersistSession(store: Storage, s: Session<OwnerAccount>,
                        showUser: OwnerAccount -> string, showProfile: OwnerProfileInfo -> string)
    returns (r: Session<OwnerAccount>)
    modifies store
    ensures r == s && store.items == Persisted(old(store.items), s, showUser, showProfile)
  {
    store.SetItem(OwnerTokenKey, s.token);
    store.SetItem(OwnerUserKey, showUser(s.user));
    if s.user.ownerProfile.Some? {
      store.SetItem(OwnerProfileKey, showProfile(s.user.ownerProfile.value));
    }
    return s;
  }

  /** The session `ensureOwnerSession` resolves to from a given store. */
  function OwnerSessionFor(items: map<string, string>, creds: Credentials, envEmail: Option<string>, envPassword: Option<string>,
                           login: (string, string) -> LoginReply<OwnerAccount>, parse: string -> OwnerAccount): (s: Session<OwnerAccount>)
    ensures Cached(items, OwnerTokenKey, OwnerUserKey) ==> s == Session(items[OwnerTokenKey], parse(items[OwnerUserKey]))
    ensures !Cached(items, OwnerTokenKey, OwnerUserKey) ==> s == FreshOwnerSession(creds, envEmail, envPassword, login)
  {
    if Cached(items, OwnerTokenKey, OwnerUserKey) then Session(items[OwnerTokenKey], parse(items[OwnerUserKey]))
    else FreshOwnerSession(creds, envEmail, envPassword, login)
  }

  /** `ensureOwnerSession`: the cached pair if both are stored, and then
      the store is untouched; otherwise it logs in, falls back to the dummy
      session if that fails (so it never fails itself), and persists what
      it returns, whose token is then the stored one. */
  method EnsureOwnerSession(store: Storage, creds: Credentials, envEmail: Option<string>, envPassword: Option<string>,
                            login: (string, string) -> LoginReply<OwnerAccount>, parse: string -> OwnerAccount,
                            showUser: OwnerAccount -> string, showProfile: OwnerProfileInfo -> string)
    returns (s: Session<OwnerAccount>)
    modifies store
    ensures s == OwnerSessionFor(old(store.items), creds, envEmail, envPassword, login, parse)
    ensures Cached(old(store.items), OwnerTokenKey, OwnerUserKey) ==> store.items == old(store.items)
    ensures !Cached(old(store.items), OwnerTokenKey, OwnerUserKey) ==>
      store.items == Persisted(old(store.items), s, showUser, showProfile)
    ensures OwnerTokenKey in store.items && store.items[OwnerTokenKey] == s.token
  {
    var cachedToken := store.GetItem(OwnerTokenKey);
    var cachedUser := store.GetItem(OwnerUserKey);
    if Present(cachedToken) && Present(cachedUser) {
      return Session(cachedToken.value, parse(cachedUser.value));
    }
    var email := OwnerLoginEmail(creds, envEmail);
    var reply := login(email, OwnerLoginPassword(creds, envPassword));
    match reply
    case LoginOk(token, user) =>
      s := PersistSession(store, Session(token, user), showUser, showProfile);
    case LoginFailed =>
      s := PersistSession(store, Session(DummyToken, DummyUser(Some(email), creds.mobile)), showUser, showProfile);
  }
}

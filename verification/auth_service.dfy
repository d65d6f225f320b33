/** Login and owner registration (backend/src/services/auth.service.js).
    Password hashing and comparison (bcrypt) and token signing (JWT) are the
    parameters `hash`, `compare` and `sign`. */
module AuthService {
  import opened Common
  import opened Domain
  import opened Store
  import Config

  /** The claims a token carries: an access token names the user and the
      role, a refresh token only the user. */
  datatype Claims = AccessClaims(sub: string, role: Role) | RefreshClaims(sub: string)

  /** A successful login: the user with the owner profile joined to it, and
      the two signed tokens. */
  datatype Session = Session(user: User, ownerProfile: Option<OwnerProfile>, accessToken: string, refreshToken: string)

  /** `createAuthError`: an error carrying status 401. */
  function AuthError(message: string): (e: Error)
    ensures e.Http? && e.status == 401 && e.message == message
  {
    Http(401, message)
  }

  /** The stored user registered under `email`, compared lower-cased. */
  function UserByEmail(users: seq<User>, email: string): (r: Option<User>)
    ensures r.Some? ==> r.value in users && r.value.email == ToLower(email)
    ensures r.None? ==> forall k :: 0 <= k < |users| ==> users[k].email != ToLower(email)
  {
    var i := FindIndex(users, (u: User) => u.email == ToLower(email));
    if i.Some? then Some(users[i.value]) else None
  }

  /** `login`: succeeds exactly when a user is registered under the
      lower-cased email and the password matches its hash; both failures are
      the same 401 "Invalid credentials". The access token is signed over
      `{sub, role}` with the access secret and lifetime, the refresh token
      over `{sub}` with the refresh ones. */
  function Login(users: seq<User>, profiles: seq<OwnerProfile>, email: string, password: string,
                 jwt: Config.JwtSettings, compare: (string, string) -> bool,
                 sign: (Claims, string, string) -> string): (r: Result<Session>)
    requires Unique(users, UserEmail)
    ensures r.Ok? <==> exists k :: 0 <= k < |users| && users[k].email == ToLower(email)
                                   && compare(password, users[k].passwordHash)
    ensures r.Err? ==> r.error == Http(401, "Invalid credentials")
    ensures r.Ok? ==>
      var s := r.value;
      && s.user in users && s.user.email == ToLower(email)
      && s.ownerProfile == ProfileOf(profiles, s.user.id)
      && s.accessToken == sign(AccessClaims(s.user.id, s.user.role), jwt.accessSecret, jwt.accessExpiresIn)
      && s.refreshToken == sign(RefreshClaims(s.user.id), jwt.refreshSecret, jwt.refreshExpiresIn)
  {
    match UserByEmail(users, email)
    case None => Err(AuthError("Invalid credentials"))
    case Some(user) =>
      if !compare(password, user.passwordHash) then Err(AuthError("Invalid credentials"))
      else
        Ok(Session(user, ProfileOf(profiles, user.id),
                   sign(AccessClaims(user.id, user.role), jwt.accessSecret, jwt.accessExpiresIn),
                   sign(RefreshClaims(user.id), jwt.refreshSecret, jwt.refreshExpiresIn)))
  }

  /** A caller cannot tell an unknown email from a wrong password: the
      answers are identical. */
  lemma LoginFailuresIndistinguishable(unknown: seq<User>, known: seq<User>, profiles: seq<OwnerProfile>,
                                       email: string, password: string, jwt: Config.JwtSettings,
                                       compare: (string, string) -> bool, sign: (Claims, string, string) -> string)
    requires Unique(unknown, UserEmail) && Unique(known, UserEmail)
    requires forall k :: 0 <= k < |unknown| ==> unknown[k].email != ToLower(email)
    requires forall k :: 0 <= k < |known| && known[k].email == ToLower(email) ==> !compare(password, known[k].passwordHash)
    ensures Login(unknown, profiles, email, password, jwt, compare, sign)
         == Login(known, profiles, email, password, jwt, compare, sign)
  {
  }

  /** Emails differing only in the case of Latin letters log in the same
      account. */
  lemma LoginIgnoresCase(users: seq<User>, profiles: seq<OwnerProfile>, e1: string, e2: string, password: string,
                         jwt: Config.JwtSettings, compare: (string, string) -> bool,
                         sign: (Claims, string, string) -> string)
    requires Unique(users, UserEmail)
    requires ToLower(e1) == ToLower(e2)
    ensures Login(users, profiles, e1, password, jwt, compare, sign) == Login(users, profiles, e2, password, jwt, compare, sign)
  {
  }

  /** The registration form. */
  datatype Registration = Registration(
    email: string,
    password: string,
    firstName: string,
    lastName: string,
    phone: Option<string>,
    companyName: string,
    gstNumber: Option<string>,
    address: Option<string>)

  /** `s || null` for an optional string. */
  function NullIfFalsy(s: Option<string>): (r: Option<string>)
    ensures Present(s) ==> r == s
    ensures !Present(s) ==> r.None?
  {
    if Present(s) then s else None
  }

  /** `registerOwner`: refuses an email already registered (compared
      lower-cased) with 401 and creates nothing; otherwise stores an `OWNER`
      user under the lower-cased email with the hashed password, and its
      unverified owner profile, together. Falsy phone, GST number and address
      are stored as null. `newUserId` and `newProfileId` are the ids the
      database assigns. */
  method RegisterOwner(db: Database, p: Registration, hash: (string, int) -> string,
                       newUserId: string, newProfileId: string)
    returns (r: Result<(User, OwnerProfile)>)
    requires db.Valid()
    requires forall k :: 0 <= k < |db.users| ==> db.users[k].id != newUserId
    requires forall k :: 0 <= k < |db.profiles| ==> db.profiles[k].id != newProfileId && db.profiles[k].userId != newUserId
    modifies db
    ensures db.Valid()
    ensures r.Err? <==> exists k :: 0 <= k < |old(db.users)| && old(db.users)[k].email == ToLower(p.email)
    ensures r.Err? ==> r.error == Http(401, "Email already registered")
                       && db.users == old(db.users) && db.profiles == old(db.profiles)
    ensures r.Ok? ==>
      var (u, o) := r.value;
      && u == User(newUserId, ToLower(p.email), hash(p.password, 10), p.firstName, p.lastName, NullIfFalsy(p.phone), OWNER)
      && o == OwnerProfile(newProfileId, u.id, p.companyName, NullIfFalsy(p.gstNumber), NullIfFalsy(p.address), false)
      && db.users == old(db.users) + [u]
      && db.profiles == old(db.profiles) + [o]
    ensures db.buses == old(db.buses) && db.schedules == old(db.schedules) && db.bookings == old(db.bookings)
    ensures db.audit == old(db.audit) && db.media == old(db.media) && db.pricing == old(db.pricing)
  {
    var existing := UserByEmail(db.users, p.email);
    if existing.Some? {
      return Err(AuthError("Email already registered"));
    }
    var passwordHash := hash(p.password, 10);
    var user := User(newUserId, ToLower(p.email), passwordHash, p.firstName, p.lastName, NullIfFalsy(p.phone), OWNER);
    var profile := OwnerProfile(newProfileId, user.id, p.companyName, NullIfFalsy(p.gstNumber), NullIfFalsy(p.address), false);
    ToLowerIsLower(p.email);
    AppendKeepsUnique(db.users, UserId, user);
    AppendKeepsUnique(db.users, UserEmail, user);
    AppendKeepsUnique(db.profiles, ProfileId, profile);
    AppendKeepsUnique(db.profiles, ProfileUserId, profile);
    db.users := db.users + [user];
    db.profiles := db.profiles + [profile];
    r := Ok((user, profile));
  }

  /** After registering, the new owner can log in with the password given
      when the hash comparison accepts it. */
  lemma RegisteredOwnerCanLogIn(users: seq<User>, profiles: seq<OwnerProfile>, u: User, o: OwnerProfile,
                                password: string, jwt: Config.JwtSettings,
                                compare: (string, string) -> bool, sign: (Claims, string, string) -> string)
    requires Unique(users + [u], UserEmail) && Unique(profiles + [o], ProfileUserId)
    requires o.userId == u.id && compare(password, u.passwordHash)
    ensures var r := Login(users + [u], profiles + [o], u.email, password, jwt, compare, sign);
            IsLower(u.email) ==> r.Ok? && r.value.user == u && r.value.ownerProfile == Some(o)
  {
    if IsLower(u.email) {
      assert ToLower(u.email) == u.email;
      var all := users + [u];
      assert all[|users|] == u;
      var ps := profiles + [o];
      assert ps[|profiles|] == o;
    }
  }
}

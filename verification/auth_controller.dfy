/** The authentication HTTP handlers (backend/src/controllers/auth.controller.js):
    the user projection sent to clients and the shapes of the two replies. */
module AuthController {
  import opened Common
  import opened Domain
  import AuthService

  /** A user as sent to clients: every column but the password hash. */
  datatype PublicUser = PublicUser(
    id: string,
    email: string,
    firstName: string,
    lastName: string,
    phone: Option<string>,
    role: Role)

  /** `sanitizeUser`: nothing for no user; otherwise the user without its
      password hash, every other field unchanged. */
  function SanitizeUser(u: Option<User>): (r: Option<PublicUser>)
    ensures u.None? <==> r.None?
    ensures u.Some? ==>
      && r.value.id == u.value.id && r.value.email == u.value.email
      && r.value.firstName == u.value.firstName && r.value.lastName == u.value.lastName
      && r.value.phone == u.value.phone && r.value.role == u.value.role
  {
    match u
    case None => None
    case Some(x) => Some(PublicUser(x.id, x.email, x.firstName, x.lastName, x.phone, x.role))
  }

  /** The stored user a public user came from, given its hash. */
  function WithHash(p: PublicUser, passwordHash: string): (u: User)
    ensures u.passwordHash == passwordHash && u.id == p.id && u.email == p.email
  {
    User(p.id, p.email, passwordHash, p.firstName, p.lastName, p.phone, p.role)
  }

  /** The projection drops the hash and nothing else: putting the hash back
      gives the stored user. */
  lemma SanitizeDropsOnlyHash(u: User)
    ensures WithHash(SanitizeUser(Some(u)).value, u.passwordHash) == u
  {
  }

  /** Two users that differ only in their hash look the same to clients. */
  lemma SanitizeHidesHash(u: User, h: string)
    ensures SanitizeUser(Some(u.(passwordHash := h))) == SanitizeUser(Some(u))
  {
  }

  /** An HTTP answer, or the error handed to `next`. */
  datatype Response<B> = Respond(status: int, body: B) | PassToNext(error: Error)

  /** The user in the login reply: the sanitized user together with its
      `ownerProfile` relation, which the projection leaves in place. */
  datatype LoginUser = LoginUser(user: PublicUser, ownerProfile: Option<OwnerProfile>)

  datatype LoginBody = LoginBody(user: Option<LoginUser>, accessToken: string, refreshToken: string)

  datatype RegisterBody = RegisterBody(user: Option<PublicUser>, ownerProfile: OwnerProfile)

  /** `login`: 200 with the sanitized user, its owner profile nested inside
      it, and both tokens; or the error to `next`. */
  function LoginResponse(r: Result<AuthService.Session>): (resp: Response<LoginBody>)
    ensures r.Err? <==> resp.PassToNext?
    ensures r.Err? ==> resp.error == r.error
    ensures r.Ok? ==>
      && resp.status == 200
      && resp.body.user.Some?
      && Some(resp.body.user.value.user) == SanitizeUser(Some(r.value.user))
      && resp.body.user.value.ownerProfile == r.value.ownerProfile
      && resp.body.accessToken == r.value.accessToken && resp.body.refreshToken == r.value.refreshToken
  {
    match r
    case Err(e) => PassToNext(e)
    case Ok(s) => Respond(200, LoginBody(Some(LoginUser(SanitizeUser(Some(s.user)).value, s.ownerProfile)),
                                         s.accessToken, s.refreshToken))
  }

  /** `registerOwner`: 201 with the sanitized user and the new profile, or the
      error to `next`. */
  function RegisterResponse(r: Result<(User, OwnerProfile)>): (resp: Response<RegisterBody>)
    ensures r.Err? <==> resp.PassToNext?
    ensures r.Err? ==> resp.error == r.error
    ensures r.Ok? ==> resp.status == 201 && resp.body == RegisterBody(SanitizeUser(Some(r.value.0)), r.value.1)
  {
    match r
    case Err(e) => PassToNext(e)
    case Ok((u, o)) => Respond(201, RegisterBody(SanitizeUser(Some(u)), o))
  }
}

/** Request authentication and role checks (backend/src/middleware/auth.js).
    Token verification (JWT) is the parameter `verify`. */
module AuthMiddleware {
  import opened Common
  import opened Domain
  import opened Store
  import Config

  /** What verifying a token yields: a failure (bad signature, expired,
      malformed), or the decoded claims, whose `sub` may be missing. */
  datatype Verified = Rejected | Decoded(sub: Option<string>)

  /** The token is the header with its first `Bearer ` removed, wherever it
      occurs (the bearer scheme of section 2.1 of RFC 6750 puts it first); a
      header without it is used whole. */
  function BearerToken(header: string): (token: string)
    ensures !Contains(header, "Bearer ") ==> token == header
    ensures forall i :: FirstOccurrence(header, "Bearer ", i) ==> token == header[..i] + header[i + 7..]
    ensures OccursAt(header, "Bearer ", 0) ==> token == header[7..]
  {
    ReplaceFirst(header, "Bearer ", "")
  }

  /** The decision `authenticate` reaches. */
  datatype Outcome = Deny(status: int, message: string) | Admit(user: User)

  /** The decision tree of `authenticate`: no header gives 401 "Authorization
      header missing"; a token that fails verification, or whose subject
      cannot be looked up, gives 401 "Unauthorized"; an unknown subject gives
      401 "Invalid token subject"; otherwise the stored user is admitted. */
  function Verdict(header: Option<string>, users: seq<User>, secret: string,
                        verify: (string, string) -> Verified): (o: Outcome)
    ensures o.Deny? ==> o.status == 401
    ensures !Present(header) ==> o == Deny(401, "Authorization header missing")
    ensures Present(header) && verify(BearerToken(header.value), secret).Rejected? ==> o == Deny(401, "Unauthorized")
    ensures Present(header) && verify(BearerToken(header.value), secret) == Decoded(None) ==> o == Deny(401, "Unauthorized")
    ensures forall sub :: Present(header) && verify(BearerToken(header.value), secret) == Decoded(Some(sub))
                          && (forall k :: 0 <= k < |users| ==> users[k].id != sub)
                          ==> o == Deny(401, "Invalid token subject")
    ensures o.Admit? <==>
      && Present(header)
      && var v := verify(BearerToken(header.value), secret);
         v.Decoded? && v.sub.Some? && exists k :: 0 <= k < |users| && users[k].id == v.sub.value
    ensures o.Admit? ==> o.user in users && Some(o.user.id) == verify(BearerToken(header.value), secret).sub
  {
    if !Present(header) then Deny(401, "Authorization header missing")
    else
      match verify(BearerToken(header.value), secret)
      case Rejected => Deny(401, "Unauthorized")
      case Decoded(None) => Deny(401, "Unauthorized")
      case Decoded(Some(sub)) =>
        match UserById(users, sub)
        case None => Deny(401, "Invalid token subject")
        case Some(u) => Admit(u)
  }

  /** The part of a request the middleware reads and writes. */
  class Request {
    var authorization: Option<string>
    /** `req.user`, with the owner profile joined to it. */
    var user: Option<User>
    var ownerProfile: Option<OwnerProfile>
    /** The status and message sent, if the middleware answered. */
    var response: Option<(int, string)>
    /** How many times `next` was called. */
    var nextCalls: nat

    constructor (authorization: Option<string>)
      ensures this.authorization == authorization && user.None? && ownerProfile.None?
      ensures response.None? && nextCalls == 0
    {
      this.authorization := authorization;
      user := None;
      ownerProfile := None;
      response := None;
      nextCalls := 0;
    }

    /** `authenticate`: either answers 401 and stops, or sets `req.user` and
      calls `next` exactly once. */
    method Authenticate(db: Database, config: Config.JwtSettings, verify: (string, string) -> Verified)
      modifies this
      ensures authorization == old(authorization)
      ensures var o := Verdict(authorization, db.users, config.accessSecret, verify);
        && (o.Deny? ==> response == Some((401, o.message)) && nextCalls == old(nextCalls)
                        && user == old(user) && ownerProfile == old(ownerProfile))
        && (o.Admit? ==> response == old(response) && user == Some(o.user) && ownerProfile == ProfileOf(db.profiles, o.user.id)
                         && nextCalls == old(nextCalls) + 1)
    {
      var o := Verdict(authorization, db.users, config.accessSecret, verify);
      match o
      case Deny(status, message) =>
        response := Some((status, message));
      case Admit(u) =>
        user := Some(u);
        ownerProfile := ProfileOf(db.profiles, u.id);
        nextCalls := nextCalls + 1;
    }
  }

  /** What a role check does. */
  datatype Gate = Refuse(status: int, message: string) | Next

  /** `authorizeRoles(...allowed)`: 401 without a user, 403 for a role not
      allowed, otherwise on to the next handler. */
  function AuthorizeRoles(allowed: seq<Role>, user: Option<User>): (g: Gate)
    ensures user.None? <==> g == Refuse(401, "Unauthorized")
    ensures g == Refuse(403, "Forbidden") <==> user.Some? && user.value.role !in allowed
    ensures g == Next <==> user.Some? && user.value.role in allowed
  {
    if user.None? then Refuse(401, "Unauthorized")
    else if user.value.role !in allowed then Refuse(403, "Forbidden")
    else Next
  }

  /** The roles each router admits. */
  const AdminRoles: seq<Role> := [ADMIN]
  const BookingRoles: seq<Role> := [CUSTOMER]
  const OwnerRoles: seq<Role> := [OWNER, ADMIN]

  /** Customers are kept out of the admin and owner routes, owners out of the
      admin and booking routes, and admins out of the booking routes; admins
      reach the owner routes. */
  lemma RouteAccess(u: User)
    ensures u.role == CUSTOMER ==> AuthorizeRoles(AdminRoles, Some(u)) == Refuse(403, "Forbidden")
                                   && AuthorizeRoles(OwnerRoles, Some(u)) == Refuse(403, "Forbidden")
                                   && AuthorizeRoles(BookingRoles, Some(u)) == Next
    ensures u.role == OWNER ==> AuthorizeRoles(AdminRoles, Some(u)) == Refuse(403, "Forbidden")
                                && AuthorizeRoles(BookingRoles, Some(u)) == Refuse(403, "Forbidden")
                                && AuthorizeRoles(OwnerRoles, Some(u)) == Next
    ensures u.role == ADMIN ==> AuthorizeRoles(BookingRoles, Some(u)) == Refuse(403, "Forbidden")
                                && AuthorizeRoles(AdminRoles, Some(u)) == Next
                                && AuthorizeRoles(OwnerRoles, Some(u)) == Next
  {
  }
}

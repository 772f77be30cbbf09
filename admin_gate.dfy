/** The admin middleware: a chain of early returns over the Authorization
    header, the outcome of verifying the session token, and the role and
    active flag of the account it names. */
module AdminGate {
  import opened Values
  import opened Strings
  import opened Store

  const TokenRequired := "Authorization token required"
  const SessionExpired := "Session expired, please login again"
  const InvalidToken := "Invalid authorization token"
  const AdminRequired := "Admin privileges required"
  const Deactivated := "Admin account deactivated"

  const BearerPrefix := "Bearer "

  /** What `jwt.verify` gives back: the decoded payload, or the name of the
      error it threw. */
  datatype Verification = Decoded(userId: nat) | Failed(errorName: string)

  /** Either the request goes on to the route with `req.user` set, or it is
      answered here and the route never runs. */
  datatype Gate = Admit(userId: nat, role: string) | Deny(status: nat, error: string)

  /** The identity the gate attaches to the request as `req.user`. */
  datatype SessionUser = SessionUser(userId: nat, role: string)

  /** The two request properties the admin routes read after the gate:
      `req.user`, which the gate sets, and `req.userId`, which nothing in
      front of those routes sets. */
  datatype Request = Request(user: Option<SessionUser>, userId: Option<nat>)

  /** `req.user = { userId, role }; next()`: what an admitted request carries
      on to the route. */
  function Forward(g: Gate, req: Request): (r: Request)
    requires g.Admit?
    ensures r.user == Some(SessionUser(g.userId, g.role))
    ensures r.userId == req.userId
  {
    req.(user := Some(SessionUser(g.userId, g.role)))
  }

  predicate StartsWith(s: string, prefix: string)
  {
    |prefix| <= |s| && s[..|prefix|] == prefix
  }

  predicate HasBearer(header: Option<string>)
  {
    header.Some? && StartsWith(header.value, BearerPrefix)
  }

  /** After "Bearer " the split on spaces always has a second piece: the
      text up to the next space. */
  lemma BearerSplit(header: string)
    requires StartsWith(header, BearerPrefix)
    ensures |Split(header, ' ')| >= 2
    ensures Split(header, ' ')[1] == Before(header[|BearerPrefix|..], ' ')
  {
    var rest := header[|BearerPrefix|..];
    assert header == "Bearer" + [' '] + rest;
    SplitAfterFirst("Bearer", ' ', rest);
    SplitFirst(rest, ' ');
  }

  /** `authHeader.split(' ')[1]`. */
  function BearerToken(header: string): (token: string)
    requires StartsWith(header, BearerPrefix)
    ensures ' ' !in token
    ensures |BearerPrefix| + |token| <= |header|
    ensures token == header[|BearerPrefix|..|BearerPrefix| + |token|]
    ensures |BearerPrefix| + |token| < |header| ==> header[|BearerPrefix| + |token|] == ' '
  {
    BearerSplit(header);
    Split(header, ' ')[1]
  }

  /** The message for a failed verification: expiry is told apart from every
      other failure. */
  function VerifyFailure(errorName: string): (message: string)
    ensures message == SessionExpired <==> errorName == "TokenExpiredError"
    ensures message == SessionExpired || message == InvalidToken
  {
    if errorName == "TokenExpiredError" then SessionExpired else InvalidToken
  }

  /** `requireAdmin(req, res, next)`. */
  function RequireAdmin(header: Option<string>, verify: string -> Verification, users: seq<User>): (g: Gate)
    ensures !HasBearer(header) ==> g == Deny(401, TokenRequired)
    ensures HasBearer(header) && verify(BearerToken(header.value)).Failed?
      ==> g == Deny(401, VerifyFailure(verify(BearerToken(header.value)).errorName))
    ensures HasBearer(header) && verify(BearerToken(header.value)).Decoded? ==>
      var id := verify(BearerToken(header.value)).userId;
      && (id >= |users| || users[id].role != "admin" ==> g == Deny(403, AdminRequired))
      && ((id < |users| && users[id].role == "admin" && users[id].isActive == Some(false))
          ==> g == Deny(403, Deactivated))
    ensures g.Admit? <==>
      && HasBearer(header) && verify(BearerToken(header.value)).Decoded?
      && var id := verify(BearerToken(header.value)).userId;
         id < |users| && users[id].role == "admin" && users[id].isActive != Some(false)
    ensures g.Admit? ==>
      && g.userId == verify(BearerToken(header.value)).userId
      && g.role == "admin" && users[g.userId].role == "admin"
    ensures g.Deny? ==> g.status in {401, 403}
  {
    if !HasBearer(header) then Deny(401, TokenRequired)
    else
      var token := BearerToken(header.value);
      match verify(token)
      case Failed(name) => Deny(401, VerifyFailure(name))
      case Decoded(id) =>
        match FindById(users, id)
        case None => Deny(403, AdminRequired)
        case Some(user) =>
          if user.role != "admin" then Deny(403, AdminRequired)
          else if user.isActive == Some(false) then Deny(403, Deactivated)
          else Admit(id, user.role)
  }

  /** The role is checked before the active flag: a deactivated account that
      is not an admin is told it lacks privileges, not that it is
      deactivated. */
  lemma RoleCheckedBeforeActive(header: Option<string>, verify: string -> Verification,
                                users: seq<User>)
    requires HasBearer(header) && verify(BearerToken(header.value)).Decoded?
    requires var id := verify(BearerToken(header.value)).userId;
      id < |users| && users[id].role != "admin" && users[id].isActive == Some(false)
    ensures RequireAdmin(header, verify, users) == Deny(403, AdminRequired)
  {
  }
}

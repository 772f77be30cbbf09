/** The user collection the routes read and write, and the mail they send.
    A record carries exactly the fields the route handlers read and write.
    Records are never deleted by the modelled routes, so a user's id is its
    position in the collection, and `findOne` returns the first match in
    insertion order. */
module Store {
  import opened Values
  import opened Crypto

  /** 24 * 60 * 60 * 1000: lifetime of an email-verification token, in ms. */
  const VerificationLifetime := 86_400_000
  /** 3600000: lifetime of a password-reset token, in ms. */
  const ResetLifetime := 3_600_000

  datatype User = User(
    username: string,
    email: string,
    phone: Option<string>,
    password: PasswordHash,
    role: string,
    isActive: Option<bool>,
    isEmailVerified: bool,
    emailVerificationToken: Option<string>,
    emailVerificationExpires: Option<int>,
    resetPasswordToken: Option<Digest>,
    resetPasswordExpires: Option<int>,
    plan: Option<string>,
    premiumSince: Option<int>,
    googleId: Option<string>,
    appleId: Option<string>)

  /** A message handed to the mail transport. */
  datatype Mail =
    | VerificationMail(to: string, username: string, token: string)
    | ResetMail(to: string, username: string, token: string)

  /** The `findOne` filters the routes use. */
  datatype Query =
    | EmailIs(email: string)
    | AdminWithEmail(email: string)
    | VerificationTokenIs(token: string, now: int)
    | ResetDigestIs(digest: Digest, now: int)

  predicate Matches(u: User, q: Query)
  {
    match q
    case EmailIs(e) => u.email == e
    case AdminWithEmail(e) => u.email == e && u.role == "admin"
    case VerificationTokenIs(t, now) =>
      u.emailVerificationToken == Some(t)
      && u.emailVerificationExpires.Some? && u.emailVerificationExpires.value > now
    case ResetDigestIs(d, now) =>
      u.resetPasswordToken == Some(d)
      && u.resetPasswordExpires.Some? && u.resetPasswordExpires.value > now
  }

  /** `User.findOne(q)`: the id of the first record matching `q`. */
  function FindOne(users: seq<User>, q: Query): (r: Option<nat>)
    ensures r.Some? ==> r.value < |users| && Matches(users[r.value], q)
    ensures r.Some? ==> forall k :: 0 <= k < r.value ==> !Matches(users[k], q)
    ensures r.None? <==> forall k :: 0 <= k < |users| ==> !Matches(users[k], q)
  {
    if users == [] then None
    else if Matches(users[0], q) then Some(0)
    else match FindOne(users[1..], q)
      case None => None
      case Some(i) => Some(i + 1)
  }

  /** `User.findById(id)`. */
  function FindById(users: seq<User>, id: nat): (r: Option<User>)
    ensures r.Some? <==> id < |users|
    ensures r.Some? ==> r.value == users[id]
  {
    if id < |users| then Some(users[id]) else None
  }

  predicate EmailTaken(users: seq<User>, email: string)
  {
    exists k :: 0 <= k < |users| && users[k].email == email
  }

  /** Every creation path checks `findOne({ email })` first, so no two
      records share an email. */
  ghost predicate EmailsUnique(users: seq<User>)
  {
    forall i, j :: 0 <= i < j < |users| ==> users[i].email != users[j].email
  }

  /** Token fields are set and cleared in pairs, and a verified account has
      no pending verification token. */
  predicate WellFormed(u: User)
  {
    && (u.emailVerificationToken.Some? <==> u.emailVerificationExpires.Some?)
    && (u.resetPasswordToken.Some? <==> u.resetPasswordExpires.Some?)
    && (u.isEmailVerified ==> u.emailVerificationToken.None?)
  }

  ghost predicate ValidUsers(users: seq<User>)
  {
    EmailsUnique(users) && forall k :: 0 <= k < |users| ==> WellFormed(users[k])
  }

  /** Appending a well-formed record whose email is not yet taken keeps the
      collection valid. */
  lemma AppendValid(users: seq<User>, u: User)
    requires ValidUsers(users) && WellFormed(u) && !EmailTaken(users, u.email)
    ensures ValidUsers(users + [u])
  {
  }

  /** The user collection and the outbox of the mail transport. */
  class UserStore {
    var users: seq<User>
    var outbox: seq<Mail>

    ghost predicate Valid()
      reads this
    {
      ValidUsers(users)
    }

    constructor ()
      ensures Valid() && users == [] && outbox == []
    {
      users := [];
      outbox := [];
    }
  }
}

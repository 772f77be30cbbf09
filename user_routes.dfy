/** The account and credential lifecycle of the user routes: signup with
    email verification, login, change of password, and the reset-by-mail
    flow. Each handler is a chain of guards; every guard that fails answers
    with a status and a message and leaves the store as it was. */
module UserRoutes {
  import opened Values
  import opened Crypto
  import opened Validation
  import opened Store

  const InvalidEmail := "Please enter a valid email address"
  const EmailRegistered := "Email already registered"
  const UserCreated := "User created! Please check your email to verify your account."
  const InvalidVerification := "Invalid or expired verification token"
  const EmailVerified := "Email verified successfully! You can now log in."
  const UserNotFound := "User not found"
  const AlreadyVerified := "Email already verified"
  const VerificationResent := "Verification email resent. Please check your inbox."
  const CredentialsRequired := "Email and password required"
  const BadCredentials := "Invalid email or password"
  const VerifyFirst := "Please verify your email before logging in"
  const BothPasswordsRequired := "Current password and new password are required"
  const WrongCurrentPassword := "Current password is incorrect"
  const PasswordUpdated := "Password updated successfully"
  const EmailRequired := "Email is required"
  const ResetLinkMaybeSent := "If that email exists, a reset link has been sent"
  const ResetLinkSent := "Reset link sent successfully"
  const InvalidReset := "Invalid or expired reset token"
  const PasswordReset := "Password reset successful"

  /** The signup guard on the email: present and of the right shape. */
  predicate EmailAccepted(email: Option<string>)
  {
    Present(email) && ValidateEmail(email.value)
  }

  /** The role a signup stores: "admin" only when asked for exactly. */
  function FinalRole(requested: Option<string>): (role: string)
    ensures role == "admin" <==> requested == Some("admin")
    ensures role == "admin" || role == "user"
  {
    if requested == Some("admin") then "admin" else "user"
  }

  /** The record signup leaves behind: saved unverified with the hashed
      password, then given a verification token that expires a day later. */
  function NewAccount(username: string, phone: Option<string>, email: string, password: string,
                      role: Option<string>, token: string, now: int): User
  {
    User(username, email, phone, Hash(password), FinalRole(role), None, false,
         Some(token), Some(now + VerificationLifetime), None, None, None, None, None, None)
  }

  function MarkVerified(u: User): User
  {
    u.(isEmailVerified := true, emailVerificationToken := None, emailVerificationExpires := None)
  }

  function ReissueVerification(u: User, token: string, now: int): User
  {
    u.(emailVerificationToken := Some(token), emailVerificationExpires := Some(now + VerificationLifetime))
  }

  function IssueReset(u: User, token: string, now: int): User
  {
    u.(resetPasswordToken := Some(Sha256(token)), resetPasswordExpires := Some(now + ResetLifetime))
  }

  function CompleteReset(u: User, password: string): User
  {
    u.(password := Hash(password), resetPasswordToken := None, resetPasswordExpires := None)
  }

  /** POST /signup. */
  method Signup(db: UserStore, username: string, phone: Option<string>, email: Option<string>,
                password: Option<string>, role: Option<string>, token: string, now: int)
    returns (reply: Reply)
    requires db.Valid()
    modifies db
    ensures db.Valid()
    ensures !EmailAccepted(email) ==> reply == Reply(400, InvalidEmail)
    ensures EmailAccepted(email) && !ValidatePassword(password).isValid
      ==> reply == Reply(400, PasswordTooShort)
    ensures (EmailAccepted(email) && ValidatePassword(password).isValid
             && EmailTaken(old(db.users), email.value)) ==> reply == Reply(400, EmailRegistered)
    ensures reply.status == 400 <==>
      !EmailAccepted(email) || !ValidatePassword(password).isValid || EmailTaken(old(db.users), email.value)
    ensures reply.status == 400 ==> unchanged(db)
    ensures reply.status != 400 ==>
      && reply == Reply(201, UserCreated)
      && db.users == old(db.users) + [NewAccount(username, phone, email.value, password.value, role, token, now)]
      && db.outbox == old(db.outbox) + [VerificationMail(email.value, username, token)]
  {
    if !Present(email) || !ValidateEmail(email.value) {
      return Reply(400, InvalidEmail);
    }
    var check := ValidatePassword(password);
    if !check.isValid {
      return Reply(400, check.message);
    }
    var existing := FindOne(db.users, EmailIs(email.value));
    if existing.Some? {
      return Reply(400, EmailRegistered);
    }
    // The password is hashed here, where the source relies on a save hook.
    var newUser := User(username, email.value, phone, Hash(password.value), FinalRole(role), None,
                        false, None, None, None, None, None, None, None, None);
    AppendValid(db.users, NewAccount(username, phone, email.value, password.value, role, token, now));
    db.users := db.users + [newUser];
    var id := |db.users| - 1;
    db.users := db.users[id := db.users[id].(emailVerificationToken := Some(token))];
    db.users := db.users[id := db.users[id].(emailVerificationExpires := Some(now + VerificationLifetime))];
    db.outbox := db.outbox + [VerificationMail(email.value, username, token)];
    reply := Reply(201, UserCreated);
  }

  /** GET /verify-email/:token. */
  method VerifyEmail(db: UserStore, token: string, now: int) returns (reply: Reply)
    requires db.Valid()
    modifies db
    ensures db.Valid()
    ensures var found := FindOne(old(db.users), VerificationTokenIs(token, now));
      && (found.None? ==> reply == Reply(400, InvalidVerification) && unchanged(db))
      && (found.Some? ==>
            && reply == Reply(200, EmailVerified)
            && db.users == old(db.users)[found.value := MarkVerified(old(db.users)[found.value])]
            && db.outbox == old(db.outbox))
  {
    var found := FindOne(db.users, VerificationTokenIs(token, now));
    if found.None? {
      return Reply(400, InvalidVerification);
    }
    var user := db.users[found.value];
    user := user.(isEmailVerified := true);
    user := user.(emailVerificationToken := None);
    user := user.(emailVerificationExpires := None);
    db.users := db.users[found.value := user];
    reply := Reply(200, EmailVerified);
  }

  /** POST /resend-verification. */
  method ResendVerification(db: UserStore, email: string, token: string, now: int)
    returns (reply: Reply)
    requires db.Valid()
    modifies db
    ensures db.Valid()
    ensures var found := FindOne(old(db.users), EmailIs(email));
      && (found.None? ==> reply == Reply(404, UserNotFound) && unchanged(db))
      && (found.Some? && old(db.users)[found.value].isEmailVerified ==>
            reply == Reply(400, AlreadyVerified) && unchanged(db))
      && (found.Some? && !old(db.users)[found.value].isEmailVerified ==>
            && reply == Reply(200, VerificationResent)
            && db.users == old(db.users)[found.value := ReissueVerification(old(db.users)[found.value], token, now)]
            && db.outbox == old(db.outbox) + [VerificationMail(email, old(db.users)[found.value].username, token)])
  {
    var found := FindOne(db.users, EmailIs(email));
    if found.None? {
      return Reply(404, UserNotFound);
    }
    var user := db.users[found.value];
    if user.isEmailVerified {
      return Reply(400, AlreadyVerified);
    }
    user := user.(emailVerificationToken := Some(token));
    user := user.(emailVerificationExpires := Some(now + VerificationLifetime));
    db.users := db.users[found.value := user];
    db.outbox := db.outbox + [VerificationMail(email, user.username, token)];
    reply := Reply(200, VerificationResent);
  }

  datatype LoginResult =
    | LoginRejected(status: nat, error: string)
    | LoggedIn(session: SessionToken, id: nat, plan: string, isEmailVerified: bool)

  /** POST /login: a read-only guard chain that ends in a signed session. */
  function Login(users: seq<User>, email: Option<string>, password: Option<string>): (r: LoginResult)
    ensures !Present(email) || !Present(password) ==> r == LoginRejected(400, CredentialsRequired)
    ensures Present(email) && Present(password) && !ValidateEmail(email.value)
      ==> r == LoginRejected(400, InvalidEmail)
    ensures (Present(email) && Present(password) && ValidateEmail(email.value)
             && !EmailTaken(users, email.value)) ==> r == LoginRejected(401, BadCredentials)
    ensures EmailsUnique(users) ==> (r.LoggedIn? <==>
      && Present(email) && Present(password) && ValidateEmail(email.value)
      && exists k :: 0 <= k < |users| && users[k].email == email.value
           && users[k].isEmailVerified && Compare(password.value, users[k].password))
    ensures r.LoggedIn? ==>
      && r.id < |users| && users[r.id].email == email.value
      && r.session.userId == r.id && r.session.role == users[r.id].role
      && (r.session.expiresIn == "8h" <==> users[r.id].role == "admin")
      && (r.session.expiresIn == "2h" <==> users[r.id].role != "admin")
      && r.plan == OrElse(users[r.id].plan, "free")
    ensures EmailsUnique(users) && r.LoginRejected? && r.status == 403 ==>
      exists k :: 0 <= k < |users| && users[k].email == email.value && !users[k].isEmailVerified
  {
    if !Present(email) || !Present(password) then LoginRejected(400, CredentialsRequired)
    else if !ValidateEmail(email.value) then LoginRejected(400, InvalidEmail)
    else match FindOne(users, EmailIs(email.value))
      case None => LoginRejected(401, BadCredentials)
      case Some(id) =>
        var user := users[id];
        if !user.isEmailVerified then LoginRejected(403, VerifyFirst)
        else if !Compare(password.value, user.password) then LoginRejected(401, BadCredentials)
        else
          var lifetime := if user.role == "admin" then "8h" else "2h";
          LoggedIn(Jwt(id, user.role, lifetime), id, OrElse(user.plan, "free"), user.isEmailVerified)
  }

  /** An unverified account is turned away before its password is compared:
      the answer is the same 403 whatever password is offered, so it reveals
      nothing about the password. */
  lemma {:induction false} UnverifiedRejectedBeforePassword(users: seq<User>, email: string,
                                                           p1: string, p2: string)
    requires EmailsUnique(users) && ValidateEmail(email) && p1 != "" && p2 != ""
    requires exists k :: 0 <= k < |users| && users[k].email == email && !users[k].isEmailVerified
    ensures Login(users, Some(email), Some(p1)) == LoginRejected(403, VerifyFirst)
    ensures Login(users, Some(email), Some(p2)) == LoginRejected(403, VerifyFirst)
  {
    var k :| 0 <= k < |users| && users[k].email == email && !users[k].isEmailVerified;
    assert FindOne(users, EmailIs(email)) == Some(k);
  }

  /** A wrong password on a verified account gets the same answer as an
      unknown email. */
  lemma {:induction false} WrongPasswordLooksLikeUnknownEmail(users: seq<User>, known: string,
                                                             unknown: string, password: string)
    requires EmailsUnique(users) && ValidateEmail(known) && ValidateEmail(unknown) && password != ""
    requires !EmailTaken(users, unknown)
    requires exists k :: 0 <= k < |users| && users[k].email == known && users[k].isEmailVerified
               && !Compare(password, users[k].password)
    ensures Login(users, Some(known), Some(password)) == Login(users, Some(unknown), Some(password))
  {
    var k :| 0 <= k < |users| && users[k].email == known && users[k].isEmailVerified
               && !Compare(password, users[k].password);
    assert FindOne(users, EmailIs(known)) == Some(k);
  }

  /** PUT /change-password, for the account id the session middleware
      attached to the request. */
  method ChangePassword(db: UserStore, id: nat, currentPassword: Option<string>,
                        newPassword: Option<string>) returns (reply: Reply)
    requires db.Valid()
    modifies db
    ensures db.Valid()
    ensures !Present(currentPassword) || !Present(newPassword)
      ==> reply == Reply(400, BothPasswordsRequired)
    ensures Present(currentPassword) && Present(newPassword) && |newPassword.value| < MinPasswordLength
      ==> reply == Reply(400, PasswordTooShort)
    ensures Present(currentPassword) && ValidatePassword(newPassword).isValid && id >= |old(db.users)|
      ==> reply == Reply(404, UserNotFound)
    ensures Present(currentPassword) && ValidatePassword(newPassword).isValid && id < |old(db.users)|
      && !Compare(currentPassword.value, old(db.users)[id].password)
      ==> reply == Reply(401, WrongCurrentPassword)
    ensures reply.status != 200 ==> unchanged(db)
    ensures reply.status == 200 <==>
      && Present(currentPassword) && ValidatePassword(newPassword).isValid && id < |old(db.users)|
      && Compare(currentPassword.value, old(db.users)[id].password)
    ensures reply.status == 200 ==>
      && Present(currentPassword) && ValidatePassword(newPassword).isValid && id < |old(db.users)|
      && Compare(currentPassword.value, old(db.users)[id].password)
      && reply == Reply(200, PasswordUpdated)
      && db.users == old(db.users)[id := old(db.users)[id].(password := Hash(newPassword.value))]
      && db.outbox == old(db.outbox)
  {
    if !Present(currentPassword) || !Present(newPassword) {
      return Reply(400, BothPasswordsRequired);
    }
    if |newPassword.value| < MinPasswordLength {
      return Reply(400, PasswordTooShort);
    }
    var user := FindById(db.users, id);
    if user.None? {
      return Reply(404, UserNotFound);
    }
    if !Compare(currentPassword.value, user.value.password) {
      return Reply(401, WrongCurrentPassword);
    }
    db.users := db.users[id := user.value.(password := Hash(newPassword.value))];
    reply := Reply(200, PasswordUpdated);
  }

  /** The two answers of forgot-password as the source writes them: a
      different message for a known and an unknown email. */
  function ForgotReplyAsWritten(known: bool): Reply
  {
    if known then Reply(200, ResetLinkSent) else Reply(200, ResetLinkMaybeSent)
  }

  /** The answers differ, so a caller learns whether an account exists. */
  lemma ForgotReplyRevealsAccount()
    ensures ForgotReplyAsWritten(true) != ForgotReplyAsWritten(false)
  {
  }

  /** POST /forgot-password. Only the SHA-256 digest of the reset token is
      stored; the token itself goes out by mail. The reply to a present email
      is the same whether or not an account has it (the source's intent; as
      written it is ForgotReplyAsWritten). */
  method ForgotPassword(db: UserStore, email: Option<string>, token: string, now: int)
    returns (reply: Reply)
    requires db.Valid()
    modifies db
    ensures db.Valid()
    ensures !Present(email) ==> reply == Reply(400, EmailRequired) && unchanged(db)
    ensures Present(email) ==> reply == Reply(200, ResetLinkMaybeSent)
    ensures Present(email) ==>
      var found := FindOne(old(db.users), EmailIs(email.value));
      && (found.None? ==> unchanged(db))
      && (found.Some? ==>
            && db.users == old(db.users)[found.value := IssueReset(old(db.users)[found.value], token, now)]
            && db.outbox == old(db.outbox) + [ResetMail(email.value, old(db.users)[found.value].username, token)])
  {
    if !Present(email) {
      return Reply(400, EmailRequired);
    }
    var found := FindOne(db.users, EmailIs(email.value));
    if found.None? {
      return Reply(200, ResetLinkMaybeSent);
    }
    var user := db.users[found.value];
    var digest := Sha256(token);
    user := user.(resetPasswordToken := Some(digest));
    user := user.(resetPasswordExpires := Some(now + ResetLifetime));
    db.users := db.users[found.value := user];
    db.outbox := db.outbox + [ResetMail(email.value, user.username, token)];
    reply := Reply(200, ResetLinkMaybeSent);
  }

  /** POST /reset-password/:token. */
  method ResetPassword(db: UserStore, token: string, password: Option<string>, now: int)
    returns (reply: Reply)
    requires db.Valid()
    modifies db
    ensures db.Valid()
    ensures !ValidatePassword(password).isValid ==> reply == Reply(400, PasswordTooShort) && unchanged(db)
    ensures ValidatePassword(password).isValid ==>
      var found := FindOne(old(db.users), ResetDigestIs(Sha256(token), now));
      && (found.None? ==> reply == Reply(400, InvalidReset) && unchanged(db))
      && (found.Some? ==>
            && reply == Reply(200, PasswordReset)
            && db.users == old(db.users)[found.value := CompleteReset(old(db.users)[found.value], password.value)]
            && db.outbox == old(db.outbox))
  {
    var check := ValidatePassword(password);
    if !check.isValid {
      return Reply(400, check.message);
    }
    var found := FindOne(db.users, ResetDigestIs(Sha256(token), now));
    if found.None? {
      return Reply(400, InvalidReset);
    }
    var user := db.users[found.value];
    // Hashed here, where the source relies on a save hook.
    user := user.(password := Hash(password.value));
    user := user.(resetPasswordToken := None);
    user := user.(resetPasswordExpires := None);
    db.users := db.users[found.value := user];
    reply := Reply(200, PasswordReset);
  }

  /** POST /upgrade: records a paid plan without any payment check. An id
      with no account changes nothing and still answers 200. */
  method Upgrade(db: UserStore, id: nat, plan: Option<string>, now: int) returns (reply: Reply)
    requires db.Valid()
    modifies db
    ensures db.Valid()
    ensures plan !in {Some("monthly"), Some("yearly"), Some("lifetime")}
      ==> reply == Reply(400, InvalidPlan) && unchanged(db)
    ensures plan in {Some("monthly"), Some("yearly"), Some("lifetime")} ==>
      && reply.status == 200 && db.outbox == old(db.outbox)
      && db.users == if id < |old(db.users)|
                     then old(db.users)[id := old(db.users)[id].(plan := plan, premiumSince := Some(now))]
                     else old(db.users)
  {
    if plan !in {Some("monthly"), Some("yearly"), Some("lifetime")} {
      return Reply(400, InvalidPlan);
    }
    if id < |db.users| {
      db.users := db.users[id := db.users[id].(plan := plan, premiumSince := Some(now))];
    }
    reply := Reply(200, "Upgraded to " + plan.value + " plan");
  }
  /** At most one account holds `token` as its verification token. */
  ghost predicate SoleVerificationHolder(users: seq<User>, token: string)
  {
    forall i, j :: 0 <= i < |users| && 0 <= j < |users|
      && users[i].emailVerificationToken == Some(token)
      && users[j].emailVerificationToken == Some(token)
      ==> i == j
  }

  /** A verification token works once: verifying the account that holds it
      clears it, so presenting it again, at any time, finds nobody. */
  lemma VerificationTokenSingleUse(users: seq<User>, token: string, now: int, later: int)
    requires SoleVerificationHolder(users, token)
    requires FindOne(users, VerificationTokenIs(token, now)).Some?
    ensures var i := FindOne(users, VerificationTokenIs(token, now)).value;
      FindOne(users[i := MarkVerified(users[i])], VerificationTokenIs(token, later)).None?
  {
  }

  /** At most one account holds `digest` as its reset-token digest. */
  ghost predicate SoleResetHolder(users: seq<User>, digest: Digest)
  {
    forall i, j :: 0 <= i < |users| && 0 <= j < |users|
      && users[i].resetPasswordToken == Some(digest)
      && users[j].resetPasswordToken == Some(digest)
      ==> i == j
  }

  /** A reset token works once: completing the reset clears the stored
      digest, so the same token is refused afterwards, at any time. */
  lemma ResetTokenSingleUse(users: seq<User>, token: string, password: string, now: int, later: int)
    requires SoleResetHolder(users, Sha256(token))
    requires FindOne(users, ResetDigestIs(Sha256(token), now)).Some?
    ensures var i := FindOne(users, ResetDigestIs(Sha256(token), now)).value;
      FindOne(users[i := CompleteReset(users[i], password)], ResetDigestIs(Sha256(token), later)).None?
  {
  }

  /** A reset issued at `issued` is honoured for exactly the token that was
      mailed, and only while `now` is strictly before the hour is up. */
  lemma IssuedResetAccepts(u: User, token: string, presented: string, issued: int, now: int)
    ensures Matches(IssueReset(u, token, issued), ResetDigestIs(Sha256(presented), now))
      <==> presented == token && now < issued + ResetLifetime
  {
  }

  /** The worked example of the account lifecycle: sign up, verify with the
      mailed token, log in as a regular user; a second verification with the
      same token is refused. */
  method SignupVerifyLoginScenario(db: UserStore, username: string, email: string, password: string,
                                   token: string, now: int, later: int)
    returns (login: LoginResult, again: Reply)
    requires db.Valid()
    requires ValidateEmail(email) && |password| >= MinPasswordLength && !EmailTaken(db.users, email)
    requires forall k :: 0 <= k < |db.users| ==> db.users[k].emailVerificationToken != Some(token)
    requires now <= later < now + VerificationLifetime
    modifies db
    ensures db.Valid()
    ensures login.LoggedIn? && login.session.role == "user" && login.session.expiresIn == "2h"
    ensures again == Reply(400, InvalidVerification)
  {
    ghost var before := db.users;
    var signedUp := Signup(db, username, None, Some(email), Some(password), None, token, now);
    assert EmailAccepted(Some(email));
    assert signedUp.status == 201;
    var id := |db.users| - 1;
    assert db.users == before + [NewAccount(username, None, email, password, None, token, now)];
    assert forall k :: 0 <= k < id ==> !Matches(db.users[k], VerificationTokenIs(token, later)) by {
      forall k | 0 <= k < id ensures !Matches(db.users[k], VerificationTokenIs(token, later)) {
        assert db.users[k] == before[k];
      }
    }
    assert Matches(db.users[id], VerificationTokenIs(token, later));
    assert FindOne(db.users, VerificationTokenIs(token, later)) == Some(id);
    var verified := VerifyEmail(db, token, later);
    assert db.users[id].email == email && db.users[id].isEmailVerified;
    assert FindOne(db.users, EmailIs(email)) == Some(id);
    login := Login(db.users, Some(email), Some(password));
    again := VerifyEmail(db, token, later);
  }

  /** The profile settings PUT /profile may write. */
  datatype ProfileSetting =
    | FullName | Bio | Location | BirthDate | Height | Weight | FitnessLevel | Goals
    | Notifications | Privacy
  {
    /** The request-body field the setting is copied from. */
    function Field(): string
    {
      match this
      case FullName => "fullName"
      case Bio => "bio"
      case Location => "location"
      case BirthDate => "birthDate"
      case Height => "height"
      case Weight => "weight"
      case FitnessLevel => "fitnessLevel"
      case Goals => "goals"
      case Notifications => "notifications"
      case Privacy => "privacy"
    }

    /** The document path it is stored under. */
    function Path(): string
    {
      match this
      case FullName => "fullName"
      case Bio => "bio"
      case Location => "location"
      case BirthDate => "birthDate"
      case Height => "height"
      case Weight => "weight"
      case FitnessLevel => "fitnessLevel"
      case Goals => "goals"
      case Notifications => "preferences.notifications"
      case Privacy => "preferences.privacy"
    }
  }

  /** `updates` holds, for the settings in `done`, exactly those whose body
      field is defined, each with the body's value. */
  ghost predicate CopiedSoFar<V>(updates: map<ProfileSetting, V>, body: map<string, V>,
                                 done: set<ProfileSetting>)
  {
    forall s :: (s in updates <==> s in done && s.Field() in body)
      && (s in updates ==> updates[s] == body[s.Field()])
  }

  /** One line of the handler: `if (req.body.f !== undefined) updates.f = req.body.f`. */
  method CopyIfDefined<V>(updates: map<ProfileSetting, V>, body: map<string, V>, s: ProfileSetting,
                          ghost done: set<ProfileSetting>) returns (next: map<ProfileSetting, V>)
    requires CopiedSoFar(updates, body, done)
    ensures CopiedSoFar(next, body, done + {s})
  {
    next := updates;
    if s.Field() in body {
      next := next[s := body[s.Field()]];
    }
  }

  lemma CopiedAll<V>(updates: map<ProfileSetting, V>, body: map<string, V>)
    requires CopiedSoFar(updates, body, {FullName, Bio, Location, BirthDate, Height, Weight, FitnessLevel, Goals, Notifications, Privacy})
    ensures forall s :: s in updates <==> s.Field() in body
    ensures forall s :: s in updates ==> updates[s] == body[s.Field()]
  {
    forall s: ProfileSetting {:trigger s.Field()} ensures s in {FullName, Bio, Location, BirthDate, Height, Weight, FitnessLevel, Goals, Notifications, Privacy} {
      match s
      case FullName => {}
      case Bio => {}
      case Location => {}
      case BirthDate => {}
      case Height => {}
      case Weight => {}
      case FitnessLevel => {}
      case Goals => {}
      case Notifications => {}
      case Privacy => {}
    }
  }

  /** PUT /profile builds its `$set` update setting by setting from the
      fields the body defines: a setting is written exactly when its field is
      defined, with the body's value. */
  method ProfileUpdates<V>(body: map<string, V>) returns (updates: map<ProfileSetting, V>)
    ensures forall s :: s in updates <==> s.Field() in body
    ensures forall s :: s in updates ==> updates[s] == body[s.Field()]
  {
    updates := map[];
    updates := CopyIfDefined(updates, body, FullName, {});
    updates := CopyIfDefined(updates, body, Bio, {FullName});
    updates := CopyIfDefined(updates, body, Location, {FullName, Bio});
    updates := CopyIfDefined(updates, body, BirthDate, {FullName, Bio, Location});
    updates := CopyIfDefined(updates, body, Height, {FullName, Bio, Location, BirthDate});
    updates := CopyIfDefined(updates, body, Weight, {FullName, Bio, Location, BirthDate, Height});
    updates := CopyIfDefined(updates, body, FitnessLevel, {FullName, Bio, Location, BirthDate, Height, Weight});
    updates := CopyIfDefined(updates, body, Goals, {FullName, Bio, Location, BirthDate, Height, Weight, FitnessLevel});
    updates := CopyIfDefined(updates, body, Notifications, {FullName, Bio, Location, BirthDate, Height, Weight, FitnessLevel, Goals});
    updates := CopyIfDefined(updates, body, Privacy, {FullName, Bio, Location, BirthDate, Height, Weight, FitnessLevel, Goals, Notifications});
    CopiedAll(updates, body);
  }

  /** No setting reaches the credential, role, verification or plan fields. */
  lemma ProfileCannotTouchAccount(s: ProfileSetting)
    ensures s.Path() !in {"password", "role", "email", "isEmailVerified", "isActive", "plan"}
  {
  }
}

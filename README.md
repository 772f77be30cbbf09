# GymBro backend: accounts, admin gate, plans and payments in Dafny

This project models the request handlers of the GymBro fitness app's
Express backend as state transitions over an in-memory user table and plan
collection. It then proves what each handler promises its callers.

- **Account lifecycle** (`routes/userRoutes.js`): signup, email verification,
  resending the verification mail, login, change-password, forgot-password
  and reset-password. Each is a fixed guard chain: every rejection returns a
  specific status and message and changes nothing. The single success path
  updates a few fields of one record. Upgrade and the whitelist of
  profile-update fields are modelled too.
- **Validators**: the email regular expression, written as a scanner and
  proved equal to the pattern, and the six-character password rule.
- **Admin gate** (`middleware/requireAdmin.js`): parses the bearer header,
  classifies token-verification failures, then checks the role before the
  active flag.
- **Plan collection** (`routes/planRoutes.js`): the sorted list, the
  body-type filter, lookup by id, and create, update and delete behind the
  admin gate.
- **Payments** (`routes/paymentRoutes.js`): the price table and the plan
  change recorded after the processor confirms a payment.
- **Provider sign-in** (`routes/authRoutes.js`): find-or-create for Google
  and Apple.
- **Admin routes** (`routes/adminRoutes.js`): admin signup, admin login and
  the stats counts.

## How external pieces are represented

- **Time**: the current time is an integer `now`, in milliseconds.
- **Hashing**: bcrypt and SHA-256 are the injective symbolic datatypes
  `Crypto.PasswordHash` and `Crypto.Digest`. `Compare(plain, h)` holds
  exactly when `h` is the hash of `plain`.
- **Sessions**: a signed session is the datatype
  `Jwt(userId, role, expiresIn)`.
- **Parameters**: the random verification and reset tokens are parameters.
  So are the outcome of `jwt.verify` (a function from token to
  `Verification`), the payment processor's reported status, and the random
  OAuth password.
- **Mail**: a sent mail is an append to `UserStore.outbox`.
- **The user table**: a `seq<User>` held by the class `Store.UserStore`. An
  account's id is its position. `findOne` returns the first record that
  matches. `Store.ValidUsers` is the table invariant, preserved by every
  handler: emails are unique, and each token is stored together with its
  expiry.
- **The plan collection**: a `seq<Plan>` held by the class
  `PlanRoutes.PlanStore`, with explicit ids and a counter for fresh ids. A
  sequence rather than a map keeps the natural order that the list and
  filter queries return.

### Where the model follows the code rather than the schemas

- **The user record**: `models/User.js` declares only username, phone, email
  and password. The record here has every field the routes read and write:
  role, isActive, the verification and reset fields, plan, premiumSince and
  the provider ids. A new account's role defaults to "user".
- **The plan record**: `models/Plan.js` lacks bodyType, focus, days, tips and
  icon, which the plan routes write. The plan record includes them.
- **Password hashing**: signup and reset-password store the plain password
  and rely on a pre-save hashing hook that is not part of this model.
  Change-password hashes explicitly and sets `skipPasswordHashing` so the
  hook leaves its hash alone. The model hashes at the point of storage in
  all three handlers.
- **Admin signup and the hook**: admin signup and provider sign-in also
  save through that hook. Admin signup hashes explicitly and saves without
  `skipPasswordHashing`. The model assumes the hook does not hash a value a
  second time when it is already a bcrypt hash, so the stored admin password
  is a single hash of the supplied one. Provider sign-in stores its random
  password plain, and the model takes the hook's single hash of it.
- **Signup**: the caller may pick the admin role.
- **Admin signup**: checks neither email shape nor password length, and it
  creates an account that is neither verified nor holds a verification
  token. As a result, user login refuses that account with 403.

## Model

| member | source | states |
|---|---|---|
| Validation.ValidateEmailIsPattern | routes/userRoutes.js:16-19 | The scanner accepts a string iff it is local@domain.tld: local in [A-Za-z0-9._%+-]+, domain in [A-Za-z0-9.-]+, and a final label of at least two letters after the last dot |
| Validation.FirstIndex | routes/userRoutes.js:16-19 | Returns the first position of the character, or None iff the character does not occur |
| Validation.LastIndex | routes/userRoutes.js:16-19 | Returns the last position of the character, or None iff the character does not occur |
| Validation.ValidatePassword | routes/userRoutes.js:22-30 | Valid iff the password is present with at least 6 characters; the message is empty when valid and "Password must be at least 6 characters" otherwise |
| Store.FindOne | routes/userRoutes.js:66 | Returns the first record matching the query (email, email with the admin role, unexpired verification token, unexpired reset digest), or None iff no record matches |
| Store.FindById | routes/userRoutes.js:392 | Returns the record at that id, or None iff there is no such account |
| Store.AppendValid | routes/userRoutes.js:66-84 | Appending a well-formed record whose email is not taken keeps the table invariant |
| UserRoutes.FinalRole | routes/userRoutes.js:74 | The stored role is "admin" iff the requested role is exactly "admin", otherwise "user" |
| UserRoutes.Signup | routes/userRoutes.js:43-108 | 400 with the store unchanged iff the email is missing or malformed, the password is short, or the email is taken, checked in that order with the matching message. Otherwise 201: one unverified account with the hashed password, the chosen role and a token expiring at now + 86,400,000 is appended, and one verification mail is queued |
| UserRoutes.VerifyEmail | routes/userRoutes.js:123-152 | 400 with nothing changed unless some record holds exactly this token with expiry > now. Otherwise that record becomes verified, both token fields are cleared, and nothing else changes |
| UserRoutes.ResendVerification | routes/userRoutes.js:155-190 | 404 for an unknown email and 400 for a verified account, both with nothing changed. Otherwise a new token expiring at now + 86,400,000 is stored and mailed |
| UserRoutes.Login | routes/userRoutes.js:193-257 | 400 when a field is missing or the email is malformed; 401 for an unknown email; 403 for an unverified account; 401 for a wrong password. With unique emails, login succeeds iff a verified account with that email has that password. The session lasts "8h" iff the role is admin, else "2h", and the plan reads "free" when unset |
| UserRoutes.UnverifiedRejectedBeforePassword | routes/userRoutes.js:218-235 | An unverified account gets 403 whatever password is supplied, the right one included |
| UserRoutes.WrongPasswordLooksLikeUnknownEmail | routes/userRoutes.js:211-232 | A verified account with a wrong password gets exactly the status and message of an unknown email |
| UserRoutes.ChangePassword | routes/userRoutes.js:374-426 | 400 for missing fields or a short new password; 404 for an unknown account; 401 for a wrong current password. Each leaves the store unchanged. Success (200) happens iff all checks pass, and it stores exactly the hash of the new password |
| UserRoutes.ForgotPassword | routes/userRoutes.js:429-481 | 400 for a missing email. For a present email the reply is the same whether or not an account has it. An unknown email changes nothing; for a known one only SHA-256(token) is stored, expiring at now + 3,600,000, and the raw token goes out by mail |
| UserRoutes.ResetPassword | routes/userRoutes.js:484-534 | A short or missing password gives 400 before any lookup. With no record holding SHA-256(token) with expiry > now, 400 and nothing changes. Otherwise the password is replaced by the new hash and both reset fields are cleared |
| UserRoutes.VerificationTokenSingleUse | routes/userRoutes.js:127-142 | Once the sole holder of a token is verified, the same token finds no account at any later time |
| UserRoutes.ResetTokenSingleUse | routes/userRoutes.js:503-518 | Once the sole holder of a reset digest completes a reset, the same token finds no account at any later time |
| UserRoutes.IssuedResetAccepts | routes/userRoutes.js:452-462 | A record given a reset at time t matches a presented token iff it is the mailed token and now < t + 3,600,000 (strict expiry) |
| UserRoutes.SignupVerifyLoginScenario | routes/userRoutes.js:43-257 | Signup, then verification with the mailed token, then login yields a "2h" user session; a second verification with the same token is refused |
| UserRoutes.Upgrade | routes/userRoutes.js:290-319 | Any plan other than monthly, yearly or lifetime gives 400 with nothing changed. Otherwise the account's plan and premiumSince are set, and the reply is 200 even when no account has the id |
| UserRoutes.ProfileUpdates | routes/userRoutes.js:338-356 | The update holds exactly the whitelisted settings that the body defines, each with the body's value |
| UserRoutes.ProfileCannotTouchAccount | routes/userRoutes.js:340-355 | No whitelisted setting writes the password, role, email, verification flag, active flag or plan |
| AdminGate.BearerToken | middleware/requireAdmin.js:13 | The token is the text after "Bearer " up to the next space, the header's second space-separated piece |
| AdminGate.BearerSplit | middleware/requireAdmin.js:13 | For a header that starts with "Bearer ", `split(' ')[1]` exists and is the text after the prefix up to the next space |
| AdminGate.VerifyFailure | middleware/requireAdmin.js:17-21 | TokenExpiredError gives "Session expired, please login again"; every other failure gives "Invalid authorization token" |
| AdminGate.RequireAdmin | middleware/requireAdmin.js:4-41 | A missing header, or one not starting with "Bearer ", gives 401 "Authorization token required". A verification failure gives 401 with the classified message. A missing account or a non-admin role gives 403 "Admin privileges required". isActive == false gives 403 "Admin account deactivated", and an absent flag does not block. The request is admitted, with the decoded id and stored role, iff every check passes |
| AdminGate.RoleCheckedBeforeActive | middleware/requireAdmin.js:25-37 | A deactivated non-admin is refused as a non-admin, not as deactivated |
| AdminGate.Forward | middleware/requireAdmin.js:39-40 | Only an admitted request gets `user = {userId, role}`; nothing else on the request changes |
| PlanRoutes.NormalizeDays | routes/planRoutes.js:65 | An array of days is kept as is; a single day becomes a one-element list |
| PlanRoutes.NewPlan | routes/planRoutes.js:60-69 | The stored plan carries the given fields, the normalised days, the icon defaulted to "fitness", the creator and the creation time |
| PlanRoutes.CreatorLostAsWritten | routes/planRoutes.js:68 | After the gate, reading `req.userId` yields no creator, while reading `req.user` yields the admitted admin |
| PlanRoutes.PlanStore.Create | routes/planRoutes.js:48-78 | A denied gate returns its status and message, and any falsy required field gives 400; both change nothing. Otherwise 201 and exactly one plan with a fresh id, created by the admitted admin, is appended |
| PlanRoutes.ApplyPatch | routes/planRoutes.js:83-87 | Supplied fields replace the stored ones, updatedAt becomes now, and the id, creator and createdAt are kept |
| PlanRoutes.PlanStore.Update | routes/planRoutes.js:81-98 | A denied gate and an unknown id (404 "Plan not found") change nothing. Otherwise only that plan is replaced by the patched one |
| PlanRoutes.PlanStore.Delete | routes/planRoutes.js:101-114 | A denied gate and an unknown id (404) change nothing. Otherwise exactly the plan with that id is removed, the others keep their order, and the reply is 200 "Plan deleted successfully" |
| PlanRoutes.DeleteRemovesExactly | routes/planRoutes.js:103-109 | With unique ids, cutting out the plan at its position leaves exactly the plans with a different id |
| PlanRoutes.IndexOf | routes/planRoutes.js:34 | Returns a position holding the id, or None iff no plan has it |
| PlanRoutes.GetById | routes/planRoutes.js:32-45 | Returns a stored plan with that id, or None (answered with 404) iff none has it |
| PlanRoutes.WithBodyType | routes/planRoutes.js:19-29 | Holds each stored plan whose bodyType equals the parameter exactly as often as it is stored, and no other plan |
| PlanRoutes.InOrderTotal | routes/planRoutes.js:10 | Any two plans are comparable in the list order |
| PlanRoutes.InOrderTransitive | routes/planRoutes.js:10 | The list order is transitive |
| PlanRoutes.InsertSorted | routes/planRoutes.js:10 | Inserting into a sorted list keeps it sorted and adds exactly that plan |
| PlanRoutes.SortPlansCorrect | routes/planRoutes.js:8-16 | The list is ordered by bodyType ascending, then createdAt descending, and holds exactly the stored plans |
| PaymentRoutes.Price | routes/paymentRoutes.js:14-18 | monthly costs 499 cents, yearly 3999 and lifetime 8999; every other id has no price |
| PaymentRoutes.InheritedMemberPassesGuard | routes/paymentRoutes.js:20-23 | Under the lookup as written, "constructor" passes the `!amount` guard though it is not in the price table |
| PaymentRoutes.CreatePaymentIntent | routes/paymentRoutes.js:10-41 | An intent is requested iff the plan is in the table, for exactly its price in "usd" and tagged with the plan. Every other plan gives 400 "Invalid plan" |
| PaymentRoutes.ConfirmPayment | routes/paymentRoutes.js:44-65 | Any status other than "succeeded" gives 400 "Payment not successful" with nothing changed. On success the account's plan is set to the sent plan id, unchecked against the price table, along with premiumSince |
| AuthRoutes.UsernameFor | routes/authRoutes.js:19 | The username is the name when truthy; otherwise the part of the email before the first '@' |
| AuthRoutes.NewFederatedUser | routes/authRoutes.js:18-24 | A first sign-in creates a verified "user" account that stores the provider's id and only that provider's id |
| AuthRoutes.ProviderSignIn | routes/authRoutes.js:9-92 | An existing email is reused with the store unchanged; otherwise exactly one new account is appended. The session lasts "30d" whatever the role, and the reply says verified even when the stored flag is false |
| AuthRoutes.SignInTwice | routes/authRoutes.js:14-26 | Two sign-ins with one email return the same account and add at most one record, and emails stay unique |
| AdminRoutes.NewAdmin | routes/adminRoutes.js:18-24 | Admin signup stores role "admin" and a hash that matches the supplied password |
| AdminRoutes.AdminSignup | routes/adminRoutes.js:8-31 | A taken email gives 400 "Email already in use" and a missing password gives 500, both with nothing changed. Otherwise 201 "Admin created!" and exactly one admin account is appended |
| AdminRoutes.AdminLogin | routes/adminRoutes.js:34-48 | No account with that email and role "admin" gives 400 "Admin not found". With unique emails, login succeeds iff such an account has that password. A wrong password gives 400 and a missing one 500 |
| AdminRoutes.CountsPartition | routes/adminRoutes.js:53-54 | The admin count plus the non-admin count equals the number of accounts |
| AdminRoutes.AdminCountZero | routes/adminRoutes.js:53 | The admin count is zero iff no account has role "admin" |
| AdminRoutes.CountsAreRoleTallies | routes/adminRoutes.js:53-54 | The admin count equals the number of times "admin" occurs in the role column, and the non-admin count is the rest |
| AdminRoutes.AdminStats | routes/adminRoutes.js:51-61 | admins is the number of accounts with role "admin" (the admin count, equal to the tally of "admin" in the role column); users is the count of the other accounts; admins + users equals the number of accounts; plans is the plan count |
| Strings.JoinSplit | middleware/requireAdmin.js:13 | Splitting on a separator and joining with it gives back the string |
| Strings.SplitFirst | routes/authRoutes.js:19 | The first piece of a split is the text before the first separator |
| Strings.LessTransitive | routes/planRoutes.js:10 | The string order used for bodyType is transitive |
| Strings.LessTotal | routes/planRoutes.js:10 | Any two distinct strings are ordered one way or the other |

## Left out

- HTTP framing, JSON bodies, `success` flags, console logging and the catch-all 500 answers are not modelled. The exceptions are the 500s that follow from a missing admin password.
- A request is modelled without the fields the source reads from `undefined`. Emails passed to lookups are strings, because a lookup on an undefined email depends on the database driver.
- The race between `findOne` and `save`, and the duplicate-key path at `routes/userRoutes.js:110-116`, depend on concurrency and the store's unique index.
- Schema validators and casting are not modelled: the required and unique username, and the `CastError` for a malformed ObjectId.
- Mail transport failure is not modelled. A mail is recorded in the outbox, and `utils/emailService.js` is not part of this model.
- The middleware `middleware/auth.js` behind the payment, upgrade, change-password and profile routes is not part of this model. The authenticated user id is an input.
- Read-only routes with no logic: GET `/`, `/profile` and `/plan` of the user routes, and `/stats` of the user routes, which returns constants.
- The news routes, the seed and admin scripts, and `server.js` are not part of this model.
- The payment processor's calls are not modelled; the reported status is an input.
- bcrypt, SHA-256, JWT signing and the token generators are not modelled. They appear as injective symbolic values and parameters.
- Validation.ValidatePassword, UserRoutes.ChangePassword: the six-character minimum counts the characters of a Dafny string, while JavaScript's `length` counts UTF-16 code units.
- AdminRoutes.NewAdmin, AdminRoutes.AdminSignup: rest on the assumption that the pre-save hook leaves an already-hashed password alone. If the hook hashed every modified password, the stored admin password would be hashed twice and admin login would refuse the right password; the hook is not part of this model.
- PlanRoutes.ApplyPatch: applies only the plan's known fields, while `findByIdAndUpdate` with `...req.body` can also set other fields, including `createdBy`.
- UserRoutes.ProfileUpdates: models which settings are copied, not the database update or the 404 for a missing account.
- Plan ids are fresh numbers from a counter rather than ObjectIds.

## Findings

| source | as written | input that shows it | evidently intended | confidence | as-written member | corrected member |
|---|---|---|---|---|---|---|
| routes/userRoutes.js:443-473 | An unknown email gets "If that email exists, a reset link has been sent"; a known one gets "Reset link sent successfully" | Any registered address against any unregistered one | One reply for both cases, as the comment at line 443 says, so the answer does not reveal whether an account exists | not executed | UserRoutes.ForgotReplyRevealsAccount | UserRoutes.ForgotPassword |
| routes/planRoutes.js:68 | `createdBy: req.userId`, while the admin gate sets `req.user = { userId, role }` | Any create admitted by the gate: `req.userId` is undefined | The creator is the admitted admin, as the comment on that line says | not executed | PlanRoutes.CreatorLostAsWritten | PlanRoutes.PlanStore.Create |
| routes/paymentRoutes.js:14-23 | `prices[planId]` also finds members inherited from `Object.prototype`, which are truthy | planId "constructor" passes the `!amount` guard, and the processor is then called with a function as the amount | Only the three table entries are accepted; anything else gets 400 "Invalid plan" | not executed | PaymentRoutes.InheritedMemberPassesGuard | PaymentRoutes.CreatePaymentIntent |

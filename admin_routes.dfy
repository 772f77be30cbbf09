/** The admin account routes: signup that always grants the admin role,
    login restricted to admin accounts, and the user counts of the stats
    page. */
module AdminRoutes {
  import opened Values
  import opened Crypto
  import opened Store

  const EmailInUse := "Email already in use"
  const AdminCreated := "Admin created!"
  const AdminNotFound := "Admin not found"
  const InvalidCredentials := "Invalid credentials"

  /** The record admin signup stores. No email shape or password length is
      checked here, and the verification flag keeps its default. */
  function NewAdmin(email: string, username: string, password: string): (u: User)
    ensures u.role == "admin" && u.email == email && Compare(password, u.password)
    ensures WellFormed(u) && !u.isEmailVerified
  {
    User(username, email, None, Hash(password), "admin", None, false,
         None, None, None, None, None, None, None, None)
  }

  /** POST /signup. Hashing a missing password throws, which the handler
      answers with 500. */
  method AdminSignup(db: UserStore, email: string, password: Option<string>, username: string)
    returns (reply: Reply)
    requires db.Valid()
    modifies db
    ensures db.Valid()
    ensures EmailTaken(old(db.users), email) ==> reply == Reply(400, EmailInUse) && unchanged(db)
    ensures !EmailTaken(old(db.users), email) && password.None? ==> reply.status == 500 && unchanged(db)
    ensures !EmailTaken(old(db.users), email) && password.Some? ==>
      && reply == Reply(201, AdminCreated)
      && db.users == old(db.users) + [NewAdmin(email, username, password.value)]
      && db.outbox == old(db.outbox)
  {
    var existing := FindOne(db.users, EmailIs(email));
    if existing.Some? {
      return Reply(400, EmailInUse);
    }
    if password.None? {
      return Reply(500, "Illegal arguments");
    }
    var hashed := Hash(password.value);
    var admin := User(username, email, None, hashed, "admin", None, false,
                      None, None, None, None, None, None, None, None);
    AppendValid(db.users, admin);
    db.users := db.users + [admin];
    reply := Reply(201, AdminCreated);
  }

  datatype AdminLoginResult = AdminRejected(reply: Reply) | AdminLoggedIn(adminId: nat)

  /** POST /login: `findOne({ email, role: 'admin' })`, then the password. */
  function AdminLogin(users: seq<User>, email: string, password: Option<string>): (r: AdminLoginResult)
    ensures (forall k :: 0 <= k < |users| ==> !(users[k].email == email && users[k].role == "admin"))
      ==> r == AdminRejected(Reply(400, AdminNotFound))
    ensures r.AdminLoggedIn? ==>
      && r.adminId < |users| && users[r.adminId].email == email && users[r.adminId].role == "admin"
      && password.Some? && Compare(password.value, users[r.adminId].password)
    ensures EmailsUnique(users) ==> (r.AdminLoggedIn? <==>
      password.Some? &&
      exists k :: 0 <= k < |users| && users[k].email == email &&
        users[k].role == "admin" && Compare(password.value, users[k].password))
    ensures password.None? && FindOne(users, AdminWithEmail(email)).Some?
      ==> r.AdminRejected? && r.reply.status == 500
    ensures password.Some? && FindOne(users, AdminWithEmail(email)).Some?
      && !Compare(password.value, users[FindOne(users, AdminWithEmail(email)).value].password)
      ==> r == AdminRejected(Reply(400, InvalidCredentials))
    ensures r.AdminRejected? ==> r.reply.status in {400, 500}
  {
    match FindOne(users, AdminWithEmail(email))
    case None => AdminRejected(Reply(400, AdminNotFound))
    case Some(id) =>
      if password.None? then AdminRejected(Reply(500, "Illegal arguments"))
      else if !Compare(password.value, users[id].password) then AdminRejected(Reply(400, InvalidCredentials))
      else AdminLoggedIn(id)
  }

  /** `countDocuments({ role: 'admin' })`. */
  function CountAdmins(users: seq<User>): nat
  {
    if users == [] then 0 else (if users[0].role == "admin" then 1 else 0) + CountAdmins(users[1..])
  }

  /** `countDocuments({ role: { $ne: 'admin' } })`. */
  function CountNonAdmins(users: seq<User>): nat
  {
    if users == [] then 0 else (if users[0].role != "admin" then 1 else 0) + CountNonAdmins(users[1..])
  }

  /** The two counts partition the accounts. */
  lemma {:induction false} CountsPartition(users: seq<User>)
    ensures CountAdmins(users) + CountNonAdmins(users) == |users|
  {
    if users != [] {
      CountsPartition(users[1..]);
    }
  }

  /** The role column of the accounts, in order. */
  function Roles(users: seq<User>): (roles: seq<string>)
    ensures |roles| == |users|
    ensures forall k :: 0 <= k < |users| ==> roles[k] == users[k].role
  {
    seq(|users|, k requires 0 <= k < |users| => users[k].role)
  }

  /** The admin count is the number of times "admin" occurs in the role
      column, and the non-admin count is everything else. */
  lemma {:induction false} CountsAreRoleTallies(users: seq<User>)
    ensures CountAdmins(users) == multiset(Roles(users))["admin"]
    ensures CountNonAdmins(users) == |users| - multiset(Roles(users))["admin"]
  {
    if users != [] {
      CountsAreRoleTallies(users[1..]);
      CountsPartition(users);
      assert Roles(users) == [users[0].role] + Roles(users[1..]);
    }
  }

  datatype Stats = Stats(admins: nat, users: nat, plans: nat)

  /** GET /stats. */
  function AdminStats(users: seq<User>, planCount: nat): (s: Stats)
    ensures s.admins == CountAdmins(users) && s.users == CountNonAdmins(users)
    ensures s.admins == multiset(Roles(users))["admin"]
    ensures s.admins + s.users == |users|
    ensures s.plans == planCount
    ensures s.admins == 0 <==> forall k :: 0 <= k < |users| ==> users[k].role != "admin"
  {
    CountsPartition(users);
    AdminCountZero(users);
    CountsAreRoleTallies(users);
    Stats(CountAdmins(users), CountNonAdmins(users), planCount)
  }

  lemma {:induction false} AdminCountZero(users: seq<User>)
    ensures CountAdmins(users) == 0 <==> forall k :: 0 <= k < |users| ==> users[k].role != "admin"
  {
    if users != [] {
      AdminCountZero(users[1..]);
      assert forall k :: 1 <= k < |users| ==> users[k] == users[1..][k - 1];
    }
  }
}

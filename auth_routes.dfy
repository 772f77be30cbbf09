/** Sign-in through an identity provider (Google or Apple): find the account
    by email or create an already-verified one, then issue a 30-day session. */
module AuthRoutes {
  import opened Values
  import opened Strings
  import opened Crypto
  import opened Store

  datatype Provider = Google | Apple

  const SessionLifetime := "30d"

  /** `name || email.split('@')[0]`. */
  function UsernameFor(name: Option<string>, email: string): (username: string)
    ensures Present(name) ==> username == name.value
    ensures !Present(name) ==>
      && '@' !in username && |username| <= |email| && username == email[..|username|]
      && (|username| < |email| ==> email[|username|] == '@')
  {
    SplitFirst(email, '@');
    if Present(name) then name.value else Split(email, '@')[0]
  }

  /** The record created on a first sign-in: verified, carrying the
      provider's id, with a random password hashed like any other. */
  function NewFederatedUser(provider: Provider, email: string, name: Option<string>,
                            providerId: Option<string>, randomPassword: string): (u: User)
    ensures u.email == email && u.isEmailVerified && u.role == "user"
    ensures WellFormed(u)
    ensures provider == Google ==> u.googleId == providerId && u.appleId == None
    ensures provider == Apple ==> u.appleId == providerId && u.googleId == None
  {
    User(UsernameFor(name, email), email, None, Hash(randomPassword), "user", None, true,
         None, None, None, None, None, None,
         if provider == Google then providerId else None,
         if provider == Apple then providerId else None)
  }

  /** The JSON answer of a provider sign-in. */
  datatype SignIn = SignIn(session: SessionToken, id: nat, username: string, email: string,
                           role: string, isEmailVerified: bool)

  /** POST /google and POST /apple. */
  method ProviderSignIn(db: UserStore, provider: Provider, email: string, name: Option<string>,
                        providerId: Option<string>, randomPassword: string) returns (r: SignIn)
    requires db.Valid()
    modifies db
    ensures db.Valid()
    ensures EmailTaken(old(db.users), email) ==> unchanged(db)
    ensures !EmailTaken(old(db.users), email) ==>
      && db.users == old(db.users) + [NewFederatedUser(provider, email, name, providerId, randomPassword)]
      && db.outbox == old(db.outbox)
    ensures r.id < |db.users| && db.users[r.id].email == email
    ensures r.session == Jwt(r.id, db.users[r.id].role, SessionLifetime)
    ensures r.role == db.users[r.id].role && r.username == db.users[r.id].username
    ensures r.isEmailVerified
  {
    var found := FindOne(db.users, EmailIs(email));
    var id: nat;
    if found.Some? {
      id := found.value;
    } else {
      var user := User(UsernameFor(name, email), email, None, Hash(randomPassword), "user", None, true,
                       None, None, None, None, None, None, None, None);
      if provider == Google {
        user := user.(googleId := providerId);
      } else {
        user := user.(appleId := providerId);
      }
      AppendValid(db.users, user);
      db.users := db.users + [user];
      id := |db.users| - 1;
    }
    var user := db.users[id];
    r := SignIn(Jwt(id, user.role, SessionLifetime), id, user.username, user.email, user.role, true);
  }

  /** Signing in twice with the same email creates at most one account: the
      second call finds the first call's record and changes nothing. */
  method SignInTwice(db: UserStore, provider: Provider, email: string, name: Option<string>,
                     providerId: Option<string>, randomPassword: string)
    returns (first: SignIn, second: SignIn)
    requires db.Valid()
    modifies db
    ensures db.Valid()
    ensures |db.users| <= |old(db.users)| + 1
    ensures first.id == second.id
    ensures forall i, j :: 0 <= i < j < |db.users| ==> db.users[i].email != db.users[j].email
  {
    first := ProviderSignIn(db, provider, email, name, providerId, randomPassword);
    ghost var between := db.users;
    second := ProviderSignIn(db, provider, email, name, providerId, randomPassword);
    assert db.users == between;
  }
}

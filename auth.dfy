/** The email-and-password endpoints: register, login, logout and the profile
    update. The access token is represented by its `sub` claim. */
module AuthApi {
  import opened Wrappers
  import opened DateTimes
  import opened Uuid
  import opened Store
  import opened AuthService
  import opened Dependencies

  /** The `Token` response: the access token (by its subject), "bearer", and the
      user id as text. */
  datatype Token = Token(accessTokenSubject: string, tokenType: string, userId: string)

  function TokenFor(id: Id): Token
    requires id < UuidBound
  {
    Token(TokenSubject(id), "bearer", UuidText(id))
  }

  /** `register`: a used email is refused; otherwise a password user is created and
      logged in. */
  method Register(db: Db, email: string, passwordHash: string, now: Instant) returns (r: Result<Token>)
    requires db.Valid() && db.nextId < UuidBound
    modifies db`users, db`nextId
    ensures db.Valid()
    ensures UserByEmail(old(db.users), email).Some? <==> r.Err?
    ensures r.Err? ==>
      r == Err(BadRequest("Email already registered")) && db.users == old(db.users) && db.nextId == old(db.nextId)
    ensures r.Ok? ==>
      var id := old(db.nextId);
      id !in old(db.users) && db.users == old(db.users)[id := NewEmailUser(email, passwordHash, now)]
      && r.value == TokenFor(id)
  {
    if UserByEmail(db.users, email).Some? {
      return Err(BadRequest("Email already registered"));
    }
    var id := CreateUser(db, email, passwordHash, now);
    r := Ok(TokenFor(id));
  }

  /** Registering twice with one email creates one user: the second attempt is
      refused. */
  lemma RegisterTwiceRefused(users: map<Id, User>, email: string, passwordHash: string, id: Id, now: Instant)
    ensures UserByEmail(users[id := NewEmailUser(email, passwordHash, now)], email).Some?
  {
    var m := users[id := NewEmailUser(email, passwordHash, now)];
    assert m[id].email == email;
  }

  /** `login`: a failed authentication is a 401; a successful one returns a token
      that the request dependencies accept for that user. */
  method Login(db: Db, email: string, password: string, verify: (string, string) -> bool, now: Instant)
    returns (r: Result<Token>)
    requires db.Valid() && db.nextId <= UuidBound
    modifies db`users
    ensures db.Valid()
    ensures var a := Authenticate(old(db.users), email, password, verify);
      (r.Ok? <==> a.Some?)
      && (r.Err? ==> r == Err(Unauthorized("Incorrect email or password")) && db.users == old(db.users))
      && (r.Ok? ==> a.value < UuidBound && r.value == TokenFor(a.value)
                    && CurrentUser(db.users, Some(Payload(Some(r.value.accessTokenSubject)))) == Ok(a.value))
  {
    var found := AuthenticateUser(db, email, password, verify, now);
    if found.None? {
      return Err(Unauthorized("Incorrect email or password"));
    }
    assert found.value in old(db.users);
    IssuedTokenAccepted(db.users, found.value);
    r := Ok(TokenFor(found.value));
  }

  /** `logout` changes nothing: it has no state to change. */
  method Logout(db: Db, userId: Id) returns (message: string)
    ensures message == "Logged out successfully"
  {
    message := "Logged out successfully";
  }

  /** The schema classes app/schemas/user.py defines. */
  const UserSchemaClasses: set<string> :=
    {"UserBase", "UserCreate", "UserLogin", "UserResponse", "UserUpdate",
     "FirebaseAuthRequest", "GoogleAuthRequest", "LinkAccountRequest", "AuthProvidersResponse"}

  /** The names this module imports from app/schemas/user.py, in order. */
  const AuthSchemaImports: seq<string> := ["UserCreate", "UserLogin", "UserResponse", "UserProfileUpdate"]

  /** `from m import n1, n2, ...` binds the names in turn; the first one `m` does not
      define raises `ImportError`, given here by that name, and `None` means every
      name was bound. */
  function ImportNames(defined: set<string>, names: seq<string>): (missing: Option<string>)
    ensures missing.None? <==> forall n :: n in names ==> n in defined
    ensures missing.Some? ==> missing.value in names && missing.value !in defined
  {
    if names == [] then None
    else if names[0] !in defined then Some(names[0])
    else ImportNames(defined, names[1..])
  }

  /** As written, loading this module raises `ImportError` on `UserProfileUpdate`;
      the router package imports it, so no route of the API is served. */
  lemma AuthImportFailsAsWritten()
    ensures ImportNames(UserSchemaClasses, AuthSchemaImports) == Some("UserProfileUpdate")
  {
  }

  /** The schema module with `UserProfileUpdate` defined, as `ProfileUpdate` below
      gives its fields. */
  const UserSchemaClassesCorrected: set<string> := UserSchemaClasses + {"UserProfileUpdate"}

  /** With `UserProfileUpdate` defined, every import of this module resolves, and
      those that resolved before still name the same classes. */
  lemma AuthImportsCorrected()
    ensures ImportNames(UserSchemaClassesCorrected, AuthSchemaImports).None?
    ensures UserSchemaClasses <= UserSchemaClassesCorrected
  {
  }

  /** The profile fields the endpoint reads, which is what `UserProfileUpdate` is
      evidently meant to hold. */
  datatype ProfileUpdate = ProfileUpdate(displayName: Option<string>, photoUrl: Option<string>,
                                         defaultCurrency: Option<string>, onboardingCompleted: Option<bool>)

  /** `update_user_profile`: a field sent as non-null is assigned, every other field is
      left as it was. */
  method UpdateUserProfile(db: Db, userId: Id, p: ProfileUpdate) returns (u: User)
    requires userId in db.users
    modifies db`users
    ensures db.users == old(db.users)[userId := u]
    ensures u == old(db.users[userId]).(displayName := u.displayName, photoUrl := u.photoUrl)
    ensures u.displayName == (if p.displayName.Some? then p.displayName else old(db.users[userId].displayName))
    ensures u.photoUrl == (if p.photoUrl.Some? then p.photoUrl else old(db.users[userId].photoUrl))
  {
    u := db.users[userId];
    if p.displayName.Some? {
      u := u.(displayName := p.displayName);
    }
    if p.photoUrl.Some? {
      u := u.(photoUrl := p.photoUrl);
    }
    db.users := db.users[userId := u];
  }
}

/** `AuthService`: user lookups, sign-up with a password, password login and the
    subject of the access token. Hashing and checking passwords is the security
    module's work: a hash is an input and the check is a function passed in. */
module AuthService {
  import opened Wrappers
  import opened DateTimes
  import opened Uuid
  import opened Store

  /** `get_user_by_email`: the first user with that email (the column is unique, so
      there is at most one). */
  function UserByEmail(users: map<Id, User>, email: string): (r: Option<Id>)
    ensures r.Some? <==> exists k :: k in users && users[k].email == email
    ensures r.Some? ==> r.value in users && users[r.value].email == email
  {
    var ids := set k | k in users && users[k].email == email;
    if ids == {} then
      assert forall k :: k in users && users[k].email == email ==> k in ids;
      None
    else Some(MinId(ids))
  }

  /** `get_user_by_id`: a string that is not a UUID finds nobody. */
  function UserById(users: map<Id, User>, text: string): (r: Option<Id>)
    ensures r.Some? <==> ParseUuid(text).Some? && ParseUuid(text).value in users
    ensures r.Some? ==> r == ParseUuid(text)
  {
    match ParseUuid(text)
    case None => None
    case Some(id) => if id in users then Some(id) else None
  }

  /** The row `create_user` adds: active, free tier, email provider, with the hash. */
  function NewEmailUser(email: string, passwordHash: string, now: Instant): User {
    User(email, Some(passwordHash), None, "email", None, None, None, false, now, None, true, "free", None)
  }

  method CreateUser(db: Db, email: string, passwordHash: string, now: Instant) returns (id: Id)
    requires db.Valid()
    modifies db`users, db`nextId
    ensures db.Valid() && id == old(db.nextId) && id !in old(db.users)
    ensures db.users == old(db.users)[id := NewEmailUser(email, passwordHash, now)]
  {
    id := db.NewId();
    db.users := db.users[id := NewEmailUser(email, passwordHash, now)];
  }

  /** Who `authenticate_user` lets in: the user with that email, if it has a password
      hash and the password checks against it. */
  function Authenticate(users: map<Id, User>, email: string, password: string, verify: (string, string) -> bool): Option<Id> {
    match UserByEmail(users, email)
    case None => None
    case Some(id) =>
      if !Truthy(users[id].passwordHash) then None
      else if !verify(password, users[id].passwordHash.value) then None
      else Some(id)
  }

  /** Nobody is let in for an unknown email, an account without a password or a
      wrong password; whoever is let in has that email and a password that checks. */
  lemma AuthenticateSpec(users: map<Id, User>, email: string, password: string, verify: (string, string) -> bool)
    ensures var r := Authenticate(users, email, password, verify);
      ((forall k :: k in users ==> users[k].email != email) ==> r.None?)
      && (r.Some? ==>
            r.value in users && users[r.value].email == email && Truthy(users[r.value].passwordHash)
            && verify(password, users[r.value].passwordHash.value))
      && (r.None? && UserByEmail(users, email).Some? ==>
            var u := users[UserByEmail(users, email).value];
            !Truthy(u.passwordHash) || !verify(password, u.passwordHash.value))
  {
  }

  /** A password-less account (one made through Firebase) can never log in with a
      password. */
  lemma NoPasswordNoLogin(users: map<Id, User>, email: string, password: string, verify: (string, string) -> bool)
    requires forall k :: k in users && users[k].email == email ==> users[k].passwordHash.None?
    ensures Authenticate(users, email, password, verify).None?
  {
  }

  /** `authenticate_user`, which also stamps `last_login` on success. */
  method AuthenticateUser(db: Db, email: string, password: string, verify: (string, string) -> bool, now: Instant)
    returns (r: Option<Id>)
    modifies db`users
    ensures r == Authenticate(old(db.users), email, password, verify)
    ensures r.None? ==> db.users == old(db.users)
    ensures r.Some? ==> db.users == old(db.users)[r.value := old(db.users)[r.value].(lastLogin := Some(now))]
  {
    var found := UserByEmail(db.users, email);
    if found.None? {
      return None;
    }
    var id := found.value;
    var user := db.users[id];
    if !Truthy(user.passwordHash) {
      return None;
    }
    if !verify(password, user.passwordHash.value) {
      return None;
    }
    db.users := db.users[id := user.(lastLogin := Some(now))];
    r := Some(id);
  }

  /** `create_access_token_for_user`: the token's `sub` claim is the id's canonical
      text, which reads back as the same id. The token encoding is not modelled. */
  function TokenSubject(id: Id): (sub: string)
    requires id < UuidBound
    ensures ParseUuid(sub) == Some(id)
  {
    UuidRoundTrip(id);
    UuidText(id)
  }
}

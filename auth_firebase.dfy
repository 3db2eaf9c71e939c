/** Firebase sign-in: logging in or signing up with a Firebase ID token, linking a
    Google identity to a password account, unlinking it, and listing a user's sign-in
    methods. Verifying the token is the Firebase Admin SDK's work: its outcome is
    the input. */
module AuthFirebaseApi {
  import opened Wrappers
  import opened DateTimes
  import opened Uuid
  import opened Store
  import opened FirebaseAuthService

  /** What `verify_firebase_token` did: decoded the token, raised `ValueError` (a bad
      or expired token), or raised `RuntimeError` (the SDK is not initialised). */
  datatype TokenCheck = Decoded(claims: Claims) | Rejected(message: string) | Uninitialized(message: string)

  /** The first user holding a Firebase uid (the column is unique). */
  function UidHolder(users: map<Id, User>, uid: string): (r: Option<Id>)
    ensures r.Some? <==> exists k :: k in users && users[k].firebaseUid == Some(uid)
    ensures r.Some? ==> r.value in users && users[r.value].firebaseUid == Some(uid)
  {
    var ids := set k | k in users && users[k].firebaseUid == Some(uid);
    if ids == {} then
      assert forall k :: k in users && users[k].firebaseUid == Some(uid) ==> k in ids;
      None
    else Some(MinId(ids))
  }

  /** The first user holding a Google id (the column is unique). */
  function GoogleHolder(users: map<Id, User>, gid: string): (r: Option<Id>)
    ensures r.Some? <==> exists k :: k in users && users[k].googleId == Some(gid)
    ensures r.Some? ==> r.value in users && users[r.value].googleId == Some(gid)
  {
    var ids := set k | k in users && users[k].googleId == Some(gid);
    if ids == {} then
      assert forall k :: k in users && users[k].googleId == Some(gid) ==> k in ids;
      None
    else Some(MinId(ids))
  }

  /** The first user with an email; a token without one finds nobody, since the
      column is never null. */
  function EmailHolder(users: map<Id, User>, email: Option<string>): (r: Option<Id>)
    ensures r.Some? <==> email.Some? && exists k :: k in users && users[k].email == email.value
    ensures r.Some? ==> r.value in users && users[r.value].email == email.value
  {
    if email.None? then None
    else
      var ids := set k | k in users && users[k].email == email.value;
      if ids == {} then
        assert forall k :: k in users && users[k].email == email.value ==> k in ids;
        None
      else Some(MinId(ids))
  }

  /** The database's unique constraint on `firebase_uid`. */
  predicate UniqueUids(users: map<Id, User>) {
    forall a, b :: a in users && b in users && users[a].firebaseUid.Some? && users[a].firebaseUid == users[b].firebaseUid ==> a == b
  }

  // ---------------------------------------------------------------------------
  // `authenticate_with_firebase` (and its alias `authenticate_with_google`).

  /** The row created for a new Firebase user: no password, free tier, active. */
  function NewFirebaseUser(info: UserInfo, now: Instant): User
    requires info.email.Some?
  {
    User(info.email.value, None, Some(info.firebaseUid), info.authProvider, GoogleId(info), info.displayName,
         info.photoUrl, info.emailVerified, now, None, true, "free", None)
  }

  datatype SignedIn = SignedIn(users: map<Id, User>, userId: Id)

  /** The decision tree, with `id` the id a new user would get. A null email or a
      Google id already taken makes the insert fail, which the endpoint reports as
      an unexpected error. */
  function Authenticate(users: map<Id, User>, check: TokenCheck, id: Id, now: Instant): Result<SignedIn> {
    match check
    case Rejected(m) => Err(Unauthorized("Invalid Firebase token: " + m))
    case Uninitialized(m) => Err(ServerError("Firebase initialization error: " + m))
    case Decoded(c) =>
      var info := UserInfoFromToken(c);
      match UidHolder(users, info.firebaseUid)
      case Some(k) => Ok(SignedIn(users[k := users[k].(lastLogin := Some(now))], k))
      case None =>
        if EmailHolder(users, info.email).Some? then Err(Conflict("Account with this email already exists"))
        else if info.email.None? then Err(ServerError("Authentication failed: IntegrityError"))
        else if GoogleId(info).Some? && GoogleHolder(users, GoogleId(info).value).Some? then
          Err(ServerError("Authentication failed: IntegrityError"))
        else Ok(SignedIn(users[id := NewFirebaseUser(info, now)], id))
  }

  /** A known uid logs its user in and creates nobody; an unknown uid whose email is
      taken is a conflict that changes nothing; otherwise a password-less, free,
      active user is created. The uid stays unique. */
  lemma AuthenticateSpec(users: map<Id, User>, c: Claims, id: Id, now: Instant)
    requires id !in users
    ensures var r := Authenticate(users, Decoded(c), id, now);
      var info := UserInfoFromToken(c);
      ((exists k :: k in users && users[k].firebaseUid == Some(c.uid)) ==>
         r.Ok? && r.value.users.Keys == users.Keys && users[r.value.userId].firebaseUid == Some(c.uid)
         && r.value.users[r.value.userId] == users[r.value.userId].(lastLogin := Some(now)))
      && ((forall k :: k in users ==> users[k].firebaseUid != Some(c.uid)) && EmailHolder(users, c.email).Some? ==>
            r == Err(Conflict("Account with this email already exists")))
      && (r.Ok? && r.value.userId == id ==>
            r.value.users == users[id := NewFirebaseUser(info, now)]
            && r.value.users[id].passwordHash.None? && r.value.users[id].subscriptionTier == "free"
            && r.value.users[id].isActive && r.value.users[id].firebaseUid == Some(c.uid))
      && (r.Ok? ==> r.value.userId == id || r.value.userId in users)
      && (r.Ok? && UniqueUids(users) ==> UniqueUids(r.value.users))
  {
    var info := UserInfoFromToken(c);
    var r := Authenticate(users, Decoded(c), id, now);
    if r.Ok? && UniqueUids(users) && r.value.userId == id {
      forall a, b | a in r.value.users && b in r.value.users && r.value.users[a].firebaseUid.Some?
                    && r.value.users[a].firebaseUid == r.value.users[b].firebaseUid
        ensures a == b
      {
        if a != id && b != id {
          assert users[a].firebaseUid == users[b].firebaseUid;
        }
      }
    }
  }

  method AuthenticateWithFirebase(db: Db, check: TokenCheck, now: Instant) returns (r: Result<Id>)
    requires db.Valid()
    modifies db`users, db`nextId
    ensures db.Valid()
    ensures var a := Authenticate(old(db.users), check, old(db.nextId), now);
      (r.Ok? <==> a.Ok?)
      && (r.Err? ==> r == Err(a.error) && db.users == old(db.users))
      && (r.Ok? ==> db.users == a.value.users && r.value == a.value.userId)
  {
    match check {
      case Rejected(m) =>
        return Err(Unauthorized("Invalid Firebase token: " + m));
      case Uninitialized(m) =>
        return Err(ServerError("Firebase initialization error: " + m));
      case Decoded(c) =>
        var info := UserInfoFromToken(c);
        var existing := UidHolder(db.users, info.firebaseUid);
        if existing.Some? {
          var k := existing.value;
          db.users := db.users[k := db.users[k].(lastLogin := Some(now))];
          return Ok(k);
        }
        if EmailHolder(db.users, info.email).Some? {
          return Err(Conflict("Account with this email already exists"));
        }
        if info.email.None? || (GoogleId(info).Some? && GoogleHolder(db.users, GoogleId(info).value).Some?) {
          return Err(ServerError("Authentication failed: IntegrityError"));
        }
        var id := db.NewId();
        db.users := db.users[id := NewFirebaseUser(info, now)];
        r := Ok(id);
    }
  }

  // ---------------------------------------------------------------------------
  // `link_google_account`.

  /** The user after linking: the token's uid and Google id, the token's name and
      photo where it has them, the token's verified flag, a login stamp, and the
      provider "google" in place of "email". */
  function Linked(u: User, info: UserInfo, now: Instant): User {
    u.(firebaseUid := Some(info.firebaseUid),
       googleId := GoogleId(info),
       displayName := if Truthy(info.displayName) then info.displayName else u.displayName,
       photoUrl := if Truthy(info.photoUrl) then info.photoUrl else u.photoUrl,
       emailVerified := info.emailVerified,
       lastLogin := Some(now),
       authProvider := if u.authProvider == "email" then "google" else u.authProvider)
  }

  /** Another user already holds the uid, or the Google id when there is one. */
  predicate TakenByOther(users: map<Id, User>, id: Id, info: UserInfo) {
    (UidHolder(users, info.firebaseUid).Some? && UidHolder(users, info.firebaseUid).value != id)
    || (Truthy(GoogleId(info)) && GoogleHolder(users, GoogleId(info).value).Some?
        && GoogleHolder(users, GoogleId(info).value).value != id)
  }

  function Link(users: map<Id, User>, check: TokenCheck, password: string, verify: (string, string) -> bool,
                now: Instant): Result<SignedIn>
  {
    match check
    case Rejected(m) => Err(Unauthorized("Invalid Firebase token: " + m))
    case Uninitialized(_) => Err(ServerError("Account linking failed"))
    case Decoded(c) =>
      var info := UserInfoFromToken(c);
      match EmailHolder(users, info.email)
      case None => Err(NotFound("No account found with this email"))
      case Some(id) =>
        var u := users[id];
        if !Truthy(u.passwordHash) then Err(BadRequest("Account has no password set"))
        else if !verify(password, u.passwordHash.value) then Err(Unauthorized("Incorrect password"))
        else if TakenByOther(users, id, info) then Err(Conflict("This Google account is already linked to another user"))
        else if GoogleId(info).Some? && GoogleHolder(users, GoogleId(info).value).Some?
                && GoogleHolder(users, GoogleId(info).value).value != id then
          Err(ServerError("Account linking failed"))
        else Ok(SignedIn(users[id := Linked(u, info, now)], id))
  }

  /** Linking needs the token's email to name an account with a password that
      checks, and the uid and Google id to be free or already this account's.
      Only that account changes, and the uid stays unique. */
  lemma LinkSpec(users: map<Id, User>, c: Claims, password: string, verify: (string, string) -> bool, now: Instant)
    ensures var r := Link(users, Decoded(c), password, verify, now);
      var info := UserInfoFromToken(c);
      (EmailHolder(users, c.email).None? ==> r == Err(NotFound("No account found with this email")))
      && (r.Ok? ==>
            var id := r.value.userId;
            EmailHolder(users, c.email) == Some(id) && Truthy(users[id].passwordHash)
            && verify(password, users[id].passwordHash.value)
            && r.value.users == users[id := Linked(users[id], info, now)])
      && (r.Ok? && UniqueUids(users) ==>
            (forall k :: k in users && k != r.value.userId ==> users[k].firebaseUid != Some(c.uid))
            && UniqueUids(r.value.users))
  {
    var info := UserInfoFromToken(c);
    var r := Link(users, Decoded(c), password, verify, now);
    if r.Ok? && UniqueUids(users) {
      var id := r.value.userId;
      forall k | k in users && k != id
        ensures users[k].firebaseUid != Some(c.uid)
      {
        assert users[k].firebaseUid != Some(c.uid) || UidHolder(users, c.uid) == Some(id);
      }
      {
        var m := r.value.users;
        forall a, b | a in m && b in m && m[a].firebaseUid.Some? && m[a].firebaseUid == m[b].firebaseUid
          ensures a == b
        {
          if a != id && b != id {
            assert users[a].firebaseUid == users[b].firebaseUid;
          }
        }
      }
    }
  }

  /** Linking keeps the account's name and photo when the token has none, and only
      an "email" provider turns into "google". */
  lemma LinkedKeeps(u: User, info: UserInfo, now: Instant)
    ensures !Truthy(info.displayName) ==> Linked(u, info, now).displayName == u.displayName
    ensures !Truthy(info.photoUrl) ==> Linked(u, info, now).photoUrl == u.photoUrl
    ensures u.authProvider != "email" ==> Linked(u, info, now).authProvider == u.authProvider
    ensures u.authProvider == "email" ==> Linked(u, info, now).authProvider == "google"
    ensures Linked(u, info, now).passwordHash == u.passwordHash && Linked(u, info, now).email == u.email
  {
  }

  method LinkGoogleAccount(db: Db, check: TokenCheck, password: string, verify: (string, string) -> bool, now: Instant)
    returns (r: Result<Id>)
    modifies db`users
    ensures var a := Link(old(db.users), check, password, verify, now);
      (r.Ok? <==> a.Ok?)
      && (r.Err? ==> r == Err(a.error) && db.users == old(db.users))
      && (r.Ok? ==> db.users == a.value.users && r.value == a.value.userId)
  {
    match check {
      case Rejected(m) =>
        return Err(Unauthorized("Invalid Firebase token: " + m));
      case Uninitialized(_) =>
        return Err(ServerError("Account linking failed"));
      case Decoded(c) =>
        var info := UserInfoFromToken(c);
        var found := EmailHolder(db.users, info.email);
        if found.None? {
          return Err(NotFound("No account found with this email"));
        }
        var id := found.value;
        var u := db.users[id];
        if !Truthy(u.passwordHash) {
          return Err(BadRequest("Account has no password set"));
        }
        if !verify(password, u.passwordHash.value) {
          return Err(Unauthorized("Incorrect password"));
        }
        if TakenByOther(db.users, id, info) {
          return Err(Conflict("This Google account is already linked to another user"));
        }
        if GoogleId(info).Some? && GoogleHolder(db.users, GoogleId(info).value).Some?
           && GoogleHolder(db.users, GoogleId(info).value).value != id {
          return Err(ServerError("Account linking failed"));
        }
        db.users := db.users[id := Linked(u, info, now)];
        r := Ok(id);
    }
  }

  // ---------------------------------------------------------------------------
  // `unlink_google_account`.

  function Unlink(u: User): Result<User> {
    if !Truthy(u.passwordHash) then Err(BadRequest("Cannot unlink Google account. Please set a password first."))
    else if !Truthy(u.firebaseUid) && !Truthy(u.googleId) then Err(BadRequest("No Google account is linked"))
    else Ok(u.(firebaseUid := None, googleId := None, authProvider := "email"))
  }

  /** Unlinking needs a password to fall back on and a link to remove; afterwards the
      user has no uid, no Google id and the provider "email". */
  lemma UnlinkSpec(u: User)
    ensures var r := Unlink(u);
      (r.Ok? <==> Truthy(u.passwordHash) && (Truthy(u.firebaseUid) || Truthy(u.googleId)))
      && (r.Ok? ==> r.value.firebaseUid.None? && r.value.googleId.None? && r.value.authProvider == "email"
                    && r.value == u.(firebaseUid := None, googleId := None, authProvider := "email"))
  {
  }

  method UnlinkGoogleAccount(db: Db, userId: Id) returns (r: Result<()>)
    requires userId in db.users
    modifies db`users
    ensures var a := Unlink(old(db.users[userId]));
      (r.Ok? <==> a.Ok?)
      && (r.Err? ==> r == Err(a.error) && db.users == old(db.users))
      && (r.Ok? ==> db.users == old(db.users)[userId := a.value])
  {
    var u := db.users[userId];
    if !Truthy(u.passwordHash) {
      return Err(BadRequest("Cannot unlink Google account. Please set a password first."));
    }
    if !Truthy(u.firebaseUid) && !Truthy(u.googleId) {
      return Err(BadRequest("No Google account is linked"));
    }
    u := u.(firebaseUid := None, googleId := None, authProvider := "email");
    db.users := db.users[userId := u];
    r := Ok(());
  }

  // ---------------------------------------------------------------------------
  // `get_auth_providers`.

  predicate HasPassword(u: User) { Truthy(u.passwordHash) }
  predicate HasGoogle(u: User) { Truthy(u.firebaseUid) || Truthy(u.googleId) }

  /** The list as the endpoint builds it. */
  function ProviderList(u: User): seq<string> {
    (if HasPassword(u) then ["email"] else []) + (if HasGoogle(u) then ["google"] else [])
  }

  method GetAuthProviders(u: User) returns (providers: seq<string>, hasPassword: bool, hasGoogle: bool)
    ensures hasPassword == HasPassword(u) && hasGoogle == HasGoogle(u)
    ensures ("email" in providers <==> hasPassword) && ("google" in providers <==> hasGoogle)
    ensures providers == ProviderList(u)
    ensures hasPassword ==> providers[0] == "email"
  {
    providers := [];
    hasPassword := Truthy(u.passwordHash);
    hasGoogle := Truthy(u.firebaseUid) || Truthy(u.googleId);
    if hasPassword {
      providers := providers + ["email"];
    }
    if hasGoogle {
      providers := providers + ["google"];
    }
  }

  /** A linked account signs in both ways; once unlinked, only with its password. */
  lemma LinkThenUnlink(u: User, info: UserInfo, now: Instant)
    requires Truthy(u.passwordHash) && info.firebaseUid != ""
    ensures ProviderList(Linked(u, info, now)) == ["email", "google"]
    ensures var r := Unlink(Linked(u, info, now));
      r.Ok? && ProviderList(r.value) == ["email"] && r.value.authProvider == "email"
  {
  }
}

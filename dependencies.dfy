/** The request dependencies that turn a bearer token into the calling user. Decoding
    the JWT is the security module's work: its outcome (no payload, or a payload
    with or without a `sub` claim) is the input. */
module Dependencies {
  import opened Wrappers
  import opened Uuid
  import opened Store
  import opened AuthService

  /** A decoded token payload; only its `sub` claim is read. */
  datatype Payload = Payload(sub: Option<string>)

  /** `get_current_user`: each failed check is a 401 with its own detail. */
  function CurrentUser(users: map<Id, User>, decoded: Option<Payload>): Result<Id> {
    if decoded.None? then Err(Unauthorized("Invalid authentication credentials"))
    else if decoded.value.sub.None? then Err(Unauthorized("Invalid authentication credentials"))
    else match ParseUuid(decoded.value.sub.value)
      case None => Err(Unauthorized("Invalid user ID format"))
      case Some(id) => if id in users then Ok(id) else Err(Unauthorized("User not found"))
  }

  /** The check chain lets a request through exactly when the token decodes, names a
      subject, the subject is a UUID and that user exists; each failure is a 401, in
      that order. */
  lemma CurrentUserSpec(users: map<Id, User>, decoded: Option<Payload>)
    ensures var r := CurrentUser(users, decoded);
      (r.Ok? <==>
         decoded.Some? && decoded.value.sub.Some? && ParseUuid(decoded.value.sub.value).Some?
         && ParseUuid(decoded.value.sub.value).value in users)
      && (r.Ok? ==> r.value == ParseUuid(decoded.value.sub.value).value && r.value in users)
      && (r.Err? ==> r.error.Unauthorized?)
      && (decoded.None? ==> r == Err(Unauthorized("Invalid authentication credentials")))
      && (decoded.Some? && decoded.value.sub.None? ==> r == Err(Unauthorized("Invalid authentication credentials")))
      && (decoded.Some? && decoded.value.sub.Some? && ParseUuid(decoded.value.sub.value).None? ==>
            r == Err(Unauthorized("Invalid user ID format")))
  {
  }

  /** A token issued for an existing user lets that user in. */
  lemma IssuedTokenAccepted(users: map<Id, User>, id: Id)
    requires id in users && id < UuidBound
    ensures CurrentUser(users, Some(Payload(Some(TokenSubject(id))))) == Ok(id)
  {
  }

  /** `get_current_active_user`: the same chain, then a 400 for an inactive user. */
  function CurrentActiveUser(users: map<Id, User>, decoded: Option<Payload>): (r: Result<Id>)
    ensures r.Ok? <==> CurrentUser(users, decoded).Ok? && users[CurrentUser(users, decoded).value].isActive
    ensures r.Ok? ==> r == CurrentUser(users, decoded)
    ensures CurrentUser(users, decoded).Err? ==> r == CurrentUser(users, decoded)
  {
    match CurrentUser(users, decoded)
    case Err(e) => Err(e)
    case Ok(id) => if !users[id].isActive then Err(BadRequest("Inactive user")) else Ok(id)
  }

  /** `get_optional_current_user`: no credentials, or any failed check, gives no user
      instead of an error. */
  function OptionalCurrentUser(users: map<Id, User>, credentials: Option<Option<Payload>>): Option<Id> {
    if credentials.None? then None
    else
      var decoded := credentials.value;
      if decoded.None? then None
      else if decoded.value.sub.None? then None
      else match ParseUuid(decoded.value.sub.value)
        case None => None
        case Some(id) => if id in users then Some(id) else None
  }

  /** The optional variant never fails, and with credentials it finds exactly the user
      the strict variant lets through. */
  lemma OptionalAgrees(users: map<Id, User>, credentials: Option<Option<Payload>>)
    ensures credentials.None? ==> OptionalCurrentUser(users, credentials).None?
    ensures credentials.Some? ==>
      var strict := CurrentUser(users, credentials.value);
      OptionalCurrentUser(users, credentials) == (if strict.Ok? then Some(strict.value) else None)
  {
  }
}

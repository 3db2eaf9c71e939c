/** What the backend reads out of a verified Firebase ID token. Verifying the token
    is the Firebase Admin SDK's work and is not modelled: the decoded claims are the
    input. */
module FirebaseAuthService {
  import opened Wrappers

  /** The claims of a decoded token that the backend reads. `signInProvider` is the
      `firebase.sign_in_provider` claim. */
  datatype Claims = Claims(
    uid: string,
    email: Option<string>,
    emailVerified: Option<bool>,
    name: Option<string>,
    picture: Option<string>,
    sub: Option<string>,
    signInProvider: Option<string>)

  /** The user-info dictionary. `googleId` is None when the dictionary has no
      `google_id` key at all, and Some(v) when it has one, whose value v may be null. */
  datatype UserInfo = UserInfo(
    firebaseUid: string,
    email: Option<string>,
    emailVerified: bool,
    displayName: Option<string>,
    photoUrl: Option<string>,
    authProvider: string,
    googleId: Option<Option<string>>)

  /** `decoded_token.get('firebase', {}).get('sign_in_provider', 'unknown')`. */
  function Provider(c: Claims): string {
    if c.signInProvider.Some? then c.signInProvider.value else "unknown"
  }

  /** `get_user_info_from_token`. */
  function UserInfoFromToken(c: Claims): UserInfo {
    var provider := Provider(c);
    UserInfo(c.uid, c.email, if c.emailVerified.Some? then c.emailVerified.value else false, c.name, c.picture,
             if provider == "google.com" then "google" else "firebase",
             if provider == "google.com" then Some(c.sub) else None)
  }

  /** `user_info.get('google_id')`: a missing key reads as null. */
  function GoogleId(info: UserInfo): Option<string> {
    if info.googleId.Some? then info.googleId.value else None
  }

  /** The provider is "google" exactly for Google sign-in and "firebase" for any
      other, a missing provider included; only Google sign-in carries a `google_id`,
      which is the `sub` claim; the uid, name and picture are copied and an absent
      `email_verified` reads as false. */
  lemma UserInfoSpec(c: Claims)
    ensures var info := UserInfoFromToken(c);
      (info.authProvider == "google" <==> c.signInProvider == Some("google.com"))
      && (info.authProvider != "google" ==> info.authProvider == "firebase")
      && (info.googleId.Some? <==> c.signInProvider == Some("google.com"))
      && GoogleId(info) == (if c.signInProvider == Some("google.com") then c.sub else None)
      && info.firebaseUid == c.uid && info.email == c.email
      && info.displayName == c.name && info.photoUrl == c.picture
      && (c.emailVerified.None? ==> !info.emailVerified)
      && (c.emailVerified.Some? ==> info.emailVerified == c.emailVerified.value)
  {
    assert "unknown" != "google.com";
  }
}

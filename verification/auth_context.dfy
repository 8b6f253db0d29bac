/** The biometric part of the auth context: a secure key-value store holds
    the enabled flag, the saved credentials and a refresh token; enabling
    and signing in go through a biometric prompt whose outcome, like the
    password sign-in and the credential parsing, is an input. */
module AuthContext {
  import opened Wrappers

  const EnabledKey := "biometrics_enabled"
  const CredentialsKey := "biometrics_credentials"
  const RefreshTokenKey := "biometrics_refresh_token"

  const BiometricKeys: set<string> := {EnabledKey, CredentialsKey, RefreshTokenKey}

  const NotOnWebMessage := "Biometric authentication not available on web"
  const NotEnabledMessage := "Biometric authentication not enabled"
  const NoCredentialsMessage := "No stored credentials found"
  const InvalidCredentialsMessage := "Invalid stored credentials. Please re-enable biometrics."
  const PromptFailedMessage := "Biometric authentication failed"

  /** The secure store. */
  type Store = map<string, string>

  datatype Platform = Web | Native

  datatype Credentials = Credentials(email: string, password: string)

  datatype Session = Session(user: string, refreshToken: Option<string>)

  datatype Auth = Auth(store: Store, hasBiometrics: bool, biometricsEnabled: bool,
                       session: Option<Session>, loading: bool)

  /** What the password sign-in does: return (with or without an error
      message) or throw. */
  datatype SignInResult = Returned(error: Option<string>) | Threw

  /** The outcome of a biometric sign-in: the new state, the error handed
      back, and the credentials the password sign-in was tried with. */
  datatype BiometricSignIn = BiometricSignIn(auth: Auth, error: Option<string>, attempted: Option<Credentials>)

  function Lookup(store: Store, key: string): Option<string> {
    if key in store then Some(store[key]) else None
  }

  /** `s2` agrees with `s1` on every key the biometric flow does not own. */
  ghost predicate SameOutside(s1: Store, s2: Store) {
    forall k :: k !in BiometricKeys ==> Lookup(s1, k) == Lookup(s2, k)
  }

  /** The flag mirrors the stored enabled key. */
  predicate Consistent(a: Auth) {
    a.biometricsEnabled <==> Lookup(a.store, EnabledKey) == Some("true")
  }

  /** The start-up check: on a device, whether the hardware is usable and
      whether the store says biometrics are enabled, so that afterwards the
      flag mirrors the store; the store itself is only read. */
  function Check(a: Auth, platform: Platform, compatible: bool, enrolled: bool): (r: Auth)
    ensures r.store == a.store && r.session == a.session
    ensures platform == Native ==> Consistent(r) && r.hasBiometrics == (compatible && enrolled)
    ensures platform == Web ==> r == a
  {
    if platform == Web then a
    else a.(hasBiometrics := compatible && enrolled,
            biometricsEnabled := Lookup(a.store, EnabledKey) == Some("true"))
  }

  /** The auth listener: the session is taken over, and the refresh token
      is stored exactly when the event is `SIGNED_IN`, the token is
      non-empty and biometrics are enabled; the rest of the store is
      untouched. */
  function OnAuthChange(a: Auth, event: string, session: Option<Session>): (b: Auth)
    ensures b.session == session && !b.loading
    ensures var stores := event == "SIGNED_IN" && session.Some? && session.value.refreshToken.Some? &&
                          session.value.refreshToken.value != "" && a.biometricsEnabled;
      && (stores ==> Lookup(b.store, RefreshTokenKey) == session.value.refreshToken)
      && (!stores ==> b.store == a.store)
    ensures forall k :: k != RefreshTokenKey ==> Lookup(b.store, k) == Lookup(a.store, k)
  {
    var b := a.(session := session, loading := false);
    if event == "SIGNED_IN" && session.Some? && session.value.refreshToken.Some? &&
       session.value.refreshToken.value != "" && a.biometricsEnabled
    then b.(store := a.store[RefreshTokenKey := session.value.refreshToken.value])
    else b
  }

  /** The local part of signing out; the session ends through the
      listener. On a device only the refresh token is removed. */
  function SignOut(a: Auth, platform: Platform): (b: Auth)
    ensures platform == Native ==>
      && RefreshTokenKey !in b.store
      && (forall k :: k != RefreshTokenKey ==> Lookup(b.store, k) == Lookup(a.store, k))
      && b.biometricsEnabled == a.biometricsEnabled && b.session == a.session
    ensures platform == Web ==> b == a
  {
    if platform == Web then a else a.(store := a.store - {RefreshTokenKey})
  }

  /** `enableBiometrics`: `stringify` is `JSON.stringify` of the
      credentials. After a successful prompt the flag and the credentials
      are stored; otherwise, and always on the web, nothing changes. */
  function Enable(a: Auth, platform: Platform, prompt: bool, c: Credentials,
                  stringify: Credentials -> string): (b: Auth)
    ensures platform == Native && prompt ==>
      && Lookup(b.store, EnabledKey) == Some("true")
      && Lookup(b.store, CredentialsKey) == Some(stringify(c))
      && Lookup(b.store, RefreshTokenKey) == Lookup(a.store, RefreshTokenKey)
      && b.biometricsEnabled && SameOutside(a.store, b.store)
    ensures platform == Web || !prompt ==> b == a
  {
    if platform == Web || !prompt then a
    else a.(store := a.store[EnabledKey := "true"][CredentialsKey := stringify(c)],
            biometricsEnabled := true)
  }

  /** `disableBiometrics`: on a device the enabled key and the refresh
      token go, the stored credentials stay, and the flag is cleared. */
  function Disable(a: Auth, platform: Platform): (b: Auth)
    ensures platform == Native ==>
      && EnabledKey !in b.store && RefreshTokenKey !in b.store
      && Lookup(b.store, CredentialsKey) == Lookup(a.store, CredentialsKey)
      && !b.biometricsEnabled && SameOutside(a.store, b.store)
    ensures platform == Web ==> b == a
  {
    if platform == Web then a
    else a.(store := a.store - {EnabledKey, RefreshTokenKey}, biometricsEnabled := false)
  }

  /** `signInWithBiometrics`: `prompt` is the outcome of the biometric
      prompt, `parse` reads an email and a password out of the stored
      text (`None` when `JSON.parse` or the destructuring throws), and
      `signIn` is the password sign-in. */
  function SignInWithBiometrics(a: Auth, platform: Platform, prompt: bool,
                                parse: string -> Option<Credentials>,
                                signIn: Credentials -> SignInResult): (r: BiometricSignIn)
    ensures r.auth.store == a.store || r.auth.store == a.store - {EnabledKey, RefreshTokenKey}
    ensures r.error.None? ==> r.auth == a && r.attempted.Some?
    ensures r.attempted.Some? ==>
      CredentialsKey in a.store && parse(a.store[CredentialsKey]) == r.attempted
  {
    if platform == Web then BiometricSignIn(a, Some(NotOnWebMessage), None)
    else if Lookup(a.store, EnabledKey) != Some("true") then BiometricSignIn(a, Some(NotEnabledMessage), None)
    else if !prompt then BiometricSignIn(a, Some(PromptFailedMessage), None)
    else
      var stored := Lookup(a.store, CredentialsKey);
      if stored.None? || stored.value == "" then BiometricSignIn(a, Some(NoCredentialsMessage), None)
      else
        match parse(stored.value)
        case None => BiometricSignIn(Disable(a, platform), Some(InvalidCredentialsMessage), None)
        case Some(c) =>
          match signIn(c)
          case Threw => BiometricSignIn(Disable(a, platform), Some(InvalidCredentialsMessage), Some(c))
          case Returned(error) => BiometricSignIn(a, error, Some(c))
  }

  // ---------------------------------------------------------------------
  // Properties
  // ---------------------------------------------------------------------

  /** Each early exit of the biometric sign-in leaves the state as it was
      and returns its own message: on the web, when not enabled (before
      any prompt), when the prompt fails, and when no credentials are
      stored. */
  lemma SignInEarlyExits(a: Auth, platform: Platform, prompt: bool,
                         parse: string -> Option<Credentials>, signIn: Credentials -> SignInResult)
    ensures var r := SignInWithBiometrics(a, platform, prompt, parse, signIn);
      && (platform == Web ==> r == BiometricSignIn(a, Some(NotOnWebMessage), None))
      && (platform == Native && Lookup(a.store, EnabledKey) != Some("true") ==>
            r == BiometricSignIn(a, Some(NotEnabledMessage), None))
      && (platform == Native && Lookup(a.store, EnabledKey) == Some("true") && !prompt ==>
            r == BiometricSignIn(a, Some(PromptFailedMessage), None))
      && (platform == Native && Lookup(a.store, EnabledKey) == Some("true") && prompt &&
          Lookup(a.store, CredentialsKey) in {None, Some("")} ==>
            r == BiometricSignIn(a, Some(NoCredentialsMessage), None))
  {
  }

  /** Stored credentials that cannot be read, or a password sign-in that
      throws, disable biometrics (the enabled key and the refresh token go,
      the credentials stay) and ask for re-enabling; otherwise the sign-in's
      own error is returned and the state is untouched. */
  lemma SignInWithStoredCredentials(a: Auth, prompt: bool,
                                    parse: string -> Option<Credentials>, signIn: Credentials -> SignInResult)
    requires Lookup(a.store, EnabledKey) == Some("true") && prompt
    requires CredentialsKey in a.store && a.store[CredentialsKey] != ""
    ensures var r := SignInWithBiometrics(a, Native, prompt, parse, signIn);
      var p := parse(a.store[CredentialsKey]);
      && r.attempted == p
      && (p.None? || signIn(p.value).Threw? ==>
            && r.error == Some(InvalidCredentialsMessage)
            && r.auth.store == a.store - {EnabledKey, RefreshTokenKey}
            && Lookup(r.auth.store, CredentialsKey) == Lookup(a.store, CredentialsKey)
            && !r.auth.biometricsEnabled)
      && (p.Some? && signIn(p.value).Returned? ==>
            r.auth == a && r.error == signIn(p.value).error)
  {
  }

  /** After enabling, a biometric sign-in with a successful prompt tries
      the password sign-in with the very credentials that were saved,
      provided the stored text reads back as those credentials. */
  lemma EnableThenSignIn(a: Auth, c: Credentials, stringify: Credentials -> string,
                         parse: string -> Option<Credentials>, signIn: Credentials -> SignInResult)
    requires stringify(c) != "" && parse(stringify(c)) == Some(c)
    ensures var r := SignInWithBiometrics(Enable(a, Native, true, c, stringify), Native, true, parse, signIn);
      && r.attempted == Some(c)
      && (signIn(c).Returned? ==> r.error == signIn(c).error)
  {
    var b := Enable(a, Native, true, c, stringify);
    assert Lookup(b.store, EnabledKey) == Some("true");
    assert Lookup(b.store, CredentialsKey) == Some(stringify(c));
  }

  /** After disabling, a biometric sign-in stops at "not enabled" before
      any prompt. */
  lemma DisableThenSignIn(a: Auth, prompt: bool,
                          parse: string -> Option<Credentials>, signIn: Credentials -> SignInResult)
    ensures SignInWithBiometrics(Disable(a, Native), Native, prompt, parse, signIn).error == Some(NotEnabledMessage)
  {
  }

  /** On a device the start-up check makes the flag mirror the store, and
      every biometric operation keeps it so. */
  lemma ConsistencyKept(a: Auth, platform: Platform, prompt: bool, c: Credentials,
                        stringify: Credentials -> string, parse: string -> Option<Credentials>,
                        signIn: Credentials -> SignInResult, event: string, session: Option<Session>,
                        compatible: bool, enrolled: bool)
    ensures Consistent(Check(a, Native, compatible, enrolled))
    ensures Consistent(a) ==> Consistent(Enable(a, platform, prompt, c, stringify))
    ensures Consistent(a) ==> Consistent(Disable(a, platform))
    ensures Consistent(a) ==> Consistent(SignInWithBiometrics(a, platform, prompt, parse, signIn).auth)
    ensures Consistent(a) ==> Consistent(SignOut(a, platform))
    ensures Consistent(a) ==> Consistent(OnAuthChange(a, event, session))
  {
  }

}

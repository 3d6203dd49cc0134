/**
 The sign-in failure toast of the authentication provider (`handleAuthError`
 in src/hooks/use-auth.ts) and the `useAuth` guard. Firebase error codes map
 to fixed messages; any other code is embedded in a generic message, and a
 thrown value that is not an `Error` gets a message of its own.
 */
module AuthErrors {
  import opened Common

  const NotAnErrorDescription := "An unknown error occurred."
  const CancelledDescription := "Sign-in was cancelled."
  const OtherCredentialDescription := "An account already exists with this email using a different sign-in method."
  const UnauthorizedDomainDescription := "This domain is not authorized. Please check your Firebase project settings."
  const BadCredentialsDescription := "Invalid email or password. Please try again."
  const EmailInUseDescription := "An account with this email already exists."
  const WeakPasswordDescription := "The password is too weak. Please choose a stronger password."
  const GenericPrefix := "An error occurred. Please try again. ("

  const UseAuthMessage := "useAuth must be used within an AuthProvider"

  /** The groups of failures the toast tells apart. */
  datatype Reason =
    | NotAnError
    | Cancelled
    | OtherCredential
    | UnauthorizedDomain
    | BadCredentials
    | EmailInUse
    | WeakPassword
    | OtherCode(code: string)

  /** How a template literal prints `authError.code`; a missing code prints
      as "undefined". */
  function CodeText(code: Option<string>): string {
    if code.Some? then code.value else "undefined"
  }

  /** The codes the `switch` lists, with the group each one falls into. */
  const KnownCodes: map<string, Reason> := map[
    "auth/popup-closed-by-user" := Cancelled,
    "auth/cancelled-popup-request" := Cancelled,
    "auth/account-exists-with-different-credential" := OtherCredential,
    "auth/unauthorized-domain" := UnauthorizedDomain,
    "auth/user-not-found" := BadCredentials,
    "auth/wrong-password" := BadCredentials,
    "auth/email-already-in-use" := EmailInUse,
    "auth/weak-password" := WeakPassword]

  /** The `switch` on the error code: a thrown non-error has no code, a
      listed code falls into its group, and any other code, a missing one
      included, is kept as it prints. */
  function ReasonOf(error: Thrown): (r: Reason)
    ensures error.OtherValue? <==> r == NotAnError
    ensures error.ErrorObject? && CodeText(error.code) in KnownCodes ==> r == KnownCodes[CodeText(error.code)]
    ensures error.ErrorObject? && CodeText(error.code) !in KnownCodes ==> r == OtherCode(CodeText(error.code))
  {
    if error.OtherValue? then NotAnError
    else
      match CodeText(error.code)
      case "auth/popup-closed-by-user" => Cancelled
      case "auth/cancelled-popup-request" => Cancelled
      case "auth/account-exists-with-different-credential" => OtherCredential
      case "auth/unauthorized-domain" => UnauthorizedDomain
      case "auth/user-not-found" => BadCredentials
      case "auth/wrong-password" => BadCredentials
      case "auth/email-already-in-use" => EmailInUse
      case "auth/weak-password" => WeakPassword
      case other => OtherCode(other)
  }

  /** The message shown for each group. */
  function DescriptionOf(r: Reason): string {
    match r
    case NotAnError => NotAnErrorDescription
    case Cancelled => CancelledDescription
    case OtherCredential => OtherCredentialDescription
    case UnauthorizedDomain => UnauthorizedDomainDescription
    case BadCredentials => BadCredentialsDescription
    case EmailInUse => EmailInUseDescription
    case WeakPassword => WeakPasswordDescription
    case OtherCode(code) => GenericPrefix + code + ")"
  }

  /** `handleAuthError(error, provider)`: the toast it emits. */
  function HandleAuthError(error: Thrown, provider: string): (t: Toast)
    ensures t.title == provider + " Failed"
    ensures t.variant == Destructive
    ensures error.OtherValue? ==> t.description == NotAnErrorDescription
    ensures error.ErrorObject? && CodeText(error.code) in KnownCodes ==> t.description == DescriptionOf(KnownCodes[CodeText(error.code)])
    ensures error.ErrorObject? && CodeText(error.code) !in KnownCodes ==> t.description == GenericPrefix + CodeText(error.code) + ")"
  {
    Toast(provider + " Failed", DescriptionOf(ReasonOf(error)), Destructive)
  }

  /** Both ways of abandoning the sign-in popup read "Sign-in was cancelled.". */
  lemma PopupCancelCodesShareMessage(name: string, message: string, provider: string)
    ensures HandleAuthError(ErrorObject(name, message, Some("auth/popup-closed-by-user")), provider).description == CancelledDescription
    ensures HandleAuthError(ErrorObject(name, message, Some("auth/cancelled-popup-request")), provider).description == CancelledDescription
  {
  }

  /** An unknown user and a wrong password get the same message, so the
      toast does not reveal which of the two happened. */
  lemma BadCredentialCodesShareMessage(name: string, message: string, provider: string)
    ensures HandleAuthError(ErrorObject(name, message, Some("auth/user-not-found")), provider).description
         == HandleAuthError(ErrorObject(name, message, Some("auth/wrong-password")), provider).description
         == BadCredentialsDescription
  {
  }

  /** Every code the `switch` does not list is shown inside the generic
      message. */
  lemma UnknownCodeIsEmbedded(name: string, message: string, code: string, provider: string)
    requires code !in KnownCodes
    ensures HandleAuthError(ErrorObject(name, message, Some(code)), provider).description == GenericPrefix + code + ")"
  {
  }

  /** Reads the group back from a toast description; for the generic message
      it recovers the embedded code. */
  function ReasonFromDescription(d: string): Option<Reason> {
    if d == NotAnErrorDescription then Some(NotAnError)
    else if d == CancelledDescription then Some(Cancelled)
    else if d == OtherCredentialDescription then Some(OtherCredential)
    else if d == UnauthorizedDomainDescription then Some(UnauthorizedDomain)
    else if d == BadCredentialsDescription then Some(BadCredentials)
    else if d == EmailInUseDescription then Some(EmailInUse)
    else if d == WeakPasswordDescription then Some(WeakPassword)
    else if |d| > |GenericPrefix| && d[..|GenericPrefix|] == GenericPrefix && d[|d| - 1] == ')' then
      Some(OtherCode(d[|GenericPrefix|..|d| - 1]))
    else None
  }

  /** The description determines the group of the failure, and for an
      unlisted code the code itself: different groups never share a
      message. */
  lemma {:induction false} DescriptionIdentifiesReason(r: Reason)
    ensures ReasonFromDescription(DescriptionOf(r)) == Some(r)
  {
    assert |NotAnErrorDescription| == 26;
    assert |CancelledDescription| == 22;
    assert |OtherCredentialDescription| == 75;
    assert |UnauthorizedDomainDescription| == 75;
    assert OtherCredentialDescription[73] == 'd' && UnauthorizedDomainDescription[73] == 's';
    assert |BadCredentialsDescription| == 44;
    assert |EmailInUseDescription| == 42;
    assert |WeakPasswordDescription| == 60;
    assert |GenericPrefix| == 38;
    assert NotAnErrorDescription[|NotAnErrorDescription| - 1] == '.';
    assert CancelledDescription[|CancelledDescription| - 1] == '.';
    assert OtherCredentialDescription[|OtherCredentialDescription| - 1] == '.';
    assert UnauthorizedDomainDescription[|UnauthorizedDomainDescription| - 1] == '.';
    assert BadCredentialsDescription[|BadCredentialsDescription| - 1] == '.';
    assert EmailInUseDescription[|EmailInUseDescription| - 1] == '.';
    assert WeakPasswordDescription[|WeakPasswordDescription| - 1] == '.';
    if r.OtherCode? {
      var d := GenericPrefix + r.code + ")";
      assert d[..|GenericPrefix|] == GenericPrefix;
      assert d[|GenericPrefix|..|d| - 1] == r.code;
    }
  }

  /** `useAuth()`: outside an `AuthProvider` it throws. */
  function UseAuth<C>(context: Option<C>): (r: Result<C>)
    ensures context.None? ==> r == Err(PlainError(UseAuthMessage))
    ensures context.Some? ==> r == Ok(context.value)
  {
    RequireProvider(context, UseAuthMessage)
  }
}

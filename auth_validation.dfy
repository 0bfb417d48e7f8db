/**
 * The credential rules of the login and forgot-password screens: a required
 * e-mail of the shape `\S+@\S+\.\S+`, and a required password of at least
 * six characters.
 */
module AuthValidation {
  import opened Wrappers
  import opened Strings
  import opened Forms

  /** The keys of the auth screens' `errors` objects. */
  datatype CredentialField = Email | Password

  const EMAIL_REQUIRED := "Email is required"
  const EMAIL_INVALID := "Email is invalid"
  const PASSWORD_REQUIRED := "Password is required"
  const PASSWORD_TOO_SHORT := "Password must be at least 6 characters"

  /** The e-mail rule: "required" on empty input, and only then is the format checked. */
  function EmailError(email: string): Option<string> {
    if email == "" then Some(EMAIL_REQUIRED)
    else if !IsEmailLike(email) then Some(EMAIL_INVALID)
    else None
  }

  /** The password rule: "required" on empty input, otherwise at least six characters. */
  function PasswordError(password: string): Option<string> {
    if password == "" then Some(PASSWORD_REQUIRED)
    else if |password| < 6 then Some(PASSWORD_TOO_SHORT)
    else None
  }

  /**
   * The e-mail passes exactly when the regular expression matches it
   * somewhere; an empty one is reported as missing, a non-empty one that
   * does not match as invalid.
   */
  lemma EmailErrorMeaning(email: string)
    ensures EmailError(email) == None <==> MatchesEmailRegex(email)
    ensures EmailError(email) == Some(EMAIL_REQUIRED) <==> email == ""
    ensures EmailError(email) == Some(EMAIL_INVALID) <==> email != "" && !MatchesEmailRegex(email)
  {
    EmailLikeIffRegex(email);
  }

  /** The password passes exactly when it has six characters or more. */
  lemma PasswordErrorMeaning(password: string)
    ensures PasswordError(password) == None <==> |password| >= 6
    ensures PasswordError(password) == Some(PASSWORD_REQUIRED) <==> password == ""
    ensures PasswordError(password) == Some(PASSWORD_TOO_SHORT) <==> 0 < |password| < 6
  {
  }

  /** The login screen's `newErrors`: the e-mail rule, then the password rule. */
  function LoginErrors(email: string, password: string): map<CredentialField, string> {
    WithRule(WithRule(map[], Email, EmailError(email)), Password, PasswordError(password))
  }

  /** The forgot-password screen's `newErrors`: the e-mail rule alone. */
  function ResetErrors(email: string): map<CredentialField, string> {
    WithRule(map[], Email, EmailError(email))
  }

  ghost predicate LoginAccepted(email: string, password: string) {
    MatchesEmailRegex(email) && |password| >= 6
  }

  /**
   * The login errors hold one message per failing rule, and are empty
   * exactly when the e-mail matches and the password is long enough.
   */
  lemma LoginErrorsMeaning(email: string, password: string)
    ensures Email in LoginErrors(email, password) <==> !MatchesEmailRegex(email)
    ensures Email in LoginErrors(email, password) ==>
      LoginErrors(email, password)[Email] == if email == "" then EMAIL_REQUIRED else EMAIL_INVALID
    ensures Password in LoginErrors(email, password) <==> |password| < 6
    ensures Password in LoginErrors(email, password) ==>
      LoginErrors(email, password)[Password] == if password == "" then PASSWORD_REQUIRED else PASSWORD_TOO_SHORT
    ensures |LoginErrors(email, password)| == 0 <==> LoginAccepted(email, password)
  {
    EmailErrorMeaning(email);
    PasswordErrorMeaning(password);
    var errors := LoginErrors(email, password);
    if |errors| == 0 {
      assert Email !in errors && Password !in errors;
    }
    if LoginAccepted(email, password) {
      assert errors == map[];
    }
  }

  /** The reset errors are empty exactly when the e-mail matches. */
  lemma ResetErrorsMeaning(email: string)
    ensures Email in ResetErrors(email) <==> !MatchesEmailRegex(email)
    ensures Email in ResetErrors(email) ==>
      ResetErrors(email)[Email] == if email == "" then EMAIL_REQUIRED else EMAIL_INVALID
    ensures Password !in ResetErrors(email)
    ensures |ResetErrors(email)| == 0 <==> MatchesEmailRegex(email)
  {
    EmailErrorMeaning(email);
    if |ResetErrors(email)| == 0 {
      assert Email !in ResetErrors(email);
    }
  }

  /**
   * `error.response?.data?.message || error.message || fallback`: the first
   * non-empty of the server's message and the error's own, else the
   * fallback. The shown text is never empty when the fallback is not.
   */
  function FailureMessage(serverMessage: Option<string>, errorMessage: string, fallback: string): (r: string)
    ensures fallback != "" ==> r != ""
    ensures (serverMessage.Some? && r == serverMessage.value) || r == errorMessage || r == fallback
    ensures !(serverMessage.Some? && serverMessage.value != "") && errorMessage != "" ==> r == errorMessage
    ensures serverMessage.Some? && serverMessage.value != "" ==> r == serverMessage.value
  {
    if serverMessage.Some? && serverMessage.value != "" then serverMessage.value
    else if errorMessage != "" then errorMessage
    else fallback
  }
}

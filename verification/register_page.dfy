/** The registration form's checks before it calls `register`. */
module RegisterPage {

  const MIN_PASSWORD_LENGTH := 6

  datatype SubmitResult =
    | PasswordMismatch
    | PasswordTooShort
    | Register(name: string, email: string, password: string)

  /** `handleSubmit`: a password that differs from its confirmation is
      refused first, then one shorter than six characters; only a password
      passing both is sent to `register` with the name and e-mail. */
  function Submit(name: string, email: string, password: string, confirm: string): (r: SubmitResult)
    ensures r == PasswordMismatch <==> password != confirm
    ensures r == PasswordTooShort <==> password == confirm && |password| < MIN_PASSWORD_LENGTH
    ensures r.Register? <==> password == confirm && |password| >= MIN_PASSWORD_LENGTH
    ensures r.Register? ==> r == Register(name, email, password)
  {
    if password != confirm then PasswordMismatch
    else if |password| < MIN_PASSWORD_LENGTH then PasswordTooShort
    else Register(name, email, password)
  }

  /** The mismatch check wins: a short password that also differs from
      its confirmation is reported as a mismatch. */
  lemma MismatchReportedFirst(name: string, email: string, password: string, confirm: string)
    requires |password| < MIN_PASSWORD_LENGTH && password != confirm
    ensures Submit(name, email, password, confirm) == PasswordMismatch
  {
  }

  /** The browser's own checks on the form, run before the handler: every
      field is required, and both password fields have a minimum length of
      six. */
  predicate PassesFormChecks(name: string, email: string, password: string, confirm: string) {
    && name != "" && email != ""
    && |password| >= MIN_PASSWORD_LENGTH && |confirm| >= MIN_PASSWORD_LENGTH
  }

  /** Behind the browser's checks the handler's length check never fires:
      a submitted form is either a mismatch or a registration. */
  lemma FormChecksPrecludeTooShort(name: string, email: string, password: string, confirm: string)
    requires PassesFormChecks(name, email, password, confirm)
    ensures Submit(name, email, password, confirm) != PasswordTooShort
    ensures password == confirm ==> Submit(name, email, password, confirm) == Register(name, email, password)
    ensures password != confirm ==> Submit(name, email, password, confirm) == PasswordMismatch
  {
  }
}

/** The change-password window: the two checks run before the password
    change is requested and the error text the window shows afterwards. */
module ChangePassword {
  import opened Wrappers
  import opened Types

  /** The shortest new password accepted. */
  const MinPasswordLength := 6

  const TooShortText := "La nueva contrase\U{00F1}a debe tener al menos 6 caracteres."
  const MismatchText := "Las contrase\U{00F1}as nuevas no coinciden."
  const UnexpectedText := "Ocurri\U{00F3} un error inesperado."

  datatype PasswordError = TooShort | Mismatch

  /** The arguments of the password-change call. */
  datatype Submission = Submission(currentPassword: string, newPassword: string)

  /** The checks of the submit handler in the order they run: the length
      check wins over the mismatch check, and the change is requested only
      when both pass, with both passwords exactly as typed. */
  function CheckPasswords(current: string, newPassword: string, confirm: string): (r: Result<Submission, PasswordError>)
    ensures r == Failure(TooShort) <==> |newPassword| < MinPasswordLength
    ensures r == Failure(Mismatch) <==> |newPassword| >= MinPasswordLength && newPassword != confirm
    ensures r.Success? <==> |newPassword| >= MinPasswordLength && newPassword == confirm
    ensures r.Success? ==> r.value == Submission(current, newPassword)
  {
    if |newPassword| < MinPasswordLength then Failure(TooShort)
    else if newPassword != confirm then Failure(Mismatch)
    else Success(Submission(current, newPassword))
  }

  /** The error text after a submit. `changeFailure` is what the password
      change threw, if it was requested and failed. The text is cleared at
      the start, so nothing shown before the submit survives it. */
  function ShownError(current: string, newPassword: string, confirm: string,
                      changeFailure: Option<Thrown>): (msg: string)
    ensures |newPassword| < MinPasswordLength ==> msg == TooShortText
    ensures |newPassword| >= MinPasswordLength && newPassword != confirm ==> msg == MismatchText
    ensures CheckPasswords(current, newPassword, confirm).Success? && changeFailure.None? ==> msg == []
    ensures CheckPasswords(current, newPassword, confirm).Success? && changeFailure == Some(OtherThrown) ==>
      msg == UnexpectedText
    ensures CheckPasswords(current, newPassword, confirm).Success? && changeFailure.Some? && changeFailure.value.ErrorThrown? ==>
      msg == changeFailure.value.message
  {
    match CheckPasswords(current, newPassword, confirm)
    case Failure(TooShort) => TooShortText
    case Failure(Mismatch) => MismatchText
    case Success(_) =>
      if changeFailure.Some? then ThrownText(changeFailure.value, UnexpectedText) else []
  }

  /** A password shorter than the minimum is refused even when it matches
      its confirmation, and whatever the change call would have done. */
  lemma {:induction false} ShortPasswordNeverSent(current: string, newPassword: string, outcome: Option<Thrown>)
    requires |newPassword| < MinPasswordLength
    ensures CheckPasswords(current, newPassword, newPassword).Failure?
    ensures ShownError(current, newPassword, newPassword, outcome) == TooShortText
  {
  }
}

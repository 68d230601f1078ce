/** The first-run screen that creates the initial administrator account. */
module FirstTimeSetup {
  import opened Wrappers
  import opened Types
  import opened Text

  const MinPasswordLength := 6

  const TooShortText := "La contrase\U{00F1}a debe tener al menos 6 caracteres."
  const UnexpectedText := "Ocurri\U{00F3} un error inesperado al crear la cuenta."

  /** The account data handed to the administrator-creation call. */
  datatype AdminAccount = AdminAccount(
    name: string,
    username: string,
    email: string,
    password: string,
    role: Role)

  /** The one check and the data sent: a password shorter than the minimum
      is refused before anything is sent; otherwise the account always has
      the Superadmin role, a lower-cased username and the other fields as
      typed. */
  function AdminRequest(name: string, username: string, email: string, password: string): (r: Option<AdminAccount>)
    ensures r.None? <==> |password| < MinPasswordLength
    ensures r.Some? ==> r.value.role == Superadmin
    ensures r.Some? ==> r.value.name == name && r.value.email == email && r.value.password == password
    ensures r.Some? ==> |r.value.username| == |username| && Lower(r.value.username) == r.value.username
  {
    LowerIdempotent(username);
    if |password| < MinPasswordLength then None
    else Some(AdminAccount(name, Lower(username), email, password, Superadmin))
  }

  /** What the screen shows after a submit. */
  datatype SetupScreen = SetupScreen(error: string, isCreated: bool)

  /** The screen after a submit; `createFailure` is what the creation call
      threw, if it was made and failed. The account is reported created
      only when the request was sent and succeeded. */
  function AfterSubmit(name: string, username: string, email: string, password: string,
                       createFailure: Option<Thrown>): (s: SetupScreen)
    ensures s.isCreated <==> AdminRequest(name, username, email, password).Some? && createFailure.None?
    ensures s.isCreated ==> s.error == []
    ensures AdminRequest(name, username, email, password).None? ==> s.error == TooShortText
    ensures AdminRequest(name, username, email, password).Some? && createFailure.Some? ==>
      s.error == ThrownText(createFailure.value, UnexpectedText)
  {
    if AdminRequest(name, username, email, password).None? then SetupScreen(TooShortText, false)
    else if createFailure.Some? then SetupScreen(ThrownText(createFailure.value, UnexpectedText), false)
    else SetupScreen([], true)
  }
}

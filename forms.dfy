/** What the four screens share: the error map, the outcome of an auth call,
    the navigation scheduled with setTimeout, the alert shown for a message,
    and the email field's validation. */
module Forms {
  import opened JsText
  import opened EmailRule

  datatype Option<+T> = None | Some(value: T)

  /** The `errors` object: field name to message; an absent key is a valid field. */
  type ErrorMap = map<string, string>

  /** How the awaited auth-service promise settled. */
  datatype ApiOutcome = Resolved | Rejected

  /** A navigation to `target` that a timer will perform after `delayMs` milliseconds. */
  datatype Navigation = Navigation(target: string, delayMs: nat)

  /** The Bootstrap alert a message is shown in. */
  datatype AlertKind = AlertSuccess | AlertDanger | AlertInfo

  const EmailKey := "email"
  const EmailRequired := "Email address is required."
  const EmailInvalid := "Email address is invalid."

  /** The entry the email field contributes to the error map: "required" for
      an empty string, "invalid" when the regular expression finds no match,
      and nothing otherwise. */
  function EmailError(email: string): (r: Option<string>)
    ensures r == Some(EmailRequired) <==> email == ""
    ensures r == Some(EmailInvalid) <==> email != "" && !EmailPattern(email)
    ensures r == None <==> email != "" && EmailPattern(email)
  {
    if !Truthy(email) then Some(EmailRequired)
    else if !IsEmail(email) then Some(EmailInvalid)
    else None
  }

  /** `errors` with the email entry added when there is one. */
  function WithEmailError(errors: ErrorMap, email: string): ErrorMap
  {
    match EmailError(email)
    case Some(m) => errors[EmailKey := m]
    case None => errors
  }

  /** The alert rendered for `message` by a screen that styles it as a
      success when it starts with `successPrefix` and as a danger otherwise;
      an empty message renders no alert. */
  function PolarityAlert(message: string, successPrefix: string): Option<AlertKind>
  {
    if !Truthy(message) then None
    else if StartsWith(message, successPrefix) then Some(AlertSuccess)
    else Some(AlertDanger)
  }
}

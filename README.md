# Validate-then-submit workflow of the authentication forms

This project models the client-side workflow shared by the four screens of an
authentication front end: sign-up, login, forgot-password and reset-password.
Each screen holds a form record, an error map and a status message. An edit
changes one field. A submit runs a pure validator. If the validator reports
errors, the screen stores them and stops. Otherwise it clears the errors,
issues one request to the auth service, and then shows a fixed success or
failure message. On success it also schedules a navigation after a fixed delay.
The reset screen also captures a token from its query string.

Layout, one module per file:

- `JsText` (`js_text.dfy`): the JavaScript string facts the forms use. These
  are the `\s` character class, string truthiness, `startsWith`, and `.length`
  as a count of UTF-16 code units.
- `EmailRule` (`email_rule.dfy`): the email rule `\S+@\S+\.\S+`. The three
  screens that check an email share the identical regex, so it is modelled
  once. `EmailPattern` is a literal reading of the regex: some substring
  matches it. `IsEmail` is an executable scanner, and it is proved equal to
  `EmailPattern` on every string.
- `Forms` (`forms.dfy`): the shared vocabulary. It holds the error map, the
  outcome of an auth call (`Resolved` or `Rejected`), a scheduled navigation
  `(target, delayMs)`, the alert kinds, and the email field's error.
- `Signup`, `Login`, `ForgotPassword`, `ResetPassword`: one module per screen.
  Each has the form record with a field update (`With`) and the validator
  `Validate`, a pure function. It also has the message constants, the alert
  styling and a class for the component's state. The class has `HandleChange`
  and `HandleSubmit` methods, and `ResetPassword` also has `CaptureToken`.
  Every class keeps a `Valid()` invariant. The message is always empty, the
  success string or the failure string. Every request ever sent passed
  validation. Every scheduled navigation is the screen's fixed one, and there
  are never more of them than requests.
- `Scenarios` (`scenarios.dfy`): clients that drive the screens through
  concrete edits and submits. Each checks the outcome from the contracts
  alone: login success and failure, forgot-password's 4000 ms delay, a reset
  with no token, and whitespace-only names.

The auth service is not called. The settled promise is an input to
`HandleSubmit`, and the request the screen would send is appended to a
per-screen log (`registered`, `logins`, `requested`, `resets`). A `setTimeout`
is appended to `scheduled` as a `Navigation` value.

## Model

| member | source | states |
|---|---|---|
| `JsText.Utf16Length` | src/components/ResetPassword.jsx:42 | `.length` is at least the number of characters and at most twice it; it equals it when every character is in the Basic Multilingual Plane; it is 0 only for the empty string |
| `EmailRule.IsEmail` | src/components/Signup.jsx:32 | the executable test is true exactly when some substring matches `\S+@\S+\.\S+` |
| `EmailRule.DotFromIsCore` | src/components/Signup.jsx:32 | after an `@` with a `\S` before it, scanning a `\S` run finds a closing `.` exactly when a shortest match exists with that `@` |
| `EmailRule.AtFromIsCore` | src/components/Signup.jsx:32 | scanning from an index finds an `@` that starts a match exactly when a shortest match has its `@` at or after that index |
| `EmailRule.PatternIsCore` | src/components/Signup.jsx:32 | a string matches the regex exactly when it contains a shortest match: `\S@`, a `\S` run, `.`, `\S` |
| `EmailRule.EmailExamples` | src/components/Login.jsx:28 | `a@b.co` matches; the empty string, `abc` and `a@b` do not |
| `Forms.EmailError` | src/components/ForgotPassword.jsx:23-24 | the email entry is "required" exactly for the empty string, "invalid" exactly for a non-empty string with no match, and absent otherwise; so there is at most one email message |
| `Signup.SignupForm.With` | src/components/Signup.jsx:18-24 | the edited field takes the new value and every other field keeps its value |
| `Signup.Validate` | src/components/Signup.jsx:27-35 | keys lie within {firstName, lastName, email, password}; each name and the password has an entry exactly when it is the empty string, with its fixed message; the email entry is as `Forms.EmailError` says; the map is empty exactly when the form is acceptable |
| `Signup.ValidateIsPerField` | src/components/Signup.jsx:29-33 | two forms that agree on a field get the same entry, or none, for that field |
| `Signup.AlertPolarity` | src/components/Signup.jsx:70 | the success message is styled as a success, the failure message as a danger, and an empty message shows no alert |
| `Signup.SuccessMessageStyled` | src/components/Signup.jsx:51 | the success message starts with the success prefix, so it is styled as a success |
| `Signup.FailureMessageStyled` | src/components/Signup.jsx:58 | the failure message does not start with the success prefix, so it is styled as a danger |
| `Signup.SignupScreen.constructor` | src/components/Signup.jsx:6-14 | all four fields start empty, with no errors, an empty message, no request and no navigation |
| `Signup.SignupScreen.HandleChange` | src/components/Signup.jsx:18-24 | only the named field changes; the invariant holds |
| `Signup.SignupScreen.HandleSubmit` | src/components/Signup.jsx:38-60 | an invalid form stores its error map and leaves the message, the form, the request log and the navigations unchanged; a valid one clears the errors and sends the whole form to `register`; on success the message is the success string and `/login` is scheduled at 2000 ms; on failure the message is the failure string and nothing is scheduled; the form never changes; after a valid submit the success styling shows exactly when the call succeeded |
| `Login.LoginForm.With` | src/components/Login.jsx:16-22 | the edited field takes the new value and the other keeps its value |
| `Login.Validate` | src/components/Login.jsx:25-31 | keys lie within {email, password}; the email entry follows the shared email rule; the password has an entry exactly when it is empty; the map is empty exactly when the form is acceptable |
| `Login.AlertPolarity` | src/components/Login.jsx:69 | the success message is styled as a success and the failure message as a danger |
| `Login.SuccessMessageStyled` | src/components/Login.jsx:47 | the success message starts with the success prefix, so it is styled as a success |
| `Login.FailureMessageStyled` | src/components/Login.jsx:57 | the failure message does not start with the success prefix, so it is styled as a danger |
| `Login.LoginScreen.constructor` | src/components/Login.jsx:6-12 | both fields start empty, with no errors, an empty message and no request |
| `Login.LoginScreen.HandleChange` | src/components/Login.jsx:16-22 | only the named field changes |
| `Login.LoginScreen.HandleSubmit` | src/components/Login.jsx:34-59 | An invalid form stores its error map and changes nothing else, while a valid form clears the errors, sends the whole form to `login`, and then either shows the success string, empties both fields and schedules `/` at 2000 ms, or shows the failure string with the form and the scheduled navigations unchanged. |
| `ForgotPassword.ForgotForm.With` | src/components/ForgotPassword.jsx:12-18 | the edited field takes the new value |
| `ForgotPassword.Validate` | src/components/ForgotPassword.jsx:21-26 | the map is empty or has the single key `email`; its entry follows the shared email rule |
| `ForgotPassword.Alert` | src/components/ForgotPassword.jsx:78 | an empty message shows no alert, and every other message is shown as information, never with success or danger styling |
| `ForgotPassword.ForgotPasswordScreen.constructor` | src/components/ForgotPassword.jsx:6-8 | the email starts empty, with no errors, an empty message and no request |
| `ForgotPassword.ForgotPasswordScreen.HandleChange` | src/components/ForgotPassword.jsx:12-18 | the named field takes the new value |
| `ForgotPassword.ForgotPasswordScreen.HandleSubmit` | src/components/ForgotPassword.jsx:29-52 | an invalid form stores the `email` error and makes no call; a valid one clears the errors and sends only the email string; on success the message is the link-sent string and `/login` is scheduled at 4000 ms, and the form is kept; on failure the message is the generic failure string and nothing is scheduled |
| `ResetPassword.ResetForm.With` | src/components/ResetPassword.jsx:30-36 | the edited field takes the new value and the other keeps its value |
| `ResetPassword.Validate` | src/components/ResetPassword.jsx:39-46 | keys lie within {newPassword, confirmPassword} and `global` is never set; `newPassword` has an entry exactly when its UTF-16 length is below 6, "required" when it is empty and "at least 6 characters" otherwise; `confirmPassword` has an entry exactly when the two differ, whatever the other entry |
| `ResetPassword.ValidateExamples` | src/components/ResetPassword.jsx:41-43 | two empty passwords give only the "required" error; `abc` against `abd` gives both errors; `abcdef` twice passes; `abcdef` against `abcdeg` gives only the mismatch |
| `ResetPassword.LengthCountsCodeUnits` | src/components/ResetPassword.jsx:42 | three characters outside the Basic Multilingual Plane pass the length rule, and five ordinary characters do not |
| `ResetPassword.TooShortRange` | src/components/ResetPassword.jsx:41-42 | the "at least 6 characters" error is given exactly for lengths 1 to 5 |
| `ResetPassword.CapturedToken` | src/components/ResetPassword.jsx:18-27 | the token changes only to a present, non-empty `token` parameter, and always takes such a parameter |
| `ResetPassword.AlertPolarity` | src/components/ResetPassword.jsx:81 | the success message is styled as a success and the failure message as a danger |
| `ResetPassword.SuccessMessageStyled` | src/components/ResetPassword.jsx:62 | the success message starts with the success prefix, so it is styled as a success |
| `ResetPassword.FailureMessageStyled` | src/components/ResetPassword.jsx:69 | the failure message does not start with the success prefix, so it is styled as a danger |
| `ResetPassword.ResetPasswordScreen.constructor` | src/components/ResetPassword.jsx:6-13 | both fields and the token start empty, with no errors, an empty message and no request |
| `ResetPassword.ResetPasswordScreen.CaptureToken` | src/components/ResetPassword.jsx:18-27 | the token becomes the query's `token` parameter when it is present and non-empty, and stays as it was otherwise |
| `ResetPassword.ResetPasswordScreen.HandleChange` | src/components/ResetPassword.jsx:30-36 | only the named field changes |
| `ResetPassword.ResetPasswordScreen.HandleSubmit` | src/components/ResetPassword.jsx:49-71 | an invalid form stores its errors and makes no call, and the message is unchanged; a valid one clears the errors and sends the captured token, even an empty one, with the new password and not the confirmation; on success the message is the success string and `/login` is scheduled at 2000 ms; on failure it is the failure string and nothing is scheduled |

## Left out

- The HTTP calls (src/services/authServices.js, src/services/instance.js) are not modelled: the base URL, the verbs and paths, the 5000 ms timeout and the credentials. Each call is a recorded request, and its outcome is an input. Every rejection is the same `Rejected`, as it is in the source.
- Asynchrony is not modelled. `HandleSubmit` runs from validation to the settled promise in one step, so it does not capture edits or a second submit made while a request is in flight. The source has no guard against double submission.
- Timers are not modelled. A `setTimeout` is recorded as a `Navigation` in `scheduled`. Its firing, its lack of cancellation on unmount and the navigation itself are out of scope.
- Routing (src/App.jsx) is not modelled. The login page links to `/forgot-password` (src/components/Login.jsx:106), but the route table declares `/forgotPassword` (src/App.jsx:15), so that link reaches no screen.
- Parsing the query string with `URLSearchParams` is left out. The query is a key-to-value map, and a repeated key is assumed already reduced to its first value, as `get` does.
- The JavaScript regex engine is not modelled. The pattern is a hand-written predicate over Unicode scalar values. JavaScript matches UTF-16 code units, but the pattern tests only `\S` runs of length at least one, and a character outside the Basic Multilingual Plane is `\S` in both readings, so the verdict is the same.
- An edit only names one of the form's own fields (`Field`), because every input in the markup carries one of those names. An arbitrary `name` would add a new key to the form object in JavaScript.
- The JSX markup, the Bootstrap classes and the `console.log` of validation errors (src/components/ForgotPassword.jsx:34) are left out. The one styling rule kept is the alert polarity for each message. The per-field `is-invalid` classes are left out.
- The unused `expires` state (src/components/ResetPassword.jsx:14) is left out.
- `e.preventDefault()` is left out. It only stops the browser's own form submission.

/** The forgot-password screen: the email rule alone, and a `forgotPassword`
    call that sends only the email and leads to the login page after four seconds. */
module ForgotPassword {
  import opened JsText
  import opened EmailRule
  import opened Forms

  const LinkSent := "A reset link has been sent to your email address."
  const RequestFailure := "An error occurred. Please try again."
  const ToLogin := Navigation("/login", 4000)

  datatype Field = Email

  datatype ForgotForm = ForgotForm(email: string)
  {
    function Get(f: Field): string
    {
      match f
      case Email => email
    }

    /** The form after the input named f is edited to `value`. */
    function With(f: Field, value: string): (r: ForgotForm)
      ensures r.Get(f) == value
    {
      match f
      case Email => this.(email := value)
    }
  }

  const EmptyForm := ForgotForm("")

  ghost predicate Acceptable(form: ForgotForm)
  {
    form.email != "" && EmailPattern(form.email)
  }

  /** `validateForm`: only the email is checked, so the error map is empty or
      holds the single key `email`. */
  function Validate(form: ForgotForm): (errors: ErrorMap)
    ensures errors == map[] || errors.Keys == {EmailKey}
    ensures EmailKey in errors <==> form.email == "" || !EmailPattern(form.email)
    ensures EmailKey in errors ==>
              errors[EmailKey] == (if form.email == "" then EmailRequired else EmailInvalid)
    ensures errors == map[] <==> Acceptable(form)
  {
    WithEmailError(map[], form.email)
  }

  /** This screen shows every message in the same informational alert: it has no polarity test. */
  function Alert(message: string): (a: Option<AlertKind>)
    ensures a == None <==> message == ""
    ensures a != Some(AlertSuccess) && a != Some(AlertDanger)
  {
    if !Truthy(message) then None else Some(AlertInfo)
  }

  /** The forgot-password component's state; `requested` records the
      argument of every `forgotPassword` call. */
  class ForgotPasswordScreen {
    var formData: ForgotForm
    var errors: ErrorMap
    var message: string
    var requested: seq<string>
    var scheduled: seq<Navigation>

    ghost predicate Valid()
      reads this
    {
      && message in {"", LinkSent, RequestFailure}
      && errors.Keys <= {EmailKey}
      && (forall i :: 0 <= i < |requested| ==> requested[i] != "" && EmailPattern(requested[i]))
      && |scheduled| <= |requested|
      && (forall i :: 0 <= i < |scheduled| ==> scheduled[i] == ToLogin)
    }

    constructor ()
      ensures Valid()
      ensures formData == EmptyForm && errors == map[] && message == ""
      ensures requested == [] && scheduled == []
    {
      formData := EmptyForm;
      errors := map[];
      message := "";
      requested := [];
      scheduled := [];
    }

    /** `handleChange` */
    method HandleChange(field: Field, value: string)
      requires Valid()
      modifies this`formData
      ensures Valid()
      ensures formData.Get(field) == value
    {
      formData := formData.With(field, value);
    }

    /** `handleSubmit`, with the settled `forgotPassword` promise given as
        `outcome`. Unlike login, success leaves the form as it was. */
    method HandleSubmit(outcome: ApiOutcome)
      requires Valid()
      modifies this
      ensures Valid()
      ensures formData == old(formData)
      ensures !Acceptable(old(formData)) ==>
                && errors == Validate(old(formData)) && errors.Keys == {EmailKey}
                && message == old(message)
                && requested == old(requested) && scheduled == old(scheduled)
      ensures Acceptable(old(formData)) ==>
                && errors == map[]
                && requested == old(requested) + [old(formData).email]
                && message == (if outcome == Resolved then LinkSent else RequestFailure)
                && scheduled == old(scheduled) + (if outcome == Resolved then [ToLogin] else [])
    {
      var validationErrors := Validate(formData);
      if |validationErrors| > 0 {
        errors := validationErrors;
        return;
      }
      errors := map[];
      requested := requested + [formData.email];
      if outcome == Resolved {
        message := LinkSent;
        scheduled := scheduled + [ToLogin];
      } else {
        message := RequestFailure;
      }
    }
  }
}

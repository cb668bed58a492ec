/** The login screen: the email rule, a required password, and a `login`
    call that clears the form and leads to the sign-up page. */
module Login {
  import opened JsText
  import opened EmailRule
  import opened Forms

  const PasswordKey := "password"
  const FieldKeys := {EmailKey, PasswordKey}
  const PasswordRequired := "Password is required."

  const LoginSuccess := "Login successful. Redirecting to signup page..."
  const LoginFailure := "An error occurred during login. Please try again."
  const SuccessPrefix := "Login successful"
  const ToSignup := Navigation("/", 2000)

  datatype Field = Email | Password

  datatype LoginForm = LoginForm(email: string, password: string)
  {
    function Get(f: Field): string
    {
      match f
      case Email => email
      case Password => password
    }

    /** The form after the input named f is edited to `value`. */
    function With(f: Field, value: string): (r: LoginForm)
      ensures r.Get(f) == value
      ensures forall g :: g != f ==> r.Get(g) == Get(g)
    {
      match f
      case Email => this.(email := value)
      case Password => this.(password := value)
    }
  }

  const EmptyForm := LoginForm("", "")

  ghost predicate Acceptable(form: LoginForm)
  {
    form.email != "" && EmailPattern(form.email) && form.password != ""
  }

  /** `validateForm`: the email rule, and a password that is required and nothing more. */
  function Validate(form: LoginForm): (errors: ErrorMap)
    ensures errors.Keys <= FieldKeys
    ensures EmailKey in errors <==> form.email == "" || !EmailPattern(form.email)
    ensures EmailKey in errors ==>
              errors[EmailKey] == (if form.email == "" then EmailRequired else EmailInvalid)
    ensures PasswordKey in errors <==> form.password == ""
    ensures PasswordKey in errors ==> errors[PasswordKey] == PasswordRequired
    ensures errors == map[] <==> Acceptable(form)
  {
    var e0: ErrorMap := map[];
    var e1 := WithEmailError(e0, form.email);
    if !Truthy(form.password) then e1[PasswordKey := PasswordRequired] else e1
  }

  function Alert(message: string): Option<AlertKind>
  {
    PolarityAlert(message, SuccessPrefix)
  }

  /** The success string is styled as a success and the failure string as a danger. */
  lemma AlertPolarity()
    ensures Alert(LoginSuccess) == Some(AlertSuccess)
    ensures Alert(LoginFailure) == Some(AlertDanger)
    ensures Alert("") == None
  {
    SuccessMessageStyled();
    FailureMessageStyled();
  }

  lemma SuccessMessageStyled()
    ensures Alert(LoginSuccess) == Some(AlertSuccess)
  {
  }

  // The verifier reads a long literal's characters through its two sentences.
  lemma FailureMessageStyled()
    ensures Alert(LoginFailure) == Some(AlertDanger)
  {
    var head, tail := "An error occurred during login.", " Please try again.";
    assert LoginFailure == head + tail && (head + tail)[0] == head[0];
  }

  /** The login component's state; `logins` records the payload of every `login` call. */
  class LoginScreen {
    var formData: LoginForm
    var errors: ErrorMap
    var message: string
    var logins: seq<LoginForm>
    var scheduled: seq<Navigation>

    ghost predicate Valid()
      reads this
    {
      && message in {"", LoginSuccess, LoginFailure}
      && errors.Keys <= FieldKeys
      && (forall i :: 0 <= i < |logins| ==> Acceptable(logins[i]))
      && |scheduled| <= |logins|
      && (forall i :: 0 <= i < |scheduled| ==> scheduled[i] == ToSignup)
    }

    constructor ()
      ensures Valid()
      ensures formData == EmptyForm && errors == map[] && message == ""
      ensures logins == [] && scheduled == []
    {
      formData := EmptyForm;
      errors := map[];
      message := "";
      logins := [];
      scheduled := [];
    }

    /** `handleChange`: the edited field takes the new value, the other keeps its own. */
    method HandleChange(field: Field, value: string)
      requires Valid()
      modifies this`formData
      ensures Valid()
      ensures formData.Get(field) == value
      ensures forall g :: g != field ==> formData.Get(g) == old(formData).Get(g)
    {
      formData := formData.With(field, value);
    }

    /** `handleSubmit`, with the settled `login` promise given as `outcome`.
        Only a successful login clears the form. */
    method HandleSubmit(outcome: ApiOutcome)
      requires Valid()
      modifies this
      ensures Valid()
      ensures !Acceptable(old(formData)) ==>
                && errors == Validate(old(formData)) && errors != map[]
                && message == old(message) && formData == old(formData)
                && logins == old(logins) && scheduled == old(scheduled)
      ensures Acceptable(old(formData)) ==>
                && errors == map[]
                && logins == old(logins) + [old(formData)]
                && message == (if outcome == Resolved then LoginSuccess else LoginFailure)
                && formData == (if outcome == Resolved then EmptyForm else old(formData))
                && scheduled == old(scheduled) + (if outcome == Resolved then [ToSignup] else [])
      ensures Acceptable(old(formData)) ==>
                (Alert(message) == Some(AlertSuccess) <==> outcome == Resolved)
    {
      var validationErrors := Validate(formData);
      if |validationErrors| > 0 {
        errors := validationErrors;
        return;
      }
      errors := map[];
      logins := logins + [formData];
      AlertPolarity();
      if outcome == Resolved {
        message := LoginSuccess;
        formData := EmptyForm;
        scheduled := scheduled + [ToSignup];
      } else {
        message := LoginFailure;
      }
    }
  }
}

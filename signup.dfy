/** The sign-up screen: four required fields, the email rule, and a
    `register` call that leads to the login page. */
module Signup {
  import opened JsText
  import opened EmailRule
  import opened Forms

  const FirstNameKey := "firstName"
  const LastNameKey := "lastName"
  const PasswordKey := "password"
  const FieldKeys := {FirstNameKey, LastNameKey, EmailKey, PasswordKey}

  const FirstNameRequired := "First name is required."
  const LastNameRequired := "Last name is required."
  const PasswordRequired := "Password is required."

  const RegisterSuccess := "Registration successful. Redirecting to login page..."
  const RegisterFailure := "An error occurred during registration. Please try again."
  const SuccessPrefix := "Registration successful"
  const ToLogin := Navigation("/login", 2000)

  /** The `name` of the input an edit comes from. */
  datatype Field = FirstName | LastName | Email | Password

  datatype SignupForm = SignupForm(firstName: string, lastName: string, email: string, password: string)
  {
    function Get(f: Field): string
    {
      match f
      case FirstName => firstName
      case LastName => lastName
      case Email => email
      case Password => password
    }

    /** The form after the input named f is edited to `value`. */
    function With(f: Field, value: string): (r: SignupForm)
      ensures r.Get(f) == value
      ensures forall g :: g != f ==> r.Get(g) == Get(g)
    {
      match f
      case FirstName => this.(firstName := value)
      case LastName => this.(lastName := value)
      case Email => this.(email := value)
      case Password => this.(password := value)
    }
  }

  const EmptyForm := SignupForm("", "", "", "")

  /** A form the validator lets through. */
  ghost predicate Acceptable(form: SignupForm)
  {
    form.firstName != "" && form.lastName != "" && form.password != ""
    && form.email != "" && EmailPattern(form.email)
  }

  /** `validateForm`: a required check on each name and on the password
      (whitespace-only values pass), and the email rule. */
  function Validate(form: SignupForm): (errors: ErrorMap)
    ensures errors.Keys <= FieldKeys
    ensures FirstNameKey in errors <==> form.firstName == ""
    ensures LastNameKey in errors <==> form.lastName == ""
    ensures PasswordKey in errors <==> form.password == ""
    ensures EmailKey in errors <==> form.email == "" || !EmailPattern(form.email)
    ensures FirstNameKey in errors ==> errors[FirstNameKey] == FirstNameRequired
    ensures LastNameKey in errors ==> errors[LastNameKey] == LastNameRequired
    ensures PasswordKey in errors ==> errors[PasswordKey] == PasswordRequired
    ensures EmailKey in errors ==>
              errors[EmailKey] == (if form.email == "" then EmailRequired else EmailInvalid)
    ensures errors == map[] <==> Acceptable(form)
  {
    var e0: ErrorMap := map[];
    var e1 := if !Truthy(form.firstName) then e0[FirstNameKey := FirstNameRequired] else e0;
    var e2 := if !Truthy(form.lastName) then e1[LastNameKey := LastNameRequired] else e1;
    var e3 := WithEmailError(e2, form.email);
    if !Truthy(form.password) then e3[PasswordKey := PasswordRequired] else e3
  }

  /** Each entry of the error map depends only on its own field. */
  lemma ValidateIsPerField(f1: SignupForm, f2: SignupForm, k: Field)
    requires f1.Get(k) == f2.Get(k)
    ensures var key := KeyOf(k);
            (key in Validate(f1) <==> key in Validate(f2))
            && (key in Validate(f1) ==> Validate(f1)[key] == Validate(f2)[key])
  {
  }

  function KeyOf(f: Field): string
  {
    match f
    case FirstName => FirstNameKey
    case LastName => LastNameKey
    case Email => EmailKey
    case Password => PasswordKey
  }

  /** The alert rendered for `message`. */
  function Alert(message: string): Option<AlertKind>
  {
    PolarityAlert(message, SuccessPrefix)
  }

  /** The success string is styled as a success and the failure string as a danger. */
  lemma AlertPolarity()
    ensures Alert(RegisterSuccess) == Some(AlertSuccess)
    ensures Alert(RegisterFailure) == Some(AlertDanger)
    ensures Alert("") == None
  {
    SuccessMessageStyled();
    FailureMessageStyled();
  }

  lemma SuccessMessageStyled()
    ensures Alert(RegisterSuccess) == Some(AlertSuccess)
  {
  }

  // The verifier reads a long literal's characters through its two sentences.
  lemma FailureMessageStyled()
    ensures Alert(RegisterFailure) == Some(AlertDanger)
  {
    var head, tail := "An error occurred during registration.", " Please try again.";
    assert RegisterFailure == head + tail && (head + tail)[0] == head[0];
  }

  /** The sign-up component's state. `registered` records, in order, the
      payload of every `register` call; `scheduled` every pending navigation. */
  class SignupScreen {
    var formData: SignupForm
    var errors: ErrorMap
    var message: string
    var registered: seq<SignupForm>
    var scheduled: seq<Navigation>

    ghost predicate Valid()
      reads this
    {
      && message in {"", RegisterSuccess, RegisterFailure}
      && errors.Keys <= FieldKeys
      && (forall i :: 0 <= i < |registered| ==> Acceptable(registered[i]))
      && |scheduled| <= |registered|
      && (forall i :: 0 <= i < |scheduled| ==> scheduled[i] == ToLogin)
    }

    constructor ()
      ensures Valid()
      ensures formData == EmptyForm && errors == map[] && message == ""
      ensures registered == [] && scheduled == []
    {
      formData := EmptyForm;
      errors := map[];
      message := "";
      registered := [];
      scheduled := [];
    }

    /** `handleChange`: the edited field takes the new value, the others keep theirs. */
    method HandleChange(field: Field, value: string)
      requires Valid()
      modifies this`formData
      ensures Valid()
      ensures formData.Get(field) == value
      ensures forall g :: g != field ==> formData.Get(g) == old(formData).Get(g)
    {
      formData := formData.With(field, value);
    }

    /** `handleSubmit`, with the settled `register` promise given as `outcome`. */
    method HandleSubmit(outcome: ApiOutcome)
      requires Valid()
      modifies this
      ensures Valid()
      ensures formData == old(formData)
      ensures !Acceptable(old(formData)) ==>
                && errors == Validate(old(formData)) && errors != map[]
                && message == old(message)
                && registered == old(registered) && scheduled == old(scheduled)
      ensures Acceptable(old(formData)) ==>
                && errors == map[]
                && registered == old(registered) + [old(formData)]
                && message == (if outcome == Resolved then RegisterSuccess else RegisterFailure)
                && scheduled == old(scheduled) + (if outcome == Resolved then [ToLogin] else [])
      ensures Acceptable(old(formData)) ==>
                (Alert(message) == Some(AlertSuccess) <==> outcome == Resolved)
    {
      var validationErrors := Validate(formData);
      if |validationErrors| > 0 {
        errors := validationErrors;
        return;
      }
      errors := map[];
      registered := registered + [formData];
      AlertPolarity();
      if outcome == Resolved {
        message := RegisterSuccess;
        scheduled := scheduled + [ToLogin];
      } else {
        message := RegisterFailure;
      }
    }
  }
}

/** The reset-password screen: a token taken from the page's query string,
    a new password of at least six characters that the confirmation must
    equal, and a `resetPassword` call that leads to the login page. */
module ResetPassword {
  import opened JsText
  import opened Forms

  const NewPasswordKey := "newPassword"
  const ConfirmPasswordKey := "confirmPassword"
  /** The key the markup reads for a form-wide error. */
  const GlobalKey := "global"
  const MinLength := 6

  const NewPasswordRequired := "New password is required."
  const NewPasswordTooShort := "New password must be at least 6 characters long."
  const PasswordsMismatch := "Passwords do not match."

  const ResetSuccess := "Password reset successful. Redirecting to login page..."
  const ResetFailure := "An error occurred during password reset. Please try again."
  const SuccessPrefix := "Password reset"
  const ToLogin := Navigation("/login", 2000)

  datatype Field = NewPassword | ConfirmPassword

  datatype ResetForm = ResetForm(newPassword: string, confirmPassword: string)
  {
    function Get(f: Field): string
    {
      match f
      case NewPassword => newPassword
      case ConfirmPassword => confirmPassword
    }

    /** The form after the input named f is edited to `value`. */
    function With(f: Field, value: string): (r: ResetForm)
      ensures r.Get(f) == value
      ensures forall g :: g != f ==> r.Get(g) == Get(g)
    {
      match f
      case NewPassword => this.(newPassword := value)
      case ConfirmPassword => this.(confirmPassword := value)
    }
  }

  const EmptyForm := ResetForm("", "")

  /** The payload of a `resetPassword(token, newPassword)` call; the
      confirmation is not part of it. */
  datatype ResetRequest = ResetRequest(token: string, newPassword: string)

  ghost predicate Acceptable(form: ResetForm)
  {
    Utf16Length(form.newPassword) >= MinLength && form.newPassword == form.confirmPassword
  }

  /** `validateForm`: the new password is required and at least six UTF-16
      code units long; independently, the confirmation must equal it. */
  function Validate(form: ResetForm): (errors: ErrorMap)
    ensures errors.Keys <= {NewPasswordKey, ConfirmPasswordKey}
    ensures GlobalKey !in errors
    ensures NewPasswordKey in errors <==> Utf16Length(form.newPassword) < MinLength
    ensures NewPasswordKey in errors ==>
              errors[NewPasswordKey] ==
                (if form.newPassword == "" then NewPasswordRequired else NewPasswordTooShort)
    ensures ConfirmPasswordKey in errors <==> form.newPassword != form.confirmPassword
    ensures ConfirmPasswordKey in errors ==> errors[ConfirmPasswordKey] == PasswordsMismatch
    ensures errors == map[] <==> Acceptable(form)
  {
    var e0: ErrorMap := map[];
    var e1 :=
      if !Truthy(form.newPassword) then e0[NewPasswordKey := NewPasswordRequired]
      else if Utf16Length(form.newPassword) < MinLength then e0[NewPasswordKey := NewPasswordTooShort]
      else e0;
    if form.newPassword != form.confirmPassword then e1[ConfirmPasswordKey := PasswordsMismatch] else e1
  }

  /** Two empty passwords give only the "required" error; a short password
      and a mismatched confirmation give both errors; a six-character
      password typed twice passes; a valid password with a mismatched
      confirmation gives only the mismatch. */
  lemma ValidateExamples()
    ensures Validate(ResetForm("", "")) == map[NewPasswordKey := NewPasswordRequired]
    ensures Validate(ResetForm("abc", "abd")) ==
              map[NewPasswordKey := NewPasswordTooShort, ConfirmPasswordKey := PasswordsMismatch]
    ensures Validate(ResetForm("abcdef", "abcdef")) == map[]
    ensures Validate(ResetForm("abcdef", "abcdeg")) == map[ConfirmPasswordKey := PasswordsMismatch]
  {
  }

  /** `.length` counts UTF-16 code units, so three characters from outside the
      Basic Multilingual Plane already make a long enough password, while
      five of its own characters do not. */
  lemma LengthCountsCodeUnits()
    ensures var astral := "\U{1F600}\U{1F600}\U{1F600}";
            |astral| == 3 && Validate(ResetForm(astral, astral)) == map[]
    ensures NewPasswordKey in Validate(ResetForm("abcde", "abcde"))
  {
  }

  /** The too-short error is given exactly for lengths one to five. */
  lemma TooShortRange(form: ResetForm)
    ensures (NewPasswordKey in Validate(form) && Validate(form)[NewPasswordKey] == NewPasswordTooShort)
            <==> 1 <= Utf16Length(form.newPassword) < MinLength
  {
  }

  /** The token the query string yields: its `token` parameter when present
      and non-empty, otherwise the token held so far. */
  function CapturedToken(query: map<string, string>, current: string): (t: string)
    ensures t != current ==> "token" in query && t == query["token"] && t != ""
    ensures "token" in query && query["token"] != "" ==> t == query["token"]
  {
    if "token" in query && Truthy(query["token"]) then query["token"] else current
  }

  function Alert(message: string): Option<AlertKind>
  {
    PolarityAlert(message, SuccessPrefix)
  }

  /** The success string is styled as a success and the failure string as a danger. */
  lemma AlertPolarity()
    ensures Alert(ResetSuccess) == Some(AlertSuccess)
    ensures Alert(ResetFailure) == Some(AlertDanger)
    ensures Alert("") == None
  {
    SuccessMessageStyled();
    FailureMessageStyled();
  }

  // The verifier reads a long literal's characters through its two sentences.
  lemma SuccessMessageStyled()
    ensures Alert(ResetSuccess) == Some(AlertSuccess)
  {
    var head, tail := "Password reset successful.", " Redirecting to login page...";
    assert ResetSuccess == head + tail && SuccessPrefix <= head;
  }

  lemma FailureMessageStyled()
    ensures Alert(ResetFailure) == Some(AlertDanger)
  {
    var head, tail := "An error occurred during password reset.", " Please try again.";
    assert ResetFailure == head + tail && (head + tail)[0] == head[0];
  }

  /** The reset-password component's state; `resets` records the arguments
      of every `resetPassword` call. */
  class ResetPasswordScreen {
    var formData: ResetForm
    var errors: ErrorMap
    var message: string
    var token: string
    var resets: seq<ResetRequest>
    var scheduled: seq<Navigation>

    ghost predicate Valid()
      reads this
    {
      && message in {"", ResetSuccess, ResetFailure}
      && errors.Keys <= {NewPasswordKey, ConfirmPasswordKey}
      && (forall i :: 0 <= i < |resets| ==> Utf16Length(resets[i].newPassword) >= MinLength)
      && |scheduled| <= |resets|
      && (forall i :: 0 <= i < |scheduled| ==> scheduled[i] == ToLogin)
    }

    constructor ()
      ensures Valid()
      ensures formData == EmptyForm && errors == map[] && message == "" && token == ""
      ensures resets == [] && scheduled == []
    {
      formData := EmptyForm;
      errors := map[];
      message := "";
      token := "";
      resets := [];
      scheduled := [];
    }

    /** The `useEffect` that reads `token` from the location's query string. */
    method CaptureToken(query: map<string, string>)
      requires Valid()
      modifies this`token
      ensures Valid()
      ensures token == CapturedToken(query, old(token))
    {
      if "token" in query && Truthy(query["token"]) {
        token := query["token"];
      }
    }

    /** `handleChange`: the edited field takes the new value, the other keeps its own. */
    method HandleChange(field: Field, value: string)
      requires Valid()
      modifies this`formData
      ensures Valid()
      ensures formData.Get(field) == value
      ensures forall g :: g != field ==> formData.Get(g) == old(formData).Get(g)
    {
      formData := formData.With(field, value);
    }

    /** `handleSubmit`, with the settled `resetPassword` promise given as
        `outcome`. The captured token is sent as it is, even when empty. */
    method HandleSubmit(outcome: ApiOutcome)
      requires Valid()
      modifies this
      ensures Valid()
      ensures formData == old(formData) && token == old(token)
      ensures !Acceptable(old(formData)) ==>
                && errors == Validate(old(formData)) && errors != map[]
                && message == old(message)
                && resets == old(resets) && scheduled == old(scheduled)
      ensures Acceptable(old(formData)) ==>
                && errors == map[]
                && resets == old(resets) + [ResetRequest(old(token), old(formData).newPassword)]
                && message == (if outcome == Resolved then ResetSuccess else ResetFailure)
                && scheduled == old(scheduled) + (if outcome == Resolved then [ToLogin] else [])
      ensures Acceptable(old(formData)) ==>
                (Alert(message) == Some(AlertSuccess) <==> outcome == Resolved)
    {
      var validationErrors := Validate(formData);
      if |validationErrors| > 0 {
        errors := validationErrors;
        return;
      }
      errors := map[];
      resets := resets + [ResetRequest(token, formData.newPassword)];
      AlertPolarity();
      if outcome == Resolved {
        message := ResetSuccess;
        scheduled := scheduled + [ToLogin];
      } else {
        message := ResetFailure;
      }
    }
  }
}

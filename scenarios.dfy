/** Clients of the four screens: each scenario drives a screen through the
    edits and the submit a user would make and checks, from the screens'
    contracts alone, what the screen then shows and what it has sent. */
module Scenarios {
  import opened EmailRule
  import opened Forms
  import Signup
  import Login
  import ForgotPassword
  import ResetPassword

  /** Names made only of spaces pass the required check. */
  method SignupWithBlankNames()
  {
    var s := new Signup.SignupScreen();
    s.HandleChange(Signup.FirstName, " ");
    s.HandleChange(Signup.LastName, " ");
    s.HandleChange(Signup.Email, "a@b.co");
    s.HandleChange(Signup.Password, "pw");
    EmailExamples();
    assert s.formData == Signup.SignupForm(" ", " ", "a@b.co", "pw");
    s.HandleSubmit(Rejected);
    assert s.registered == [Signup.SignupForm(" ", " ", "a@b.co", "pw")];
    assert s.message == Signup.RegisterFailure && s.scheduled == [];
  }

  /** An empty form is refused without a `register` call. */
  method SignupEmpty()
  {
    var s := new Signup.SignupScreen();
    s.HandleSubmit(Resolved);
    assert s.errors.Keys == Signup.FieldKeys;
    assert s.errors[EmailKey] == EmailRequired;
    assert s.registered == [] && s.message == "";
  }

  method LoginSucceeds()
  {
    var s := new Login.LoginScreen();
    s.HandleChange(Login.Email, "a@b.com");
    s.HandleChange(Login.Password, "x");
    assert MatchAt("a@b.com", 0, 1, 3, 7);
    assert s.formData == Login.LoginForm("a@b.com", "x");
    s.HandleSubmit(Resolved);
    assert s.logins == [Login.LoginForm("a@b.com", "x")];
    assert s.message == Login.LoginSuccess;
    assert s.formData == Login.LoginForm("", "");
    assert s.scheduled == [Navigation("/", 2000)];
  }

  method LoginFails()
  {
    var s := new Login.LoginScreen();
    s.HandleChange(Login.Email, "a@b.com");
    s.HandleChange(Login.Password, "x");
    assert MatchAt("a@b.com", 0, 1, 3, 7);
    s.HandleSubmit(Rejected);
    assert s.message == Login.LoginFailure;
    assert s.formData == Login.LoginForm("a@b.com", "x");
    assert s.scheduled == [];
  }

  /** An address without a dot is refused and the earlier message stays. */
  method LoginInvalidEmailKeepsMessage()
  {
    var s := new Login.LoginScreen();
    s.HandleChange(Login.Email, "a@b.com");
    s.HandleChange(Login.Password, "x");
    assert MatchAt("a@b.com", 0, 1, 3, 7);
    s.HandleSubmit(Rejected);
    assert s.message == Login.LoginFailure && |s.logins| == 1;
    s.HandleChange(Login.Email, "a@b");
    assert s.formData == Login.LoginForm("a@b", "x");
    EmailExamples();
    assert !Login.Acceptable(s.formData);
    s.HandleSubmit(Resolved);
    assert s.errors == map[EmailKey := EmailInvalid];
    assert s.message == Login.LoginFailure && |s.logins| == 1;
  }

  method ForgotPasswordWaitsFourSeconds()
  {
    var s := new ForgotPassword.ForgotPasswordScreen();
    s.HandleChange(ForgotPassword.Email, "a@b.co");
    EmailExamples();
    s.HandleSubmit(Resolved);
    assert s.requested == ["a@b.co"];
    assert s.scheduled == [Navigation("/login", 4000)];
    assert s.formData.email == "a@b.co";
  }

  /** Without a `token` parameter the request still goes out, with an empty token. */
  method ResetWithoutToken()
  {
    var s := new ResetPassword.ResetPasswordScreen();
    s.CaptureToken(map["email" := "a@b.co"]);
    assert s.token == "";
    s.HandleChange(ResetPassword.NewPassword, "secret");
    s.HandleChange(ResetPassword.ConfirmPassword, "secret");
    s.HandleSubmit(Resolved);
    assert s.resets == [ResetPassword.ResetRequest("", "secret")];
    assert s.message == ResetPassword.ResetSuccess;
  }

  /** An empty `token` parameter leaves the captured token as it was. */
  method ResetWithEmptyToken()
  {
    var s := new ResetPassword.ResetPasswordScreen();
    s.CaptureToken(map["token" := "t0k"]);
    s.CaptureToken(map["token" := ""]);
    assert s.token == "t0k";
  }
}

/** The password-reset forms: asking for a reset link and choosing the new password. */
module PasswordResetValidation {
  import opened Schema
  import opened AuthValidation

  /** `requestResetSchema`: only an address. */
  function RequestResetIssues(email: string, isEmail: string -> bool): (r: seq<Issue>)
    ensures r == [] <==> isEmail(email)
    ensures forall i :: 0 <= i < |r| ==> r[i].path == "email"
  {
    EmailIssues(email, isEmail)
  }

  datatype ResetPasswordForm = ResetPasswordForm(password: string, confirmPassword: string)

  /** `resetPasswordSchema`: the sign-up password rule, then the mismatch check on `confirmPassword`. */
  function ResetPasswordIssues(form: ResetPasswordForm): (r: seq<Issue>)
    ensures r == [] <==> IsStrongPassword(form.password) && form.password == form.confirmPassword
    ensures Issue("confirmPassword", MISMATCH_MESSAGE) in r <==> form.password != form.confirmPassword
  {
    var fields := PasswordIssues("password", form.password);
    fields + Check(form.password == form.confirmPassword, "confirmPassword", MISMATCH_MESSAGE)
  }

  /** A new password is accepted exactly when sign-up would accept it with a valid name and address. */
  lemma ResetRuleIsSignUpRule(form: ResetPasswordForm, name: string, email: string, isEmail: string -> bool)
    requires |name| >= 2 && isEmail(email)
    ensures ResetPasswordIssues(form) == [] <==>
      RegisterIssues(RegisterForm(name, email, form.password, form.confirmPassword), isEmail) == []
  {
  }
}

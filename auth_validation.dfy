/** The sign-up and sign-in forms' rules, and the password rule they share with the reset form. */
module AuthValidation {
  import opened Schema

  /** The characters the password's symbol check accepts. */
  const SPECIAL_CHARS: set<char> := {
    '!', '@', '#', '$', '%', '^', '&', '*', '(', ')', '_', '+', '-', '=', '[', ']', '{', '}',
    ';', '\'', ':', '"', '\\', '|', ',', '.', '<', '>', '/', '?'}

  /** The symbols the sign-up page's hint lists. */
  const HINTED_CHARS: set<char> := {'!', '@', '#', '$', '%', '^', '&', '*'}

  const PASSWORD_LENGTH_MESSAGE := "La contraseña debe tener al menos 10 caracteres"
  const PASSWORD_SYMBOL_MESSAGE := "La contraseña debe contener al menos un símbolo especial"
  const NAME_MESSAGE := "El nombre debe tener al menos 2 caracteres"
  const EMAIL_MESSAGE := "Email inválido"
  const MISMATCH_MESSAGE := "Las contraseñas no coinciden"
  const PASSWORD_REQUIRED_MESSAGE := "La contraseña es requerida"

  predicate HasSpecialChar(password: string) {
    exists i :: 0 <= i < |password| && password[i] in SPECIAL_CHARS
  }

  /** The password rule in one place: at least 10 characters and at least one symbol. */
  predicate IsStrongPassword(password: string) {
    |password| >= 10 && HasSpecialChar(password)
  }

  /**
   * `passwordSchema` reported on `path`: the length check and the symbol
   * check both run, so a short password without a symbol has two issues.
   */
  function PasswordIssues(path: string, password: string): (r: seq<Issue>)
    ensures r == [] <==> IsStrongPassword(password)
    ensures |r| <= 2
    ensures forall i :: 0 <= i < |r| ==> r[i].path == path
  {
    MinLength(path, password, 10, PASSWORD_LENGTH_MESSAGE)
      + Check(HasSpecialChar(password), path, PASSWORD_SYMBOL_MESSAGE)
  }

  /** `z.string().email()`, with `isEmail` standing for the library's address check. */
  function EmailIssues(email: string, isEmail: string -> bool): (r: seq<Issue>)
    ensures r == [] <==> isEmail(email)
  {
    Check(isEmail(email), "email", EMAIL_MESSAGE)
  }

  datatype RegisterForm = RegisterForm(name: string, email: string, password: string, confirmPassword: string)

  /**
   * `registerSchema`: the field checks in field order, then the refinement
   * that reports a password mismatch on the `confirmPassword` field.
   */
  function RegisterIssues(form: RegisterForm, isEmail: string -> bool): (r: seq<Issue>)
    ensures r == [] <==>
      |form.name| >= 2 && isEmail(form.email) && IsStrongPassword(form.password)
      && form.password == form.confirmPassword
    ensures Issue("confirmPassword", MISMATCH_MESSAGE) in r <==> form.password != form.confirmPassword
  {
    var fields := MinLength("name", form.name, 2, NAME_MESSAGE)
      + EmailIssues(form.email, isEmail)
      + PasswordIssues("password", form.password);
    assert forall i :: 0 <= i < |fields| ==> fields[i].path != "confirmPassword";
    fields + Check(form.password == form.confirmPassword, "confirmPassword", MISMATCH_MESSAGE)
  }

  datatype LoginForm = LoginForm(email: string, password: string)

  /** `loginSchema`: a valid address and a non-empty password, with no strength rule. */
  function LoginIssues(form: LoginForm, isEmail: string -> bool): (r: seq<Issue>)
    ensures r == [] <==> isEmail(form.email) && form.password != []
  {
    EmailIssues(form.email, isEmail) + MinLength("password", form.password, 1, PASSWORD_REQUIRED_MESSAGE)
  }

  /** Length alone is not enough, and neither is a symbol alone. */
  lemma BothPasswordRulesNeeded()
    ensures !IsStrongPassword("abcdefghij")
    ensures !IsStrongPassword("abc!")
    ensures IsStrongPassword("abcdefghi!")
  {
    assert "abcdefghi!"[9] == '!';
  }

  /** The accepted symbols go beyond the hint's "!@#$%^&*": '.', '?', '_' and '/' count too. */
  lemma SymbolsBeyondHint()
    ensures HINTED_CHARS < SPECIAL_CHARS
    ensures '.' in SPECIAL_CHARS && '?' in SPECIAL_CHARS && '_' in SPECIAL_CHARS && '/' in SPECIAL_CHARS
    ensures IsStrongPassword("contrasena.")
  {
    assert "contrasena."[10] == '.';
  }

  /** Sign-in accepts a password sign-up would refuse. */
  lemma LoginHasNoStrengthRule(email: string, isEmail: string -> bool)
    requires isEmail(email)
    ensures LoginIssues(LoginForm(email, "x"), isEmail) == []
    ensures RegisterIssues(RegisterForm("Ana", email, "x", "x"), isEmail) != []
  {
  }
}

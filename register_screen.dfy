/** presentation/auth/RegisterScreen.kt: the registration form's guards. */
module RegisterScreen {
  import opened Text

  datatype RegisterForm = RegisterForm(username: string, email: string, password: string, confirmPassword: string)

  /** A field holds at least one character that is not whitespace. */
  predicate Filled(s: string) {
    exists c :: c in s && !IsWhitespace(c)
  }

  /** isFormValid: four non-blank fields and a confirmation equal to the password. */
  function IsFormValid(f: RegisterForm): (valid: bool)
    ensures valid ==> f.password == f.confirmPassword
    ensures valid ==> f.username != [] && f.email != [] && f.password != [] && f.confirmPassword != []
    ensures IsBlank(f.username) || IsBlank(f.email) || IsBlank(f.password) ==> !valid
    ensures f.password != f.confirmPassword ==> !valid
    ensures Filled(f.username) && Filled(f.email) && Filled(f.password) && f.password == f.confirmPassword ==> valid
  {
    !IsBlank(f.username) && !IsBlank(f.email) && !IsBlank(f.password) && !IsBlank(f.confirmPassword)
    && f.password == f.confirmPassword
  }

  /** "Password tidak cocok" shows once something is typed in the confirmation and it differs. */
  function ShowsMismatch(f: RegisterForm): (shown: bool)
    ensures shown ==> f.confirmPassword != [] && f.password != f.confirmPassword
    ensures f.password == f.confirmPassword || IsBlank(f.confirmPassword) ==> !shown
    ensures f.confirmPassword == [] ==> !shown
    ensures Filled(f.confirmPassword) && f.password != f.confirmPassword ==> shown
  {
    !IsBlank(f.confirmPassword) && f.password != f.confirmPassword
  }

  /** The register button. */
  function RegisterEnabled(f: RegisterForm, isLoading: bool): (enabled: bool)
    ensures enabled ==> IsFormValid(f) && !isLoading
    ensures isLoading ==> !enabled
    ensures IsFormValid(f) && !isLoading ==> enabled
  {
    IsFormValid(f) && !isLoading
  }

  /** A visible mismatch error always comes with a disabled button. */
  lemma MismatchDisablesRegister(f: RegisterForm, isLoading: bool)
    requires ShowsMismatch(f)
    ensures !IsFormValid(f) && !RegisterEnabled(f, isLoading)
  {
  }

  /** An enabled button means nothing is loading, the passwords agree and no error shows. */
  lemma EnabledMeansConsistent(f: RegisterForm, isLoading: bool)
    requires RegisterEnabled(f, isLoading)
    ensures !isLoading && f.password == f.confirmPassword && !ShowsMismatch(f)
    ensures f.username != [] && f.email != [] && f.password != []
  {
  }
}

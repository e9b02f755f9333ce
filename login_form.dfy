/**
 * The submit handlers of the login screen (src/components/LoginScreen.jsx) as
 * functions: the inputs of a form and the outcome of the external
 * `login`/`register` call give the final loading flag, the error shown and the
 * external call made, if any. Module LoginScreen holds the step-by-step
 * object version.
 */
module LoginForm {
  import opened Types

  /** The four fixed error messages, in the source's own wording. */
  const LoginFailed: string := "Email ou senha incorretos"
  const PasswordMismatch: string := "As senhas não coincidem"
  const PasswordTooShort: string := "A senha deve ter pelo menos 6 caracteres"
  const RegisterFailed: string := "Erro ao criar conta. Tente novamente."

  const MinPasswordLength: nat := 6

  /** A character outside the Basic Multilingual Plane, stored as two UTF-16 code units. */
  predicate IsAstral(c: char) {
    c as int > 0xFFFF
  }

  /** JavaScript's `string.length`: the number of UTF-16 code units. */
  function Utf16Length(s: string): (n: nat)
    ensures |s| <= n <= 2 * |s|
  {
    if s == [] then 0 else (if IsAstral(s[0]) then 2 else 1) + Utf16Length(s[1..])
  }

  /** For text without astral characters the two notions of length agree. */
  lemma {:induction false} Utf16LengthOfBmp(s: string)
    requires forall i :: 0 <= i < |s| ==> !IsAstral(s[i])
    ensures Utf16Length(s) == |s|
  {
    if s != [] {
      Utf16LengthOfBmp(s[1..]);
    }
  }

  /** `result.success` of the awaited `login`/`register` call. */
  datatype Outcome = Succeeded | Failed

  /** The external call a handler makes, with its arguments in order. */
  datatype AuthCall =
    | LoginCall(email: string, password: string)
    | RegisterCall(email: string, password: string, nome: string)

  datatype RegisterData = RegisterData(nome: string, email: string, password: string, confirmPassword: string)

  /** The form state a handler leaves behind, and the external call it made. */
  datatype Submission = Submission(loading: bool, error: string, call: Option<AuthCall>)

  /** `handleLogin`: the login call is always made; only its failure shows an error. */
  function SubmitLogin(email: string, password: string, outcome: Outcome): (r: Submission)
    ensures r.call == Some(LoginCall(email, password))
    ensures !r.loading
    ensures r.error == "" <==> outcome == Succeeded
    ensures outcome == Failed ==> r.error == LoginFailed
  {
    Submission(false, if outcome == Failed then LoginFailed else "", Some(LoginCall(email, password)))
  }

  /**
   * The two checks `handleRegister` runs before calling `register`, in order:
   * the confirmation first, then the length. `None` means both pass.
   */
  function RegisterCheck(data: RegisterData): (err: Option<string>)
    ensures err == None <==>
      data.password == data.confirmPassword && Utf16Length(data.password) >= MinPasswordLength
    ensures data.password != data.confirmPassword ==> err == Some(PasswordMismatch)
    ensures data.password == data.confirmPassword && Utf16Length(data.password) < MinPasswordLength ==>
      err == Some(PasswordTooShort)
  {
    if data.password != data.confirmPassword then Some(PasswordMismatch)
    else if Utf16Length(data.password) < MinPasswordLength then Some(PasswordTooShort)
    else None
  }

  /**
   * `handleRegister`: a failed check is reported without calling `register`;
   * otherwise `register(email, password, nome)` is called and only its failure
   * shows the generic error. Every path ends with loading off.
   */
  function SubmitRegister(data: RegisterData, outcome: Outcome): (r: Submission)
    ensures !r.loading
    ensures r.call.Some? <==> RegisterCheck(data) == None
    ensures r.call.Some? ==> r.call.value == RegisterCall(data.email, data.password, data.nome)
    ensures RegisterCheck(data).Some? ==> r.error == RegisterCheck(data).value
    ensures RegisterCheck(data) == None ==> (r.error == "" <==> outcome == Succeeded)
    ensures RegisterCheck(data) == None && outcome == Failed ==> r.error == RegisterFailed
  {
    match RegisterCheck(data)
    case Some(message) => Submission(false, message, None)
    case None =>
      Submission(false, if outcome == Failed then RegisterFailed else "",
                 Some(RegisterCall(data.email, data.password, data.nome)))
  }

  /** The four messages are distinct, so the user can tell the failures apart. */
  lemma MessagesDistinct()
    ensures LoginFailed != PasswordMismatch && LoginFailed != PasswordTooShort
    ensures LoginFailed != RegisterFailed && PasswordMismatch != PasswordTooShort
    ensures PasswordMismatch != RegisterFailed && PasswordTooShort != RegisterFailed
    ensures LoginFailed != "" && PasswordMismatch != "" && PasswordTooShort != "" && RegisterFailed != ""
  {
  }

  /** When validation fails, the outcome of `register` (never called) makes no difference. */
  lemma RejectedRegistrationIgnoresOutcome(data: RegisterData)
    requires RegisterCheck(data).Some?
    ensures SubmitRegister(data, Succeeded) == SubmitRegister(data, Failed)
  {
  }

  /** Mismatch is reported first: a short password that also differs from its confirmation gets the mismatch message. */
  lemma MismatchTakesPrecedence(data: RegisterData, outcome: Outcome)
    requires data.password != data.confirmPassword
    requires Utf16Length(data.password) < MinPasswordLength
    ensures SubmitRegister(data, outcome) == Submission(false, PasswordMismatch, None)
  {
  }

  /** Fixed inputs: "abc" confirmed as "abd"; "abc" confirmed as itself; "abcdef" accepted. */
  lemma RegisterScenarios(outcome: Outcome)
    ensures SubmitRegister(RegisterData("Ana", "a@b.c", "abc", "abd"), outcome).error == PasswordMismatch
    ensures SubmitRegister(RegisterData("Ana", "a@b.c", "abc", "abc"), outcome).error == PasswordTooShort
    ensures SubmitRegister(RegisterData("Ana", "a@b.c", "abcdef", "abcdef"), outcome).call
      == Some(RegisterCall("a@b.c", "abcdef", "Ana"))
  {
    Utf16LengthOfBmp("abc");
    Utf16LengthOfBmp("abcdef");
  }

  /**
   * Three characters outside the Basic Multilingual Plane already make six
   * UTF-16 code units, so such a password passes the length check.
   */
  lemma AstralPasswordPasses(outcome: Outcome)
    ensures var p := "\U{1F3B8}\U{1F3B8}\U{1F3B8}";
      |p| == 3 && Utf16Length(p) == 6 && RegisterCheck(RegisterData("Ana", "a@b.c", p, p)) == None
  {
  }
}

/**
 * The login screen's `loading` and `error` state (src/components/LoginScreen.jsx:12-13)
 * and its two submit handlers, written step by step with the early returns of
 * the source. The awaited `login`/`register` result is a parameter; the
 * returned call says whether and how the external function was invoked.
 */
module LoginScreen {
  import opened Types
  import opened LoginForm

  class Form {
    var loading: bool
    var error: string

    constructor ()
      ensures !loading && error == ""
    {
      loading := false;
      error := "";
    }

    /** `handleLogin`: whatever error was shown before, the new one depends only on this attempt. */
    method HandleLogin(email: string, password: string, outcome: Outcome) returns (call: AuthCall)
      modifies this
      ensures call == LoginCall(email, password)
      ensures Submission(loading, error, Some(call)) == SubmitLogin(email, password, outcome)
    {
      loading := true;
      error := "";
      call := LoginCall(email, password);
      if outcome == Failed {
        error := LoginFailed;
      }
      loading := false;
    }

    /** `handleRegister`: validation first, then at most one call of `register`. */
    method HandleRegister(data: RegisterData, outcome: Outcome) returns (call: Option<AuthCall>)
      modifies this
      ensures Submission(loading, error, call) == SubmitRegister(data, outcome)
    {
      loading := true;
      error := "";
      if data.password != data.confirmPassword {
        error := PasswordMismatch;
        loading := false;
        return None;
      }
      if Utf16Length(data.password) < MinPasswordLength {
        error := PasswordTooShort;
        loading := false;
        return None;
      }
      call := Some(RegisterCall(data.email, data.password, data.nome));
      if outcome == Failed {
        error := RegisterFailed;
      }
      loading := false;
    }
  }
}

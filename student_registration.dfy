/**
 * The student registration page: the field validators (among them the
 * password pattern), the form-level check that the confirmation equals the
 * password, and the handling of the register call's answer.
 *
 * `Validators.email` is the framework's pattern and is a parameter here;
 * the redirect to the login page after five seconds is returned.
 */
module StudentRegistration {
  import opened Common

  // ----- The password pattern `(?=.*[a-z])(?=.*[A-Z])(?=.*\W)` -----

  predicate IsLowerAscii(c: char) { 'a' <= c <= 'z' }
  predicate IsUpperAscii(c: char) { 'A' <= c <= 'Z' }
  /** `\w`: ASCII letters, digits and `_`. */
  predicate IsWordChar(c: char) { IsLowerAscii(c) || IsUpperAscii(c) || IsDigit(c) || c == '_' }
  /** The characters `.` does not match. */
  predicate IsLineTerminator(c: char) { c == '\n' || c == '\r' || c == '\U{2028}' || c == '\U{2029}' }

  /** No line terminator in `s[from..to]`. */
  predicate OneLine(s: string, from: nat, to: nat)
    requires from <= to <= |s|
  {
    forall k :: from <= k < to ==> !IsLineTerminator(s[k])
  }

  /** The lookahead `(?=.*X)` at position `p`: some later character of class `X` on the same line. */
  predicate LowerAhead(s: string, p: nat) requires p <= |s| {
    exists k :: p <= k < |s| && IsLowerAscii(s[k]) && OneLine(s, p, k)
  }
  predicate UpperAhead(s: string, p: nat) requires p <= |s| {
    exists k :: p <= k < |s| && IsUpperAscii(s[k]) && OneLine(s, p, k)
  }
  predicate NonWordAhead(s: string, p: nat) requires p <= |s| {
    exists k :: p <= k < |s| && !IsWordChar(s[k]) && OneLine(s, p, k)
  }

  /** `RegExp.test` of the unanchored pattern: the three lookaheads succeed together at some position. */
  predicate PasswordPattern(s: string) {
    exists p: nat :: p <= |s| && LowerAhead(s, p) && UpperAhead(s, p) && NonWordAhead(s, p)
  }

  /** On a password without line breaks the pattern asks for a lower-case letter, an upper-case letter and a non-word character. */
  lemma PasswordPatternOnOneLine(s: string)
    requires forall k :: 0 <= k < |s| ==> !IsLineTerminator(s[k])
    ensures PasswordPattern(s) <==>
      (exists i :: 0 <= i < |s| && IsLowerAscii(s[i])) &&
      (exists i :: 0 <= i < |s| && IsUpperAscii(s[i])) &&
      (exists i :: 0 <= i < |s| && !IsWordChar(s[i]))
  {
    if (exists i :: 0 <= i < |s| && IsLowerAscii(s[i])) &&
       (exists i :: 0 <= i < |s| && IsUpperAscii(s[i])) &&
       (exists i :: 0 <= i < |s| && !IsWordChar(s[i])) {
      var a :| 0 <= a < |s| && IsLowerAscii(s[a]);
      var b :| 0 <= b < |s| && IsUpperAscii(s[b]);
      var c :| 0 <= c < |s| && !IsWordChar(s[c]);
      assert OneLine(s, 0, a) && OneLine(s, 0, b) && OneLine(s, 0, c);
      assert LowerAhead(s, 0) && UpperAhead(s, 0) && NonWordAhead(s, 0);
    }
  }

  /** A line break between the letters defeats the pattern: `"a\nB!"` is refused though it has all three kinds. */
  lemma LineBreakDefeatsPattern(s: string)
    requires s == ['a', '\n', 'B', '!']
    ensures !PasswordPattern(s)
  {
    forall p: nat | p <= |s| && LowerAhead(s, p) ensures !UpperAhead(s, p) {
      var k :| p <= k < |s| && IsLowerAscii(s[k]) && OneLine(s, p, k);
      assert k == 0;
      forall k2 | p <= k2 < |s| && IsUpperAscii(s[k2]) ensures !OneLine(s, p, k2) {
        assert k2 == 2;
        assert IsLineTerminator(s[1]);
      }
    }
  }

  /** The password control: required, at least six characters, and the pattern. */
  predicate PasswordValid(password: string) {
    password != "" && |password| >= 6 && PasswordPattern(password)
  }

  // ----- The form -----

  /** The form's values. */
  datatype RegistrationFields = RegistrationFields(
    firstName: string,
    lastName: string,
    username: string,
    email: string,
    password: string,
    confirmPassword: string)

  datatype RegistrationData = RegistrationData(firstName: string, lastName: string, username: string, email: string, password: string)

  /** How the register call ended: the success message, or the error body's `errors` (when it is an array) and `message`. */
  datatype RegisterResult = Registered(message: string) | RegisterFailed(errors: Option<seq<string>>, bodyMessage: Option<string>)

  const MismatchKey: string := "passwordMismatch"
  const RegistrationFailedMessage: string := "Registration failed."
  const LoginPath: string := "/login"
  const RedirectDelayMs: nat := 5000

  /** The control validators and the form-level check: the form is valid exactly when all pass. */
  predicate FormValid(f: RegistrationFields, emailAccepted: string -> bool) {
    f.firstName != "" && f.lastName != "" && f.username != "" && |f.username| >= 3 &&
    f.email != "" && emailAccepted(f.email) && PasswordValid(f.password) && f.confirmPassword != "" &&
    f.password == f.confirmPassword
  }

  /**
   * The confirmation control's errors after `passwordMatchValidator`: a
   * mismatch replaces them all by the mismatch error; a match removes only
   * a raised mismatch error, and clears the errors when none remain; in
   * every other case they are left alone.
   */
  function ConfirmErrorsAfter(password: string, confirm: string, errors: Option<map<string, bool>>): (r: Option<map<string, bool>>)
    ensures password != confirm ==> r == Some(map[MismatchKey := true])
    ensures password == confirm ==> r.None? || MismatchKey !in r.value || errors == r
    ensures password == confirm && r.Some? ==> errors.Some? && forall key :: key in r.value ==> key in errors.value && r.value[key] == errors.value[key]
    ensures password == confirm && errors.Some? ==>
      forall key :: key in errors.value && key != MismatchKey ==> r.Some? && key in r.value && r.value[key] == errors.value[key]
    ensures password == confirm && errors.Some? && MismatchKey in errors.value && errors.value[MismatchKey] ==>
      (r.None? <==> errors.value.Keys == {MismatchKey}) && (r.Some? ==> r.value == errors.value - {MismatchKey})
    ensures password == confirm && !(errors.Some? && MismatchKey in errors.value && errors.value[MismatchKey]) ==> r == errors
  {
    if password != confirm then Some(map[MismatchKey := true])
    else if errors.Some? && MismatchKey in errors.value && errors.value[MismatchKey] then
      var rest := errors.value - {MismatchKey};
      assert forall key :: key in errors.value && key != MismatchKey ==> key in rest;
      if rest.Keys == {} then None else Some(rest)
    else errors
  }

  /** Running the validator again changes nothing more. */
  lemma ConfirmErrorsSettle(password: string, confirm: string, errors: Option<map<string, bool>>)
    ensures var once := ConfirmErrorsAfter(password, confirm, errors);
      ConfirmErrorsAfter(password, confirm, once) == once
  {
  }

  /** The message list shown after a failed registration: the errors array, else the message, else the fixed text. */
  function ErrorList(errors: Option<seq<string>>, message: Option<string>): (r: seq<string>)
    ensures errors.Some? ==> r == errors.value
    ensures errors.None? && Truthy(message) ==> r == [message.value]
    ensures errors.None? && !Truthy(message) ==> r == [RegistrationFailedMessage]
  {
    if errors.Some? then errors.value
    else if Truthy(message) then [message.value]
    else [RegistrationFailedMessage]
  }

  /** Something is always shown, unless the backend itself sent an empty errors array; nothing shown is ever empty text unless the backend sent it. */
  lemma ErrorListShowsSomething(errors: Option<seq<string>>, message: Option<string>)
    ensures ErrorList(errors, message) == [] ==> errors == Some([])
    ensures forall i :: 0 <= i < |ErrorList(errors, message)| && ErrorList(errors, message)[i] == "" ==> errors.Some?
  {
  }

  class RegistrationPage {
    var fields: RegistrationFields
    /** The confirmation control's errors object, `null` when it has none. */
    var confirmErrors: Option<map<string, bool>>
    var showPassword: bool
    var showConfirmPassword: bool
    var isLoading: bool
    var apiSuccess: Option<string>
    var apiError: Option<seq<string>>

    constructor()
      ensures fields == RegistrationFields("", "", "", "", "", "") && confirmErrors.None?
      ensures !showPassword && !showConfirmPassword && !isLoading && apiSuccess.None? && apiError.None?
    {
      fields := RegistrationFields("", "", "", "", "", "");
      confirmErrors := None;
      showPassword := false;
      showConfirmPassword := false;
      isLoading := false;
      apiSuccess := None;
      apiError := None;
    }

    /** `passwordMatchValidator`: the form-level error it returns, and its update of the confirmation's errors. */
    method PasswordMatchValidator() returns (groupError: Option<map<string, bool>>)
      modifies this
      ensures groupError.Some? <==> fields.password != fields.confirmPassword
      ensures groupError.Some? ==> groupError.value == map[MismatchKey := true]
      ensures confirmErrors == ConfirmErrorsAfter(fields.password, fields.confirmPassword, old(confirmErrors))
      ensures fields == old(fields) && isLoading == old(isLoading) && apiSuccess == old(apiSuccess) && apiError == old(apiError)
      ensures showPassword == old(showPassword) && showConfirmPassword == old(showConfirmPassword)
    {
      if fields.password != fields.confirmPassword {
        confirmErrors := Some(map[MismatchKey := true]);
        return Some(map[MismatchKey := true]);
      }
      if confirmErrors.Some? && MismatchKey in confirmErrors.value && confirmErrors.value[MismatchKey] {
        var rest := confirmErrors.value - {MismatchKey};
        confirmErrors := if rest.Keys == {} then None else Some(rest);
      }
      return None;
    }

    /** `onSubmit`: an invalid form sends nothing; a valid one starts loading, clears both messages and sends the data. */
    method OnSubmit(emailAccepted: string -> bool) returns (request: Option<RegistrationData>)
      modifies this
      ensures fields == old(fields) && confirmErrors == old(confirmErrors)
      ensures showPassword == old(showPassword) && showConfirmPassword == old(showConfirmPassword)
      ensures !FormValid(fields, emailAccepted) ==>
        request.None? && isLoading == old(isLoading) && apiSuccess == old(apiSuccess) && apiError == old(apiError)
      ensures FormValid(fields, emailAccepted) ==>
        request == Some(RegistrationData(fields.firstName, fields.lastName, fields.username, fields.email, fields.password)) &&
        isLoading && apiSuccess.None? && apiError.None?
    {
      request := None;
      if FormValid(fields, emailAccepted) {
        isLoading := true;
        apiSuccess := None;
        apiError := None;
        request := Some(RegistrationData(fields.firstName, fields.lastName, fields.username, fields.email, fields.password));
      }
    }

    /**
     * The answer to the register call: success shows the message and asks
     * for the login page after five seconds; failure shows `ErrorList` and
     * never a success message.  Loading ends either way.
     */
    method OnRegisterResult(result: RegisterResult) returns (redirect: Option<(string, nat)>)
      modifies this
      ensures !isLoading && fields == old(fields) && confirmErrors == old(confirmErrors)
      ensures showPassword == old(showPassword) && showConfirmPassword == old(showConfirmPassword)
      ensures result.Registered? ==> apiSuccess == Some(result.message) && apiError.None? && redirect == Some((LoginPath, RedirectDelayMs))
      ensures result.RegisterFailed? ==> apiSuccess.None? && apiError == Some(ErrorList(result.errors, result.bodyMessage)) && redirect.None?
    {
      isLoading := false;
      match result
      case Registered(message) =>
        apiSuccess := Some(message);
        apiError := None;
        redirect := Some((LoginPath, RedirectDelayMs));
      case RegisterFailed(errors, bodyMessage) =>
        apiSuccess := None;
        apiError := Some(ErrorList(errors, bodyMessage));
        redirect := None;
    }

    /** `togglePassword`. */
    method TogglePassword()
      modifies this
      ensures showPassword == !old(showPassword) && showConfirmPassword == old(showConfirmPassword)
      ensures fields == old(fields) && isLoading == old(isLoading) && confirmErrors == old(confirmErrors)
      ensures apiSuccess == old(apiSuccess) && apiError == old(apiError)
    {
      showPassword := !showPassword;
    }

    /** `toggleConfirmPassword`. */
    method ToggleConfirmPassword()
      modifies this
      ensures showConfirmPassword == !old(showConfirmPassword) && showPassword == old(showPassword)
      ensures fields == old(fields) && isLoading == old(isLoading) && confirmErrors == old(confirmErrors)
      ensures apiSuccess == old(apiSuccess) && apiError == old(apiError)
    {
      showConfirmPassword := !showConfirmPassword;
    }
  }
}

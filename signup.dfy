/** The sign-up form of src/pages/Signup.tsx: sanitised name and e-mail
    fields with live errors, the asynchronous duplicate-e-mail check split
    into its start and its settling, the submit checks in their order, and
    the sign-up call. The check's reply is the mock `checkEmailDuplicate` of
    the authentication context applied to the address it was started with;
    `failed` stands for a rejected promise. */
module Signup {
  import opened Wrappers
  import opened Routing
  import opened Validation
  import opened Auth

  const NameMessage := "한글 또는 영문 2-50자로 입력해주세요"
  const EmailMessage := "올바른 이메일 형식을 입력해주세요"
  const TakenMessage := "이미 사용 중인 이메일입니다"
  const CheckFailedMessage := "이메일 확인 중 오류가 발생했습니다"
  const MismatchMessage := "비밀번호가 일치하지 않습니다."
  const WeakPasswordMessage := "비밀번호 조건을 확인해주세요."
  const SignupFailedMessage := "회원가입 중 오류가 발생했습니다."

  /** The live name error: shown for a non-empty invalid name. */
  function NameFieldError(name: string): (message: string)
    ensures message != "" <==> name != "" && !ValidateKoreanName(name)
    ensures message != "" ==> message == NameMessage
  {
    if name != "" && !ValidateKoreanName(name) then NameMessage else ""
  }

  /** The live e-mail error: shown for a non-empty malformed address. */
  function EmailFieldError(email: string): (message: string)
    ensures message != "" <==> email != "" && !ValidateEmail(email)
    ensures message != "" ==> message == EmailMessage
  {
    if email != "" && !ValidateEmail(email) then EmailMessage else ""
  }

  /** The name input and its error. */
  datatype NameField = NameField(value: string, error: string)

  /** The e-mail input, its error, the duplicate-check flags, and the
      address the running check was started with. */
  datatype EmailField = EmailField(value: string, error: string, checking: bool, checked: bool, available: bool,
                                   checkingFor: Option<string>)

  /** The password inputs and the terms box. */
  datatype Passwords = Passwords(password: string, confirmation: string, agreeTerms: bool)

  /** The page error, the loading state and `isSubmitting.current`. */
  datatype Submission = Submission(error: string, loading: bool, submitting: bool)

  datatype FormState = FormState(name: NameField, email: EmailField, passwords: Passwords, submission: Submission)

  const Initial := FormState(NameField("", ""), EmailField("", "", false, false, false, None),
                             Passwords("", "", false), Submission("", false, false))

  /** An empty name error stands for a valid (or empty) name. */
  predicate NameConsistent(n: NameField) {
    n.error == "" && n.value != "" ==> ValidateKoreanName(n.value)
  }

  /** A check in flight knows its non-empty address, an empty error stands
      for a well-formed (or empty) address, and an address marked checked
      and available is one the duplicate check accepts. */
  predicate EmailConsistent(e: EmailField) {
    (e.checking <==> e.checkingFor.Some?) &&
    (e.checkingFor.Some? ==> e.checkingFor.value != "") &&
    (e.error == "" && e.value != "" ==> ValidateEmail(e.value)) &&
    (e.checked && e.available ==> e.value != "" && CheckEmailDuplicate(e.value))
  }

  /** The busy flags agree. */
  predicate SubmissionConsistent(b: Submission) {
    b.submitting == b.loading
  }

  /** What the form keeps true. */
  predicate Consistent(s: FormState) {
    NameConsistent(s.name) && EmailConsistent(s.email) && SubmissionConsistent(s.submission)
  }

  /** `isFormValid`, which enables the submit button. */
  predicate FormValid(s: FormState) {
    s.name.value != "" && s.name.error == "" && s.email.value != "" && s.email.error == "" &&
    s.email.checked && s.email.available && ValidatePassword(s.passwords.password).isValid &&
    s.passwords.password == s.passwords.confirmation && s.passwords.agreeTerms
  }

  /** `handleNameChange`. */
  function NameChanged(value: string): (n: NameField)
    ensures n.value == SanitizeInput(value, 50)
    ensures n.error != "" <==> n.value != "" && !ValidateKoreanName(n.value)
    ensures n.error != "" ==> n.error == NameMessage
    ensures NameConsistent(n)
  {
    var sanitized := SanitizeInput(value, 50);
    NameField(sanitized, NameFieldError(sanitized))
  }

  /** `handleEmailChange`: an earlier check result is dropped; a check
      still in flight keeps running. */
  function EmailChanged(e: EmailField, value: string): (t: EmailField)
    ensures t.value == SanitizeInput(value, 100)
    ensures t.error != "" <==> t.value != "" && !ValidateEmail(t.value)
    ensures t.error != "" ==> t.error == EmailMessage
    ensures !t.checked && !t.available && t.checking == e.checking && t.checkingFor == e.checkingFor
    ensures EmailConsistent(e) ==> EmailConsistent(t)
  {
    var sanitized := SanitizeInput(value, 100);
    e.(value := sanitized, checked := false, available := false, error := EmailFieldError(sanitized))
  }

  /** The guard of `handleCheckEmail`. */
  predicate CanCheck(e: EmailField) {
    e.value != "" && e.error == "" && !e.checking
  }

  /** The synchronous part of `handleCheckEmail`: the check starts for the
      current address unless the guard stops it. */
  function CheckStarted(e: EmailField): (t: EmailField)
    ensures CanCheck(e) ==> t == e.(checking := true, checkingFor := Some(e.value))
    ensures !CanCheck(e) ==> t == e
    ensures EmailConsistent(e) ==> EmailConsistent(t)
  {
    if e.value == "" || e.error != "" || e.checking then e
    else e.(checking := true, checkingFor := Some(e.value), error := "")
  }

  /** The check settling as `handleCheckEmail` is written: the reply for
      the address the check started with is applied to whatever address the
      field holds now. */
  function CheckSettledAsWritten(e: EmailField, failed: bool): (t: EmailField)
    requires e.checkingFor.Some?
    ensures !t.checking && t.checkingFor.None? && t.value == e.value
    ensures !failed ==> t.checked && t.available == CheckEmailDuplicate(e.checkingFor.value)
    ensures !failed ==> t.error == if t.available then e.error else TakenMessage
    ensures failed ==> t.checked == e.checked && t.available == e.available && t.error == CheckFailedMessage
    ensures EmailConsistent(e) && e.checkingFor == Some(e.value) ==> EmailConsistent(t)
  {
    if !failed then
      var isAvailable := CheckEmailDuplicate(e.checkingFor.value);
      e.(checked := true, available := isAvailable, error := if isAvailable then e.error else TakenMessage,
         checking := false, checkingFor := None)
    else
      e.(error := CheckFailedMessage, checking := false, checkingFor := None)
  }

  /** The check settling as evidently intended: a reply for an address the
      user has since edited away is dropped. */
  function CheckSettled(e: EmailField, failed: bool): (t: EmailField)
    requires e.checkingFor.Some?
    ensures e.checkingFor == Some(e.value) ==> t == CheckSettledAsWritten(e, failed)
    ensures e.checkingFor != Some(e.value) ==> t == e.(checking := false, checkingFor := None)
    ensures EmailConsistent(e) ==> EmailConsistent(t)
  {
    if e.checkingFor == Some(e.value) then CheckSettledAsWritten(e, failed)
    else e.(checking := false, checkingFor := None)
  }

  predicate Busy(s: FormState) {
    s.submission.submitting || s.submission.loading
  }

  /** The four final checks of `handleSubmit`. */
  predicate PassesFinalChecks(s: FormState) {
    ValidateKoreanName(s.name.value) && ValidateEmail(s.email.value) &&
    s.passwords.password == s.passwords.confirmation && ValidatePassword(s.passwords.password).isValid
  }

  /** Which of the final checks fails first, if any. */
  datatype Verdict = BadName | BadEmail | Mismatch | Weak | Pass

  /** The final checks in `handleSubmit`'s order: name, address,
      confirmation, password strength. */
  function FirstFailure(s: FormState): (v: Verdict)
    ensures v == Pass <==> PassesFinalChecks(s)
  {
    if !ValidateKoreanName(s.name.value) then BadName
    else if !ValidateEmail(s.email.value) then BadEmail
    else if s.passwords.password != s.passwords.confirmation then Mismatch
    else if !ValidatePassword(s.passwords.password).isValid then Weak
    else Pass
  }

  /** The synchronous part of `handleSubmit`: ignored while busy; otherwise
      the page error is cleared and the first failing check reports its
      message, or the sign-up starts when none fails (see SubmittedReports). */
  function Submitted(s: FormState): (t: FormState)
    ensures Busy(s) ==> t == s
    ensures !Busy(s) ==> (t.submission.submitting <==> PassesFinalChecks(s))
  {
    var b := s.submission;
    if b.submitting || b.loading then s
    else
      match FirstFailure(s)
      case BadName => s.(name := s.name.(error := NameMessage), submission := b.(error := ""))
      case BadEmail => s.(email := s.email.(error := EmailMessage), submission := b.(error := ""))
      case Mismatch => s.(submission := b.(error := MismatchMessage))
      case Weak => s.(submission := b.(error := WeakPasswordMessage))
      case Pass => s.(submission := Submission("", true, true))
  }

  /** What a submission reports: the first failing check's message, in the
      order name, address, confirmation, password strength; the inputs are
      left as they were. */
  lemma SubmittedReports(s: FormState)
    requires !Busy(s)
    ensures var t := Submitted(s);
            (t.submission.submitting ==> t.submission == Submission("", true, true)) &&
            (!ValidateKoreanName(s.name.value) ==>
               t.name.error == NameMessage && t.email == s.email && t.submission.error == "") &&
            (ValidateKoreanName(s.name.value) && !ValidateEmail(s.email.value) ==>
               t.name == s.name && t.email.error == EmailMessage && t.submission.error == "") &&
            (ValidateKoreanName(s.name.value) && ValidateEmail(s.email.value) ==>
               t.name == s.name && t.email == s.email) &&
            (ValidateKoreanName(s.name.value) && ValidateEmail(s.email.value) &&
             s.passwords.password != s.passwords.confirmation ==>
               t.submission.error == MismatchMessage) &&
            (ValidateKoreanName(s.name.value) && ValidateEmail(s.email.value) &&
             s.passwords.password == s.passwords.confirmation && !ValidatePassword(s.passwords.password).isValid ==>
               t.submission.error == WeakPasswordMessage) &&
            t.name.value == s.name.value && t.email == s.email.(error := t.email.error) && t.passwords == s.passwords
  {
    var t := Submitted(s);
    var b := s.submission;
    match FirstFailure(s)
    case BadName =>
      assert !ValidateKoreanName(s.name.value);
      assert t == s.(name := s.name.(error := NameMessage), submission := b.(error := ""));
    case BadEmail =>
      assert ValidateKoreanName(s.name.value) && !ValidateEmail(s.email.value);
      assert t == s.(email := s.email.(error := EmailMessage), submission := b.(error := ""));
    case Mismatch =>
      assert ValidateKoreanName(s.name.value) && ValidateEmail(s.email.value);
      assert s.passwords.password != s.passwords.confirmation;
      assert t == s.(submission := b.(error := MismatchMessage));
    case Weak =>
      assert ValidateKoreanName(s.name.value) && ValidateEmail(s.email.value);
      assert s.passwords.password == s.passwords.confirmation && !ValidatePassword(s.passwords.password).isValid;
      assert t == s.(submission := b.(error := WeakPasswordMessage));
    case Pass =>
      assert PassesFinalChecks(s);
      assert t == s.(submission := Submission("", true, true));
  }

  /** A submission keeps the form consistent. */
  lemma SubmittedKeepsConsistent(s: FormState)
    requires Consistent(s)
    ensures Consistent(Submitted(s))
  {
    var t := Submitted(s);
    if !Busy(s) {
      var b := s.submission;
      match FirstFailure(s)
      case BadName =>
        assert t == s.(name := s.name.(error := NameMessage), submission := b.(error := ""));
        assert NameMessage != "";
      case BadEmail =>
        assert t == s.(email := s.email.(error := EmailMessage), submission := b.(error := ""));
        assert EmailMessage != "";
      case Mismatch =>
        assert t == s.(submission := b.(error := MismatchMessage));
      case Weak =>
        assert t == s.(submission := b.(error := WeakPasswordMessage));
      case Pass =>
        assert t == s.(submission := Submission("", true, true));
    }
  }

  /** The sign-up settling: the failure text unless it succeeded; the busy
      flags come down either way. */
  function SignupSettled(b: Submission, ok: bool): (t: Submission)
    ensures !t.loading && !t.submitting && SubmissionConsistent(t)
    ensures t.error == if ok then b.error else SignupFailedMessage
  {
    Submission(if ok then b.error else SignupFailedMessage, false, false)
  }

  /** In a reachable state, an enabled submit button means the name and
      address are valid, the address passed the duplicate check, and the
      sign-up starts. */
  lemma EnabledFormSignsUp(s: FormState)
    requires Consistent(s) && FormValid(s) && !Busy(s)
    ensures ValidateKoreanName(s.name.value) && ValidateEmail(s.email.value) && CheckEmailDuplicate(s.email.value)
    ensures Submitted(s).submission.submitting
  {
  }

  /** As written: a check started for an available address and answered
      after the field was changed to a taken one leaves the taken address
      marked checked and available, so the form is no longer consistent. */
  lemma StaleReplyAccepted(first: string, second: string)
    requires SanitizeInput(first, 100) != "" && ValidateEmail(SanitizeInput(first, 100))
    requires CheckEmailDuplicate(SanitizeInput(first, 100)) && !CheckEmailDuplicate(SanitizeInput(second, 100))
    ensures var t := CheckSettledAsWritten(EmailChanged(CheckStarted(EmailChanged(Initial.email, first)), second), false);
            t.value == SanitizeInput(second, 100) && t.checked && t.available &&
            !CheckEmailDuplicate(t.value) && !EmailConsistent(t)
  {
    var e1 := EmailChanged(Initial.email, first);
    assert CanCheck(e1);
    assert CheckStarted(e1).checkingFor == Some(SanitizeInput(first, 100));
  }

  /** Corrected: the same sequence leaves the new address unchecked, so
      the submit button stays disabled. */
  lemma StaleReplyDropped(first: string, second: string)
    requires SanitizeInput(first, 100) != "" && ValidateEmail(SanitizeInput(first, 100))
    requires SanitizeInput(second, 100) != SanitizeInput(first, 100)
    ensures var t := CheckSettled(EmailChanged(CheckStarted(EmailChanged(Initial.email, first)), second), false);
            EmailConsistent(t) && t.value == SanitizeInput(second, 100) && !t.checked &&
            !FormValid(Initial.(email := t))
  {
    var e1 := EmailChanged(Initial.email, first);
    assert CanCheck(e1);
  }

  /** The page's state hooks, grouped as the handlers use them: the name
      input, the e-mail input with its check, the password inputs, and the
      submission. */
  class SignupForm {
    var nameField: NameField
    var emailField: EmailField
    var passwords: Passwords
    var submission: Submission

    function State(): FormState
      reads this
    {
      FormState(nameField, emailField, passwords, submission)
    }

    ghost predicate Valid()
      reads this
    {
      Consistent(State())
    }

    constructor ()
      ensures Valid() && State() == Initial
    {
      nameField := Initial.name;
      emailField := Initial.email;
      passwords := Initial.passwords;
      submission := Initial.submission;
    }

    /** `isFormValid`. */
    function IsFormValid(): (r: bool)
      reads this
      ensures r ==> emailField.checked && emailField.available && passwords.agreeTerms
      ensures r ==> passwords.password == passwords.confirmation && |passwords.password| >= 8
    {
      FormValid(State())
    }

    method HandleNameChange(value: string)
      requires Valid()
      modifies this
      ensures Valid() && nameField == NameChanged(value)
      ensures emailField == old(emailField) && passwords == old(passwords) && submission == old(submission)
    {
      var sanitized := SanitizeInput(value, 50);
      if sanitized != "" && !ValidateKoreanName(sanitized) {
        nameField := NameField(sanitized, NameMessage);
      } else {
        nameField := NameField(sanitized, "");
      }
    }

    method HandleEmailChange(value: string)
      requires Valid()
      modifies this
      ensures Valid() && emailField == EmailChanged(old(emailField), value)
      ensures nameField == old(nameField) && passwords == old(passwords) && submission == old(submission)
    {
      var sanitized := SanitizeInput(value, 100);
      var error := if sanitized != "" && !ValidateEmail(sanitized) then EmailMessage else "";
      emailField := emailField.(value := sanitized, checked := false, available := false, error := error);
    }

    /** The password input stores the typed text cleaned and cut to 100 characters. */
    method HandlePasswordChange(value: string)
      requires Valid()
      modifies this
      ensures Valid() && passwords == old(passwords).(password := SanitizeInput(value, 100))
      ensures nameField == old(nameField) && emailField == old(emailField) && submission == old(submission)
    {
      passwords := passwords.(password := SanitizeInput(value, 100));
    }

    /** The confirmation input is cleaned the same way. */
    method HandleConfirmPasswordChange(value: string)
      requires Valid()
      modifies this
      ensures Valid() && passwords == old(passwords).(confirmation := SanitizeInput(value, 100))
      ensures nameField == old(nameField) && emailField == old(emailField) && submission == old(submission)
    {
      passwords := passwords.(confirmation := SanitizeInput(value, 100));
    }

    /** The terms box flips on each click. */
    method ToggleAgreeTerms()
      requires Valid()
      modifies this
      ensures Valid() && passwords == old(passwords).(agreeTerms := !old(passwords).agreeTerms)
      ensures nameField == old(nameField) && emailField == old(emailField) && submission == old(submission)
    {
      passwords := passwords.(agreeTerms := !passwords.agreeTerms);
    }

    method CheckStart() returns (started: bool)
      requires Valid()
      modifies this
      ensures Valid() && emailField == CheckStarted(old(emailField))
      ensures started <==> CanCheck(old(emailField))
      ensures nameField == old(nameField) && passwords == old(passwords) && submission == old(submission)
    {
      if emailField.value == "" || emailField.error != "" || emailField.checking {
        return false;
      }
      emailField := emailField.(checking := true, checkingFor := Some(emailField.value), error := "");
      return true;
    }

    method CheckSettleAsWritten(failed: bool)
      requires Valid() && emailField.checking
      modifies this
      ensures emailField == CheckSettledAsWritten(old(emailField), failed)
      ensures nameField == old(nameField) && passwords == old(passwords) && submission == old(submission)
    {
      if !failed {
        var isAvailable := CheckEmailDuplicate(emailField.checkingFor.value);
        emailField := emailField.(checked := true, available := isAvailable);
        if !isAvailable {
          emailField := emailField.(error := TakenMessage);
        }
      } else {
        emailField := emailField.(error := CheckFailedMessage);
      }
      emailField := emailField.(checking := false, checkingFor := None);
    }

    method CheckSettle(failed: bool)
      requires Valid() && emailField.checking
      modifies this
      ensures Valid() && emailField == CheckSettled(old(emailField), failed)
      ensures nameField == old(nameField) && passwords == old(passwords) && submission == old(submission)
    {
      if emailField.checkingFor == Some(emailField.value) {
        CheckSettleAsWritten(failed);
      } else {
        emailField := emailField.(checking := false, checkingFor := None);
      }
    }

    method Submit() returns (started: bool)
      requires Valid()
      modifies this
      ensures Valid() && State() == Submitted(old(State()))
      ensures started <==> !Busy(old(State())) && submission.submitting
    {
      ghost var s := State();
      var busy := submission.submitting || submission.loading;
      var t := Submitted(State());
      nameField, emailField, passwords, submission := t.name, t.email, t.passwords, t.submission;
      started := !busy && t.submission.submitting;
      SubmittedKeepsConsistent(s);
    }

    /** The sign-up call settling: home, replacing the entry, on success. */
    method Settle(auth: AuthProvider, today: string) returns (nav: Option<Navigation>)
      requires Valid() && submission.submitting
      modifies this, auth
      ensures Valid() && submission == SignupSettled(old(submission), nav.Some?)
      ensures nameField == old(nameField) && emailField == old(emailField) && passwords == old(passwords)
      ensures nav.Some? <==> emailField.value != "" && passwords.password != "" && nameField.value != ""
      ensures nav.Some? ==> nav.value == Replace("/") &&
                            auth.user == Some(User("1", emailField.value, nameField.value, UserRole, FreeInactive, today))
      ensures nav.None? ==> auth.user == old(auth.user)
      ensures auth.savedOutfits == old(auth.savedOutfits)
    {
      var success := auth.Signup(emailField.value, passwords.password, nameField.value, today);
      if success {
        nav := Some(Replace("/"));
        submission := submission.(loading := false, submitting := false);
      } else {
        nav := None;
        submission := Submission(SignupFailedMessage, false, false);
      }
    }
  }
}

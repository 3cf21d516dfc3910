/** The registration form of `Register.jsx`: its field checks, the error
    map `validateForm` builds, and the guard that keeps an invalid form from
    being sent. */
module Register {
  import opened Js
  import opened Http
  import Session

  const UsernameMessage := "Tên đăng nhập phải có ít nhất 4 ký tự"
  const PasswordMessage := "Mật khẩu phải có ít nhất 6 ký tự"
  const ConfirmMessage := "Mật khẩu xác nhận không khớp"
  const EmailMessage := "Email không hợp lệ"
  const FullNameMessage := "Vui lòng nhập họ tên"
  const FailureMessage := "Đăng ký thất bại. Vui lòng thử lại sau."

  /** `/\S+@\S+\.\S+/.test(s)` matched at `@` position `p` and `.` position
      `q`: a non-space before the `@`, only non-spaces between the two,
      and a non-space after the dot. */
  predicate EmailAt(s: string, p: int, q: int)
    requires 0 < p && p + 1 < q && q + 1 < |s|
  {
    !IsSpace(s[p - 1]) && s[p] == '@' && s[q] == '.' && !IsSpace(s[q + 1])
    && forall k :: p < k < q ==> !IsSpace(s[k])
  }

  /** `/\S+@\S+\.\S+/.test(s)`: the pattern is not anchored, so it may match
      anywhere inside `s`. */
  predicate EmailLike(s: string) {
    exists p, q :: 0 < p && p + 1 < q && q + 1 < |s| && EmailAt(s, p, q)
  }

  /** Without an `@` nothing is an e-mail address. */
  lemma NoAtNoEmail(s: string)
    requires forall i :: 0 <= i < |s| ==> s[i] != '@'
    ensures !EmailLike(s)
  {
  }

  /** The shortest accepted address, and text around it does not matter. */
  lemma EmailInsideText(pre: string, post: string)
    ensures EmailLike(pre + "a@b.c" + post)
  {
    var s := pre + "a@b.c" + post;
    var p, q := |pre| + 1, |pre| + 3;
    assert s[p - 1] == 'a' && s[p] == '@' && s[p + 1] == 'b' && s[q] == '.' && s[q + 1] == 'c';
    assert EmailAt(s, p, q);
  }

  /** A missing field reads as `undefined`, which is falsy like "". */
  function Field(form: map<string, string>, k: string): string {
    if k in form then form[k] else ""
  }

  /** The error map `validateForm` builds for a form. */
  function ErrorsFor(form: map<string, string>): map<string, string> {
    var e0: map<string, string> := map[];
    var e1 := if |Field(form, "username")| < 4 then e0["username" := UsernameMessage] else e0;
    var e2 := if |Field(form, "password")| < 6 then e1["password" := PasswordMessage] else e1;
    var e3 := if Session.Lookup(form, "password") != Session.Lookup(form, "confirmPassword") then e2["confirmPassword" := ConfirmMessage] else e2;
    var e4 := if !EmailLike(Field(form, "email")) then e3["email" := EmailMessage] else e3;
    if Field(form, "fullName") == "" then e4["fullName" := FullNameMessage] else e4
  }

  /** Each field has an entry exactly when its check fails, and no other
      key ever has one. */
  lemma ErrorsForIff(form: map<string, string>)
    ensures var e := ErrorsFor(form);
            && ("username" in e <==> |Field(form, "username")| < 4)
            && ("password" in e <==> |Field(form, "password")| < 6)
            && ("confirmPassword" in e <==> Session.Lookup(form, "password") != Session.Lookup(form, "confirmPassword"))
            && ("email" in e <==> !EmailLike(Field(form, "email")))
            && ("fullName" in e <==> Field(form, "fullName") == "")
            && e.Keys <= {"username", "password", "confirmPassword", "email", "fullName"}
  {
  }

  /** The form is valid exactly when each of the five checks passes;
      `phone`, `address` and `userType` never block it. */
  lemma ValidIff(form: map<string, string>)
    ensures ErrorsFor(form) == map[] <==>
      && |Field(form, "username")| >= 4
      && |Field(form, "password")| >= 6
      && Session.Lookup(form, "password") == Session.Lookup(form, "confirmPassword")
      && EmailLike(Field(form, "email"))
      && Field(form, "fullName") != ""
  {
    ErrorsForIff(form);
    var e := ErrorsFor(form);
    if e != map[] {
      var k :| k in e;
    }
  }

  /** The initial form: every text field empty, role CANDIDATE. */
  const InitialForm: map<string, string> := map[
    "username" := "", "password" := "", "confirmPassword" := "", "email" := "",
    "fullName" := "", "userType" := "CANDIDATE", "phone" := "", "address" := ""]

  /** How `authService.register` settled. */
  datatype RegisterAnswer = Registered | Failed(serverMessage: Option<string>)

  function AsObject(form: map<string, string>): Object {
    map k | k in form :: Str(form[k])
  }

  class Form {
    var formData: map<string, string>
    var errors: map<string, string>
    var error: string
    var loading: bool
    var navigatedTo: Option<string>

    constructor ()
      ensures formData == InitialForm && errors == map[] && error == "" && !loading && navigatedTo == None
    {
      formData := InitialForm;
      errors := map[];
      error := "";
      loading := false;
      navigatedTo := None;
    }

    /** `handleChange`: replaces one field. */
    method HandleChange(name: string, value: string)
      modifies this
      ensures formData == old(formData)[name := value]
      ensures errors == old(errors) && error == old(error)
      ensures loading == old(loading) && navigatedTo == old(navigatedTo)
    {
      formData := formData[name := value];
    }

    /** `validateForm`: checks the five fields one after another into a
      fresh error map, stores it, and reports whether it stayed empty. */
    method ValidateForm() returns (valid: bool)
      modifies this
      ensures errors == ErrorsFor(formData)
      ensures valid <==> errors == map[]
      ensures formData == old(formData) && error == old(error)
      ensures loading == old(loading) && navigatedTo == old(navigatedTo)
    {
      var form := formData;
      var newErrors: map<string, string> := map[];
      if |Field(form, "username")| < 4 {
        newErrors := newErrors["username" := UsernameMessage];
      }
      if |Field(form, "password")| < 6 {
        newErrors := newErrors["password" := PasswordMessage];
      }
      if Session.Lookup(form, "password") != Session.Lookup(form, "confirmPassword") {
        newErrors := newErrors["confirmPassword" := ConfirmMessage];
      }
      if !EmailLike(Field(form, "email")) {
        newErrors := newErrors["email" := EmailMessage];
      }
      if Field(form, "fullName") == "" {
        newErrors := newErrors["fullName" := FullNameMessage];
      }
      errors := newErrors;
      valid := newErrors == map[];
    }

    /** `handleSubmit`, corrected: the handler as written calls an
      `authService.register` that does not exist (see the Findings of the
      README and `ValidFormNeverRegisters`); here the registration request
      is supplied. An invalid form sends nothing. A valid one is sent as it
      stands; success navigates to the login page and a failure shows the
      server's message or the fixed one. */
    method HandleSubmit(answer: RegisterAnswer) returns (sent: seq<Request>)
      modifies this
      ensures errors == ErrorsFor(old(formData)) && formData == old(formData)
      ensures sent == [] <==> errors != map[]
      ensures sent != [] ==> sent == [PostRegister(AsObject(formData))] && !loading
      ensures sent != [] && answer.Registered? ==> navigatedTo == Some("/login") && error == ""
      ensures sent != [] && answer.Failed? ==>
                navigatedTo == old(navigatedTo)
                && error == (if answer.serverMessage.Some? && answer.serverMessage.value != "" then answer.serverMessage.value else FailureMessage)
      ensures sent == [] ==> error == old(error) && navigatedTo == old(navigatedTo) && loading == old(loading)
    {
      var valid := ValidateForm();
      if !valid {
        return [];
      }
      loading := true;
      error := "";
      sent := [PostRegister(AsObject(formData))];
      if answer.Registered? {
        navigatedTo := Some("/login");
      } else {
        var m := answer.serverMessage;
        error := if m.Some? && m.value != "" then m.value else FailureMessage;
      }
      loading := false;
    }
  }

  /** The untouched form is invalid: every check except the password match
      fails. */
  lemma InitialFormInvalid()
    ensures ErrorsFor(InitialForm).Keys == {"username", "password", "email", "fullName"}
  {
    ErrorsForIff(InitialForm);
    NoAtNoEmail("");
  }

  // ---------------------------------------------------------------------
  // `handleSubmit` as written

  /** What one press of the submit button leaves behind. */
  datatype Submission = Submission(errors: map<string, string>, sent: seq<Request>, error: string, navigatedTo: Option<string>)

  /** `handleSubmit` as written calls `authService.register`, which the
      auth service does not define: calling `undefined` throws a
      `TypeError` inside the `try`, before any request, and the error has
      no `response`, so the fixed message is shown. */
  function SubmitAsWritten(form: map<string, string>, error: string, navigatedTo: Option<string>): Submission {
    var errors := ErrorsFor(form);
    if errors != map[] then Submission(errors, [], error, navigatedTo)
    else Submission(errors, [], FailureMessage, navigatedTo)
  }

  /** As written, a valid form sends nothing and never reaches the login
      page; it only ever shows the failure message. */
  lemma ValidFormNeverRegisters(form: map<string, string>, error: string, navigatedTo: Option<string>)
    requires ErrorsFor(form) == map[]
    ensures SubmitAsWritten(form, error, navigatedTo) == Submission(map[], [], FailureMessage, navigatedTo)
  {
  }

  /** A filled-in form. */
  const SampleForm: map<string, string> := map[
    "username" := "alice", "password" := "secret1", "confirmPassword" := "secret1", "email" := "a@b.c",
    "fullName" := "A", "userType" := "CANDIDATE", "phone" := "", "address" := ""]

  /** The sample form passes every check, and as written submitting it
      only shows the failure message. */
  lemma ValidFormFailsAsWritten()
    ensures ErrorsFor(SampleForm) == map[]
    ensures SubmitAsWritten(SampleForm, "", None) == Submission(map[], [], FailureMessage, None)
  {
    var form := SampleForm;
    EmailInsideText("", "");
    assert "" + "a@b.c" + "" == "a@b.c";
    ValidIff(form);
  }
}

/** `ApplicationForm`: the candidate's application form. Its four fields
    are checked one by one, `validateForm` checks exactly those four before
    anything is sent, and the route parameters choose between creating an
    application and updating one. */
module ApplicationForm {
  import opened Js
  import opened Http
  import opened Jobs
  import opened Forms

  const CandidateRequired := "Candidate ID is required"
  const CandidatePositive := "Candidate ID must be a positive number"
  const JobRequired := "Please select a job"
  const CoverLetterShort := "Cover letter should be at least 10 characters"
  const CvInvalid := "Please enter a valid URL for CV"
  const FormInvalid := "Please correct the errors in the form before submitting."
  const JobsFailed := "Failed to fetch available jobs. Please try again later."
  const DetailsFailed := "Failed to fetch application details. Please try again."

  /** The fields `validateForm` looks at. */
  const Checked: set<string> := {"CandidateID", "JobID", "CoverLetter", "UploadCV"}

  /** `value <= 0`: the value is converted with `Number`, and NaN compares
      false. */
  predicate NotPositive(v: Value) {
    ToNumber(v).Int? && ToNumber(v).i <= 0
  }

  /** What `validateField` needs to run without a TypeError: a truthy cover
      letter is a string, since its `trim` is called. */
  predicate CanValidate(name: string, v: Value) {
    name == "CoverLetter" && Truthy(v) ==> v.Str?
  }

  /** `validateField(name, value)`. `isUrl` stands for `isValidUrl`, which
      asks the browser's URL parser; a non-string value reaches it as its
      `String` text. */
  function ValidateField(name: string, v: Value, isUrl: string -> bool): (m: string)
    requires CanValidate(name, v)
    ensures name !in Checked ==> m == ""
  {
    match name
    case "CandidateID" =>
      if !Truthy(v) then CandidateRequired else if NotPositive(v) then CandidatePositive else ""
    case "JobID" =>
      if !Truthy(v) then JobRequired else ""
    case "CoverLetter" =>
      if Truthy(v) && |Trim(v.s)| < 10 then CoverLetterShort else ""
    case "UploadCV" =>
      if Truthy(v) && !isUrl(ToText(v)) then CvInvalid else ""
    case _ => ""
  }

  /** Each message of `validateField` is given exactly when its own
      condition holds, and nothing else is ever returned. */
  lemma FieldMessages(name: string, v: Value, isUrl: string -> bool)
    requires CanValidate(name, v)
    ensures var m := ValidateField(name, v, isUrl);
            && m in {"", CandidateRequired, CandidatePositive, JobRequired, CoverLetterShort, CvInvalid}
            && (m == CandidateRequired <==> name == "CandidateID" && !Truthy(v))
            && (m == CandidatePositive <==> name == "CandidateID" && Truthy(v) && NotPositive(v))
            && (m == JobRequired <==> name == "JobID" && !Truthy(v))
            && (m == CoverLetterShort <==> name == "CoverLetter" && Truthy(v) && |Trim(v.s)| < 10)
            && (m == CvInvalid <==> name == "UploadCV" && Truthy(v) && !isUrl(ToText(v)))
  {
    if name == "CandidateID" {
    } else if name == "JobID" {
    } else if name == "CoverLetter" {
    } else if name == "UploadCV" {
    } else {
      assert ValidateField(name, v, isUrl) == "";
    }
  }

  /** A field passes exactly when the rule for its name holds. */
  lemma FieldPasses(name: string, v: Value, isUrl: string -> bool)
    requires CanValidate(name, v)
    ensures ValidateField(name, v, isUrl) == "" <==>
              && (name == "CandidateID" ==> Truthy(v) && !NotPositive(v))
              && (name == "JobID" ==> Truthy(v))
              && (name == "CoverLetter" && Truthy(v) ==> |Trim(v.s)| >= 10)
              && (name == "UploadCV" && Truthy(v) ==> isUrl(ToText(v)))
  {
  }

  /** A form whose every field can be validated. */
  predicate Typed(form: Object) {
    forall k :: k in form ==> CanValidate(k, form[k])
  }

  /** `validateField` as the total function `validateForm` hands each key. */
  function Validator(isUrl: string -> bool): (string, Value) --> string {
    (k: string, v: Value) requires CanValidate(k, v) => ValidateField(k, v, isUrl)
  }

  /** A typed form can be handed to the key loop. */
  lemma TypedValidates(form: Object, isUrl: string -> bool)
    requires Typed(form)
    ensures forall k :: k in Checked && k in form ==> Validator(isUrl).requires(k, form[k])
  {
  }

  /** The form is valid exactly when each of the four fields that is
      present passes its own rule; keys outside the four never count. */
  lemma ValidIff(form: Object, isUrl: string -> bool)
    requires Typed(form)
    ensures AllEmpty(Messages(form, Checked, Validator(isUrl))) <==>
              && ("CandidateID" in form ==> Truthy(form["CandidateID"]) && !NotPositive(form["CandidateID"]))
              && ("JobID" in form ==> Truthy(form["JobID"]))
              && ("CoverLetter" in form && Truthy(form["CoverLetter"]) ==> |Trim(form["CoverLetter"].s)| >= 10)
              && ("UploadCV" in form && Truthy(form["UploadCV"]) ==> isUrl(ToText(form["UploadCV"])))
  {
    var m := Messages(form, Checked, Validator(isUrl));
    if !AllEmpty(m) {
      var k :| k in m && m[k] != "";
      FieldPasses(k, form[k], isUrl);
    } else {
      forall k | k in Checked && k in form
        ensures ValidateField(k, form[k], isUrl) == ""
      {
        assert m[k] == ValidateField(k, form[k], isUrl);
      }
      forall k | k in Checked && k in form
        ensures && (k == "CandidateID" ==> Truthy(form[k]) && !NotPositive(form[k]))
                && (k == "JobID" ==> Truthy(form[k]))
                && (k == "CoverLetter" && Truthy(form[k]) ==> |Trim(form[k].s)| >= 10)
                && (k == "UploadCV" && Truthy(form[k]) ==> isUrl(ToText(form[k])))
      {
        FieldPasses(k, form[k], isUrl);
      }
    }
  }

  /** What `handleChange` stores: `JobID` and `CandidateID` as
      `Number(value)`, every other field as typed. */
  function Stored(name: string, value: string): (v: Value)
    ensures name == "JobID" || name == "CandidateID" ==> v == Num(StringToNumber(value))
    ensures name != "JobID" && name != "CandidateID" ==> v == Str(value)
  {
    if name == "JobID" || name == "CandidateID" then Num(StringToNumber(value)) else Str(value)
  }

  /** Typing "0" as the candidate shows the "positive" message, because the
      live check sees the text "0", which is truthy; the number 0 that is
      stored then fails the submit-time check as "required". */
  lemma RawZeroVsStoredZero(isUrl: string -> bool)
    ensures ValidateField("CandidateID", Str("0"), isUrl) == CandidatePositive
    ensures Stored("CandidateID", "0") == Num(Int(0))
    ensures ValidateField("CandidateID", Stored("CandidateID", "0"), isUrl) == CandidateRequired
  {
    ZeroText();
    assert NotPositive(Str("0"));
    assert Stored("CandidateID", "0") == Num(Int(0));
    assert !Truthy(Num(Int(0)));
  }

  lemma ZeroText()
    ensures StringToNumber("0") == Int(0)
  {
    IntToStringRoundTrip(0);
    assert IntToString(0) == [DigitChar(0)];
  }

  /** Choosing job `n` from the select stores the number `n`. */
  lemma ChosenJobStored(n: nat)
    ensures Stored("JobID", NatToString(n)) == Num(Int(n))
  {
    IntToStringRoundTrip(n);
  }

  /** A chosen job passes the submit-time check. */
  lemma ChosenJobAccepted(n: nat, isUrl: string -> bool)
    requires n > 0
    ensures ValidateField("JobID", Stored("JobID", NatToString(n)), isUrl) == ""
  {
    ChosenJobStored(n);
  }

  /** `!!(candidateId && jobId)`: both route parameters are present and
      non-empty. */
  function IsEditMode(candidateId: Option<string>, jobId: Option<string>): (b: bool)
    ensures b <==> candidateId.Some? && candidateId.value != "" && jobId.Some? && jobId.value != ""
  {
    candidateId.Some? && candidateId.value != "" && jobId.Some? && jobId.value != ""
  }

  /** The path segment `createApplication` puts before `/apply`, as written:
      `${applicationData.jobId}`. */
  function AppliedJobSegmentAsWritten(data: Object): (s: string)
    ensures "jobId" !in data ==> s == "undefined"
  {
    if "jobId" in data then ToText(data["jobId"]) else "undefined"
  }

  /** The form's own keys never include `jobId`, so as written every new
      application is posted for the job "undefined", whichever job was
      chosen. */
  lemma NewApplicationPostedForUndefined(form: Object)
    requires form.Keys <= Checked
    ensures AppliedJobSegmentAsWritten(form) == "undefined"
  {
  }

  /** The segment as intended: the text of the chosen `JobID`. */
  function ApplyJobSegment(data: Object): (s: string)
    ensures "JobID" in data ==> s == ToText(data["JobID"])
  {
    if "JobID" in data then ToText(data["JobID"]) else "undefined"
  }

  /** With the intended segment, a form that passed validation is posted
      for the number it chose, never for "undefined". */
  lemma ValidFormPostsChosenJob(form: Object, n: int, isUrl: string -> bool)
    requires "JobID" in form && form["JobID"] == Num(Int(n))
    requires ValidateField("JobID", form["JobID"], isUrl) == ""
    ensures ApplyJobSegment(form) == IntToString(n) && StringToNumber(ApplyJobSegment(form)) == Int(n)
    ensures ApplyJobSegment(form) != "undefined"
  {
    IntToStringRoundTrip(n);
    var s := IntToString(n);
    if n >= 0 {
      assert IsDigit(s[0]);
    } else {
      assert s[0] == '-';
    }
    assert "undefined"[0] == 'u';
  }

  /** The body of `GET /candidates/applications/{c}/{j}`. */
  datatype ApplicationBody = ApplicationBody(data: Object)

  /** The initial `formData`. */
  const InitialForm: Object := map[
    "CandidateID" := Num(Int(1)), "JobID" := Str(""), "CoverLetter" := Str(""), "UploadCV" := Str("")]

  /** A fresh form fails only on the job, which has not been chosen yet. */
  lemma InitialFormNeedsJob(isUrl: string -> bool)
    ensures Messages(InitialForm, Checked, Validator(isUrl)) ==
              map["CandidateID" := "", "JobID" := JobRequired, "CoverLetter" := "", "UploadCV" := ""]
  {
    var m := Messages(InitialForm, Checked, Validator(isUrl));
    assert m.Keys == Checked;
    assert m["CandidateID"] == "" && m["JobID"] == JobRequired;
  }

  class Form {
    const candidateId: Option<string>
    const jobId: Option<string>
    const isUrl: string -> bool
    var formData: Object
    var fieldErrors: Errors
    /** `jobs`: `undefined` when the job list came back without `data` */
    var jobs: Option<seq<Job>>
    var error: string
    var loading: bool
    var navigatedTo: Option<string>

    constructor (candidateId: Option<string>, jobId: Option<string>, isUrl: string -> bool)
      ensures this.candidateId == candidateId && this.jobId == jobId && this.isUrl == isUrl
      ensures formData == InitialForm && jobs == Some([]) && error == "" && !loading && navigatedTo == None
      ensures fieldErrors == map k | k in Checked :: ""
    {
      this.candidateId := candidateId;
      this.jobId := jobId;
      this.isUrl := isUrl;
      formData := InitialForm;
      fieldErrors := map k | k in Checked :: "";
      jobs := Some([]);
      error := "";
      loading := false;
      navigatedTo := None;
    }

    /** `fetchJobs`: the list of jobs for the select. */
    method FetchJobs(answer: Outcome<JobsBody>) returns (sent: seq<Request>)
      modifies this
      ensures sent == [GetJobs]
      ensures answer.Ok? ==> jobs == answer.body.data && error == old(error)
      ensures !answer.Ok? ==> jobs == old(jobs) && error == JobsFailed
      ensures formData == old(formData) && fieldErrors == old(fieldErrors)
      ensures loading == old(loading) && navigatedTo == old(navigatedTo)
    {
      sent := [GetJobs];
      if answer.Ok? {
        jobs := answer.body.data;
      } else {
        error := JobsFailed;
      }
    }

    /** `fetchApplicationDetails`: in edit mode the stored application
      replaces the form. */
    method FetchApplicationDetails(answer: Outcome<ApplicationBody>) returns (sent: seq<Request>)
      requires IsEditMode(candidateId, jobId)
      modifies this
      ensures sent == [GetApplication(Str(candidateId.value), Str(jobId.value))]
      ensures answer.Ok? ==> formData == answer.body.data && error == old(error)
      ensures !answer.Ok? ==> formData == old(formData) && error == DetailsFailed
      ensures !loading
      ensures fieldErrors == old(fieldErrors) && jobs == old(jobs) && navigatedTo == old(navigatedTo)
    {
      loading := true;
      sent := [GetApplication(Str(candidateId.value), Str(jobId.value))];
      if answer.Ok? {
        formData := answer.body.data;
      } else {
        error := DetailsFailed;
      }
      loading := false;
    }

    /** `handleChange`: stores the field (see `Stored`) and its message,
      which is computed from the text as typed. */
    method HandleChange(name: string, value: string)
      modifies this
      ensures formData == old(formData)[name := Stored(name, value)]
      ensures fieldErrors == old(fieldErrors)[name := ValidateField(name, Str(value), isUrl)]
      ensures error == old(error) && jobs == old(jobs) && loading == old(loading) && navigatedTo == old(navigatedTo)
    {
      formData := formData[name := Stored(name, value)];
      var m := ValidateField(name, Str(value), isUrl);
      fieldErrors := fieldErrors[name := m];
    }

    /** `handleBlur`: the field's message for the text in the input; the
      form itself is left alone. */
    method HandleBlur(name: string, value: string)
      modifies this
      ensures fieldErrors == old(fieldErrors)[name := ValidateField(name, Str(value), isUrl)]
      ensures formData == old(formData) && error == old(error) && jobs == old(jobs)
      ensures loading == old(loading) && navigatedTo == old(navigatedTo)
    {
      var m := ValidateField(name, Str(value), isUrl);
      fieldErrors := fieldErrors[name := m];
    }

    /** `validateForm`: the four fields present in the form get their
      messages over the ones already shown; the top-level error says
      whether the form may be sent. */
    method ValidateForm() returns (valid: bool)
      requires Typed(formData)
      modifies this
      ensures unchanged(this`formData, this`jobs, this`loading, this`navigatedTo)
      ensures fieldErrors == old(fieldErrors) + Messages(formData, Checked, Validator(isUrl))
      ensures valid <==> AllEmpty(Messages(formData, Checked, Validator(isUrl)))
      ensures error == if valid then "" else FormInvalid
    {
      var form, validate := formData, Validator(isUrl);
      TypedValidates(form, isUrl);
      var keys := Keys(form);
      var newErrors;
      newErrors, valid := ValidateKeys(form, keys, Checked, fieldErrors, validate);
      fieldErrors := newErrors;
      if !valid {
        error := FormInvalid;
        return;
      }
      error := "";
    }

    /** `handleSubmit`: nothing is sent unless the form is valid; then the
      application is updated in edit mode and created otherwise, and
      success leads to the list of applications. */
    method HandleSubmit(answer: Outcome<Object>) returns (sent: seq<Request>)
      requires Typed(formData)
      modifies this
      ensures unchanged(this`formData, this`jobs)
      ensures fieldErrors == old(fieldErrors) + Messages(formData, Checked, Validator(isUrl))
      ensures sent == [] <==> !AllEmpty(Messages(formData, Checked, Validator(isUrl)))
      ensures sent == [] ==> error == FormInvalid && unchanged(this`loading, this`navigatedTo)
      ensures sent != [] && IsEditMode(candidateId, jobId) ==>
                sent == [PutApplication(Str(candidateId.value), Str(jobId.value), formData)]
      ensures sent != [] && !IsEditMode(candidateId, jobId) ==>
                sent == [PostApplication(ApplyJobSegment(formData), formData)]
      ensures sent != [] ==> !loading
      ensures sent != [] && answer.Ok? ==> navigatedTo == Some("/applications") && error == ""
      ensures sent != [] && !answer.Ok? ==>
                unchanged(this`navigatedTo)
                && error == "Failed to " + (if IsEditMode(candidateId, jobId) then "update" else "submit")
                            + " application. Please check your input and try again."
    {
      var valid := ValidateForm();
      if !valid {
        return [];
      }
      loading := true;
      if IsEditMode(candidateId, jobId) {
        sent := [PutApplication(Str(candidateId.value), Str(jobId.value), formData)];
      } else {
        sent := [PostApplication(ApplyJobSegment(formData), formData)];
      }
      if answer.Ok? {
        navigatedTo := Some("/applications");
      } else {
        error := "Failed to " + (if IsEditMode(candidateId, jobId) then "update" else "submit")
                 + " application. Please check your input and try again.";
      }
      loading := false;
    }
  }
}

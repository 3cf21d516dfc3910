/** `JobForm.jsx` and `JobForm.js`: the employer's form for posting a job,
    which also edits one when the route carries an id. The two files
    differ in their messages, in whether the tax number is checked before
    sending, and in where a saved job leads. */
module JobForm {
  import opened Js
  import opened Http
  import opened Forms
  import opened JobFormRules
  import opened AuthContext

  /** The keys `validateForm` checks: `JobForm.js` adds the tax number to
      the eleven shared ones. */
  function Checked(variant: Variant): (c: set<string>)
    ensures "taxNumber" in c <==> variant == Js
  {
    if variant == Js then CoreKeys + {"taxNumber"} else CoreKeys
  }

  /** The initial `formData`; only `JobForm.js` has a tax number field. */
  function InitialForm(variant: Variant): Object {
    var shared := map[
      "jobType" := Str(""), "contractType" := Str(""), "level" := Str(""), "quantity" := Num(Int(1)),
      "salaryFrom" := Num(Int(0)), "salaryTo" := Num(Int(0)), "requireExpYear" := Num(Int(0)),
      "location" := Str(""), "jobDescription" := Str(""), "jobName" := Str(""), "expireDate" := Str(""),
      "employerId" := Str(""), "jobStatus" := Str("Đang mở")];
    if variant == Js then shared["taxNumber" := Str("")] else shared
  }

  /** The initial `fieldErrors`: an empty message for each checked field
      and the tax number, in both files. */
  const InitialErrors: Errors := map k | k in CoreKeys + {"taxNumber"} :: ""

  /** `!!id` */
  predicate IsEditMode(id: Option<string>) {
    id.Some? && id.value != ""
  }

  function FetchFailed(variant: Variant): string {
    if variant == Js then "Failed to fetch job details. Please try again."
    else "Không thể tải thông tin công việc. Vui lòng thử lại."
  }

  function SaveFailed(variant: Variant, editing: bool): string {
    if variant == Js then "Failed to " + (if editing then "update" else "create") + " job. Please check your input and try again."
    else "Có lỗi xảy ra khi lưu công việc. Vui lòng thử lại."
  }

  /** Where a saved job leads. */
  function SavedPath(variant: Variant): string {
    if variant == Js then "/jobs" else "/employer/jobs"
  }

  /** The tax number never blocks `JobForm.jsx`: whatever it holds, the
      messages of the checked fields are the same. */
  lemma JsxIgnoresTaxNumber(form: Object, v: Value, now: int, parse: DateParser)
    requires Typed(Create, form) && v.Str?
    ensures Typed(Create, form["taxNumber" := v])
    ensures FormMessages(Jsx, Create, form["taxNumber" := v], Checked(Jsx), now, parse)
            == FormMessages(Jsx, Create, form, Checked(Jsx), now, parse)
  {
    var form' := form["taxNumber" := v];
    assert FieldOf("taxNumber") == Some(TaxNumber);
    assert SalaryFromOf(form') == SalaryFromOf(form);
    assert "taxNumber" !in Checked(Jsx);
    var m' := FormMessages(Jsx, Create, form', Checked(Jsx), now, parse);
    var m := FormMessages(Jsx, Create, form, Checked(Jsx), now, parse);
    assert m'.Keys == m.Keys;
  }

  /** An empty tax number gets the English "required" message. */
  lemma EmptyTaxNumberMessage(from: Number, now: int, parse: DateParser)
    ensures ValidateField(Js, Create, "taxNumber", Str(""), from, now, parse) == "Tax number is required"
  {
    FieldOfName(TaxNumber);
    TaxNumberRequired("", from, now, parse);
    assert Check(Create, TaxNumber, Str(""), from, now, parse) == TaxRequired;
  }

  /** In `JobForm.js` the empty tax number of a fresh form is reported as
      missing, so a fresh form cannot be sent even once every other field
      is filled in. */
  lemma JsFreshTaxNumberBlocks(form: Object, now: int, parse: DateParser)
    requires Typed(Create, form) && "taxNumber" in form && form["taxNumber"] == Str("")
    ensures FormMessages(Js, Create, form, Checked(Js), now, parse)["taxNumber"] == "Tax number is required"
    ensures !AllEmpty(FormMessages(Js, Create, form, Checked(Js), now, parse))
  {
    var m := FormMessages(Js, Create, form, Checked(Js), now, parse);
    assert "taxNumber" in m;
    assert m["taxNumber"] == Validator(Js, Create, form, now, parse)("taxNumber", Str(""));
    EmptyTaxNumberMessage(SalaryFromOf(form), now, parse);
  }

  /** Every field of the untouched form can be validated. */
  lemma InitialFormTyped(variant: Variant)
    ensures Typed(Create, InitialForm(variant))
  {
    var form := InitialForm(variant);
    assert forall k :: k in form ==> form[k].Str? || k in NumericFields;
    forall k | k in form && FieldOf(k).Some?
      ensures CanCheck(Create, FieldOf(k).value, form[k])
    {
      NameOfField(k);
    }
  }

  /** An empty job name gets the "required" message of either file. */
  lemma EmptyNameMessage(variant: Variant, from: Number, now: int, parse: DateParser)
    ensures ValidateField(variant, Create, "jobName", Str(""), from, now, parse) == Text(variant, NameRequired)
  {
    FieldOfName(JobName);
    TrimEmptyIff("");
    assert Check(Create, JobName, Str(""), from, now, parse) == NameRequired;
  }

  /** The untouched form of either file is invalid: its job name is empty. */
  lemma InitialFormInvalid(variant: Variant, now: int, parse: DateParser)
    ensures Typed(Create, InitialForm(variant))
    ensures FormMessages(variant, Create, InitialForm(variant), Checked(variant), now, parse)["jobName"]
            == Text(variant, NameRequired)
  {
    InitialFormTyped(variant);
    var form := InitialForm(variant);
    assert "jobName" in form && form["jobName"] == Str("");
    assert "jobName" in Checked(variant);
    var m := FormMessages(variant, Create, form, Checked(variant), now, parse);
    assert "jobName" in m;
    assert m["jobName"] == Validator(variant, Create, form, now, parse)("jobName", Str(""));
    EmptyNameMessage(variant, SalaryFromOf(form), now, parse);
  }

  class Form {
    const variant: Variant
    /** the route's `id` */
    const id: Option<string>
    const parse: DateParser
    var formData: Object
    var fieldErrors: Errors
    var error: string
    var loading: bool
    var navigatedTo: Option<string>

    constructor (variant: Variant, id: Option<string>, parse: DateParser)
      ensures this.variant == variant && this.id == id && this.parse == parse
      ensures formData == InitialForm(variant) && fieldErrors == InitialErrors
      ensures error == "" && !loading && navigatedTo == None
    {
      this.variant := variant;
      this.id := id;
      this.parse := parse;
      formData := InitialForm(variant);
      fieldErrors := InitialErrors;
      error := "";
      loading := false;
      navigatedTo := None;
    }

    /** The effect on `currentUser`: a user with a truthy `typeId` becomes
      the job's employer. */
    method AdoptEmployer(user: Option<User>)
      modifies this
      ensures user.Some? && user.value.typeId.Some? && Truthy(user.value.typeId.value) ==>
                formData == old(formData)["employerId" := user.value.typeId.value]
      ensures !(user.Some? && user.value.typeId.Some? && Truthy(user.value.typeId.value)) ==>
                formData == old(formData)
      ensures fieldErrors == old(fieldErrors) && error == old(error)
      ensures loading == old(loading) && navigatedTo == old(navigatedTo)
    {
      if user.Some? && user.value.typeId.Some? && Truthy(user.value.typeId.value) {
        formData := formData["employerId" := user.value.typeId.value];
      }
    }

    /** `fetchJobDetails`, run in edit mode: the fetched job replaces the
      form, its expiry date cut to the day of `toISOString`; `isoDay`
      gives that day for a time. An invalid date or a missing job throws,
      and the failure message is shown instead. */
    method FetchJobDetails(fetched: Reply<JobRecordBody>, isoDay: int -> string)
      requires IsEditMode(id)
      modifies this
      ensures !loading
      ensures fetched.Resolved? && fetched.value.data.Some? && ExpireTime(fetched.value.data.value, parse).Int? ==>
                formData == fetched.value.data.value["expireDate" := Str(isoDay(ExpireTime(fetched.value.data.value, parse).i))]
                && unchanged(this`error)
      ensures !(fetched.Resolved? && fetched.value.data.Some? && ExpireTime(fetched.value.data.value, parse).Int?) ==>
                unchanged(this`formData) && error == FetchFailed(variant)
      ensures unchanged(this`fieldErrors, this`navigatedTo)
    {
      loading := true;
      if fetched.Resolved? && fetched.value.data.Some? && ExpireTime(fetched.value.data.value, parse).Int? {
        var d := fetched.value.data.value;
        formData := d["expireDate" := Str(isoDay(ExpireTime(d, parse).i))];
      } else {
        error := FetchFailed(variant);
      }
      loading := false;
    }

    /** `handleChange`: stores the field (see `Coerce`) and replaces its
      message with the one for the text as typed; no other message is
      touched, so a changed minimum salary leaves the maximum's message as
      it was. */
    method HandleChange(name: string, value: string, now: int)
      modifies this
      ensures formData == old(formData)[name := Coerce(name, value)]
      ensures fieldErrors == old(fieldErrors)[name := ValidateField(variant, Create, name, Str(value), SalaryFromOf(old(formData)), now, parse)]
      ensures error == old(error) && loading == old(loading) && navigatedTo == old(navigatedTo)
    {
      var m := ValidateField(variant, Create, name, Str(value), SalaryFromOf(formData), now, parse);
      formData := formData[name := Coerce(name, value)];
      fieldErrors := fieldErrors[name := m];
    }

    /** `handleBlur`: the field's message for the text in the input. */
    method HandleBlur(name: string, value: string, now: int)
      modifies this
      ensures fieldErrors == old(fieldErrors)[name := ValidateField(variant, Create, name, Str(value), SalaryFromOf(formData), now, parse)]
      ensures formData == old(formData) && error == old(error)
      ensures loading == old(loading) && navigatedTo == old(navigatedTo)
    {
      var m := ValidateField(variant, Create, name, Str(value), SalaryFromOf(formData), now, parse);
      fieldErrors := fieldErrors[name := m];
    }

    /** `validateForm`: the checked fields present in the form get their
      messages over the ones already shown, and the top-level error says
      whether the form may be sent. */
    method ValidateForm(now: int) returns (valid: bool)
      requires Typed(Create, formData)
      modifies this
      ensures unchanged(this`formData, this`loading, this`navigatedTo)
      ensures fieldErrors == old(fieldErrors) + FormMessages(variant, Create, formData, Checked(variant), now, parse)
      ensures valid <==> AllEmpty(FormMessages(variant, Create, formData, Checked(variant), now, parse))
      ensures error == if valid then "" else FormInvalid(variant)
    {
      var form, checked := formData, Checked(variant);
      var validate := Validator(variant, Create, form, now, parse);
      TypedValidates(variant, Create, form, checked, now, parse);
      var keys := Keys(form);
      var newErrors;
      newErrors, valid := ValidateKeys(form, keys, checked, fieldErrors, validate);
      fieldErrors := newErrors;
      error := if valid then "" else FormInvalid(variant);
    }

    /** `handleSubmit`: nothing is sent unless the form is valid; then the
      job is updated in edit mode and created otherwise, with its expiry
      date as local midnight (see `SubmitData`). */
    method HandleSubmit(now: int, answer: Outcome<Object>) returns (sent: seq<Request>)
      requires Typed(Create, formData)
      modifies this
      ensures unchanged(this`formData)
      ensures fieldErrors == old(fieldErrors) + FormMessages(variant, Create, formData, Checked(variant), now, parse)
      ensures sent == [] <==> !AllEmpty(FormMessages(variant, Create, formData, Checked(variant), now, parse))
      ensures sent == [] ==> error == FormInvalid(variant) && unchanged(this`loading, this`navigatedTo)
      ensures sent != [] ==>
                sent == [if IsEditMode(id) then PutJob(Str(id.value), SubmitData(formData)) else PostJob(SubmitData(formData))]
                && !loading
      ensures sent != [] && answer.Ok? ==> navigatedTo == Some(SavedPath(variant)) && error == ""
      ensures sent != [] && !answer.Ok? ==> unchanged(this`navigatedTo) && error == SaveFailed(variant, IsEditMode(id))
    {
      var valid := ValidateForm(now);
      if !valid {
        return [];
      }
      var editing, data := IsEditMode(id), SubmitData(formData);
      sent := [if editing then PutJob(Str(id.value), data) else PostJob(data)];
      navigatedTo := if answer.Ok? then Some(SavedPath(variant)) else navigatedTo;
      error := if answer.Ok? then error else SaveFailed(variant, editing);
      loading := false;
    }
  }
}

/** `JobEditForm.jsx` and `JobEditForm.js`: the employer's form for
    editing a job. Unlike the posting form it refuses to load without a
    usable id, checks every key of the loaded job (the status included,
    the tax number not at all) into a fresh error map, and always updates. */
module JobEditForm {
  import opened Js
  import opened Http
  import opened Forms
  import opened JobFormRules

  /** The initial `formData`. */
  const InitialForm: Object := map[
    "jobName" := Str(""), "jobType" := Str(""), "contractType" := Str(""), "level" := Str(""),
    "quantity" := Num(Int(1)), "salaryFrom" := Num(Int(0)), "salaryTo" := Num(Int(0)), "requireExpYear" := Num(Int(0)),
    "location" := Str(""), "jobDescription" := Str(""), "expireDate" := Str(""), "jobStatus" := Str("Đang mở")]

  const IdMissing := "Job ID is missing or invalid. Cannot fetch job details."
  const Forbidden := "Bạn không có quyền truy cập công việc này. Vui lòng kiểm tra lại quyền hoặc đăng nhập lại."

  function FetchFailed(variant: Variant): string {
    if variant == Js then "Failed to fetch job details. Please check your permissions or login status."
    else "Không thể tải thông tin công việc. Vui lòng kiểm tra quyền của bạn hoặc trạng thái đăng nhập."
  }

  function SaveFailed(variant: Variant): string {
    if variant == Js then "Failed to update job. Please check your input and try again."
    else "Cập nhật công việc thất bại. Vui lòng kiểm tra đầu vào và thử lại."
  }

  /** Where a saved job leads; `JobEditForm.js` gives a relative path. */
  function SavedPath(variant: Variant): string {
    if variant == Js then "employer/jobs" else "/employer/jobs"
  }

  /** The statuses the select offers. */
  function StatusOptions(variant: Variant): seq<string> {
    if variant == Js then ["Đang mở", "Đã đóng", "Đã hết hạn"] else ["Đang mở", "Đã đóng"]
  }

  /** The id guard of the mount effect: the route's id is present, not
      empty and not the text "undefined". */
  predicate IdValid(id: Option<string>) {
    id.Some? && id.value != "" && id.value != "undefined"
  }

  /** `${id}` in the update URL. */
  function IdText(id: Option<string>): string {
    if id.Some? then id.value else "undefined"
  }

  /** The message a failed load shows: a 403 answer whose body is truthy
      asks the user to check their rights; anything else (a 403 without a
      body, another status, no answer, a job without `data`, which throws)
      shows the file's own message. */
  function LoadFailure(variant: Variant, f: Failure): (m: string)
    ensures m == Forbidden <==> f.HttpFailure? && f.status == 403 && f.hasData
    ensures m != Forbidden ==> m == FetchFailed(variant)
  {
    if f.HttpFailure? && f.status == 403 && f.hasData then Forbidden else FetchFailed(variant)
  }

  /** The form a loaded job `d` becomes: `{...jobData, expireDate}` with the
      date cut to the day of `toISOString` (`isoDay` gives that day for a
      time) or emptied when it is falsy; `None` when an unreadable date
      makes `toISOString` throw. */
  function Loaded(d: Object, parse: DateParser, isoDay: int -> string): Option<Object> {
    if !TruthyAt(d, "expireDate") then Some(d["expireDate" := Str("")])
    else if ExpireTime(d, parse).Int? then Some(d["expireDate" := Str(isoDay(ExpireTime(d, parse).i))])
    else None
  }

  /** Loading fails only on an unreadable date; otherwise every field of
      the job is kept as sent except the expiry date, which is emptied
      when falsy and otherwise becomes the day of a readable time. */
  lemma LoadedKeepsJob(d: Object, parse: DateParser, isoDay: int -> string)
    ensures var r := Loaded(d, parse, isoDay);
            && (r.None? <==> TruthyAt(d, "expireDate") && ExpireTime(d, parse).NaN?)
            && (r.Some? ==> r.value.Keys == d.Keys + {"expireDate"})
            && (r.Some? ==> forall k :: k in d && k != "expireDate" ==> r.value[k] == d[k])
            && (r.Some? && !TruthyAt(d, "expireDate") ==> r.value["expireDate"] == Str(""))
            && (r.Some? && TruthyAt(d, "expireDate") ==> r.value["expireDate"] == Str(isoDay(ExpireTime(d, parse).i)))
  {
  }

  /** Every status the select offers passes the status rule; the select of
      `JobEditForm.jsx` leaves out "Đã hết hạn", which the rule accepts. */
  lemma OfferedStatusesPass(variant: Variant, i: int, from: Number, now: int, parse: DateParser)
    requires 0 <= i < |StatusOptions(variant)|
    ensures Check(Edit, JobStatus, Str(StatusOptions(variant)[i]), from, now, parse) == Fine
    ensures "Đã hết hạn" in StatusOptions(variant) <==> variant == Js
  {
    StatusRule(Str(StatusOptions(variant)[i]), from, now, parse);
    assert "Đã hết hạn" != "Đang mở" && "Đã hết hạn" != "Đã đóng";
  }

  /** A key of the loaded job that no rule governs never blocks saving:
      adding it changes neither the minimum salary nor any rule's verdict. */
  lemma ServerKeysHarmless(variant: Variant, form: Object, k: string, v: Value, now: int, parse: DateParser)
    requires Typed(Edit, form) && FieldOf(k).None?
    ensures Typed(Edit, form[k := v])
    ensures AllEmpty(FormMessages(variant, Edit, form[k := v], form[k := v].Keys, now, parse))
            <==> AllEmpty(FormMessages(variant, Edit, form, form.Keys, now, parse))
  {
    var form' := form[k := v];
    FieldOfName(SalaryFrom);
    assert SalaryFromOf(form') == SalaryFromOf(form);
    ValidIff(variant, Edit, form', form'.Keys, now, parse);
    ValidIff(variant, Edit, form, form.Keys, now, parse);
    if RulesPass(Edit, form, form.Keys, now, parse) {
      forall j | j in form'.Keys && FieldOf(j).Some?
        ensures Check(Edit, FieldOf(j).value, form'[j], SalaryFromOf(form'), now, parse) == Fine
      {
        assert j != k && form'[j] == form[j];
      }
    }
    if RulesPass(Edit, form', form'.Keys, now, parse) {
      forall j | j in form.Keys && FieldOf(j).Some?
        ensures Check(Edit, FieldOf(j).value, form[j], SalaryFromOf(form), now, parse) == Fine
      {
        assert j != k && form'[j] == form[j];
      }
    }
  }

  class Form {
    const variant: Variant
    /** the route's `id` */
    const id: Option<string>
    const parse: DateParser
    var formData: Object
    var fieldErrors: Errors
    var error: string
    var loading: bool
    var navigatedTo: Option<string>

    constructor (variant: Variant, id: Option<string>, parse: DateParser)
      ensures this.variant == variant && this.id == id && this.parse == parse
      ensures formData == InitialForm && fieldErrors == map[]
      ensures error == "" && !loading && navigatedTo == None
    {
      this.variant := variant;
      this.id := id;
      this.parse := parse;
      formData := InitialForm;
      fieldErrors := map[];
      error := "";
      loading := false;
      navigatedTo := None;
    }

    /** The mount effect's guard: without a usable id the form shows why
      and loads nothing; `load` says whether `fetchJobDetails` runs. */
    method CheckId() returns (load: bool)
      modifies this
      ensures load <==> IdValid(id)
      ensures error == if load then old(error) else IdMissing
      ensures formData == old(formData) && fieldErrors == old(fieldErrors)
      ensures loading == old(loading) && navigatedTo == old(navigatedTo)
    {
      load := IdValid(id);
      error := if load then error else IdMissing;
    }

    /** `fetchJobDetails`, run once `CheckId` let it: the loaded job
      replaces the form (see `Loaded`); a failed load keeps the form and
      shows why. */
    method FetchJobDetails(fetched: Reply<JobRecordBody>, isoDay: int -> string)
      modifies this
      ensures unchanged(this`fieldErrors, this`navigatedTo) && !loading
      ensures var r := if fetched.Resolved? && fetched.value.data.Some? then Loaded(fetched.value.data.value, parse, isoDay) else None;
              && (r.Some? ==> formData == r.value && unchanged(this`error))
              && (r.None? ==> unchanged(this`formData)
                              && error == if fetched.Rejected? then LoadFailure(variant, fetched.failure) else FetchFailed(variant))
    {
      var r := if fetched.Resolved? && fetched.value.data.Some? then Loaded(fetched.value.data.value, parse, isoDay) else None;
      if r.Some? {
        formData := r.value;
      } else {
        error := if fetched.Rejected? then LoadFailure(variant, fetched.failure) else FetchFailed(variant);
      }
      loading := false;
    }

    /** `handleChange`: stores the field (see `Coerce`) and replaces its
      message with the one for the text as typed. */
    method HandleChange(name: string, value: string, now: int)
      modifies this
      ensures formData == old(formData)[name := Coerce(name, value)]
      ensures fieldErrors == old(fieldErrors)[name := ValidateField(variant, Edit, name, Str(value), SalaryFromOf(old(formData)), now, parse)]
      ensures error == old(error) && loading == old(loading) && navigatedTo == old(navigatedTo)
    {
      var m := ValidateField(variant, Edit, name, Str(value), SalaryFromOf(formData), now, parse);
      formData := formData[name := Coerce(name, value)];
      fieldErrors := fieldErrors[name := m];
    }

    /** `handleBlur`: the field's message for the text in the input. */
    method HandleBlur(name: string, value: string, now: int)
      modifies this
      ensures fieldErrors == old(fieldErrors)[name := ValidateField(variant, Edit, name, Str(value), SalaryFromOf(formData), now, parse)]
      ensures formData == old(formData) && error == old(error)
      ensures loading == old(loading) && navigatedTo == old(navigatedTo)
    {
      var m := ValidateField(variant, Edit, name, Str(value), SalaryFromOf(formData), now, parse);
      fieldErrors := fieldErrors[name := m];
    }

    /** `validateForm`: every key of the form gets its message in a fresh
      map, so messages of keys no longer in the form disappear. */
    method ValidateForm(now: int) returns (valid: bool)
      requires Typed(Edit, formData)
      modifies this
      ensures unchanged(this`formData, this`loading, this`navigatedTo)
      ensures fieldErrors == FormMessages(variant, Edit, formData, formData.Keys, now, parse)
      ensures valid <==> AllEmpty(fieldErrors)
      ensures error == if valid then "" else FormInvalid(variant)
    {
      var form := formData;
      var validate := Validator(variant, Edit, form, now, parse);
      TypedValidates(variant, Edit, form, form.Keys, now, parse);
      var keys := Keys(form);
      var newErrors;
      newErrors, valid := ValidateKeys(form, keys, form.Keys, map[], validate);
      EmptyOverlay(Messages(form, form.Keys, validate));
      fieldErrors := newErrors;
      error := if valid then "" else FormInvalid(variant);
    }

    /** `handleSubmit`: nothing is sent unless the form is valid; then the
      job is updated under the route's id, with its expiry date as local
      midnight (see `SubmitData`). */
    method HandleSubmit(now: int, answer: Outcome<Object>) returns (sent: seq<Request>)
      requires Typed(Edit, formData)
      modifies this
      ensures unchanged(this`formData)
      ensures fieldErrors == FormMessages(variant, Edit, formData, formData.Keys, now, parse)
      ensures sent == [] <==> !AllEmpty(fieldErrors)
      ensures sent == [] ==> error == FormInvalid(variant) && unchanged(this`loading, this`navigatedTo)
      ensures sent != [] ==> sent == [PutJob(Str(IdText(id)), SubmitData(formData))] && !loading
      ensures sent != [] && answer.Ok? ==> navigatedTo == Some(SavedPath(variant)) && error == ""
      ensures sent != [] && !answer.Ok? ==> unchanged(this`navigatedTo) && error == SaveFailed(variant)
    {
      var valid := ValidateForm(now);
      if !valid {
        return [];
      }
      sent := Save(answer);
    }

    /** The `try` block of `handleSubmit` once the form is valid: the PUT
      of the submitted data, then the list page or the failure message. */
    method Save(answer: Outcome<Object>) returns (sent: seq<Request>)
      modifies this
      ensures unchanged(this`formData, this`fieldErrors)
      ensures sent == [PutJob(Str(IdText(id)), SubmitData(old(formData)))] && !loading
      ensures answer.Ok? ==> navigatedTo == Some(SavedPath(variant)) && unchanged(this`error)
      ensures !answer.Ok? ==> unchanged(this`navigatedTo) && error == SaveFailed(variant)
    {
      sent := [PutJob(Str(IdText(id)), SubmitData(formData))];
      navigatedTo := if answer.Ok? then Some(SavedPath(variant)) else navigatedTo;
      error := if answer.Ok? then error else SaveFailed(variant);
      loading := false;
    }
  }
}

/** The field rules the job forms share. `JobForm.jsx` and `JobForm.js`
    (creating a job) and `JobEditForm.jsx` and `JobEditForm.js` (editing
    one) apply the same rules to the same fields; the create forms also
    check a tax number and the edit forms also check the job status. The
    `.jsx` files word their messages in Vietnamese and the `.js` files in
    English. */
module JobFormRules {
  import opened Js
  import opened Forms

  /** Which of the two source files of a form. */
  datatype Variant = Jsx | Js

  /** Which form: creating a job or editing one. */
  datatype Kind = Create | Edit

  /** The fields a rule is written for. */
  datatype Field =
    | JobName | JobType | ContractType | Level | Quantity | SalaryFrom | SalaryTo
    | RequireExpYear | Location | JobDescription | ExpireDate | TaxNumber | JobStatus

  /** The key of a field in `formData`. */
  function Name(f: Field): string {
    match f
    case JobName => "jobName"
    case JobType => "jobType"
    case ContractType => "contractType"
    case Level => "level"
    case Quantity => "quantity"
    case SalaryFrom => "salaryFrom"
    case SalaryTo => "salaryTo"
    case RequireExpYear => "requireExpYear"
    case Location => "location"
    case JobDescription => "jobDescription"
    case ExpireDate => "expireDate"
    case TaxNumber => "taxNumber"
    case JobStatus => "jobStatus"
  }

  /** The field a key names, as the `switch (name)` of `validateField`
      picks it; any other key has no rule. */
  function FieldOf(name: string): Option<Field> {
    match name
    case "jobName" => Some(JobName)
    case "jobType" => Some(JobType)
    case "contractType" => Some(ContractType)
    case "level" => Some(Level)
    case "quantity" => Some(Quantity)
    case "salaryFrom" => Some(SalaryFrom)
    case "salaryTo" => Some(SalaryTo)
    case "requireExpYear" => Some(RequireExpYear)
    case "location" => Some(Location)
    case "jobDescription" => Some(JobDescription)
    case "expireDate" => Some(ExpireDate)
    case "taxNumber" => Some(TaxNumber)
    case "jobStatus" => Some(JobStatus)
    case _ => None
  }

  /** Every field is found under its own key ... */
  lemma FieldOfName(f: Field)
    ensures FieldOf(Name(f)) == Some(f)
  {
    match f
    case JobName =>
    case JobType =>
    case ContractType =>
    case Level =>
    case Quantity =>
    case SalaryFrom =>
    case SalaryTo =>
    case RequireExpYear =>
    case Location =>
    case JobDescription =>
    case ExpireDate =>
    case TaxNumber =>
    case JobStatus =>
  }

  /** ... and only there. */
  lemma NameOfField(name: string)
    ensures FieldOf(name).Some? ==> Name(FieldOf(name).value) == name
  {
  }

  /** What `validateField` finds wrong with a field, or `Fine`. */
  datatype Problem =
    | Fine
    | NameRequired | TypeRequired | ContractRequired | LevelRequired
    | LocationRequired | DescriptionRequired
    | QuantityNotPositive | SalaryFromNegative | SalaryToNotPositive | SalaryToBelowFrom
    | ExperienceNegative
    | ExpireRequired | ExpireNotFuture
    | TaxRequired | TaxMalformed
    | StatusInvalid

  /** The fields whose rule is `!value.trim()`. */
  predicate TextField(f: Field) {
    f in {JobName, JobType, ContractType, Level, Location, JobDescription}
  }

  /** The fields `handleChange` stores as numbers. */
  const NumericFields: set<string> := {"quantity", "salaryFrom", "salaryTo", "requireExpYear"}

  /** The statuses the edit form accepts. */
  const Statuses: set<string> := {"Đang mở", "Đã đóng", "Đã hết hạn"}

  /** What the rule of `f` needs to run without a TypeError: a rule that
      calls `trim` is given a string. */
  predicate CanCheck(kind: Kind, f: Field, v: Value) {
    (TextField(f) || (kind == Create && f == TaxNumber)) ==> v.Str?
  }

  /** The same, for a key of `formData`. */
  predicate CanValidate(kind: Kind, name: string, v: Value) {
    FieldOf(name).Some? ==> CanCheck(kind, FieldOf(name).value, v)
  }

  /** `!value.trim()` */
  predicate Blank(s: string) {
    Trim(s) == ""
  }

  /** `/^[0-9]{10,13}$/.test(s)`: without the `m` flag, `$` matches only
      at the very end of the text. */
  predicate TaxNumberShape(s: string) {
    10 <= |s| <= 13 && AllDigits(s)
  }

  /** `a <= b` on two numbers: false whenever either side is NaN. */
  predicate NumAtMost(a: Number, b: Number) {
    a.Int? && b.Int? && a.i <= b.i
  }

  /** The rule of field `f` in the form `kind`. `salaryFrom` is
      `Number(formData.salaryFrom)` of the form at the time of the call,
      `now` is `new Date()` and `parse` reads date text as `new Date`
      does. */
  function Check(kind: Kind, f: Field, v: Value, salaryFrom: Number, now: int, parse: DateParser): Problem
    requires CanCheck(kind, f, v)
  {
    match f
    case JobName => if Blank(v.s) then NameRequired else Fine
    case JobType => if Blank(v.s) then TypeRequired else Fine
    case ContractType => if Blank(v.s) then ContractRequired else Fine
    case Level => if Blank(v.s) then LevelRequired else Fine
    case Quantity => if NumAtMost(ToNumber(v), Int(0)) then QuantityNotPositive else Fine
    case SalaryFrom => if NumLess(ToNumber(v), Int(0)) then SalaryFromNegative else Fine
    case SalaryTo =>
      if NumAtMost(ToNumber(v), Int(0)) then SalaryToNotPositive
      else if NumLess(ToNumber(v), salaryFrom) then SalaryToBelowFrom
      else Fine
    case RequireExpYear => if NumLess(ToNumber(v), Int(0)) then ExperienceNegative else Fine
    case Location => if Blank(v.s) then LocationRequired else Fine
    case JobDescription => if Blank(v.s) then DescriptionRequired else Fine
    case ExpireDate =>
      if !Truthy(v) then ExpireRequired
      else if NumAtMost(TimeOfValue(v, parse), Int(now)) then ExpireNotFuture
      else Fine
    case TaxNumber =>
      if kind == Edit then Fine
      else if Blank(v.s) then TaxRequired
      else if !TaxNumberShape(v.s) then TaxMalformed
      else Fine
    case JobStatus =>
      if kind == Create then Fine
      else if !(v.Str? && v.s in Statuses) then StatusInvalid
      else Fine
  }

  /** The message shown for a problem. */
  function Text(variant: Variant, p: Problem): string {
    match variant
    case Js => English(p)
    case Jsx => Vietnamese(p)
  }

  /** The messages of the `.js` forms. */
  function English(p: Problem): string {
    match p
    case Fine => ""
    case NameRequired => "Job name is required"
    case TypeRequired => "Job type is required"
    case ContractRequired => "Contract type is required"
    case LevelRequired => "Level is required"
    case LocationRequired => "Location is required"
    case DescriptionRequired => "Job description is required"
    case QuantityNotPositive => "Quantity must be greater than 0"
    case SalaryFromNegative => "Salary cannot be negative"
    case SalaryToNotPositive => "Salary must be greater than 0"
    case SalaryToBelowFrom => "Maximum salary must be greater than or equal to minimum salary"
    case ExperienceNegative => "Experience years cannot be negative"
    case ExpireRequired => "Expire date is required"
    case ExpireNotFuture => "Expire date must be in the future"
    case TaxRequired => "Tax number is required"
    case TaxMalformed => "Tax number must be 10 or 13 digits"
    case StatusInvalid => "Invalid job status"
  }

  /** The messages of the `.jsx` forms. */
  function Vietnamese(p: Problem): string {
    match p
    case Fine => ""
    case NameRequired => "Tên công việc là bắt buộc"
    case TypeRequired => "Loại công việc là bắt buộc"
    case ContractRequired => "Loại hợp đồng là bắt buộc"
    case LevelRequired => "Cấp bậc là bắt buộc"
    case LocationRequired => "Địa điểm là bắt buộc"
    case DescriptionRequired => "Mô tả công việc là bắt buộc"
    case QuantityNotPositive => "Số lượng phải lớn hơn 0"
    case SalaryFromNegative => "Lương không thể âm"
    case SalaryToNotPositive => "Lương phải lớn hơn 0"
    case SalaryToBelowFrom => "Lương tối đa phải lớn hơn hoặc bằng lương tối thiểu"
    case ExperienceNegative => "Kinh nghiệm không thể âm"
    case ExpireRequired => "Ngày hết hạn là bắt buộc"
    case ExpireNotFuture => "Ngày hết hạn phải trong tương lai"
    case TaxRequired => "Mã số thuế là bắt buộc"
    case TaxMalformed => "Mã số thuế phải có 10 hoặc 13 chữ số"
    case StatusInvalid => "Trạng thái công việc không hợp lệ"
  }

  /** Only `Fine` is shown as the empty message, so a field passes exactly
      when it has no problem. */
  lemma TextEmptyIffFine(variant: Variant, p: Problem)
    ensures Text(variant, p) == "" <==> p == Fine
  {
    if variant == Js {
      EnglishEmptyIffFine(p);
    } else {
      VietnameseEmptyIffFine(p);
    }
  }

  lemma EnglishEmptyIffFine(p: Problem)
    ensures English(p) == "" <==> p == Fine
  {
  }

  lemma VietnameseEmptyIffFine(p: Problem)
    ensures Vietnamese(p) == "" <==> p == Fine
  {
  }

  /** `validateField(name, value)`: the message for the problem the
      field's rule finds; a key without a rule gets the empty message. */
  function ValidateField(variant: Variant, kind: Kind, name: string, v: Value, salaryFrom: Number, now: int, parse: DateParser): string
    requires CanValidate(kind, name, v)
  {
    match FieldOf(name)
    case None => ""
    case Some(f) => Text(variant, Check(kind, f, v, salaryFrom, now, parse))
  }

  /** A key passes exactly when it has no rule or its rule finds nothing. */
  lemma ValidateFieldPasses(variant: Variant, kind: Kind, name: string, v: Value, from: Number, now: int, parse: DateParser)
    requires CanValidate(kind, name, v)
    ensures ValidateField(variant, kind, name, v, from, now, parse) == "" <==>
              FieldOf(name).None? || Check(kind, FieldOf(name).value, v, from, now, parse) == Fine
  {
    if FieldOf(name).Some? {
      TextEmptyIffFine(variant, Check(kind, FieldOf(name).value, v, from, now, parse));
    }
  }

  /** A key without a rule (`default:` of the switch) validates to the
      empty message, whatever it holds. */
  lemma UnknownFieldEmpty(variant: Variant, kind: Kind, name: string, v: Value, from: Number, now: int, parse: DateParser)
    requires FieldOf(name).None?
    ensures ValidateField(variant, kind, name, v, from, now, parse) == ""
  {
  }

  /** `Number(formData.salaryFrom)`, with `undefined` for a missing key. */
  function SalaryFromOf(form: Object): Number {
    if "salaryFrom" in form then ToNumber(form["salaryFrom"]) else NaN
  }

  // ---------------------------------------------------------------------
  // The rules, one lemma per kind of field

  /** A text field fails exactly when it is empty after trimming, that is,
      when it holds only white space. */
  lemma TextRule(kind: Kind, f: Field, s: string, from: Number, now: int, parse: DateParser)
    requires TextField(f)
    ensures Check(kind, f, Str(s), from, now, parse) != Fine <==> forall i :: 0 <= i < |s| ==> IsSpace(s[i])
  {
    TrimEmptyIff(s);
  }

  /** The quantity must be above 0; a value that is not a number passes. */
  lemma QuantityRule(kind: Kind, v: Value, from: Number, now: int, parse: DateParser)
    ensures Check(kind, Quantity, v, from, now, parse)
            == if ToNumber(v).Int? && ToNumber(v).i <= 0 then QuantityNotPositive else Fine
  {
  }

  /** The minimum salary must not be below 0. */
  lemma SalaryFromRule(kind: Kind, v: Value, from: Number, now: int, parse: DateParser)
    ensures Check(kind, SalaryFrom, v, from, now, parse)
            == if ToNumber(v).Int? && ToNumber(v).i < 0 then SalaryFromNegative else Fine
  {
  }

  /** The years of experience must not be below 0. */
  lemma ExperienceRule(kind: Kind, v: Value, from: Number, now: int, parse: DateParser)
    ensures Check(kind, RequireExpYear, v, from, now, parse)
            == if ToNumber(v).Int? && ToNumber(v).i < 0 then ExperienceNegative else Fine
  {
  }

  /** The maximum salary must be above 0; only then is it compared with
      the minimum salary stored in the form, and a non-numeric minimum
      imposes nothing. */
  lemma SalaryToRule(kind: Kind, v: Value, from: Number, now: int, parse: DateParser)
    ensures Check(kind, SalaryTo, v, from, now, parse)
            == if ToNumber(v).Int? && ToNumber(v).i <= 0 then SalaryToNotPositive
               else if ToNumber(v).Int? && from.Int? && ToNumber(v).i < from.i then SalaryToBelowFrom
               else Fine
  {
  }

  /** The expiry date is required, and a readable date must lie strictly
      after now; a date `new Date` cannot read passes. */
  lemma ExpireRule(kind: Kind, v: Value, from: Number, now: int, parse: DateParser)
    ensures Check(kind, ExpireDate, v, from, now, parse)
            == if !Truthy(v) then ExpireRequired
               else if TimeOfValue(v, parse).Int? && TimeOfValue(v, parse).i <= now then ExpireNotFuture
               else Fine
  {
  }

  /** On the create forms the tax number passes exactly when it is 10 to
      13 digits, checked on the text as typed (untrimmed). */
  lemma TaxNumberRule(s: string, from: Number, now: int, parse: DateParser)
    ensures Check(Create, TaxNumber, Str(s), from, now, parse) == Fine <==> TaxNumberShape(s)
  {
    if TaxNumberShape(s) {
      assert !IsSpace(s[0]) && !IsSpace(s[|s| - 1]) by {
        assert IsDigit(s[0]) && IsDigit(s[|s| - 1]);
      }
      TrimOfUnspaced(s);
    }
  }

  /** A tax number of white space only is reported as missing, any other
      failing one as malformed. */
  lemma TaxNumberRequired(s: string, from: Number, now: int, parse: DateParser)
    ensures Check(Create, TaxNumber, Str(s), from, now, parse) == TaxRequired <==> forall i :: 0 <= i < |s| ==> IsSpace(s[i])
  {
    TrimEmptyIff(s);
  }

  /** The message promises "10 or 13" digits, but 11 and 12 digits pass
      too. */
  lemma TaxNumberMiddleLengths(s: string, from: Number, now: int, parse: DateParser)
    requires AllDigits(s) && (|s| == 11 || |s| == 12)
    ensures Check(Create, TaxNumber, Str(s), from, now, parse) == Fine
  {
    TaxNumberRule(s, from, now, parse);
  }

  /** The edit forms accept exactly the three statuses. */
  lemma StatusRule(v: Value, from: Number, now: int, parse: DateParser)
    ensures Check(Edit, JobStatus, v, from, now, parse)
            == if v.Str? && v.s in Statuses then Fine else StatusInvalid
  {
  }

  /** Each form checks only its own extra field: the create forms never
      object to a status and the edit forms never object to a tax number. */
  lemma ExtraFieldsPerKind(v: Value, from: Number, now: int, parse: DateParser)
    ensures Check(Create, JobStatus, v, from, now, parse) == Fine
    ensures Check(Edit, TaxNumber, v, from, now, parse) == Fine
  {
  }

  // ---------------------------------------------------------------------
  // validateForm

  /** The eleven fields every job form checks before it is sent. */
  const CoreKeys: set<string> := {"jobType", "contractType", "level", "quantity", "salaryFrom", "salaryTo",
                                  "requireExpYear", "location", "jobDescription", "jobName", "expireDate"}

  /** The top-level error of a form that failed `validateForm`. */
  function FormInvalid(variant: Variant): string {
    if variant == Js then "Please correct the errors in the form before submitting."
    else "Vui lòng sửa các lỗi trong biểu mẫu trước khi gửi."
  }

  /** A form whose every field can be validated. */
  predicate Typed(kind: Kind, form: Object) {
    forall k :: k in form ==> CanValidate(kind, k, form[k])
  }

  /** `validateField` as `validateForm` hands it each key of `form`: the
      minimum salary it compares with is the one stored in `form`. */
  function Validator(variant: Variant, kind: Kind, form: Object, now: int, parse: DateParser): (string, Value) --> string {
    var from := SalaryFromOf(form);
    (k: string, v: Value) requires CanValidate(kind, k, v) => ValidateField(variant, kind, k, v, from, now, parse)
  }

  /** A typed form can be handed to the key loop. */
  lemma TypedValidates(variant: Variant, kind: Kind, form: Object, checked: set<string>, now: int, parse: DateParser)
    requires Typed(kind, form)
    ensures forall k :: k in checked && k in form ==> Validator(variant, kind, form, now, parse).requires(k, form[k])
  {
  }

  /** The messages `validateForm` computes for `form` over the keys it
      checks. */
  function FormMessages(variant: Variant, kind: Kind, form: Object, checked: set<string>, now: int, parse: DateParser): Errors
    requires Typed(kind, form)
  {
    TypedValidates(variant, kind, form, checked, now, parse);
    Messages(form, checked, Validator(variant, kind, form, now, parse))
  }

  /** Each field present, checked and governed by a rule passes it. */
  predicate RulesPass(kind: Kind, form: Object, checked: set<string>, now: int, parse: DateParser)
    requires Typed(kind, form)
  {
    forall k :: k in checked && k in form && FieldOf(k).Some? ==>
      Check(kind, FieldOf(k).value, form[k], SalaryFromOf(form), now, parse) == Fine
  }

  /** A form is valid exactly when every field it holds that is checked
      passes its rule; keys without a rule never block it, and neither do
      fields that are missing. */
  lemma ValidIff(variant: Variant, kind: Kind, form: Object, checked: set<string>, now: int, parse: DateParser)
    requires Typed(kind, form)
    ensures AllEmpty(FormMessages(variant, kind, form, checked, now, parse)) <==> RulesPass(kind, form, checked, now, parse)
  {
    var m := FormMessages(variant, kind, form, checked, now, parse);
    var from := SalaryFromOf(form);
    if AllEmpty(m) {
      forall k | k in checked && k in form && FieldOf(k).Some?
        ensures Check(kind, FieldOf(k).value, form[k], from, now, parse) == Fine
      {
        assert m[k] == ValidateField(variant, kind, k, form[k], from, now, parse);
        ValidateFieldPasses(variant, kind, k, form[k], from, now, parse);
      }
    } else {
      var k :| k in m && m[k] != "";
      ValidateFieldPasses(variant, kind, k, form[k], from, now, parse);
    }
  }

  /** A valid form holding numeric quantity and salaries asks for at least
      one position and a salary range with `0 <= salaryFrom <= salaryTo`
      and `salaryTo > 0`. */
  lemma ValidSalaries(variant: Variant, kind: Kind, form: Object, checked: set<string>, now: int, parse: DateParser,
                      quantity: int, lo: int, hi: int)
    requires Typed(kind, form) && CoreKeys <= checked
    requires "quantity" in form && form["quantity"] == Num(Int(quantity))
    requires "salaryFrom" in form && form["salaryFrom"] == Num(Int(lo))
    requires "salaryTo" in form && form["salaryTo"] == Num(Int(hi))
    requires AllEmpty(FormMessages(variant, kind, form, checked, now, parse))
    ensures quantity >= 1 && 0 <= lo <= hi && hi > 0
  {
    ValidIff(variant, kind, form, checked, now, parse);
    assert FieldOf("quantity") == Some(Quantity);
    assert FieldOf("salaryFrom") == Some(SalaryFrom);
    assert FieldOf("salaryTo") == Some(SalaryTo);
    QuantityRule(kind, form["quantity"], SalaryFromOf(form), now, parse);
    SalaryFromRule(kind, form["salaryFrom"], SalaryFromOf(form), now, parse);
    SalaryToRule(kind, form["salaryTo"], SalaryFromOf(form), now, parse);
  }

  /** A valid form has an expiry date, and a readable one lies after now. */
  lemma ValidExpiry(variant: Variant, kind: Kind, form: Object, checked: set<string>, now: int, parse: DateParser)
    requires Typed(kind, form) && "expireDate" in checked && "expireDate" in form
    requires AllEmpty(FormMessages(variant, kind, form, checked, now, parse))
    ensures Truthy(form["expireDate"])
    ensures TimeOfValue(form["expireDate"], parse).Int? ==> TimeOfValue(form["expireDate"], parse).i > now
  {
    ValidIff(variant, kind, form, checked, now, parse);
    var v := form["expireDate"];
    assert FieldOf("expireDate") == Some(ExpireDate);
    assert Check(kind, ExpireDate, v, SalaryFromOf(form), now, parse) == Fine;
    ExpireRule(kind, v, SalaryFromOf(form), now, parse);
  }

  // ---------------------------------------------------------------------
  // The fetched job

  /** The body `jobService.getJobById` resolves with: `data` is the job as
      the server sent it, or `undefined`. */
  datatype JobRecordBody = JobRecordBody(data: Option<Object>)

  /** `new Date(jobData.expireDate).getTime()`, with `undefined` for a
      missing key. */
  function ExpireTime(d: Object, parse: DateParser): Number {
    if "expireDate" in d then TimeOfValue(d["expireDate"], parse) else NaN
  }

  // ---------------------------------------------------------------------
  // handleChange and the submitted data

  /** What `handleChange` stores: the four numeric fields as
      `Number(value)`, every other field as typed. */
  function Coerce(name: string, value: string): (v: Value)
    ensures name in NumericFields ==> v == Num(StringToNumber(value))
    ensures name !in NumericFields ==> v == Str(value)
  {
    if name in NumericFields then Num(StringToNumber(value)) else Str(value)
  }

  /** Typing digits into a numeric field stores their value. */
  lemma CoerceDigits(name: string, n: nat)
    requires name in NumericFields
    ensures Coerce(name, NatToString(n)) == Num(Int(n))
  {
    IntToStringRoundTrip(n);
  }

  /** `{...formData, expireDate: formData.expireDate ? `${formData.expireDate}T00:00:00` : ""}` */
  function SubmitData(form: Object): (d: Object)
    ensures d.Keys == form.Keys + {"expireDate"}
    ensures forall k :: k in form && k != "expireDate" ==> d[k] == form[k]
    ensures TruthyAt(form, "expireDate") ==> d["expireDate"] == Str(ToText(form["expireDate"]) + "T00:00:00")
    ensures !TruthyAt(form, "expireDate") ==> d["expireDate"] == Str("")
  {
    form["expireDate" := Str(if TruthyAt(form, "expireDate") then ToText(form["expireDate"]) + "T00:00:00" else "")]
  }

  /** A date picked in the form is sent as local midnight of that day. */
  lemma SubmitPickedDate(form: Object, day: string)
    requires "expireDate" in form && form["expireDate"] == Str(day) && day != ""
    ensures SubmitData(form)["expireDate"] == Str(day + "T00:00:00")
  {
  }
}

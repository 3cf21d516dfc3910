/** `FilterModal.jsx`: the dialog that turns four inputs (two salaries
    as typed, a post date and an "only open jobs" box) into the filter
    object the job list's `handleFilter` receives. */
module FilterModal {
  import opened Js
  import JobList

  /** The time of day appended to the chosen post date. */
  const DateSuffix := "T01:37:03.773Z"

  /** `new Date("2000-01-01").toISOString()`: a date-only text is read as
      UTC midnight, so the instant is fixed. */
  const ClearDate := "2000-01-01T00:00:00.000Z"

  const OpenStatus := "Đang mở"

  /** `String(Number(input))`: a salary as the backend is sent it. */
  function SalaryText(input: string): string {
    NumberToString(StringToNumber(input))
  }

  /** The salary key's value for an input: none for an empty input. */
  function SalaryParam(input: string): (r: Option<string>)
    ensures r.Some? <==> input != ""
  {
    if input == "" then None else Some(SalaryText(input))
  }

  /** A salary sent reads back as the number typed, and converting it
      again changes nothing. */
  lemma SalaryTextCanonical(input: string)
    requires SalaryParam(input).Some?
    ensures ToNumber(Str(SalaryParam(input).value)) == StringToNumber(input)
    ensures SalaryText(SalaryParam(input).value) == SalaryParam(input).value
  {
    NumberTextRoundTrip(StringToNumber(input));
  }

  /** `cond ? {...p, [k]: v} : p`: one optional key of the filter object. */
  function AddIf(p: Object, cond: bool, k: string, v: Value): Object {
    if cond then p[k := v] else p
  }

  /** The filter object `handleFilter` passes on, for the salaries as
      `SalaryParam` gives them, the date input and the open-jobs box. */
  function Params(salaryFrom: Option<string>, salaryTo: Option<string>, postDate: string, onlyOpen: bool): Object {
    var base := map["action" := Str("get"), "sortOrder" := Str("DESC")];
    var withFrom := AddIf(base, salaryFrom.Some?, "salaryFrom", Str(if salaryFrom.Some? then salaryFrom.value else ""));
    var withTo := AddIf(withFrom, salaryTo.Some?, "salaryTo", Str(if salaryTo.Some? then salaryTo.value else ""));
    var withDate := AddIf(withTo, postDate != "", "postDate", Str(postDate + DateSuffix));
    var flagged := withDate["filter" := Str(if onlyOpen then "1" else "0")];
    AddIf(flagged, onlyOpen, "jobStatus", Str(OpenStatus))
  }

  /** The object always asks for the newest jobs first, carries a salary
      exactly when one was typed, a date exactly when one was chosen, and
      the status exactly when only open jobs are wanted. */
  lemma ParamsKeys(salaryFrom: Option<string>, salaryTo: Option<string>, postDate: string, onlyOpen: bool)
    ensures Params(salaryFrom, salaryTo, postDate, onlyOpen).Keys ==
              {"action", "sortOrder", "filter"}
              + (if salaryFrom.Some? then {"salaryFrom"} else {})
              + (if salaryTo.Some? then {"salaryTo"} else {})
              + (if postDate != "" then {"postDate"} else {})
              + (if onlyOpen then {"jobStatus"} else {})
  {
  }

  /** The values of the keys: `"get"`, `"DESC"`, each salary's text, the
      date with the fixed time appended, and the flag as "1" or "0". */
  lemma ParamsValues(salaryFrom: Option<string>, salaryTo: Option<string>, postDate: string, onlyOpen: bool)
    ensures var p := Params(salaryFrom, salaryTo, postDate, onlyOpen);
            && p["action"] == Str("get") && p["sortOrder"] == Str("DESC")
            && (salaryFrom.Some? ==> p["salaryFrom"] == Str(salaryFrom.value))
            && (salaryTo.Some? ==> p["salaryTo"] == Str(salaryTo.value))
            && (postDate != "" ==> p["postDate"] == Str(postDate + DateSuffix))
            && p["filter"] == Str(if onlyOpen then "1" else "0")
            && (onlyOpen ==> p["jobStatus"] == Str(OpenStatus))
  {
  }

  /** The object `handleClearFilter` passes on. */
  const ClearParams: Object :=
    map["action" := Str("get"), "sortOrder" := Str("DESC"), "postDate" := Str(ClearDate), "filter" := Bool(false)]

  /** Clearing is not applying an empty form: it sends a post date, and
      its `filter` is the boolean `false` where applying sends the text "0". */
  lemma ClearIsNotEmptyApply()
    ensures "postDate" in ClearParams && "postDate" !in Params(None, None, "", false)
    ensures ClearParams["filter"] == Bool(false) && Params(None, None, "", false)["filter"] == Str("0")
  {
  }

  /** What the job list shows as badges for an applied filter: a badge per
      salary typed (even "0", which arrives as text) and one for a chosen
      date; the open-jobs box never shows. */
  lemma ParamsBadges(salaryFrom: Option<string>, salaryTo: Option<string>, postDate: string, onlyOpen: bool)
    requires salaryFrom.Some? ==> salaryFrom.value != ""
    requires salaryTo.Some? ==> salaryTo.value != ""
    ensures var d := JobList.DisplayFilters(Params(salaryFrom, salaryTo, postDate, onlyOpen));
            d.Keys == (if salaryFrom.Some? then {"salaryFrom"} else {})
                      + (if salaryTo.Some? then {"salaryTo"} else {})
                      + (if postDate != "" then {"postDate"} else {})
  {
  }

  /** Every salary text sent is non-empty, so it always gets a badge. */
  lemma SalaryParamNonEmpty(input: string)
    requires SalaryParam(input).Some?
    ensures SalaryParam(input).value != ""
  {
  }

  /** After clearing, the job list still shows the fixed date as a badge. */
  lemma ClearedBadges()
    ensures JobList.DisplayFilters(ClearParams) == map["postDate" := Str(ClearDate)]
  {
    var d := JobList.DisplayFilters(ClearParams);
    assert d.Keys == {"postDate"};
  }

  /** The filter object of `handleFilter`, one key at a time. */
  method BuildParams(salaryFrom: Option<string>, salaryTo: Option<string>, postDate: string, onlyOpen: bool)
    returns (params: Object)
    ensures params == Params(salaryFrom, salaryTo, postDate, onlyOpen)
  {
    params := map["action" := Str("get"), "sortOrder" := Str("DESC")];
    if salaryFrom.Some? {
      params := params["salaryFrom" := Str(salaryFrom.value)];
    }
    if salaryTo.Some? {
      params := params["salaryTo" := Str(salaryTo.value)];
    }
    if postDate != "" {
      params := params["postDate" := Str(postDate + DateSuffix)];
    }
    params := params["filter" := Str(if onlyOpen then "1" else "0")];
    if onlyOpen {
      params := params["jobStatus" := Str(OpenStatus)];
    }
  }

  /** What the dialog hands to its parent, in order. */
  datatype Notice = Filtered(params: Object) | Hidden

  class Dialog {
    var salaryFrom: string
    var salaryTo: string
    var postDate: string
    var onlyOpenJobs: bool
    /** the calls of `onFilter` and `onHide` so far */
    var notices: seq<Notice>

    constructor ()
      ensures salaryFrom == "" && salaryTo == "" && postDate == "" && !onlyOpenJobs && notices == []
    {
      salaryFrom := "";
      salaryTo := "";
      postDate := "";
      onlyOpenJobs := false;
      notices := [];
    }

    /** The salary-from input's `onChange`: the text as typed. */
    method SetSalaryFrom(text: string)
      modifies this
      ensures salaryFrom == text && salaryTo == old(salaryTo) && postDate == old(postDate)
      ensures onlyOpenJobs == old(onlyOpenJobs) && notices == old(notices)
    {
      salaryFrom := text;
    }

    /** The salary-to input's `onChange`. */
    method SetSalaryTo(text: string)
      modifies this
      ensures salaryTo == text && salaryFrom == old(salaryFrom) && postDate == old(postDate)
      ensures onlyOpenJobs == old(onlyOpenJobs) && notices == old(notices)
    {
      salaryTo := text;
    }

    /** The date input's `onChange`: the day as `yyyy-mm-dd`, or "" once
      cleared. */
    method SetPostDate(text: string)
      modifies this
      ensures postDate == text && salaryFrom == old(salaryFrom) && salaryTo == old(salaryTo)
      ensures onlyOpenJobs == old(onlyOpenJobs) && notices == old(notices)
    {
      postDate := text;
    }

    /** The checkbox's `onChange`. */
    method ToggleOnlyOpen()
      modifies this
      ensures onlyOpenJobs == !old(onlyOpenJobs)
      ensures salaryFrom == old(salaryFrom) && salaryTo == old(salaryTo) && postDate == old(postDate)
      ensures notices == old(notices)
    {
      onlyOpenJobs := !onlyOpenJobs;
    }

    /** `handleFilter`: the object is built one key at a time, passed to
      `onFilter`, and the dialog closes; the inputs stay as they were. */
    method HandleFilter() returns (params: Object)
      modifies this
      ensures params == Params(SalaryParam(salaryFrom), SalaryParam(salaryTo), postDate, onlyOpenJobs)
      ensures notices == old(notices) + [Filtered(params), Hidden]
      ensures salaryFrom == old(salaryFrom) && salaryTo == old(salaryTo)
      ensures postDate == old(postDate) && onlyOpenJobs == old(onlyOpenJobs)
    {
      params := BuildParams(SalaryParam(salaryFrom), SalaryParam(salaryTo), postDate, onlyOpenJobs);
      notices := notices + [Filtered(params), Hidden];
    }

    /** `resetForm`: every input back to its initial value. */
    method ResetForm()
      modifies this
      ensures salaryFrom == "" && salaryTo == "" && postDate == "" && !onlyOpenJobs
      ensures notices == old(notices)
    {
      salaryFrom := "";
      salaryTo := "";
      postDate := "";
      onlyOpenJobs := false;
    }

    /** `handleClearFilter`: the inputs are reset, the fixed default
      filter is passed on, and the dialog closes. */
    method HandleClearFilter()
      modifies this
      ensures salaryFrom == "" && salaryTo == "" && postDate == "" && !onlyOpenJobs
      ensures notices == old(notices) + [Filtered(ClearParams), Hidden]
    {
      ResetForm();
      notices := notices + [Filtered(ClearParams), Hidden];
    }

    /** The cancel button: the inputs are reset and the dialog closes
      without filtering. */
    method Cancel()
      modifies this
      ensures salaryFrom == "" && salaryTo == "" && postDate == "" && !onlyOpenJobs
      ensures notices == old(notices) + [Hidden]
    {
      ResetForm();
      notices := notices + [Hidden];
    }
  }
}

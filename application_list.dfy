/** `ApplicationList.js`: the candidate's applications, each shown with a
    status badge and removable by its candidate and job ids. */
module ApplicationList {
  import opened Js
  import opened Http
  import opened Lists

  // ---------------------------------------------------------------------
  // Status badges

  /** `getStatusBadgeColor`: the Bootstrap colour of a status badge. The
      switch compares with `===`, so only a string can match a case. */
  function BadgeColor(status: Option<Value>): string {
    if status.None? || !status.value.Str? then "secondary"
    else match status.value.s
      case "Đã nộp" => "primary"
      case "Đang xem xét" => "info"
      case "Đạt yêu cầu" => "success"
      case "Không đạt" => "danger"
      case "Yêu cầu thông tin bổ sung" => "warning"
      case "Đã nhận việc" => "success"
      case "Hoàn thành" => "secondary"
      case _ => "secondary"
  }

  /** The seven statuses of an application and their colours. */
  const BadgeTable: seq<(string, string)> := [
    ("Đã nộp", "primary"), ("Đang xem xét", "info"), ("Đạt yêu cầu", "success"),
    ("Không đạt", "danger"), ("Yêu cầu thông tin bổ sung", "warning"),
    ("Đã nhận việc", "success"), ("Hoàn thành", "secondary")]

  /** A status outside the table, or no status at all, gets "secondary". */
  lemma UnknownStatusSecondary(status: Option<Value>)
    requires forall i :: 0 <= i < |BadgeTable| ==> status != Some(Str(BadgeTable[i].0))
    ensures BadgeColor(status) == "secondary"
  {
    if status.Some? && status.value.Str? {
      var s := status.value.s;
      assert s != BadgeTable[0].0 && s != BadgeTable[1].0 && s != BadgeTable[2].0 && s != BadgeTable[3].0;
      assert s != BadgeTable[4].0 && s != BadgeTable[5].0 && s != BadgeTable[6].0;
    }
  }

  /** Every badge has one of the six colours the table uses. */
  lemma BadgeColorRange(status: Option<Value>)
    ensures BadgeColor(status) in {"primary", "info", "success", "danger", "warning", "secondary"}
  {
  }

  // ---------------------------------------------------------------------
  // Rows

  /** `${v}` in a template: `undefined` prints as "undefined". */
  function Template(v: Option<Value>): string {
    if v.Some? then ToText(v.value) else "undefined"
  }

  /** The React key of a row: `${CandidateID}-${JobID}`. */
  function RowKey(app: Object): string {
    Template(Prop(app, "CandidateID")) + "-" + Template(Prop(app, "JobID"))
  }

  /** Rows whose ids are natural numbers have different keys unless both
      ids agree: the first `-` of the key separates the two. */
  lemma RowKeyInjective(a: nat, b: nat, c: nat, d: nat)
    ensures NatToString(a) + "-" + NatToString(b) == NatToString(c) + "-" + NatToString(d) ==> a == c && b == d
  {
    var sa, sb, sc, sd := NatToString(a), NatToString(b), NatToString(c), NatToString(d);
    if sa + "-" + sb == sc + "-" + sd {
      FirstDashAfterDigits(sa, sb);
      FirstDashAfterDigits(sc, sd);
      SplitAtDash(sa, sb, sc, sd);
    }
  }

  /** Two texts joined by `-` at the same place have the same halves. */
  lemma SplitAtDash(x: string, y: string, x': string, y': string)
    requires x + "-" + y == x' + "-" + y' && |x| == |x'|
    ensures x == x' && y == y'
  {
    var k := x + "-" + y;
    assert x == k[..|x|] == x';
    assert y == k[|x| + 1..] == y';
  }

  /** The position of the first `-` in `s`, `|s|` when there is none. */
  function FirstDash(s: string): (i: nat)
    ensures i <= |s|
  {
    if s == [] || s[0] == '-' then 0 else 1 + FirstDash(s[1..])
  }

  /** In `x + "-" + y` with `x` all digits, the first `-` is the one after `x`. */
  lemma {:induction false} FirstDashAfterDigits(x: string, y: string)
    requires AllDigits(x)
    ensures FirstDash(x + "-" + y) == |x|
  {
    if x != [] {
      assert (x + "-" + y)[1..] == x[1..] + "-" + y;
      FirstDashAfterDigits(x[1..], y);
    }
  }

  /** The key of a row with numeric ids is those ids in decimal. */
  lemma RowKeyOfNumbers(app: Object, c: nat, j: nat)
    requires "CandidateID" in app && app["CandidateID"] == Num(Int(c))
    requires "JobID" in app && app["JobID"] == Num(Int(j))
    ensures RowKey(app) == NatToString(c) + "-" + NatToString(j)
  {
  }

  /** String ids that contain `-` can give two different rows one key. */
  lemma RowKeyCollides()
    ensures RowKey(map["CandidateID" := Str("1-2"), "JobID" := Str("3")])
            == RowKey(map["CandidateID" := Str("1"), "JobID" := Str("2-3")])
  {
  }

  // ---------------------------------------------------------------------
  // Deleting

  /** `!(app.CandidateID === candidateId && app.JobID === jobId)` */
  predicate Keeps(app: Object, candidateId: Option<Value>, jobId: Option<Value>) {
    !(StrictEquals(Prop(app, "CandidateID"), candidateId) && StrictEquals(Prop(app, "JobID"), jobId))
  }

  /** The list left after deleting one application. */
  function Remaining(apps: seq<Object>, candidateId: Option<Value>, jobId: Option<Value>): seq<Object> {
    Filter(apps, (app: Object) => Keeps(app, candidateId, jobId))
  }

  /** Deleting removes exactly the applications with both ids equal to the
      given ones and keeps the others in their order. */
  lemma RemainingExactly(apps: seq<Object>, candidateId: Option<Value>, jobId: Option<Value>)
    ensures forall app :: app in Remaining(apps, candidateId, jobId) <==> app in apps && Keeps(app, candidateId, jobId)
    ensures IsSubsequence(Remaining(apps, candidateId, jobId), apps)
    ensures forall app :: multiset(Remaining(apps, candidateId, jobId))[app] ==
                          if Keeps(app, candidateId, jobId) then multiset(apps)[app] else 0
  {
    var p := (app: Object) => Keeps(app, candidateId, jobId);
    forall app ensures app in Filter(apps, p) <==> app in apps && p(app) {
      FilterMembership(apps, p, app);
    }
    forall app ensures multiset(Filter(apps, p))[app] == if p(app) then multiset(apps)[app] else 0 {
      FilterCount(apps, p, app);
    }
    FilterIsSubsequence(apps, p);
  }

  /** Ids that match no row delete nothing, and deleting twice is deleting
      once. */
  lemma RemainingUnmatched(apps: seq<Object>, candidateId: Option<Value>, jobId: Option<Value>)
    ensures (forall app :: app in apps ==> Keeps(app, candidateId, jobId)) ==> Remaining(apps, candidateId, jobId) == apps
    ensures Remaining(Remaining(apps, candidateId, jobId), candidateId, jobId) == Remaining(apps, candidateId, jobId)
  {
    var p := (app: Object) => Keeps(app, candidateId, jobId);
    if forall app :: app in apps ==> p(app) {
      FilterAllPass(apps, p);
    }
    FilterIdempotent(apps, p);
  }

  /** A row whose candidate id is NaN never matches, so deleting it
      leaves it in the list. */
  lemma NaNRowSurvives(apps: seq<Object>, app: Object, jobId: Option<Value>)
    requires app in apps && Prop(app, "CandidateID") == Some(Num(NaN))
    ensures app in Remaining(apps, Prop(app, "CandidateID"), jobId)
  {
    RemainingExactly(apps, Prop(app, "CandidateID"), jobId);
  }

  /** `${v}` in an API path. */
  function Segment(v: Option<Value>): Value {
    if v.Some? then v.value else Str("undefined")
  }

  const FetchFailed := "Failed to fetch applications. Please try again later."
  const DeleteFailed := "Failed to delete application. Please try again."
  const Deleted := "Application deleted successfully!"

  /** The body of `GET /candidates/my-applications`. */
  datatype ApplicationsBody = ApplicationsBody(data: seq<Object>)

  class List {
    var applications: seq<Object>
    var error: string
    var successMessage: string
    var loading: bool

    constructor ()
      ensures applications == [] && error == "" && successMessage == "" && loading
    {
      applications := [];
      error := "";
      successMessage := "";
      loading := true;
    }

    /** `fetchApplications`: the answer's list replaces the shown one and
      clears the error; a failure keeps the list and shows why. */
    method FetchApplications(answer: Outcome<ApplicationsBody>) returns (sent: seq<Request>)
      modifies this
      ensures sent == [GetApplications] && !loading && successMessage == old(successMessage)
      ensures answer.Ok? ==> applications == answer.body.data && error == ""
      ensures !answer.Ok? ==> applications == old(applications) && error == FetchFailed
    {
      loading := true;
      sent := [GetApplications];
      if answer.Ok? {
        applications := answer.body.data;
        error := "";
      } else {
        error := FetchFailed;
      }
      loading := false;
    }

    /** `handleDelete`: nothing happens unless the user confirms; a
      deletion the server accepts removes the matching rows and says so,
      a refused one keeps the list and shows why. */
    method HandleDelete(candidateId: Option<Value>, jobId: Option<Value>, confirmed: bool, answer: Outcome<Object>)
      returns (sent: seq<Request>)
      modifies this
      ensures loading == old(loading)
      ensures !confirmed ==> sent == [] && applications == old(applications)
                             && error == old(error) && successMessage == old(successMessage)
      ensures confirmed ==> sent == [DeleteApplication(Segment(candidateId), Segment(jobId))]
      ensures confirmed && answer.Ok? ==>
                applications == Remaining(old(applications), candidateId, jobId)
                && successMessage == Deleted && error == old(error)
      ensures confirmed && !answer.Ok? ==>
                applications == old(applications) && successMessage == old(successMessage) && error == DeleteFailed
    {
      if !confirmed {
        return [];
      }
      sent := [DeleteApplication(Segment(candidateId), Segment(jobId))];
      if answer.Ok? {
        successMessage := Deleted;
        applications := Remaining(applications, candidateId, jobId);
      } else {
        error := DeleteFailed;
      }
    }

    /** The timer set after a deletion: the success message goes away. */
    method ClearSuccess()
      modifies this
      ensures successMessage == ""
      ensures applications == old(applications) && error == old(error) && loading == old(loading)
    {
      successMessage := "";
    }
  }
}

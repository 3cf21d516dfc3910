/** `JobStats`: the employer's per-job application counts, the summary
    totals computed from them, and the rounded percentages of the summary
    table. */
module JobStats {
  import opened Js
  import opened Http

  /** One row of `GET /employers/my-jobs/stats`: accepted (`daNhan`),
      rejected (`tuChoi`) and pending (`choDuyet`) applications. */
  datatype StatRow = StatRow(jobId: Value, jobName: string, daNhan: nat, tuChoi: nat, choDuyet: nat)

  datatype StatsBody = StatsBody(data: Option<seq<StatRow>>)

  /** The per-row total of the table (`job.daNhan + job.tuChoi + job.choDuyet`). */
  function RowTotal(r: StatRow): nat {
    r.daNhan + r.tuChoi + r.choDuyet
  }

  /** `stats.reduce((sum, job) => sum + (job.daNhan + job.tuChoi + job.choDuyet), 0)` */
  function TotalApplications(stats: seq<StatRow>): nat {
    if stats == [] then 0 else TotalApplications(stats[..|stats| - 1]) + RowTotal(stats[|stats| - 1])
  }

  function TotalAccepted(stats: seq<StatRow>): nat {
    if stats == [] then 0 else TotalAccepted(stats[..|stats| - 1]) + stats[|stats| - 1].daNhan
  }

  function TotalRejected(stats: seq<StatRow>): nat {
    if stats == [] then 0 else TotalRejected(stats[..|stats| - 1]) + stats[|stats| - 1].tuChoi
  }

  function TotalPending(stats: seq<StatRow>): nat {
    if stats == [] then 0 else TotalPending(stats[..|stats| - 1]) + stats[|stats| - 1].choDuyet
  }

  /** The total of all applications is the sum of the three category
      totals shown in the summary cards and the chart. */
  lemma {:induction false} TotalsAgree(stats: seq<StatRow>)
    ensures TotalApplications(stats) == TotalAccepted(stats) + TotalRejected(stats) + TotalPending(stats)
  {
    if stats != [] {
      TotalsAgree(stats[..|stats| - 1]);
    }
  }

  /** Each category total is at most the total of all applications. */
  lemma CategoriesBounded(stats: seq<StatRow>)
    ensures TotalAccepted(stats) <= TotalApplications(stats)
    ensures TotalRejected(stats) <= TotalApplications(stats)
    ensures TotalPending(stats) <= TotalApplications(stats)
  {
    TotalsAgree(stats);
  }

  /** Appending a row adds its own total to the grand total: the table's
      row totals sum to `totalApplications`. */
  lemma {:induction false} TotalOfAppend(a: seq<StatRow>, b: seq<StatRow>)
    ensures TotalApplications(a + b) == TotalApplications(a) + TotalApplications(b)
  {
    if b != [] {
      assert (a + b)[..|a + b| - 1] == a + b[..|b| - 1];
      TotalOfAppend(a, b[..|b| - 1]);
    } else {
      assert a + b == a;
    }
  }

  /** `total > 0 ? Math.round((part / total) * 100) : 0`, computed exactly:
      `Math.round(x)` is the floor of `x + 1/2`. */
  function Percent(part: nat, total: nat): (p: nat)
    ensures total == 0 ==> p == 0
    ensures total > 0 ==> 2 * total * p <= 200 * part + total < 2 * total * (p + 1)
  {
    if total == 0 then 0
    else
      var p := (200 * part + total) / (2 * total);
      assert 2 * total * p <= 200 * part + total < 2 * total * (p + 1) by {
        DivBounds(200 * part + total, 2 * total);
      }
      p
  }

  lemma DivBounds(n: nat, d: nat)
    requires d > 0
    ensures d * (n / d) <= n < d * (n / d + 1)
  {
  }

  /** A share of the whole is at most 100 percent. */
  lemma PercentAtMost100(part: nat, total: nat)
    requires part <= total
    ensures Percent(part, total) <= 100
  {
    if total > 0 {
      var p := Percent(part, total);
      if p > 100 {
        assert 2 * total * p >= 2 * total * 101 by {
          MulMonotone(2 * total, 101, p);
        }
        assert false;
      }
    }
  }

  lemma MulMonotone(a: nat, b: nat, c: nat)
    requires b <= c
    ensures a * b <= a * c
  {
  }

  /** The three rounded shares of the summary table add up to 99, 100 or
      101 whenever there is at least one application, and all are 0
      otherwise. */
  lemma PercentagesSum(stats: seq<StatRow>)
    ensures var t := TotalApplications(stats);
            var s := Percent(TotalAccepted(stats), t) + Percent(TotalRejected(stats), t) + Percent(TotalPending(stats), t);
            (t == 0 ==> s == 0) && (t > 0 ==> 99 <= s <= 101)
  {
    TotalsAgree(stats);
    if TotalApplications(stats) > 0 {
      ThreeShares(TotalAccepted(stats), TotalRejected(stats), TotalPending(stats));
    }
  }

  lemma ThreeShares(a: nat, r: nat, q: nat)
    requires a + r + q > 0
    ensures var t := a + r + q; 99 <= Percent(a, t) + Percent(r, t) + Percent(q, t) <= 101
  {
    var t := a + r + q;
    var pa, pr, pq := Percent(a, t), Percent(r, t), Percent(q, t);
    var s := pa + pr + pq;
    // the three bracketings of Percent, added up
    Distribute(2 * t, pa, pr, pq);
    Distribute(2 * t, pa + 1, pr + 1, pq + 1);
    assert 2 * t * s <= 203 * t;
    assert 197 * t < 2 * t * s;
    if s > 101 {
      MulMonotone(2 * t, 102, s);
      assert false;
    }
    if s < 99 {
      MulMonotone(2 * t, s, 98);
      assert false;
    }
  }

  lemma Distribute(k: int, x: int, y: int, z: int)
    ensures k * (x + y + z) == k * x + k * y + k * z
  {
  }

  /** The state of the stats page after its mount effect. */
  datatype StatsView = StatsView(sent: seq<Request>, stats: seq<StatRow>, loading: bool, error: string)

  /** The mount effect: only an authenticated employer fetches; the rows
      are `response.data || []`; a failure keeps the empty list and sets the
      message. Nobody else fetches, and `loading` then stays true. */
  function AfterMount(isAuthenticated: bool, userType: Option<string>, answer: Outcome<StatsBody>): (v: StatsView)
    ensures v.sent == [GetJobStats] <==> isAuthenticated && userType == Some("EMPLOYER")
    ensures v.sent == [] <==> !(isAuthenticated && userType == Some("EMPLOYER"))
    ensures v.loading <==> v.sent == []
    ensures v.sent != [] && answer.Ok? ==>
              v.stats == (if answer.body.data.Some? then answer.body.data.value else []) && v.error == ""
    ensures v.sent != [] && !answer.Ok? ==>
              v.stats == [] && v.error == "Không thể tải thống kê công việc. Vui lòng thử lại sau."
    ensures v.sent == [] ==> v.stats == [] && v.error == ""
  {
    if isAuthenticated && userType == Some("EMPLOYER") then
      if answer.Ok? then
        StatsView([GetJobStats], if answer.body.data.Some? then answer.body.data.value else [], false, "")
      else StatsView([GetJobStats], [], false, "Không thể tải thống kê công việc. Vui lòng thử lại sau.")
    else StatsView([], [], true, "")
  }
}

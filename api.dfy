/** The job query layer of `services/api.js`: the client-side job filter,
    the payloads sent to the salary/date search endpoint, and the fallback
    chains of `jobService` and `employerService`. Each server answer is a
    parameter, so every chain is a total function of the answers it gets. */
module Api {
  import opened Js
  import opened Lists
  import opened Http
  import opened Jobs

  // ---------------------------------------------------------------------
  // clientSideJobFilter

  /** The positive bound a filter key imposes, if any:
      `filters[k] !== undefined && Number(filters[k]) > 0`. */
  function Bound(f: Object, k: string): (b: Option<int>)
    ensures b.Some? ==> b.value > 0
    ensures b.Some? <==> k in f && ToNumber(f[k]).Int? && ToNumber(f[k]).i > 0
  {
    if k in f && ToNumber(f[k]).Int? && ToNumber(f[k]).i > 0 then Some(ToNumber(f[k]).i) else None
  }

  /** The body of the `jobs.filter` callback in `clientSideJobFilter`; each
      `if` that returns false is one conjunct. Comparing a number with a
      string or boolean converts the latter with `Number`, and a missing
      salary compares false with everything. */
  predicate Passes(j: Job, f: Object, parse: DateParser) {
    && !(Bound(f, "salaryFrom").Some? && j.salaryFrom.Some? && j.salaryFrom.value < Bound(f, "salaryFrom").value)
    && !(Bound(f, "salaryTo").Some? && j.salaryTo.Some? && j.salaryTo.value > Bound(f, "salaryTo").value)
    && !(TruthyAt(f, "jcName") && f["jcName"] != Str("") && !(j.jobType.Some? && f["jcName"] == Str(j.jobType.value)))
    && !(TruthyAt(f, "postDate") && NumLess(TimeOfText(j.postDate, parse), TimeOfValue(f["postDate"], parse)))
  }

  /** `clientSideJobFilter(jobs, filters)` */
  function ClientSideJobFilter(jobs: seq<Job>, f: Object, parse: DateParser): (r: seq<Job>)
    ensures IsSubsequence(r, jobs)
    ensures forall j :: j in r <==> j in jobs && Passes(j, f, parse)
    ensures forall j :: multiset(r)[j] == if Passes(j, f, parse) then multiset(jobs)[j] else 0
  {
    var p := (j: Job) => Passes(j, f, parse);
    FilterIsSubsequence(jobs, p);
    forall j ensures j in Filter(jobs, p) <==> j in jobs && Passes(j, f, parse) {
      FilterMembership(jobs, p, j);
    }
    forall j ensures multiset(Filter(jobs, p))[j] == if p(j) then multiset(jobs)[j] else 0 {
      FilterCount(jobs, p, j);
    }
    Filter(jobs, p)
  }

  /** A job passes exactly when it meets every constraint the filter
      object states: a positive `salaryFrom` bound is at most the job's
      minimum salary, a positive `salaryTo` bound at least its maximum, a
      non-empty `jcName` is the job's type, and a `postDate` is not after the
      job's own post date. Missing salaries and unreadable dates never
      exclude a job. */
  lemma PassesMeansConstraints(j: Job, f: Object, parse: DateParser)
    ensures Passes(j, f, parse) <==>
      && (Bound(f, "salaryFrom").Some? && j.salaryFrom.Some? ==> j.salaryFrom.value >= Bound(f, "salaryFrom").value)
      && (Bound(f, "salaryTo").Some? && j.salaryTo.Some? ==> j.salaryTo.value <= Bound(f, "salaryTo").value)
      && (TruthyAt(f, "jcName") ==> j.jobType.Some? && f["jcName"] == Str(j.jobType.value))
      && (TruthyAt(f, "postDate") && TimeOfText(j.postDate, parse).Int? && TimeOfValue(f["postDate"], parse).Int?
          ==> TimeOfValue(f["postDate"], parse).i <= TimeOfText(j.postDate, parse).i)
  {
  }

  /** An empty filter object passes every job through unchanged. */
  lemma {:induction false} EmptyFilterIsIdentity(jobs: seq<Job>, parse: DateParser)
    ensures ClientSideJobFilter(jobs, map[], parse) == jobs
  {
    FilterAllPass(jobs, (j: Job) => Passes(j, map[], parse));
  }

  /** Bounds that are zero, negative or not numbers impose nothing. */
  lemma NonPositiveBoundsIgnored(jobs: seq<Job>, f: Object, parse: DateParser)
    requires "salaryFrom" in f && "salaryTo" in f
    requires ToNumber(f["salaryFrom"]).NaN? || ToNumber(f["salaryFrom"]).i <= 0
    requires ToNumber(f["salaryTo"]).NaN? || ToNumber(f["salaryTo"]).i <= 0
    ensures ClientSideJobFilter(jobs, f, parse) == ClientSideJobFilter(jobs, f - {"salaryFrom", "salaryTo"}, parse)
  {
    var g := f - {"salaryFrom", "salaryTo"};
    assert forall j :: Passes(j, f, parse) == Passes(j, g, parse) by {
      assert Bound(f, "salaryFrom").None? && Bound(g, "salaryFrom").None?;
      assert Bound(f, "salaryTo").None? && Bound(g, "salaryTo").None?;
      assert TruthyAt(f, "jcName") == TruthyAt(g, "jcName");
      assert TruthyAt(f, "postDate") == TruthyAt(g, "postDate");
    }
    FilterCongruent(jobs, (j: Job) => Passes(j, f, parse), (j: Job) => Passes(j, g, parse));
  }

  function SalaryJob(from: int, to: int): Job {
    Job(None, None, None, None, None, None, None, None, None, Some(from), Some(to), None, None)
  }

  /** Salary bounds 10M to 20M over five jobs: only the job whose whole range
      lies inside is kept. The 9M-15M job starts below the lower bound and
      so is dropped as well. */
  lemma SalaryRangeScenario(parse: DateParser)
    ensures ClientSideJobFilter(
      [SalaryJob(5000000, 8000000), SalaryJob(9000000, 15000000), SalaryJob(12000000, 18000000),
       SalaryJob(20000000, 25000000), SalaryJob(18000000, 22000000)],
      map["salaryFrom" := Num(Int(10000000)), "salaryTo" := Num(Int(20000000))], parse)
      == [SalaryJob(12000000, 18000000)]
  {
    var f := map["salaryFrom" := Num(Int(10000000)), "salaryTo" := Num(Int(20000000))];
    var jobs := [SalaryJob(5000000, 8000000), SalaryJob(9000000, 15000000), SalaryJob(12000000, 18000000),
                 SalaryJob(20000000, 25000000), SalaryJob(18000000, 22000000)];
    assert Bound(f, "salaryFrom") == Some(10000000);
    assert Bound(f, "salaryTo") == Some(20000000);
    assert !TruthyAt(f, "jcName") && !TruthyAt(f, "postDate");
    var p := (j: Job) => Passes(j, f, parse);
    assert !p(jobs[0]) && !p(jobs[1]) && p(jobs[2]) && !p(jobs[3]) && !p(jobs[4]);
    assert Filter(jobs[4..], p) == [];
    assert Filter(jobs[3..], p) == [];
    assert Filter(jobs[2..], p) == [jobs[2]];
    assert Filter(jobs[1..], p) == [jobs[2]];
  }

  // ---------------------------------------------------------------------
  // Payloads

  /** The payload of `filterJobs` and of the filter branch of `getMyJobs`. */
  function FilterPayload(f: Object): (p: Object)
    ensures p.Keys == {"action", "sortOrder", "salaryFrom", "salaryTo", "jcName", "filter"}
                      + (if TruthyAt(f, "postDate") then {"postDate"} else {})
    ensures p["action"] == (if TruthyAt(f, "action") then f["action"] else Str("get"))
    ensures p["sortOrder"] == (if TruthyAt(f, "sortOrder") then f["sortOrder"] else Str("DESC"))
    ensures p["salaryFrom"] == (if TruthyAt(f, "salaryFrom") then f["salaryFrom"] else Num(Int(0)))
    ensures p["salaryTo"] == (if TruthyAt(f, "salaryTo") then f["salaryTo"] else Num(Int(99999999999999)))
    ensures p["jcName"] == (if TruthyAt(f, "jcName") then f["jcName"] else Str(""))
    ensures p["filter"] == Bool(true)
    ensures "postDate" in p ==> p["postDate"] == f["postDate"]
  {
    var base := map[
      "action" := OrDefault(f, "action", Str("get")),
      "sortOrder" := OrDefault(f, "sortOrder", Str("DESC")),
      "salaryFrom" := OrDefault(f, "salaryFrom", Num(Int(0))),
      "salaryTo" := OrDefault(f, "salaryTo", Num(Int(99999999999999))),
      "jcName" := OrDefault(f, "jcName", Str("")),
      "filter" := Bool(true)];
    if TruthyAt(f, "postDate") then base["postDate" := f["postDate"]] else base
  }

  /** The payload of the keyword branch of `getMyJobs`. */
  function KeywordPayload(params: Object): (p: Object)
    requires "keyword" in params
    ensures p.Keys == {"action", "jcName", "sortOrder"}
    ensures p["action"] == Str("search") && p["jcName"] == params["keyword"]
    ensures p["sortOrder"] == (if TruthyAt(params, "sortOrder") then params["sortOrder"] else Str("DESC"))
  {
    map["action" := Str("search"), "jcName" := params["keyword"],
        "sortOrder" := OrDefault(params, "sortOrder", Str("DESC"))]
  }

  /** A filter object with no constraints still sends explicit bounds: the
      lower bound 0 and the upper bound 99999999999999, and no post date. */
  lemma EmptyFilterPayload()
    ensures FilterPayload(map[]) == map[
      "action" := Str("get"), "sortOrder" := Str("DESC"), "salaryFrom" := Num(Int(0)),
      "salaryTo" := Num(Int(99999999999999)), "jcName" := Str(""), "filter" := Bool(true)]
  {
  }

  // ---------------------------------------------------------------------
  // jobService

  /** `jobService.getAllJobs()` */
  function GetAllJobs(all: Outcome<JobsBody>): (c: Call<JobsBody>)
    ensures c.sent == [GetJobs]
    ensures c.reply == Settle(all)
  {
    Call([GetJobs], Settle(all))
  }

  /** The fallback shared by `filterJobs`, `searchJobsByKeyword` and
      `getJobById`: `GET /jobs`, then a computation on `response.data`, which
      throws a TypeError when the body has no `data`. */
  function OnAllJobs<R>(all: Outcome<JobsBody>, k: seq<Job> -> Reply<R>): (r: Reply<R>)
    ensures all.Ok? && all.body.data.Some? ==> r == k(all.body.data.value)
    ensures all.Ok? && all.body.data.None? ==> r == Rejected(TypeFailure)
    ensures !all.Ok? ==> r == Rejected(Settle(all).failure)
  {
    match all
    case Ok(b) => if b.data.Some? then k(b.data.value) else Rejected(TypeFailure)
    case Err(s, d) => Rejected(HttpFailure(s, d))
    case NoResponse => Rejected(NetworkFailure)
  }

  /** `jobService.filterJobs(filters)`: any failure of the server-side
      filter, whatever its status, falls back to filtering `GET /jobs` on
      the client; the promise rejects only if that request fails too. */
  function FilterJobs(f: Object, server: Outcome<JobsBody>, all: Outcome<JobsBody>, parse: DateParser): (c: Call<JobsBody>)
    ensures 0 < |c.sent| && c.sent[0] == SearchBySalaryDate(FilterPayload(f))
    ensures server.Ok? ==> c.sent == [SearchBySalaryDate(FilterPayload(f))] && c.reply == Resolved(server.body)
    ensures !server.Ok? ==> c.sent == [SearchBySalaryDate(FilterPayload(f)), GetJobs]
    ensures !server.Ok? && all.Ok? && all.body.data.Some? ==>
              c.reply == Resolved(JobsBody(Some(ClientSideJobFilter(all.body.data.value, f, parse))))
    ensures c.reply.Rejected? <==> !server.Ok? && !(all.Ok? && all.body.data.Some?)
  {
    var req := SearchBySalaryDate(FilterPayload(f));
    if server.Ok? then Call([req], Resolved(server.body))
    else Call([req, GetJobs], OnAllJobs(all, js => Resolved(JobsBody(Some(ClientSideJobFilter(js, f, parse))))))
  }

  /** `jobService.searchJobsByKeyword(keyword)`: only a 403 falls back, to a
      case-insensitive match over five fields of `GET /jobs`; every other
      error is rethrown unchanged. */
  function SearchJobsByKeyword(keyword: string, server: Outcome<JobsBody>, all: Outcome<JobsBody>): (c: Call<JobsBody>)
    ensures 0 < |c.sent| && c.sent[0] == SearchByKeyword(keyword)
    ensures c.sent == [SearchByKeyword(keyword), GetJobs] <==> HasStatus(server, 403)
    ensures !HasStatus(server, 403) ==> c.sent == [SearchByKeyword(keyword)] && c.reply == Settle(server)
    ensures HasStatus(server, 403) && all.Ok? && all.body.data.Some? ==>
              c.reply == Resolved(JobsBody(Some(Filter(all.body.data.value, (j: Job) => MatchesFive(j, ToLower(keyword))))))
    ensures HasStatus(server, 403) && all.Ok? && all.body.data.None? ==> c.reply == Rejected(TypeFailure)
    ensures HasStatus(server, 403) && !all.Ok? ==> c.reply == Rejected(Settle(all).failure)
    ensures c.reply.Rejected? <==> if HasStatus(server, 403) then !(all.Ok? && all.body.data.Some?) else !server.Ok?
  {
    if HasStatus(server, 403) then
      Call([SearchByKeyword(keyword), GetJobs],
           OnAllJobs(all, js => Resolved(JobsBody(Some(Filter(js, (j: Job) => MatchesFive(j, ToLower(keyword))))))))
    else Call([SearchByKeyword(keyword)], Settle(server))
  }

  /** `jobService.getJobById(id)`: only a 403 falls back, to the first job of
      `GET /jobs` whose `id`, `jobId` or `JobID` reads as the same text; no
      such job rejects with "Job not found". */
  function GetJobById(id: Value, server: Outcome<JobBody>, all: Outcome<JobsBody>): (c: Call<JobBody>)
    ensures !HasStatus(server, 403) ==> c.sent == [GetJob(id)] && c.reply == Settle(server)
    ensures HasStatus(server, 403) ==> c.sent == [GetJob(id), GetJobs]
    ensures HasStatus(server, 403) && all.Ok? && all.body.data.Some? ==>
              (c.reply == Rejected(JobNotFound) <==> forall j :: j in all.body.data.value ==> !HasId(j, id))
    ensures c.reply.Resolved? && HasStatus(server, 403) ==>
              && all.Ok? && all.body.data.Some? && c.reply.value.data.Some?
              && c.reply.value.data.value in all.body.data.value
              && HasId(c.reply.value.data.value, id)
              && FirstWithId(all.body.data.value, id, c.reply.value.data.value)
    ensures HasStatus(server, 403) && all.Ok? && all.body.data.None? ==> c.reply == Rejected(TypeFailure)
    ensures HasStatus(server, 403) && !all.Ok? ==> c.reply == Rejected(Settle(all).failure)
    ensures c.reply.Rejected? <==>
              if HasStatus(server, 403)
              then !(all.Ok? && all.body.data.Some?) || forall j :: j in all.body.data.value ==> !HasId(j, id)
              else !server.Ok?
  {
    if HasStatus(server, 403) then
      Call([GetJob(id), GetJobs], OnAllJobs(all, (js: seq<Job>) => FoundById(js, id)))
    else Call([GetJob(id)], Settle(server))
  }

  /** `j` is the first job of `js` with the id `id`: it sits at some index
      before which no job has that id. */
  predicate FirstWithId(js: seq<Job>, id: Value, j: Job) {
    exists i :: 0 <= i < |js| && js[i] == j && forall k :: 0 <= k < i ==> !HasId(js[k], id)
  }

  /** The `find` of the fallback: the first job with the id, or "Job not
      found". */
  function FoundById(js: seq<Job>, id: Value): (r: Reply<JobBody>)
    ensures r.Rejected? <==> forall j :: j in js ==> !HasId(j, id)
    ensures r.Rejected? ==> r.failure == JobNotFound
    ensures r.Resolved? ==> r.value.data.Some? && r.value.data.value in js && HasId(r.value.data.value, id)
                            && FirstWithId(js, id, r.value.data.value)
  {
    var p := (j: Job) => HasId(j, id);
    var found := Find(js, p);
    if found.Some? then
      FindIsFirst(js, p);
      Resolved(JobBody(Some(found.value)))
    else Rejected(JobNotFound)
  }

  // ---------------------------------------------------------------------
  // employerService.getMyJobs

  /** `{ data: [] }` */
  const NoJobs := JobsBody(Some([]))

  /** The keyword fallback of `getMyJobs`: case-insensitive match over six
      fields of the employer's jobs. A keyword that is not a string makes
      `toLowerCase` throw, which the fallback turns into no jobs. */
  function KeywordFallback(keyword: Value, mine: Outcome<JobsBody>): (b: JobsBody)
    ensures b.data.Some?
    ensures mine.Ok? && keyword.Str? ==>
              b.data.value == Filter(DataOrEmpty(mine.body), (j: Job) => MatchesSix(j, ToLower(keyword.s)))
    ensures !(mine.Ok? && keyword.Str?) ==> b == NoJobs
  {
    if mine.Ok? && keyword.Str? then
      JobsBody(Some(Filter(DataOrEmpty(mine.body), (j: Job) => MatchesSix(j, ToLower(keyword.s)))))
    else NoJobs
  }

  /** `employerService.getMyJobs(params)`. A truthy `keyword` takes the
      keyword branch whatever else is set; otherwise a non-empty object
      takes the filter branch; `{}` fetches every job with
      `includeAll=true`. The promise never rejects. */
  function GetMyJobs(params: Object, server: Outcome<JobsBody>, mine: Outcome<JobsBody>, parse: DateParser): (c: Call<JobsBody>)
    ensures c.reply.Resolved?
    ensures 0 < |c.sent|
    ensures TruthyAt(params, "keyword") ==> c.sent[0] == SearchBySalaryDate(KeywordPayload(params))
    ensures TruthyAt(params, "keyword") && !server.Ok? ==>
              c.sent == [SearchBySalaryDate(KeywordPayload(params)), GetEmployerJobs(false)]
              && c.reply.value == KeywordFallback(params["keyword"], mine)
    ensures !TruthyAt(params, "keyword") && |params| > 0 ==> c.sent[0] == SearchBySalaryDate(FilterPayload(params))
    ensures !TruthyAt(params, "keyword") && |params| > 0 && HasStatus(server, 500) && mine.Ok? ==>
              c.sent == [SearchBySalaryDate(FilterPayload(params)), GetEmployerJobs(false)]
              && c.reply.value.data == Some(ClientSideJobFilter(DataOrEmpty(mine.body), params, parse))
    ensures !TruthyAt(params, "keyword") && |params| > 0 && HasStatus(server, 500) && !mine.Ok? ==>
              c.sent == [SearchBySalaryDate(FilterPayload(params)), GetEmployerJobs(false)] && c.reply.value == NoJobs
    ensures !TruthyAt(params, "keyword") && |params| > 0 && !server.Ok? && !HasStatus(server, 500) ==>
              c.sent == [SearchBySalaryDate(FilterPayload(params))] && c.reply.value == NoJobs
    ensures params == map[] ==> c.sent == [GetEmployerJobs(true)]
    ensures params == map[] && mine.Ok? ==> c.reply.value == mine.body
    ensures params == map[] && !mine.Ok? ==> c.reply.value == NoJobs
    ensures server.Ok? && params != map[] ==> |c.sent| == 1 && c.reply.value == server.body
  {
    if TruthyAt(params, "keyword") then
      var req := SearchBySalaryDate(KeywordPayload(params));
      if server.Ok? then Call([req], Resolved(server.body))
      else Call([req, GetEmployerJobs(false)], Resolved(KeywordFallback(params["keyword"], mine)))
    else if |params| > 0 then
      var req := SearchBySalaryDate(FilterPayload(params));
      if server.Ok? then Call([req], Resolved(server.body))
      else if HasStatus(server, 500) then
        Call([req, GetEmployerJobs(false)],
             Resolved(if mine.Ok? then JobsBody(Some(ClientSideJobFilter(DataOrEmpty(mine.body), params, parse))) else NoJobs))
      else Call([req], Resolved(NoJobs))
    else
      Call([GetEmployerJobs(true)], Resolved(if mine.Ok? then mine.body else NoJobs))
  }

  /** With the server unreachable, both the keyword search and the plain
      listing of `getMyJobs` resolve to an empty list. */
  lemma MyJobsOfflineIsEmpty(params: Object, parse: DateParser)
    requires TruthyAt(params, "keyword") || params == map[]
    ensures GetMyJobs(params, NoResponse, NoResponse, parse).reply == Resolved(NoJobs)
  {
  }

  /** The filter branch of `getMyJobs` and `filterJobs` send the same payload
      for the same filter object. */
  lemma SamePayload(f: Object, s1: Outcome<JobsBody>, s2: Outcome<JobsBody>, m: Outcome<JobsBody>, parse: DateParser)
    requires !TruthyAt(f, "keyword") && |f| > 0
    ensures GetMyJobs(f, s1, m, parse).sent[0] == FilterJobs(f, s2, m, parse).sent[0]
  {
  }
}

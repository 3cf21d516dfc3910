/** A job record as the backend returns it, and the predicates over jobs
    that several screens share: keyword matching and identity by id. */
module Jobs {
  import opened Js
  import opened Lists

  /** A job as the client reads it. Every field may be missing from the
      server's JSON (`None` reads as `undefined`). The backend spells the
      identifier `id`, `jobId` or `JobID` depending on the endpoint. */
  datatype Job = Job(
    id: Option<Value>, jobId: Option<Value>, upperJobId: Option<Value>,
    jobName: Option<string>, description: Option<string>, level: Option<string>,
    contractType: Option<string>, location: Option<string>, jobType: Option<string>,
    salaryFrom: Option<int>, salaryTo: Option<int>,
    postDate: Option<string>, expireDate: Option<string>)

  /** A response body whose `data` is a list of jobs. */
  datatype JobsBody = JobsBody(data: Option<seq<Job>>)

  /** A response body whose `data` is one job. */
  datatype JobBody = JobBody(data: Option<Job>)

  /** `body.data || []` */
  function DataOrEmpty(b: JobsBody): (r: seq<Job>)
    ensures b.data.Some? ==> r == b.data.value
    ensures b.data.None? ==> r == []
  {
    if b.data.Some? then b.data.value else []
  }

  /** `field?.toLowerCase().includes(needle)`, where `needle` is already
      lower case. */
  predicate FieldHas(field: Option<string>, needle: string) {
    field.Some? && Includes(ToLower(field.value), needle)
  }

  /** The five-field match of the public search fallback: `jobName`,
      `description`, `level`, `contractType`, `location`. */
  predicate MatchesFive(j: Job, needle: string) {
    FieldHas(j.jobName, needle) || FieldHas(j.description, needle) || FieldHas(j.level, needle)
    || FieldHas(j.contractType, needle) || FieldHas(j.location, needle)
  }

  /** The six-field match of the employer and list fallbacks: the five
      fields above and `jobType`. */
  predicate MatchesSix(j: Job, needle: string) {
    MatchesFive(j, needle) || FieldHas(j.jobType, needle)
  }

  /** `job.id || job.jobId`: the identifier a list row is deleted by. */
  function RowId(j: Job): (r: Option<Value>)
    ensures j.id.Some? && Truthy(j.id.value) ==> r == j.id
    ensures !(j.id.Some? && Truthy(j.id.value)) ==> r == j.jobId
  {
    if j.id.Some? && Truthy(j.id.value) then j.id else j.jobId
  }

  /** `(job.id || job.jobId) !== id`: a NaN id equals nothing. */
  predicate KeepsRow(j: Job, id: Value) {
    !StrictEquals(RowId(j), Some(id))
  }

  /** `jobs.filter((job) => (job.id || job.jobId) !== id)`: the list
      left after deleting job `id`. */
  function WithoutRow(jobs: seq<Job>, id: Value): seq<Job> {
    Filter(jobs, (j: Job) => KeepsRow(j, id))
  }

  /** Deleting removes exactly the rows whose `id || jobId` is strictly
      equal to the id and keeps the rest in their order; an id that no
      row carries removes nothing. */
  lemma WithoutRowExactly(jobs: seq<Job>, id: Value)
    ensures forall j :: j in WithoutRow(jobs, id) <==> j in jobs && KeepsRow(j, id)
    ensures forall j :: multiset(WithoutRow(jobs, id))[j] == if KeepsRow(j, id) then multiset(jobs)[j] else 0
    ensures IsSubsequence(WithoutRow(jobs, id), jobs)
    ensures (forall j :: j in jobs ==> RowId(j) != Some(id)) ==> WithoutRow(jobs, id) == jobs
  {
    var p := (j: Job) => KeepsRow(j, id);
    forall j ensures j in Filter(jobs, p) <==> j in jobs && p(j) {
      FilterMembership(jobs, p, j);
    }
    forall j ensures multiset(Filter(jobs, p))[j] == if p(j) then multiset(jobs)[j] else 0 {
      FilterCount(jobs, p, j);
    }
    FilterIsSubsequence(jobs, p);
    if forall j :: j in jobs ==> RowId(j) != Some(id) {
      FilterAllPass(jobs, p);
    }
  }

  /** `v?.toString() === id.toString()` */
  predicate SameIdText(v: Option<Value>, id: Value) {
    v.Some? && ToText(v.value) == ToText(id)
  }

  /** The `find` predicate of the job-detail fallback. */
  predicate HasId(j: Job, id: Value) {
    SameIdText(j.id, id) || SameIdText(j.jobId, id) || SameIdText(j.upperJobId, id)
  }

  /** The empty needle matches every job that has a job name. */
  lemma EmptyNeedleMatchesNamed(j: Job)
    requires j.jobName.Some?
    ensures MatchesFive(j, "")
  {
    assert OccursAt(ToLower(j.jobName.value), "", 0);
  }
}

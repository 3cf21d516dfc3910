/** `JobList.jsx`: the job table shared by the public listing and the
    employer's own jobs. It sorts what it loads, searches and filters with
    fallbacks of its own on top of the service layer's, and lets an
    employer delete a job. */
module JobList {
  import opened Js
  import opened Http
  import opened Lists
  import opened Jobs
  import opened Api
  import opened AuthContext

  // ---------------------------------------------------------------------
  // sortJobs

  /** The fields `sortJobs` knows how to compare: the initial `postDate`,
      the two columns a click sorts by (`jobName`, `salaryFrom`), and the
      other salary and date field it converts the same way. */
  datatype SortField = PostDate | ExpireDate | SalaryFrom | SalaryTo | JobName

  /** `sortOrder`: "ASC" or "DESC". */
  datatype SortOrder = Asc | Desc

  function OrderText(o: SortOrder): string {
    if o == Asc then "ASC" else "DESC"
  }

  /** What `>` and `<` compare once `sortJobs` has converted a field: a
      number, a string, or a value every comparison is false for (`NaN`
      from an unreadable date, `undefined` for a missing name). */
  datatype Key = ByNumber(n: int) | ByText(s: string) | Unordered

  /** `Number(v) || 0` for a salary: a missing one counts as 0. */
  function SalaryOrZero(v: Option<int>): int {
    if v.Some? then v.value else 0
  }

  /** `new Date(v).getTime()` */
  function TimeKey(v: Option<string>, parse: DateParser): Key {
    var t := TimeOfText(v, parse);
    if t.Int? then ByNumber(t.i) else Unordered
  }

  /** The value `sortJobs` compares for a job. */
  function SortKey(field: SortField, parse: DateParser, j: Job): Key {
    match field
    case SalaryFrom => ByNumber(SalaryOrZero(j.salaryFrom))
    case SalaryTo => ByNumber(SalaryOrZero(j.salaryTo))
    case PostDate => TimeKey(j.postDate, parse)
    case ExpireDate => TimeKey(j.expireDate, parse)
    case JobName => if j.jobName.Some? then ByText(j.jobName.value) else Unordered
  }

  /** `a > b` on converted values. */
  predicate Greater(a: Key, b: Key) {
    if a.ByNumber? && b.ByNumber? then a.n > b.n
    else if a.ByText? && b.ByText? then LexLess(b.s, a.s)
    else false
  }

  /** The comparator returns 1, placing `a` after `b`: `a > b` for "ASC"
      and `a < b` otherwise. */
  predicate After(order: SortOrder, a: Key, b: Key) {
    if order == Asc then Greater(a, b) else Greater(b, a)
  }

  /** Two keys every comparison means something for: both numbers or both
      strings. */
  predicate Comparable(a: Key, b: Key) {
    (a.ByNumber? && b.ByNumber?) || (a.ByText? && b.ByText?)
  }

  /** `a` comes no later than `b` in ascending order: an independent
      statement of the order, numeric or lexicographic. */
  predicate AtMost(a: Key, b: Key) {
    if a.ByNumber? && b.ByNumber? then a.n <= b.n
    else if a.ByText? && b.ByText? then a.s == b.s || LexLess(a.s, b.s)
    else false
  }

  /** For comparable keys, not being greater is being at most. */
  lemma NotGreaterIsAtMost(a: Key, b: Key)
    requires Comparable(a, b)
    ensures !Greater(a, b) <==> AtMost(a, b)
  {
    if a.ByText? {
      if a.s == b.s {
        LexLessIrreflexive(a.s);
      } else {
        LexLessTotal(a.s, b.s);
        if LexLess(a.s, b.s) {
          LexLessAsymmetric(a.s, b.s);
        }
      }
    }
  }

  lemma LexLessAsymmetric(a: string, b: string)
    requires LexLess(a, b)
    ensures !LexLess(b, a)
  {
    if LexLess(b, a) {
      LexLessTransitive(a, b, a);
      LexLessIrreflexive(a);
    }
  }

  /** `AtMost` is transitive. */
  lemma AtMostTransitive(a: Key, b: Key, c: Key)
    requires AtMost(a, b) && AtMost(b, c)
    ensures AtMost(a, c)
  {
    if a.ByText? && a.s != b.s && b.s != c.s {
      LexLessTransitive(a.s, b.s, c.s);
    }
  }

  /** A key placed after another is never placed before it. */
  lemma AfterAsymmetric(order: SortOrder, a: Key, b: Key)
    requires After(order, a, b)
    ensures !After(order, b, a)
  {
    if a.ByText? && b.ByText? {
      if order == Asc { LexLessAsymmetric(b.s, a.s); } else { LexLessAsymmetric(a.s, b.s); }
    }
  }

  /** Not placing after is transitive among comparable keys. */
  lemma NotAfterTransitive(order: SortOrder, a: Key, b: Key, c: Key)
    requires Comparable(a, b) && Comparable(b, c)
    requires !After(order, a, b) && !After(order, b, c)
    ensures !After(order, a, c)
  {
    if order == Asc {
      NotGreaterIsAtMost(a, b);
      NotGreaterIsAtMost(b, c);
      AtMostTransitive(a, b, c);
      NotGreaterIsAtMost(a, c);
    } else {
      NotGreaterIsAtMost(b, a);
      NotGreaterIsAtMost(c, b);
      AtMostTransitive(c, b, a);
      NotGreaterIsAtMost(c, a);
    }
  }

  /** Insertion of one job: it goes after every job the comparator places
      it after. `Array.prototype.sort` leaves its algorithm open; this
      model uses insertion. */
  function Insert(order: SortOrder, key: Job -> Key, x: Job, r: seq<Job>): seq<Job> {
    if r == [] then [x]
    else if After(order, key(x), key(r[0])) then [r[0]] + Insert(order, key, x, r[1..])
    else [x] + r
  }

  /** `[...data].sort(comparator)`: a sorted copy, the input untouched. */
  function SortBy(order: SortOrder, key: Job -> Key, s: seq<Job>): seq<Job> {
    if s == [] then [] else Insert(order, key, s[0], SortBy(order, key, s[1..]))
  }

  /** `sortJobs(data, field, order)` */
  function SortJobs(data: seq<Job>, field: SortField, order: SortOrder, parse: DateParser): seq<Job> {
    SortBy(order, (j: Job) => SortKey(field, parse, j), data)
  }

  /** No job is placed before one the comparator puts it after. */
  predicate Sorted(order: SortOrder, key: Job -> Key, r: seq<Job>) {
    forall i, j :: 0 <= i < j < |r| ==> !After(order, key(r[i]), key(r[j]))
  }

  /** Every key is a string (`textual`) or every key is a number. */
  predicate OfKind(key: Job -> Key, textual: bool, s: seq<Job>) {
    forall e :: e in s ==> if textual then key(e).ByText? else key(e).ByNumber?
  }

  lemma {:induction false} InsertPermutes(order: SortOrder, key: Job -> Key, x: Job, r: seq<Job>)
    ensures multiset(Insert(order, key, x, r)) == multiset(r) + multiset{x}
  {
    if r != [] && After(order, key(x), key(r[0])) {
      InsertPermutes(order, key, x, r[1..]);
      assert r == [r[0]] + r[1..];
    }
  }

  /** The result holds exactly the jobs of the input, as many times each. */
  lemma {:induction false} SortPermutes(order: SortOrder, key: Job -> Key, s: seq<Job>)
    ensures multiset(SortBy(order, key, s)) == multiset(s)
  {
    if s != [] {
      SortPermutes(order, key, s[1..]);
      InsertPermutes(order, key, s[0], SortBy(order, key, s[1..]));
      assert s == [s[0]] + s[1..];
    }
  }

  /** What insertion holds: the inserted job and those it was inserted into. */
  lemma {:induction false} InsertElements(order: SortOrder, key: Job -> Key, x: Job, r: seq<Job>)
    ensures forall e :: e in Insert(order, key, x, r) <==> e == x || e in r
  {
    if r != [] && After(order, key(x), key(r[0])) {
      InsertElements(order, key, x, r[1..]);
      assert forall e :: e in r <==> e == r[0] || e in r[1..];
    }
  }

  /** A job that no later job is placed after can go in front. */
  lemma PrependSorted(order: SortOrder, key: Job -> Key, y: Job, u: seq<Job>)
    requires Sorted(order, key, u)
    requires forall e :: e in u ==> !After(order, key(y), key(e))
    ensures Sorted(order, key, [y] + u)
  {
    var v := [y] + u;
    forall i, j | 0 <= i < j < |v| ensures !After(order, key(v[i]), key(v[j])) {
      assert v[j] == u[j - 1];
      if i > 0 { assert v[i] == u[i - 1]; }
    }
  }

  lemma {:induction false} InsertSorted(order: SortOrder, key: Job -> Key, textual: bool, x: Job, r: seq<Job>)
    requires Sorted(order, key, r)
    requires OfKind(key, textual, [x] + r)
    ensures Sorted(order, key, Insert(order, key, x, r))
  {
    if r != [] {
      var y, t := r[0], r[1..];
      assert y in [x] + r && x in [x] + r;
      if After(order, key(x), key(y)) {
        assert Sorted(order, key, t);
        assert forall e :: e in [x] + t ==> e in [x] + r;
        InsertSorted(order, key, textual, x, t);
        InsertElements(order, key, x, t);
        forall e | e in Insert(order, key, x, t) ensures !After(order, key(y), key(e)) {
          if e == x {
            AfterAsymmetric(order, key(x), key(y));
          } else {
            var k :| 0 <= k < |t| && t[k] == e;
            assert r[k + 1] == e;
          }
        }
        PrependSorted(order, key, y, Insert(order, key, x, t));
      } else {
        forall e | e in r ensures !After(order, key(x), key(e)) {
          var k :| 0 <= k < |r| && r[k] == e;
          if k > 0 {
            assert e in [x] + r;
            NotAfterTransitive(order, key(x), key(y), key(e));
          }
        }
        PrependSorted(order, key, x, r);
      }
    }
  }

  /** With comparable keys the result is in comparator order. */
  lemma {:induction false} SortSorted(order: SortOrder, key: Job -> Key, textual: bool, s: seq<Job>)
    requires OfKind(key, textual, s)
    ensures Sorted(order, key, SortBy(order, key, s))
  {
    if s != [] {
      var t := s[1..];
      assert forall e :: e in t ==> e in s;
      SortSorted(order, key, textual, t);
      var r := SortBy(order, key, t);
      SortPermutes(order, key, t);
      forall e | e in [s[0]] + r ensures if textual then key(e).ByText? else key(e).ByNumber? {
        if e != s[0] {
          assert e in multiset(r);
          assert e in t;
        }
      }
      InsertSorted(order, key, textual, s[0], r);
    }
  }

  /** The jobs whose keys `sortJobs` can order among themselves: salaries
      always (a missing one is 0), names when every job has one, dates when
      every date reads as a time. */
  predicate Orderable(data: seq<Job>, field: SortField, parse: DateParser) {
    match field
    case SalaryFrom => true
    case SalaryTo => true
    case JobName => forall j :: j in data ==> j.jobName.Some?
    case PostDate => forall j :: j in data ==> TimeOfText(j.postDate, parse).Int?
    case ExpireDate => forall j :: j in data ==> TimeOfText(j.expireDate, parse).Int?
  }

  /** `sortJobs` returns a permutation of its input; when the keys can be
      ordered it is nondecreasing for "ASC" and nonincreasing for "DESC"
      (equal keys in either order). */
  lemma SortJobsSpec(data: seq<Job>, field: SortField, order: SortOrder, parse: DateParser)
    ensures multiset(SortJobs(data, field, order, parse)) == multiset(data)
    ensures |SortJobs(data, field, order, parse)| == |data|
    ensures Orderable(data, field, parse) ==>
              var r := SortJobs(data, field, order, parse);
              forall i, j :: 0 <= i < j < |r| ==>
                if order == Asc then AtMost(SortKey(field, parse, r[i]), SortKey(field, parse, r[j]))
                else AtMost(SortKey(field, parse, r[j]), SortKey(field, parse, r[i]))
  {
    var key := (j: Job) => SortKey(field, parse, j);
    var r := SortJobs(data, field, order, parse);
    SortPermutes(order, key, data);
    assert |r| == |multiset(r)| == |multiset(data)| == |data|;
    if Orderable(data, field, parse) {
      var textual := field == JobName;
      assert OfKind(key, textual, data);
      SortSorted(order, key, textual, data);
      forall i, j | 0 <= i < j < |r|
        ensures if order == Asc then AtMost(key(r[i]), key(r[j])) else AtMost(key(r[j]), key(r[i]))
      {
        assert r[i] in multiset(data) && r[j] in multiset(data);
        assert r[i] in data && r[j] in data;
        assert !After(order, key(r[i]), key(r[j]));
        if order == Asc {
          NotGreaterIsAtMost(key(r[i]), key(r[j]));
        } else {
          NotGreaterIsAtMost(key(r[j]), key(r[i]));
        }
      }
    }
  }

  /** Sorting by salary needs no precondition: the list comes out ordered
      by salary, missing ones counting as 0. */
  lemma SalarySortOrdered(data: seq<Job>, order: SortOrder, parse: DateParser)
    ensures var r := SortJobs(data, SalaryFrom, order, parse);
            forall i, j :: 0 <= i < j < |r| ==>
              if order == Asc then SalaryOrZero(r[i].salaryFrom) <= SalaryOrZero(r[j].salaryFrom)
              else SalaryOrZero(r[i].salaryFrom) >= SalaryOrZero(r[j].salaryFrom)
  {
    SortJobsSpec(data, SalaryFrom, order, parse);
  }

  // ---------------------------------------------------------------------
  // handleSort

  /** The sort after a click on a column: the same column flips the order,
      another column is sorted by, newest (largest) first. */
  function NextSort(field: SortField, order: SortOrder, clicked: SortField): (r: (SortField, SortOrder))
    ensures r.0 == clicked
    ensures clicked == field ==> r.1 != order
    ensures clicked != field ==> r.1 == Desc
  {
    if clicked == field then (field, if order == Asc then Desc else Asc) else (clicked, Desc)
  }

  /** Two clicks on the sorted column restore the sort. */
  lemma NextSortTwice(field: SortField, order: SortOrder)
    ensures var (f, o) := NextSort(field, order, field); NextSort(f, o, field) == (field, order)
  {
  }

  // ---------------------------------------------------------------------
  // Who is looking, and where

  /** `isAuthenticated && currentUser?.userType === "EMPLOYER"` */
  predicate IsEmployer(authenticated: bool, user: Option<User>) {
    authenticated && user.Some? && user.value.userType == Some("EMPLOYER")
  }

  /** `employerOnly || pathname.includes("/employer/jobs") || pathname === "/my-jobs"` */
  predicate IsMyJobsPage(employerOnly: bool, path: string) {
    employerOnly || Includes(path, "/employer/jobs") || path == "/my-jobs"
  }

  // ---------------------------------------------------------------------
  // The requests behind each handler

  /** The parameters the employer's listing asks `getMyJobs` with. */
  function ListParams(order: SortOrder): Object {
    map["action" := Str("get"), "sortOrder" := Str(OrderText(order)), "includeAll" := Bool(true)]
  }

  /** The load of `fetchJobs`: the employer's own jobs on the "my jobs"
      page, every job otherwise. */
  function ListCall(employerView: bool, order: SortOrder, primary: Outcome<JobsBody>, fallback: Outcome<JobsBody>,
                    parse: DateParser): Call<JobsBody> {
    if employerView then GetMyJobs(ListParams(order), primary, fallback, parse) else GetAllJobs(primary)
  }

  /** The employer's listing never fails, and it goes through the filter
      endpoint, since its parameters are not empty and carry no keyword. */
  lemma EmployerListing(order: SortOrder, primary: Outcome<JobsBody>, fallback: Outcome<JobsBody>, parse: DateParser)
    ensures ListCall(true, order, primary, fallback, parse).reply.Resolved?
    ensures ListCall(true, order, primary, fallback, parse).sent[0] == SearchBySalaryDate(FilterPayload(ListParams(order)))
  {
    var p := ListParams(order);
    assert !TruthyAt(p, "keyword");
    assert "action" in p && |p| > 0;
  }

  /** The filter endpoint is sent the chosen order, and `includeAll` never
      reaches the server. */
  lemma ListingPayload(order: SortOrder)
    ensures "includeAll" !in FilterPayload(ListParams(order))
    ensures FilterPayload(ListParams(order))["sortOrder"] == Str(OrderText(order))
  {
    assert TruthyAt(ListParams(order), "sortOrder");
  }

  /** The fallback list of the search and filter handlers: `getMyJobs()`
      for the employer, `getAllJobs()` otherwise. */
  function ListAll(employerView: bool, retry: Outcome<JobsBody>, parse: DateParser): Call<JobsBody> {
    if employerView then GetMyJobs(map[], retry, retry, parse) else GetAllJobs(retry)
  }

  /** The first attempt of `handleSearch`. */
  function SearchCall(employerView: bool, keyword: string, server: Outcome<JobsBody>, fallback: Outcome<JobsBody>,
                      parse: DateParser): Call<JobsBody> {
    if employerView then GetMyJobs(map["keyword" := Str(keyword)], server, fallback, parse)
    else SearchJobsByKeyword(keyword, server, fallback)
  }

  /** The first attempt of `handleFilter`. */
  function FilterCall(employerView: bool, f: Object, server: Outcome<JobsBody>, fallback: Outcome<JobsBody>,
                      parse: DateParser): Call<JobsBody> {
    if employerView then GetMyJobs(f, server, fallback, parse) else FilterJobs(f, server, fallback, parse)
  }

  /** The search fallback of `handleSearch`: the jobs one of whose six text
      fields contains the lower-cased keyword. */
  function LocalSearch(jobs: seq<Job>, keyword: string): (r: seq<Job>)
    ensures IsSubsequence(r, jobs)
    ensures forall j :: j in r <==> j in jobs && MatchesSix(j, ToLower(keyword))
    ensures forall j :: multiset(r)[j] == if MatchesSix(j, ToLower(keyword)) then multiset(jobs)[j] else 0
  {
    var p := (j: Job) => MatchesSix(j, ToLower(keyword));
    FilterIsSubsequence(jobs, p);
    forall j ensures j in Filter(jobs, p) <==> j in jobs && p(j) {
      FilterMembership(jobs, p, j);
    }
    forall j ensures multiset(Filter(jobs, p))[j] == if p(j) then multiset(jobs)[j] else 0 {
      FilterCount(jobs, p, j);
    }
    Filter(jobs, p)
  }

  /** The employer's own search and filter never need the list's fallback:
      `getMyJobs` always resolves. */
  lemma EmployerNeverFallsBack(keyword: string, f: Object, server: Outcome<JobsBody>, fallback: Outcome<JobsBody>, parse: DateParser)
    ensures SearchCall(true, keyword, server, fallback, parse).reply.Resolved?
    ensures FilterCall(true, f, server, fallback, parse).reply.Resolved?
  {
  }

  // ---------------------------------------------------------------------
  // displayFilters

  /** Whether `handleFilter` copies key `k` of the filter into the badges:
      a salary unless it is the number 0, a truthy post date, a non-empty
      job category. */
  predicate Displayed(f: Object, k: string)
    requires k in f
  {
    || (k in {"salaryFrom", "salaryTo"} && f[k] != Num(Int(0)))
    || (k in {"postDate", "jcName"} && Truthy(f[k]))
  }

  /** The badges `handleFilter` stores in `activeFilters`. */
  function DisplayFilters(f: Object): (d: Object)
    ensures d.Keys <= {"salaryFrom", "salaryTo", "postDate", "jcName"}
    ensures "salaryFrom" in d <==> "salaryFrom" in f && f["salaryFrom"] != Num(Int(0))
    ensures "salaryTo" in d <==> "salaryTo" in f && f["salaryTo"] != Num(Int(0))
    ensures "postDate" in d <==> TruthyAt(f, "postDate")
    ensures "jcName" in d <==> TruthyAt(f, "jcName")
    ensures forall k :: k in d ==> k in f && d[k] == f[k]
  {
    map k | k in f && Displayed(f, k) :: f[k]
  }

  /** A salary given as the text "0", as the filter dialog sends it, still
      gets a badge; only the number 0 is left out. */
  lemma ZeroTextDisplayed(f: Object)
    requires "salaryFrom" in f && f["salaryFrom"] == Str("0")
    ensures "salaryFrom" in DisplayFilters(f)
  {
  }

  /** The `displayFilters` object of `handleFilter`, one key at a time. */
  method BuildDisplay(f: Object) returns (display: Object)
    ensures display == DisplayFilters(f)
  {
    display := map[];
    if "salaryFrom" in f && f["salaryFrom"] != Num(Int(0)) {
      display := display["salaryFrom" := f["salaryFrom"]];
    }
    if "salaryTo" in f && f["salaryTo"] != Num(Int(0)) {
      display := display["salaryTo" := f["salaryTo"]];
    }
    if TruthyAt(f, "postDate") {
      display := display["postDate" := f["postDate"]];
    }
    if TruthyAt(f, "jcName") {
      display := display["jcName" := f["jcName"]];
    }
  }

  const FetchFailed := "Không thể tải danh sách công việc. Vui lòng thử lại sau."
  const SearchServerFailed := "Lỗi hệ thống: Không thể tìm kiếm từ máy chủ. Đang thử tìm kiếm cục bộ..."
  const LocalSearchUsed := "Sử dụng tìm kiếm cục bộ. Kết quả có thể không đầy đủ."
  const SearchFailed := "Không thể tìm kiếm. Vui lòng thử lại sau."
  const FilterServerFailed := "Lỗi hệ thống: Không thể lọc công việc từ máy chủ. Đang cố gắng lọc dữ liệu cục bộ..."
  const FilterFailed := "Không thể lấy dữ liệu từ máy chủ. Vui lòng thử lại sau."
  const Deleted := "Đã xóa công việc thành công!"
  const DeleteFailed := "Không thể xóa công việc. Vui lòng thử lại."

  class Board {
    const employerView: bool
    const isEmployer: bool
    const parse: DateParser
    var jobs: seq<Job>
    var error: string
    var successMessage: string
    var loading: bool
    var showFilterModal: bool
    var sortField: SortField
    var sortOrder: SortOrder
    var activeFilters: Object
    var totalJobs: int

    /** The component's state on mount; `employerView` is
      `isEmployer && isMyJobsPage`. */
    constructor (employerOnly: bool, path: string, authenticated: bool, user: Option<User>, parse: DateParser)
      ensures isEmployer == IsEmployer(authenticated, user)
      ensures employerView == (IsEmployer(authenticated, user) && IsMyJobsPage(employerOnly, path))
      ensures this.parse == parse
      ensures jobs == [] && error == "" && successMessage == "" && loading && !showFilterModal
      ensures sortField == PostDate && sortOrder == Desc && activeFilters == map[] && totalJobs == 0
    {
      isEmployer := IsEmployer(authenticated, user);
      employerView := IsEmployer(authenticated, user) && IsMyJobsPage(employerOnly, path);
      this.parse := parse;
      jobs := [];
      error := "";
      successMessage := "";
      loading := true;
      showFilterModal := false;
      sortField := PostDate;
      sortOrder := Desc;
      activeFilters := map[];
      totalJobs := 0;
    }

    /** `fetchJobs`: a load replaces the list with its jobs in the current
      sort; a failed one empties the list. `call` is how the load settled:
      `ListCall(employerView, sortOrder, …)`. */
    method FetchJobs(call: Call<JobsBody>) returns (sent: seq<Request>)
      modifies this
      ensures sent == call.sent
      ensures call.reply.Resolved? ==>
                jobs == SortJobs(DataOrEmpty(call.reply.value), sortField, sortOrder, parse) && error == ""
      ensures call.reply.Rejected? ==> jobs == [] && error == FetchFailed
      ensures totalJobs == |jobs| && !loading
      ensures sortField == old(sortField) && sortOrder == old(sortOrder) && activeFilters == old(activeFilters)
      ensures successMessage == old(successMessage) && showFilterModal == old(showFilterModal)
    {
      loading := true;
      error := "";
      sent := call.sent;
      if call.reply.Resolved? {
        var data := DataOrEmpty(call.reply.value);
        var sorted := if |data| > 0 then SortJobs(data, sortField, sortOrder, parse) else [];
        jobs := sorted;
        totalJobs := |sorted|;
      } else {
        error := FetchFailed;
        jobs := [];
        totalJobs := 0;
      }
      loading := false;
    }

    /** `handleSort`: picks the new sort (see `NextSort`); the effect on
      `sortField` and `sortOrder` then runs `fetchJobs` again. */
    method HandleSort(clicked: SortField)
      modifies this
      ensures (sortField, sortOrder) == NextSort(old(sortField), old(sortOrder), clicked)
      ensures jobs == old(jobs) && error == old(error) && loading == old(loading) && totalJobs == old(totalJobs)
      ensures activeFilters == old(activeFilters) && successMessage == old(successMessage)
      ensures showFilterModal == old(showFilterModal)
    {
      if clicked == sortField {
        sortOrder := if sortOrder == Asc then Desc else Asc;
      } else {
        sortField := clicked;
        sortOrder := Desc;
      }
    }

    /** `handleDelete`: only an employer can delete, and only after
      confirming; a deletion the server accepts drops every row whose
      `id || jobId` is the id. `totalJobs` is left as it was. */
    method HandleDelete(id: Value, confirmed: bool, answer: Outcome<Object>) returns (sent: seq<Request>)
      modifies this
      ensures !(isEmployer && confirmed) ==> sent == [] && jobs == old(jobs) && error == old(error)
                                             && successMessage == old(successMessage)
      ensures isEmployer && confirmed ==> sent == [DeleteJob(id)]
      ensures isEmployer && confirmed && answer.Ok? ==>
                jobs == WithoutRow(old(jobs), id) && successMessage == Deleted && error == old(error)
      ensures isEmployer && confirmed && !answer.Ok? ==>
                jobs == old(jobs) && successMessage == old(successMessage) && error == DeleteFailed
      ensures totalJobs == old(totalJobs) && loading == old(loading) && activeFilters == old(activeFilters)
      ensures sortField == old(sortField) && sortOrder == old(sortOrder) && showFilterModal == old(showFilterModal)
    {
      if !isEmployer || !confirmed {
        return [];
      }
      sent := [DeleteJob(id)];
      if answer.Ok? {
        successMessage := Deleted;
        jobs := WithoutRow(jobs, id);
      } else {
        error := DeleteFailed;
      }
    }

    /** The timer set after a deletion: the success message goes away. */
    method ClearSuccess()
      modifies this
      ensures successMessage == ""
      ensures jobs == old(jobs) && error == old(error) && loading == old(loading) && totalJobs == old(totalJobs)
      ensures activeFilters == old(activeFilters) && sortField == old(sortField) && sortOrder == old(sortOrder)
      ensures showFilterModal == old(showFilterModal)
    {
      successMessage := "";
    }

    /** `handleSearch`: a search that fails on the server is retried on the
      full list, matched locally; only when that fails too does the list
      stay as it was, with the search's message. `first` is how the search
      settled (`SearchCall(employerView, keyword, …)`), `second` how the
      retry would (`ListAll(employerView, …)`). */
    method HandleSearch(keyword: string, first: Call<JobsBody>, second: Call<JobsBody>)
      returns (sent: seq<Request>)
      modifies this
      ensures sent == first.sent + (if first.reply.Resolved? then [] else second.sent)
      ensures first.reply.Resolved? ==> jobs == DataOrEmpty(first.reply.value) && error == ""
      ensures first.reply.Rejected? && second.reply.Resolved? ==>
                jobs == LocalSearch(DataOrEmpty(second.reply.value), keyword) && error == LocalSearchUsed
      ensures first.reply.Resolved? || second.reply.Resolved? ==>
                totalJobs == |jobs| && activeFilters == old(activeFilters)["keyword" := Str(keyword)]
      ensures first.reply.Rejected? && second.reply.Rejected? ==>
                jobs == old(jobs) && totalJobs == old(totalJobs) && activeFilters == old(activeFilters)
                && error == SearchFailed
      ensures !loading && successMessage == old(successMessage) && showFilterModal == old(showFilterModal)
      ensures sortField == old(sortField) && sortOrder == old(sortOrder)
    {
      loading := true;
      error := "";
      sent := first.sent;
      var found: Option<seq<Job>> := None;
      if first.reply.Resolved? {
        error := "";
        found := Some(DataOrEmpty(first.reply.value));
      } else {
        error := SearchServerFailed;
        sent := sent + second.sent;
        if second.reply.Resolved? {
          found := Some(LocalSearch(DataOrEmpty(second.reply.value), keyword));
          error := LocalSearchUsed;
        }
      }
      if found.Some? {
        jobs := found.value;
        totalJobs := |found.value|;
        activeFilters := activeFilters["keyword" := Str(keyword)];
      } else {
        error := SearchFailed;
      }
      loading := false;
    }

    /** `handleFilter`: the badges are replaced first, whatever happens to
      the request; a filter that fails on the server falls back to the
      whole list, and only when that fails too does the list stay as it
      was. `first` is how the filter settled (`FilterCall(employerView, f,
      …)`), `second` how the retry would (`ListAll(employerView, …)`). */
    method HandleFilter(f: Object, first: Call<JobsBody>, second: Call<JobsBody>)
      returns (sent: seq<Request>)
      modifies this
      ensures activeFilters == DisplayFilters(f)
      ensures sent == first.sent + (if first.reply.Resolved? then [] else second.sent)
      ensures first.reply.Resolved? ==> jobs == DataOrEmpty(first.reply.value)
      ensures first.reply.Rejected? && second.reply.Resolved? ==> jobs == DataOrEmpty(second.reply.value)
      ensures first.reply.Resolved? || second.reply.Resolved? ==>
                totalJobs == |jobs| && !showFilterModal && error == ""
      ensures first.reply.Rejected? && second.reply.Rejected? ==>
                jobs == old(jobs) && totalJobs == old(totalJobs) && showFilterModal == old(showFilterModal)
                && error == FilterFailed
      ensures !loading && successMessage == old(successMessage)
      ensures sortField == old(sortField) && sortOrder == old(sortOrder)
    {
      loading := true;
      error := "";
      var display := BuildDisplay(f);
      activeFilters := display;
      sent := first.sent;
      var found: Option<seq<Job>> := None;
      if first.reply.Resolved? {
        found := Some(DataOrEmpty(first.reply.value));
      } else {
        error := FilterServerFailed;
        sent := sent + second.sent;
        if second.reply.Resolved? {
          found := Some(DataOrEmpty(second.reply.value));
        }
      }
      if found.Some? {
        jobs := found.value;
        totalJobs := |found.value|;
        showFilterModal := false;
        error := "";
      } else {
        error := FilterFailed;
      }
      loading := false;
    }

    /** `clearFilters`: no badges, and the list is loaded again. */
    method ClearFilters(call: Call<JobsBody>) returns (sent: seq<Request>)
      modifies this
      ensures activeFilters == map[]
      ensures sent == call.sent
      ensures call.reply.Resolved? ==>
                jobs == SortJobs(DataOrEmpty(call.reply.value), sortField, sortOrder, parse) && error == ""
      ensures call.reply.Rejected? ==> jobs == [] && error == FetchFailed
      ensures totalJobs == |jobs| && !loading
      ensures sortField == old(sortField) && sortOrder == old(sortOrder)
      ensures successMessage == old(successMessage) && showFilterModal == old(showFilterModal)
    {
      activeFilters := map[];
      sent := FetchJobs(call);
    }
  }
}

/** `JobList.js`: the older job list. It has no sorting, search or
    filters; an employer always sees their own jobs, and a failed load
    keeps what was shown. */
module JobListJs {
  import opened Js
  import opened Http
  import opened Jobs
  import opened Api
  import opened AuthContext
  import JobList

  const FetchFailed := "Failed to fetch jobs. Please try again later."
  const Deleted := "Job deleted successfully!"
  const DeleteFailed := "Failed to delete job. Please try again."

  /** The load of `fetchJobs`: `getMyJobs()` for an employer,
      `getAllJobs()` for everyone else. The employer's load cannot fail. */
  function Load(isEmployer: bool, all: Outcome<JobsBody>, mine: Outcome<JobsBody>, parse: DateParser): (c: Call<JobsBody>)
    ensures isEmployer ==> c.sent == [GetEmployerJobs(true)] && c.reply.Resolved?
    ensures isEmployer ==> c.reply.value == if mine.Ok? then mine.body else NoJobs
    ensures !isEmployer ==> c.sent == [GetJobs] && c.reply == Settle(all)
  {
    if isEmployer then GetMyJobs(map[], all, mine, parse) else GetAllJobs(all)
  }

  class Listing {
    const isEmployer: bool
    const parse: DateParser
    var jobs: seq<Job>
    var error: string
    var successMessage: string
    var loading: bool

    /** The component on mount; `employerOnly` is `isEmployer` itself. */
    constructor (authenticated: bool, user: Option<User>, parse: DateParser)
      ensures isEmployer == JobList.IsEmployer(authenticated, user) && this.parse == parse
      ensures jobs == [] && error == "" && successMessage == "" && loading
    {
      isEmployer := JobList.IsEmployer(authenticated, user);
      this.parse := parse;
      jobs := [];
      error := "";
      successMessage := "";
      loading := true;
    }

    /** `fetchJobs`: a load replaces the list with `response.data || []`
      and clears the error; a failed one keeps the list and shows why. */
    method FetchJobs(all: Outcome<JobsBody>, mine: Outcome<JobsBody>) returns (sent: seq<Request>)
      modifies this
      ensures var call := Load(isEmployer, all, mine, parse);
              && sent == call.sent
              && (call.reply.Resolved? ==> jobs == DataOrEmpty(call.reply.value) && error == "")
              && (call.reply.Rejected? ==> jobs == old(jobs) && error == FetchFailed)
      ensures isEmployer ==> error == ""
      ensures !loading && successMessage == old(successMessage)
    {
      loading := true;
      var call := Load(isEmployer, all, mine, parse);
      sent := call.sent;
      if call.reply.Resolved? {
        jobs := DataOrEmpty(call.reply.value);
        error := "";
      } else {
        error := FetchFailed;
      }
      loading := false;
    }

    /** `handleDelete`: only an employer can delete, and only after
      confirming; a deletion the server accepts drops every row whose
      `id || jobId` is the id (see `WithoutRow`). */
    method HandleDelete(id: Value, confirmed: bool, answer: Outcome<Object>) returns (sent: seq<Request>)
      modifies this
      ensures !(isEmployer && confirmed) ==> sent == [] && jobs == old(jobs) && error == old(error)
                                             && successMessage == old(successMessage)
      ensures isEmployer && confirmed ==> sent == [DeleteJob(id)]
      ensures isEmployer && confirmed && answer.Ok? ==>
                jobs == WithoutRow(old(jobs), id) && successMessage == Deleted && error == old(error)
      ensures isEmployer && confirmed && !answer.Ok? ==>
                jobs == old(jobs) && successMessage == old(successMessage) && error == DeleteFailed
      ensures loading == old(loading)
    {
      if !isEmployer || !confirmed {
        return [];
      }
      sent := [DeleteJob(id)];
      if answer.Ok? {
        successMessage := Deleted;
        jobs := WithoutRow(jobs, id);
      } else {
        error := DeleteFailed;
      }
    }

    /** The timer set after a deletion: the success message goes away. */
    method ClearSuccess()
      modifies this
      ensures successMessage == ""
      ensures jobs == old(jobs) && error == old(error) && loading == old(loading)
    {
      successMessage := "";
    }
  }
}

/** `ApplicationDetail.js`: one application with the job it is for. The
    application decides what the page shows; the job is extra information
    whose absence does not stop the page. */
module ApplicationDetail {
  import opened Js
  import opened Http
  import opened Jobs
  import opened Api
  import ApplicationForm
  import opened ApplicationList

  const DetailsFailed := "Failed to fetch application details. Please try again."

  /** What the page renders, in the order its early returns test. */
  datatype Screen =
    | Loading                 // "Loading application details..."
    | Failed(message: string) // the error with a way back to the list
    | NotFound                // "Application not found."
    | Shown(badge: string)    // the details, with the status badge's colour

  /** The screen for a state: loading first, then an error, then a missing
      application, and the details otherwise. */
  function ScreenOf(loading: bool, error: string, application: Option<Object>): (s: Screen)
    ensures s.Loading? <==> loading
    ensures s.Failed? <==> !loading && error != ""
    ensures s.Failed? ==> s.message == error
    ensures s.Shown? <==> !loading && error == "" && application.Some?
    ensures s.Shown? ==> s.badge == BadgeColor(Prop(application.value, "Status"))
  {
    if loading then Loading
    else if error != "" then Failed(error)
    else if application.None? then NotFound
    else Shown(BadgeColor(Prop(application.value, "Status")))
  }

  class Detail {
    /** the route's `candidateId` and `jobId` */
    const candidateId: string
    const jobId: string
    var application: Option<Object>
    var job: Option<Job>
    var loading: bool
    var error: string

    constructor (candidateId: string, jobId: string)
      ensures this.candidateId == candidateId && this.jobId == jobId
      ensures application == None && job == None && loading && error == ""
    {
      this.candidateId := candidateId;
      this.jobId := jobId;
      application := None;
      job := None;
      loading := true;
      error := "";
    }

    function Page(): Screen
      reads this
    {
      ScreenOf(loading, error, application)
    }

    /** `fetchApplicationDetails`: the application comes first; only once
      it has arrived is the job asked for (through `jobService.getJobById`
      and its fallback), and a job that cannot be had is passed over
      silently. Only a failed application sets the error. */
    method FetchApplicationDetails(appAnswer: Outcome<ApplicationForm.ApplicationBody>, jobServer: Outcome<JobBody>, jobAll: Outcome<JobsBody>)
      returns (sent: seq<Request>)
      modifies this
      ensures !loading
      ensures var jobCall := GetJobById(Str(jobId), jobServer, jobAll);
              sent == [GetApplication(Str(candidateId), Str(jobId))] + (if appAnswer.Ok? then jobCall.sent else [])
      ensures appAnswer.Ok? ==> application == Some(appAnswer.body.data) && error == old(error)
      ensures appAnswer.Ok? ==>
                var reply := GetJobById(Str(jobId), jobServer, jobAll).reply;
                job == if reply.Resolved? then reply.value.data else old(job)
      ensures !appAnswer.Ok? ==> application == old(application) && job == old(job) && error == DetailsFailed
      ensures appAnswer.Ok? && old(error) == "" ==> Page() == Shown(BadgeColor(Prop(appAnswer.body.data, "Status")))
      ensures !appAnswer.Ok? ==> Page() == Failed(DetailsFailed)
    {
      loading := true;
      sent := [GetApplication(Str(candidateId), Str(jobId))];
      if appAnswer.Ok? {
        application := Some(appAnswer.body.data);
        var jobCall := GetJobById(Str(jobId), jobServer, jobAll);
        sent := sent + jobCall.sent;
        if jobCall.reply.Resolved? {
          job := jobCall.reply.value.data;
        }
      } else {
        error := DetailsFailed;
      }
      loading := false;
    }
  }
}

/** The server as seen by the client. Every request has one of three
    outcomes; the axios response interceptor hands the response body to the
    caller on success and rejects with the error otherwise. */
module Http {
  import opened Js

  /** What one request to the server produced. An error answer carries its
      status and whether `error.response.data` is truthy. */
  datatype Outcome<T> = Ok(body: T) | Err(status: int, hasData: bool) | NoResponse

  /** Why a promise was rejected. */
  datatype Failure =
    | HttpFailure(status: int, hasData: bool)   // the server answered with an error status
    | NetworkFailure             // the request went out, nothing came back
    | TypeFailure                // a property of `undefined` was read
    | JobNotFound                // `new Error("Job not found")`

  /** How a promise settled. */
  datatype Reply<T> = Resolved(value: T) | Rejected(failure: Failure)

  /** The requests the client sends, one constructor per endpoint of the
      backend under `/api`. */
  datatype Request =
    | PostLogin(username: string, password: string, userType: string)  // POST /auth/login
    | GetJobs                                   // GET /jobs
    | GetJob(id: Value)                         // GET /jobs/{id}
    | SearchByKeyword(keyword: string)          // GET /jobs/search?keyword=
    | SearchBySalaryDate(payload: Object)       // POST /employers/jobs/search-by-salary-date
    | GetEmployerJobs(includeAll: bool)         // GET /employers/my-jobs[?includeAll=true]
    | DeleteJob(id: Value)                      // DELETE /employers/my-jobs/{id}
    | GetJobStats                               // GET /employers/my-jobs/stats
    | GetApplications                           // GET /candidates/my-applications
    | GetApplication(candidateId: Value, jobId: Value)     // GET /candidates/applications/{c}/{j}
    | DeleteApplication(candidateId: Value, jobId: Value)  // DELETE /candidates/applications/{c}/{j}
    | PostRegister(data: Object)                // POST /auth/register
    | PostJob(data: Object)                     // POST /employers/my-jobs
    | PutJob(id: Value, data: Object)           // PUT /employers/my-jobs/{id}
    | PostApplication(jobSegment: string, data: Object)   // POST /candidates/jobs/{segment}/apply
    | PutApplication(candidateId: Value, jobId: Value, data: Object)  // PUT /candidates/applications/{c}/{j}

  /** The promise an outcome settles, as the response interceptor passes
      it on: the body on success, the error otherwise. */
  function Settle<T>(o: Outcome<T>): (r: Reply<T>)
    ensures r.Resolved? <==> o.Ok?
    ensures o.Ok? ==> r.value == o.body
    ensures o.Err? ==> r == Rejected(HttpFailure(o.status, o.hasData))
    ensures o.NoResponse? ==> r == Rejected(NetworkFailure)
  {
    match o
    case Ok(b) => Resolved(b)
    case Err(s, d) => Rejected(HttpFailure(s, d))
    case NoResponse => Rejected(NetworkFailure)
  }

  /** `error.response && error.response.status === code` */
  predicate HasStatus<T>(o: Outcome<T>, code: int) {
    o.Err? && o.status == code
  }

  /** One run of a client operation: the requests it sent, in order, and
      how its promise settled. */
  datatype Call<T> = Call(sent: seq<Request>, reply: Reply<T>)
}

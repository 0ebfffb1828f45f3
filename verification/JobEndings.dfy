/**
 How a worker's hold on a job ends: the verdict each cause leads to, and, said separately, what the
 job row and the session row look like afterwards.
 */
module JobEndings {
  import opened Common
  import opened SessionStates
  import opened Protocol
  import opened ProtocolSafety
  import opened Store

  datatype Ending = Success | StillPending(code: string) | Error(code: string, message: string)

  /** How a transaction that decides a job's fate edits the job and the session. */
  datatype Decision = Decision(write: JobWrite, row: SessionRow)

  const IN_FLIGHT := {Transcribing, Reconciling, Extracting}

  function Completion(job: JobRow, row: SessionRow): Decision {
    Decision(Close(Succeeded, None, job.ambiguousOperation), row.(lastError := None))
  }

  function Postponement(job: JobRow, row: SessionRow, code: string): Decision {
    Decision(Poll(code), row)
  }

  /** A failure goes back to the queue while attempts remain and the error is worth retrying. */
  function Failure(job: JobRow, row: SessionRow, code: string, message: string): Decision {
    if job.attempts < job.maxAttempts
       && code !in {"adapter_not_configured", "extraction_not_configured", "transcription_failed", AMBIGUOUS}
    then Decision(Retry(code), if row.state in IN_FLIGHT then row.(state := RetryPending) else row)
    else
      var failed := if row.state in IN_FLIGHT + {RetryPending} then row.(state := Failed) else row;
      Decision(Close(JobFailed, Some(code), job.ambiguousOperation),
              if job.kind == Summarize then failed else failed.(lastError := Some(code + ": " + message)))
  }

  /** A job whose session has an open provider write: never retried, and tied to that operation. */
  function AmbiguousFailureOf(job: JobRow, row: SessionRow, message: string): Decision {
    Decision(Close(JobFailed, Some(AMBIGUOUS), row.marker),
            (if row.state in {Transcribing, RetryPending} then row.(state := Failed)
             else row).(lastError := Some(message)))
  }

  /** After a lost race: cancelled, ambiguous, retried while attempts remain, or failed. */
  function StaleVerdict(job: JobRow, row: SessionRow, tombstoned: bool, message: string): Decision {
    if tombstoned || Halted(row.state) then Decision(Cancelling(job), row)
    else if job.kind == Transcribe && row.marker.Some? then AmbiguousFailureOf(job, row, message)
    else if job.attempts < job.maxAttempts
    then Decision(Retry("concurrent_update"), if row.state in IN_FLIGHT then row.(state := RetryPending) else row)
    else Decision(Close(JobFailed, Some("concurrent_update"), job.ambiguousOperation),
                 (if row.state in IN_FLIGHT + {RetryPending} then row.(state := Failed)
                  else row).(lastError := Some("concurrent_update: " + message)))
  }

  /** The last resort's verdict on the job row alone; unlike the others it labels a cancelled job too. */
  function LastVerdict(job: JobRow, row: SessionRow, tombstoned: bool): (w: JobWrite)
    ensures job.status == Running ==> WriteAllowed(job, w)
    ensures w.Retry? ==> !(job.kind == Transcribe && row.marker.Some?) && !tombstoned && !Halted(row.state)
  {
    if tombstoned || Halted(row.state) then Close(JobCancelled, Some("concurrent_update"), job.ambiguousOperation)
    else if job.kind == Transcribe && row.marker.Some? then Close(JobFailed, Some(AMBIGUOUS), row.marker)
    else if job.attempts < job.maxAttempts then Retry("concurrent_update")
    else Close(JobFailed, Some("concurrent_update"), job.ambiguousOperation)
  }

  /** A job whose lease expired: requeued, unless an upload may have been in flight. */
  function RecoveryVerdict(job: JobRow, row: SessionRow, message: string): Decision {
    if row.marker.Some? && job.kind == Transcribe then AmbiguousFailureOf(job, row, message)
    else Decision(Recover("worker_lease_expired"), row)
  }

  function EndingVerdict(ending: Ending, job: JobRow, row: SessionRow): Decision {
    match ending
    case Success => Completion(job, row)
    case StillPending(code) => Postponement(job, row, code)
    case Error(code, message) => Failure(job, row, code, message)
  }

  // ---------------------------------------------------------------- what each cause means

  datatype Cause =
    | Ended(ending: Ending)
    | LostRace(tombstoned: bool, message: string)
    | LeaseExpired(message: string)
    | OpenMarker(message: string)

  /** Attempts remain, and the error is none of the four that will not go away. */
  predicate Retryable(job: JobRow, code: string) {
    && job.attempts < job.maxAttempts
    && code != "adapter_not_configured" && code != "extraction_not_configured"
    && code != "transcription_failed" && code != "ambiguous_provider_operation"
  }

  predicate Working(state: SessionState) {
    state == Transcribing || state == Reconciling || state == Extracting
  }

  predicate OffLimits(tombstoned: bool, row: SessionRow) {
    tombstoned || row.state == Cancelled || row.state == DeletePending || row.state == Deleted
  }

  /** An upload may have been accepted without anyone knowing. */
  predicate Uncertain(job: JobRow, row: SessionRow) {
    job.kind == Transcribe && row.marker != None
  }

  predicate SameJob(job: JobRow, now: JobRow) {
    && now.session == job.session && now.kind == job.kind && now.maxAttempts == job.maxAttempts
    && now.version == job.version + 1
  }

  /** The job row afterwards. */
  predicate JobEnds(cause: Cause, job: JobRow, row: SessionRow, now: JobRow) {
    && SameJob(job, now)
    && match cause
       case Ended(Success) =>
         now.status == Succeeded && now.errorCode == None && now.attempts == job.attempts
       case Ended(StillPending(code)) =>
         && now.status == Queued && now.errorCode == Some(code)
         && (if job.attempts == 0 then now.attempts == 0 else now.attempts == job.attempts - 1)
       case Ended(Error(code, _)) =>
         && now.errorCode == Some(code) && now.attempts == job.attempts
         && now.status == (if Retryable(job, code) then Queued else JobFailed)
       case LostRace(tombstoned, _) =>
         && now.attempts == job.attempts
         && (if OffLimits(tombstoned, row) then now.status == JobCancelled && now.errorCode == job.errorCode
             else if Uncertain(job, row) then UncertainJob(row, now)
             else && now.errorCode == Some("concurrent_update")
                  && now.status == (if job.attempts < job.maxAttempts then Queued else JobFailed))
       case LeaseExpired(_) =>
         && now.attempts == job.attempts
         && (if Uncertain(job, row) then UncertainJob(row, now)
             else now.status == Queued && now.errorCode == Some("worker_lease_expired"))
       case OpenMarker(_) =>
         now.attempts == job.attempts && UncertainJob(row, now)
  }

  predicate UncertainJob(row: SessionRow, now: JobRow) {
    && now.status == JobFailed && now.errorCode == Some("ambiguous_provider_operation")
    && now.ambiguousOperation == row.marker
  }

  /** The session row afterwards, its version apart. */
  predicate SessionEnds(cause: Cause, job: JobRow, row: SessionRow, now: SessionRow) {
    && now == row.(state := now.state, lastError := now.lastError)
    && match cause
       case Ended(Success) => now.state == row.state && now.lastError == None
       case Ended(StillPending(_)) => now == row
       case Ended(Error(code, message)) =>
         if Retryable(job, code) then
           now.lastError == row.lastError && now.state == (if Working(row.state) then RetryPending else row.state)
         else
           && GivenUp(row, now)
           && now.lastError == (if job.kind == Summarize then row.lastError else Some(code + ": " + message))
       case LostRace(tombstoned, message) =>
         if OffLimits(tombstoned, row) then now == row
         else if Uncertain(job, row) then UncertainSession(row, message, now)
         else if job.attempts < job.maxAttempts then
           now.lastError == row.lastError && now.state == (if Working(row.state) then RetryPending else row.state)
         else
           GivenUp(row, now) && now.lastError == Some("concurrent_update: " + message)
       case LeaseExpired(message) =>
         if Uncertain(job, row) then UncertainSession(row, message, now) else now == row
       case OpenMarker(message) => UncertainSession(row, message, now)
  }

  /** A session that was being worked on, or was waiting to be, has failed. */
  predicate GivenUp(row: SessionRow, now: SessionRow) {
    now.state == if Working(row.state) || row.state == RetryPending then Failed else row.state
  }

  predicate UncertainSession(row: SessionRow, message: string, now: SessionRow) {
    && now.lastError == Some(message)
    && now.state == (if row.state == Transcribing || row.state == RetryPending then Failed else row.state)
  }

  ghost predicate Means(cause: Cause, job: JobRow, row: SessionRow, v: Decision) {
    JobEnds(cause, job, row, Written(job, v.write)) && SessionEnds(cause, job, row, v.row)
  }

  lemma EndingMeans(ending: Ending, job: JobRow, row: SessionRow)
    ensures Means(Ended(ending), job, row, EndingVerdict(ending, job, row))
  {
  }

  lemma AmbiguousMeans(job: JobRow, row: SessionRow, message: string)
    ensures Means(OpenMarker(message), job, row, AmbiguousFailureOf(job, row, message))
  {
  }

  lemma StaleMeans(job: JobRow, row: SessionRow, tombstoned: bool, message: string)
    ensures Means(LostRace(tombstoned, message), job, row, StaleVerdict(job, row, tombstoned, message))
  {
    AmbiguousMeans(job, row, message);
  }

  lemma RecoveryMeans(job: JobRow, row: SessionRow, message: string)
    ensures Means(LeaseExpired(message), job, row, RecoveryVerdict(job, row, message))
  {
    AmbiguousMeans(job, row, message);
  }

  /** The job row after the last resort, which also labels a cancelled job. */
  predicate LastEnds(job: JobRow, row: SessionRow, tombstoned: bool, now: JobRow) {
    && SameJob(job, now) && now.attempts == job.attempts
    && (if !OffLimits(tombstoned, row) && Uncertain(job, row) then UncertainJob(row, now)
        else && now.errorCode == Some("concurrent_update")
             && now.status == (if OffLimits(tombstoned, row) then JobCancelled
                               else if job.attempts < job.maxAttempts then Queued
                               else JobFailed))
  }

  lemma LastMeans(job: JobRow, row: SessionRow, tombstoned: bool)
    ensures LastEnds(job, row, tombstoned, Written(job, LastVerdict(job, row, tombstoned)))
  {
  }

  /** The tables afterwards: the job and its session as the cause calls for, no other row touched. */
  ghost predicate EndsAs(st: State, st': State, j: JobId, job: JobRow, read: SessionRow, cause: Cause) {
    && j in st'.jobs && st'.jobs == st.jobs[j := st'.jobs[j]] && JobEnds(cause, job, read, st'.jobs[j])
    && job.session in st.sessions && job.session in st'.sessions
    && st'.sessions == st.sessions[job.session := st'.sessions[job.session]]
    && var now := st'.sessions[job.session];
    && (if SessionEnds(cause, job, read, read) then now == st.sessions[job.session]
        else now.version == read.version + 1 && SessionEnds(cause, job, read, now.(version := read.version)))
  }

  lemma TablesEnd(st: State, st': State, j: JobId, job: JobRow, read: SessionRow, cause: Cause, v: Decision)
    requires Stores(st, st', job.session, read, v.row, map[j := v.write], map[], false)
    requires j in st.jobs && st.jobs[j] == job && Means(cause, job, read, v)
    ensures EndsAs(st, st', j, job, read, cause)
  {
    assert st'.jobs == st.jobs[j := st'.jobs[j]];
    OneOutcome(cause, job, read, read, v.row);
  }

  /** What becomes of the session is determined. */
  lemma OneOutcome(cause: Cause, job: JobRow, row: SessionRow, a: SessionRow, b: SessionRow)
    requires SessionEnds(cause, job, row, b)
    ensures SessionEnds(cause, job, row, a) ==> a == b
  {
  }

  // ---------------------------------------------------------------- legality

  /** A legal job write that moves the session along the graph, and never into deletion. */
  ghost predicate Legal(job: JobRow, row: SessionRow, v: Decision) {
    && WriteAllowed(job, v.write) && OrdinaryEdit(row, v.row)
    && (v.row.state == DeletePending ==> row.state == DeletePending)
  }

  lemma EndingIsLegal(ending: Ending, job: JobRow, row: SessionRow)
    requires job.status == Running && row.state != Deleted
    ensures Legal(job, row, EndingVerdict(ending, job, row))
  {
  }

  lemma AmbiguousIsLegal(job: JobRow, row: SessionRow, message: string)
    requires row.state != Deleted
    ensures Legal(job, row, AmbiguousFailureOf(job, row, message))
  {
  }

  lemma StaleIsLegal(job: JobRow, row: SessionRow, tombstoned: bool, message: string)
    requires job.status == Running && row.state != Deleted
    ensures Legal(job, row, StaleVerdict(job, row, tombstoned, message))
  {
    AmbiguousIsLegal(job, row, message);
  }

  lemma RecoveryIsLegal(job: JobRow, row: SessionRow, message: string)
    requires job.status == Running && row.state != Deleted
    ensures Legal(job, row, RecoveryVerdict(job, row, message))
  {
    AmbiguousIsLegal(job, row, message);
  }

  /** Every way a running job can end is legal. */
  lemma VerdictsAreLegal(ending: Ending, job: JobRow, row: SessionRow, tombstoned: bool, message: string)
    requires job.status == Running && row.state != Deleted
    ensures Legal(job, row, EndingVerdict(ending, job, row))
    ensures Legal(job, row, AmbiguousFailureOf(job, row, message))
    ensures Legal(job, row, StaleVerdict(job, row, tombstoned, message))
    ensures Legal(job, row, RecoveryVerdict(job, row, message))
  {
    EndingIsLegal(ending, job, row);
    AmbiguousIsLegal(job, row, message);
    StaleIsLegal(job, row, tombstoned, message);
    RecoveryIsLegal(job, row, message);
  }

  /** Neither recovery path puts a transcription job back in the queue while an upload marker is set. */
  lemma AmbiguousJobsAreNotRequeued(job: JobRow, row: SessionRow, tombstoned: bool, message: string)
    requires job.kind == Transcribe && row.marker.Some?
    ensures StaleVerdict(job, row, tombstoned, message).write.Close? && RecoveryVerdict(job, row, message).write.Close?
    ensures !tombstoned && !Halted(row.state) ==>
              StaleVerdict(job, row, tombstoned, message).write.op == row.marker
                  && RecoveryVerdict(job, row, message).write.op == row.marker
  {
  }
}

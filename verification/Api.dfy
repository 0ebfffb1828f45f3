/**
 The API's handlers.  `read`, `readJob` and `jobs` are the rows a handler loaded; `Conflict` is
 the 409 that a lost version race turns into.  Job ids passed in are fresh.
 */
module Api {
  import opened Common
  import opened SessionStates
  import opened Protocol
  import opened ProtocolSafety
  import opened ProtocolTheorems
  import opened Store

  /** A handler either commits these edits as one step, or leaves everything as it was. */
  ghost predicate Performs(st: State, st': State, r: Outcome, s: SessionId, read: SessionRow, edited: SessionRow,
                           writes: map<JobId, JobWrite>, added: map<JobId, JobRow>, tombstone: bool)
  {
    if r.Done? then
      && s in st.sessions
      && Committed(st, st', Transaction(s, RowAfter(st, s, read, edited), writes, added, tombstone, None))
      && Stores(st, st', s, read, edited, writes, added, tombstone)
    else
      st' == st
  }

  function Finished(ok: bool): Outcome {
    if ok then Done else Conflict
  }

  function Cancellations(active: map<JobId, JobRow>): (r: map<JobId, JobWrite>)
    ensures r.Keys == active.Keys
    ensures forall j :: j in active ==>
              r[j].Close? && r[j].status == JobCancelled && r[j].error == active[j].errorCode
              && r[j].op == active[j].ambiguousOperation
  {
    map j | j in active :: Cancelling(active[j])
  }

  function ActiveJobs(jobs: map<JobId, JobRow>): (r: map<JobId, JobRow>)
    ensures forall j :: j in r <==> j in jobs && jobs[j].status in {Queued, Running}
    ensures forall j :: j in r ==> r[j] == jobs[j]
  {
    map j | j in jobs && Active(jobs[j]) :: jobs[j]
  }

  function QueuedJobs(jobs: map<JobId, JobRow>): map<JobId, JobRow> {
    map j | j in jobs && jobs[j].status == Queued :: jobs[j]
  }

  /** No job was added to the session since the snapshot was taken. */
  ghost predicate Covers(stored: map<JobId, JobRow>, s: SessionId, jobs: map<JobId, JobRow>) {
    forall j :: j in stored && stored[j].session == s ==> j in jobs
  }

  predicate NoneActive(jobs: map<JobId, JobRow>, s: SessionId) {
    forall j :: j in jobs && jobs[j].session == s ==> jobs[j].status !in {Queued, Running}
  }

  /** Cancelling what a complete snapshot shows as active leaves nothing active. */
  lemma CancellingAll(stored: map<JobId, JobRow>, s: SessionId, jobs: map<JobId, JobRow>)
    requires Covers(stored, s, jobs)
    requires forall j :: j in jobs && j in stored && Active(stored[j]) ==> Active(jobs[j])
    ensures NoneActive(JobsAfter(stored, Cancellations(ActiveJobs(jobs)), map[]), s)
  {
  }

  /** Of the jobs in a snapshot those queued were cancelled, and no other was touched. */
  ghost predicate QueuedWereCancelled(was: map<JobId, JobRow>, now: map<JobId, JobRow>, jobs: map<JobId, JobRow>) {
    forall j :: j in jobs && j in was ==>
      && j in now
      && (if jobs[j].status == Queued then now[j].status == JobCancelled else now[j] == was[j])
  }

  lemma CancellingQueued(stored: map<JobId, JobRow>, jobs: map<JobId, JobRow>)
    ensures QueuedWereCancelled(stored, JobsAfter(stored, Cancellations(QueuedJobs(jobs)), map[]), jobs)
  {
  }

  /** Cancels every job in `active`, one by one. */
  method CancelAll(active: map<JobId, JobRow>) returns (writes: map<JobId, JobWrite>)
    ensures writes == Cancellations(active)
  {
    writes := map[];
    var left := active.Keys;
    while left != {}
      invariant left <= active.Keys && writes.Keys == active.Keys - left
      invariant forall j :: j in writes ==> j in active && writes[j] == Cancelling(active[j])
    {
      var j :| j in left;
      writes := writes[j := Cancelling(active[j])];
      left := left - {j};
    }
  }

  /** At most one new job: none when the handler saw an active one of that type. */
  function EnsureJob(s: SessionId, kind: JobKind, sawActive: bool, id: JobId, maxAttempts: nat): (r: map<JobId, JobRow>)
    ensures r.Keys == if sawActive then {} else {id}
    ensures id in r ==>
              && r[id].session == s && r[id].kind == kind && r[id].maxAttempts == maxAttempts
              && r[id].status == Queued && r[id].attempts == 0 && r[id].version == 1
              && r[id].errorCode == None && r[id].ambiguousOperation == None
  {
    if sawActive then map[] else map[id := NewJob(s, kind, maxAttempts)]
  }

  /** A new session, under an id never used before. */
  method CreateSession(db: Database, s: SessionId)
    requires db.Valid() && s !in db.sessions && s !in db.buried && s !in db.tombstones
    modifies db
    ensures db.Valid() && db.View() == OutsideApply(old(db.View()), OutsideAct.CreateSession(s))
    ensures s in db.sessions && db.sessions == old(db.sessions)[s := db.sessions[s]]
    ensures var row := db.sessions[s];
            && row.state == Created && row.version == 1 && !row.hasMedia && !row.submitted
            && row.recording == None && row.marker == None && row.revision == None
  {
    ghost var run := AfterOutside(db.history, OutsideAct.CreateSession(s));
    db.sessions := db.sessions[s := NEW_SESSION];
    db.history := run;
  }

  /** Commits an edit of the session together with the cancelling of every active job of the snapshot. */
  method CommitCancelling(db: Database, s: SessionId, read: SessionRow, edited: SessionRow, jobs: map<JobId, JobRow>)
    returns (r: Outcome)
    requires db.Valid() && db.Read(s, read) && db.ReadJobs(s, jobs)
    requires OrdinaryEdit(read, edited) && (edited.state == DeletePending ==> read.state == DeletePending)
    modifies db
    ensures db.Valid() && !r.Rejected?
    ensures Performs(old(db.View()), db.View(), r, s, read, edited, Cancellations(ActiveJobs(jobs)), map[], false)
    ensures r.Done? && Covers(old(db.jobs), s, jobs) ==> NoneActive(db.jobs, s)
  {
    var active := ActiveJobs(jobs);
    var writes := CancelAll(active);
    if Covers(db.jobs, s, jobs) { CancellingAll(db.jobs, s, jobs); }
    var ok := db.Commit(s, read, edited, active, writes, map[], false);
    r := Finished(ok);
  }

  // ---------------------------------------------------------------- upload

  const SETTLED_AFTER_UPLOAD := {Uploaded, Transcribing, Reconciling, TranscriptReady, Extracting, AwaitingReview,
                                 Complete, RetryPending}

  /** A repeated upload of a session that already has its media only makes sure a job is queued. */
  method RepeatUpload(db: Database, s: SessionId, read: SessionRow, sawActive: bool, id: JobId, maxAttempts: nat)
    returns (r: Outcome)
    requires db.Valid() && db.Read(s, read) && id !in db.stats
    requires read.hasMedia && read.state in SETTLED_AFTER_UPLOAD
    modifies db
    ensures db.Valid()
    ensures match read.state
            case Uploaded => Performs(old(db.View()), db.View(), r, s, read, read.(state := Transcribing), map[],
                                      EnsureJob(s, Transcribe, sawActive, id, maxAttempts), false)
            case Transcribing => Performs(old(db.View()), db.View(), r, s, read, read, map[],
                                          EnsureJob(s, if read.recording.Some? then Reconcile else Transcribe,
                                                    sawActive, id, maxAttempts), false)
            case Reconciling => Performs(old(db.View()), db.View(), r, s, read, read, map[],
                                         EnsureJob(s, Reconcile, sawActive, id, maxAttempts), false)
            case _ => r == Done && db.View() == old(db.View())
  {
    var edited, added := read, map[];
    if read.state == Uploaded {
      added := EnsureJob(s, Transcribe, sawActive, id, maxAttempts);
      edited := read.(state := Transcribing);
    } else if read.state == Transcribing {
      added := EnsureJob(s, if read.recording.Some? then Reconcile else Transcribe, sawActive, id, maxAttempts);
    } else if read.state == Reconciling {
      added := EnsureJob(s, Reconcile, sawActive, id, maxAttempts);
    } else {
      return Done;
    }
    var ok := db.Commit(s, read, edited, map[], map[], added, false);
    r := Finished(ok);
  }

  /** First half of an upload: the row is put in UPLOADING before any byte is received. */
  method StartUpload(db: Database, s: SessionId, read: SessionRow) returns (r: Outcome)
    requires db.Valid() && db.Read(s, read)
    requires !(read.hasMedia && read.state in SETTLED_AFTER_UPLOAD)
    modifies db
    ensures db.Valid()
    ensures r.Rejected? <==> Transition(read.state, Uploading).None?
    ensures Performs(old(db.View()), db.View(), r, s, read, read.(state := Uploading), map[], map[], false)
  {
    match Transition(read.state, Uploading)
    case None => r := Rejected("invalid_state_transition");
    case Some(next) =>
      var ok := db.Commit(s, read, read.(state := next), map[], map[], map[], false);
      r := Finished(ok);
  }

  /** Second half: media stored, two moves, and a transcription job, in one commit. */
  method FinishUpload(db: Database, s: SessionId, mine: SessionRow, sawActive: bool, id: JobId, maxAttempts: nat)
    returns (r: Outcome)
    requires db.Valid() && db.Read(s, mine) && mine.state == Uploading && id !in db.stats
    modifies db
    ensures db.Valid()
    ensures Performs(old(db.View()), db.View(), r, s, mine, mine.(hasMedia := true, state := Transcribing), map[],
                     EnsureJob(s, Transcribe, sawActive, id, maxAttempts), false)
  {
    assert Hop(Uploading, Uploaded, Transcribing);
    var ok := db.Commit(s, mine, mine.(hasMedia := true, state := Transcribing), map[], map[],
                        EnsureJob(s, Transcribe, sawActive, id, maxAttempts), false);
    r := Finished(ok);
  }

  /** The error path writes FAILED without asking the table; the stored row is still in UPLOADING. */
  method FailUpload(db: Database, s: SessionId, mine: SessionRow, message: string) returns (r: Outcome)
    requires db.Valid() && db.Read(s, mine) && mine.state == Uploading
    modifies db
    ensures db.Valid()
    ensures Performs(old(db.View()), db.View(), r, s, mine, mine.(state := Failed, lastError := Some(message)), map[],
                     map[], false)
    ensures Edge(mine.state, Failed)
  {
    var ok := db.Commit(s, mine, mine.(state := Failed, lastError := Some(message)), map[], map[], map[], false);
    r := Finished(ok);
  }

  // ---------------------------------------------------------------- jobs

  /** When a job of a type makes sense for a session: what it needs is there, and the state is one it starts from. */
  predicate JobAdmitted(row: SessionRow, kind: JobKind) {
    && (kind == Transcribe ==> row.marker == None && row.state in {Uploaded, RetryPending})
    && (kind == Reconcile ==>
          && row.recording != None
          && row.state in {RetryPending, Transcribing, Reconciling, TranscriptReady, AwaitingReview, Complete})
    && (kind == Extract ==> row.revision != None && row.state in {TranscriptReady, AwaitingReview, RetryPending})
    && (kind == Summarize ==> row.revision != None && row.state != DeletePending && row.state != Deleted)
  }

  /** Which state a session must be put in for a new job, or why the job is refused. */
  function PrepareStateForJob(row: SessionRow, kind: JobKind): (r: Result<SessionState, string>)
    ensures r.Ok? ==> (r.value == row.state || Edge(row.state, r.value)) && row.state != DeletePending
    ensures r.Ok? ==> r.value != DeletePending && r.value != Deleted
    ensures r.Ok? <==> JobAdmitted(row, kind)
    ensures r.Ok? ==> r.value == if kind == Transcribe then Transcribing
                                 else if kind == Reconcile then Reconciling
                                 else if kind == Extract then Extracting
                                 else row.state
    ensures kind == Transcribe && row.marker.Some? && row.state !in {DeletePending, Deleted} ==>
              r == Err("ambiguous_provider_operation")
  {
    if row.state == DeletePending || row.state == Deleted then Err("job_not_allowed")
    else match kind
      case Transcribe =>
        if row.marker.Some? then Err("ambiguous_provider_operation")
        else if row.state != Uploaded && row.state != RetryPending then Err("transcription_not_allowed")
        else Ok(Transcribing)
      case Reconcile =>
        if row.recording == None then Err("reconciliation_not_allowed")
        else if row.state !in {Transcribing, Reconciling, TranscriptReady, AwaitingReview, Complete, RetryPending}
        then Err("reconciliation_not_allowed")
        else Ok(Reconciling)
      case Extract =>
        if row.revision == None then Err("extraction_not_allowed")
        else if row.state !in {TranscriptReady, AwaitingReview, RetryPending} then Err("extraction_not_allowed")
        else Ok(Extracting)
      case Summarize =>
        if row.revision == None then Err("summary_not_allowed") else Ok(row.state)
  }

  method CreateJob(db: Database, s: SessionId, kind: JobKind, read: SessionRow, sawActive: bool, id: JobId,
                   maxAttempts: nat)
    returns (r: Outcome)
    requires db.Valid() && db.Read(s, read) && id !in db.stats
    modifies db
    ensures db.Valid()
    ensures r.Rejected? <==> !sawActive && PrepareStateForJob(read, kind).Err?
    ensures sawActive ==> Performs(old(db.View()), db.View(), r, s, read, read, map[], map[], false)
    ensures !sawActive && PrepareStateForJob(read, kind).Ok? ==>
              Performs(old(db.View()), db.View(), r, s, read, read.(state := PrepareStateForJob(read, kind).value),
                       map[],
                       map[id := NewJob(s, kind, maxAttempts)], false)
    ensures r.Rejected? ==> db.View() == old(db.View())
  {
    var edited := read;
    if !sawActive {
      match PrepareStateForJob(read, kind)
      case Err(code) => return Rejected(code);
      case Ok(next) => edited := read.(state := next);
    }
    var ok := db.Commit(s, read, edited, map[], map[], EnsureJob(s, kind, sawActive, id, maxAttempts), false);
    r := Finished(ok);
  }

  method CancelJob(db: Database, j: JobId, readJob: JobRow, read: SessionRow) returns (r: Outcome)
    requires db.Valid() && db.ReadJob(j, readJob) && db.Read(readJob.session, read)
    modifies db
    ensures db.Valid()
    ensures r.Rejected? <==> !Active(readJob)
    ensures Performs(old(db.View()), db.View(), r, readJob.session, read,
                     if read.state in {Transcribing, Extracting, RetryPending} then read.(state := Cancelled) else read,
                     map[j := Cancelling(readJob)], map[], false)
  {
    if !Active(readJob) { return Rejected("job_not_cancellable"); }
    var edited := read;
    if read.state in {Transcribing, Extracting, RetryPending} {
      edited := read.(state := Cancelled);
    }
    var ok := db.Commit(readJob.session, read, edited, map[j := readJob], map[j := Cancelling(readJob)], map[], false);
    r := Finished(ok);
  }

  /** The state a retry starts from: a failed or cancelled session first becomes RETRY_PENDING. */
  function Reopened(row: SessionRow): (r: SessionRow)
    ensures r == row.(state := r.state)
    ensures r.state != row.state <==> row.state in {Failed, Cancelled}
    ensures r.state != row.state ==> r.state == RetryPending
  {
    if row.state == Failed || row.state == Cancelled then row.(state := RetryPending) else row
  }

  /** A retry makes a new job of the same type; it does not look for an active one. */
  method RetryJob(db: Database, readJob: JobRow, read: SessionRow, id: JobId) returns (r: Outcome)
    requires db.Valid() && db.Read(readJob.session, read) && id !in db.stats
    modifies db
    ensures db.Valid()
    ensures r.Rejected? <==> (readJob.status != JobFailed && readJob.status != JobCancelled)
                             || PrepareStateForJob(Reopened(read), readJob.kind).Err?
    ensures r.Rejected? ==> db.View() == old(db.View())
    ensures !r.Rejected? ==>
              Performs(old(db.View()), db.View(), r, readJob.session, read,
                       Reopened(read).(state := PrepareStateForJob(Reopened(read), readJob.kind).value), map[],
                       map[id := NewJob(readJob.session, readJob.kind, readJob.maxAttempts)], false)
  {
    if readJob.status != JobFailed && readJob.status != JobCancelled { return Rejected("job_not_retryable"); }
    var edited := Reopened(read);
    match PrepareStateForJob(edited, readJob.kind)
    case Err(code) => return Rejected(code);
    case Ok(next) =>
      assert edited.state != read.state && next != edited.state ==> Hop(read.state, edited.state, next);
      edited := edited.(state := next);
    var ok := db.Commit(readJob.session, read, edited, map[], map[],
                        map[id := NewJob(readJob.session, readJob.kind, readJob.maxAttempts)], false);
    r := Finished(ok);
  }

  /** Refresh: refused while a provider operation is open, otherwise transcribe or reconcile again. */
  method Refresh(db: Database, s: SessionId, read: SessionRow, sawActive: bool, id: JobId, maxAttempts: nat)
    returns (r: Outcome)
    requires db.Valid() && db.Read(s, read) && id !in db.stats
    modifies db
    ensures db.Valid()
    ensures read.state == DeletePending || read.marker.Some? ==> r.Rejected?
    ensures r.Rejected? ==> db.View() == old(db.View())
    ensures !r.Rejected? && read.recording == None ==>
              read.hasMedia
              && Performs(old(db.View()), db.View(), r, s, read, Reopened(read), map[],
                          EnsureJob(s, Transcribe, sawActive, id, maxAttempts), false)
    ensures !r.Rejected? && read.recording.Some? ==>
              Performs(old(db.View()), db.View(), r, s, read, Reopened(read).(state := Reconciling), map[],
                       EnsureJob(s, Reconcile, sawActive, id, maxAttempts), false)
  {
    if read.state == DeletePending || read.state == Deleted { return Rejected("refresh_not_allowed"); }
    if read.marker.Some? { return Rejected(AMBIGUOUS); }
    var edited, kind := Reopened(read), Transcribe;
    if read.recording == None {
      if !read.hasMedia { return Rejected("refresh_not_allowed"); }
    } else {
      kind := Reconcile;
      match Transition(edited.state, Reconciling)
      case None => return Rejected("invalid_state_transition");
      case Some(next) =>
        assert edited.state != read.state ==> Hop(read.state, edited.state, next);
        edited := edited.(state := next);
    }
    var ok := db.Commit(s, read, edited, map[], map[], EnsureJob(s, kind, sawActive, id, maxAttempts), false);
    r := Finished(ok);
  }

  // ---------------------------------------------------------------- cancelling and deleting

  const CANCELLABLE := {Created, Uploading, Uploaded, Transcribing, Reconciling, TranscriptReady, Extracting,
                        RetryPending}

  method CancelSession(db: Database, s: SessionId, read: SessionRow, jobs: map<JobId, JobRow>) returns (r: Outcome)
    requires db.Valid() && db.Read(s, read) && db.ReadJobs(s, jobs)
    modifies db
    ensures db.Valid()
    ensures r.Rejected? <==>
              read.state in {AwaitingReview, Complete, Failed, Cancelled, DeletePending, Deleted}
    ensures Performs(old(db.View()), db.View(), r, s, read, read.(state := Cancelled),
                     Cancellations(ActiveJobs(jobs)), map[], false)
    ensures r.Done? && Covers(old(db.jobs), s, jobs) ==> NoneActive(db.jobs, s)
  {
    if read.state !in CANCELLABLE { return Rejected("session_not_cancellable"); }
    r := CommitCancelling(db, s, read, read.(state := Cancelled), jobs);
  }

  /** Deletion request: the tombstone, the state and the cancelled queued jobs are one commit. */
  method RequestDeletion(db: Database, s: SessionId, read: SessionRow, jobs: map<JobId, JobRow>) returns (r: Outcome)
    requires db.Valid() && db.Read(s, read) && db.ReadJobs(s, jobs)
    modifies db
    ensures db.Valid() && !r.Rejected?
    ensures Performs(old(db.View()), db.View(), r, s, read, read.(state := DeletePending),
                     Cancellations(QueuedJobs(jobs)), map[], true)
    ensures r.Done? ==> s in db.tombstones && (s in db.sessions && db.sessions[s].state == DeletePending)
    ensures r.Done? ==> QueuedWereCancelled(old(db.jobs), db.jobs, jobs)
  {
    var queued := QueuedJobs(jobs);
    var writes := CancelAll(queued);
    CancellingQueued(db.jobs, jobs);
    assert read.state == DeletePending || Edge(read.state, DeletePending);
    var ok := db.Commit(s, read, read.(state := DeletePending), queued, writes, map[], true);
    r := Finished(ok);
  }

  // ---------------------------------------------------------------- resolving an ambiguous upload

  ghost predicate Requested(st: State, st': State, q: RequestId, req: RequestAct) {
    RequestEnabled(st, q, req) && st' == RequestApply(st, q, req)
  }

  predicate TranscriptionActive(jobs: map<JobId, JobRow>, s: SessionId) {
    exists j :: j in jobs && jobs[j].session == s && jobs[j].kind == Transcribe && Active(jobs[j])
  }

  predicate AmbiguousFailure(jobs: map<JobId, JobRow>, s: SessionId, op: OperationId) {
    exists j :: j in jobs && jobs[j].session == s && jobs[j].kind == Transcribe && jobs[j].status == JobFailed
                && jobs[j].errorCode == Some(AMBIGUOUS) && jobs[j].ambiguousOperation == Some(op)
  }

  /** The failed job that a resolution of an operation must find. */
  predicate IsTheFailure(job: JobRow, s: SessionId, op: OperationId) {
    && job.session == s && job.kind == Transcribe && job.status == JobFailed
    && job.errorCode == Some("ambiguous_provider_operation") && job.ambiguousOperation == Some(op)
  }

  /** First half of a resolution: everything it decides on, read in one snapshot. */
  method OpenResolution(db: Database, q: RequestId, s: SessionId, confirmed: OperationId) returns (r: Outcome)
    requires db.Valid() && q !in db.requests
    modifies db
    ensures db.Valid() && r != Conflict
    ensures r.Done? <==>
              && s in old(db.sessions) && old(db.sessions)[s].marker == Some(confirmed)
              && (forall j :: j in old(db.jobs) && old(db.jobs)[j].session == s ==>
                    old(db.jobs)[j].kind == Transcribe ==>
                    old(db.jobs)[j].status in {Succeeded, JobFailed, JobCancelled})
              && (exists j :: j in old(db.jobs) && IsTheFailure(old(db.jobs)[j], s, confirmed))
    ensures if r.Done? then Requested(old(db.View()), db.View(), q, ResolveRead(s)) else db.View() == old(db.View())
  {
    if s !in db.sessions { return Rejected("session_not_found"); }
    var row := db.sessions[s];
    if row.marker == None { return Rejected("no_pending_operation"); }
    if row.marker != Some(confirmed) { return Rejected("operation_id_mismatch"); }
    if TranscriptionActive(db.jobs, s) { return Rejected("provider_operation_active"); }
    if !AmbiguousFailure(db.jobs, s, confirmed) { return Rejected("ambiguous_job_required"); }
    ghost var run := AfterRequest(db.history, q, ResolveRead(s));
    db.requests := db.requests[q := Resolving(s, row)];
    db.history := run;
    r := Done;
  }

  datatype Verdict =
    | NotCreated(allowUnverified: bool, reason: string, recordingGiven: bool)
    | AdoptExisting(rec: Option<RecordingId>, overrideGiven: bool, reachable: bool)

  /** Why a verdict is refused on its own terms; `reason` is stripped. */
  function RefuseVerdict(v: Verdict): (r: Option<string>)
    ensures r == Some("absence_override_not_applicable") <==> v.AdoptExisting? && v.overrideGiven
    ensures r == Some("speakr_recording_id_required") <==> v.AdoptExisting? && !v.overrideGiven && v.rec == None
    ensures r == Some("speakr_recording_id_not_applicable") <==> v.NotCreated? && v.recordingGiven
    ensures r == Some("absence_override_required") <==>
              v.NotCreated? && !v.recordingGiven && (!v.allowUnverified || |v.reason| < 10)
    ensures r == None <==>
              if v.AdoptExisting? then !v.overrideGiven && v.rec.Some?
              else !v.recordingGiven && v.allowUnverified && |v.reason| >= 10
  {
    match v
    case AdoptExisting(rec, overrideGiven, _) =>
      if overrideGiven then Some("absence_override_not_applicable")
      else if rec == None then Some("speakr_recording_id_required")
      else None
    case NotCreated(allowUnverified, reason, recordingGiven) =>
      if recordingGiven then Some("speakr_recording_id_not_applicable")
      else if !allowUnverified || |reason| < 10 then Some("absence_override_required")
      else None
  }

  /** Second half: audit row in, marker out, recording adopted if that is the verdict, as one commit. */
  method CloseResolution(db: Database, q: RequestId, v: Verdict) returns (r: Outcome)
    requires db.Valid() && q in db.requests && db.requests[q].Resolving? && db.requests[q].row.marker.Some?
    // a recording the integration account could look up exists at the provider
    requires v.AdoptExisting? && v.reachable && v.rec.Some? ==> v.rec.value in db.issued
    modifies db
    ensures db.Valid()
    ensures RefuseVerdict(v).Some? ==> r == Rejected(RefuseVerdict(v).value)
    ensures r.Done? ==> (v.AdoptExisting? ==> v.reachable)
    ensures if r.Done?
            then Requested(old(db.View()), db.View(), q, ResolveCommit(if v.AdoptExisting? then v.rec else None))
            else db.View() == old(db.View())
    ensures r.Done? ==> Audit(old(db.requests)[q].session, old(db.requests)[q].row.marker.value) in db.audits
    ensures r.Done? ==>
              Resolves(old(db.View()), db.View(), old(db.requests)[q].session, if v.AdoptExisting? then v.rec else None)
    ensures r.Done? <==>
              var s, row := old(db.requests)[q].session, old(db.requests)[q].row;
              && s in old(db.sessions) && old(db.sessions)[s].version == row.version
              && (v.NotCreated? ==> v.allowUnverified && |v.reason| >= 10 && !v.recordingGiven)
              && (v.AdoptExisting? ==>
                    && !v.overrideGiven && v.rec.Some? && v.reachable
                    && forall t :: t in old(db.sessions) && t != s ==> old(db.sessions)[t].recording != v.rec)
  {
    var s, row := db.requests[q].session, db.requests[q].row;
    match RefuseVerdict(v) {
      case Some(code) => return Rejected(code);
      case None =>
    }
    var adopted := if v.AdoptExisting? then v.rec else None;
    if adopted.Some? && exists t :: t in db.sessions && t != s && db.sessions[t].recording == adopted {
      return Rejected("recording_already_linked");
    }
    if v.AdoptExisting? && !v.reachable { return Rejected("adopted_recording_unreachable"); }
    if s !in db.sessions || db.sessions[s].version != row.version { return Conflict; }
    StoreResolution(db, q, adopted);
    r := Done;
  }

  lemma ResolvedTables(st: State, st': State, q: RequestId, adopted: Option<RecordingId>)
    requires RequestEnabled(st, q, ResolveCommit(adopted))
    requires var s, row := st.requests[q].session, st.requests[q].row;
             && st'.sessions == st.sessions[s := ResolvedRow(row, adopted)]
                 && st'.audits == st.audits + {Audit(s, row.marker.value)}
             && st'.log == st.log + [OperationAudited(s, row.marker.value)] && st'.requests == st.requests - {q}
    requires st'.jobs == st.jobs && st'.tombstones == st.tombstones && st'.compensations == st.compensations
    requires st'.recordings == st.recordings && st'.issued == st.issued && st'.workers == st.workers
    requires st'.operations == st.operations && st'.produced == st.produced && st'.buried == st.buried
    requires st'.stats == st.stats
    ensures Requested(st, st', q, ResolveCommit(adopted))
  {
  }

  method StoreResolution(db: Database, q: RequestId, adopted: Option<RecordingId>)
    requires db.Valid() && RequestEnabled(db.View(), q, ResolveCommit(adopted))
    modifies db
    ensures db.Valid() && Requested(old(db.View()), db.View(), q, ResolveCommit(adopted))
    ensures Resolves(old(db.View()), db.View(), old(db.requests)[q].session, adopted)
  {
    RequestFacts(db.history, q);
    ResolvingIs(db.View(), q, adopted);
    var s, row := db.requests[q].session, db.requests[q].row;
    ghost var before, run := db.View(), AfterRequest(db.history, q, ResolveCommit(adopted));
    db.Replace(db.sessions[s := ResolvedRow(row, adopted)], db.jobs, db.tombstones,
               db.audits + {Audit(s, row.marker.value)},
               db.requests - {q}, db.log + [OperationAudited(s, row.marker.value)], db.buried, run);
    ResolvedTables(before, db.View(), q, adopted);
  }

  // ---------------------------------------------------------------- confirming a deletion

  /** Some job of the session is running under a live lease, or running with an upload still open. */
  predicate StillWorking(jobs: map<JobId, JobRow>, s: SessionId, marker: Option<OperationId>, live: set<JobId>) {
    exists j :: j in jobs && jobs[j].session == s && jobs[j].status == Running
                && (j in live || (marker.Some? && jobs[j].kind == Transcribe))
  }

  predicate CleanupOutstanding(compensations: map<(SessionId, RecordingId), CompensationStatus>, s: SessionId) {
    exists k :: k in compensations && k.0 == s && compensations[k] != CleanupDone
  }

  /** First half of a confirmation; `live` are the jobs whose lease has not expired. */
  method OpenDeletion(db: Database, q: RequestId, s: SessionId, live: set<JobId>) returns (r: Outcome)
    requires db.Valid() && q !in db.requests
    modifies db
    ensures db.Valid() && r != Conflict
    ensures r.Done? <==>
              && s in old(db.sessions) && old(db.sessions)[s].state == DeletePending
              && (forall j :: j in old(db.jobs) && old(db.jobs)[j].session == s && old(db.jobs)[j].status == Running ==>
                    j !in live && (old(db.sessions)[s].marker == None || old(db.jobs)[j].kind != Transcribe))
              && (forall k :: k in old(db.compensations) && k.0 == s ==> old(db.compensations)[k] == CleanupDone)
    ensures if r.Done? then Requested(old(db.View()), db.View(), q, DeleteRead(s)) else db.View() == old(db.View())
  {
    if s !in db.sessions { return Rejected("session_not_found"); }
    var row := db.sessions[s];
    if row.state != DeletePending { return Rejected("deletion_not_pending"); }
    if StillWorking(db.jobs, s, row.marker, live) { return Rejected("deletion_pending_active_job"); }
    if CleanupOutstanding(db.compensations, s) { return Rejected("deletion_pending_compensation"); }
    ghost var run := AfterRequest(db.history, q, DeleteRead(s));
    db.requests := db.requests[q := Deleting(s, row, false)];
    db.history := run;
    r := Done;
  }

  /** The provider's copy goes first; `refusal` is its error, a missing recording not being one. */
  method EraseProviderCopy(db: Database, q: RequestId, refusal: Option<string>) returns (r: Outcome)
    requires db.Valid() && q in db.requests && db.requests[q].Deleting?
    requires db.Read(db.requests[q].session, db.requests[q].row)
    modifies db
    ensures db.Valid() && (r.Done? <==> refusal.None?)
    ensures r.Done? ==> Requested(old(db.View()), db.View(), q, DeleteErase)
    ensures var s, row := old(db.requests)[q].session, old(db.requests)[q].row;
            !r.Done? ==> Performs(old(db.View()), db.View(), if r.Rejected? then Done else r, s, row,
                                  row.(lastError := refusal), map[], map[], false)
  {
    var req := db.requests[q];
    if refusal.Some? {
      var ok := db.Commit(req.session, req.row, req.row.(lastError := refusal), map[], map[], map[], false);
      return if ok then Rejected("speakr_deletion_failed") else Conflict;
    }
    StoreErasure(db, q);
    r := Done;
  }

  method StoreErasure(db: Database, q: RequestId)
    requires db.Valid() && q in db.requests && db.requests[q].Deleting?
    modifies db
    ensures db.Valid() && Requested(old(db.View()), db.View(), q, DeleteErase)
  {
    var req := db.requests[q];
    ghost var run := AfterRequest(db.history, q, DeleteErase);
    if req.row.recording.Some? { db.recordings := Erased(db.recordings, req.row.recording.value); }
    db.requests := db.requests[q := req.(erased := true)];
    db.history := run;
  }

  /** Then the row goes, with its jobs; the tombstone stays. */
  method CloseDeletion(db: Database, q: RequestId) returns (r: Outcome)
    requires db.Valid() && q in db.requests && db.requests[q].Deleting?
    requires db.requests[q].erased || db.requests[q].row.recording == None
    modifies db
    ensures db.Valid() && !r.Rejected?
    ensures if r.Done? then Requested(old(db.View()), db.View(), q, DeleteCommit) else db.View() == old(db.View())
    ensures r.Done? ==> old(db.requests)[q].session !in db.sessions && old(db.requests)[q].session in db.tombstones
    ensures r.Done? ==>
              && (forall j :: j in db.jobs <==>
                    j in old(db.jobs) && old(db.jobs)[j].session != old(db.requests)[q].session)
              && (forall j :: j in db.jobs ==> db.jobs[j] == old(db.jobs)[j])
              && (forall t :: t in old(db.sessions) && t != old(db.requests)[q].session ==>
                    t in db.sessions && db.sessions[t] == old(db.sessions)[t])
  {
    var s, row := db.requests[q].session, db.requests[q].row;
    if s !in db.sessions || db.sessions[s].version != row.version { return Conflict; }
    RemoveSession(db, q);
    r := Done;
  }

  lemma RemovedTables(st: State, st': State, q: RequestId)
    requires RequestEnabled(st, q, DeleteCommit)
    requires var s, row := st.requests[q].session, st.requests[q].row;
             && st'.sessions == st.sessions - {s} && st'.jobs == JobsWithout(st.jobs, s)
                 && st'.tombstones == st.tombstones + {s}
             && st'.buried == st.buried[s := row.marker] && st'.requests == st.requests - {q}
    requires st'.compensations == st.compensations && st'.audits == st.audits && st'.recordings == st.recordings
    requires st'.issued == st.issued
    requires st'.workers == st.workers && st'.log == st.log && st'.operations == st.operations
    requires st'.produced == st.produced && st'.stats == st.stats
    ensures Requested(st, st', q, DeleteCommit)
  {
  }

  method RemoveSession(db: Database, q: RequestId)
    requires db.Valid() && RequestEnabled(db.View(), q, DeleteCommit)
    modifies db
    ensures db.Valid() && Requested(old(db.View()), db.View(), q, DeleteCommit)
  {
    var s, row := db.requests[q].session, db.requests[q].row;
    ghost var before, run := db.View(), AfterRequest(db.history, q, DeleteCommit);
    db.Replace(db.sessions - {s}, JobsWithout(db.jobs, s), db.tombstones + {s}, db.audits, db.requests - {q},
               db.log, db.buried[s := row.marker], run);
    RemovedTables(before, db.View(), q);
  }

  // ---------------------------------------------------------------- webhooks

  method TranscriptionCompleted(db: Database, s: SessionId, read: SessionRow, durationMs: Option<nat>, sawActive: bool,
                                id: JobId, maxAttempts: nat)
    returns (r: Outcome)
    requires db.Valid() && db.Read(s, read) && id !in db.stats
    modifies db
    ensures db.Valid() && !r.Rejected?
    ensures Performs(old(db.View()), db.View(), r, s, read, if durationMs.Some? then read.(durationMs := durationMs)
                     else read,
                     map[], EnsureJob(s, Reconcile, sawActive, id, maxAttempts), false)
  {
    var edited := if durationMs.Some? then read.(durationMs := durationMs) else read;
    var ok := db.Commit(s, read, edited, map[], map[], EnsureJob(s, Reconcile, sawActive, id, maxAttempts), false);
    r := Finished(ok);
  }

  method TranscriptionFailed(db: Database, s: SessionId, read: SessionRow, message: string, jobs: map<JobId, JobRow>)
    returns (r: Outcome)
    requires db.Valid() && db.Read(s, read) && db.ReadJobs(s, jobs)
    modifies db
    ensures db.Valid() && !r.Rejected?
    ensures Performs(old(db.View()), db.View(), r, s, read,
                     (if read.state == Transcribing then read.(state := Failed) else read).(lastError := Some(message)),
                     Cancellations(ActiveJobs(jobs)), map[], false)
    ensures r.Done? && Covers(old(db.jobs), s, jobs) ==> NoneActive(db.jobs, s)
  {
    var edited := (if read.state == Transcribing then read.(state := Failed) else read).(lastError := Some(message));
    r := CommitCancelling(db, s, read, edited, jobs);
  }

  /** The provider reports a recording gone: the link is dropped. */
  method RecordingDeleted(db: Database, rec: RecordingId, s: SessionId, read: SessionRow, note: string)
    returns (r: Outcome)
    requires db.Valid() && db.Read(s, read) && read.recording == Some(rec)
    requires rec in db.recordings ==> db.recordings[rec].gone
    modifies db
    ensures db.Valid() && !r.Rejected?
    ensures if r.Done?
            then
              && s in db.sessions && db.sessions == old(db.sessions)[s := db.sessions[s]]
              && db.sessions[s] == read.(version := read.version + 1, recording := None, lastError := Some(note))
              && OutsideEnabled(old(db.View()), WebhookDeleted(s, note))
              && db.View() == OutsideApply(old(db.View()), WebhookDeleted(s, note))
            else db.View() == old(db.View())
  {
    if s !in db.sessions || db.sessions[s].version != read.version { return Conflict; }
    ghost var run := AfterOutside(db.history, WebhookDeleted(s, note));
    db.sessions := db.sessions[s := read.(version := read.version + 1, recording := None, lastError := Some(note))];
    db.history := run;
    r := Done;
  }
}

/**
 The shared state of API requests, workers and the media provider, and the atomic steps that
 change it.  A row write is a compare-and-swap on the row's version: an actor holds the row it
 read, and its commit goes through only while the stored version is still that one.
 */
module Protocol {
  import opened Common
  import opened SessionStates

  type SessionId = nat
  type JobId = nat
  type OperationId = nat
  type RecordingId = nat
  type RevisionId = nat
  type WorkerId = nat
  type RequestId = nat

  datatype JobKind = Transcribe | Reconcile | Extract | Summarize
  datatype JobStatus = Queued | Running | Succeeded | JobFailed | JobCancelled

  datatype SessionRow = SessionRow(
    version: nat,
    state: SessionState,
    hasMedia: bool,
    recording: Option<RecordingId>,
    marker: Option<OperationId>,
    submitted: bool,
    revision: Option<RevisionId>,
    durationMs: Option<nat>,
    reconciledAt: Option<nat>,
    lastError: Option<string>)

  datatype JobRow = JobRow(
    version: nat,
    session: SessionId,
    kind: JobKind,
    status: JobStatus,
    attempts: nat,
    maxAttempts: nat,
    errorCode: Option<string>,
    ambiguousOperation: Option<OperationId>)

  predicate Active(j: JobRow) {
    j.status == Queued || j.status == Running
  }

  datatype CompensationStatus = Pending | CleanupFailed | CleanupDone

  /** A recording at the provider, with the session and operation whose upload made it. */
  datatype Recording = Recording(session: SessionId, op: OperationId, gone: bool)

  datatype Audit = Audit(session: SessionId, op: OperationId)

  /** What a worker holds in memory; a crash drops all of it. */
  datatype Phase =
    | Fetched                                                       // claimed, no session data in memory
    | Vetted(row: SessionRow)                                       // a checked session row in memory
    | Marked(op: OperationId)                                       // marker committed, no call made
    | Calling(op: OperationId)                                      // leased upload call in flight
    | Accepted(op: OperationId, rec: RecordingId)                   // provider created the recording
    | Confirmed(op: OperationId, rec: RecordingId, row: SessionRow) // reloaded, job still running
    | Orphaned(op: OperationId, rec: RecordingId)                   // reloaded, work was cancelled

  datatype Worker =
    | Idle
    | Busy(job: JobId, session: SessionId, kind: JobKind, phase: Phase)
    | Cleaning(target: SessionId, rec: RecordingId, erased: bool)

  /** API requests whose decision rests on rows that their commit does not write. */
  datatype Request =
    | Resolving(session: SessionId, row: SessionRow)
    | Deleting(session: SessionId, row: SessionRow, erased: bool)

  /** Observable history of uploads. */
  datatype Event =
    | UploadStarted(session: SessionId, op: OperationId)
    | RecordingLinked(session: SessionId, op: OperationId, rec: RecordingId)
    | OperationAudited(session: SessionId, op: OperationId)

  /** Who began an operation, for which session, on behalf of which job. */
  datatype Begun = Begun(session: SessionId, job: JobId, worker: WorkerId)

  datatype JobStats = JobStats(claims: nat, polls: nat, recoveries: nat)

  datatype State = State(
    sessions: map<SessionId, SessionRow>,
    jobs: map<JobId, JobRow>,
    tombstones: set<SessionId>,
    compensations: map<(SessionId, RecordingId), CompensationStatus>,
    audits: set<Audit>,
    recordings: map<RecordingId, Recording>,
    issued: set<RecordingId>,                        // every id the provider has ever handed out
    workers: map<WorkerId, Worker>,
    requests: map<RequestId, Request>,
    // history
    log: seq<Event>,
    operations: map<OperationId, Begun>,             // operations ever begun
    produced: map<OperationId, RecordingId>,         // what the provider made for an operation
    buried: map<SessionId, Option<OperationId>>,     // deleted sessions, with the marker they carried
    stats: map<JobId, JobStats>)                     // per job ever created

  const EMPTY: State := State(map[], map[], {}, map[], {}, map[], {}, map[], map[], [], map[], map[], map[], map[])

  // ---------------------------------------------------------------- job writes

  datatype JobWrite =
    | Claim                                                    // a worker picks the job up
    | Touch                                                    // a checkpoint renews the lease
    | Close(status: JobStatus, error: Option<string>, op: Option<OperationId>)
    | Retry(code: string)                                      // back to the queue after a failure
    | Poll(code: string)                                       // back to the queue, attempt refunded
    | Recover(code: string)                                    // back to the queue, lease expired

  predicate WriteAllowed(j: JobRow, w: JobWrite) {
    match w
    case Claim => j.status == Queued
    case Touch => j.status == Running
    case Close(status, _, _) => status == JobCancelled || status == JobFailed
        || (status == Succeeded && j.status == Running)
    case Retry(_) => j.status == Running && j.attempts < j.maxAttempts
    case Poll(_) => j.status == Running
    case Recover(_) => j.status == Running
  }

  function Written(j: JobRow, w: JobWrite): JobRow {
    var next := j.(version := j.version + 1);
    match w
    case Claim => next.(status := Running, attempts := j.attempts + 1)
    case Touch => next
    case Close(status, error, op) => next.(status := status, errorCode := error, ambiguousOperation := op)
    case Retry(code) => next.(status := Queued, errorCode := Some(code))
    case Poll(code) => next.(status := Queued, errorCode := Some(code), attempts := if j.attempts == 0 then 0
                             else j.attempts - 1)
    case Recover(code) => next.(status := Queued, errorCode := Some(code))
  }

  function Counted(n: JobStats, w: JobWrite): JobStats {
    match w
    case Claim => n.(claims := n.claims + 1)
    case Poll(_) => n.(polls := n.polls + 1)
    case Recover(_) => n.(recoveries := n.recoveries + 1)
    case _ => n
  }

  function NewJob(s: SessionId, kind: JobKind, maxAttempts: nat): JobRow {
    JobRow(1, s, kind, Queued, 0, maxAttempts, None, None)
  }

  function JobsAfter(jobs: map<JobId, JobRow>, writes: map<JobId, JobWrite>, added: map<JobId, JobRow>): map<JobId,
                     JobRow> {
    (map j | j in jobs :: if j in writes then Written(jobs[j], writes[j]) else jobs[j]) + added
  }

  /** Deleting a session row takes its jobs with it. */
  function JobsWithout(jobs: map<JobId, JobRow>, s: SessionId): map<JobId, JobRow> {
    map j | j in jobs && jobs[j].session != s :: jobs[j]
  }

  function StatsAfter(stats: map<JobId, JobStats>, writes: map<JobId, JobWrite>, added: map<JobId, JobRow>): map<JobId,
                      JobStats> {
    (map j | j in stats :: if j in writes then Counted(stats[j], writes[j]) else stats[j])
    + (map j | j in added :: JobStats(0, 0, 0))
  }

  // ---------------------------------------------------------------- steps

  /** A commit that leaves marker, recording link and revision of the session row alone. */
  datatype Transaction = Transaction(
    s: SessionId,
    row: SessionRow,
    writes: map<JobId, JobWrite>,
    added: map<JobId, JobRow>,
    tombstone: bool,
    local: Option<(WorkerId, Worker)>)

  datatype WorkerAct =
    | Load
    | Begin(op: OperationId)
    | StartCall
    | Accept(rec: RecordingId)                       // the provider's answer arrives
    | CallFailed
    | Confirm
    | Orphan
    | Link(durationMs: Option<nat>)
    | AddRevision(row: SessionRow, added: map<JobId, JobRow>)
    | Compensate

  datatype CleanupAct =
    | Pick(s: SessionId, rec: RecordingId)
    | Erase
    | Fail
    | Finish

  datatype RequestAct =
    | ResolveRead(s: SessionId)
    | ResolveCommit(adopted: Option<RecordingId>)
    | DeleteRead(s: SessionId)
    | DeleteErase
    | DeleteCommit
    | Abandon

  datatype OutsideAct =
    | CreateSession(s: SessionId)
    | WebhookDeleted(s: SessionId, note: string)
    | ProviderCreate(s: SessionId, op: OperationId, rec: RecordingId)
    | ProviderDrop(rec: RecordingId)
    | ProviderForeign(rec: RecordingId)              // a recording made outside this system
    | Crash(w: WorkerId)

  datatype Step =
    | Commit(tx: Transaction)
    | ByWorker(w: WorkerId, act: WorkerAct)
    | Cleanup(w: WorkerId, clean: CleanupAct)
    | ByRequest(q: RequestId, req: RequestAct)
    | Outside(out: OutsideAct)

  /** A row write that the accounting does not depend on. */
  ghost predicate OrdinaryWrite(was: SessionRow, row: SessionRow) {
    row == was
    || (&& row.version == was.version + 1
        && row.marker == was.marker && row.recording == was.recording && row.revision == was.revision
        && Connected(was.state, row.state) && row.state != Deleted)
  }

  /** The same, except that the current revision is replaced. */
  ghost predicate RevisionWrite(was: SessionRow, row: SessionRow) {
    && row.version == was.version + 1
    && row.marker == was.marker && row.recording == was.recording && row.revision.Some?
    && Connected(was.state, row.state) && row.state != Deleted
  }

  predicate Halted(st: SessionState) {
    st == Cancelled || st == DeletePending || st == Deleted
  }

  ghost predicate LinkedElsewhere(st: State, s: SessionId, rec: RecordingId) {
    exists t :: t in st.sessions && t != s && st.sessions[t].recording == Some(rec)
  }

  /** The compare-and-swap: the row in memory is the stored one. */
  predicate Fresh(st: State, s: SessionId, row: SessionRow) {
    s in st.sessions && st.sessions[s].version == row.version
  }

  predicate JobWritesAllowed(st: State, writes: map<JobId, JobWrite>, added: map<JobId, JobRow>, s: SessionId) {
    && (forall j :: j in writes ==> j in st.jobs && WriteAllowed(st.jobs[j], writes[j]))
    && (forall j :: j in added ==> j !in st.stats && added[j] == NewJob(s, added[j].kind, added[j].maxAttempts))
  }

  /** Local states a worker may be left in by an ordinary commit. */
  predicate PlainLocal(st: State, s: SessionId, row: SessionRow, w: Worker) {
    match w
    case Idle => true
    case Cleaning(_, _, _) => false
    case Busy(j, t, kind, phase) =>
      && t == s && j in st.stats && (j in st.jobs ==> st.jobs[j].session == s && st.jobs[j].kind == kind)
      && (phase == Fetched || (phase == Vetted(row) && row.state != DeletePending))
  }

  ghost predicate CommitEnabled(st: State, tx: Transaction) {
    && tx.s in st.sessions
    && OrdinaryWrite(st.sessions[tx.s], tx.row)
    && (tx.row.state == DeletePending ==> tx.tombstone || tx.s in st.tombstones)
    && JobWritesAllowed(st, tx.writes, tx.added, tx.s)
    && (tx.local.Some? ==> PlainLocal(st, tx.s, tx.row, tx.local.value.1))
  }

  ghost function CommitApply(st: State, tx: Transaction): State
    requires CommitEnabled(st, tx)
  {
    st.(sessions := st.sessions[tx.s := tx.row],
        jobs := JobsAfter(st.jobs, tx.writes, tx.added),
        stats := StatsAfter(st.stats, tx.writes, tx.added),
        tombstones := if tx.tombstone then st.tombstones + {tx.s} else st.tombstones,
        workers := if tx.local.Some? then st.workers[tx.local.value.0 := tx.local.value.1] else st.workers)
  }

  predicate BusyIn(st: State, w: WorkerId) {
    w in st.workers && st.workers[w].Busy?
  }

  predicate RunningJob(st: State, j: JobId) {
    j in st.jobs && st.jobs[j].status == Running
  }

  /** What worker `me` may do next. */
  ghost predicate WorkerEnabled(st: State, me: Worker, act: WorkerAct)
    requires me.Busy?
  {
    var s, phase := me.session, me.phase;
    match act
    case Load => (phase.Fetched? || phase.Vetted?) && s in st.sessions && s !in st.tombstones
    case Begin(op) =>
      && me.kind == Transcribe && phase.Vetted? && Fresh(st, s, phase.row)
      && phase.row.recording == None && phase.row.marker == None
      && op !in st.operations
    case StartCall => phase.Marked? && RunningJob(st, me.job)
    case Accept(rec) => phase.Calling? && phase.op in st.produced && st.produced[phase.op] == rec
    case CallFailed => phase.Calling? || phase.Accepted?
    case Confirm =>
      && phase.Accepted? && RunningJob(st, me.job)
      && s in st.sessions && s !in st.tombstones && !Halted(st.sessions[s].state)
    case Orphan => phase.Accepted?
    case Link(_) => phase.Confirmed? && Fresh(st, s, phase.row) && !LinkedElsewhere(st, s, phase.rec)
    case AddRevision(row, added) =>
      && phase.Vetted? && Fresh(st, s, phase.row)
      && RevisionWrite(phase.row, row) && row.state != DeletePending
      && JobWritesAllowed(st, map[], added, s)
    case Compensate => phase.Orphaned?
  }

  /** The row a link commit writes: recording id in, marker out, duration filled in if unknown. */
  function LinkedRow(row: SessionRow, rec: RecordingId, durationMs: Option<nat>): SessionRow {
    row.(version := row.version + 1, recording := Some(rec), marker := None,
         durationMs := if row.durationMs == None then durationMs else row.durationMs)
  }

  function MarkedRow(row: SessionRow, op: OperationId): SessionRow {
    row.(version := row.version + 1, marker := Some(op))
  }

  /** The shared state after worker `me` acts; what it holds afterwards is `PhaseAfter`. */
  ghost function WorkerApply(st: State, w: WorkerId, me: Worker, act: WorkerAct): State
    requires me.Busy? && WorkerEnabled(st, me, act)
  {
    var s, phase := me.session, me.phase;
    match act
    case Begin(op) =>
      st.(sessions := st.sessions[s := MarkedRow(phase.row, op)],
          operations := st.operations[op := Begun(s, me.job, w)])
    case StartCall =>
      st.(jobs := st.jobs[me.job := Written(st.jobs[me.job], Touch)], log := st.log + [UploadStarted(s, phase.op)])
    case Link(durationMs) =>
      st.(sessions := st.sessions[s := LinkedRow(phase.row, phase.rec, durationMs)],
          log := st.log + [RecordingLinked(s, phase.op, phase.rec)])
    case AddRevision(row, added) =>
      st.(sessions := st.sessions[s := row],
          jobs := JobsAfter(st.jobs, map[], added), stats := StatsAfter(st.stats, map[], added))
    case Compensate =>
      st.(tombstones := st.tombstones + {s},
          compensations := if (s, phase.rec) in st.compensations then st.compensations
              else st.compensations[(s, phase.rec) := Pending])
    case _ => st
  }

  ghost function WorkerAfter(st: State, me: Worker, act: WorkerAct): Worker
    requires me.Busy? && WorkerEnabled(st, me, act)
  {
    var phase := me.phase;
    match act
    case Load => me.(phase := Vetted(st.sessions[me.session]))
    case Begin(op) => me.(phase := Marked(op))
    case StartCall => me.(phase := Calling(phase.op))
    case Accept(rec) => me.(phase := Accepted(phase.op, rec))
    case CallFailed => me.(phase := Fetched)
    case Confirm => me.(phase := Confirmed(phase.op, phase.rec, st.sessions[me.session]))
    case Orphan => me.(phase := Orphaned(phase.op, phase.rec))
    case Link(durationMs) => me.(phase := Vetted(LinkedRow(phase.row, phase.rec, durationMs)))
    case AddRevision(row, _) => me.(phase := Vetted(row))
    case Compensate => Cleaning(me.session, phase.rec, false)
  }

  ghost predicate WorkerCan(st: State, w: WorkerId, act: WorkerAct) {
    BusyIn(st, w) && WorkerEnabled(st, st.workers[w], act)
  }

  ghost function WorkerStepped(st: State, w: WorkerId, act: WorkerAct): State
    requires WorkerCan(st, w, act)
  {
    WorkerApply(st, w, st.workers[w], act).(workers := st.workers[w := WorkerAfter(st, st.workers[w], act)])
  }

  ghost predicate CleanupEnabled(st: State, me: Worker, clean: CleanupAct) {
    match clean
    case Pick(s, rec) => (s, rec) in st.compensations && st.compensations[(s, rec)] != CleanupDone
    case Erase => me.Cleaning?
    case Fail => me.Cleaning? && !me.erased
    case Finish => me.Cleaning? && me.erased
  }

  function Erased(recordings: map<RecordingId, Recording>, rec: RecordingId): map<RecordingId, Recording> {
    if rec in recordings then recordings[rec := recordings[rec].(gone := true)] else recordings
  }

  ghost function CleanupApply(st: State, w: WorkerId, clean: CleanupAct): State
    requires w in st.workers && CleanupEnabled(st, st.workers[w], clean)
  {
    var me := st.workers[w];
    match clean
    case Pick(s, rec) =>
      st.(compensations := st.compensations[(s, rec) := Pending], workers := st.workers[w := Cleaning(s, rec, false)])
    case Erase =>
      st.(recordings := Erased(st.recordings, me.rec), workers := st.workers[w := me.(erased := true)])
    case Fail =>
      st.(compensations := st.compensations[(me.target, me.rec) := CleanupFailed], workers := st.workers[w := Idle])
    case Finish =>
      st.(compensations := st.compensations[(me.target, me.rec) := CleanupDone],
          tombstones := st.tombstones + {me.target}, workers := st.workers[w := Idle])
  }

  ghost predicate RequestEnabled(st: State, q: RequestId, req: RequestAct) {
    match req
    case ResolveRead(s) =>
      && q !in st.requests
      && s in st.sessions && st.sessions[s].marker.Some?
      && (forall j :: j in st.jobs && st.jobs[j].session == s && st.jobs[j].kind == Transcribe ==> !Active(st.jobs[j]))
    case ResolveCommit(adopted) =>
      && q in st.requests && st.requests[q].Resolving?
      && Fresh(st, st.requests[q].session, st.requests[q].row) && st.requests[q].row.marker.Some?
      && (adopted.Some? ==> adopted.value in st.issued && !LinkedElsewhere(st, st.requests[q].session, adopted.value))
    case DeleteRead(s) =>
      q !in st.requests && s in st.sessions && st.sessions[s].state == DeletePending
    case DeleteErase =>
      q in st.requests && st.requests[q].Deleting?
    case DeleteCommit =>
      && q in st.requests && st.requests[q].Deleting?
      && Fresh(st, st.requests[q].session, st.requests[q].row)
      && (st.requests[q].erased || st.requests[q].row.recording == None)
    case Abandon => true
  }

  /** The row a resolution writes: marker out, and the adopted recording in. */
  function ResolvedRow(row: SessionRow, adopted: Option<RecordingId>): SessionRow {
    row.(version := row.version + 1, marker := None, recording := if adopted.Some? then adopted else row.recording)
  }

  ghost function RequestApply(st: State, q: RequestId, req: RequestAct): State
    requires RequestEnabled(st, q, req)
  {
    match req
    case ResolveRead(s) => st.(requests := st.requests[q := Resolving(s, st.sessions[s])])
    case ResolveCommit(adopted) =>
      var s, row := st.requests[q].session, st.requests[q].row;
      st.(sessions := st.sessions[s := ResolvedRow(row, adopted)],
          audits := st.audits + {Audit(s, row.marker.value)},
          log := st.log + [OperationAudited(s, row.marker.value)],
          requests := st.requests - {q})
    case DeleteRead(s) => st.(requests := st.requests[q := Deleting(s, st.sessions[s], false)])
    case DeleteErase =>
      var r := st.requests[q];
      st.(recordings := if r.row.recording.Some? then Erased(st.recordings, r.row.recording.value) else st.recordings,
          requests := st.requests[q := r.(erased := true)])
    case DeleteCommit =>
      var s := st.requests[q].session;
      st.(sessions := st.sessions - {s},
          jobs := JobsWithout(st.jobs, s),
          tombstones := st.tombstones + {s},
          buried := st.buried[s := st.requests[q].row.marker],
          requests := st.requests - {q})
    case Abandon => st.(requests := st.requests - {q})
  }

  /**
   What happens outside workers and requests.  The provider makes a recording for an upload call at
   any time after the call started, whether or not the calling worker is still there to be told.
   */
  ghost predicate OutsideEnabled(st: State, out: OutsideAct) {
    match out
    case CreateSession(s) => s !in st.sessions && s !in st.buried && s !in st.tombstones
    case WebhookDeleted(s, _) =>
      && s in st.sessions && st.sessions[s].recording.Some?
      && (st.sessions[s].recording.value in st.recordings ==> st.recordings[st.sessions[s].recording.value].gone)
    case ProviderCreate(s, op, rec) => UploadStarted(s, op) in st.log && op !in st.produced && rec !in st.issued
    case ProviderDrop(rec) => true
    case ProviderForeign(rec) => rec !in st.issued
    case Crash(w) => true
  }

  const NEW_SESSION := SessionRow(1, Created, false, None, None, false, None, None, None, None)

  ghost function OutsideApply(st: State, out: OutsideAct): State
    requires OutsideEnabled(st, out)
  {
    match out
    case CreateSession(s) => st.(sessions := st.sessions[s := NEW_SESSION])
    case WebhookDeleted(s, note) =>
      var row := st.sessions[s];
      st.(sessions := st.sessions[s := row.(version := row.version + 1, recording := None, lastError := Some(note))])
    case ProviderCreate(s, op, rec) =>
      st.(recordings := st.recordings[rec := Recording(s, op, false)], issued := st.issued + {rec},
          produced := st.produced[op := rec])
    case ProviderDrop(rec) => st.(recordings := Erased(st.recordings, rec))
    case ProviderForeign(rec) => st.(issued := st.issued + {rec})
    case Crash(w) => st.(workers := st.workers[w := Idle])
  }

  ghost predicate Enabled(st: State, step: Step) {
    match step
    case Commit(tx) => CommitEnabled(st, tx)
    case ByWorker(w, act) => WorkerCan(st, w, act)
    case Cleanup(w, clean) => w in st.workers && CleanupEnabled(st, st.workers[w], clean)
    case ByRequest(q, req) => RequestEnabled(st, q, req)
    case Outside(out) => OutsideEnabled(st, out)
  }

  ghost function Apply(st: State, step: Step): State
    requires Enabled(st, step)
  {
    match step
    case Commit(tx) => CommitApply(st, tx)
    case ByWorker(w, act) => WorkerStepped(st, w, act)
    case Cleanup(w, clean) => CleanupApply(st, w, clean)
    case ByRequest(q, req) => RequestApply(st, q, req)
    case Outside(out) => OutsideApply(st, out)
  }

  // ---------------------------------------------------------------- runs

  /** A run: states[0] is empty and each state follows from the previous one by an enabled step. */
  datatype Run = Run(states: seq<State>, steps: seq<Step>)

  ghost predicate IsRun(run: Run) {
    && |run.states| == |run.steps| + 1
    && run.states[0] == EMPTY
    && forall i :: 0 <= i < |run.steps| ==> StepAt(run, i)
  }

  ghost predicate StepAt(run: Run, i: nat)
    requires |run.states| == |run.steps| + 1 && i < |run.steps|
  {
    Enabled(run.states[i], run.steps[i]) && run.states[i + 1] == Apply(run.states[i], run.steps[i])
  }

  const START: Run := Run([EMPTY], [])

  ghost function Current(run: Run): State
    requires IsRun(run)
  {
    run.states[|run.states| - 1]
  }

  ghost function Extended(run: Run, step: Step): (r: Run)
    requires IsRun(run) && Enabled(Current(run), step)
    ensures IsRun(r) && Current(r) == Apply(Current(run), step)
  {
    var r := Run(run.states + [Apply(Current(run), step)], run.steps + [step]);
    assert forall i :: 0 <= i < |run.steps| ==> StepAt(run, i) ==> StepAt(r, i);
    r
  }

  ghost function AfterCommit(run: Run, tx: Transaction): (r: Run)
    requires IsRun(run) && CommitEnabled(Current(run), tx)
    ensures IsRun(r) && Current(r) == CommitApply(Current(run), tx)
  {
    Extended(run, Commit(tx))
  }

  ghost function AfterWorker(run: Run, w: WorkerId, act: WorkerAct): (r: Run)
    requires IsRun(run) && WorkerCan(Current(run), w, act)
    ensures IsRun(r) && Current(r) == WorkerStepped(Current(run), w, act)
  {
    Extended(run, ByWorker(w, act))
  }

  ghost function AfterCleanup(run: Run, w: WorkerId, clean: CleanupAct): (r: Run)
    requires IsRun(run) && w in Current(run).workers && CleanupEnabled(Current(run), Current(run).workers[w], clean)
    ensures IsRun(r) && Current(r) == CleanupApply(Current(run), w, clean)
  {
    Extended(run, Cleanup(w, clean))
  }

  ghost function AfterRequest(run: Run, q: RequestId, req: RequestAct): (r: Run)
    requires IsRun(run) && RequestEnabled(Current(run), q, req)
    ensures IsRun(r) && Current(r) == RequestApply(Current(run), q, req)
  {
    Extended(run, ByRequest(q, req))
  }

  ghost function AfterOutside(run: Run, out: OutsideAct): (r: Run)
    requires IsRun(run) && OutsideEnabled(Current(run), out)
    ensures IsRun(r) && Current(r) == OutsideApply(Current(run), out)
  {
    Extended(run, Outside(out))
  }
}

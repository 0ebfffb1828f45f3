/**
 What every step keeps, and what therefore holds in every run.  The invariant is split into one
 predicate per kind of row or holder, and each step is shown to keep all of them.
 */
module ProtocolSafety {
  import opened Common
  import opened SessionStates
  import opened Protocol

  // ---------------------------------------------------------------- vocabulary

  predicate MarkerIs(st: State, s: SessionId, op: OperationId) {
    s in st.sessions && st.sessions[s].marker == Some(op)
  }

  /** The session was deleted while this operation was still unresolved; its tombstone is kept. */
  predicate BuriedWith(st: State, s: SessionId, op: OperationId) {
    s in st.buried && st.buried[s] == Some(op) && s in st.tombstones
  }

  /** Some durable record names the operation. */
  predicate Covered(st: State, s: SessionId, op: OperationId) {
    MarkerIs(st, s, op) || Audit(s, op) in st.audits || BuriedWith(st, s, op)
  }

  /** A recording an upload created is never lost track of. */
  predicate Accounted(st: State, rec: RecordingId)
    requires rec in st.recordings
  {
    var r := st.recordings[rec];
    || (r.session in st.sessions && st.sessions[r.session].recording == Some(rec))
    || (r.session, rec) in st.compensations
    || r.gone
    || Covered(st, r.session, r.op)
  }

  predicate Uploading?(p: Phase) {
    p.Marked? || p.Calling? || p.Accepted? || p.Confirmed? || p.Orphaned?
  }

  /** A row read earlier is the stored one as long as the version has not moved. */
  predicate Seen(st: State, s: SessionId, row: SessionRow) {
    s in st.sessions ==>
      row.version <= st.sessions[s].version && (row.version == st.sessions[s].version ==> row == st.sessions[s])
  }

  predicate Settles(e: Event, s: SessionId, op: OperationId) {
    (e.RecordingLinked? || e.OperationAudited?) && e.session == s && e.op == op
  }

  ghost predicate SettledBetween(log: seq<Event>, from: int, to: int, s: SessionId, op: OperationId) {
    exists k :: from < k < to && 0 <= k < |log| && Settles(log[k], s, op)
  }

  // ---------------------------------------------------------------- the invariant, by holder

  /** What holds of one session row. */
  ghost predicate SessionOk(st: State, s: SessionId, row: SessionRow) {
    && (row.marker.Some? ==> row.recording == None)
    && (row.state == DeletePending ==> s in st.tombstones)
    && row.state != Deleted
    && (row.recording.Some? ==> row.recording.value in st.issued)
    && s !in st.buried
    && (row.marker.Some? ==> row.marker.value in st.operations && st.operations[row.marker.value].session == s)
  }

  ghost predicate SessionsOk(st: State) {
    && (forall s :: s in st.sessions ==> SessionOk(st, s, st.sessions[s]))
    && (forall s :: s in st.buried ==> s in st.tombstones)
  }

  ghost predicate OperationsOk(st: State) {
    forall op :: op in st.operations ==>
      && st.operations[op].job in st.stats
      && (st.operations[op].job in st.jobs ==>
            st.jobs[st.operations[op].job].session == st.operations[op].session
                && st.jobs[st.operations[op].job].kind == Transcribe)
  }

  ghost predicate JobsOk(st: State) {
    forall j :: j in st.jobs ==>
      && j in st.stats
      && st.jobs[j].session in st.sessions
  }

  /** The retry budget, job by job. */
  predicate BudgetOk(j: JobRow, n: JobStats) {
    && n.claims == j.attempts + n.polls
    && (j.status == Queued ==> j.attempts < Budget(j) + n.recoveries)
    && (j.status == Running ==> j.attempts > 0)
    && j.attempts <= Budget(j) + n.recoveries
  }

  function Budget(j: JobRow): nat {
    if j.maxAttempts == 0 then 1 else j.maxAttempts
  }

  ghost predicate StatsOk(st: State) {
    forall j :: j in st.jobs && j in st.stats ==> BudgetOk(st.jobs[j], st.stats[j])
  }

  ghost predicate WorkerOk(st: State, w: WorkerId, me: Worker) {
    match me
    case Idle => true
    case Cleaning(s, rec, erased) =>
      (s, rec) in st.compensations && (erased && rec in st.recordings ==> st.recordings[rec].gone)
    case Busy(j, s, kind, phase) =>
      && j in st.stats
      && (s in st.sessions || s in st.buried)
      && (j in st.jobs ==> st.jobs[j].session == s && st.jobs[j].kind == kind)
      && (phase.Vetted? ==> Seen(st, s, phase.row) && phase.row.state != DeletePending && phase.row.state != Deleted)
      && (Uploading?(phase) ==> UploadOk(st, w, j, s, kind, phase))
  }

  ghost predicate UploadOk(st: State, w: WorkerId, j: JobId, s: SessionId, kind: JobKind, phase: Phase)
    requires Uploading?(phase)
  {
    && kind == Transcribe
    && phase.op in st.operations && st.operations[phase.op] == Begun(s, j, w)
    && Covered(st, s, phase.op)
    // the heart of it: while the job is live, the marker is still this upload's
    && (j in st.jobs && Active(st.jobs[j]) ==> MarkerIs(st, s, phase.op))
    && (phase.Marked? ==> UploadStarted(s, phase.op) !in st.log)
    && (phase.Marked? ==> phase.op !in st.produced)
    && ((phase.Accepted? || phase.Confirmed? || phase.Orphaned?) ==>
          phase.rec in st.recordings && st.recordings[phase.rec].session == s
              && st.recordings[phase.rec].op == phase.op)
    && (phase.Confirmed? ==>
          Seen(st, s, phase.row) && phase.row.marker == Some(phase.op) && phase.row.recording == None
          && !Halted(phase.row.state))
  }

  ghost predicate WorkersOk(st: State) {
    forall w :: w in st.workers ==> WorkerOk(st, w, st.workers[w])
  }

  ghost predicate RequestOk(st: State, q: Request) {
    match q
    case Resolving(s, row) =>
      && (s in st.sessions || s in st.buried)
      && Seen(st, s, row) && row.marker.Some? && row.marker.value in st.operations
      && st.operations[row.marker.value].job in st.stats
      && (st.operations[row.marker.value].job in st.jobs ==> !Active(st.jobs[st.operations[row.marker.value].job]))
    case Deleting(s, row, erased) =>
      && (s in st.sessions || s in st.buried)
      && Seen(st, s, row) && row.state == DeletePending
      && (row.recording.Some? ==> row.recording.value in st.issued)
      && (erased && row.recording.Some? && row.recording.value in st.recordings ==>
          st.recordings[row.recording.value].gone)
  }

  ghost predicate RequestsOk(st: State) {
    forall q :: q in st.requests ==> RequestOk(st, st.requests[q])
  }

  /** A recording is accounted for and known as what its operation produced. */
  ghost predicate RecordingOk(st: State, r: RecordingId)
    requires r in st.recordings
  {
    && Accounted(st, r) && r in st.issued
    && st.recordings[r].op in st.produced && st.produced[st.recordings[r].op] == r
  }

  ghost predicate ProducedOk(st: State, op: OperationId)
    requires op in st.produced
  {
    && op in st.operations && st.produced[op] in st.recordings
    && st.recordings[st.produced[op]].op == op
    && st.recordings[st.produced[op]].session == st.operations[op].session
  }

  ghost predicate CompensationsOk(st: State) {
    && (forall k :: k in st.compensations ==> k.1 in st.issued)
    && (forall k :: k in st.compensations && st.compensations[k] == CleanupDone && k.1 in st.recordings ==>
          st.recordings[k.1].gone)
  }

  ghost predicate RecordingsOk(st: State) {
    && (forall r :: r in st.recordings ==> RecordingOk(st, r))
    && (forall op :: op in st.produced ==> ProducedOk(st, op))
    && CompensationsOk(st)
  }

  /** Every upload call so far has its recording on file, or its operation is on record in case one turns up. */
  ghost predicate CallsOk(st: State) {
    forall e :: e in st.log && e.UploadStarted? ==>
      && e.op in st.operations && st.operations[e.op].session == e.session
      && (e.op in st.produced || Covered(st, e.session, e.op))
  }

  /** Every upload call so far was settled, or its operation is still on record as open. */
  ghost predicate LogOk(st: State) {
    && (forall i :: 0 <= i < |st.log| && st.log[i].UploadStarted? ==>
          || SettledBetween(st.log, i, |st.log|, st.log[i].session, st.log[i].op)
          || MarkerIs(st, st.log[i].session, st.log[i].op)
          || BuriedWith(st, st.log[i].session, st.log[i].op))
    && (forall i :: 0 <= i < |st.log| && st.log[i].UploadStarted? ==> st.log[i].op in st.operations)
    && UploadsSeparated(st.log)
  }

  ghost predicate UploadsSeparated(log: seq<Event>) {
    forall i, j ::
      (&& 0 <= i < j < |log| && log[i].UploadStarted? && log[j].UploadStarted?
       && log[i].session == log[j].session) ==>
      SettledBetween(log, i, j, log[i].session, log[i].op)
  }

  ghost predicate Inv(st: State) {
    && SessionsOk(st) && OperationsOk(st) && JobsOk(st) && StatsOk(st)
    && WorkersOk(st) && RequestsOk(st) && RecordingsOk(st) && LogOk(st) && CallsOk(st)
  }

  // ---------------------------------------------------------------- what a step may not undo

  /** Rows only move forward, and a row whose version is unchanged is unchanged. */
  ghost predicate RowsKept(st: State, st': State) {
    && (forall s :: s in st.sessions ==> s in st'.sessions || s in st'.buried)
    && (forall s :: s in st'.sessions && s in st.sessions ==>
          st.sessions[s].version <= st'.sessions[s].version
          && (st.sessions[s].version == st'.sessions[s].version ==> st.sessions[s] == st'.sessions[s]))
    && (forall s :: s in st'.sessions && s !in st.sessions ==> s !in st.buried)
    && (forall s :: s in st.buried ==> s in st'.buried && st'.buried[s] == st.buried[s])
    && st.tombstones <= st'.tombstones
  }

  /** A job keeps its session and type, and once finished it never becomes active again. */
  ghost predicate JobsKept(st: State, st': State) {
    && (forall j :: j in st.stats ==> j in st'.stats)
    && (forall j :: j in st'.jobs && j in st.stats ==>
          j in st.jobs && st'.jobs[j].session == st.jobs[j].session && st'.jobs[j].kind == st.jobs[j].kind
          && (Active(st'.jobs[j]) ==> Active(st.jobs[j])))
  }

  ghost predicate ProviderKept(st: State, st': State) {
    && (forall r :: r in st.recordings ==>
          r in st'.recordings && st'.recordings[r].session == st.recordings[r].session
          && st'.recordings[r].op == st.recordings[r].op && (st.recordings[r].gone ==> st'.recordings[r].gone))
    && (forall r :: r in st'.recordings && r !in st.recordings ==> r !in st.issued)
    && st.issued <= st'.issued
    && (forall k :: k in st.compensations ==> k in st'.compensations)
    && st.audits <= st'.audits
    && (forall op :: op in st.operations ==> op in st'.operations && st'.operations[op] == st.operations[op])
  }

  ghost predicate Kept(st: State, st': State) {
    RowsKept(st, st') && JobsKept(st, st') && ProviderKept(st, st')
  }

  /** No marker was cleared or replaced, and no marked session removed. */
  ghost predicate MarkersKept(st: State, st': State) {
    forall s, op :: MarkerIs(st, s, op) ==> MarkerIs(st', s, op)
  }

  /** A worker that did not move keeps its part of the invariant. */
  lemma WorkerKept(st: State, st': State, w: WorkerId, me: Worker)
    requires WorkerOk(st, w, me) && Kept(st, st') && RecordingsOk(st)
    requires me.Busy? && Uploading?(me.phase) ==>
               && (MarkerIs(st, me.session, me.phase.op) ==> Covered(st', me.session, me.phase.op))
               && (me.job in st'.jobs && Active(st'.jobs[me.job]) && MarkerIs(st, me.session, me.phase.op) ==>
                   MarkerIs(st', me.session, me.phase.op))
               && (me.phase.Marked? ==> UploadStarted(me.session, me.phase.op) !in st'.log)
               && (me.phase.Marked? ==> me.phase.op !in st'.produced)
    ensures WorkerOk(st', w, me)
  {
  }

  /** At most worker a moved. */
  ghost predicate OnlyMoves(st: State, st': State, a: Option<WorkerId>) {
    forall w :: w in st'.workers && a != Some(w) ==> w in st.workers && st'.workers[w] == st.workers[w]
  }

  /** Only worker a may have started an upload, and new recordings answer calls already made. */
  ghost predicate StartsOnly(st: State, st': State, a: Option<WorkerId>) {
    && (forall e :: e in st'.log && e.UploadStarted? && e !in st.log ==>
          a.Some? && e.op in st'.operations && st'.operations[e.op].worker == a.value)
    && (forall op :: op in st'.produced && op !in st.produced ==>
          op in st.operations && UploadStarted(st.operations[op].session, op) in st.log)
  }

  /** The workers, for a step that clears no marker and moves at most worker a. */
  lemma WorkersKept(st: State, st': State, a: Option<WorkerId>)
    requires WorkersOk(st) && RecordingsOk(st) && Kept(st, st') && MarkersKept(st, st') && OnlyMoves(st, st', a)
    requires StartsOnly(st, st', a)
    requires a.Some? && a.value in st'.workers ==> WorkerOk(st', a.value, st'.workers[a.value])
    ensures WorkersOk(st')
  {
    forall w | w in st'.workers && a != Some(w) ensures WorkerOk(st', w, st'.workers[w]) {
      WorkerKept(st, st', w, st.workers[w]);
    }
  }

  lemma RequestKept(st: State, st': State, q: Request)
    requires RequestOk(st, q) && Kept(st, st')
    ensures RequestOk(st', q)
  {
  }

  lemma RequestsKept(st: State, st': State)
    requires RequestsOk(st) && Kept(st, st')
    requires forall q :: q in st'.requests ==> q in st.requests && st'.requests[q] == st.requests[q]
    ensures RequestsOk(st')
  {
    forall q | q in st'.requests ensures RequestOk(st', st'.requests[q]) {
      RequestKept(st, st', st.requests[q]);
    }
  }

  lemma OperationsKept(st: State, st': State)
    requires OperationsOk(st) && Kept(st, st') && st'.operations == st.operations
    ensures OperationsOk(st')
  {
  }

  /** A recording stays accounted for when its link and its operation's marker do. */
  lemma RecordingKept(st: State, st': State, r: RecordingId)
    requires Kept(st, st') && r in st.recordings && Accounted(st, r)
    requires var d := st.recordings[r];
             && (MarkerIs(st, d.session, d.op) ==> Accounted(st', r))
             && (d.session in st.sessions && st.sessions[d.session].recording == Some(r) ==> Accounted(st', r))
    ensures r in st'.recordings && Accounted(st', r)
  {
  }

  /** With every recording still accounted for, the rest about recordings follows. */
  lemma AllAccounted(st: State, st': State)
    requires RecordingsOk(st) && Kept(st, st') && CompensationsOk(st')
    requires st'.recordings.Keys == st.recordings.Keys && st'.produced == st.produced
    requires forall r :: r in st'.recordings ==> Accounted(st', r)
    ensures RecordingsOk(st')
  {
    forall r | r in st'.recordings ensures RecordingOk(st', r) {
      assert RecordingOk(st, r);
    }
    forall op | op in st'.produced ensures ProducedOk(st', op) {
      assert ProducedOk(st, op);
    }
  }

  lemma SameCompensations(st: State, st': State)
    requires CompensationsOk(st) && Kept(st, st') && st'.compensations == st.compensations
    requires st'.recordings.Keys == st.recordings.Keys
    ensures CompensationsOk(st')
  {
  }

  ghost predicate LinksKept(st: State, st': State) {
    forall s :: s in st.sessions && st.sessions[s].recording.Some? ==>
      s in st'.sessions && st'.sessions[s].recording == st.sessions[s].recording
  }

  lemma RecordingsKept(st: State, st': State)
    requires RecordingsOk(st) && Kept(st, st') && MarkersKept(st, st') && LinksKept(st, st')
    requires st'.recordings.Keys == st.recordings.Keys && st'.produced == st.produced
    requires st'.compensations == st.compensations
    ensures RecordingsOk(st')
  {
    forall r | r in st'.recordings ensures Accounted(st', r) {
      var d := st.recordings[r];
      if MarkerIs(st, d.session, d.op) { assert MarkerIs(st', d.session, d.op); }
      RecordingKept(st, st', r);
    }
    SameCompensations(st, st');
    AllAccounted(st, st');
  }

  lemma LogKept(st: State, st': State)
    requires LogOk(st) && Kept(st, st') && MarkersKept(st, st') && st'.log == st.log
    ensures LogOk(st')
  {
    forall i | 0 <= i < |st.log| && st.log[i].UploadStarted?
      ensures SettledBetween(st.log, i, |st.log|, st.log[i].session, st.log[i].op)
              || MarkerIs(st', st.log[i].session, st.log[i].op) || BuriedWith(st', st.log[i].session, st.log[i].op)
    {
      if MarkerIs(st, st.log[i].session, st.log[i].op) { assert MarkerIs(st', st.log[i].session, st.log[i].op); }
    }
  }

  /** No call was made, and every marker that went away left its operation on record. */
  lemma CallsKept(st: State, st': State)
    requires CallsOk(st) && Kept(st, st')
    requires forall e :: e in st'.log && e.UploadStarted? ==> e in st.log
    requires forall op :: op in st.produced ==> op in st'.produced
    requires forall t, o :: MarkerIs(st, t, o) ==> o in st'.produced || Covered(st', t, o)
    ensures CallsOk(st')
  {
  }

  /** Everything but the tables of rows follows, for a step that clears no marker or link. */
  lemma RestKept(st: State, st': State, a: Option<WorkerId>)
    requires WorkersOk(st) && RequestsOk(st) && RecordingsOk(st) && LogOk(st) && CallsOk(st)
    requires Kept(st, st') && MarkersKept(st, st') && LinksKept(st, st') && OnlyMoves(st, st', a)
    requires a.Some? && a.value in st'.workers ==> WorkerOk(st', a.value, st'.workers[a.value])
    requires forall q :: q in st'.requests ==> q in st.requests && st'.requests[q] == st.requests[q]
    requires st'.log == st.log && st'.produced == st.produced
    requires st'.recordings.Keys == st.recordings.Keys && st'.compensations == st.compensations
    ensures WorkersOk(st') && RequestsOk(st') && RecordingsOk(st') && LogOk(st') && CallsOk(st')
  {
    WorkersKept(st, st', a);
    RequestsKept(st, st');
    RecordingsKept(st, st');
    LogKept(st, st');
    CallsKept(st, st');
  }

  lemma RowsSame(st: State, st': State)
    requires st'.sessions == st.sessions && st'.buried == st.buried && st.tombstones <= st'.tombstones
    ensures RowsKept(st, st') && MarkersKept(st, st') && LinksKept(st, st')
  {
  }

  lemma SessionsSame(st: State, st': State)
    requires SessionsOk(st) && st'.sessions == st.sessions && st'.buried == st.buried && st.tombstones <= st'.tombstones
    requires st'.operations == st.operations && st.issued <= st'.issued
    ensures SessionsOk(st')
  {
  }

  lemma JobsSame(st: State, st': State)
    requires st'.jobs == st.jobs && st'.stats == st.stats && JobsOk(st)
    ensures JobsKept(st, st')
  {
  }

  lemma ProviderSame(st: State, st': State)
    requires st'.recordings == st.recordings && st.issued <= st'.issued && st'.compensations == st.compensations
    requires st.audits <= st'.audits
    requires forall op :: op in st.operations ==> op in st'.operations && st'.operations[op] == st.operations[op]
    ensures ProviderKept(st, st')
  {
  }

  // ---------------------------------------------------------------- preservation, step by step

  lemma JobWriteKeeps(j: JobRow, w: JobWrite, n: JobStats)
    requires WriteAllowed(j, w) && BudgetOk(j, n)
    ensures BudgetOk(Written(j, w), Counted(n, w))
    ensures Active(Written(j, w)) ==> Active(j)
  {
  }

  lemma JobWritesBudget(st: State, st': State, writes: map<JobId, JobWrite>, added: map<JobId, JobRow>, s: SessionId)
    requires JobsOk(st) && StatsOk(st) && JobWritesAllowed(st, writes, added, s)
    requires st'.jobs == JobsAfter(st.jobs, writes, added) && st'.stats == StatsAfter(st.stats, writes, added)
    ensures StatsOk(st')
  {
    forall j | j in st'.jobs && j in st'.stats
      ensures BudgetOk(st'.jobs[j], st'.stats[j])
    {
      if j !in added && j in writes { JobWriteKeeps(st.jobs[j], writes[j], st.stats[j]); }
    }
  }

  lemma JobWritesKeep(st: State, st': State, writes: map<JobId, JobWrite>, added: map<JobId, JobRow>, s: SessionId)
    requires JobsOk(st) && StatsOk(st) && JobWritesAllowed(st, writes, added, s)
    requires st'.jobs == JobsAfter(st.jobs, writes, added) && st'.stats == StatsAfter(st.stats, writes, added)
    requires s in st'.sessions && forall t :: t in st.sessions ==> t in st'.sessions
    ensures JobsOk(st') && StatsOk(st') && JobsKept(st, st')
  {
    JobWritesBudget(st, st', writes, added, s);
    forall j | j in st'.jobs && j in st.stats
      ensures j in st.jobs && st'.jobs[j].session == st.jobs[j].session && st'.jobs[j].kind == st.jobs[j].kind
      ensures Active(st'.jobs[j]) ==> Active(st.jobs[j])
    {
      if j in writes { JobWriteKeeps(st.jobs[j], writes[j], st.stats[j]); }
    }
  }

  /** One row replaced, nothing else about sessions taken away. */
  lemma ReplaceRow(st: State, st': State, s: SessionId, row: SessionRow)
    requires SessionsOk(st) && st'.sessions == st.sessions[s := row] && SessionOk(st', s, row)
    requires st'.buried == st.buried && st.tombstones <= st'.tombstones && st.issued <= st'.issued
    requires forall op :: op in st.operations ==> op in st'.operations && st'.operations[op] == st.operations[op]
    ensures SessionsOk(st')
  {
    forall t | t in st'.sessions ensures SessionOk(st', t, st'.sessions[t]) {
      if t != s { assert SessionOk(st, t, st.sessions[t]); }
    }
  }

  lemma RowsReplaced(st: State, st': State, s: SessionId, row: SessionRow)
    requires SessionsOk(st) && st'.sessions == st.sessions[s := row] && s !in st.buried
    requires s in st.sessions ==> row == st.sessions[s] || row.version > st.sessions[s].version
    requires st'.buried == st.buried && st.tombstones <= st'.tombstones
    ensures RowsKept(st, st')
  {
  }

  lemma RowWriteKeeps(st: State, st': State, s: SessionId, row: SessionRow)
    requires SessionsOk(st) && s in st.sessions && OrdinaryWrite(st.sessions[s], row)
    requires st'.sessions == st.sessions[s := row] && st'.buried == st.buried && st.tombstones <= st'.tombstones
    requires row.state == DeletePending ==> s in st'.tombstones
    requires st'.operations == st.operations && st'.issued == st.issued
    ensures SessionsOk(st') && RowsKept(st, st') && MarkersKept(st, st') && LinksKept(st, st')
  {
    assert SessionOk(st, s, st.sessions[s]);
    ReplaceRow(st, st', s, row);
    RowsReplaced(st, st', s, row);
  }

  lemma CommitFrame(st: State, st': State, tx: Transaction)
    requires SessionsOk(st) && JobsOk(st) && StatsOk(st) && CommitEnabled(st, tx) && st' == CommitApply(st, tx)
    ensures SessionsOk(st') && JobsOk(st') && StatsOk(st') && Kept(st, st') && MarkersKept(st, st')
    ensures LinksKept(st, st')
  {
    JobWritesKeep(st, st', tx.writes, tx.added, tx.s);
    RowWriteKeeps(st, st', tx.s, tx.row);
    ProviderSame(st, st');
  }

  lemma PlainWorkerOk(st: State, st': State, tx: Transaction)
    requires SessionsOk(st) && JobsOk(st) && CommitEnabled(st, tx) && st' == CommitApply(st, tx) && JobsKept(st, st')
    requires tx.local.Some?
    ensures WorkerOk(st', tx.local.value.0, tx.local.value.1)
  {
  }

  lemma CommitKeeps(st: State, tx: Transaction)
    requires Inv(st) && CommitEnabled(st, tx)
    ensures Inv(CommitApply(st, tx)) && Kept(st, CommitApply(st, tx))
  {
    var st' := CommitApply(st, tx);
    CommitFrame(st, st', tx);
    if tx.local.Some? { PlainWorkerOk(st, st', tx); }
    CommitRest(st, st', tx);
    OperationsKept(st, st');
  }

  lemma CommitRest(st: State, st': State, tx: Transaction)
    requires WorkersOk(st) && RequestsOk(st) && RecordingsOk(st) && LogOk(st) && CallsOk(st)
    requires Kept(st, st') && MarkersKept(st, st') && LinksKept(st, st')
    requires CommitEnabled(st, tx) && st' == CommitApply(st, tx)
    requires tx.local.Some? ==> WorkerOk(st', tx.local.value.0, tx.local.value.1)
    ensures WorkersOk(st') && RequestsOk(st') && RecordingsOk(st') && LogOk(st') && CallsOk(st')
  {
    RestKept(st, st', if tx.local.Some? then Some(tx.local.value.0) else None);
  }

  /** Steps that change nothing but what worker w holds. */
  lemma LocalKeeps(st: State, st': State, w: WorkerId, me: Worker)
    requires Inv(st) && st' == st.(workers := st.workers[w := me]) && WorkerOk(st', w, me)
    ensures Inv(st') && Kept(st, st')
  {
    RowsSame(st, st');
    JobsSame(st, st');
    ProviderSame(st, st');
    RestKept(st, st', Some(w));
  }

  lemma QuietWorker(st: State, st': State, w: WorkerId, act: WorkerAct)
    requires SessionsOk(st) && RecordingsOk(st) && BusyIn(st, w) && WorkerOk(st, w, st.workers[w])
    requires act.Load? || act.Accept? || act.CallFailed? || act.Confirm? || act.Orphan?
    requires WorkerEnabled(st, st.workers[w], act)
    requires st' == st.(workers := st.workers[w := WorkerAfter(st, st.workers[w], act)])
    ensures WorkerOk(st', w, st'.workers[w])
  {
  }

  lemma QuietStepKeeps(st: State, w: WorkerId, act: WorkerAct)
    requires Inv(st) && WorkerCan(st, w, act)
    requires act.Load? || act.Accept? || act.CallFailed? || act.Confirm? || act.Orphan?
    ensures Inv(WorkerStepped(st, w, act)) && Kept(st, WorkerStepped(st, w, act))
  {
    var st' := st.(workers := st.workers[w := WorkerAfter(st, st.workers[w], act)]);
    QuietWorker(st, st', w, act);
    LocalKeeps(st, st', w, st'.workers[w]);
  }

  /** Beginning an operation: the row had no marker, so nothing is overwritten. */
  lemma BeginRows(st: State, st': State, s: SessionId, row: SessionRow, op: OperationId, begun: Begun)
    requires SessionsOk(st) && s in st.sessions && st.sessions[s] == row
    requires row.marker == None && row.recording == None && op !in st.operations
    requires st'.sessions == st.sessions[s := MarkedRow(row, op)] && st'.operations == st.operations[op := begun]
    requires begun.session == s
    requires st'.buried == st.buried && st'.tombstones == st.tombstones && st'.issued == st.issued
    ensures SessionsOk(st') && RowsKept(st, st') && MarkersKept(st, st') && LinksKept(st, st')
  {
    assert SessionOk(st, s, row);
    ReplaceRow(st, st', s, MarkedRow(row, op));
    RowsReplaced(st, st', s, MarkedRow(row, op));
  }

  lemma BeginWorker(st: State, st': State, w: WorkerId, op: OperationId)
    requires BusyIn(st, w) && WorkerOk(st, w, st.workers[w]) && WorkerCan(st, w, Begin(op))
    requires st' == WorkerStepped(st, w, Begin(op))
    requires UploadStarted(st.workers[w].session, op) !in st.log && op !in st.produced
    ensures WorkerOk(st', w, st'.workers[w])
  {
  }

  lemma FreshOperation(st: State, s: SessionId, op: OperationId)
    requires LogOk(st) && RecordingsOk(st) && op !in st.operations
    ensures UploadStarted(s, op) !in st.log && op !in st.produced
  {
  }

  lemma BeginOperations(st: State, st': State, op: OperationId, begun: Begun)
    requires OperationsOk(st) && op !in st.operations && st'.operations == st.operations[op := begun]
    requires st'.jobs == st.jobs && st'.stats == st.stats
    requires begun.job in st.stats
    requires begun.job in st.jobs ==>
               st.jobs[begun.job].session == begun.session && st.jobs[begun.job].kind == Transcribe
    ensures OperationsOk(st')
  {
  }

  lemma BeginFrame(st: State, st': State, w: WorkerId, op: OperationId)
    requires SessionsOk(st) && OperationsOk(st) && JobsOk(st) && StatsOk(st)
    requires BusyIn(st, w) && WorkerOk(st, w, st.workers[w]) && WorkerCan(st, w, Begin(op))
    requires st' == WorkerStepped(st, w, Begin(op))
    ensures SessionsOk(st') && OperationsOk(st') && JobsOk(st') && StatsOk(st')
    ensures Kept(st, st') && MarkersKept(st, st') && LinksKept(st, st')
  {
    var me := st.workers[w];
    BeginRows(st, st', me.session, me.phase.row, op, Begun(me.session, me.job, w));
    ProviderSame(st, st');
    JobsSame(st, st');
    BeginOperations(st, st', op, Begun(me.session, me.job, w));
  }

  lemma BeginKeeps(st: State, w: WorkerId, op: OperationId)
    requires Inv(st) && WorkerCan(st, w, Begin(op))
    ensures Inv(WorkerStepped(st, w, Begin(op))) && Kept(st, WorkerStepped(st, w, Begin(op)))
  {
    var st' := WorkerStepped(st, w, Begin(op));
    BeginFrame(st, st', w, op);
    FreshOperation(st, st.workers[w].session, op);
    BeginWorker(st, st', w, op);
    BeginRest(st, st', w, op);
  }

  lemma BeginRest(st: State, st': State, w: WorkerId, op: OperationId)
    requires WorkersOk(st) && RequestsOk(st) && RecordingsOk(st) && LogOk(st) && CallsOk(st)
    requires Kept(st, st') && MarkersKept(st, st') && LinksKept(st, st')
    requires WorkerCan(st, w, Begin(op)) && st' == WorkerStepped(st, w, Begin(op)) && WorkerOk(st', w, st'.workers[w])
    ensures WorkersOk(st') && RequestsOk(st') && RecordingsOk(st') && LogOk(st') && CallsOk(st')
  {
    RestKept(st, st', Some(w));
  }

  /** Appending an upload start: the earlier uploads of the session were all settled. */
  lemma StartLog(st: State, st': State, s: SessionId, op: OperationId)
    requires LogOk(st) && st'.log == st.log + [UploadStarted(s, op)]
    requires MarkerIs(st, s, op) && op in st.operations && UploadStarted(s, op) !in st.log
    requires st'.sessions == st.sessions && st'.buried == st.buried && st'.tombstones == st.tombstones
    requires st'.operations == st.operations
    requires s !in st.buried
    ensures LogOk(st')
  {
    var n := |st.log|;
    forall i | 0 <= i < n && st.log[i].UploadStarted?
      ensures SettledBetween(st.log, i, n, st.log[i].session, st.log[i].op) ==>
                SettledBetween(st'.log, i, n, st.log[i].session, st.log[i].op)
      ensures SettledBetween(st.log, i, n, st.log[i].session, st.log[i].op) ==>
                SettledBetween(st'.log, i, n + 1, st.log[i].session, st.log[i].op)
    {
      if SettledBetween(st.log, i, n, st.log[i].session, st.log[i].op) {
        var k :| i < k < n && 0 <= k < n && Settles(st.log[k], st.log[i].session, st.log[i].op);
        assert Settles(st'.log[k], st.log[i].session, st.log[i].op);
      }
    }
    forall i, j | 0 <= i < j < |st'.log| && st'.log[i].UploadStarted? && st'.log[j].UploadStarted?
        && st'.log[i].session == st'.log[j].session
      ensures SettledBetween(st'.log, i, j, st'.log[i].session, st'.log[i].op)
    {
      assert st.log[i] == st'.log[i];
      if j == n {
        assert st.log[i].op != op;
      } else {
        assert SettledBetween(st.log, i, j, st.log[i].session, st.log[i].op);
        var k :| i < k < j && 0 <= k < n && Settles(st.log[k], st.log[i].session, st.log[i].op);
        assert Settles(st'.log[k], st.log[i].session, st.log[i].op);
      }
    }
  }

  /** A call is made only while the marker names its operation. */
  lemma StartCalls(st: State, st': State, s: SessionId, op: OperationId)
    requires CallsOk(st) && Kept(st, st') && MarkersKept(st, st') && st'.produced == st.produced
    requires MarkerIs(st, s, op) && op in st.operations && st.operations[op].session == s
    requires st'.log == st.log + [UploadStarted(s, op)] && st'.operations == st.operations
    ensures CallsOk(st')
  {
    assert MarkerIs(st', s, op);
    forall e | e in st'.log && e.UploadStarted? && e in st.log
      ensures e.op in st'.produced || Covered(st', e.session, e.op) {
      if MarkerIs(st, e.session, e.op) { assert MarkerIs(st', e.session, e.op); }
    }
  }

  lemma StartWorker(st: State, st': State, w: WorkerId)
    requires BusyIn(st, w) && WorkerOk(st, w, st.workers[w]) && WorkerCan(st, w, StartCall)
    requires st' == WorkerStepped(st, w, StartCall)
    ensures WorkerOk(st', w, st'.workers[w])
  {
  }

  lemma TouchJobs(st: State, st': State, j: JobId)
    requires JobsOk(st) && StatsOk(st) && RunningJob(st, j)
    requires st'.jobs == st.jobs[j := Written(st.jobs[j], Touch)] && st'.stats == st.stats
    requires st'.sessions == st.sessions
    ensures JobsOk(st') && StatsOk(st') && JobsKept(st, st')
  {
    JobWriteKeeps(st.jobs[j], Touch, st.stats[j]);
  }

  lemma StartFrame(st: State, st': State, w: WorkerId)
    requires SessionsOk(st) && OperationsOk(st) && JobsOk(st) && StatsOk(st)
    requires BusyIn(st, w) && WorkerCan(st, w, StartCall)
    requires st' == WorkerStepped(st, w, StartCall)
    ensures SessionsOk(st') && OperationsOk(st') && JobsOk(st') && StatsOk(st')
    ensures Kept(st, st') && MarkersKept(st, st') && LinksKept(st, st')
  {
    TouchJobs(st, st', st.workers[w].job);
    RowsSame(st, st');
    SessionsSame(st, st');
    ProviderSame(st, st');
    OperationsKept(st, st');
  }

  lemma StartKeeps(st: State, w: WorkerId)
    requires Inv(st) && WorkerCan(st, w, StartCall)
    ensures Inv(WorkerStepped(st, w, StartCall)) && Kept(st, WorkerStepped(st, w, StartCall))
  {
    var me, st' := st.workers[w], WorkerStepped(st, w, StartCall);
    assert WorkerOk(st, w, me);
    StartFrame(st, st', w);
    StartWorker(st, st', w);
    StartOthers(st, st', w);
    StartRest(st, st', w);
  }

  lemma StartRest(st: State, st': State, w: WorkerId)
    requires SessionsOk(st) && RequestsOk(st) && RecordingsOk(st) && LogOk(st) && CallsOk(st)
    requires WorkerCan(st, w, StartCall) && WorkerOk(st, w, st.workers[w]) && st' == WorkerStepped(st, w, StartCall)
    requires Kept(st, st') && MarkersKept(st, st') && LinksKept(st, st')
    ensures RequestsOk(st') && RecordingsOk(st') && LogOk(st') && CallsOk(st')
  {
    var s, op := st.workers[w].session, st.workers[w].phase.op;
    assert SessionOk(st, s, st.sessions[s]);
    RequestsKept(st, st');
    RecordingsKept(st, st');
    StartLog(st, st', s, op);
    StartCalls(st, st', s, op);
  }

  lemma StartOthers(st: State, st': State, w: WorkerId)
    requires WorkersOk(st) && RecordingsOk(st) && WorkerCan(st, w, StartCall) && st' == WorkerStepped(st, w, StartCall)
    requires Kept(st, st') && MarkersKept(st, st') && WorkerOk(st', w, st'.workers[w])
    ensures WorkersOk(st')
  {
    WorkersKept(st, st', Some(w));
  }

  lemma CreateProvider(st: State, st': State, rec: RecordingId)
    requires RecordingsOk(st) && rec !in st.issued
    requires rec in st'.recordings && st'.recordings == st.recordings[rec := st'.recordings[rec]]
    requires st'.issued == st.issued + {rec}
    requires st'.compensations == st.compensations && st'.audits == st.audits && st'.operations == st.operations
    ensures ProviderKept(st, st')
  {
  }

  lemma CreateFrame(st: State, st': State, s: SessionId, op: OperationId, rec: RecordingId)
    requires SessionsOk(st) && OperationsOk(st) && JobsOk(st) && RecordingsOk(st)
    requires OutsideEnabled(st, ProviderCreate(s, op, rec)) && st' == OutsideApply(st, ProviderCreate(s, op, rec))
    ensures SessionsOk(st') && OperationsOk(st') && JobsOk(st')
    ensures Kept(st, st') && MarkersKept(st, st') && LinksKept(st, st')
  {
    RowsSame(st, st');
    SessionsSame(st, st');
    JobsSame(st, st');
    CreateProvider(st, st', rec);
  }

  lemma CreateWorkers(st: State, st': State, s: SessionId, op: OperationId, rec: RecordingId)
    requires WorkersOk(st) && RecordingsOk(st) && CallsOk(st) && Kept(st, st') && MarkersKept(st, st')
    requires OutsideEnabled(st, ProviderCreate(s, op, rec)) && st' == OutsideApply(st, ProviderCreate(s, op, rec))
    ensures WorkersOk(st')
  {
    WorkersKept(st, st', None);
  }

  /** Whoever still knows of the call, a new recording is covered from the moment it exists. */
  lemma CreateKeepsRecordings(st: State, st': State, s: SessionId, op: OperationId, rec: RecordingId)
    requires RecordingsOk(st) && rec !in st.issued && Covered(st, s, op) && op in st.operations && op !in st.produced
    requires st.operations[op].session == s
    requires st'.produced == st.produced[op := rec] && st'.operations == st.operations
    requires st'.recordings == st.recordings[rec := Recording(s, op, false)] && st'.issued == st.issued + {rec}
    requires st'.sessions == st.sessions && st'.compensations == st.compensations && st'.audits == st.audits
    requires st'.buried == st.buried && st'.tombstones == st.tombstones
    ensures RecordingsOk(st')
  {
    forall r | r in st'.recordings ensures Accounted(st', r) {
      if r != rec { assert Accounted(st, r); }
    }
  }

  lemma ProviderCreateKeeps(st: State, s: SessionId, op: OperationId, rec: RecordingId)
    requires Inv(st) && OutsideEnabled(st, ProviderCreate(s, op, rec))
    ensures Inv(OutsideApply(st, ProviderCreate(s, op, rec))) && Kept(st, OutsideApply(st, ProviderCreate(s, op, rec)))
  {
    var st' := OutsideApply(st, ProviderCreate(s, op, rec));
    assert UploadStarted(s, op) in st.log;
    CreateFrame(st, st', s, op, rec);
    CreateWorkers(st, st', s, op, rec);
    RequestsKept(st, st');
    CreateKeepsRecordings(st, st', s, op, rec);
    LogKept(st, st');
    CallsKept(st, st');
  }

  /** The link commit clears exactly the marker of the upload that made the recording. */
  lemma LinkRows(st: State, st': State, s: SessionId, row: SessionRow, op: OperationId, rec: RecordingId,
                 durationMs: Option<nat>)
    requires SessionsOk(st) && s in st.sessions && st.sessions[s] == row && row.marker == Some(op) && rec in st.issued
    requires st'.sessions == st.sessions[s := LinkedRow(row, rec, durationMs)]
    requires st'.buried == st.buried && st'.tombstones == st.tombstones && st'.issued == st.issued
    requires st'.operations == st.operations
    ensures SessionsOk(st') && RowsKept(st, st') && LinksKept(st, st')
    ensures forall t, o :: MarkerIs(st, t, o) && o != op ==> MarkerIs(st', t, o)
  {
    assert SessionOk(st, s, row);
    ReplaceRow(st, st', s, LinkedRow(row, rec, durationMs));
    RowsReplaced(st, st', s, LinkedRow(row, rec, durationMs));
  }

  lemma LinkWorkers(st: State, st': State, w: WorkerId, op: OperationId)
    requires WorkersOk(st) && RecordingsOk(st) && Kept(st, st') && OnlyMoves(st, st', Some(w))
    requires StartsOnly(st, st', Some(w))
    requires op in st.operations && st.operations[op].worker == w
    requires forall t, o :: MarkerIs(st, t, o) && o != op ==> MarkerIs(st', t, o)
    requires w in st'.workers && WorkerOk(st', w, st'.workers[w])
    ensures WorkersOk(st')
  {
    forall v | v in st'.workers && v != w ensures WorkerOk(st', v, st'.workers[v]) {
      WorkerKept(st, st', v, st.workers[v]);
    }
  }

  lemma LinkRecordings(st: State, st': State, s: SessionId, op: OperationId, rec: RecordingId)
    requires RecordingsOk(st) && Kept(st, st') && LinksKept(st, st')
    requires forall t, o :: MarkerIs(st, t, o) && o != op ==> MarkerIs(st', t, o)
    requires rec in st.recordings && st.recordings[rec].op == op && st.recordings[rec].session == s
    requires s in st'.sessions && st'.sessions[s].recording == Some(rec)
    requires st'.recordings == st.recordings && st'.compensations == st.compensations && st'.produced == st.produced
    ensures RecordingsOk(st')
  {
    forall r | r in st'.recordings ensures Accounted(st', r) {
      if r != rec { RecordingKept(st, st', r); }
    }
    SameCompensations(st, st');
    AllAccounted(st, st');
  }

  /** Appending an event that settles op: the only marker that went away. */
  lemma SettleLog(st: State, st': State, e: Event, s: SessionId, op: OperationId)
    requires LogOk(st) && Kept(st, st') && st'.log == st.log + [e] && Settles(e, s, op)
    requires forall t, o :: MarkerIs(st, t, o) && o != op ==> MarkerIs(st', t, o)
    requires forall t :: MarkerIs(st, t, op) ==> t == s
    ensures LogOk(st')
  {
    var n := |st.log|;
    forall i, to | 0 <= i < to <= n && SettledBetween(st.log, i, to, st.log[i].session, st.log[i].op)
      ensures SettledBetween(st'.log, i, to, st.log[i].session, st.log[i].op)
    {
      var k :| i < k < to && 0 <= k < n && Settles(st.log[k], st.log[i].session, st.log[i].op);
      assert Settles(st'.log[k], st.log[i].session, st.log[i].op);
    }
    forall i | 0 <= i < |st'.log| && st'.log[i].UploadStarted?
      ensures SettledBetween(st'.log, i, n + 1, st'.log[i].session, st'.log[i].op)
              || MarkerIs(st', st'.log[i].session, st'.log[i].op) || BuriedWith(st', st'.log[i].session, st'.log[i].op)
      ensures st'.log[i].op in st'.operations
    {
      assert st'.log[i] == st.log[i];
      if SettledBetween(st.log, i, n, st.log[i].session, st.log[i].op) {
        var k :| i < k < n && Settles(st'.log[k], st.log[i].session, st.log[i].op);
      } else if st.log[i].op == op && MarkerIs(st, st.log[i].session, op) {
        assert Settles(st'.log[n], s, op);
      }
    }
    forall i, j | 0 <= i < j < |st'.log| && st'.log[i].UploadStarted? && st'.log[j].UploadStarted?
        && st'.log[i].session == st'.log[j].session
      ensures SettledBetween(st'.log, i, j, st'.log[i].session, st'.log[i].op)
    {
      assert st'.log[i] == st.log[i] && st'.log[j] == st.log[j];
    }
  }

  lemma LinkFrame(st: State, st': State, w: WorkerId, durationMs: Option<nat>)
    requires SessionsOk(st) && OperationsOk(st) && JobsOk(st) && StatsOk(st) && RecordingsOk(st)
    requires BusyIn(st, w) && WorkerOk(st, w, st.workers[w]) && WorkerCan(st, w, Link(durationMs))
    requires st' == WorkerStepped(st, w, Link(durationMs))
    ensures SessionsOk(st') && OperationsOk(st') && JobsOk(st') && StatsOk(st') && Kept(st, st') && LinksKept(st, st')
    ensures forall t, o :: MarkerIs(st, t, o) && o != st.workers[w].phase.op ==> MarkerIs(st', t, o)
    ensures forall t :: MarkerIs(st, t, st.workers[w].phase.op) ==> t == st.workers[w].session
  {
    var me := st.workers[w];
    LinkRows(st, st', me.session, me.phase.row, me.phase.op, me.phase.rec, durationMs);
    JobsSame(st, st');
    ProviderSame(st, st');
    OperationsKept(st, st');
  }

  lemma LinkWorker(st: State, st': State, w: WorkerId, durationMs: Option<nat>)
    requires WorkerCan(st, w, Link(durationMs)) && WorkerOk(st, w, st.workers[w])
    requires st' == WorkerStepped(st, w, Link(durationMs))
    ensures WorkerOk(st', w, st'.workers[w])
  {
  }

  /** The link takes the marker away, but the recording is on file by then. */
  lemma LinkCalls(st: State, st': State, s: SessionId, op: OperationId, rec: RecordingId)
    requires CallsOk(st) && RecordingsOk(st) && Kept(st, st') && st'.produced == st.produced
    requires forall t, o :: MarkerIs(st, t, o) && o != op ==> MarkerIs(st', t, o)
    requires st'.log == st.log + [RecordingLinked(s, op, rec)]
    requires rec in st.recordings && st.recordings[rec].op == op
    ensures CallsOk(st')
  {
    CallsKept(st, st');
  }

  lemma LinkRest(st: State, st': State, s: SessionId, op: OperationId, rec: RecordingId)
    requires RequestsOk(st) && RecordingsOk(st) && LogOk(st) && CallsOk(st) && Kept(st, st') && LinksKept(st, st')
    requires forall t, o :: MarkerIs(st, t, o) && o != op ==> MarkerIs(st', t, o)
    requires forall t :: MarkerIs(st, t, op) ==> t == s
    requires rec in st.recordings && st.recordings[rec].op == op && st.recordings[rec].session == s
    requires s in st'.sessions && st'.sessions[s].recording == Some(rec)
    requires st'.recordings == st.recordings && st'.compensations == st.compensations && st'.produced == st.produced
    requires st'.requests == st.requests && st'.log == st.log + [RecordingLinked(s, op, rec)]
    ensures RequestsOk(st') && RecordingsOk(st') && LogOk(st') && CallsOk(st')
  {
    RequestsKept(st, st');
    LinkRecordings(st, st', s, op, rec);
    LinkCalls(st, st', s, op, rec);
    SettleLog(st, st', RecordingLinked(s, op, rec), s, op);
  }

  lemma LinkOthers(st: State, st': State, w: WorkerId, durationMs: Option<nat>)
    requires WorkersOk(st) && RecordingsOk(st) && Kept(st, st') && WorkerCan(st, w, Link(durationMs))
    requires st' == WorkerStepped(st, w, Link(durationMs)) && WorkerOk(st', w, st'.workers[w])
    requires forall t, o :: MarkerIs(st, t, o) && o != st.workers[w].phase.op ==> MarkerIs(st', t, o)
    ensures WorkersOk(st')
    ensures var p := st.workers[w].phase;
            && p.rec in st.recordings && st.recordings[p.rec].op == p.op
            && st.recordings[p.rec].session == st.workers[w].session
  {
    assert WorkerOk(st, w, st.workers[w]);
    LinkWorkers(st, st', w, st.workers[w].phase.op);
  }

  lemma LinkKeeps(st: State, w: WorkerId, durationMs: Option<nat>)
    requires Inv(st) && WorkerCan(st, w, Link(durationMs))
    ensures Inv(WorkerStepped(st, w, Link(durationMs))) && Kept(st, WorkerStepped(st, w, Link(durationMs)))
  {
    var st' := WorkerStepped(st, w, Link(durationMs));
    LinkFrame(st, st', w, durationMs);
    LinkWorker(st, st', w, durationMs);
    LinkOthers(st, st', w, durationMs);
    LinkRest(st, st', st.workers[w].session, st.workers[w].phase.op, st.workers[w].phase.rec);
  }

  lemma RevisionRows(st: State, st': State, s: SessionId, row: SessionRow)
    requires SessionsOk(st) && s in st.sessions && RevisionWrite(st.sessions[s], row) && row.state != DeletePending
    requires st'.sessions == st.sessions[s := row] && st'.buried == st.buried && st'.tombstones == st.tombstones
    requires st'.operations == st.operations && st'.issued == st.issued
    ensures SessionsOk(st') && RowsKept(st, st') && MarkersKept(st, st') && LinksKept(st, st')
  {
    assert SessionOk(st, s, st.sessions[s]);
    ReplaceRow(st, st', s, row);
    RowsReplaced(st, st', s, row);
  }

  lemma RevisionFrame(st: State, st': State, s: SessionId, row: SessionRow, added: map<JobId, JobRow>)
    requires SessionsOk(st) && OperationsOk(st) && JobsOk(st) && StatsOk(st)
    requires s in st.sessions && RevisionWrite(st.sessions[s], row) && row.state != DeletePending
    requires JobWritesAllowed(st, map[], added, s)
    requires st'.sessions == st.sessions[s := row]
    requires st'.jobs == JobsAfter(st.jobs, map[], added) && st'.stats == StatsAfter(st.stats, map[], added)
    requires st'.tombstones == st.tombstones && st'.compensations == st.compensations && st'.audits == st.audits
    requires st'.recordings == st.recordings && st'.issued == st.issued && st'.operations == st.operations
    requires st'.buried == st.buried
    ensures SessionsOk(st') && OperationsOk(st') && JobsOk(st') && StatsOk(st')
    ensures Kept(st, st') && MarkersKept(st, st') && LinksKept(st, st')
  {
    RevisionRows(st, st', s, row);
    JobWritesKeep(st, st', map[], added, s);
    ProviderSame(st, st');
    OperationsKept(st, st');
  }

  lemma RevisionWorker(st: State, st': State, w: WorkerId, row: SessionRow, added: map<JobId, JobRow>)
    requires WorkerCan(st, w, AddRevision(row, added)) && WorkerOk(st, w, st.workers[w])
    requires st' == WorkerStepped(st, w, AddRevision(row, added)) && JobsKept(st, st')
    ensures WorkerOk(st', w, st'.workers[w])
  {
  }

  lemma RevisionRest(st: State, st': State, w: WorkerId, row: SessionRow, added: map<JobId, JobRow>)
    requires WorkersOk(st) && RequestsOk(st) && RecordingsOk(st) && LogOk(st) && CallsOk(st)
    requires Kept(st, st') && MarkersKept(st, st') && LinksKept(st, st')
    requires WorkerCan(st, w, AddRevision(row, added)) && st' == WorkerStepped(st, w, AddRevision(row, added))
    requires WorkerOk(st', w, st'.workers[w])
    ensures WorkersOk(st') && RequestsOk(st') && RecordingsOk(st') && LogOk(st') && CallsOk(st')
  {
    RestKept(st, st', Some(w));
  }

  lemma RevisionKeeps(st: State, w: WorkerId, row: SessionRow, added: map<JobId, JobRow>)
    requires Inv(st) && WorkerCan(st, w, AddRevision(row, added))
    ensures Inv(WorkerStepped(st, w, AddRevision(row, added)))
    ensures Kept(st, WorkerStepped(st, w, AddRevision(row, added)))
  {
    var st' := WorkerStepped(st, w, AddRevision(row, added));
    assert WorkerOk(st, w, st.workers[w]);
    RevisionFrame(st, st', st.workers[w].session, row, added);
    RevisionWorker(st, st', w, row, added);
    RevisionRest(st, st', w, row, added);
  }

  /** Rows, jobs and operations untouched; the provider side moved forward. */
  lemma ProviderStepKeeps(st: State, st': State, a: Option<WorkerId>)
    requires Inv(st) && ProviderKept(st, st') && OnlyMoves(st, st', a)
    requires st'.sessions == st.sessions && st'.buried == st.buried && st.tombstones <= st'.tombstones
    requires st'.jobs == st.jobs && st'.stats == st.stats && st'.operations == st.operations
    requires st'.log == st.log && st'.produced == st.produced && st'.recordings.Keys == st.recordings.Keys
    requires forall q :: q in st'.requests ==>
               (q in st.requests && st'.requests[q] == st.requests[q]) || RequestOk(st', st'.requests[q])
    requires a.Some? && a.value in st'.workers ==> WorkerOk(st', a.value, st'.workers[a.value])
    requires CompensationsOk(st')
    ensures Inv(st') && Kept(st, st')
  {
    RowsSame(st, st');
    SessionsSame(st, st');
    JobsSame(st, st');
    OperationsKept(st, st');
    WorkersKept(st, st', a);
    forall q | q in st'.requests ensures RequestOk(st', st'.requests[q]) {
      if q in st.requests && st'.requests[q] == st.requests[q] { RequestKept(st, st', st.requests[q]); }
    }
    forall r | r in st'.recordings ensures Accounted(st', r) { RecordingKept(st, st', r); }
    AllAccounted(st, st');
    LogKept(st, st');
    CallsKept(st, st');
  }

  lemma CompensateWorker(st: State, st': State, w: WorkerId)
    requires WorkerCan(st, w, Compensate) && WorkerOk(st, w, st.workers[w]) && st' == WorkerStepped(st, w, Compensate)
    ensures WorkerOk(st', w, st'.workers[w])
    ensures st.workers[w].phase.rec in st.recordings
  {
  }

  lemma CompensateProvider(st: State, st': State, s: SessionId, rec: RecordingId)
    requires RecordingsOk(st) && rec in st.recordings && RecordingOk(st, rec)
    requires st'.compensations
          == if (s, rec) in st.compensations then st.compensations else st.compensations[(s, rec) := Pending]
    requires st'.recordings == st.recordings && st'.issued == st.issued && st'.audits == st.audits
    requires st'.operations == st.operations
    ensures ProviderKept(st, st') && CompensationsOk(st')
  {
  }

  lemma CompensateKeeps(st: State, w: WorkerId)
    requires Inv(st) && WorkerCan(st, w, Compensate)
    ensures Inv(WorkerStepped(st, w, Compensate)) && Kept(st, WorkerStepped(st, w, Compensate))
  {
    var st' := WorkerStepped(st, w, Compensate);
    assert WorkerOk(st, w, st.workers[w]);
    CompensateWorker(st, st', w);
    CompensateProvider(st, st', st.workers[w].session, st.workers[w].phase.rec);
    ProviderStepKeeps(st, st', Some(w));
  }

  lemma CleanupWorker(st: State, st': State, w: WorkerId, clean: CleanupAct)
    requires w in st.workers && CleanupEnabled(st, st.workers[w], clean) && WorkerOk(st, w, st.workers[w])
    requires st' == CleanupApply(st, w, clean)
    ensures WorkerOk(st', w, st'.workers[w]) && ProviderKept(st, st')
  {
  }

  /** A compensation is recorded as done only for a recording that is gone. */
  lemma CleanupTruthful(st: State, st': State, w: WorkerId, clean: CleanupAct)
    requires w in st.workers && CleanupEnabled(st, st.workers[w], clean) && st' == CleanupApply(st, w, clean)
    requires CompensationsOk(st) && WorkerOk(st, w, st.workers[w])
    ensures st'.recordings.Keys == st.recordings.Keys && CompensationsOk(st')
  {
  }

  lemma CleanupKeeps(st: State, w: WorkerId, clean: CleanupAct)
    requires Inv(st) && w in st.workers && CleanupEnabled(st, st.workers[w], clean)
    ensures Inv(CleanupApply(st, w, clean)) && Kept(st, CleanupApply(st, w, clean))
  {
    var st' := CleanupApply(st, w, clean);
    assert WorkerOk(st, w, st.workers[w]);
    CleanupWorker(st, st', w, clean);
    CleanupTruthful(st, st', w, clean);
    ProviderStepKeeps(st, st', Some(w));
  }

  predicate ReadOnly(req: RequestAct) {
    req.ResolveRead? || req.DeleteRead? || req.DeleteErase? || req.Abandon?
  }

  lemma ReadRequest(st: State, st': State, q: RequestId, req: RequestAct)
    requires SessionsOk(st) && OperationsOk(st) && RequestEnabled(st, q, req) && ReadOnly(req)
    requires q in st.requests ==> RequestOk(st, st.requests[q])
    requires st' == RequestApply(st, q, req) && q in st'.requests
    ensures RequestOk(st', st'.requests[q])
  {
  }

  lemma ReadRequests(st: State, st': State, q: RequestId, req: RequestAct)
    requires SessionsOk(st) && OperationsOk(st) && RequestsOk(st)
    requires RequestEnabled(st, q, req) && ReadOnly(req) && st' == RequestApply(st, q, req)
    ensures forall p :: p in st'.requests ==>
              (p in st.requests && st'.requests[p] == st.requests[p]) || RequestOk(st', st'.requests[p])
  {
    if q in st'.requests { ReadRequest(st, st', q, req); }
  }

  lemma ReadProvider(st: State, st': State, q: RequestId, req: RequestAct)
    requires CompensationsOk(st) && RequestEnabled(st, q, req) && ReadOnly(req) && st' == RequestApply(st, q, req)
    ensures ProviderKept(st, st') && st'.recordings.Keys == st.recordings.Keys && CompensationsOk(st')
  {
  }

  /** Reading a row for a later decision. */
  lemma ReadKeeps(st: State, q: RequestId, req: RequestAct)
    requires Inv(st) && RequestEnabled(st, q, req) && ReadOnly(req)
    ensures Inv(RequestApply(st, q, req)) && Kept(st, RequestApply(st, q, req))
  {
    var st' := RequestApply(st, q, req);
    ReadRequests(st, st', q, req);
    ReadProvider(st, st', q, req);
    ProviderStepKeeps(st, st', None);
  }

  /** What an operator's resolution and a deletion change: one marker goes, and its operation stays on record. */
  ghost predicate Releases(st: State, st': State, s: SessionId, op: OperationId) {
    && (forall t, o :: MarkerIs(st, t, o) && o != op ==> MarkerIs(st', t, o))
    && Covered(st', s, op)
    && op in st.operations && st.operations[op].session == s
    && (st.operations[op].job in st'.jobs ==> !Active(st'.jobs[st.operations[op].job]))
  }

  lemma ReleaseWorkers(st: State, st': State, s: SessionId, op: OperationId)
    requires SessionsOk(st) && WorkersOk(st) && RecordingsOk(st) && Kept(st, st') && Releases(st, st', s, op)
    requires st'.workers == st.workers && st'.produced == st.produced
    requires forall e :: e in st'.log && e.UploadStarted? ==> e in st.log
    ensures WorkersOk(st')
  {
    forall v | v in st'.workers ensures WorkerOk(st', v, st'.workers[v]) {
      WorkerKept(st, st', v, st.workers[v]);
    }
  }

  lemma ReleaseRecording(st: State, st': State, s: SessionId, op: OperationId, r: RecordingId)
    requires SessionsOk(st) && Kept(st, st') && Releases(st, st', s, op)
    requires r in st.recordings && st'.recordings == st.recordings && Accounted(st, r)
    requires forall t :: t in st.sessions && st.sessions[t].recording == Some(r) && !st.recordings[r].gone ==>
               t in st'.sessions && st'.sessions[t].recording == Some(r)
    ensures Accounted(st', r)
  {
    var d := st.recordings[r];
    if MarkerIs(st, d.session, d.op) {
      assert SessionOk(st, d.session, st.sessions[d.session]);
    }
    RecordingKept(st, st', r);
  }

  lemma ReleaseRecordings(st: State, st': State, s: SessionId, op: OperationId)
    requires SessionsOk(st) && RecordingsOk(st) && Kept(st, st') && Releases(st, st', s, op)
    requires st'.recordings == st.recordings && st'.compensations == st.compensations && st'.produced == st.produced
    requires forall t, r ::
               (&& t in st.sessions && st.sessions[t].recording == Some(r)
                && r in st.recordings && !st.recordings[r].gone) ==>
               t in st'.sessions && st'.sessions[t].recording == Some(r)
    ensures RecordingsOk(st')
  {
    forall r | r in st'.recordings ensures Accounted(st', r) { ReleaseRecording(st, st', s, op, r); }
    SameCompensations(st, st');
    AllAccounted(st, st');
  }

  lemma ResolveRows(st: State, st': State, s: SessionId, row: SessionRow, adopted: Option<RecordingId>)
    requires SessionsOk(st) && s in st.sessions && st.sessions[s] == row && row.marker.Some?
    requires adopted.Some? ==> adopted.value in st.issued
    requires st'.sessions == st.sessions[s := ResolvedRow(row, adopted)]
    requires st'.buried == st.buried && st'.tombstones == st.tombstones && st'.issued == st.issued
    requires st'.operations == st.operations
    ensures SessionsOk(st') && RowsKept(st, st') && LinksKept(st, st')
    ensures forall t, o :: MarkerIs(st, t, o) && o != row.marker.value ==> MarkerIs(st', t, o)
    ensures forall t :: MarkerIs(st, t, row.marker.value) ==> t == s
  {
    assert SessionOk(st, s, row);
    ReplaceRow(st, st', s, ResolvedRow(row, adopted));
    RowsReplaced(st, st', s, ResolvedRow(row, adopted));
    forall t | MarkerIs(st, t, row.marker.value) ensures t == s {
      assert SessionOk(st, t, st.sessions[t]);
    }
  }

  lemma ResolveFrame(st: State, st': State, q: RequestId, adopted: Option<RecordingId>)
    requires SessionsOk(st) && OperationsOk(st) && JobsOk(st) && StatsOk(st)
    requires RequestEnabled(st, q, ResolveCommit(adopted)) && RequestOk(st, st.requests[q])
    requires st' == RequestApply(st, q, ResolveCommit(adopted))
    ensures SessionsOk(st') && OperationsOk(st') && JobsOk(st') && StatsOk(st') && Kept(st, st')
    ensures Releases(st, st', st.requests[q].session, st.requests[q].row.marker.value) && LinksKept(st, st')
    ensures forall t :: MarkerIs(st, t, st.requests[q].row.marker.value) ==> t == st.requests[q].session
  {
    ResolveRows(st, st', st.requests[q].session, st.requests[q].row, adopted);
    JobsSame(st, st');
    ProviderSame(st, st');
    OperationsKept(st, st');
  }

  lemma ResolveKeeps(st: State, q: RequestId, adopted: Option<RecordingId>)
    requires Inv(st) && RequestEnabled(st, q, ResolveCommit(adopted))
    ensures Inv(RequestApply(st, q, ResolveCommit(adopted))) && Kept(st, RequestApply(st, q, ResolveCommit(adopted)))
  {
    var st' := RequestApply(st, q, ResolveCommit(adopted));
    var s, op := st.requests[q].session, st.requests[q].row.marker.value;
    ResolveFrame(st, st', q, adopted);
    ReleaseWorkers(st, st', s, op);
    RequestsKept(st, st');
    ReleaseRecordings(st, st', s, op);
    ResolveLog(st, st', s, op);
  }

  lemma ResolveLog(st: State, st': State, s: SessionId, op: OperationId)
    requires LogOk(st) && CallsOk(st) && Kept(st, st') && Releases(st, st', s, op) && st'.produced == st.produced
    requires forall t :: MarkerIs(st, t, op) ==> t == s
    requires st'.log == st.log + [OperationAudited(s, op)]
    ensures LogOk(st') && CallsOk(st')
  {
    SettleLog(st, st', OperationAudited(s, op), s, op);
    CallsKept(st, st');
  }

  lemma DeleteRows(st: State, st': State, s: SessionId, row: SessionRow)
    requires SessionsOk(st) && s in st.sessions && st.sessions[s] == row
    requires st'.sessions == st.sessions - {s} && st'.buried == st.buried[s := row.marker]
    requires st'.tombstones == st.tombstones + {s}
    requires st'.issued == st.issued && st'.operations == st.operations
    ensures SessionsOk(st') && RowsKept(st, st')
    ensures forall t, o :: MarkerIs(st, t, o) ==> MarkerIs(st', t, o) || (t == s && BuriedWith(st', t, o))
  {
  }

  lemma DeleteJobs(st: State, st': State, s: SessionId)
    requires JobsOk(st) && StatsOk(st)
    requires st'.sessions == st.sessions - {s} && st'.jobs == JobsWithout(st.jobs, s) && st'.stats == st.stats
    ensures JobsOk(st') && StatsOk(st') && JobsKept(st, st')
  {
  }

  lemma DeleteFrame(st: State, st': State, q: RequestId)
    requires SessionsOk(st) && OperationsOk(st) && JobsOk(st) && StatsOk(st)
    requires RequestEnabled(st, q, DeleteCommit) && RequestOk(st, st.requests[q])
    requires st' == RequestApply(st, q, DeleteCommit)
    ensures SessionsOk(st') && OperationsOk(st') && JobsOk(st') && StatsOk(st') && Kept(st, st')
    ensures forall t, o :: MarkerIs(st, t, o) ==>
              MarkerIs(st', t, o) || (t == st.requests[q].session && BuriedWith(st', t, o))
  {
    DeleteRows(st, st', st.requests[q].session, st.requests[q].row);
    DeleteJobs(st, st', st.requests[q].session);
    ProviderSame(st, st');
    OperationsKept(st, st');
  }

  lemma DeleteWorkers(st: State, st': State, q: RequestId)
    requires WorkersOk(st) && RecordingsOk(st) && JobsOk(st) && Kept(st, st')
    requires RequestEnabled(st, q, DeleteCommit) && st' == RequestApply(st, q, DeleteCommit)
    requires forall t, o :: MarkerIs(st, t, o) ==>
               MarkerIs(st', t, o) || (t == st.requests[q].session && BuriedWith(st', t, o))
    ensures WorkersOk(st')
  {
    forall v | v in st'.workers ensures WorkerOk(st', v, st'.workers[v]) {
      WorkerKept(st, st', v, st.workers[v]);
    }
  }

  /** The linked recording was erased first; any other keeps its record, or its operation is buried with the session. */
  lemma DeleteRecording(st: State, st': State, q: RequestId, r: RecordingId)
    requires RequestEnabled(st, q, DeleteCommit) && RequestOk(st, st.requests[q]) && Kept(st, st')
    requires st' == RequestApply(st, q, DeleteCommit) && r in st.recordings && Accounted(st, r)
    requires forall t, o :: MarkerIs(st, t, o) ==>
               MarkerIs(st', t, o) || (t == st.requests[q].session && BuriedWith(st', t, o))
    ensures Accounted(st', r)
  {
    RecordingKept(st, st', r);
  }

  lemma DeleteRecordings(st: State, st': State, q: RequestId)
    requires SessionsOk(st) && RecordingsOk(st) && Kept(st, st')
    requires RequestEnabled(st, q, DeleteCommit) && RequestOk(st, st.requests[q])
    requires st' == RequestApply(st, q, DeleteCommit)
    requires forall t, o :: MarkerIs(st, t, o) ==>
               MarkerIs(st', t, o) || (t == st.requests[q].session && BuriedWith(st', t, o))
    ensures RecordingsOk(st')
  {
    forall r | r in st'.recordings ensures Accounted(st', r) { DeleteRecording(st, st', q, r); }
    SameCompensations(st, st');
    AllAccounted(st, st');
  }

  lemma DeleteLog(st: State, st': State, s: SessionId)
    requires LogOk(st) && Kept(st, st') && st'.log == st.log
    requires forall t, o :: MarkerIs(st, t, o) ==> MarkerIs(st', t, o) || (t == s && BuriedWith(st', t, o))
    ensures LogOk(st')
  {
  }

  lemma DeleteKeeps(st: State, q: RequestId)
    requires Inv(st) && RequestEnabled(st, q, DeleteCommit)
    ensures Inv(RequestApply(st, q, DeleteCommit)) && Kept(st, RequestApply(st, q, DeleteCommit))
  {
    var st' := RequestApply(st, q, DeleteCommit);
    DeleteFrame(st, st', q);
    DeleteWorkers(st, st', q);
    RequestsKept(st, st');
    DeleteRecordings(st, st', q);
    DeleteLog(st, st', st.requests[q].session);
    CallsKept(st, st');
  }

  lemma WebhookRows(st: State, st': State, s: SessionId, note: string)
    requires SessionsOk(st) && OutsideEnabled(st, WebhookDeleted(s, note))
    requires st' == OutsideApply(st, WebhookDeleted(s, note))
    ensures SessionsOk(st') && RowsKept(st, st') && MarkersKept(st, st')
  {
    assert SessionOk(st, s, st.sessions[s]);
    ReplaceRow(st, st', s, st'.sessions[s]);
    RowsReplaced(st, st', s, st'.sessions[s]);
  }

  lemma WebhookFrame(st: State, st': State, s: SessionId, note: string)
    requires Inv(st) && OutsideEnabled(st, WebhookDeleted(s, note)) && st' == OutsideApply(st, WebhookDeleted(s, note))
    ensures SessionsOk(st') && JobsOk(st') && StatsOk(st') && OperationsOk(st') && MarkersKept(st, st') && Kept(st, st')
  {
    WebhookRows(st, st', s, note);
    JobsSame(st, st');
    ProviderSame(st, st');
    OperationsKept(st, st');
  }

  /** The unlinked recording is gone at the provider, which is how it stays accounted for. */
  lemma WebhookRecordings(st: State, st': State, s: SessionId, note: string)
    requires RecordingsOk(st) && Kept(st, st')
    requires OutsideEnabled(st, WebhookDeleted(s, note)) && st' == OutsideApply(st, WebhookDeleted(s, note))
    ensures RecordingsOk(st')
  {
    forall r | r in st'.recordings ensures Accounted(st', r) { RecordingKept(st, st', r); }
    SameCompensations(st, st');
    AllAccounted(st, st');
  }

  lemma WebhookKeeps(st: State, s: SessionId, note: string)
    requires Inv(st) && OutsideEnabled(st, WebhookDeleted(s, note))
    ensures Inv(OutsideApply(st, WebhookDeleted(s, note))) && Kept(st, OutsideApply(st, WebhookDeleted(s, note)))
  {
    var st' := OutsideApply(st, WebhookDeleted(s, note));
    WebhookFrame(st, st', s, note);
    WorkersKept(st, st', None);
    RequestsKept(st, st');
    WebhookRecordings(st, st', s, note);
    LogKept(st, st');
    CallsKept(st, st');
  }

  lemma CreateRows(st: State, st': State, s: SessionId)
    requires SessionsOk(st) && OutsideEnabled(st, CreateSession(s)) && st' == OutsideApply(st, CreateSession(s))
    ensures SessionsOk(st') && RowsKept(st, st') && MarkersKept(st, st') && LinksKept(st, st')
  {
    ReplaceRow(st, st', s, NEW_SESSION);
    RowsReplaced(st, st', s, NEW_SESSION);
  }

  lemma CreateKeeps(st: State, s: SessionId)
    requires Inv(st) && OutsideEnabled(st, CreateSession(s))
    ensures Inv(OutsideApply(st, CreateSession(s))) && Kept(st, OutsideApply(st, CreateSession(s)))
  {
    var st' := OutsideApply(st, CreateSession(s));
    CreateRows(st, st', s);
    JobsSame(st, st');
    ProviderSame(st, st');
    OperationsKept(st, st');
    RestKept(st, st', None);
  }

  lemma OutsideProvider(st: State, st': State, out: OutsideAct)
    requires CompensationsOk(st) && OutsideEnabled(st, out) && st' == OutsideApply(st, out)
    requires !out.CreateSession? && !out.WebhookDeleted? && !out.ProviderCreate?
    ensures ProviderKept(st, st') && st'.recordings.Keys == st.recordings.Keys && CompensationsOk(st')
  {
  }

  lemma OutsideKeeps(st: State, out: OutsideAct)
    requires Inv(st) && OutsideEnabled(st, out) && !out.CreateSession? && !out.WebhookDeleted? && !out.ProviderCreate?
    ensures Inv(OutsideApply(st, out)) && Kept(st, OutsideApply(st, out))
  {
    OutsideProvider(st, OutsideApply(st, out), out);
    ProviderStepKeeps(st, OutsideApply(st, out), if out.Crash? then Some(out.w) else None);
  }

  /** Every step keeps the invariant, and undoes nothing. */
  lemma StepKeeps(st: State, step: Step)
    requires Inv(st) && Enabled(st, step)
    ensures Inv(Apply(st, step)) && Kept(st, Apply(st, step))
  {
    match step
    case Commit(tx) => CommitKeeps(st, tx);
    case ByWorker(w, act) => WorkerStepKeeps(st, w, act);
    case Cleanup(w, clean) => CleanupKeeps(st, w, clean);
    case ByRequest(q, req) =>
      if req.ResolveCommit? { ResolveKeeps(st, q, req.adopted); }
      else if req.DeleteCommit? { DeleteKeeps(st, q); }
      else { ReadKeeps(st, q, req); }
    case Outside(out) =>
      if out.CreateSession? { CreateKeeps(st, out.s); }
      else if out.WebhookDeleted? { WebhookKeeps(st, out.s, out.note); }
      else if out.ProviderCreate? { ProviderCreateKeeps(st, out.s, out.op, out.rec); }
      else { OutsideKeeps(st, out); }
  }

  lemma WorkerStepKeeps(st: State, w: WorkerId, act: WorkerAct)
    requires Inv(st) && WorkerCan(st, w, act)
    ensures Inv(WorkerStepped(st, w, act)) && Kept(st, WorkerStepped(st, w, act))
  {
    match act
    case Begin(op) => BeginKeeps(st, w, op);
    case StartCall => StartKeeps(st, w);
    case Link(durationMs) => LinkKeeps(st, w, durationMs);
    case AddRevision(row, added) => RevisionKeeps(st, w, row, added);
    case Compensate => CompensateKeeps(st, w);
    case _ => QuietStepKeeps(st, w, act);
  }
}

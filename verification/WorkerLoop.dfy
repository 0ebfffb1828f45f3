/**
 The worker's transactions.  What a reload returned is a parameter (`read`, `readJob`,
 `tombstoned`); the row a worker keeps in memory between transactions is in its phase.
 The adapter is the shipped one: it transcribes on upload and has no idempotency key.
 */
module WorkerLoop {
  import opened Common
  import opened SessionStates
  import opened Protocol
  import opened ProtocolSafety
  import opened ProtocolTheorems
  import opened Store
  import opened Api
  import opened JobEndings

  ghost predicate Acted(st: State, st': State, w: WorkerId, act: WorkerAct) {
    WorkerCan(st, w, act) && st' == WorkerStepped(st, w, act)
  }

  /** The tables a worker's step may write, compared one by one. */
  lemma ActedTables(st: State, st': State, w: WorkerId, act: WorkerAct)
    requires WorkerCan(st, w, act) && (act.Begin? || act.StartCall? || act.Link?)
    requires var next := WorkerStepped(st, w, act);
             && st'.sessions == next.sessions && st'.jobs == next.jobs && st'.workers == next.workers
             && st'.log == next.log && st'.operations == next.operations
    requires st'.tombstones == st.tombstones && st'.compensations == st.compensations && st'.audits == st.audits
    requires st'.recordings == st.recordings && st'.issued == st.issued && st'.requests == st.requests
    requires st'.produced == st.produced && st'.buried == st.buried && st'.stats == st.stats
    ensures Acted(st, st', w, act)
  {
  }

  /** Whether a reload tells the worker to stop. */
  predicate Stopped(tombstoned: bool, job: JobRow, row: SessionRow) {
    tombstoned || job.status != Running || Halted(row.state)
  }

  // ---------------------------------------------------------------- claiming and checkpoints

  /** Picks a queued job up: one attempt is spent. */
  method Claim(db: Database, w: WorkerId, j: JobId) returns (r: Outcome)
    requires db.Valid()
    modifies db
    ensures db.Valid()
    ensures r.Done? <==> j in old(db.jobs) && old(db.jobs)[j].status == Queued
    ensures r.Done? ==>
              && var job := old(db.jobs)[j];
              && job.session in old(db.sessions)
              && Committed(old(db.View()), db.View(),
                   Transaction(job.session, old(db.sessions)[job.session], map[j := JobWrite.Claim], map[], false,
                               Some((w, Busy(j, job.session, job.kind, Fetched)))))
    ensures r.Done? ==>
              && j in db.jobs && db.sessions == old(db.sessions)
              && var was := old(db.jobs)[j];
                 db.jobs == old(db.jobs)[j := was.(version := was.version + 1, status := Running,
                                                   attempts := was.attempts + 1)]
    ensures !r.Done? ==> db.View() == old(db.View())
  {
    if j !in db.jobs || db.jobs[j].status != Queued { return Rejected("no_job"); }
    var job := db.jobs[j];
    JobFacts(db.history, j);
    DeletionHasTombstone(db.history, job.session);
    ghost var before := db.View();
    db.Step(Transaction(job.session, db.sessions[job.session], map[j := JobWrite.Claim], map[], false,
                        Some((w, Busy(j, job.session, job.kind, Fetched)))));
    ClaimedTables(before, db.View(), w, j);
    r := Done;
  }

  lemma ClaimedTables(st: State, st': State, w: WorkerId, j: JobId)
    requires j in st.jobs && st.jobs[j].session in st.sessions
    requires var job := st.jobs[j];
             Committed(st, st',
               Transaction(job.session, st.sessions[job.session], map[j := JobWrite.Claim], map[], false,
                           Some((w, Busy(j, job.session, job.kind, Fetched)))))
    ensures st'.sessions == st.sessions
    ensures var was := st.jobs[j];
            st'.jobs == st.jobs[j := was.(version := was.version + 1, status := Running, attempts := was.attempts + 1)]
  {
    JobsStored(st.jobs, map[j := JobWrite.Claim], map[]);
  }

  /** Renews the lease unless the work was stopped. */
  method Checkpoint(db: Database, w: WorkerId, readJob: JobRow, read: SessionRow, tombstoned: bool) returns (r: Outcome)
    requires db.Valid() && BusyIn(db.View(), w) && readJob.session == db.workers[w].session
    requires db.ReadJob(db.workers[w].job, readJob) && db.Read(readJob.session, read)
    modifies db
    ensures db.Valid()
    ensures r.Rejected? <==>
              tombstoned || readJob.status != Running || read.state in {Cancelled, DeletePending, Deleted}
    ensures Performs(old(db.View()), db.View(), r, readJob.session, read, read, map[old(db.workers)[w].job := Touch],
                     map[], false)
  {
    if Stopped(tombstoned, readJob, read) { return Rejected("cancelled"); }
    var j := db.workers[w].job;
    var ok := db.Commit(readJob.session, read, read, map[j := readJob], map[j := Touch], map[], false);
    r := Finished(ok);
  }

  /** The reload at the end of a checkpoint: the row in memory is the stored one, and no deletion was asked for. */
  method Reload(db: Database, w: WorkerId) returns (r: Outcome)
    requires db.Valid() && BusyIn(db.View(), w) && (db.workers[w].phase.Fetched? || db.workers[w].phase.Vetted?)
    modifies db
    ensures db.Valid()
    ensures r.Done? <==>
              old(db.workers)[w].session in old(db.sessions) && old(db.workers)[w].session !in old(db.tombstones)
    ensures if r.Done? then Acted(old(db.View()), db.View(), w, Load) else db.View() == old(db.View())
  {
    var me := db.workers[w];
    if me.session !in db.sessions || me.session in db.tombstones { return Rejected("cancelled"); }
    ghost var run := AfterWorker(db.history, w, Load);
    db.workers := db.workers[w := me.(phase := Vetted(db.sessions[me.session]))];
    db.history := run;
    r := Done;
  }

  /** An edit of the row in memory is committed, exactly if the version has not moved, and becomes the row in memory. */
  ghost predicate Saved(st: State, st': State, w: WorkerId, r: Outcome, edited: SessionRow, added: map<JobId, JobRow>) {
    && BusyIn(st, w) && st.workers[w].phase.Vetted?
    && var s, row := st.workers[w].session, st.workers[w].phase.row;
    && (r.Done? <==> s in st.sessions && (edited != row ==> st.sessions[s].version == row.version))
    && (r.Done? ==> Committed(st, st', Transaction(s, RowAfter(st, s, row, edited), map[], added, false,
                                                   if edited == row then None
                                                   else Some((w, st.workers[w].(phase := Vetted(Save(row, edited))))))))
    && (r.Done? ==> Stores(st, st', s, row, edited, map[], added, false))
    && (!r.Done? ==> st' == st)
  }

  /** Commits an edit of the row in memory; on success the row in memory is the new one. */
  method SaveRow(db: Database, w: WorkerId, edited: SessionRow, added: map<JobId, JobRow>) returns (r: Outcome)
    requires db.Valid() && BusyIn(db.View(), w) && db.workers[w].phase.Vetted?
    requires OrdinaryEdit(db.workers[w].phase.row, edited) && edited.state != DeletePending
    requires forall j :: j in added ==>
               j !in db.stats && added[j] == NewJob(db.workers[w].session, added[j].kind, added[j].maxAttempts)
    modifies db
    ensures db.Valid() && !r.Rejected?
    ensures Saved(old(db.View()), db.View(), w, r, edited, added)
  {
    var me, s, row := db.workers[w], db.workers[w].session, db.workers[w].phase.row;
    if s !in db.sessions || (edited != row && db.sessions[s].version != row.version) { return Conflict; }
    WorkerFacts(db.history, w);
    DeletionHasTombstone(db.history, s);
    AddedAreNew(db.history, added);
    ghost var before := db.View();
    ghost var local := if edited == row then None else Some((w, me.(phase := Vetted(Save(row, edited)))));
    if edited == row {
      db.Step(Transaction(s, db.sessions[s], map[], added, false, None));
    } else {
      db.Step(Transaction(s, Save(row, edited), map[], added, false,
                          Some((w, me.(phase := Vetted(Save(row, edited)))))));
    }
    CommitStores(before, db.View(), s, row, edited, map[], added, false, local);
    r := Done;
  }

  /** The state a job of this type puts the session in when it starts, if any. */
  function EntryState(kind: JobKind, state: SessionState): (r: Option<SessionState>)
    ensures r.Some? ==> Edge(state, r.value)
    ensures r == Some(Transcribing) <==> kind == Transcribe && state == RetryPending
    ensures r == Some(Reconciling) <==>
              kind == Reconcile && state in {RetryPending, Transcribing, TranscriptReady, AwaitingReview, Complete}
    ensures r == Some(Extracting) <==> kind == Extract && state in {RetryPending, TranscriptReady, AwaitingReview}
  {
    match kind
    case Transcribe => if state == RetryPending then Some(Transcribing) else None
    case Reconcile =>
      if state in {Transcribing, TranscriptReady, AwaitingReview, Complete, RetryPending}
      then Some(Reconciling)
      else None
    case Extract => if state in {RetryPending, TranscriptReady, AwaitingReview} then Some(Extracting) else None
    case Summarize => None
  }

  function Entered(kind: JobKind, row: SessionRow): (r: SessionRow)
    ensures r == row.(state := r.state)
    ensures EntryState(kind, row.state).None? ==> r == row
    ensures EntryState(kind, row.state).Some? ==> Some(r.state) == EntryState(kind, row.state)
  {
    match EntryState(kind, row.state)
    case None => row
    case Some(next) => row.(state := next)
  }

  method EnterState(db: Database, w: WorkerId) returns (r: Outcome)
    requires db.Valid() && BusyIn(db.View(), w) && db.workers[w].phase.Vetted?
    modifies db
    ensures db.Valid() && !r.Rejected?
    ensures Saved(old(db.View()), db.View(), w, r, Entered(old(db.workers)[w].kind, old(db.workers)[w].phase.row),
                  map[])
  {
    WorkerFacts(db.history, w);
    r := SaveRow(db, w, Entered(db.workers[w].kind, db.workers[w].phase.row), map[]);
  }

  // ---------------------------------------------------------------- the upload

  /** The marker is committed on its own before the call; an open one means the session is ambiguous. */
  method BeginUpload(db: Database, w: WorkerId, op: OperationId) returns (r: Outcome)
    requires db.Valid() && BusyIn(db.View(), w) && db.workers[w].kind == Transcribe && db.workers[w].phase.Vetted?
    requires op !in db.operations
    modifies db
    ensures db.Valid()
    ensures var row := old(db.workers)[w].phase.row;
            r.Rejected? <==> !row.hasMedia || row.recording.Some? || row.marker.Some?
    ensures if r.Done? then Acted(old(db.View()), db.View(), w, Begin(op)) else db.View() == old(db.View())
    ensures var s, row := old(db.workers)[w].session, old(db.workers)[w].phase.row;
            r.Done? ==>
              && s in old(db.sessions) && old(db.sessions)[s].version == row.version
              && db.sessions == old(db.sessions)[s := row.(version := row.version + 1, marker := Some(op))]
              && db.workers == old(db.workers)[w := old(db.workers)[w].(phase := Marked(op))]
  {
    var me, s, row := db.workers[w], db.workers[w].session, db.workers[w].phase.row;
    if !row.hasMedia { return Rejected("worker_error"); }
    if row.recording.Some? { return Rejected("already_uploaded"); }
    if row.marker.Some? { return Rejected(AMBIGUOUS); }
    if s !in db.sessions || db.sessions[s].version != row.version { return Conflict; }
    PutMarker(db, w, op);
    r := Done;
  }

  method PutMarker(db: Database, w: WorkerId, op: OperationId)
    requires db.Valid() && WorkerCan(db.View(), w, Begin(op))
    modifies db
    ensures db.Valid() && Acted(old(db.View()), db.View(), w, Begin(op))
  {
    var me := db.workers[w];
    ghost var before, run := db.View(), AfterWorker(db.history, w, Begin(op));
    db.Act(db.sessions[me.session := MarkedRow(me.phase.row, op)], db.jobs, db.workers[w := me.(phase := Marked(op))],
           db.log, db.operations[op := Begun(me.session, me.job, w)], run);
    ActedTables(before, db.View(), w, Begin(op));
  }

  /** The checkpoint right before the call; `read` and `tombstoned` are its first reload. */
  method StartUpload(db: Database, w: WorkerId, read: SessionRow, tombstoned: bool) returns (r: Outcome)
    requires db.Valid() && BusyIn(db.View(), w) && db.workers[w].phase.Marked?
    modifies db
    ensures db.Valid()
    ensures r.Done? <==>
              && !tombstoned && read.state !in {Cancelled, DeletePending, Deleted}
              && old(db.workers)[w].job in old(db.jobs) && old(db.jobs)[old(db.workers)[w].job].status == Running
    ensures if r.Done? then Acted(old(db.View()), db.View(), w, StartCall) else db.View() == old(db.View())
  {
    var me := db.workers[w];
    if tombstoned || Halted(read.state) || me.job !in db.jobs || db.jobs[me.job].status != Running {
      return Rejected("cancelled");
    }
    StoreStart(db, w);
    r := Done;
  }

  method StoreStart(db: Database, w: WorkerId)
    requires db.Valid() && WorkerCan(db.View(), w, StartCall)
    modifies db
    ensures db.Valid() && Acted(old(db.View()), db.View(), w, StartCall)
  {
    var me := db.workers[w];
    ghost var before, run := db.View(), AfterWorker(db.history, w, StartCall);
    db.Act(db.sessions, db.jobs[me.job := Written(db.jobs[me.job], Touch)],
           db.workers[w := me.(phase := Calling(me.phase.op))],
           db.log + [UploadStarted(me.session, me.phase.op)], db.operations, run);
    ActedTables(before, db.View(), w, StartCall);
  }

  /** The checkpoint's second reload, after its commit: a tombstone or a missing row still calls the upload off. */
  method ReloadBeforeCall(db: Database, w: WorkerId) returns (r: Outcome)
    requires db.Valid() && BusyIn(db.View(), w) && db.workers[w].phase.Calling?
    modifies db
    ensures db.Valid()
    ensures r.Done? <==>
              && old(db.workers)[w].job in old(db.jobs) && old(db.workers)[w].session in old(db.sessions)
              && old(db.workers)[w].session !in old(db.tombstones)
    ensures if r.Done? then db.View() == old(db.View()) else Acted(old(db.View()), db.View(), w, CallFailed)
  {
    var me := db.workers[w];
    if me.job in db.jobs && me.session in db.sessions && me.session !in db.tombstones { return Done; }
    UploadRaises(db, w);
    r := Rejected("cancelled");
  }

  /** The provider makes a recording for a call that started, whatever has become of the worker since. */
  method ProviderCreates(db: Database, s: SessionId, op: OperationId, rec: RecordingId)
    requires db.Valid() && UploadStarted(s, op) in db.log && op !in db.produced && rec !in db.issued
    modifies db
    ensures db.Valid() && OutsideEnabled(old(db.View()), ProviderCreate(s, op, rec))
    ensures db.View() == OutsideApply(old(db.View()), ProviderCreate(s, op, rec))
    ensures rec in db.recordings && Accounted(db.View(), rec)
  {
    ghost var before, run := db.View(), AfterOutside(db.history, ProviderCreate(s, op, rec));
    db.AddRecording(rec, Recording(s, op, false), run);
    CreateTables(before, db.View(), s, op, rec);
    RecordingsAccountedFor(run, |run.states| - 1, rec);
  }

  lemma CreateTables(st: State, st': State, s: SessionId, op: OperationId, rec: RecordingId)
    requires OutsideEnabled(st, ProviderCreate(s, op, rec))
    requires st'.recordings == st.recordings[rec := Recording(s, op, false)]
    requires st'.issued == st.issued + {rec} && st'.produced == st.produced[op := rec]
    requires st'.sessions == st.sessions && st'.jobs == st.jobs && st'.stats == st.stats
    requires st'.tombstones == st.tombstones
    requires st'.compensations == st.compensations && st'.audits == st.audits && st'.requests == st.requests
    requires st'.log == st.log && st'.operations == st.operations && st'.buried == st.buried
    requires st'.workers == st.workers
    ensures st' == OutsideApply(st, ProviderCreate(s, op, rec))
  {
  }

  /** The provider's answer reaches the worker, which did not die in the meantime. */
  method UploadReturns(db: Database, w: WorkerId, rec: RecordingId)
    requires db.Valid() && BusyIn(db.View(), w) && db.workers[w].phase.Calling?
    requires db.workers[w].phase.op in db.produced && db.produced[db.workers[w].phase.op] == rec
    modifies db
    ensures db.Valid() && Acted(old(db.View()), db.View(), w, Accept(rec))
    ensures rec in db.recordings && db.recordings[rec].session == old(db.workers)[w].session
  {
    var me := db.workers[w];
    ghost var run := AfterWorker(db.history, w, Accept(rec));
    db.workers := db.workers[w := me.(phase := Accepted(me.phase.op, rec))];
    db.history := run;
    AcceptedFacts(run, w);
  }

  /** The call raised, whether or not the provider had created the recording. */
  method UploadRaises(db: Database, w: WorkerId)
    requires db.Valid() && BusyIn(db.View(), w) && (db.workers[w].phase.Calling? || db.workers[w].phase.Accepted?)
    modifies db
    ensures db.Valid() && Acted(old(db.View()), db.View(), w, CallFailed)
  {
    ghost var run := AfterWorker(db.history, w, CallFailed);
    db.workers := db.workers[w := db.workers[w].(phase := Fetched)];
    db.history := run;
  }

  /** The reload after the call: either the job is still this worker's, or the recording is an orphan. */
  method ReloadAfterUpload(db: Database, w: WorkerId) returns (cancelled: bool)
    requires db.Valid() && BusyIn(db.View(), w) && db.workers[w].phase.Accepted?
    modifies db
    ensures db.Valid()
    ensures cancelled == var me := old(db.workers)[w];
                         (me.session in old(db.tombstones) || me.job !in old(db.jobs) || me.session !in old(db.sessions)
                          || old(db.jobs)[me.job].status != Running
                          || old(db.sessions)[me.session].state in {Cancelled, DeletePending, Deleted})
    ensures Acted(old(db.View()), db.View(), w, if cancelled then Orphan else Confirm)
  {
    var me := db.workers[w];
    cancelled := me.session in db.tombstones || me.job !in db.jobs || me.session !in db.sessions
                 || db.jobs[me.job].status != Running || Halted(db.sessions[me.session].state);
    ghost var run := AfterWorker(db.history, w, if cancelled then Orphan else Confirm);
    if cancelled {
      db.workers := db.workers[w := me.(phase := Orphaned(me.phase.op, me.phase.rec))];
    } else {
      db.workers := db.workers[w := me.(phase := Confirmed(me.phase.op, me.phase.rec, db.sessions[me.session]))];
    }
    db.history := run;
  }

  /** Stores the recording id and clears the marker in one commit. */
  method LinkRecording(db: Database, w: WorkerId, durationMs: Option<nat>) returns (r: Outcome)
    requires db.Valid() && BusyIn(db.View(), w) && db.workers[w].phase.Confirmed?
    modifies db
    ensures db.Valid()
    ensures if r.Done? then Acted(old(db.View()), db.View(), w, Link(durationMs)) else db.View() == old(db.View())
    ensures r.Done? <==>
              && Fresh(old(db.View()), old(db.workers)[w].session, old(db.workers)[w].phase.row)
              && !LinkedElsewhere(old(db.View()), old(db.workers)[w].session, old(db.workers)[w].phase.rec)
    ensures var s, p := old(db.workers)[w].session, old(db.workers)[w].phase;
            r.Done? ==>
              && s in db.sessions && db.sessions == old(db.sessions)[s := db.sessions[s]]
              && db.sessions[s] == p.row.(version := p.row.version + 1, recording := Some(p.rec), marker := None,
                                          durationMs := db.sessions[s].durationMs)
              && db.sessions[s].durationMs == (if p.row.durationMs.Some? then p.row.durationMs else durationMs)
  {
    var me, s, p := db.workers[w], db.workers[w].session, db.workers[w].phase;
    if s !in db.sessions || db.sessions[s].version != p.row.version { return Conflict; }
    if exists t :: t in db.sessions && t != s && db.sessions[t].recording == Some(p.rec) {
      return Rejected("integrity_error");
    }
    StoreLink(db, w, durationMs);
    r := Done;
  }

  method StoreLink(db: Database, w: WorkerId, durationMs: Option<nat>)
    requires db.Valid() && WorkerCan(db.View(), w, Link(durationMs))
    modifies db
    ensures db.Valid() && Acted(old(db.View()), db.View(), w, Link(durationMs))
  {
    var me, p := db.workers[w], db.workers[w].phase;
    var row := LinkedRow(p.row, p.rec, durationMs);
    ghost var before, run := db.View(), AfterWorker(db.history, w, Link(durationMs));
    db.Act(db.sessions[me.session := row], db.jobs, db.workers[w := me.(phase := Vetted(row))],
           db.log + [RecordingLinked(me.session, p.op, p.rec)], db.operations, run);
    ActedTables(before, db.View(), w, Link(durationMs));
  }

  /** Submission time and the follow-up reconcile job. */
  method MarkSubmitted(db: Database, w: WorkerId) returns (r: Outcome)
    requires db.Valid() && BusyIn(db.View(), w) && db.workers[w].phase.Vetted?
    modifies db
    ensures db.Valid() && !r.Rejected?
    ensures Saved(old(db.View()), db.View(), w, r, old(db.workers)[w].phase.row.(submitted := true), map[])
  {
    WorkerFacts(db.history, w);
    r := SaveRow(db, w, db.workers[w].phase.row.(submitted := true), map[]);
  }

  method EnqueueReconcile(db: Database, w: WorkerId, sawActive: bool, id: JobId, maxAttempts: nat) returns (r: Outcome)
    requires db.Valid() && BusyIn(db.View(), w) && db.workers[w].phase.Vetted? && id !in db.stats
    modifies db
    ensures db.Valid() && !r.Rejected?
    ensures Saved(old(db.View()), db.View(), w, r, old(db.workers)[w].phase.row,
                  EnsureJob(old(db.workers)[w].session, Reconcile, sawActive, id, maxAttempts))
  {
    WorkerFacts(db.history, w);
    r := SaveRow(db, w, db.workers[w].phase.row,
                 EnsureJob(db.workers[w].session, Reconcile, sawActive, id, maxAttempts));
  }

  // ---------------------------------------------------------------- transcripts and extraction

  /** The ledger of a revision, as far as the session's state depends on it. */
  datatype Ledger = NoEntries | AllReviewed | SomeOpen

  /** The state after finding a transcript already on file. */
  function KnownState(state: SessionState, ledger: Ledger): (r: SessionState)
    ensures r == state || Edge(state, r)
    ensures state != Reconciling ==> r == state
    ensures state == Reconciling ==>
              && (r == TranscriptReady <==> ledger == NoEntries) && (r == Complete <==> ledger == AllReviewed)
              && (r == AwaitingReview <==> ledger == SomeOpen)
  {
    if state != Reconciling then state
    else match ledger
      case NoEntries => TranscriptReady
      case AllReviewed => Complete
      case SomeOpen => AwaitingReview
  }

  /** The state after storing a new transcript. */
  function NewState(state: SessionState, hadRevision: bool): (r: SessionState)
    ensures r == state || Edge(state, r)
    ensures r == TranscriptReady <==> state in {Transcribing, Reconciling, TranscriptReady}
    ensures r != state && r != TranscriptReady <==> state == Complete && hadRevision
    ensures r != state && r != TranscriptReady ==> r == AwaitingReview
  {
    if state == Transcribing || state == Reconciling then TranscriptReady
    else if hadRevision && state == Complete then AwaitingReview
    else state
  }

  /** A transcript the session already had: only the reconciliation time and the state move. */
  method ReconcileKnown(db: Database, w: WorkerId, now: nat, ledger: Ledger, sawActive: bool, id: JobId,
                        maxAttempts: nat)
    returns (r: Outcome)
    requires db.Valid() && BusyIn(db.View(), w) && db.workers[w].phase.Vetted? && id !in db.stats
    modifies db
    ensures db.Valid() && !r.Rejected?
    ensures var row := old(db.workers)[w].phase.row;
            Saved(old(db.View()), db.View(), w, r,
                  row.(reconciledAt := Some(now), state := KnownState(row.state, ledger)),
                  if ledger == NoEntries
                  then EnsureJob(old(db.workers)[w].session, Extract, sawActive, id, maxAttempts)
                  else map[])
  {
    WorkerFacts(db.history, w);
    var row := db.workers[w].phase.row;
    var added := map[];
    if ledger == NoEntries {
      added := EnsureJob(db.workers[w].session, Extract, sawActive, id, maxAttempts);
    }
    r := SaveRow(db, w, row.(reconciledAt := Some(now), state := KnownState(row.state, ledger)), added);
  }

  /** The row after storing a new transcript. */
  function Revised(row: SessionRow, now: nat, revision: RevisionId): SessionRow {
    row.(version := row.version + 1, revision := Some(revision), reconciledAt := Some(now),
         state := NewState(row.state, row.revision.Some?))
  }

  lemma RevisedIsLegal(row: SessionRow, now: nat, revision: RevisionId)
    requires row.state != DeletePending && row.state != Deleted
    ensures RevisionWrite(row, Revised(row, now, revision)) && Revised(row, now, revision).state != DeletePending
  {
  }

  /** A new transcript: the session gets a new current revision. */
  method ReconcileNew(db: Database, w: WorkerId, now: nat, revision: RevisionId, sawActive: bool, id: JobId,
                      maxAttempts: nat)
    returns (r: Outcome)
    requires db.Valid() && BusyIn(db.View(), w) && db.workers[w].phase.Vetted? && id !in db.stats
    modifies db
    ensures db.Valid() && !r.Rejected?
    ensures r.Done? <==> Fresh(old(db.View()), old(db.workers)[w].session, old(db.workers)[w].phase.row)
    ensures var s, row := old(db.workers)[w].session, old(db.workers)[w].phase.row;
            r.Done? ==>
              && s in db.sessions && db.sessions == old(db.sessions)[s := db.sessions[s]]
              && db.sessions[s] == row.(version := row.version + 1, revision := Some(revision),
                                        reconciledAt := Some(now), state := NewState(row.state, row.revision.Some?))
    ensures if r.Done?
            then Acted(old(db.View()), db.View(), w,
                       AddRevision(Revised(old(db.workers)[w].phase.row, now, revision),
                                   EnsureJob(old(db.workers)[w].session, Extract, sawActive, id, maxAttempts)))
            else db.View() == old(db.View())
  {
    var s, row := db.workers[w].session, db.workers[w].phase.row;
    if s !in db.sessions || db.sessions[s].version != row.version { return Conflict; }
    WorkerFacts(db.history, w);
    RevisedIsLegal(row, now, revision);
    StoreRevision(db, w, Revised(row, now, revision), EnsureJob(s, Extract, sawActive, id, maxAttempts));
    r := Done;
  }

  lemma RevisionTables(st: State, st': State, w: WorkerId, row: SessionRow, added: map<JobId, JobRow>)
    requires WorkerCan(st, w, AddRevision(row, added))
    requires st'.sessions == st.sessions[st.workers[w].session := row]
    requires st'.jobs == JobsAfter(st.jobs, map[], added) && st'.stats == StatsAfter(st.stats, map[], added)
    requires st'.workers == st.workers[w := st.workers[w].(phase := Vetted(row))]
    requires st'.tombstones == st.tombstones && st'.compensations == st.compensations && st'.audits == st.audits
    requires st'.recordings == st.recordings && st'.issued == st.issued && st'.requests == st.requests
    requires st'.log == st.log
    requires st'.operations == st.operations && st'.produced == st.produced && st'.buried == st.buried
    ensures Acted(st, st', w, AddRevision(row, added))
  {
  }

  method StoreRevision(db: Database, w: WorkerId, row: SessionRow, added: map<JobId, JobRow>)
    requires db.Valid() && WorkerCan(db.View(), w, AddRevision(row, added))
    modifies db
    ensures db.Valid() && Acted(old(db.View()), db.View(), w, AddRevision(row, added))
    ensures db.sessions == old(db.sessions)[old(db.workers)[w].session := row]
  {
    var me := db.workers[w];
    ghost var before, run := db.View(), AfterWorker(db.history, w, AddRevision(row, added));
    db.Write(Transaction(me.session, row, map[], added, false, Some((w, me.(phase := Vetted(row))))));
    db.history := run;
    RevisionTables(before, db.View(), w, row, added);
  }

  /** Extraction done with `found` entries: the session moves to review, or the table refuses and the job fails. */
  method FinishExtraction(db: Database, w: WorkerId, found: nat, sawActive: bool, id: JobId, maxAttempts: nat)
    returns (r: Outcome)
    requires db.Valid() && BusyIn(db.View(), w) && db.workers[w].phase.Vetted? && id !in db.stats
    modifies db
    ensures db.Valid()
    ensures r.Rejected? <==> Transition(old(db.workers)[w].phase.row.state, AwaitingReview).None?
    ensures if r.Rejected? then db.View() == old(db.View())
            else Saved(old(db.View()), db.View(), w, r, old(db.workers)[w].phase.row.(state := AwaitingReview),
                       if found > 0
                       then EnsureJob(old(db.workers)[w].session, Summarize, sawActive, id, maxAttempts)
                       else map[])
  {
    WorkerFacts(db.history, w);
    var row := db.workers[w].phase.row;
    var added := map[];
    if found > 0 {
      added := EnsureJob(db.workers[w].session, Summarize, sawActive, id, maxAttempts);
    }
    match Transition(row.state, AwaitingReview)
    case None => r := Rejected("worker_error");
    case Some(next) => r := SaveRow(db, w, row.(state := next), added);
  }

  // ---------------------------------------------------------------- finishing a job

  method CancelOwnJob(db: Database, w: WorkerId, readJob: JobRow, read: SessionRow) returns (r: Outcome)
    requires db.Valid() && BusyIn(db.View(), w) && db.ReadJob(db.workers[w].job, readJob)
    requires db.Read(readJob.session, read)
    modifies db
    ensures db.Valid() && !r.Rejected?
    ensures Performs(old(db.View()), db.View(), r, readJob.session, read, read,
                     map[old(db.workers)[w].job := Cancelling(readJob)], map[], false)
  {
    var j := db.workers[w].job;
    var ok := db.Commit(readJob.session, read, read, map[j := readJob], map[j := Cancelling(readJob)], map[], false);
    r := Finished(ok);
  }

  /** Commits a verdict on a running job; a stopped job is left for `CancelOwnJob`. */
  method Conclude(db: Database, j: JobId, readJob: JobRow, read: SessionRow, ghost cause: Cause, v: Decision)
    returns (r: Outcome)
    requires db.Valid() && db.ReadJob(j, readJob) && db.Read(readJob.session, read)
    requires Legal(readJob, read, v) && Means(cause, readJob, read, v)
    modifies db
    ensures db.Valid() && !r.Rejected?
    ensures Performs(old(db.View()), db.View(), r, readJob.session, read, v.row, map[j := v.write], map[], false)
    ensures r.Done? ==> EndsAs(old(db.View()), db.View(), j, readJob, read, cause)
  {
    ghost var before := db.View();
    var ok := db.Commit(readJob.session, read, v.row, map[j := readJob], map[j := v.write], map[], false);
    r := Finished(ok);
    if ok { TablesEnd(before, db.View(), j, readJob, read, cause, v); }
  }

  /** The worker's own end of a job: reload, stop if cancelled, otherwise commit what the ending calls for. */
  method EndJob(db: Database, w: WorkerId, readJob: JobRow, read: SessionRow, tombstoned: bool, ending: Ending)
    returns (r: Outcome)
    requires db.Valid() && BusyIn(db.View(), w) && db.ReadJob(db.workers[w].job, readJob)
    requires db.Read(readJob.session, read)
    modifies db
    ensures db.Valid() && !r.Rejected?
    ensures var j := old(db.workers)[w].job;
            r.Done? ==>
              if tombstoned || readJob.status != Running || read.state in {Cancelled, DeletePending, Deleted} then
                && j in db.jobs && db.jobs[j].status == JobCancelled
                && db.sessions == old(db.sessions)
              else EndsAs(old(db.View()), db.View(), j, readJob, read, Ended(ending))
    ensures !r.Done? ==> db.View() == old(db.View())
  {
    if Stopped(tombstoned, readJob, read) {
      r := CancelOwnJob(db, w, readJob, read);
    } else {
      var v := EndingVerdict(ending, readJob, read);
      EndingIsLegal(ending, readJob, read);
      EndingMeans(ending, readJob, read);
      r := Conclude(db, db.workers[w].job, readJob, read, Ended(ending), v);
    }
  }

  /** An open marker found before an upload: the job fails for good, on the row in memory. */
  method FailAmbiguous(db: Database, w: WorkerId, readJob: JobRow, message: string) returns (r: Outcome)
    requires db.Valid() && BusyIn(db.View(), w) && db.workers[w].phase.Vetted? && db.workers[w].phase.row.marker.Some?
    requires db.ReadJob(db.workers[w].job, readJob) && readJob.session == db.workers[w].session
    modifies db
    ensures db.Valid() && !r.Rejected?
    ensures r.Done? ==>
              EndsAs(old(db.View()), db.View(), old(db.workers)[w].job, readJob, old(db.workers)[w].phase.row,
                     OpenMarker(message))
    ensures !r.Done? ==> db.View() == old(db.View())
  {
    WorkerFacts(db.history, w);
    var row := db.workers[w].phase.row;
    AmbiguousIsLegal(readJob, row, message);
    AmbiguousMeans(readJob, row, message);
    r := Conclude(db, db.workers[w].job, readJob, row, OpenMarker(message), AmbiguousFailureOf(readJob, row, message));
  }

  /** The last resort after repeated races: only the job row is written, guarded by its status. */
  method LastResort(db: Database, j: JobId, tombstoned: bool) returns (r: Outcome)
    requires db.Valid()
    modifies db
    ensures db.Valid() && r == Done
    ensures if !RunningJob(old(db.View()), j) then db.View() == old(db.View())
            else var job := old(db.jobs)[j];
                 && job.session in old(db.sessions) && db.sessions == old(db.sessions)
                 && j in db.jobs && LastEnds(job, old(db.sessions)[job.session], tombstoned, db.jobs[j])
                 && Committed(old(db.View()), db.View(),
                      Transaction(job.session, old(db.sessions)[job.session],
                                  map[j := LastVerdict(job, old(db.sessions)[job.session], tombstoned)], map[], false,
                                  None))
  {
    r := Done;
    if j in db.jobs && db.jobs[j].status == Running {
      JobFacts(db.history, j);
      var job, row := db.jobs[j], db.sessions[db.jobs[j].session];
      DeletionHasTombstone(db.history, job.session);
      LastMeans(job, row, tombstoned);
      db.Step(Transaction(job.session, row, map[j := LastVerdict(job, row, tombstoned)], map[], false, None));
    }
  }

  /** One attempt at recovering a transaction that lost a version race. */
  method ResolveStale(db: Database, j: JobId, readJob: JobRow, read: SessionRow, tombstoned: bool, message: string)
    returns (r: Outcome)
    requires db.Valid() && db.ReadJob(j, readJob) && db.Read(readJob.session, read)
    modifies db
    ensures db.Valid() && !r.Rejected?
    ensures readJob.status != Running ==> r == Done
    ensures readJob.status != Running || !r.Done? ==> db.View() == old(db.View())
    ensures readJob.status == Running && r.Done? ==>
              EndsAs(old(db.View()), db.View(), j, readJob, read, LostRace(tombstoned, message))
  {
    if readJob.status != Running { return Done; }
    StaleIsLegal(readJob, read, tombstoned, message);
    StaleMeans(readJob, read, tombstoned, message);
    r := Conclude(db, j, readJob, read, LostRace(tombstoned, message),
                  StaleVerdict(readJob, read, tombstoned, message));
  }

  /** One attempt at recovering a job whose lease expired; `expired` is the lease check. */
  method RecoverAbandoned(db: Database, j: JobId, readJob: JobRow, read: SessionRow, expired: bool, message: string)
    returns (r: Outcome)
    requires db.Valid() && db.ReadJob(j, readJob) && db.Read(readJob.session, read)
    modifies db
    ensures db.Valid() && !r.Rejected?
    ensures readJob.status != Running || !expired ==> r == Done
    ensures readJob.status != Running || !expired || !r.Done? ==> db.View() == old(db.View())
    ensures readJob.status == Running && expired && r.Done? ==>
              EndsAs(old(db.View()), db.View(), j, readJob, read, LeaseExpired(message))
  {
    if readJob.status != Running || !expired { return Done; }
    RecoveryIsLegal(readJob, read, message);
    RecoveryMeans(readJob, read, message);
    r := Conclude(db, j, readJob, read, LeaseExpired(message), RecoveryVerdict(readJob, read, message));
  }

  // ---------------------------------------------------------------- compensation

  ghost predicate Cleaned(st: State, st': State, w: WorkerId, clean: CleanupAct) {
    w in st.workers && CleanupEnabled(st, st.workers[w], clean) && st' == CleanupApply(st, w, clean)
  }

  /** Before anything else the orphan's id is made durable; this also leaves a tombstone. */
  method CompensateOrphan(db: Database, w: WorkerId)
    requires db.Valid() && BusyIn(db.View(), w) && db.workers[w].phase.Orphaned?
    modifies db
    ensures db.Valid() && Acted(old(db.View()), db.View(), w, Compensate)
    ensures (old(db.workers)[w].session, old(db.workers)[w].phase.rec) in db.compensations
    ensures old(db.workers)[w].session in db.tombstones
    ensures forall k :: k in old(db.compensations) ==>
              k in db.compensations && db.compensations[k] == old(db.compensations)[k]
  {
    var me := db.workers[w];
    ghost var before, run := db.View(), AfterWorker(db.history, w, Compensate);
    db.AddCompensation(me.session, me.phase.rec, w, Cleaning(me.session, me.phase.rec, false), run);
    CompensateTables(before, db.View(), w);
  }

  lemma CompensateTables(st: State, st': State, w: WorkerId)
    requires WorkerCan(st, w, Compensate)
    requires var s, rec := st.workers[w].session, st.workers[w].phase.rec;
             && st'.tombstones == st.tombstones + {s}
             && st'.compensations == (if (s, rec) in st.compensations then st.compensations
                                      else st.compensations[(s, rec) := Pending])
             && st'.workers == st.workers[w := Cleaning(s, rec, false)]
    requires st'.sessions == st.sessions && st'.jobs == st.jobs && st'.stats == st.stats && st'.audits == st.audits
    requires st'.recordings == st.recordings && st'.issued == st.issued && st'.requests == st.requests
    requires st'.log == st.log && st'.operations == st.operations && st'.produced == st.produced
    requires st'.buried == st.buried
    ensures Acted(st, st', w, Compensate)
  {
  }

  method PickCompensation(db: Database, w: WorkerId, s: SessionId, rec: RecordingId) returns (r: Outcome)
    requires db.Valid() && w in db.workers && (s, rec) in db.compensations
    modifies db
    ensures db.Valid() && (r.Done? <==> old(db.compensations)[(s, rec)] != CleanupDone)
    ensures if r.Done? then Cleaned(old(db.View()), db.View(), w, Pick(s, rec)) else db.View() == old(db.View())
  {
    if db.compensations[(s, rec)] == CleanupDone { return Rejected("already_done"); }
    ghost var run := AfterCleanup(db.history, w, Pick(s, rec));
    db.compensations := db.compensations[(s, rec) := Pending];
    db.workers := db.workers[w := Cleaning(s, rec, false)];
    db.history := run;
    r := Done;
  }

  /** The provider deletes the recording, or had none of that id. */
  method EraseOrphan(db: Database, w: WorkerId)
    requires db.Valid() && w in db.workers && db.workers[w].Cleaning?
    modifies db
    ensures db.Valid() && Cleaned(old(db.View()), db.View(), w, Erase)
    ensures old(db.workers)[w].rec in db.recordings ==> db.recordings[old(db.workers)[w].rec].gone
    ensures forall rec :: rec in old(db.recordings) && rec != old(db.workers)[w].rec ==>
              rec in db.recordings && db.recordings[rec] == old(db.recordings)[rec]
  {
    ghost var run := AfterCleanup(db.history, w, Erase);
    db.recordings := Erased(db.recordings, db.workers[w].rec);
    db.workers := db.workers[w := db.workers[w].(erased := true)];
    db.history := run;
  }

  /** Records the outcome of the provider call. */
  method CloseCompensation(db: Database, w: WorkerId)
    requires db.Valid() && w in db.workers && db.workers[w].Cleaning?
    modifies db
    ensures db.Valid() && Cleaned(old(db.View()), db.View(), w, if old(db.workers)[w].erased then Finish else Fail)
    ensures var me := old(db.workers)[w];
            && db.compensations
               == old(db.compensations)[(me.target, me.rec) := if me.erased then CleanupDone else CleanupFailed]
            && (me.erased ==> me.target in db.tombstones)
  {
    var me := db.workers[w];
    ghost var before, run := db.View(), AfterCleanup(db.history, w, if me.erased then Finish else Fail);
    db.EndCleanup(me.target, me.rec, me.erased, w, run);
    CleanedTables(before, db.View(), w);
  }

  lemma CleanedTables(st: State, st': State, w: WorkerId)
    requires w in st.workers && st.workers[w].Cleaning?
    requires var me := st.workers[w];
             && st'.compensations
                == st.compensations[(me.target, me.rec) := if me.erased then CleanupDone else CleanupFailed]
             && st'.tombstones == if me.erased then st.tombstones + {me.target} else st.tombstones
    requires st'.workers == st.workers[w := Idle]
    requires st'.sessions == st.sessions && st'.jobs == st.jobs && st'.stats == st.stats && st'.audits == st.audits
    requires st'.recordings == st.recordings && st'.issued == st.issued && st'.requests == st.requests
    requires st'.log == st.log && st'.operations == st.operations && st'.produced == st.produced
    requires st'.buried == st.buried
    ensures Cleaned(st, st', w, if st.workers[w].erased then Finish else Fail)
  {
  }
}

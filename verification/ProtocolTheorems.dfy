/** What holds of every run: recordings, uploads, deletion, session states and the retry budget. */
module ProtocolTheorems {
  import opened Common
  import opened SessionStates
  import opened Protocol
  import opened ProtocolSafety

  // ---------------------------------------------------------------- along a run

  lemma EmptyHolds()
    ensures Inv(EMPTY)
  {
  }

  lemma StepTo(st: State, step: Step, st': State)
    requires Inv(st) && Enabled(st, step) && st' == Apply(st, step)
    ensures Inv(st') && Kept(st, st')
  {
    StepKeeps(st, step);
  }

  lemma {:induction false} InvariantAlong(run: Run, i: nat)
    requires IsRun(run) && i < |run.states|
    ensures Inv(run.states[i])
  {
    if i == 0 {
      EmptyHolds();
    } else {
      InvariantAlong(run, i - 1);
      InvariantAcross(run, i - 1);
    }
  }

  lemma InvariantAcross(run: Run, i: nat)
    requires IsRun(run) && i < |run.steps| && Inv(run.states[i])
    ensures Inv(run.states[i + 1]) && Kept(run.states[i], run.states[i + 1])
  {
    assert StepAt(run, i);
    StepTo(run.states[i], run.steps[i], run.states[i + 1]);
  }

  lemma KeptByStep(run: Run, i: nat)
    requires IsRun(run) && i < |run.steps|
    ensures Enabled(run.states[i], run.steps[i]) && run.states[i + 1] == Apply(run.states[i], run.steps[i])
    ensures Inv(run.states[i]) && Inv(run.states[i + 1]) && Kept(run.states[i], run.states[i + 1])
  {
    InvariantAlong(run, i);
    assert StepAt(run, i);
    InvariantAcross(run, i);
  }

  /** What a worker may rely on about the job and the row it holds. */
  lemma WorkerFacts(run: Run, w: WorkerId)
    requires IsRun(run) && BusyIn(Current(run), w)
    ensures var st, me := Current(run), Current(run).workers[w];
            && me.job in st.stats
                && (me.job in st.jobs ==> st.jobs[me.job].session == me.session && st.jobs[me.job].kind == me.kind)
            && (me.phase.Vetted? ==>
                Seen(st, me.session, me.phase.row) && me.phase.row.state != DeletePending
                    && me.phase.row.state != Deleted)
  {
    InvariantAlong(run, |run.states| - 1);
    assert WorkerOk(Current(run), w, Current(run).workers[w]);
  }

  /** The recording a worker was told of is the one its call made. */
  lemma AcceptedFacts(run: Run, w: WorkerId)
    requires IsRun(run) && BusyIn(Current(run), w) && Current(run).workers[w].phase.Accepted?
    ensures var st, me := Current(run), Current(run).workers[w];
            && me.phase.rec in st.recordings
            && st.recordings[me.phase.rec].session == me.session && st.recordings[me.phase.rec].op == me.phase.op
  {
    InvariantAlong(run, |run.states| - 1);
    assert WorkerOk(Current(run), w, Current(run).workers[w]);
  }

  lemma JobFacts(run: Run, j: JobId)
    requires IsRun(run) && j in Current(run).jobs
    ensures j in Current(run).stats && Current(run).jobs[j].session in Current(run).sessions
  {
    InvariantAlong(run, |run.states| - 1);
  }

  /** What a request may rely on about the row it holds. */
  lemma RequestFacts(run: Run, q: RequestId)
    requires IsRun(run) && q in Current(run).requests
    ensures RequestOk(Current(run), Current(run).requests[q])
  {
    InvariantAlong(run, |run.states| - 1);
  }

  lemma AddedAreNew(run: Run, added: map<JobId, JobRow>)
    requires IsRun(run) && forall j :: j in added ==> j !in Current(run).stats
    ensures forall j :: j in added ==> j !in Current(run).jobs
  {
    InvariantAlong(run, |run.states| - 1);
  }

  // ---------------------------------------------------------------- recordings

  /**
   No recording is lost track of: whatever the interleaving of workers, requests and crashes, each
   recording an upload made is linked to its session, named by a compensation row, gone at the
   provider, or its operation is named by the session's marker, by an audit row, or by the marker
   the session carried when it was deleted under a kept tombstone.
   */
  lemma RecordingsAccountedFor(run: Run, i: nat, rec: RecordingId)
    requires IsRun(run) && i < |run.states| && rec in run.states[i].recordings
    ensures Accounted(run.states[i], rec)
  {
    InvariantAlong(run, i);
  }

  /**
   An upload call whose answer nobody has seen stays on record: the recording it may still produce
   will be covered, however long after the worker's crash or timeout the provider makes it.
   */
  lemma OpenCallsAreCovered(run: Run, i: nat, s: SessionId, op: OperationId)
    requires IsRun(run) && i < |run.states| && UploadStarted(s, op) in run.states[i].log
    ensures op in run.states[i].produced || Covered(run.states[i], s, op)
    ensures op in run.states[i].produced ==>
              && run.states[i].produced[op] in run.states[i].recordings
              && Accounted(run.states[i], run.states[i].produced[op])
  {
    InvariantAlong(run, i);
  }

  /** A cleanup recorded as done really removed the recording. */
  lemma CleanupIsTruthful(run: Run, i: nat, s: SessionId, rec: RecordingId)
    requires IsRun(run) && i < |run.states| && rec in run.states[i].recordings
    requires (s, rec) in run.states[i].compensations && run.states[i].compensations[(s, rec)] == CleanupDone
    ensures run.states[i].recordings[rec].gone
  {
    InvariantAlong(run, i);
  }

  /** An upload marker never coexists with a linked recording. */
  lemma MarkerExcludesLink(run: Run, i: nat, s: SessionId)
    requires IsRun(run) && i < |run.states| && s in run.states[i].sessions
    ensures run.states[i].sessions[s].marker == None || run.states[i].sessions[s].recording == None
  {
    InvariantAlong(run, i);
  }

  /** Worker `w` stored the recording its own call made, cleared that call's marker, and touched no other row. */
  ghost predicate LinksItsOwn(st: State, st': State, w: WorkerId) {
    && BusyIn(st, w) && st.workers[w].phase.Confirmed?
    && var s, op, rec := st.workers[w].session, st.workers[w].phase.op, st.workers[w].phase.rec;
    && MarkerIs(st, s, op) && st.sessions[s].recording == None
    && rec in st.recordings && st.recordings[rec].op == op && st.recordings[rec].session == s
    && s in st'.sessions && st'.sessions[s].marker == None && st'.sessions[s].recording == Some(rec)
    && forall t :: t != s && t in st.sessions ==> t in st'.sessions && st'.sessions[t] == st.sessions[t]
  }

  lemma LinkingOwn(st: State, st': State, w: WorkerId, durationMs: Option<nat>)
    requires WorkerCan(st, w, Link(durationMs)) && WorkerOk(st, w, st.workers[w])
    requires st' == WorkerStepped(st, w, Link(durationMs))
    ensures LinksItsOwn(st, st', w)
  {
  }

  /** The commit that links a recording clears exactly the marker of the upload that made it. */
  lemma LinkClearsItsOwnMarker(run: Run, i: nat, w: WorkerId, durationMs: Option<nat>)
    requires IsRun(run) && i < |run.steps| && run.steps[i] == ByWorker(w, Link(durationMs))
    ensures LinksItsOwn(run.states[i], run.states[i + 1], w)
  {
    KeptByStep(run, i);
    assert WorkerOk(run.states[i], w, run.states[i].workers[w]);
    LinkingOwn(run.states[i], run.states[i + 1], w, durationMs);
  }

  /** What an operator's verdict does to the row: marker out, the adopted recording in, everything else as it was. */
  ghost predicate Resolves(st: State, st': State, s: SessionId, adopted: Option<RecordingId>) {
    && s in st.sessions && s in st'.sessions && st'.sessions == st.sessions[s := st'.sessions[s]]
    && var was, now := st.sessions[s], st'.sessions[s];
    && was.marker.Some? && now.marker == None
    && now.recording == (if adopted.Some? then adopted else was.recording)
    && now == was.(version := was.version + 1, marker := now.marker, recording := now.recording)
    && st'.audits == st.audits + {Audit(s, was.marker.value)}
    && st'.jobs == st.jobs && st'.tombstones == st.tombstones && st'.compensations == st.compensations
    && st'.recordings == st.recordings
  }

  lemma ResolvingIs(st: State, q: RequestId, adopted: Option<RecordingId>)
    requires RequestEnabled(st, q, ResolveCommit(adopted)) && RequestOk(st, st.requests[q])
    ensures Resolves(st, RequestApply(st, q, ResolveCommit(adopted)), st.requests[q].session, adopted)
  {
  }

  /** In every run a resolution stores the adopted recording; one that adopts none leaves the session without any. */
  lemma ResolutionAdopts(run: Run, i: nat, q: RequestId, adopted: Option<RecordingId>)
    requires IsRun(run) && i < |run.steps| && run.steps[i] == ByRequest(q, ResolveCommit(adopted))
    ensures var st, st' := run.states[i], run.states[i + 1];
            && q in st.requests && var s := st.requests[q].session;
            && Resolves(st, st', s, adopted)
            && st.sessions[s].recording == None && st'.sessions[s].recording == adopted
            && (adopted.Some? ==> adopted.value in st.issued)
  {
    KeptByStep(run, i);
    var st := run.states[i];
    assert RequestOk(st, st.requests[q]);
    ResolvingIs(st, q, adopted);
    MarkerExcludesLink(run, i, st.requests[q].session);
  }

  // ---------------------------------------------------------------- no blind re-upload

  /** The event a step appends to the history, if any. */
  ghost function EventOf(st: State, step: Step): Option<Event>
    requires Enabled(st, step)
  {
    match step
    case ByWorker(w, StartCall) => Some(UploadStarted(st.workers[w].session, st.workers[w].phase.op))
    case ByWorker(w,
                  Link(_)) => Some(RecordingLinked(st.workers[w].session, st.workers[w].phase.op,
                                                   st.workers[w].phase.rec))
    case ByRequest(q,
                   ResolveCommit(_)) => Some(OperationAudited(st.requests[q].session, st.requests[q].row.marker.value))
    case _ => None
  }

  lemma LogFollowsSteps(run: Run, i: nat)
    requires IsRun(run) && i < |run.steps|
    ensures Enabled(run.states[i], run.steps[i])
    ensures run.states[i + 1].log ==
            run.states[i].log + (match EventOf(run.states[i], run.steps[i]) case None => [] case Some(e) => [e])
  {
    assert StepAt(run, i);
  }

  lemma {:induction false} LogOnlyGrows(run: Run, i: nat, j: nat)
    requires IsRun(run) && i <= j < |run.states|
    ensures run.states[i].log <= run.states[j].log
    decreases j
  {
    if i < j {
      LogOnlyGrows(run, i, j - 1);
      LogFollowsSteps(run, j - 1);
    }
  }

  /** The step that wrote history entry k, found between two moments that enclose it. */
  lemma {:induction false} WriterOf(run: Run, a: nat, b: nat, k: nat) returns (c: nat)
    requires IsRun(run) && a <= b < |run.states| && |run.states[a].log| <= k < |run.states[b].log|
    ensures a <= c < b && Enabled(run.states[c], run.steps[c]) && |run.states[c].log| == k
    ensures EventOf(run.states[c], run.steps[c]) == Some(run.states[b].log[k])
    decreases b
  {
    LogFollowsSteps(run, b - 1);
    if k < |run.states[b - 1].log| {
      LogOnlyGrows(run, a, b - 1);
      c := WriterOf(run, a, b - 1, k);
    } else {
      c := b - 1;
    }
  }

  /** The event that settled the earlier of two upload calls for one session. */
  lemma SettlerOf(st: State, i: nat, j: nat, s: SessionId, op: OperationId, op2: OperationId) returns (k: nat)
    requires LogOk(st) && i < j < |st.log|
    requires st.log[i] == UploadStarted(s, op) && st.log[j] == UploadStarted(s, op2)
    ensures i < k < j && Settles(st.log[k], s, op)
  {
    assert SettledBetween(st.log, i, j, s, op);
    k :| i < k < j && 0 <= k < |st.log| && Settles(st.log[k], s, op);
  }

  /**
   No blind re-upload: between any two upload calls for one session there is a commit that stored
   the first call's recording, or one that wrote an audit row naming the first call's operation.
   */
  lemma UploadsAreSeparated(run: Run, a: nat, b: nat, s: SessionId, op: OperationId, op2: OperationId) returns (c: nat)
    requires IsRun(run) && a < b < |run.steps|
    requires Enabled(run.states[a], run.steps[a]) && EventOf(run.states[a], run.steps[a]) == Some(UploadStarted(s, op))
    requires Enabled(run.states[b], run.steps[b]) && EventOf(run.states[b], run.steps[b]) == Some(UploadStarted(s, op2))
    ensures a < c < b && Enabled(run.states[c], run.steps[c])
    ensures (exists rec :: EventOf(run.states[c], run.steps[c]) == Some(RecordingLinked(s, op, rec)))
            || EventOf(run.states[c], run.steps[c]) == Some(OperationAudited(s, op))
    ensures op != op2
  {
    var i, j, log := |run.states[a].log|, |run.states[b].log|, run.states[b + 1].log;
    LogFollowsSteps(run, a);
    LogFollowsSteps(run, b);
    LogOnlyGrows(run, a + 1, b);
    InvariantAlong(run, b + 1);
    var k := SettlerOf(run.states[b + 1], i, j, s, op, op2);
    c := WriterOf(run, a + 1, b, k);
    assert run.states[b].log[i] == log[i];
    StartsOnce(run, b, s, op2);
  }

  /** An operation's upload call is made at most once. */
  lemma StartsOnce(run: Run, b: nat, s: SessionId, op: OperationId)
    requires IsRun(run) && b < |run.steps|
    requires Enabled(run.states[b], run.steps[b]) && EventOf(run.states[b], run.steps[b]) == Some(UploadStarted(s, op))
    ensures UploadStarted(s, op) !in run.states[b].log
  {
    InvariantAlong(run, b);
    assert WorkerOk(run.states[b], run.steps[b].w, run.states[b].workers[run.steps[b].w]);
  }

  // ---------------------------------------------------------------- deletion

  /** Steps taken by a worker; the rest are API requests, the provider and crashes. */
  predicate WorkerStep(step: Step) {
    step.ByWorker? || step.Cleanup? || (step.Commit? && step.tx.local.Some?)
  }

  /** The ways a session row can change, with the step that does it. */
  ghost predicate RowMove(step: Step, s: SessionId, was: SessionRow, row: SessionRow) {
    || row == was
    || (step.Commit? && step.tx.s == s && OrdinaryWrite(was, row))
    || (step.ByWorker? && was.state != DeletePending && row.state != DeletePending && row.version == was.version + 1
        && (row.state == was.state || (step.act.AddRevision? && Connected(was.state, row.state))))
    || (step.ByRequest? && step.req.ResolveCommit? && row == ResolvedRow(was, step.req.adopted))
    || (step.Outside? && step.out.WebhookDeleted?
        && row == was.(version := was.version + 1, recording := None, lastError := Some(step.out.note)))
  }

  lemma WorkerRowMoves(st: State, w: WorkerId, act: WorkerAct, s: SessionId)
    requires BusyIn(st, w) && WorkerOk(st, w, st.workers[w]) && WorkerEnabled(st, st.workers[w], act)
    requires s in st.sessions
    ensures var st' := WorkerStepped(st, w, act);
            s in st'.sessions && RowMove(ByWorker(w, act), s, st.sessions[s], st'.sessions[s])
  {
  }

  lemma RequestRowMoves(st: State, q: RequestId, req: RequestAct, s: SessionId)
    requires RequestEnabled(st, q, req) && (q in st.requests ==> RequestOk(st, st.requests[q])) && s in st.sessions
    ensures var st' := RequestApply(st, q, req);
            if s in st'.sessions then RowMove(ByRequest(q, req), s, st.sessions[s], st'.sessions[s])
            else req.DeleteCommit? && s in st'.buried
  {
  }

  lemma CommitRowMoves(st: State, tx: Transaction, s: SessionId)
    requires CommitEnabled(st, tx) && s in st.sessions
    ensures s in CommitApply(st, tx).sessions && RowMove(Commit(tx), s, st.sessions[s], CommitApply(st, tx).sessions[s])
  {
  }

  lemma OutsideRowMoves(st: State, out: OutsideAct, s: SessionId)
    requires OutsideEnabled(st, out) && s in st.sessions
    ensures s in OutsideApply(st, out).sessions
    ensures RowMove(Outside(out), s, st.sessions[s], OutsideApply(st, out).sessions[s])
  {
  }

  lemma RowMoves(st: State, step: Step, s: SessionId)
    requires WorkersOk(st) && RequestsOk(st) && Enabled(st, step) && s in st.sessions
    ensures var st' := Apply(st, step);
            if s in st'.sessions then RowMove(step, s, st.sessions[s], st'.sessions[s])
            else step.ByRequest? && step.req.DeleteCommit? && s in st'.buried
  {
    match step
    case ByWorker(w, act) => WorkerRowMoves(st, w, act, s);
    case ByRequest(q, req) => RequestRowMoves(st, q, req, s);
    case Commit(tx) => CommitRowMoves(st, tx, s);
    case Cleanup(w, clean) => CleanupStats(st, w, clean);
    case Outside(out) => OutsideRowMoves(st, out, s);
  }

  /** One step of a run, seen from one session row. */
  lemma RowMovesAt(run: Run, i: nat, s: SessionId)
    requires IsRun(run) && i < |run.steps| && s in run.states[i].sessions
    ensures if s in run.states[i + 1].sessions then
              && RowMove(run.steps[i], s, run.states[i].sessions[s], run.states[i + 1].sessions[s])
              && run.states[i + 1].sessions[s].state != Deleted
              && (run.states[i + 1].sessions[s].version == run.states[i].sessions[s].version ==>
                    run.states[i + 1].sessions[s] == run.states[i].sessions[s])
              && run.states[i].sessions[s].version <= run.states[i + 1].sessions[s].version
            else s in run.states[i + 1].buried
  {
    KeptByStep(run, i);
    RowMoves(run.states[i], run.steps[i], s);
  }

  lemma BuriedAt(run: Run, i: nat, s: SessionId)
    requires IsRun(run) && i < |run.steps| && s in run.states[i].buried
    ensures s !in run.states[i].sessions && s in run.states[i + 1].buried && s !in run.states[i + 1].sessions
  {
    KeptByStep(run, i);
  }

  lemma StaysOrBuriedAt(run: Run, i: nat, s: SessionId)
    requires IsRun(run) && i < |run.steps|
    requires s in run.states[i].sessions || s in run.states[i].buried
    ensures s in run.states[i + 1].sessions || (s in run.states[i + 1].buried && s !in run.states[i + 1].sessions)
  {
    if s in run.states[i].sessions {
      RowMovesAt(run, i, s);
    } else {
      BuriedAt(run, i, s);
    }
  }

  lemma {:induction false} StaysOrBuried(run: Run, i: nat, j: nat, s: SessionId)
    requires IsRun(run) && i <= j < |run.states| && s in run.states[i].sessions
    ensures s in run.states[j].sessions || (s in run.states[j].buried && s !in run.states[j].sessions)
    decreases j
  {
    if i < j {
      StaysOrBuried(run, i, j - 1, s);
      StaysOrBuriedAt(run, j - 1, s);
    }
  }

  lemma MoveKeepsDeletion(step: Step, s: SessionId, was: SessionRow, row: SessionRow)
    requires RowMove(step, s, was, row) && was.state == DeletePending && row.state != Deleted
    ensures row.state == DeletePending
    ensures WorkerStep(step) || step.Commit? ==>
              row.marker == was.marker && row.recording == was.recording && row.revision == was.revision
  {
    if row != was && step.Commit? { DeletePendingIsATrap(row.state); }
  }

  lemma DeletionHasTombstone(run: Run, s: SessionId)
    requires IsRun(run) && s in Current(run).sessions
    ensures Current(run).sessions[s].state == DeletePending ==> s in Current(run).tombstones
    ensures Current(run).sessions[s].state != Deleted
  {
    InvariantAlong(run, |run.states| - 1);
  }

  /** A requested deletion is never withdrawn: the row stays in that state until it is removed. */
  lemma {:induction false} DeletionIsFinal(run: Run, i: nat, j: nat, s: SessionId)
    requires IsRun(run) && i <= j < |run.states|
    requires s in run.states[i].sessions && run.states[i].sessions[s].state == DeletePending
    ensures || (s in run.states[j].sessions && run.states[j].sessions[s].state == DeletePending)
            || (s !in run.states[j].sessions && s in run.states[j].buried)
    decreases j
  {
    if i < j {
      DeletionIsFinal(run, i, j - 1, s);
      if s in run.states[j - 1].sessions {
        RowMovesAt(run, j - 1, s);
        if s in run.states[j].sessions {
          MoveKeepsDeletion(run.steps[j - 1], s, run.states[j - 1].sessions[s], run.states[j].sessions[s]);
        } else {
          BuriedLater(run, j, s);
        }
      } else {
        BuriedAt(run, j - 1, s);
      }
    }
  }

  lemma BuriedLater(run: Run, i: nat, s: SessionId)
    requires IsRun(run) && i < |run.states| && s in run.states[i].buried
    ensures s !in run.states[i].sessions && s in run.states[i].tombstones
  {
    InvariantAlong(run, i);
  }

  /**
   Once a deletion request has committed, no worker step and no ordinary commit, whether its row was
   read before or after, adds a marker, a recording link or a transcript revision to the session.
   */
  lemma DeletionFreezesWorkers(run: Run, i: nat, j: nat, s: SessionId)
    requires IsRun(run) && i <= j < |run.steps| && (WorkerStep(run.steps[j]) || run.steps[j].Commit?)
    requires s in run.states[i].sessions && run.states[i].sessions[s].state == DeletePending
    ensures s in run.states[j + 1].sessions ==>
              && s in run.states[j].sessions
              && run.states[j + 1].sessions[s].marker == run.states[j].sessions[s].marker
              && run.states[j + 1].sessions[s].recording == run.states[j].sessions[s].recording
              && run.states[j + 1].sessions[s].revision == run.states[j].sessions[s].revision
  {
    DeletionIsFinal(run, i, j, s);
    if s in run.states[j].sessions {
      RowMovesAt(run, j, s);
      if s in run.states[j + 1].sessions {
        MoveKeepsDeletion(run.steps[j], s, run.states[j].sessions[s], run.states[j + 1].sessions[s]);
      }
    } else {
      BuriedAt(run, j, s);
    }
  }

  // ---------------------------------------------------------------- rows

  lemma VersionMovesOn(run: Run, i: nat, s: SessionId)
    requires IsRun(run) && i < |run.steps| && s in run.states[i].sessions && s in run.states[i + 1].sessions
    ensures var was, now := run.states[i].sessions[s], run.states[i + 1].sessions[s];
            was.version <= now.version && (was.version == now.version ==> was == now)
  {
    RowMovesAt(run, i, s);
  }

  /** A row that still has the version it was read with has not changed since. */
  lemma {:induction false} SameVersionSameRow(run: Run, i: nat, j: nat, s: SessionId)
    requires IsRun(run) && i <= j < |run.states| && s in run.states[i].sessions && s in run.states[j].sessions
    ensures run.states[i].sessions[s].version <= run.states[j].sessions[s].version
    ensures run.states[i].sessions[s].version == run.states[j].sessions[s].version ==>
              run.states[i].sessions[s] == run.states[j].sessions[s]
    decreases j
  {
    if i < j {
      PresentBefore(run, i, j, s);
      SameVersionSameRow(run, i, j - 1, s);
      VersionMovesOn(run, j - 1, s);
    }
  }

  lemma PresentBefore(run: Run, i: nat, j: nat, s: SessionId)
    requires IsRun(run) && i < j < |run.states| && s in run.states[i].sessions && s in run.states[j].sessions
    ensures s in run.states[j - 1].sessions
  {
    StaysOrBuried(run, i, j - 1, s);
    if s in run.states[j - 1].buried { BuriedAt(run, j - 1, s); }
  }

  /** What may be assumed of a row read at any earlier moment of the run. */
  lemma {:induction false} EarlierRead(run: Run, i: nat, j: nat, s: SessionId)
    requires IsRun(run) && i <= j < |run.states| && s in run.states[i].sessions
    ensures Seen(run.states[j], s, run.states[i].sessions[s]) && run.states[i].sessions[s].state != Deleted
    ensures run.states[i].sessions[s].state == DeletePending ==>
              s in run.states[j].tombstones
                  && (s in run.states[j].sessions ==> run.states[j].sessions[s].state == DeletePending)
    decreases j
  {
    if s in run.states[j].sessions { SameVersionSameRow(run, i, j, s); }
    if run.states[i].sessions[s].state == DeletePending { DeletionIsFinal(run, i, j, s); }
    NeverDeletedState(run, i, s);
    if i < j {
      EarlierRead(run, i, j - 1, s);
      TombstonesGrow(run, j - 1);
    }
  }

  lemma TombstonesGrow(run: Run, i: nat)
    requires IsRun(run) && i < |run.steps|
    ensures run.states[i].tombstones <= run.states[i + 1].tombstones
  {
    KeptByStep(run, i);
  }

  /** Every single commit moves a session along at most two edges of the graph. */
  lemma CommittedMovesAreConnected(run: Run, i: nat, s: SessionId)
    requires IsRun(run) && i < |run.steps| && s in run.states[i].sessions && s in run.states[i + 1].sessions
    ensures Connected(run.states[i].sessions[s].state, run.states[i + 1].sessions[s].state)
  {
    RowMovesAt(run, i, s);
  }

  /** A walk that visits exactly the committed states, in order, with at most one state between two of them. */
  ghost predicate Visits(run: Run, i: nat, j: nat, s: SessionId, w: seq<SessionState>, at: seq<nat>)
    requires i <= j < |run.states|
  {
    && |at| == j - i + 1 && at[0] == 0 && at[j - i] == |w| - 1
    && (forall k :: 0 < k < |at| ==> at[k - 1] < at[k] <= at[k - 1] + 2)
    && (forall k :: 0 <= k < |at| ==>
          && at[k] < |w|
          && s in run.states[i + k].sessions && w[at[k]] == run.states[i + k].sessions[s].state)
  }

  /** In every run the committed states of a session form a walk, one that guarded moves could have made. */
  lemma {:induction false} CommittedStatesFormAWalk(run: Run, i: nat, j: nat, s: SessionId)
    returns (w: seq<SessionState>, at: seq<nat>)
    requires IsRun(run) && i <= j < |run.states| && s in run.states[i].sessions && s in run.states[j].sessions
    ensures Walk(w) && Deleted !in w && Visits(run, i, j, s, w, at)
    ensures w != [] && Moves(w[0], w[1..]) == Some(w)
    decreases j
  {
    if i == j {
      w, at := [run.states[i].sessions[s].state], [0];
      NeverDeletedState(run, i, s);
      GuardedMovesAreWalks(w);
    } else {
      PresentBefore(run, i, j, s);
      w, at := CommittedStatesFormAWalk(run, i, j - 1, s);
      CommittedMovesAreConnected(run, j - 1, s);
      NeverDeletedState(run, j, s);
      var longer := ExtendWalk(w, run.states[j].sessions[s].state);
      ExtendVisit(run, i, j, s, w, at, longer);
      w, at := longer, at + [|longer| - 1];
      GuardedMovesAreWalks(w);
    }
  }

  lemma ExtendVisit(run: Run, i: nat, j: nat, s: SessionId, w: seq<SessionState>, at: seq<nat>,
                    longer: seq<SessionState>)
    requires i < j < |run.states| && Visits(run, i, j - 1, s, w, at) && s in run.states[j].sessions
    requires w <= longer && |w| < |longer| <= |w| + 2 && longer[|longer| - 1] == run.states[j].sessions[s].state
    ensures Visits(run, i, j, s, longer, at + [|longer| - 1])
  {
  }

  lemma NeverDeletedState(run: Run, i: nat, s: SessionId)
    requires IsRun(run) && i < |run.states| && s in run.states[i].sessions
    ensures run.states[i].sessions[s].state != Deleted
    ensures run.states[i].sessions[s].state == DeletePending ==> s in run.states[i].tombstones
  {
    InvariantAlong(run, i);
  }

  // ---------------------------------------------------------------- jobs

  /** A finished job is never picked up again. */
  lemma {:induction false} FinishedJobsStayFinished(run: Run, i: nat, k: nat, j: JobId)
    requires IsRun(run) && i <= k < |run.states| && j in run.states[i].jobs && !Active(run.states[i].jobs[j])
    ensures j in run.states[k].stats && (j in run.states[k].jobs ==> !Active(run.states[k].jobs[j]))
    decreases k
  {
    if i == k {
      JobHasStats(run, i, j);
    } else {
      FinishedJobsStayFinished(run, i, k - 1, j);
      StaysFinished(run, k - 1, j);
    }
  }

  lemma StaysFinished(run: Run, i: nat, j: JobId)
    requires IsRun(run) && i < |run.steps| && j in run.states[i].stats
    requires j in run.states[i].jobs ==> !Active(run.states[i].jobs[j])
    ensures j in run.states[i + 1].stats && (j in run.states[i + 1].jobs ==> !Active(run.states[i + 1].jobs[j]))
  {
    KeptByStep(run, i);
  }

  /** A job keeps its session, and any change of its row moves its version on. */
  ghost predicate TableMove(jobs: map<JobId, JobRow>, jobs': map<JobId, JobRow>, j: JobId) {
    j in jobs && j in jobs' ==>
      jobs'[j].session == jobs[j].session && (jobs'[j] == jobs[j] || jobs'[j].version > jobs[j].version)
  }

  ghost predicate JobMove(st: State, st': State, j: JobId) {
    TableMove(st.jobs, st'.jobs, j)
  }

  lemma WritesMove(jobs: map<JobId, JobRow>, writes: map<JobId, JobWrite>, added: map<JobId, JobRow>, j: JobId)
    requires j in jobs ==> j !in added
    ensures TableMove(jobs, JobsAfter(jobs, writes, added), j)
  {
  }

  lemma CommitJobs(st: State, tx: Transaction, j: JobId)
    requires JobsOk(st) && CommitEnabled(st, tx)
    ensures JobMove(st, CommitApply(st, tx), j)
  {
    WritesMove(st.jobs, tx.writes, tx.added, j);
  }

  lemma WorkerJobs(st: State, w: WorkerId, me: Worker, act: WorkerAct, j: JobId)
    requires JobsOk(st) && me.Busy? && WorkerEnabled(st, me, act)
    ensures JobMove(st, WorkerApply(st, w, me, act), j)
  {
  }

  lemma RequestJobs(st: State, q: RequestId, req: RequestAct, j: JobId)
    requires RequestEnabled(st, q, req)
    ensures JobMove(st, RequestApply(st, q, req), j)
  {
  }

  lemma OutsideJobs(st: State, out: OutsideAct, j: JobId)
    requires OutsideEnabled(st, out)
    ensures JobMove(st, OutsideApply(st, out), j)
  {
  }

  lemma CleanupJobs(st: State, w: WorkerId, clean: CleanupAct, j: JobId)
    requires w in st.workers && CleanupEnabled(st, st.workers[w], clean)
    ensures JobMove(st, CleanupApply(st, w, clean), j)
  {
  }

  lemma JobMoves(st: State, step: Step, j: JobId)
    requires JobsOk(st) && Enabled(st, step)
    ensures JobMove(st, Apply(st, step), j)
  {
    match step
    case Commit(tx) => CommitJobs(st, tx, j);
    case ByWorker(w, act) => WorkerJobs(st, w, st.workers[w], act, j);
    case Cleanup(w, clean) => CleanupJobs(st, w, clean, j);
    case ByRequest(q, req) => RequestJobs(st, q, req, j);
    case Outside(out) => OutsideJobs(st, out, j);
  }

  lemma JobMovesAt(run: Run, i: nat, j: JobId)
    requires IsRun(run) && i < |run.steps| && j in run.states[i].stats
    ensures j in run.states[i + 1].stats
    ensures j in run.states[i + 1].jobs ==> j in run.states[i].jobs
    ensures JobMove(run.states[i], run.states[i + 1], j)
  {
    KeptByStep(run, i);
    JobMoves(run.states[i], run.steps[i], j);
  }

  lemma JobHasStats(run: Run, i: nat, j: JobId)
    requires IsRun(run) && i < |run.states| && j in run.states[i].jobs
    ensures j in run.states[i].stats
  {
    InvariantAlong(run, i);
  }

  /** A job row that still has the version it was read with has not changed since. */
  lemma {:induction false} SameVersionSameJob(run: Run, i: nat, k: nat, j: JobId)
    requires IsRun(run) && i <= k < |run.states| && j in run.states[i].jobs
    ensures j in run.states[k].stats
    ensures j in run.states[k].jobs ==>
              && run.states[k].jobs[j].session == run.states[i].jobs[j].session
              && run.states[i].jobs[j].version <= run.states[k].jobs[j].version
              && (run.states[k].jobs[j].version == run.states[i].jobs[j].version ==>
                  run.states[k].jobs[j] == run.states[i].jobs[j])
    decreases k
  {
    if i == k {
      JobHasStats(run, i, j);
    } else {
      SameVersionSameJob(run, i, k - 1, j);
      JobMovesAt(run, k - 1, j);
    }
  }

  /** What may be assumed of a job row read at any earlier moment of the run. */
  lemma EarlierJobRead(run: Run, i: nat, k: nat, j: JobId)
    requires IsRun(run) && i <= k < |run.states| && j in run.states[i].jobs
    ensures j in run.states[k].jobs ==>
              && run.states[k].jobs[j].session == run.states[i].jobs[j].session
              && (run.states[k].jobs[j].version == run.states[i].jobs[j].version ==>
                    run.states[k].jobs[j] == run.states[i].jobs[j])
              && (Active(run.states[k].jobs[j]) ==> Active(run.states[i].jobs[j]))
  {
    SameVersionSameJob(run, i, k, j);
    if !Active(run.states[i].jobs[j]) { FinishedJobsStayFinished(run, i, k, j); }
  }

  /** How often a job was written in a given way during the first n steps. */
  ghost function Count(steps: seq<Step>, j: JobId, hit: JobWrite -> bool): nat {
    if steps == [] then 0
    else Count(steps[..|steps| - 1], j, hit) + (if Wrote(steps[|steps| - 1], j, hit) then 1 else 0)
  }

  predicate Wrote(step: Step, j: JobId, hit: JobWrite -> bool) {
    step.Commit? && j in step.tx.writes && hit(step.tx.writes[j])
  }

  ghost predicate StatsMove(st: State, st': State, step: Step, j: JobId) {
    && (j in st.stats ==>
          && j in st'.stats
          && st'.stats[j] == (if step.Commit? && j in step.tx.writes then Counted(st.stats[j], step.tx.writes[j])
                              else st.stats[j]))
    && (j !in st.stats ==>
          && !(step.Commit? && j in step.tx.writes)
          && (j in st'.stats ==> st'.stats[j] == JobStats(0, 0, 0)))
  }

  lemma CommitStats(st: State, tx: Transaction, j: JobId)
    requires JobsOk(st) && CommitEnabled(st, tx)
    ensures StatsMove(st, CommitApply(st, tx), Commit(tx), j)
  {
  }

  lemma WorkerStats(st: State, w: WorkerId, me: Worker, act: WorkerAct)
    requires me.Busy? && WorkerEnabled(st, me, act)
    ensures WorkerApply(st, w, me, act).stats == (if act.AddRevision? then StatsAfter(st.stats, map[], act.added)
                                                  else st.stats)
    ensures act.AddRevision? ==> forall j :: j in act.added ==> j !in st.stats
  {
  }

  lemma CleanupStats(st: State, w: WorkerId, clean: CleanupAct)
    requires w in st.workers && CleanupEnabled(st, st.workers[w], clean)
    ensures CleanupApply(st, w, clean).stats == st.stats && CleanupApply(st, w, clean).sessions == st.sessions
  {
  }

  lemma RequestStats(st: State, q: RequestId, req: RequestAct)
    requires RequestEnabled(st, q, req)
    ensures RequestApply(st, q, req).stats == st.stats
  {
  }

  lemma OutsideStats(st: State, out: OutsideAct)
    requires OutsideEnabled(st, out)
    ensures OutsideApply(st, out).stats == st.stats
  {
  }

  lemma StatsStep(st: State, step: Step, j: JobId)
    requires JobsOk(st) && Enabled(st, step)
    ensures StatsMove(st, Apply(st, step), step, j)
  {
    match step
    case ByWorker(w, act) => WorkerStats(st, w, st.workers[w], act);
    case Commit(tx) => CommitStats(st, tx, j);
    case Cleanup(w, clean) => CleanupStats(st, w, clean);
    case ByRequest(q, req) => RequestStats(st, q, req);
    case Outside(out) => OutsideStats(st, out);
  }

  lemma StatsStepAt(run: Run, i: nat, j: JobId)
    requires IsRun(run) && i < |run.steps|
    ensures StatsMove(run.states[i], run.states[i + 1], run.steps[i], j)
  {
    InvariantAlong(run, i);
    assert StepAt(run, i);
    StatsStep(run.states[i], run.steps[i], j);
  }

  lemma {:induction false} StatsCountWrites(run: Run, i: nat, j: JobId)
    requires IsRun(run) && i < |run.states|
    ensures j in run.states[i].stats ==>
              && run.states[i].stats[j].claims == Count(run.steps[..i], j, (w: JobWrite) => w.Claim?)
              && run.states[i].stats[j].polls == Count(run.steps[..i], j, (w: JobWrite) => w.Poll?)
              && run.states[i].stats[j].recoveries == Count(run.steps[..i], j, (w: JobWrite) => w.Recover?)
    ensures j !in run.states[i].stats ==>
              && Count(run.steps[..i], j, (w: JobWrite) => w.Claim?) == 0
              && Count(run.steps[..i], j, (w: JobWrite) => w.Poll?) == 0
              && Count(run.steps[..i], j, (w: JobWrite) => w.Recover?) == 0
  {
    if i > 0 {
      StatsCountWrites(run, i - 1, j);
      StatsStepAt(run, i - 1, j);
      assert run.steps[..i][..i - 1] == run.steps[..i - 1];
    }
  }

  /**
   The retry budget: in any run a job is claimed at most as often as it may be attempted, plus its
   transcription-pending polls, plus its lease-expiry recoveries.
   */
  lemma RetryBudget(run: Run, i: nat, j: JobId)
    requires IsRun(run) && i < |run.states| && j in run.states[i].jobs
    ensures Count(run.steps[..i], j, (w: JobWrite) => w.Claim?)
            <= Budget(run.states[i].jobs[j])
               + Count(run.steps[..i], j, (w: JobWrite) => w.Poll?)
               + Count(run.steps[..i], j, (w: JobWrite) => w.Recover?)
  {
    InvariantAlong(run, i);
    StatsCountWrites(run, i, j);
  }

  /** Without polls and lease expiries a job is claimed as often as it may be attempted, and at least once allowed. */
  lemma RetriesEnd(run: Run, i: nat, j: JobId)
    requires IsRun(run) && i < |run.states| && j in run.states[i].jobs
    requires Count(run.steps[..i], j, (w: JobWrite) => w.Poll?) == 0
    requires Count(run.steps[..i], j, (w: JobWrite) => w.Recover?) == 0
    ensures Count(run.steps[..i], j, (w: JobWrite) => w.Claim?)
         <= if run.states[i].jobs[j].maxAttempts == 0 then 1 else run.states[i].jobs[j].maxAttempts
    ensures Count(run.steps[..i], j, (w: JobWrite) => w.Claim?) >= Budget(run.states[i].jobs[j]) ==>
              run.states[i].jobs[j].status != Queued
  {
    RetryBudget(run, i, j);
    StatsCountWrites(run, i, j);
    InvariantAlong(run, i);
    assert BudgetOk(run.states[i].jobs[j], run.states[i].stats[j]);
  }

  // ---------------------------------------------------------------- a run that links a recording

  /** A session that has its media and one queued transcription job. */
  ghost function Submitted(s: SessionId, j: JobId): State {
    EMPTY.(sessions := map[s := NEW_SESSION.(version := 3, state := Transcribing, hasMedia := true)],
           jobs := map[j := NewJob(s, Transcribe, 1)], stats := map[j := JobStats(0, 0, 0)])
  }

  /** A new session put in UPLOADING. */
  ghost function UploadBegun(s: SessionId): State {
    EMPTY.(sessions := map[s := NEW_SESSION.(version := 2, state := Uploading)])
  }

  lemma UploadCanStart(s: SessionId) returns (run: Run)
    ensures IsRun(run) && Current(run) == UploadBegun(s)
  {
    run := AfterOutside(START, OutsideAct.CreateSession(s));
    var uploading := NEW_SESSION.(version := 2, state := Uploading);
    run := AfterCommit(run, Transaction(s, uploading, map[], map[], false, None));
    assert Current(run).sessions == map[s := uploading];
    assert Current(run).jobs == map[] && Current(run).stats == map[];
  }

  function Arrival(s: SessionId, j: JobId): Transaction {
    Transaction(s, NEW_SESSION.(version := 3, state := Transcribing, hasMedia := true), map[],
                map[j := NewJob(s, Transcribe, 1)], false, None)
  }

  lemma ArrivalIsEnabled(s: SessionId, j: JobId)
    ensures CommitEnabled(UploadBegun(s), Arrival(s, j))
  {
    assert Hop(Uploading, Uploaded, Transcribing);
  }

  lemma ArrivalLeadsTo(s: SessionId, j: JobId)
    requires CommitEnabled(UploadBegun(s), Arrival(s, j))
    ensures CommitApply(UploadBegun(s), Arrival(s, j)) == Submitted(s, j)
  {
    var st := CommitApply(UploadBegun(s), Arrival(s, j));
    assert st.sessions == Submitted(s, j).sessions;
    assert st.jobs == Submitted(s, j).jobs && st.stats == Submitted(s, j).stats;
  }

  lemma MediaCanArrive(s: SessionId, j: JobId) returns (run: Run)
    ensures IsRun(run) && Current(run) == Submitted(s, j)
  {
    run := UploadCanStart(s);
    ArrivalIsEnabled(s, j);
    ArrivalLeadsTo(s, j);
    run := AfterCommit(run, Arrival(s, j));
  }

  /** Worker `w` has claimed the job and holds the session's row. */
  ghost function Held(s: SessionId, j: JobId, w: WorkerId): State {
    var st := Submitted(s, j);
    st.(jobs := map[j := Written(st.jobs[j], Claim)], stats := map[j := JobStats(1, 0, 0)],
        workers := map[w := Busy(j, s, Transcribe, Vetted(st.sessions[s]))])
  }

  lemma JobCanBeClaimed(s: SessionId, j: JobId, w: WorkerId) returns (run: Run)
    ensures IsRun(run) && Current(run) == Held(s, j, w)
  {
    run := MediaCanArrive(s, j);
    var st := Submitted(s, j);
    run := AfterCommit(run,
                       Transaction(s, st.sessions[s], map[j := Claim], map[], false,
                                   Some((w, Busy(j, s, Transcribe, Fetched)))));
    assert Current(run).sessions == st.sessions;
    assert Current(run).jobs == map[j := Written(st.jobs[j], Claim)]
        && Current(run).stats == map[j := JobStats(1, 0, 0)];
    assert Current(run).workers == map[w := Busy(j, s, Transcribe, Fetched)];
    run := AfterWorker(run, w, Load);
    assert Current(run).workers == map[w := Busy(j, s, Transcribe, Vetted(st.sessions[s]))];
  }

  /** The marker is set and the upload call is under way. */
  ghost predicate Called(st: State, s: SessionId, j: JobId, w: WorkerId, op: OperationId) {
    && MarkerIs(st, s, op) && st.sessions[s].recording == None && st.sessions[s].state == Transcribing
    && st.sessions.Keys == {s} && RunningJob(st, j)
    && st.workers == map[w := Busy(j, s, Transcribe, Calling(op))]
    && st.log == [UploadStarted(s, op)] && st.produced == map[] && st.issued == {} && st.tombstones == {}
  }

  lemma UploadCanBeCalled(s: SessionId, j: JobId, w: WorkerId, op: OperationId) returns (run: Run)
    ensures IsRun(run) && Called(Current(run), s, j, w, op)
  {
    run := JobCanBeClaimed(s, j, w);
    run := AfterWorker(run, w, Begin(op));
    run := AfterWorker(run, w, StartCall);
  }

  /** Some run goes all the way: marker, call, recording, link. */
  lemma UploadCanBeLinked(s: SessionId, j: JobId, w: WorkerId, op: OperationId, rec: RecordingId) returns (run: Run)
    ensures IsRun(run) && s in Current(run).sessions
    ensures Current(run).sessions[s].recording == Some(rec) && Current(run).sessions[s].marker == None
    ensures rec in Current(run).recordings && Current(run).recordings[rec] == Recording(s, op, false)
  {
    run := UploadCanBeCalled(s, j, w, op);
    run := AfterOutside(run, ProviderCreate(s, op, rec));
    run := AfterWorker(run, w, Accept(rec));
    run := AfterWorker(run, w, Confirm);
    run := AfterWorker(run, w, Link(None));
  }

  /** Another run: the worker dies during the call, and the recording turns up afterwards. */
  lemma RecordingCanComeLate(s: SessionId, j: JobId, w: WorkerId, op: OperationId, rec: RecordingId) returns (run: Run)
    ensures IsRun(run) && Current(run).workers == map[w := Idle]
    ensures rec in Current(run).recordings && Current(run).recordings[rec] == Recording(s, op, false)
    ensures MarkerIs(Current(run), s, op) && Current(run).sessions[s].recording == None
  {
    run := UploadCanBeCalled(s, j, w, op);
    run := AfterOutside(run, Crash(w));
    run := AfterOutside(run, ProviderCreate(s, op, rec));
  }
}

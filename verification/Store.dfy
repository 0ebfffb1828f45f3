/**
 The tables and the commit.  A transaction reads rows, edits them in memory and commits; between
 its read and its commit any number of other commits may have happened, so all that is known of a
 row it read is that the stored row is the same one as long as the version is (`Read`).  Every
 method performs exactly one step of the protocol, or none.
 */
module Store {
  import opened Common
  import opened SessionStates
  import opened Protocol
  import opened ProtocolSafety
  import opened ProtocolTheorems

  const AMBIGUOUS := "ambiguous_provider_operation"

  /** `Conflict` is a commit that lost the race on some row's version. */
  datatype Outcome = Done | Rejected(code: string) | Conflict

  /** The row as the mapper stores it: untouched rows are not written, others get the next version. */
  function Save(read: SessionRow, edited: SessionRow): SessionRow {
    if edited == read then read else edited.(version := read.version + 1)
  }

  /** The stored session row after a commit that read `read` and edited it to `edited`. */
  function RowAfter(st: State, s: SessionId, read: SessionRow, edited: SessionRow): SessionRow
    requires s in st.sessions
  {
    if edited == read then st.sessions[s] else Save(read, edited)
  }

  /** Cancelling keeps what is recorded about an earlier error. */
  function Cancelling(job: JobRow): (w: JobWrite)
    ensures Written(job, w) == job.(version := job.version + 1, status := JobCancelled)
  {
    Close(JobCancelled, job.errorCode, job.ambiguousOperation)
  }

  ghost predicate Committed(st: State, st': State, tx: Transaction) {
    CommitEnabled(st, tx) && st' == CommitApply(st, tx)
  }

  /** What one job write does to the row, column by column. */
  lemma WriteMeans(job: JobRow, w: JobWrite)
    ensures var now := Written(job, w);
            && now.version == job.version + 1
            && now.session == job.session && now.kind == job.kind && now.maxAttempts == job.maxAttempts
            && (w.Claim? || w.Touch? ==> now.errorCode == job.errorCode)
            && (!w.Close? ==> now.ambiguousOperation == job.ambiguousOperation)
            && (now.attempts > job.attempts <==> w.Claim?) && now.attempts <= job.attempts + 1
            && (now.attempts < job.attempts <==> w.Poll? && job.attempts > 0) && now.attempts >= job.attempts - 1
            && (now.status == if w.Claim? then Running
                              else if w.Touch? then job.status
                              else if w.Close? then w.status
                              else Queued)
            && (w.Retry? || w.Poll? || w.Recover? ==> now.errorCode == Some(w.code))
            && (w.Close? ==> now.errorCode == w.error && now.ambiguousOperation == w.op)
  {
  }

  /** What one commit does to the tables: one session row, the named jobs, the new jobs, and nothing else. */
  ghost predicate Stores(st: State, st': State, s: SessionId, read: SessionRow, edited: SessionRow,
                         writes: map<JobId, JobWrite>, added: map<JobId, JobRow>, tombstone: bool)
  {
    && s in st.sessions && s in st'.sessions && st'.sessions == st.sessions[s := st'.sessions[s]]
    && (if edited == read then st'.sessions[s] == st.sessions[s]
        else st'.sessions[s] == edited.(version := read.version + 1))
    && st'.jobs.Keys == st.jobs.Keys + added.Keys
    && (forall j :: j in added ==> st'.jobs[j] == added[j])
    && (forall j :: j in st.jobs && j in writes ==> st'.jobs[j] == Written(st.jobs[j], writes[j]))
    && (forall j :: j in st.jobs && j !in writes ==> st'.jobs[j] == st.jobs[j])
    && (forall t :: t in st'.tombstones <==> t in st.tombstones || (tombstone && t == s))
    && st'.compensations == st.compensations && st'.audits == st.audits && st'.requests == st.requests
    && st'.recordings == st.recordings && st'.issued == st.issued && st'.log == st.log
  }

  lemma JobsStored(jobs: map<JobId, JobRow>, writes: map<JobId, JobWrite>, added: map<JobId, JobRow>)
    requires forall j :: j in added ==> j !in jobs
    ensures var jobs' := JobsAfter(jobs, writes, added);
            && jobs'.Keys == jobs.Keys + added.Keys
            && (forall j :: j in added ==> jobs'[j] == added[j])
            && (forall j :: j in jobs && j in writes ==> jobs'[j] == Written(jobs[j], writes[j]))
            && (forall j :: j in jobs && j !in writes ==> jobs'[j] == jobs[j])
  {
  }

  lemma CommitStores(st: State, st': State, s: SessionId, read: SessionRow, edited: SessionRow,
                     writes: map<JobId, JobWrite>, added: map<JobId, JobRow>, tombstone: bool,
                     local: Option<(WorkerId, Worker)>)
    requires s in st.sessions && forall j :: j in added ==> j !in st.jobs
    requires Committed(st, st', Transaction(s, RowAfter(st, s, read, edited), writes, added, tombstone, local))
    ensures Stores(st, st', s, read, edited, writes, added, tombstone)
  {
    JobsStored(st.jobs, writes, added);
  }

  lemma CommittedTables(st: State, st': State, tx: Transaction)
    requires CommitEnabled(st, tx)
    requires st'.sessions == st.sessions[tx.s := tx.row]
    requires st'.jobs == JobsAfter(st.jobs, tx.writes, tx.added)
    requires st'.stats == StatsAfter(st.stats, tx.writes, tx.added)
    requires st'.tombstones == if tx.tombstone then st.tombstones + {tx.s} else st.tombstones
    requires st'.workers == if tx.local.Some? then st.workers[tx.local.value.0 := tx.local.value.1] else st.workers
    requires st'.compensations == st.compensations && st'.audits == st.audits && st'.recordings == st.recordings
    requires st'.issued == st.issued && st'.requests == st.requests && st'.log == st.log
    requires st'.operations == st.operations && st'.produced == st.produced && st'.buried == st.buried
    ensures Committed(st, st', tx)
  {
  }

  /** Edits that the ordinary commit path performs: marker, link and revision stay as read. */
  ghost predicate OrdinaryEdit(read: SessionRow, edited: SessionRow) {
    && edited.version == read.version
    && edited.marker == read.marker && edited.recording == read.recording && edited.revision == read.revision
    && Connected(read.state, edited.state) && (edited != read ==> edited.state != Deleted)
  }

  class Database {
    var sessions: map<SessionId, SessionRow>
    var jobs: map<JobId, JobRow>
    var tombstones: set<SessionId>
    var compensations: map<(SessionId, RecordingId), CompensationStatus>
    var audits: set<Audit>
    var recordings: map<RecordingId, Recording>
    var issued: set<RecordingId>
    var workers: map<WorkerId, Worker>
    var requests: map<RequestId, Request>
    ghost var log: seq<Event>
    ghost var operations: map<OperationId, Begun>
    ghost var produced: map<OperationId, RecordingId>
    ghost var buried: map<SessionId, Option<OperationId>>
    ghost var stats: map<JobId, JobStats>
    ghost var history: Run

    ghost function View(): State
      reads this
    {
      State(sessions, jobs, tombstones, compensations, audits, recordings, issued, workers, requests,
            log, operations, produced, buried, stats)
    }

    /** The tables are where a run of the protocol has led. */
    ghost predicate Valid()
      reads this
    {
      IsRun(history) && Current(history) == View()
    }

    constructor ()
      ensures Valid() && View() == EMPTY
    {
      sessions, jobs, tombstones, compensations, audits := map[], map[], {}, map[], {};
      recordings, issued, workers, requests := map[], {}, map[], map[];
      log, operations, produced, buried, stats := [], map[], map[], map[], map[];
      history := START;
    }

    /** What a transaction may assume of a session row it read. */
    ghost predicate Read(s: SessionId, read: SessionRow)
      reads this
    {
      && Seen(View(), s, read) && read.state != Deleted
      && (read.state == DeletePending ==> s in tombstones && (s in sessions ==> sessions[s].state == DeletePending))
    }

    /** What it may assume of a job row it read. */
    ghost predicate ReadJob(j: JobId, read: JobRow)
      reads this
    {
      j in jobs ==>
        && jobs[j].session == read.session && (jobs[j].version == read.version ==> jobs[j] == read)
        && (Active(jobs[j]) ==> Active(read))
    }

    /** The jobs of a session as some earlier snapshot had them. */
    ghost predicate ReadJobs(s: SessionId, read: map<JobId, JobRow>)
      reads this
    {
      forall j :: j in read ==> ReadJob(j, read[j]) && read[j].session == s
    }

    // ------------------------------------------------------------ the commit itself

    method Write(tx: Transaction)
      modifies this`sessions, this`jobs, this`tombstones, this`workers, this`stats
      ensures sessions == old(sessions)[tx.s := tx.row]
      ensures jobs == JobsAfter(old(jobs), tx.writes, tx.added) && stats == StatsAfter(old(stats), tx.writes, tx.added)
      ensures tombstones == if tx.tombstone then old(tombstones) + {tx.s} else old(tombstones)
      ensures workers == if tx.local.Some? then old(workers)[tx.local.value.0 := tx.local.value.1] else old(workers)
    {
      sessions := sessions[tx.s := tx.row];
      jobs := JobsAfter(jobs, tx.writes, tx.added);
      stats := StatsAfter(stats, tx.writes, tx.added);
      if tx.tombstone { tombstones := tombstones + {tx.s}; }
      if tx.local.Some? { workers := workers[tx.local.value.0 := tx.local.value.1]; }
    }

    /** Stores new tables for a request's commit, together with the history it makes. */
    method Replace(sessions': map<SessionId, SessionRow>, jobs': map<JobId, JobRow>, tombstones': set<SessionId>,
                   audits': set<Audit>, requests': map<RequestId, Request>,
                   ghost log': seq<Event>, ghost buried': map<SessionId, Option<OperationId>>, ghost run: Run)
      modifies this`sessions, this`jobs, this`tombstones, this`audits, this`requests, this`log, this`buried,
          this`history
      ensures sessions == sessions' && jobs == jobs' && tombstones == tombstones' && audits == audits'
      ensures requests == requests' && log == log' && buried == buried' && history == run
    {
      sessions, jobs, tombstones, audits, requests := sessions', jobs', tombstones', audits', requests';
      log, buried, history := log', buried', run;
    }

    /** Stores new tables for a worker's step, together with the history it makes. */
    method Act(sessions': map<SessionId, SessionRow>, jobs': map<JobId, JobRow>, workers': map<WorkerId, Worker>,
               ghost log': seq<Event>, ghost operations': map<OperationId, Begun>, ghost run: Run)
      modifies this`sessions, this`jobs, this`workers, this`log, this`operations, this`history
      ensures sessions == sessions' && jobs == jobs' && workers == workers'
      ensures log == log' && operations == operations' && history == run
    {
      sessions, jobs, workers := sessions', jobs', workers';
      log, operations, history := log', operations', run;
    }

    /** The provider's side of an upload. */
    method AddRecording(rec: RecordingId, recording: Recording, ghost run: Run)
      modifies this`recordings, this`issued, this`produced, this`history
      ensures recordings == old(recordings)[rec := recording] && issued == old(issued) + {rec}
      ensures produced == old(produced)[recording.op := rec] && history == run
    {
      recordings, issued := recordings[rec := recording], issued + {rec};
      produced, history := produced[recording.op := rec], run;
    }

    /** Names an orphan in a compensation row, unless one does already, and leaves a tombstone. */
    method AddCompensation(s: SessionId, rec: RecordingId, w: WorkerId, me: Worker, ghost run: Run)
      modifies this`tombstones, this`compensations, this`workers, this`history
      ensures tombstones == old(tombstones) + {s} && workers == old(workers)[w := me] && history == run
      ensures compensations == if (s, rec) in old(compensations) then old(compensations)
                else old(compensations)[(s, rec) := Pending]
    {
      tombstones, workers, history := tombstones + {s}, workers[w := me], run;
      if (s, rec) !in compensations { compensations := compensations[(s, rec) := Pending]; }
    }

    /** Records how the cleanup of an orphan ended. */
    method EndCleanup(s: SessionId, rec: RecordingId, done: bool, w: WorkerId, ghost run: Run)
      modifies this`tombstones, this`compensations, this`workers, this`history
      ensures compensations == old(compensations)[(s, rec) := if done then CleanupDone else CleanupFailed]
      ensures tombstones == if done then old(tombstones) + {s} else old(tombstones)
      ensures workers == old(workers)[w := Idle] && history == run
    {
      if done {
        compensations, tombstones := compensations[(s, rec) := CleanupDone], tombstones + {s};
      } else {
        compensations := compensations[(s, rec) := CleanupFailed];
      }
      workers, history := workers[w := Idle], run;
    }

    method Step(tx: Transaction)
      requires Valid() && CommitEnabled(View(), tx)
      modifies this
      ensures Valid() && Committed(old(View()), View(), tx)
    {
      ghost var before, run := View(), AfterCommit(history, tx);
      Write(tx);
      history := run;
      CommittedTables(before, View(), tx);
    }

    /** One database commit: every dirty row is written only if its version is the one read. */
    method Commit(s: SessionId, read: SessionRow, edited: SessionRow, base: map<JobId, JobRow>,
                  writes: map<JobId, JobWrite>,
                  added: map<JobId, JobRow>, tombstone: bool)
      returns (ok: bool)
      requires Valid() && Read(s, read) && OrdinaryEdit(read, edited)
      requires forall j :: j in writes ==>
                 j in base && ReadJob(j, base[j]) && base[j].session == s && WriteAllowed(base[j], writes[j])
      requires forall j :: j in added ==> j !in stats && added[j] == NewJob(s, added[j].kind, added[j].maxAttempts)
      requires edited.state == DeletePending ==> tombstone || read.state == DeletePending
      modifies this
      ensures Valid()
      ensures ok == (s in old(sessions) && (edited != read ==> old(sessions)[s].version == read.version)
                     && forall j :: j in writes ==> j in old(jobs) && old(jobs)[j].version == base[j].version)
      ensures ok ==>
                Committed(old(View()), View(),
                          Transaction(s, RowAfter(old(View()), s, read, edited), writes, added, tombstone, None))
      ensures ok ==> Stores(old(View()), View(), s, read, edited, writes, added, tombstone)
      ensures !ok ==> View() == old(View())
    {
      ok := s in sessions && (edited != read ==> sessions[s].version == read.version)
            && forall j :: j in writes ==> j in jobs && jobs[j].version == base[j].version;
      if ok {
        var row := if edited == read then sessions[s] else Save(read, edited);
        DeletionHasTombstone(history, s);
        ghost var before := View();
        AddedAreNew(history, added);
        Step(Transaction(s, row, writes, added, tombstone, None));
        CommitStores(before, View(), s, read, edited, writes, added, tombstone, None);
      }
    }
  }
}

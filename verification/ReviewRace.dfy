/**
 A verification and a hand-added entry on one session, as two database transactions that may overlap.
 Each reads the session row first; the verification then reads the statuses of the ledger, which are
 those committed by that moment plus its own; a row is written only if its version is the one read,
 and a transaction that loses that race is rolled back whole.  The ledger is that of the current
 revision.
 */
module ReviewRace {
  import opened Common
  import opened SessionStates
  import opened Review

  datatype Row = Row(state: SessionState, version: nat)

  /** The committed rows, and what each transaction has read so far. */
  datatype World = World(
    row: Row,
    ledger: seq<Verification>,
    verifierRow: Row,
    admitted: bool,
    settledSeen: bool,
    adderRow: Row)

  /** The two requests: which entry gets which decision, and whether the new entry's evidence is valid. */
  datatype Requests = Requests(entry: nat, decision: Verification, valid: bool)

  /** A non-empty ledger of decisions only. */
  predicate AllDecided(ledger: seq<Verification>) {
    ledger != [] && forall i :: 0 <= i < |ledger| ==> ledger[i] in DECISIONS
  }

  /** What COMPLETE means to a reader. */
  predicate Honest(w: World) {
    w.row.state == Complete ==> AllDecided(w.ledger)
  }

  /** The verification is for an entry that exists and carries a decision; any other is answered with an error. */
  predicate Admissible(q: Requests, ledger: seq<Verification>) {
    q.entry < |ledger| && q.decision in DECISIONS
  }

  function Decided(q: Requests, ledger: seq<Verification>): seq<Verification> {
    if q.entry < |ledger| then ledger[q.entry := q.decision] else ledger
  }

  /** A commit that writes the row too: refused as a whole if the row's version has moved. */
  function Committed(w: World, read: Row, state: SessionState, ledger: seq<Verification>): World {
    if w.row.version == read.version then w.(row := Row(state, read.version + 1), ledger := ledger) else w
  }

  // ---------------------------------------------------------------- the verification's three moments

  function ReadRow(q: Requests, w: World): World {
    w.(verifierRow := w.row, admitted := Admissible(q, w.ledger))
  }

  function ReadStatuses(q: Requests, w: World): World {
    w.(settledSeen := AllDecided(Decided(q, w.ledger)))
  }

  function CommitDecision(q: Requests, w: World): World {
    var ledger := Decided(q, w.ledger);
    if !w.admitted then w
    else if w.settledSeen && w.verifierRow.state == AwaitingReview then Committed(w, w.verifierRow, Complete, ledger)
    else if !w.settledSeen && w.verifierRow.state == Complete then Committed(w, w.verifierRow, AwaitingReview, ledger)
    else w.(ledger := ledger)
  }

  /** Those of the three moments numbered `from` up to `to`. */
  function VerifierRuns(q: Requests, from: nat, to: nat, w: World): World {
    var w1 := if from <= 0 < to then ReadRow(q, w) else w;
    var w2 := if from <= 1 < to then ReadStatuses(q, w1) else w1;
    if from <= 2 < to then CommitDecision(q, w2) else w2
  }

  // ---------------------------------------------------------------- the new entry's two moments

  function AdderReads(w: World): World {
    w.(adderRow := w.row)
  }

  /** In a session already under review the entry is inserted without writing the session row. */
  function AdderCommits(q: Requests, w: World): World {
    if !q.valid || w.adderRow.state !in {TranscriptReady, AwaitingReview, Complete} then w
    else if w.adderRow.state == AwaitingReview then w.(ledger := w.ledger + [Unverified])
    else Committed(w, w.adderRow, AwaitingReview, w.ledger + [Unverified])
  }

  // ---------------------------------------------------------------- schedules

  /** `read` and `commit` say how many of the verification's moments come before each of the new entry's. */
  datatype Schedule = Schedule(read: nat, commit: nat)

  predicate IsSchedule(t: Schedule) {
    t.read <= t.commit <= 3
  }

  function Run(q: Requests, t: Schedule, w: World): World {
    VerifierRuns(q, t.commit, 3,
                 AdderCommits(q, VerifierRuns(q, t.read, t.commit, AdderReads(VerifierRuns(q, 0, t.read, w)))))
  }

  /** The transactions overlap: each one's reads come before the other's commit. */
  predicate Overlap(t: Schedule) {
    t.read < 3 && t.commit >= 2
  }

  predicate Serial(t: Schedule) {
    t.read == t.commit && (t.read == 0 || t.read == 3)
  }

  lemma NewEntryIsOpen(q: Requests, ledger: seq<Verification>)
    requires q.entry < |ledger|
    ensures Decided(q, ledger + [Unverified]) == Decided(q, ledger) + [Unverified]
    ensures !AllDecided(ledger + [Unverified]) && !AllDecided(Decided(q, ledger) + [Unverified])
  {
    assert (ledger + [Unverified])[|ledger|] == Unverified;
    assert (Decided(q, ledger) + [Unverified])[|ledger|] == Unverified;
  }

  /**
   After two overlapping requests COMPLETE can be wrong, and this is exactly when: they overlap, the
   new entry is valid, the session was under review, and the decision was the last one missing.
   */
  lemma CompleteIsBrokenExactly(q: Requests, t: Schedule, w: World)
    requires IsSchedule(t) && Honest(w)
    ensures !Honest(Run(q, t, w)) <==>
              && Overlap(t) && q.valid && Admissible(q, w.ledger)
              && w.row.state == AwaitingReview && AllDecided(Decided(q, w.ledger))
  {
    if Admissible(q, w.ledger) { NewEntryIsOpen(q, w.ledger); }
    if t.read == 0 {
      if t.commit == 0 {} else if t.commit == 1 {} else if t.commit == 2 {} else {}
    } else if t.read == 1 {
      if t.commit == 1 {} else if t.commit == 2 {} else {}
    } else if t.read == 2 {
      if t.commit == 2 {} else {}
    }
  }

  /** One request after the other never breaks it. */
  lemma SerialRequestsAreHonest(q: Requests, t: Schedule, w: World)
    requires IsSchedule(t) && Serial(t) && Honest(w)
    ensures Honest(Run(q, t, w))
  {
    CompleteIsBrokenExactly(q, t, w);
  }

  /** The failing schedule: the entry is added between the verification's look at the ledger and its commit. */
  lemma AnOpenEntryInACompleteSession()
    ensures var q, t := Requests(0, Verified, true), Schedule(2, 2);
            var w := World(Row(AwaitingReview, 1), [NeedsReview], Row(Created, 0), false, false, Row(Created, 0));
            && IsSchedule(t) && Honest(w)
            && Run(q, t, w).row.state == Complete && Run(q, t, w).ledger == [Verified, Unverified]
  {
    assert ([NeedsReview] + [Unverified])[0 := Verified] == [Verified, Unverified];
  }
}

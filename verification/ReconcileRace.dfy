/**
 A verification and a reconciliation to a new revision, as two database transactions that may overlap.
 Reads see what is committed at their moment; a row is written only if its version is the one read; a
 written row stays locked until its transaction ends; only attributes that changed are written, and
 ledger entries have no version.  The ledger is that of the revision current at the start.
 */
module ReconcileRace {
  import opened Common
  import opened SessionStates
  import opened Review
  import opened ReviewRace
  import WorkerLoop

  /** The reviewer's request: which entry gets which decision. */
  datatype Request = Request(entry: nat, decision: Verification)

  /** The committed rows, and what each transaction holds. */
  datatype Tables = Tables(
    row: Row,
    superseded: bool,                 // a new revision is current
    ledger: seq<Verification>,
    // the verification
    verifierRow: Row,
    admitted: bool,
    loaded: Verification,
    settledSeen: bool,
    // the reconciliation
    reconcilerRow: Row,
    seen: seq<Verification>,
    holdsRow: bool)

  ghost predicate AtStart(w: Tables) {
    !w.superseded && !w.holdsRow
  }

  predicate Decidable(q: Request, ledger: seq<Verification>) {
    q.entry < |ledger| && q.decision in DECISIONS
  }

  /** The ledger after the verification's write: a decision the entry already had when loaded is not written. */
  function Written(q: Request, loaded: Verification, ledger: seq<Verification>): seq<Verification> {
    if q.entry < |ledger| && loaded != q.decision then ledger[q.entry := q.decision] else ledger
  }

  /** Whether a verification that saw this state and these statuses moves the session. */
  predicate MovesSession(state: SessionState, settled: bool) {
    (settled && state == AwaitingReview) || (!settled && state == Complete)
  }

  // ---------------------------------------------------------------- the verification's three moments

  function LoadEntry(q: Request, w: Tables): Tables {
    w.(verifierRow := w.row, admitted := !w.superseded && Decidable(q, w.ledger),
       loaded := if q.entry < |w.ledger| then w.ledger[q.entry] else Unverified)
  }

  function LookAtLedger(q: Request, w: Tables): Tables {
    w.(settledSeen := AllDecided(Written(q, w.loaded, w.ledger)))
  }

  /** Waiting for a row another transaction holds ends in the version check failing, hence a rollback. */
  function CommitVerification(q: Request, w: Tables): Tables {
    var ledger := Written(q, w.loaded, w.ledger);
    if !w.admitted then w
    else if !MovesSession(w.verifierRow.state, w.settledSeen) then w.(ledger := ledger)
    else if w.holdsRow || w.row.version != w.verifierRow.version then w
    else w.(row := Row(if w.settledSeen then Complete else AwaitingReview, w.row.version + 1), ledger := ledger)
  }

  function VerificationRuns(q: Request, from: nat, to: nat, w: Tables): Tables {
    var w1 := if from <= 0 < to then LoadEntry(q, w) else w;
    var w2 := if from <= 1 < to then LookAtLedger(q, w1) else w1;
    if from <= 2 < to then CommitVerification(q, w2) else w2
  }

  // ---------------------------------------------------------------- the reconciliation's three moments

  function ReadSession(w: Tables): Tables {
    w.(reconcilerRow := w.row)
  }

  /** The row is written, which checks its version, and the old entries are read; a lost race ends it here. */
  function WriteSession(w: Tables): Tables {
    if w.row.version == w.reconcilerRow.version then w.(holdsRow := true, seen := w.ledger) else w
  }

  /** Entries are sent back to review, except those already seen there, which need no write. */
  function SentBack(seen: seq<Verification>, ledger: seq<Verification>): seq<Verification> {
    seq(|ledger|, i requires 0 <= i < |ledger| =>
      if i < |seen| && seen[i] == NeedsReview then ledger[i] else NeedsReview)
  }

  function CommitReconciliation(w: Tables): Tables {
    if !w.holdsRow then w
    else
      w.(row := Row(WorkerLoop.NewState(w.row.state, true), w.row.version + 1), superseded := true, holdsRow := false,
         ledger := SentBack(w.seen, w.ledger))
  }

  // ---------------------------------------------------------------- schedules

  /** How many of the verification's moments come before each of the reconciliation's. */
  datatype Order = Order(read: nat, write: nat, commit: nat)

  /**
   The verification's write locks the entry between its last two moments, so a reconciliation that
   writes the entry too cannot commit there.
   */
  predicate IsOrder(q: Request, t: Order, w: Tables) {
    && t.read <= t.write <= t.commit <= 3
    && (t.commit == 2 && Decidable(q, w.ledger) ==> w.ledger[q.entry] == NeedsReview)
  }

  function Run(q: Request, t: Order, w: Tables): Tables {
    var w1 := ReadSession(VerificationRuns(q, 0, t.read, w));
    var w2 := WriteSession(VerificationRuns(q, t.read, t.write, w1));
    var w3 := CommitReconciliation(VerificationRuns(q, t.write, t.commit, w2));
    VerificationRuns(q, t.commit, 3, w3)
  }

  /** A decision survives on a superseded revision. */
  ghost predicate LeftBehind(w: Tables) {
    w.superseded && exists i :: 0 <= i < |w.ledger| && w.ledger[i] != NeedsReview
  }

  /**
   What the decision escapes by, seen from the start: written after the reconciliation's commit, it must
   change the entry; written before, the entry must have been one that needed no sending back.
   */
  predicate Escapes(q: Request, t: Order, w: Tables)
    requires Decidable(q, w.ledger)
  {
    if t.commit == 1 then
      w.ledger[q.entry] != q.decision && !MovesSession(w.row.state, |w.ledger| == 1)
    else
      w.ledger[q.entry] == NeedsReview && !MovesSession(w.row.state, AllDecided(w.ledger[q.entry := q.decision]))
  }

  /** The transactions overlap: each one's reads come before the other's commit. */
  predicate Overlaps(t: Order) {
    t.write < 3 && t.commit >= 1
  }

  ghost predicate AllSentBack(ledger: seq<Verification>) {
    forall i :: 0 <= i < |ledger| ==> ledger[i] == NeedsReview
  }

  lemma SentBackWhole(ledger: seq<Verification>)
    ensures |SentBack(ledger, ledger)| == |ledger| && AllSentBack(SentBack(ledger, ledger))
  {
  }

  /** Once everything was sent back, a decision settles only a ledger of one entry. */
  lemma OnlyOneEntrySettles(q: Request, back: seq<Verification>)
    requires AllSentBack(back) && Decidable(q, back)
    ensures !AllDecided(back)
    ensures AllDecided(back[q.entry := q.decision]) <==> |back| == 1
  {
    assert back[0] == NeedsReview;
    var after := back[q.entry := q.decision];
    if |back| > 1 {
      var other := if q.entry == 0 then 1 else 0;
      assert after[other] == NeedsReview;
    }
  }

  /** The reconciliation overwrites the decision unless it had read the entry as sent back already. */
  lemma SentBackOver(q: Request, ledger: seq<Verification>, loaded: Verification)
    requires Decidable(q, ledger) && loaded == ledger[q.entry]
    ensures AllSentBack(SentBack(ledger, Written(q, loaded, ledger))) <==> loaded != NeedsReview
  {
    var now := SentBack(ledger, Written(q, loaded, ledger));
    assert now[q.entry] == if loaded == NeedsReview then q.decision else NeedsReview;
  }

  lemma WrittenOver(q: Request, back: seq<Verification>, loaded: Verification)
    requires AllSentBack(back) && Decidable(q, back)
    ensures AllSentBack(Written(q, loaded, back)) <==> loaded == q.decision
  {
    if loaded != q.decision { assert Written(q, loaded, back)[q.entry] == q.decision; }
  }

  /** A verification that is refused at its start changes nothing that matters here. */
  lemma RefusedIsHarmless(q: Request, t: Order, w: Tables)
    requires AtStart(w) && t.read <= t.write <= t.commit <= 3 && (t.commit == 0 || !Decidable(q, w.ledger))
    ensures !LeftBehind(Run(q, t, w))
  {
    SentBackWhole(w.ledger);
    if t.commit == 0 {} else if t.commit == 1 {} else if t.commit == 2 {} else {}
  }

  /** One after the other: whatever the verification did is sent back, or the reconciliation loses the race. */
  lemma EarlierIsSentBack(q: Request, t: Order, w: Tables)
    requires AtStart(w) && t.read <= t.write == t.commit == 3
    ensures !LeftBehind(Run(q, t, w))
  {
    SentBackWhole(w.ledger);
    var loaded := if q.entry < |w.ledger| then w.ledger[q.entry] else Unverified;
    SentBackWhole(Written(q, loaded, w.ledger));
    if t.read == 0 {} else if t.read == 1 {} else if t.read == 2 {} else {}
  }

  /** The reconciliation commits after the entry was loaded and before it is written. */
  lemma LateWrite(q: Request, t: Order, w: Tables)
    requires AtStart(w) && t.read <= t.write <= t.commit == 1 && Decidable(q, w.ledger)
    ensures LeftBehind(Run(q, t, w)) <==> Escapes(q, t, w)
  {
    var back, loaded := SentBack(w.ledger, w.ledger), w.ledger[q.entry];
    SentBackWhole(w.ledger);
    OnlyOneEntrySettles(q, back);
    WrittenOver(q, back, loaded);
    if t.write == 0 {} else if t.read == 0 {} else {}
  }

  /** It commits between the entry's write and the verification's commit, which the lock allows only unwritten. */
  lemma BesideTheLock(q: Request, t: Order, w: Tables)
    requires AtStart(w) && t.read <= t.write <= t.commit == 2 && Decidable(q, w.ledger)
    requires w.ledger[q.entry] == NeedsReview
    ensures LeftBehind(Run(q, t, w)) <==> Escapes(q, t, w)
  {
    var back, loaded := SentBack(w.ledger, w.ledger), w.ledger[q.entry];
    SentBackWhole(w.ledger);
    WrittenOver(q, back, loaded);
    if t.write == 0 {} else if t.write == 1 {} else {}
  }

  /** While the reconciliation holds the row, a verification that would move the session is rolled back. */
  lemma LedgerUnderReconciliation(q: Request, t: Order, w: Tables)
    requires AtStart(w) && t.read <= t.write < t.commit == 3 && Decidable(q, w.ledger)
    ensures var end, loaded := Run(q, t, w), w.ledger[q.entry];
            var moves := MovesSession(w.row.state, AllDecided(Written(q, loaded, w.ledger)));
            end.superseded && end.ledger == SentBack(w.ledger, if moves then w.ledger else Written(q, loaded, w.ledger))
  {
    if t.write == 0 {} else if t.write == 1 {} else {}
  }

  /** The verification commits between the reconciliation's look at the entries and its commit. */
  lemma UnderTheReconciliation(q: Request, t: Order, w: Tables)
    requires AtStart(w) && t.read <= t.write < t.commit == 3 && Decidable(q, w.ledger)
    ensures LeftBehind(Run(q, t, w)) <==> Escapes(q, t, w)
  {
    SentBackWhole(w.ledger);
    SentBackOver(q, w.ledger, w.ledger[q.entry]);
    LedgerUnderReconciliation(q, t, w);
  }

  /** A decision is left behind on a superseded revision exactly when the transactions overlap and it escapes. */
  lemma DecisionIsLeftBehindExactly(q: Request, t: Order, w: Tables)
    requires AtStart(w) && IsOrder(q, t, w)
    ensures LeftBehind(Run(q, t, w)) <==> Overlaps(t) && Decidable(q, w.ledger) && Escapes(q, t, w)
  {
    if t.commit == 0 || !Decidable(q, w.ledger) {
      RefusedIsHarmless(q, t, w);
    } else if t.write == 3 {
      EarlierIsSentBack(q, t, w);
    } else if t.commit == 1 {
      LateWrite(q, t, w);
    } else if t.commit == 2 {
      BesideTheLock(q, t, w);
    } else {
      UnderTheReconciliation(q, t, w);
    }
  }

  /** In a reconciling session: the entry is loaded, the new revision arrives, then the decision is written. */
  lemma ADecisionOnASupersededRevision()
    ensures var q, t := Request(0, Verified), Order(0, 0, 1);
            var row := Row(Reconciling, 1);
            var w := Tables(row, false, [Unverified, Unverified], row, false, Unverified, false, row, [], false);
            AtStart(w) && IsOrder(q, t, w) && LeftBehind(Run(q, t, w))
  {
    var q, t, row := Request(0, Verified), Order(0, 0, 1), Row(Reconciling, 1);
    var w := Tables(row, false, [Unverified, Unverified], row, false, Unverified, false, row, [], false);
    DecisionIsLeftBehindExactly(q, t, w);
  }
}

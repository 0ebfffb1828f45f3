/**
 Transcript revisions, the ledger and human verification of one session.  Every method is one
 database transaction, taken as atomic: it commits or it leaves the rows as they were.
 */
module Review {
  import opened Common
  import opened SessionStates

  type RevisionId = nat
  type Digest = string

  datatype Verification = Unverified | Verified | Rejected | NeedsReview

  const DECISIONS := {Verified, Rejected}

  datatype Entry = Entry(revision: RevisionId, status: Verification)

  /** A proposed entry: the revisions its references name, and whether the other evidence checks pass. */
  datatype Draft = Draft(revisions: set<RevisionId>, sound: bool)

  /** The transactions that touch one session. */
  datatype Action =
    | Reconcile(digest: Digest, id: RevisionId)
    | CommitExtraction(drafts: seq<Draft>)
    | AddEntry(draft: Draft)
    | Verify(entry: nat, status: Verification)
    | MoveTo(target: SessionState)

  /** The statuses of the entries of one revision. */
  ghost function Statuses(ledger: seq<Entry>, revision: RevisionId): set<Verification> {
    set i | 0 <= i < |ledger| && ledger[i].revision == revision :: ledger[i].status
  }

  /** A non-empty ledger on which every entry is a human decision. */
  ghost predicate Settled(ledger: seq<Entry>, revision: RevisionId) {
    && (exists i :: 0 <= i < |ledger| && ledger[i].revision == revision)
    && (forall i :: 0 <= i < |ledger| && ledger[i].revision == revision ==> ledger[i].status in {Verified, Rejected})
  }

  lemma SettledIsAboutStatuses(ledger: seq<Entry>, revision: RevisionId)
    ensures Settled(ledger, revision) <==> {} < Statuses(ledger, revision) <= DECISIONS
    ensures Statuses(ledger, revision) == {} <==> forall i :: 0 <= i < |ledger| ==> ledger[i].revision != revision
  {
    assert forall i :: 0 <= i < |ledger| && ledger[i].revision == revision ==>
             ledger[i].status in Statuses(ledger, revision);
    if Settled(ledger, revision) {
      var i :| 0 <= i < |ledger| && ledger[i].revision == revision;
      assert ledger[i].status in Statuses(ledger, revision);
    }
    if {} < Statuses(ledger, revision) <= DECISIONS {
      var s :| s in Statuses(ledger, revision);
      forall i | 0 <= i < |ledger| && ledger[i].revision == revision ensures ledger[i].status in DECISIONS {
        assert ledger[i].status in Statuses(ledger, revision);
      }
    }
  }

  class Session {
    var state: SessionState
    var current: Option<RevisionId>
    var revisions: map<Digest, RevisionId>
    var ledger: seq<Entry>

    /** What COMPLETE means to a reader of the session. */
    ghost predicate CompleteIsReviewed()
      reads this
    {
      state == Complete ==> current.Some? && Settled(ledger, current.value)
    }

    /** Entries left behind on a superseded revision are never decisions. */
    ghost predicate SupersededNeedReview()
      reads this
    {
      forall i :: 0 <= i < |ledger| && current != Some(ledger[i].revision) ==> ledger[i].status == NeedsReview
    }

    ghost predicate Valid()
      reads this
    {
      && CompleteIsReviewed()
      && SupersededNeedReview()
      && (current.Some? ==> current.value in revisions.Values)
      && (current.None? ==> revisions == map[])
      && (forall i :: 0 <= i < |ledger| ==> ledger[i].revision in revisions.Values)
      && (forall a, b :: a in revisions && b in revisions && revisions[a] == revisions[b] ==> a == b)
    }

    constructor ()
      ensures Valid() && state == Created && current == None && ledger == [] && revisions == map[]
    {
      state, current, revisions, ledger := Created, None, map[], [];
    }

    /** The guarded move; refused moves change nothing. */
    method Move(target: SessionState) returns (ok: bool)
      modifies this`state
      ensures ok <==> target == old(state) || Edge(old(state), target)
      ensures state == if ok then target else old(state)
    {
      var moved := Transition(state, target);
      ok := moved.Some?;
      if ok { state := moved.value; }
    }

    method StatusesOn(revision: RevisionId) returns (found: set<Verification>)
      ensures found == Statuses(ledger, revision)
    {
      found := {};
      for i := 0 to |ledger|
        invariant found == Statuses(ledger[..i], revision)
      {
        var e := ledger[i];
        assert forall j :: 0 <= j < i ==> ledger[..i + 1][j] == ledger[..i][j];
        if e.revision == revision {
          found := found + {e.status};
          assert ledger[..i + 1][i] == e;
        }
      }
      assert ledger[..|ledger|] == ledger;
    }

    /** Sends every entry of a revision back to review. */
    method MarkForReview(revision: RevisionId)
      modifies this`ledger
      ensures |ledger| == |old(ledger)|
      ensures forall i :: 0 <= i < |ledger| ==>
                ledger[i] == if old(ledger)[i].revision == revision then old(ledger)[i].(status := NeedsReview)
                    else old(ledger)[i]
    {
      for i := 0 to |ledger|
        invariant |ledger| == |old(ledger)|
        invariant forall j :: i <= j < |ledger| ==> ledger[j] == old(ledger)[j]
        invariant forall j :: 0 <= j < i ==>
                    ledger[j] == if old(ledger)[j].revision == revision then old(ledger)[j].(status := NeedsReview)
                        else old(ledger)[j]
      {
        if ledger[i].revision == revision {
          ledger := ledger[i := ledger[i].(status := NeedsReview)];
        }
      }
    }

    /** A known transcript came back: only a reconciling session moves, and to what its ledger warrants. */
    method SettleExisting(revision: RevisionId)
      requires Valid() && revision in revisions.Values
      modifies this`state
      ensures Valid()
      ensures old(state) != Reconciling ==> state == old(state)
      ensures old(state) == Reconciling ==>
                state == if forall i :: 0 <= i < |ledger| ==> ledger[i].revision != revision then TranscriptReady
                         else if Settled(ledger, revision) then Complete else AwaitingReview
      ensures old(state) == Reconciling && state == Complete ==> current == Some(revision)
    {
      if state == Reconciling {
        var statuses := StatusesOn(revision);
        SettledIsAboutStatuses(ledger, revision);
        var ok;
        if statuses == {} {
          ok := Move(TranscriptReady);
        } else if statuses <= DECISIONS {
          ok := Move(Complete);
        } else {
          ok := Move(AwaitingReview);
        }
      }
    }

    /**
     Reconciliation with a fetched transcript.  A known digest adds nothing; a new one becomes the
     current revision, takes the session out of COMPLETE and sends the old ledger back to review.
     */
    method ReconcileTranscript(digest: Digest, id: RevisionId) returns (revision: RevisionId, isNew: bool)
      requires Valid() && id !in revisions.Values
      modifies this
      ensures Valid() && isNew == (digest !in old(revisions))
      ensures revisions == (if isNew then old(revisions)[digest := id] else old(revisions))
      ensures revision == revisions[digest]
      ensures current == if isNew then Some(id) else old(current)
      ensures !isNew ==> ledger == old(ledger) && (old(state) != Reconciling ==> state == old(state))
      ensures !isNew && old(state) == Reconciling ==>
                state == if forall i :: 0 <= i < |ledger| ==> ledger[i].revision != revision then TranscriptReady
                         else if Settled(ledger, revision) then Complete
                         else AwaitingReview
      ensures !isNew && old(state) == Reconciling && state == Complete ==> current == Some(revision)
      ensures isNew ==> |ledger| == |old(ledger)|
      ensures isNew ==> forall i :: 0 <= i < |ledger| ==> ledger[i] == Entry(old(ledger)[i].revision, NeedsReview)
      ensures isNew ==>
                state == if old(state) in {Transcribing, Reconciling} then TranscriptReady
                         else if old(state) == Complete then AwaitingReview else old(state)
    {
      if digest in revisions {
        revision, isNew := revisions[digest], false;
        SettleExisting(revision);
        return;
      }
      revision, isNew := id, true;
      AddRevision(digest, id);
    }

    /** A new current revision: the state moves, and the entries of the previous one go back to review. */
    method AddRevision(digest: Digest, id: RevisionId)
      requires Valid() && digest !in revisions && id !in revisions.Values
      modifies this
      ensures Valid() && revisions == old(revisions)[digest := id] && current == Some(id)
      ensures |ledger| == |old(ledger)|
      ensures forall i :: 0 <= i < |ledger| ==> ledger[i] == Entry(old(ledger)[i].revision, NeedsReview)
      ensures state == if old(state) in {Transcribing, Reconciling} then TranscriptReady
                       else if old(state) == Complete then AwaitingReview else old(state)
    {
      var previous := current;
      ValuesWith(revisions, digest, id);
      revisions, current := revisions[digest := id], Some(id);
      if state in {Transcribing, Reconciling} {
        var ok := Move(TranscriptReady);
      } else if previous.Some? && state == Complete {
        var ok := Move(AwaitingReview);
      }
      if previous.Some? {
        MarkForReview(previous.value);
      }
    }

    /** Appends one entry to the current revision, or refuses a draft that does not validate. */
    method CreateEntry(draft: Draft) returns (ok: bool)
      modifies this`ledger
      ensures ok <==> draft.sound && current.Some? && draft.revisions == {current.value}
      ensures ledger == if ok then old(ledger) + [Entry(current.value, Unverified)] else old(ledger)
    {
      ok := draft.sound && current.Some? && draft.revisions == {current.value};
      if ok {
        ledger := ledger + [Entry(current.value, Unverified)];
      }
    }

    /** The extraction result lands whole, under review, or not at all. */
    method SaveExtraction(drafts: seq<Draft>) returns (ok: bool)
      requires Valid()
      modifies this`state, this`ledger
      ensures Valid()
      ensures ok <==>
                && (old(state) == AwaitingReview || Edge(old(state), AwaitingReview))
                && forall d :: d in drafts ==> d.sound && current.Some? && d.revisions == {current.value}
      ensures ok ==> state == AwaitingReview && (drafts == [] || current.Some?)
      ensures ok ==> |ledger| == |old(ledger)| + |drafts| && old(ledger) <= ledger
      ensures ok ==> forall i :: |old(ledger)| <= i < |ledger| ==> ledger[i] == Entry(current.value, Unverified)
      ensures !ok ==> state == old(state) && ledger == old(ledger)
    {
      var stateBefore, ledgerBefore := state, ledger;
      ok := Move(AwaitingReview);
      if !ok { return; }
      for i := 0 to |drafts|
        invariant state == AwaitingReview && (i > 0 ==> current.Some?) && ok
        invariant forall j :: 0 <= j < i ==>
                    drafts[j].sound && current.Some? && drafts[j].revisions == {current.value}
        invariant |ledger| == |ledgerBefore| + i && ledgerBefore <= ledger
        invariant forall j :: |ledgerBefore| <= j < |ledger| ==> ledger[j] == Entry(current.value, Unverified)
      {
        ok := CreateEntry(drafts[i]);
        if !ok {
          state, ledger := stateBefore, ledgerBefore;
          return;
        }
      }
    }

    /** A reviewer adds an entry by hand; a session already complete goes back under review. */
    method AddLedgerEntry(draft: Draft) returns (ok: bool)
      requires Valid()
      modifies this`state, this`ledger
      ensures Valid()
      ensures ok <==>
                && old(state) in {TranscriptReady, AwaitingReview, Complete}
                && draft.sound && current.Some? && draft.revisions == {current.value}
      ensures ok ==> state == AwaitingReview && ledger == old(ledger) + [Entry(current.value, Unverified)]
      ensures !ok ==> state == old(state) && ledger == old(ledger)
    {
      if state !in {TranscriptReady, AwaitingReview, Complete} { return false; }
      ok := CreateEntry(draft);
      if ok && state in {TranscriptReady, Complete} {
        var moved := Move(AwaitingReview);
      }
    }

    /** A review decision: in a reviewable session, COMPLETE afterwards exactly when the whole ledger is decided. */
    method VerifyEntry(entry: nat, status: Verification) returns (ok: bool)
      requires Valid()
      modifies this`state, this`ledger
      ensures Valid()
      ensures ok <==> status in DECISIONS && entry < |old(ledger)| && current == Some(old(ledger)[entry].revision)
      ensures ok ==> ledger == old(ledger)[entry := old(ledger)[entry].(status := status)]
      ensures ok && old(state) in {AwaitingReview, Complete} ==>
                state == if Settled(ledger, current.value) then Complete else AwaitingReview
      ensures !ok || old(state) !in {AwaitingReview, Complete} ==> state == old(state)
      ensures !ok ==> ledger == old(ledger)
    {
      if status !in DECISIONS || entry >= |ledger| || current != Some(ledger[entry].revision) {
        return false;
      }
      ledger := ledger[entry := ledger[entry].(status := status)];
      var statuses := StatusesOn(current.value);
      SettledIsAboutStatuses(ledger, current.value);
      assert {} < statuses <= DECISIONS <==> statuses != {} && statuses <= DECISIONS;
      var moved;
      if statuses != {} && statuses <= DECISIONS {
        if state == AwaitingReview { moved := Move(Complete); }
      } else if state == Complete {
        moved := Move(AwaitingReview);
      }
      ok := true;
    }

    /** Any other guarded move; no other part of the program moves a session to COMPLETE. */
    method OtherMove(target: SessionState) returns (ok: bool)
      requires Valid() && target != Complete
      modifies this`state
      ensures Valid() && state == if ok then target else old(state)
    {
      ok := Move(target);
    }

    /** Any sequence of transactions: COMPLETE means reviewed at the end of every one of them. */
    method Perform(actions: seq<Action>)
      requires Valid()
      modifies this
      ensures Valid()
    {
      for i := 0 to |actions|
        invariant Valid()
      {
        match actions[i] {
          case Reconcile(digest, id) =>
            if id !in revisions.Values {
              var revision, isNew := ReconcileTranscript(digest, id);
            }
          case CommitExtraction(drafts) => var ok := SaveExtraction(drafts);
          case AddEntry(draft) => var ok := AddLedgerEntry(draft);
          case Verify(entry, status) => var ok := VerifyEntry(entry, status);
          case MoveTo(target) =>
            if target != Complete {
              var ok := OtherMove(target);
            }
        }
      }
    }
  }
}

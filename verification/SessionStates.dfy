/** The session life cycle: the allowed-transition table and the guarded move. */
module SessionStates {
  import opened Common

  datatype SessionState =
    | Created | Uploading | Uploaded | Transcribing | Reconciling | TranscriptReady | Extracting
    | AwaitingReview | Complete | RetryPending | Failed | Cancelled | DeletePending | Deleted

  /** The edges of the transition graph. */
  function Allowed(s: SessionState): set<SessionState> {
    match s
    case Created => {Uploading, Cancelled, DeletePending}
    case Uploading => {Uploaded, Failed, Cancelled, DeletePending}
    case Uploaded => {Transcribing, Cancelled, DeletePending}
    case Transcribing => {Reconciling, TranscriptReady, RetryPending, Failed, Cancelled, DeletePending}
    case Reconciling =>
      {TranscriptReady, AwaitingReview, Complete, RetryPending, Failed, Cancelled, DeletePending}
    case TranscriptReady => {Reconciling, Extracting, AwaitingReview, Cancelled, DeletePending}
    case Extracting => {AwaitingReview, RetryPending, Failed, Cancelled, DeletePending}
    case AwaitingReview => {Complete, Reconciling, Extracting, DeletePending}
    case Complete => {AwaitingReview, Reconciling, DeletePending}
    case RetryPending => {Transcribing, Reconciling, Extracting, Failed, Cancelled, DeletePending}
    case Failed => {RetryPending, DeletePending}
    case Cancelled => {RetryPending, DeletePending}
    case DeletePending => {Deleted}
    case Deleted => {}
  }

  /** The table read the other way: the states a move to `t` may come from. */
  function Sources(t: SessionState): set<SessionState> {
    match t
    case Created => {}
    case Uploading => {Created}
    case Uploaded => {Uploading}
    case Transcribing => {Uploaded, RetryPending}
    case Reconciling => {Transcribing, TranscriptReady, AwaitingReview, Complete, RetryPending}
    case TranscriptReady => {Transcribing, Reconciling}
    case Extracting => {TranscriptReady, AwaitingReview, RetryPending}
    case AwaitingReview => {Reconciling, TranscriptReady, Extracting, Complete}
    case Complete => {Reconciling, AwaitingReview}
    case RetryPending => {Transcribing, Reconciling, Extracting, Failed, Cancelled}
    case Failed => {Uploading, Transcribing, Reconciling, Extracting, RetryPending}
    case Cancelled =>
      {Created, Uploading, Uploaded, Transcribing, Reconciling, TranscriptReady, Extracting, RetryPending}
    case DeletePending =>
      {Created, Uploading, Uploaded, Transcribing, Reconciling, TranscriptReady, Extracting, AwaitingReview,
       Complete, RetryPending, Failed, Cancelled}
    case Deleted => {DeletePending}
  }

  /** The two tables are one relation, so no edge is missing and none is extra. */
  lemma EdgesAreTheTable(s: SessionState, t: SessionState)
    ensures Edge(s, t) <==> s in Sources(t)
  {
  }

  predicate Edge(a: SessionState, b: SessionState) {
    b in Allowed(a)
  }

  /** The guarded move: `None` is the rejected transition, a move to the current state is a no-op. */
  function Transition(current: SessionState, target: SessionState): (r: Option<SessionState>)
    ensures r.Some? <==> target == current || Edge(current, target)
    ensures r.Some? ==> r.value == target
  {
    if target == current || target in Allowed(current) then Some(target) else None
  }

  /** A walk along edges of the graph, in which a state may also be repeated. */
  ghost predicate Walk(w: seq<SessionState>) {
    forall i :: 0 < i < |w| ==> w[i] == w[i - 1] || Edge(w[i - 1], w[i])
  }

  /** The states a record goes through as guarded moves are made in turn; `None` if one is refused. */
  function Moves(from: SessionState, targets: seq<SessionState>): Option<seq<SessionState>>
    decreases |targets|
  {
    if targets == [] then Some([from])
    else
      match Transition(from, targets[0])
      case None => None
      case Some(next) =>
        match Moves(next, targets[1..])
        case None => None
        case Some(rest) => Some([from] + rest)
  }

  /** Guarded moves can be made one after the other exactly along the walks of the graph. */
  lemma {:induction false} GuardedMovesAreWalks(w: seq<SessionState>)
    requires w != []
    ensures Moves(w[0], w[1..]) == if Walk(w) then Some(w) else None
    decreases |w|
  {
    var rest := w[1..];
    assert w == [w[0]] + rest;
    if rest == [] {
      assert w == [w[0]] && Walk(w);
    } else {
      GuardedMovesAreWalks(rest);
      assert Walk(w) <==> (w[1] == w[0] || Edge(w[0], w[1])) && Walk(rest) by {
        if (w[1] == w[0] || Edge(w[0], w[1])) && Walk(rest) {
          forall i | 0 < i < |w| ensures w[i] == w[i - 1] || Edge(w[i - 1], w[i]) {
            assert i > 1 ==> rest[i - 1] == w[i] && rest[i - 2] == w[i - 1];
          }
        }
        if Walk(w) {
          forall i | 0 < i < |rest| ensures rest[i] == rest[i - 1] || Edge(rest[i - 1], rest[i]) {
            assert rest[i] == w[i + 1] && rest[i - 1] == w[i];
          }
        }
      }
    }
  }

  /** One commit may perform up to two guarded moves in memory before it writes the row. */
  ghost predicate Connected(a: SessionState, b: SessionState) {
    a == b || Edge(a, b) || exists m :: Hop(a, m, b)
  }

  ghost predicate Hop(a: SessionState, m: SessionState, b: SessionState) {
    Edge(a, m) && Edge(m, b)
  }

  /** Walks extend across one commit. */
  lemma ExtendWalk(w: seq<SessionState>, b: SessionState) returns (w': seq<SessionState>)
    requires Walk(w) && w != [] && Connected(w[|w| - 1], b)
    ensures Walk(w') && w <= w' && |w| < |w'| <= |w| + 2 && w'[|w'| - 1] == b
    ensures Deleted in w' ==> Deleted in w || b == Deleted
  {
    var a := w[|w| - 1];
    if a == b || Edge(a, b) {
      w' := w + [b];
    } else {
      var m :| Hop(a, m, b);
      w' := w + [m, b];
    }
  }

  /** The deletion state is a trap: the only edge out of it leads to a state no commit ever writes. */
  lemma DeletePendingIsATrap(b: SessionState)
    requires Connected(DeletePending, b)
    ensures b == DeletePending || b == Deleted
  {
    forall m ensures !Hop(DeletePending, m, b) {
      assert Edge(DeletePending, m) <==> m == Deleted;
    }
  }
}

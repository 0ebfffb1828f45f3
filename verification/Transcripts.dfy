/** Provider segments to transcript segments: rounding to milliseconds and dropping empty ranges. */
module Transcripts {
  import opened Common

  /** A provider segment; a field it omits is `None`. */
  datatype Raw = Raw(start: Option<real>, end: Option<real>, id: Option<string>, text: string, speaker: Option<string>)

  datatype Segment = Segment(id: string, start: nat, end: nat, text: string, speaker: Option<string>)

  datatype Fault =
    | MissingTimestamps(index: nat) | NegativeTimestamp | DuplicateId(id: string) | ReversedRange | AllEmpty

  /** Half-up rounding of non-negative seconds to whole milliseconds. */
  function SecondsToMs(seconds: real): nat
    requires seconds >= 0.0
  {
    (seconds * 1000.0 + 0.5).Floor
  }

  /** The result is the one whole number within half a millisecond, the upper one of two. */
  lemma RoundingIsNearest(seconds: real, ms: nat)
    requires seconds >= 0.0
    ensures ms == SecondsToMs(seconds) <==> ms as real - 0.5 <= seconds * 1000.0 < ms as real + 0.5
  {
    var x := seconds * 1000.0 + 0.5;
    assert x.Floor as real <= x < x.Floor as real + 1.0;
  }

  lemma RoundingIsMonotone(a: real, b: real)
    requires 0.0 <= a <= b
    ensures SecondsToMs(a) <= SecondsToMs(b)
  {
    RoundingIsNearest(a, SecondsToMs(a));
    RoundingIsNearest(b, SecondsToMs(b));
  }

  /** Whole milliseconds are kept. */
  lemma RoundingIsExact(ms: nat)
    ensures SecondsToMs(ms as real / 1000.0) == ms
  {
    RoundingIsNearest(ms as real / 1000.0, ms);
  }

  // ---------------------------------------------------------------- one segment

  predicate Timed(raw: Raw) {
    raw.start.Some? && raw.end.Some? && raw.start.value >= 0.0 && raw.end.value >= 0.0
  }

  /** Its range rounds to nothing. */
  predicate Empty(raw: Raw)
    requires Timed(raw)
  {
    SecondsToMs(raw.start.value) == SecondsToMs(raw.end.value)
  }

  /** The decimal digits of an index. */
  function Digits(n: nat): string {
    if n < 10 then [Digit(n)] else Digits(n / 10) + [Digit(n % 10)]
  }

  function Digit(d: nat): char
    requires d < 10
  {
    ("0123456789")[d]
  }

  /** The number a string of digits stands for. */
  function Value(digits: string): nat {
    if digits == [] then 0
    else
      var last := digits[|digits| - 1];
      10 * Value(digits[..|digits| - 1]) + if '0' <= last <= '9' then last as int - '0' as int else 0
  }

  /** An index is written with decimal digits that stand for it, without leading zeros. */
  lemma {:induction false} DigitsStandForTheIndex(n: nat)
    ensures Value(Digits(n)) == n
    ensures Digits(n) != [] && (Digits(n)[0] == '0' <==> n == 0)
    ensures forall c :: c in Digits(n) ==> '0' <= c <= '9'
  {
    if n >= 10 {
      DigitsStandForTheIndex(n / 10);
      assert Digits(n)[..|Digits(n)| - 1] == Digits(n / 10);
    } else {
      assert Digits(n)[..0] == [];
    }
  }

  /** The provider's id, or the segment's place in the provider's list. */
  function IdAt(raws: seq<Raw>, i: nat): string
    requires i < |raws|
  {
    if raws[i].id.Some? then raws[i].id.value else Digits(i)
  }

  function SegmentAt(raws: seq<Raw>, i: nat): Segment
    requires i < |raws| && Timed(raws[i])
  {
    Segment(IdAt(raws, i), SecondsToMs(raws[i].start.value), SecondsToMs(raws[i].end.value), raws[i].text,
            raws[i].speaker)
  }

  // ---------------------------------------------------------------- the transcript

  predicate Survives(raws: seq<Raw>, i: int) {
    0 <= i < |raws| && Timed(raws[i]) && !Empty(raws[i])
  }

  /** `at` lists the places of the segments that survive among the first `n`, in order. */
  ghost predicate AreSurvivors(raws: seq<Raw>, n: nat, segments: seq<Segment>, at: seq<int>) {
    && |at| == |segments|
    && (forall i, j :: 0 <= i < j < |at| ==> at[i] < at[j])
    && (forall k :: Survives(raws, k) && k < n ==> k in at)
    && (forall i :: 0 <= i < |at| ==> at[i] < n && Survives(raws, at[i]) && segments[i] == SegmentAt(raws, at[i]))
  }

  ghost function Ids(segments: seq<Segment>): set<string> {
    set s | s in segments :: s.id
  }

  ghost predicate DistinctIds(segments: seq<Segment>) {
    forall i, j :: 0 <= i < j < |segments| ==> segments[i].id != segments[j].id
  }

  /** What the provider must deliver for the transcript to be accepted. */
  ghost predicate Acceptable(raws: seq<Raw>) {
    && (forall i :: 0 <= i < |raws| ==> Timed(raws[i]))
    && (forall i :: Survives(raws, i) ==> SecondsToMs(raws[i].start.value) < SecondsToMs(raws[i].end.value))
    && (forall i, j :: Survives(raws, i) && Survives(raws, j) && i < j ==> IdAt(raws, i) != IdAt(raws, j))
    && (raws != [] ==> exists i :: Survives(raws, i))
  }

  lemma AddSurvivor(raws: seq<Raw>, n: nat, segments: seq<Segment>, at: seq<int>)
    requires n < |raws| && AreSurvivors(raws, n, segments, at)
    ensures Survives(raws, n) ==> AreSurvivors(raws, n + 1, segments + [SegmentAt(raws, n)], at + [n])
    ensures !Survives(raws, n) ==> AreSurvivors(raws, n + 1, segments, at)
  {
  }

  lemma AddDistinct(segments: seq<Segment>, s: Segment)
    requires DistinctIds(segments) && s.id !in Ids(segments)
    ensures DistinctIds(segments + [s]) && Ids(segments + [s]) == Ids(segments) + {s.id}
  {
    forall i | 0 <= i < |segments| ensures segments[i].id != s.id {
      assert segments[i] in segments;
    }
    var more := segments + [s];
    assert s in more && forall x :: x in more <==> x in segments || x == s;
  }

  lemma DuplicateIsRefused(raws: seq<Raw>, n: nat, segments: seq<Segment>, at: seq<int>)
    requires Survives(raws, n) && AreSurvivors(raws, n, segments, at) && IdAt(raws, n) in Ids(segments)
    ensures !Acceptable(raws)
  {
    var a :| 0 <= a < |segments| && segments[a].id == IdAt(raws, n);
    assert Survives(raws, at[a]);
  }

  /** Survivors with distinct ids come from places with distinct ids, and there are some unless all is empty. */
  lemma SurvivorsAccepted(raws: seq<Raw>, segments: seq<Segment>, at: seq<int>)
    requires forall i :: 0 <= i < |raws| ==> Timed(raws[i])
    requires AreSurvivors(raws, |raws|, segments, at) && DistinctIds(segments)
    requires forall i :: 0 <= i < |segments| ==> segments[i].start < segments[i].end
    ensures Acceptable(raws) <==> raws == [] || segments != []
  {
    forall i | Survives(raws, i) ensures SecondsToMs(raws[i].start.value) < SecondsToMs(raws[i].end.value) {
      var a :| 0 <= a < |at| && at[a] == i;
      assert segments[a].start < segments[a].end;
    }
    forall i, j | Survives(raws, i) && Survives(raws, j) && i < j ensures IdAt(raws, i) != IdAt(raws, j) {
      var a :| 0 <= a < |at| && at[a] == i;
      var b :| 0 <= b < |at| && at[b] == j;
      assert a < b || b < a;
      assert segments[a].id != segments[b].id;
    }
    if segments != [] { assert Survives(raws, at[0]); }
  }

  method NormalizeSegments(raws: seq<Raw>) returns (r: Result<seq<Segment>, Fault>, ghost at: seq<int>)
    ensures r.Ok? <==> Acceptable(raws)
    ensures r.Ok? ==> AreSurvivors(raws, |raws|, r.value, at) && DistinctIds(r.value)
    ensures r.Ok? ==> forall s :: s in r.value ==> s.start < s.end
    ensures r == Err(ReversedRange) ==> exists i :: Reversed(raws, i)
  {
    var segments, ids := [], {};
    at := [];
    for i := 0 to |raws|
      invariant forall k :: 0 <= k < i ==> Timed(raws[k])
      invariant AreSurvivors(raws, i, segments, at)
      invariant forall a :: 0 <= a < |at| ==> segments[a].start < segments[a].end
      invariant ids == Ids(segments) && DistinctIds(segments)
    {
      var raw := raws[i];
      if raw.start.None? || raw.end.None? { return Err(MissingTimestamps(i)), []; }
      if raw.start.value < 0.0 || raw.end.value < 0.0 { return Err(NegativeTimestamp), []; }
      var start, end := SecondsToMs(raw.start.value), SecondsToMs(raw.end.value);
      AddSurvivor(raws, i, segments, at);
      if end == start { continue; }
      assert Survives(raws, i);
      var id := IdAt(raws, i);
      if id in ids {
        DuplicateIsRefused(raws, i, segments, at);
        return Err(DuplicateId(id)), [];
      }
      if end <= start {
        OrderedIsNeverReversed(raws, i);
        return Err(ReversedRange), [];
      }
      var segment := Segment(id, start, end, raw.text, raw.speaker);
      AddDistinct(segments, segment);
      ids, segments, at := ids + {id}, segments + [segment], at + [i];
    }
    SurvivorsAccepted(raws, segments, at);
    if raws != [] && segments == [] { return Err(AllEmpty), []; }
    r := Ok(segments);
  }

  /** A segment the provider itself delivered with its end before its start. */
  predicate Reversed(raws: seq<Raw>, i: int) {
    0 <= i < |raws| && Timed(raws[i]) && raws[i].end.value < raws[i].start.value
  }

  /** Rounding never reverses a range: only one delivered reversed is refused as such. */
  lemma OrderedIsNeverReversed(raws: seq<Raw>, i: int)
    requires Survives(raws, i)
    ensures SecondsToMs(raws[i].start.value) >= SecondsToMs(raws[i].end.value) ==> Reversed(raws, i)
  {
    if raws[i].start.value <= raws[i].end.value {
      RoundingIsMonotone(raws[i].start.value, raws[i].end.value);
    }
  }

  // ---------------------------------------------------------------- whole milliseconds come back

  /** A stored segment as a provider would deliver it, in seconds. */
  function AsRaw(s: Segment): Raw {
    Raw(Some(s.start as real / 1000.0), Some(s.end as real / 1000.0), Some(s.id), s.text, s.speaker)
  }

  function AsRaws(segments: seq<Segment>): (r: seq<Raw>)
    ensures |r| == |segments| && forall i :: 0 <= i < |r| ==> r[i] == AsRaw(segments[i])
  {
    seq(|segments|, i requires 0 <= i < |segments| => AsRaw(segments[i]))
  }

  function UpTo(n: nat): (r: seq<int>)
    ensures |r| == n && forall i :: 0 <= i < n ==> r[i] == i
  {
    seq(n, i => i)
  }

  /** A normalised transcript is accepted again, and every segment comes back as it was. */
  lemma NormalisationRoundTrips(segments: seq<Segment>)
    requires DistinctIds(segments) && forall s :: s in segments ==> s.start < s.end
    ensures Acceptable(AsRaws(segments))
    ensures AreSurvivors(AsRaws(segments), |segments|, segments, UpTo(|segments|))
  {
    var raws := AsRaws(segments);
    forall i | 0 <= i < |segments| ensures Survives(raws, i) && SegmentAt(raws, i) == segments[i] {
      assert segments[i] in segments;
      RoundingIsExact(segments[i].start);
      RoundingIsExact(segments[i].end);
    }
    forall k | Survives(raws, k) ensures k in UpTo(|segments|) {
      assert UpTo(|segments|)[k] == k;
    }
    SurvivorsAccepted(raws, segments, UpTo(|segments|));
  }

  ghost predicate Increasing(x: seq<int>) {
    forall i, j :: 0 <= i < j < |x| ==> x[i] < x[j]
  }

  lemma {:induction false} SameIncreasing(x: seq<int>, y: seq<int>)
    requires Increasing(x) && Increasing(y) && forall k :: k in x <==> k in y
    ensures x == y
    decreases |x|
  {
    assert |y| > 0 ==> y[0] in y;
    assert |y| > 0 ==> y[0] in x;
    if x != [] {
      var i, j := |x| - 1, |y| - 1;
      assert x[i] in x && x[i] in y;
      assert y[j] in y && y[j] in x;
      assert x[i] == y[j];
      assert forall k :: k in x[..i] <==> k in x && k != x[i];
      assert forall k :: k in y[..j] <==> k in y && k != y[j];
      SameIncreasing(x[..i], y[..j]);
    }
  }

  /** The survivors of a transcript are determined by it. */
  lemma SurvivorsAreUnique(raws: seq<Raw>, a: seq<Segment>, x: seq<int>, b: seq<Segment>, y: seq<int>)
    requires AreSurvivors(raws, |raws|, a, x) && AreSurvivors(raws, |raws|, b, y)
    ensures a == b
  {
    assert forall k :: k in x <==> Survives(raws, k);
    assert forall k :: k in y <==> Survives(raws, k);
    SameIncreasing(x, y);
  }

  /** Normalising a normalised transcript changes nothing. */
  method NormalizeAgain(segments: seq<Segment>) returns (r: Result<seq<Segment>, Fault>)
    requires DistinctIds(segments) && forall s :: s in segments ==> s.start < s.end
    ensures r == Ok(segments)
  {
    NormalisationRoundTrips(segments);
    ghost var at;
    r, at := NormalizeSegments(AsRaws(segments));
    SurvivorsAreUnique(AsRaws(segments), r.value, at, segments, UpTo(|segments|));
  }
}

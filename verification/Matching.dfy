/**
 Matching a generated ledger to a labelled one: equal ids first, then greedily by token similarity.
 Similarities are exact quotients here.
 */
module Matching {
  import opened Common

  /** What matching reads of an entry: its id, absent ids being equal to each other, and its tokens. */
  datatype Entry = Entry(id: Option<string>, tokens: set<string>)

  datatype Candidate = Candidate(similarity: real, pred: nat, gold: nat)

  const THRESHOLD: real := 0.55

  function Similarity(a: set<string>, b: set<string>): (r: real)
    ensures 0.0 <= r <= 1.0
    ensures r == 1.0 <==> a == b != {}
    ensures a != {} && b != {} ==> r * |a + b| as real == |a * b| as real
    ensures r == 0.0 <==> a * b == {}
  {
    if a == {} || b == {} then 0.0
    else
      SharedTokens(a, b);
      |a * b| as real / |a + b| as real
  }

  lemma SharedTokens(a: set<string>, b: set<string>)
    requires a != {}
    ensures 0 <= |a * b| <= |a + b| && |a + b| > 0
    ensures |a * b| == |a + b| <==> a == b
    ensures |a * b| == 0 <==> a * b == {}
  {
    var rest := (a + b) - (a * b);
    assert a * b + rest == a + b && a * b !! rest;
    assert |a + b| == |a * b| + |rest|;
    if x :| x in a { assert x in a + b; }
    if rest == {} {
      assert a == a * b == b;
    } else {
      var x :| x in rest;
    }
  }

  /** Eleven twentieths of all tokens are shared: the threshold, in whole numbers. */
  predicate Alike(predicted: seq<Entry>, gold: seq<Entry>, p: nat, g: nat) {
    && p < |predicted| && g < |gold|
    && predicted[p].tokens != {} && gold[g].tokens != {}
    && 20 * |predicted[p].tokens * gold[g].tokens| >= 11 * |predicted[p].tokens + gold[g].tokens|
  }

  lemma Quotient(r: real, i: nat, u: nat)
    requires u > 0 && r * u as real == i as real
    ensures r >= 0.55 <==> 20 * i >= 11 * u
  {
    if r >= 0.55 {
      assert r * u as real >= 0.55 * u as real;
    } else {
      assert r * u as real < 0.55 * u as real;
    }
  }

  /** The program's comparison of quotients is the comparison of token counts. */
  lemma ThresholdCountsTokens(predicted: seq<Entry>, gold: seq<Entry>, p: nat, g: nat)
    ensures Sim(predicted, gold, p, g) >= THRESHOLD <==> Alike(predicted, gold, p, g)
  {
    if p < |predicted| && g < |gold| && predicted[p].tokens != {} && gold[g].tokens != {} {
      var a, b := predicted[p].tokens, gold[g].tokens;
      SharedTokens(a, b);
      Quotient(Similarity(a, b), |a * b|, |a + b|);
    }
  }

  function Sim(predicted: seq<Entry>, gold: seq<Entry>, p: nat, g: nat): real {
    if p < |predicted| && g < |gold| then Similarity(predicted[p].tokens, gold[g].tokens) else 0.0
  }

  // ---------------------------------------------------------------- the id phase

  /** The last gold entry with an id, which is the one a dictionary keeps. */
  function LastWith(gold: seq<Entry>, id: Option<string>): (r: Option<nat>)
    ensures r.None? <==> forall g :: 0 <= g < |gold| ==> gold[g].id != id
    ensures r.Some? ==> r.value < |gold| && gold[r.value].id == id
    ensures r.Some? ==> forall g :: r.value < g < |gold| ==> gold[g].id != id
  {
    if gold == [] then None
    else if gold[|gold| - 1].id == id then Some(|gold| - 1)
    else LastWith(gold[..|gold| - 1], id)
  }

  /** The first predicted entry with each id takes the gold entry of that id. */
  ghost predicate TakesById(predicted: seq<Entry>, gold: seq<Entry>, p: nat) {
    && p < |predicted|
    && LastWith(gold, predicted[p].id).Some?
    && (forall q :: 0 <= q < p ==> predicted[q].id != predicted[p].id)
  }

  /** The matches of the id phase. */
  ghost function ById(predicted: seq<Entry>, gold: seq<Entry>): map<nat, nat> {
    map p: nat | p < |predicted| && TakesById(predicted, gold, p) :: LastWith(gold, predicted[p].id).value
  }

  /** Some predicted entry takes every id that a gold entry has. */
  lemma {:induction false} FirstTaker(predicted: seq<Entry>, gold: seq<Entry>, p: nat) returns (q: nat)
    requires p < |predicted| && LastWith(gold, predicted[p].id).Some?
    ensures q <= p && TakesById(predicted, gold, q) && predicted[q].id == predicted[p].id
  {
    if r: nat :| r < p && predicted[r].id == predicted[p].id {
      q := FirstTaker(predicted, gold, r);
    } else {
      q := p;
    }
  }

  lemma ByIdIsInjective(predicted: seq<Entry>, gold: seq<Entry>)
    ensures Injective(ById(predicted, gold))
  {
    var m := ById(predicted, gold);
    forall p, q | p in m && q in m && m[p] == m[q] ensures p == q {
      assert predicted[p].id == gold[m[p]].id == predicted[q].id;
    }
  }

  method MatchById(predicted: seq<Entry>, gold: seq<Entry>) returns (matches: map<nat, nat>, used: set<nat>)
    ensures matches == ById(predicted, gold) && used == matches.Values
  {
    matches, used := map[], {};
    for p := 0 to |predicted|
      invariant used == matches.Values
      invariant forall q: nat :: q in matches <==> q < p && TakesById(predicted, gold, q)
      invariant forall q: nat :: q in matches ==> Some(matches[q]) == LastWith(gold, predicted[q].id)
    {
      var g := LastWith(gold, predicted[p].id);
      if g.Some? {
        ghost var first := FirstTaker(predicted, gold, p);
        if g.value !in used {
          assert first !in matches;
          ValuesWith(matches, p, g.value);
          matches, used := matches[p := g.value], used + {g.value};
        } else {
          ghost var q :| q in matches && matches[q] == g.value;
          assert predicted[q].id == gold[g.value].id;
        }
      }
    }
  }

  // ---------------------------------------------------------------- candidates, best first

  /** `a` comes before `b` when candidates are sorted in descending tuple order. */
  predicate Ahead(a: Candidate, b: Candidate) {
    || a.similarity > b.similarity
    || (a.similarity == b.similarity && (a.pred > b.pred || (a.pred == b.pred && a.gold >= b.gold)))
  }

  /** Larger tuples come strictly first: by similarity, then by the two indices. */
  lemma LargerTuplesComeFirst(a: Candidate, b: Candidate)
    ensures a.similarity > b.similarity ==> Ahead(a, b) && !Ahead(b, a)
    ensures a.similarity == b.similarity && a.pred > b.pred ==> Ahead(a, b) && !Ahead(b, a)
    ensures a.similarity == b.similarity && a.pred == b.pred && a.gold > b.gold ==> Ahead(a, b) && !Ahead(b, a)
    ensures Ahead(a, b) && Ahead(b, a) <==> a == b
  {
  }

  ghost predicate Descending(cs: seq<Candidate>) {
    forall i, j :: 0 <= i < j < |cs| ==> Ahead(cs[i], cs[j])
  }

  function Insert(c: Candidate, cs: seq<Candidate>): seq<Candidate> {
    if cs == [] || Ahead(c, cs[0]) then [c] + cs else [cs[0]] + Insert(c, cs[1..])
  }

  lemma {:induction false} InsertAdds(c: Candidate, cs: seq<Candidate>)
    ensures multiset(Insert(c, cs)) == multiset(cs) + multiset{c}
  {
    if cs != [] {
      assert cs == [cs[0]] + cs[1..];
      InsertAdds(c, cs[1..]);
    }
  }

  lemma {:induction false} InsertSorts(c: Candidate, cs: seq<Candidate>)
    requires Descending(cs)
    ensures Descending(Insert(c, cs))
  {
    if cs != [] && !Ahead(c, cs[0]) {
      var rest := Insert(c, cs[1..]);
      InsertSorts(c, cs[1..]);
      InsertAdds(c, cs[1..]);
      forall i | 0 <= i < |rest| ensures Ahead(cs[0], rest[i]) {
        assert rest[i] in multiset(rest);
        assert rest[i] == c || rest[i] in cs[1..];
      }
    }
  }

  method Sorted(cs: seq<Candidate>) returns (r: seq<Candidate>)
    ensures Descending(r) && multiset(r) == multiset(cs)
  {
    r := [];
    for i := 0 to |cs|
      invariant Descending(r) && multiset(r) == multiset(cs[..i])
    {
      InsertAdds(cs[i], r);
      InsertSorts(cs[i], r);
      r := Insert(cs[i], r);
      assert cs[..i + 1] == cs[..i] + [cs[i]];
    }
    assert cs[..|cs|] == cs;
  }

  /** A pair the second phase may still match. */
  ghost predicate Open(predicted: seq<Entry>, gold: seq<Entry>, matches: map<nat, nat>, p: nat, g: nat) {
    p < |predicted| && g < |gold| && p !in matches && g !in matches.Values
  }

  ghost predicate Honest(predicted: seq<Entry>, gold: seq<Entry>, cs: seq<Candidate>) {
    forall c :: c in cs ==> c.similarity == Sim(predicted, gold, c.pred, c.gold)
  }

  /** Every open pair that precedes (p, g) in row order is listed. */
  ghost predicate Enumerates(predicted: seq<Entry>, gold: seq<Entry>, matches: map<nat, nat>, cs: seq<Candidate>,
                             p: nat, g: nat) {
    forall q: nat, h: nat :: Open(predicted, gold, matches, q, h) && (q < p || (q == p && h < g)) ==>
      Candidate(Sim(predicted, gold, q, h), q, h) in cs
  }

  method OpenPairs(predicted: seq<Entry>, gold: seq<Entry>, matches: map<nat, nat>, used: set<nat>)
    returns (cs: seq<Candidate>)
    requires used == matches.Values
    ensures Honest(predicted, gold, cs)
    ensures forall c :: c in cs ==> Open(predicted, gold, matches, c.pred, c.gold)
    ensures Enumerates(predicted, gold, matches, cs, |predicted|, 0)
  {
    cs := [];
    for p := 0 to |predicted|
      invariant Honest(predicted, gold, cs)
      invariant forall c :: c in cs ==> Open(predicted, gold, matches, c.pred, c.gold)
      invariant Enumerates(predicted, gold, matches, cs, p, 0)
    {
      if p in matches { continue; }
      for g := 0 to |gold|
        invariant Honest(predicted, gold, cs)
        invariant forall c :: c in cs ==> Open(predicted, gold, matches, c.pred, c.gold)
        invariant Enumerates(predicted, gold, matches, cs, p, g)
      {
        if g !in used {
          cs := cs + [Candidate(Similarity(predicted[p].tokens, gold[g].tokens), p, g)];
        }
      }
    }
  }

  // ---------------------------------------------------------------- the greedy phase

  predicate Takes(c: Candidate, matches: map<nat, nat>) {
    c.similarity >= THRESHOLD && c.pred !in matches && c.gold !in matches.Values
  }

  /** What going through the candidates in order adds to the matches. */
  function Greedy(cs: seq<Candidate>, matches: map<nat, nat>): map<nat, nat> {
    if cs == [] then matches
    else Greedy(cs[1..], if Takes(cs[0], matches) then matches[cs[0].pred := cs[0].gold] else matches)
  }

  ghost predicate Injective(m: map<nat, nat>) {
    forall p, q :: p in m && q in m && m[p] == m[q] ==> p == q
  }

  /** Going through the sorted candidates one by one. */
  method TakeGreedily(cs: seq<Candidate>, matches0: map<nat, nat>, used0: set<nat>)
    returns (matches: map<nat, nat>, used: set<nat>)
    requires used0 == matches0.Values
    ensures matches == Greedy(cs, matches0) && used == matches.Values
  {
    matches, used := matches0, used0;
    for i := 0 to |cs|
      invariant used == matches.Values
      invariant Greedy(cs[i..], matches) == Greedy(cs, matches0)
    {
      var c := cs[i];
      assert cs[i..][1..] == cs[i + 1..];
      if c.similarity < THRESHOLD || c.pred in matches || c.gold in used { continue; }
      ValuesWith(matches, c.pred, c.gold);
      matches, used := matches[c.pred := c.gold], used + {c.gold};
    }
  }

  /** What the result of a greedy matching promises, given the matches it started from. */
  ghost predicate IsGoodMatching(predicted: seq<Entry>, gold: seq<Entry>, byId: map<nat, nat>, matches: map<nat, nat>) {
    && Injective(matches)
    && (forall p :: p in byId ==> p in matches && matches[p] == byId[p])
    && (forall p :: p in matches ==> p < |predicted| && matches[p] < |gold|)
    && (forall p :: p in matches && p !in byId ==> Alike(predicted, gold, p, matches[p]))
    && (forall p: nat, g: nat :: Open(predicted, gold, matches, p, g) ==> !Alike(predicted, gold, p, g))
  }

  method MatchEntries(predicted: seq<Entry>, gold: seq<Entry>) returns (matches: map<nat, nat>, used: set<nat>)
    ensures used == matches.Values
    ensures IsGoodMatching(predicted, gold, ById(predicted, gold), matches)
    ensures forall m :: Contender(predicted, gold, ById(predicted, gold), m) ==>
              Total(predicted, gold, m)
              <= 2.0 * (Total(predicted, gold, matches) - Total(predicted, gold, ById(predicted, gold)))
  {
    matches, used := MatchById(predicted, gold);
    ghost var byId := matches;
    ByIdIsInjective(predicted, gold);
    var unsorted := OpenPairs(predicted, gold, matches, used);
    var cs := Sorted(unsorted);
    SameMembers(unsorted, cs);
    matches, used := TakeGreedily(cs, matches, used);
    GreedyIsGood(predicted, gold, cs, byId);
    forall m | Contender(predicted, gold, byId, m)
      ensures Total(predicted, gold, m) <= 2.0 * (Total(predicted, gold, matches) - Total(predicted, gold, byId))
    {
      GreedyIsHalfOptimal(predicted, gold, cs, byId, m);
    }
  }

  lemma SameMembers(a: seq<Candidate>, b: seq<Candidate>)
    requires multiset(a) == multiset(b)
    ensures forall c :: c in a <==> c in b
  {
    forall c ensures c in a <==> c in b {
      assert c in multiset(a) <==> c in multiset(b);
    }
  }

  lemma GreedyIsGood(predicted: seq<Entry>, gold: seq<Entry>, cs: seq<Candidate>, byId: map<nat, nat>)
    requires Injective(byId) && Honest(predicted, gold, cs) && Enumerates(predicted, gold, byId, cs, |predicted|, 0)
    requires forall c :: c in cs ==> Open(predicted, gold, byId, c.pred, c.gold)
    requires forall p :: p in byId ==> p < |predicted| && byId[p] < |gold|
    ensures IsGoodMatching(predicted, gold, byId, Greedy(cs, byId))
  {
    GreedyKeeps(predicted, gold, cs, byId);
    GreedyIsMaximal(cs, byId);
    var matches := Greedy(cs, byId);
    forall p | p in matches && p !in byId ensures Alike(predicted, gold, p, matches[p]) {
      ThresholdCountsTokens(predicted, gold, p, matches[p]);
    }
    forall p: nat, g: nat | Open(predicted, gold, matches, p, g) ensures !Alike(predicted, gold, p, g) {
      ThresholdCountsTokens(predicted, gold, p, g);
      assert Open(predicted, gold, byId, p, g);
      var c := Candidate(Sim(predicted, gold, p, g), p, g);
      assert c in cs;
    }
  }

  /** Greedy only adds acceptable candidates to free ends. */
  lemma {:induction false} GreedyKeeps(predicted: seq<Entry>, gold: seq<Entry>, cs: seq<Candidate>,
                                       matches: map<nat, nat>)
    requires Injective(matches)
    requires forall c :: c in cs ==> c.pred < |predicted| && c.gold < |gold|
    requires Honest(predicted, gold, cs)
    ensures Injective(Greedy(cs, matches))
    ensures forall p :: p in Greedy(cs, matches) && p !in matches ==>
              && p < |predicted| && Greedy(cs, matches)[p] < |gold|
              && Sim(predicted, gold, p, Greedy(cs, matches)[p]) >= THRESHOLD
  {
    if cs != [] {
      var c := cs[0];
      var next := if Takes(c, matches) then matches[c.pred := c.gold] else matches;
      GreedyKeeps(predicted, gold, cs[1..], next);
      GreedyIsMaximal(cs[1..], next);
    }
  }

  /** Greedy keeps its matches and leaves no candidate at or above the threshold with both ends free. */
  lemma {:induction false} GreedyIsMaximal(cs: seq<Candidate>, matches: map<nat, nat>)
    ensures forall p :: p in matches ==> p in Greedy(cs, matches) && Greedy(cs, matches)[p] == matches[p]
    ensures forall c :: c in cs && c.similarity >= THRESHOLD ==>
              c.pred in Greedy(cs, matches) || c.gold in Greedy(cs, matches).Values
  {
    if cs != [] {
      var c := cs[0];
      var next := if Takes(c, matches) then matches[c.pred := c.gold] else matches;
      GreedyIsMaximal(cs[1..], next);
      var r := Greedy(cs, matches);
      if c.gold in matches.Values {
        var p :| p in matches && matches[p] == c.gold;
        assert r[p] == c.gold;
      }
    }
  }

  // ---------------------------------------------------------------- against any other matching

  /** The similarity a matching collects from the first `n` predicted entries. */
  ghost function Weight(predicted: seq<Entry>, gold: seq<Entry>, m: map<nat, nat>, n: nat): real {
    if n == 0 then 0.0
    else Weight(predicted, gold, m, n - 1) + if n - 1 in m then Sim(predicted, gold, n - 1, m[n - 1]) else 0.0
  }

  ghost function Total(predicted: seq<Entry>, gold: seq<Entry>, m: map<nat, nat>): real {
    Weight(predicted, gold, m, |predicted|)
  }

  /** A matching of entries the id phase left over, by pairs at or above the threshold. */
  ghost predicate Contender(predicted: seq<Entry>, gold: seq<Entry>, matches: map<nat, nat>, m: map<nat, nat>) {
    && Injective(m)
    && forall p :: p in m ==>
         Open(predicted, gold, matches, p, m[p]) && Alike(predicted, gold, p, m[p])
  }

  lemma {:induction false} WeightWith(predicted: seq<Entry>, gold: seq<Entry>, m: map<nat, nat>, p: nat, g: nat, n: nat)
    requires p !in m
    ensures Weight(predicted, gold, m[p := g], n)
         == Weight(predicted, gold, m, n) + if p < n then Sim(predicted, gold, p, g) else 0.0
  {
    if n > 0 { WeightWith(predicted, gold, m, p, g, n - 1); }
  }

  lemma TotalWithout(predicted: seq<Entry>, gold: seq<Entry>, m: map<nat, nat>, p: nat)
    requires p in m && p < |predicted|
    ensures Total(predicted, gold, m) == Total(predicted, gold, m - {p}) + Sim(predicted, gold, p, m[p])
  {
    assert m == (m - {p})[p := m[p]];
    WeightWith(predicted, gold, m - {p}, p, m[p], |predicted|);
  }

  lemma {:induction false} WeightOfNothing(predicted: seq<Entry>, gold: seq<Entry>, n: nat)
    ensures Weight(predicted, gold, map[], n) == 0.0
  {
    if n > 0 { WeightOfNothing(predicted, gold, n - 1); }
  }

  /** Every pair of `m` is still to come in the candidate list. */
  ghost predicate Pending(predicted: seq<Entry>, gold: seq<Entry>, cs: seq<Candidate>, m: map<nat, nat>) {
    forall p :: p in m ==> Candidate(Sim(predicted, gold, p, m[p]), p, m[p]) in cs
  }

  /** A taken candidate blocks at most two pairs of another matching, neither better than itself. */
  lemma DropEnds(predicted: seq<Entry>, gold: seq<Entry>, m: map<nat, nat>, c: Candidate) returns (rest: map<nat, nat>)
    requires Injective(m) && c.similarity >= 0.0
    requires forall p :: p in m ==> p < |predicted| && Sim(predicted, gold, p, m[p]) <= c.similarity
    ensures forall p :: p in rest <==> p in m && p != c.pred && m[p] != c.gold
    ensures forall p :: p in rest ==> rest[p] == m[p]
    ensures Total(predicted, gold, m) <= Total(predicted, gold, rest) + 2.0 * c.similarity
  {
    rest := m;
    if c.pred in rest {
      TotalWithout(predicted, gold, rest, c.pred);
      rest := rest - {c.pred};
    }
    if q :| q in rest && rest[q] == c.gold {
      TotalWithout(predicted, gold, rest, q);
      rest := rest - {q};
    }
  }

  /** The similarity greedy adds is at least half of what any other matching of the open pairs collects. */
  lemma {:induction false} GreedyIsHalfOptimal(predicted: seq<Entry>, gold: seq<Entry>, cs: seq<Candidate>,
                                               matches: map<nat, nat>, m: map<nat, nat>)
    requires Descending(cs) && Honest(predicted, gold, cs)
    requires forall c :: c in cs ==> c.pred < |predicted| && c.gold < |gold|
    requires Contender(predicted, gold, matches, m) && Pending(predicted, gold, cs, m)
    ensures Total(predicted, gold, m)
         <= 2.0 * (Total(predicted, gold, Greedy(cs, matches)) - Total(predicted, gold, matches))
  {
    if cs == [] {
      assert m == map[];
      WeightOfNothing(predicted, gold, |predicted|);
    } else {
      var c := cs[0];
      if Takes(c, matches) {
        HeadIsBest(predicted, gold, cs, m);
        var rest := DropEnds(predicted, gold, m, c);
        var next := matches[c.pred := c.gold];
        WeightWith(predicted, gold, matches, c.pred, c.gold, |predicted|);
        ValuesWith(matches, c.pred, c.gold);
        GreedyIsHalfOptimal(predicted, gold, cs[1..], next, rest);
      } else {
        ThresholdCountsTokens(predicted, gold, c.pred, c.gold);
        GreedyIsHalfOptimal(predicted, gold, cs[1..], matches, m);
      }
    }
  }

  lemma HeadIsBest(predicted: seq<Entry>, gold: seq<Entry>, cs: seq<Candidate>, m: map<nat, nat>)
    requires Descending(cs) && cs != [] && Pending(predicted, gold, cs, m)
    ensures forall p :: p in m ==> Sim(predicted, gold, p, m[p]) <= cs[0].similarity
  {
    forall p | p in m ensures Sim(predicted, gold, p, m[p]) <= cs[0].similarity {
      var i :| 0 <= i < |cs| && cs[i] == Candidate(Sim(predicted, gold, p, m[p]), p, m[p]);
      if i > 0 { assert Ahead(cs[0], cs[i]); }
    }
  }
}

/** Scoring a generated summary against what the labelled one permits. */
module SummaryScore {
  import opened Common

  /** The labels: groups that must share a theme, and either listed distinct groups or the inverted default. */
  datatype Gold = Gold(
    merges: seq<seq<string>>,
    invertDistinct: bool,
    distinct: seq<seq<string>>,
    fewest: int,
    most: int)

  /** One theme contains every id of a group, all of them known. */
  ghost predicate ShareTheme(themes: seq<seq<string>>, known: set<string>, ids: seq<string>) {
    exists i :: InTheme(themes, known, ids, i)
  }

  ghost predicate InTheme(themes: seq<seq<string>>, known: set<string>, ids: seq<string>, i: int) {
    0 <= i < |themes| && forall e :: e in ids ==> e in known && e in themes[i]
  }

  ghost predicate Together(themes: seq<seq<string>>, a: string, b: string) {
    exists i :: 0 <= i < |themes| && a in themes[i] && b in themes[i]
  }

  ghost predicate MergeAllowed(merges: seq<seq<string>>, a: string, b: string) {
    exists k :: 0 <= k < |merges| && a in merges[k] && b in merges[k]
  }

  ghost predicate IsCovered(themes: seq<seq<string>>, e: string) {
    exists i: nat :: Has(themes, e, i)
  }

  /** Every entry is in some theme. */
  ghost predicate NoOrphans(themes: seq<seq<string>>, known: set<string>) {
    forall e :: e in known ==> IsCovered(themes, e)
  }

  /** Different entries share a theme only if some merge group lists both. */
  ghost predicate OnlyAllowedMerges(themes: seq<seq<string>>, known: set<string>, merges: seq<seq<string>>) {
    forall a, b :: a in known && b in known && a != b && Together(themes, a, b) ==> MergeAllowed(merges, a, b)
  }

  ghost predicate MergesMade(themes: seq<seq<string>>, known: set<string>, merges: seq<seq<string>>) {
    forall k :: 0 <= k < |merges| && |merges[k]| >= 2 ==> ShareTheme(themes, known, merges[k])
  }

  ghost predicate KeptApart(themes: seq<seq<string>>, known: set<string>, groups: seq<seq<string>>) {
    forall k :: 0 <= k < |groups| && |groups[k]| >= 2 ==> !ShareTheme(themes, known, groups[k])
  }

  // ---------------------------------------------------------------- the index of themes

  ghost predicate Has(themes: seq<seq<string>>, e: string, i: nat) {
    i < |themes| && e in themes[i]
  }

  ghost predicate Indexes(themes: seq<seq<string>>, known: set<string>, index: map<string, set<nat>>) {
    && index.Keys == known
    && forall e, i: nat :: e in known ==> (i in index[e] <==> Has(themes, e, i))
  }

  method IndexThemes(themes: seq<seq<string>>, known: set<string>) returns (index: map<string, set<nat>>)
    ensures Indexes(themes, known, index)
  {
    index := map e | e in known :: {};
    for t := 0 to |themes|
      invariant Indexes(themes[..t], known, index)
    {
      for j := 0 to |themes[t]|
        invariant index.Keys == known
        invariant forall e, i: nat :: e in known ==>
                    (i in index[e] <==> Has(themes[..t], e, i) || (i == t && e in themes[t][..j]))
      {
        var e := themes[t][j];
        if e in index {
          index := index[e := index[e] + {t}];
        }
      }
      assert themes[t][..|themes[t]|] == themes[t];
      assert forall e, i: nat :: Has(themes[..t + 1], e, i) <==> Has(themes[..t], e, i) || (i == t && e in themes[t]);
    }
    assert themes[..|themes|] == themes;
  }

  /** The themes every id of a group is in; an unknown id is in none. */
  method CommonThemes(index: map<string, set<nat>>, ids: seq<string>) returns (common: set<nat>)
    requires ids != []
    ensures forall i :: i in common <==> forall e :: e in ids ==> e in index && i in index[e]
  {
    common := if ids[0] in index then index[ids[0]] else {};
    for k := 1 to |ids|
      invariant forall i :: i in common <==> forall j :: 0 <= j < k ==> ids[j] in index && i in index[ids[j]]
    {
      common := common * if ids[k] in index then index[ids[k]] else {};
    }
  }

  method HaveCommonTheme(themes: seq<seq<string>>, known: set<string>, index: map<string, set<nat>>, ids: seq<string>)
    returns (yes: bool)
    requires Indexes(themes, known, index) && ids != []
    ensures yes <==> ShareTheme(themes, known, ids)
  {
    var common := CommonThemes(index, ids);
    yes := common != {};
    if yes {
      var i :| i in common;
      assert ids[0] in ids && ids[0] in index && i in index[ids[0]];
      assert InTheme(themes, known, ids, i);
    }
    assert forall i: nat :: InTheme(themes, known, ids, i) ==> i in common;
  }

  // ---------------------------------------------------------------- merges and distinct pairs

  /** How many groups pass: those of fewer than two ids, and those that share a theme as wanted. */
  method CountPassing(themes: seq<seq<string>>, known: set<string>, index: map<string, set<nat>>,
                      groups: seq<seq<string>>, wanted: bool)
    returns (correct: nat)
    requires Indexes(themes, known, index)
    ensures correct <= |groups|
    ensures correct == |groups| <==>
              forall k :: 0 <= k < |groups| && |groups[k]| >= 2 ==> (ShareTheme(themes, known, groups[k]) <==> wanted)
  {
    correct := 0;
    for n := 0 to |groups|
      invariant correct <= n
      invariant correct == n <==>
                  forall k :: 0 <= k < n && |groups[k]| >= 2 ==> (ShareTheme(themes, known, groups[k]) <==> wanted)
    {
      if |groups[n]| < 2 {
        correct := correct + 1;
      } else {
        var shared := HaveCommonTheme(themes, known, index, groups[n]);
        if shared == wanted { correct := correct + 1; }
      }
    }
  }

  /** Two different ids of a group.  An unordered pair is kept as its two ordered ones. */
  ghost predicate Among(ids: seq<string>, a: string, b: string) {
    a in ids && b in ids
  }

  method PairsOf(ids: seq<string>) returns (pairs: set<(string, string)>)
    ensures forall a, b :: a != b ==> ((a, b) in pairs <==> Among(ids, a, b))
  {
    pairs := {};
    for i := 0 to |ids|
      invariant forall a, b :: (a, b) in pairs ==> Among(ids, a, b)
      invariant forall x, y :: 0 <= x < i && x < y < |ids| ==> (ids[x], ids[y]) in pairs && (ids[y], ids[x]) in pairs
    {
      for j := i + 1 to |ids|
        invariant forall a, b :: (a, b) in pairs ==> Among(ids, a, b)
        invariant forall x, y :: 0 <= x < i && x < y < |ids| ==> (ids[x], ids[y]) in pairs && (ids[y], ids[x]) in pairs
        invariant forall y :: i < y < j ==> (ids[i], ids[y]) in pairs && (ids[y], ids[i]) in pairs
      {
        pairs := pairs + {(ids[i], ids[j]), (ids[j], ids[i])};
      }
    }
    forall a, b | a != b && Among(ids, a, b) ensures (a, b) in pairs {
      var x :| 0 <= x < |ids| && ids[x] == a;
      var y :| 0 <= y < |ids| && ids[y] == b;
      assert x < y || y < x;
    }
  }

  /** For two different ids, a pair is permitted exactly when a merge group lists both. */
  method PermittedPairs(merges: seq<seq<string>>) returns (permitted: set<(string, string)>)
    ensures forall a, b :: a != b ==> ((a, b) in permitted <==> MergeAllowed(merges, a, b))
  {
    permitted := {};
    for n := 0 to |merges|
      invariant forall a, b :: a != b ==> ((a, b) in permitted <==> MergeAllowed(merges[..n], a, b))
    {
      var pairs := PairsOf(merges[n]);
      permitted := permitted + pairs;
      forall a, b ensures MergeAllowed(merges[..n + 1], a, b) <==>
          MergeAllowed(merges[..n], a, b) || (a in merges[n] && b in merges[n]) {
        AllowedByOneMore(merges, n, a, b);
      }
    }
    assert merges[..|merges|] == merges;
  }

  lemma AllowedByOneMore(merges: seq<seq<string>>, n: nat, a: string, b: string)
    requires n < |merges|
    ensures MergeAllowed(merges[..n + 1], a, b) <==>
              MergeAllowed(merges[..n], a, b) || (a in merges[n] && b in merges[n])
  {
    if MergeAllowed(merges[..n], a, b) {
      var k :| 0 <= k < n && a in merges[..n][k] && b in merges[..n][k];
      assert a in merges[..n + 1][k];
    }
    if a in merges[n] && b in merges[n] { assert a in merges[..n + 1][n]; }
  }

  /** The full matrix of pairs of entries, less the permitted ones. */
  ghost predicate AreForbidden(ids: seq<string>, permitted: set<(string, string)>, pairs: seq<seq<string>>) {
    && (forall i, j :: 0 <= i < j < |ids| && (ids[i], ids[j]) !in permitted ==> [ids[i], ids[j]] in pairs)
    && (forall p :: p in pairs ==> |p| == 2 && p[0] in ids && p[1] in ids && p[0] != p[1] && (p[0], p[1]) !in permitted)
  }

  method ForbiddenPairs(ids: seq<string>, permitted: set<(string, string)>) returns (pairs: seq<seq<string>>)
    requires Distinct(ids)
    ensures AreForbidden(ids, permitted, pairs)
  {
    pairs := [];
    for i := 0 to |ids|
      invariant forall a, b :: 0 <= a < i && a < b < |ids| && (ids[a], ids[b]) !in permitted ==>
                  [ids[a], ids[b]] in pairs
      invariant forall p :: p in pairs ==>
                  |p| == 2 && p[0] in ids && p[1] in ids && p[0] != p[1] && (p[0], p[1]) !in permitted
    {
      for j := 0 to |ids|
        invariant forall a, b :: 0 <= a < i && a < b < |ids| && (ids[a], ids[b]) !in permitted ==>
                    [ids[a], ids[b]] in pairs
        invariant forall b :: i < b < j && (ids[i], ids[b]) !in permitted ==> [ids[i], ids[b]] in pairs
        invariant forall p :: p in pairs ==>
                    |p| == 2 && p[0] in ids && p[1] in ids && p[0] != p[1] && (p[0], p[1]) !in permitted
      {
        if i < j && (ids[i], ids[j]) !in permitted {
          pairs := pairs + [[ids[i], ids[j]]];
        }
      }
    }
  }

  /** Keeping every forbidden pair apart is the same as merging only where a merge group allows it. */
  lemma MatrixMeansOnlyAllowed(themes: seq<seq<string>>, known: set<string>, merges: seq<seq<string>>, ids: seq<string>,
                               permitted: set<(string, string)>, pairs: seq<seq<string>>)
    requires forall e :: e in ids <==> e in known
    requires forall a, b :: a != b ==> ((a, b) in permitted <==> MergeAllowed(merges, a, b))
    requires AreForbidden(ids, permitted, pairs)
    ensures KeptApart(themes, known, pairs) <==> OnlyAllowedMerges(themes, known, merges)
  {
    if KeptApart(themes, known, pairs) {
      forall a, b | a in known && b in known && a != b && Together(themes, a, b) ensures MergeAllowed(merges, a, b) {
        ForbiddenIsApart(themes, known, ids, permitted, pairs, a, b);
      }
    }
    if OnlyAllowedMerges(themes, known, merges) {
      forall k | 0 <= k < |pairs| ensures !ShareTheme(themes, known, pairs[k]) {
        var p := pairs[k];
        assert p in pairs;
        assert !Together(themes, p[0], p[1]) by {
          assert !MergeAllowed(merges, p[0], p[1]);
        }
        forall i ensures !InTheme(themes, known, p, i) {
          assert p[0] in p && p[1] in p;
        }
      }
    }
  }

  lemma ForbiddenIsApart(themes: seq<seq<string>>, known: set<string>, ids: seq<string>,
                         permitted: set<(string, string)>, pairs: seq<seq<string>>, a: string, b: string)
    requires AreForbidden(ids, permitted, pairs) && KeptApart(themes, known, pairs)
    requires forall e :: e in ids <==> e in known
    requires a in known && b in known && a != b && Together(themes, a, b)
    ensures (a, b) in permitted || (b, a) in permitted
  {
    var i :| 0 <= i < |ids| && ids[i] == a;
    var j :| 0 <= j < |ids| && ids[j] == b;
    var x, y := if i < j then a else b, if i < j then b else a;
    if (x, y) !in permitted {
      assert [x, y] in pairs;
      var k :| 0 <= k < |pairs| && pairs[k] == [x, y];
      var t :| 0 <= t < |themes| && a in themes[t] && b in themes[t];
      assert InTheme(themes, known, pairs[k], t);
    }
  }

  // ---------------------------------------------------------------- the verdict

  /** How many entries some theme covers. */
  method CountCovered(themes: seq<seq<string>>, known: set<string>, index: map<string, set<nat>>)
    returns (covered: nat, total: nat)
    requires Indexes(themes, known, index)
    ensures total == |known| && covered <= total
    ensures covered == total <==> NoOrphans(themes, known)
  {
    covered, total := 0, 0;
    var rest := known;
    while rest != {}
      invariant rest <= known && total == |known| - |rest| && covered <= total
      invariant covered == total <==> NoOrphans(themes, known - rest)
      decreases |rest|
    {
      var e :| e in rest;
      assert index[e] != {} <==> IsCovered(themes, e) by {
        if i :| i in index[e] { assert IsCovered(themes, e); }
      }
      if index[e] != {} { covered := covered + 1; }
      assert known - (rest - {e}) == (known - rest) + {e};
      total, rest := total + 1, rest - {e};
    }
    assert known - rest == known;
  }

  method ScoreSummary(gold: Gold, themes: seq<seq<string>>, known: set<string>) returns (passed: bool)
    ensures passed <==>
              && NoOrphans(themes, known)
              && MergesMade(themes, known, gold.merges)
              && (if gold.invertDistinct then OnlyAllowedMerges(themes, known, gold.merges)
                  else KeptApart(themes, known, gold.distinct))
              && gold.fewest <= |themes| <= gold.most
  {
    var index := IndexThemes(themes, known);
    var covered, total := CountCovered(themes, known, index);
    var recall := if total > 0 then covered as real / total as real else 1.0;
    var mergeCorrect := CountPassing(themes, known, index, gold.merges, true);
    var distinctPairs := gold.distinct;
    if gold.invertDistinct {
      var permitted := PermittedPairs(gold.merges);
      var ids := Ordered(known);
      distinctPairs := ForbiddenPairs(ids, permitted);
      MatrixMeansOnlyAllowed(themes, known, gold.merges, ids, permitted, distinctPairs);
    }
    var distinctCorrect := CountPassing(themes, known, index, distinctPairs, false);
    passed := recall >= 0.90 && total - covered == 0 && mergeCorrect == |gold.merges|
              && distinctCorrect == |distinctPairs| && gold.fewest <= |themes| <= gold.most;
  }
}

/**
 Grouping the ledger and summarising the groups: arbitrary lists of ids from a model are coerced into
 disjoint, non-empty groups of known ids, and nothing known is dropped.
 */
module Themes {
  import opened Common

  datatype Item = Item(id: string, topic: string)

  datatype Group = Group(topic: string, ids: seq<string>)

  datatype Theme = Theme(title: string, summary: string, ids: seq<string>)

  datatype Consolidation = Consolidation(groups: seq<Group>, ungrouped: seq<string>)

  const MAX_THEMES := 25

  function Ids(entries: seq<Item>): set<string> {
    set e | e in entries :: e.id
  }

  function IdLists(groups: seq<Group>): (r: seq<seq<string>>)
    ensures |r| == |groups| && forall i :: 0 <= i < |r| ==> r[i] == groups[i].ids
  {
    seq(|groups|, i requires 0 <= i < |groups| => groups[i].ids)
  }

  function ThemeLists(themes: seq<Theme>): (r: seq<seq<string>>)
    ensures |r| == |themes| && forall i :: 0 <= i < |r| ==> r[i] == themes[i].ids
  {
    seq(|themes|, i requires 0 <= i < |themes| => themes[i].ids)
  }

  // ---------------------------------------------------------------- disjoint lists

  /** Non-empty lists of known ids, no id in two of them. */
  ghost predicate Disjoint(lists: seq<seq<string>>, known: set<string>) {
    && (forall i :: 0 <= i < |lists| ==> lists[i] != [])
    && (forall i, id :: 0 <= i < |lists| && id in lists[i] ==> id in known)
    && (forall i, j, id :: 0 <= i < j < |lists| && id in lists[i] ==> id !in lists[j])
  }

  ghost predicate Covered(lists: seq<seq<string>>, id: string) {
    exists i :: 0 <= i < |lists| && id in lists[i]
  }

  /** Every known id is in exactly one list, and every list is non-empty. */
  ghost predicate Partition(lists: seq<seq<string>>, known: set<string>) {
    Disjoint(lists, known) && forall id :: id in known ==> Covered(lists, id)
  }

  /** The first list that names an id, which is the one that gets it. */
  function Owner(lists: seq<seq<string>>, id: string): (r: Option<nat>)
    ensures r.Some? ==> r.value < |lists| && id in lists[r.value]
    ensures forall i :: 0 <= i < |lists| && id in lists[i] ==> r.Some? && r.value <= i
  {
    if lists == [] then None
    else
      var before := Owner(lists[..|lists| - 1], id);
      if before.None? && id in lists[|lists| - 1] then Some(|lists| - 1) else before
  }

  lemma OwnerGrows(lists: seq<seq<string>>, n: nat, id: string)
    requires n < |lists|
    ensures Owner(lists[..n + 1], id)
         == if Owner(lists[..n], id).None? && id in lists[n] then Some(n) else Owner(lists[..n], id)
  {
    assert lists[..n + 1][..n] == lists[..n];
  }

  function Usable(ids: seq<string>, known: set<string>, claimed: set<string>): (r: seq<string>)
    ensures forall id :: id in r <==> id in ids && id in known && id !in claimed
  {
    if ids == [] then []
    else
      var rest := Usable(ids[..|ids| - 1], known, claimed);
      var id := ids[|ids| - 1];
      assert ids == ids[..|ids| - 1] + [id];
      if id in known && id !in claimed then rest + [id] else rest
  }

  lemma UsableOfOne(id: string, known: set<string>, claimed: set<string>)
    ensures Usable([id], known, claimed) == if id in known && id !in claimed then [id] else []
  {
    assert [id][..0] == [];
  }

  lemma UsableOfMore(ids: seq<string>, last: string, known: set<string>, claimed: set<string>)
    ensures Usable(ids + [last], known, claimed)
         == Usable(ids, known, claimed) + Usable([last], known, claimed)
  {
    UsableOfOne(last, known, claimed);
    assert (ids + [last])[..|ids|] == ids;
  }

  lemma Associative(a: seq<string>, b: seq<string>, c: seq<string>)
    ensures (a + b) + c == a + (b + c)
  {
  }

  /** Choosing the usable ids of a list is choosing them from its parts, so order and repetition stay. */
  lemma {:induction false} UsableIsAFilter(a: seq<string>, b: seq<string>, known: set<string>, claimed: set<string>)
    ensures Usable(a + b, known, claimed) == Usable(a, known, claimed) + Usable(b, known, claimed)
  {
    if b == [] {
      assert a + b == a;
    } else {
      var init, last := b[..|b| - 1], b[|b| - 1];
      assert b == init + [last] && a + b == (a + init) + [last];
      UsableIsAFilter(a, init, known, claimed);
      UsableOfMore(a + init, last, known, claimed);
      UsableOfMore(init, last, known, claimed);
      Associative(Usable(a, known, claimed), Usable(init, known, claimed), Usable([last], known, claimed));
    }
  }

  /** Each list is what the model's list has left once the lists before it have had theirs. */
  ghost predicate KeptInOrder(lists: seq<seq<string>>, known: set<string>, kept: seq<seq<string>>, from: seq<nat>) {
    && |from| == |kept|
    && forall i :: 0 <= i < |kept| ==>
         from[i] < |lists| && kept[i] == Usable(lists[from[i]], known, Claimed(lists[..from[i]], known))
  }

  /** Every id goes to the first list that names it; lists left empty disappear. */
  ghost predicate Shared(lists: seq<seq<string>>, known: set<string>, kept: seq<seq<string>>, from: seq<nat>) {
    && |from| == |kept|
    && (forall i :: 0 <= i < |from| ==> from[i] < |lists|)
    && (forall i, j :: 0 <= i < j < |from| ==> from[i] < from[j])
    && (forall i :: 0 <= i < |kept| ==> kept[i] != [])
    && (forall i, id :: 0 <= i < |kept| ==> (id in kept[i] <==> id in known && Owner(lists, id) == Some(from[i])))
  }

  ghost function Claimed(lists: seq<seq<string>>, known: set<string>): set<string> {
    set id | id in known && Owner(lists, id).Some?
  }

  /** Nobody's id is lost in sharing. */
  ghost predicate NoneLost(lists: seq<seq<string>>, known: set<string>, from: seq<nat>) {
    forall id :: id in Claimed(lists, known) ==> Owner(lists, id).value in from
  }

  lemma OwnersGrow(lists: seq<seq<string>>, n: nat, known: set<string>, ids: seq<string>)
    requires n < |lists| && ids == Usable(lists[n], known, Claimed(lists[..n], known))
    ensures forall id :: id in known ==>
              Owner(lists[..n + 1], id) == if id in ids then Some(n) else Owner(lists[..n], id)
    ensures Claimed(lists[..n + 1], known) == Claimed(lists[..n], known) + set id | id in ids
  {
    forall id | id in known
      ensures Owner(lists[..n + 1], id) == if id in ids then Some(n) else Owner(lists[..n], id)
    {
      OwnerGrows(lists, n, id);
    }
  }

  /** One more list of the model: its known ids that nobody owns yet become a list, unless there are none. */
  lemma ShareStep(lists: seq<seq<string>>, n: nat, known: set<string>, kept: seq<seq<string>>, from: seq<nat>,
                  ids: seq<string>)
    requires n < |lists| && Shared(lists[..n], known, kept, from) && NoneLost(lists[..n], known, from)
    requires ids == Usable(lists[n], known, Claimed(lists[..n], known))
    ensures ids == [] ==> Shared(lists[..n + 1], known, kept, from) && NoneLost(lists[..n + 1], known, from)
    ensures ids != [] ==>
              && Shared(lists[..n + 1], known, kept + [ids], from + [n])
              && NoneLost(lists[..n + 1], known, from + [n])
  {
    OwnersGrow(lists, n, known, ids);
    forall i, id | 0 <= i < |kept|
      ensures id in kept[i] <==> id in known && Owner(lists[..n + 1], id) == Some(from[i])
    {
      assert id in kept[i] <==> id in known && Owner(lists[..n], id) == Some(from[i]);
    }
    assert NoneLost(lists[..n + 1], known, if ids == [] then from else from + [n]);
  }

  lemma KeptStep(lists: seq<seq<string>>, n: nat, known: set<string>, kept: seq<seq<string>>, from: seq<nat>,
                 ids: seq<string>)
    requires n < |lists| && KeptInOrder(lists, known, kept, from)
    requires ids == Usable(lists[n], known, Claimed(lists[..n], known))
    ensures KeptInOrder(lists, known, kept + [ids], from + [n])
  {
  }

  /** The loop both coercions start with: walk the model's lists, keeping known and unclaimed ids. */
  method Share(lists: seq<seq<string>>, known: set<string>)
    returns (kept: seq<seq<string>>, from: seq<nat>, claimed: set<string>)
    ensures Shared(lists, known, kept, from) && NoneLost(lists, known, from)
    ensures KeptInOrder(lists, known, kept, from)
    ensures claimed == Claimed(lists, known)
  {
    kept, from, claimed := [], [], {};
    for n := 0 to |lists|
      invariant Shared(lists[..n], known, kept, from) && NoneLost(lists[..n], known, from)
      invariant claimed == Claimed(lists[..n], known) && KeptInOrder(lists, known, kept, from)
    {
      var ids := Usable(lists[n], known, claimed);
      ShareStep(lists, n, known, kept, from, ids);
      OwnersGrow(lists, n, known, ids);
      KeptStep(lists, n, known, kept, from, ids);
      claimed := claimed + set id | id in ids;
      if ids == [] { continue; }
      kept, from := kept + [ids], from + [n];
    }
    assert lists[..|lists|] == lists;
  }

  lemma SharedIsDisjoint(lists: seq<seq<string>>, known: set<string>, kept: seq<seq<string>>, from: seq<nat>)
    requires Shared(lists, known, kept, from) && NoneLost(lists, known, from)
    ensures Disjoint(kept, known)
    ensures forall id :: id in Claimed(lists, known) <==> Covered(kept, id)
  {
    forall i, j, id | 0 <= i < j < |kept| && id in kept[i] ensures id !in kept[j] {
      assert id in kept[j] <==> id in known && Owner(lists, id) == Some(from[j]);
    }
    forall id | id in Claimed(lists, known) ensures Covered(kept, id) {
      var i :| 0 <= i < |from| && from[i] == Owner(lists, id).value;
      assert id in kept[i];
    }
  }

  // ---------------------------------------------------------------- forgotten ids

  function Singletons(ids: seq<string>): (r: seq<seq<string>>)
    ensures |r| == |ids| && forall i :: 0 <= i < |ids| ==> r[i] == [ids[i]]
  {
    seq(|ids|, i requires 0 <= i < |ids| => [ids[i]])
  }

  /** Uncovered ids, each in a list of its own, keep lists disjoint and cover just themselves in addition. */
  lemma AddSingletons(lists: seq<seq<string>>, known: set<string>, ids: seq<string>)
    requires Disjoint(lists, known) && Distinct(ids)
    requires forall id :: id in ids ==> id in known && !Covered(lists, id)
    ensures Disjoint(lists + Singletons(ids), known)
    ensures forall x :: Covered(lists + Singletons(ids), x) <==> Covered(lists, x) || x in ids
  {
    var more := lists + Singletons(ids);
    forall i, j, id | 0 <= i < j < |more| && id in more[i] ensures id !in more[j] {
      if j >= |lists| {
        assert more[j] == [ids[j - |lists|]] && ids[j - |lists|] in ids;
        if i < |lists| { assert Covered(lists, id); }
      }
    }
    forall x ensures Covered(more, x) <==> Covered(lists, x) || x in ids {
      if Covered(lists, x) {
        var i :| 0 <= i < |lists| && x in lists[i];
        assert more[i] == lists[i];
      }
      if x in ids {
        var i :| 0 <= i < |ids| && ids[i] == x;
        assert x in more[|lists| + i];
      }
    }
  }

  /** There are never more disjoint non-empty lists than ids. */
  lemma {:induction false} NoMoreListsThanIds(lists: seq<seq<string>>, known: set<string>)
    requires Disjoint(lists, known)
    ensures |lists| <= |known|
  {
    if lists != [] {
      var init := lists[..|lists| - 1];
      var id := lists[|lists| - 1][0];
      assert id in lists[|lists| - 1];
      NoMoreListsThanIds(init, known - {id});
    }
  }

  // ---------------------------------------------------------------- how many themes there are

  /** The lists of the model that get some known id. */
  ghost function Winners(lists: seq<seq<string>>, known: set<string>): set<nat> {
    set id | id in Claimed(lists, known) :: Owner(lists, id).value
  }

  lemma {:induction false} DistinctCount<T>(items: seq<T>, elements: set<T>)
    requires Distinct(items) && forall x :: x in items <==> x in elements
    ensures |items| == |elements|
  {
    if items == [] {
      assert elements == {};
    } else {
      var init, last := items[..|items| - 1], items[|items| - 1];
      assert forall x :: x in init <==> x in elements - {last};
      DistinctCount(init, elements - {last});
    }
  }

  lemma OnePerWinner(lists: seq<seq<string>>, known: set<string>, kept: seq<seq<string>>, from: seq<nat>)
    requires Shared(lists, known, kept, from) && NoneLost(lists, known, from)
    ensures |kept| == |Winners(lists, known)|
  {
    forall n | n in from ensures n in Winners(lists, known) {
      var i :| 0 <= i < |from| && from[i] == n;
      var id := kept[i][0];
      assert id in kept[i];
      assert id in Claimed(lists, known) && Owner(lists, id).value == n;
    }
    forall n | n in Winners(lists, known) ensures n in from {
      var id :| id in Claimed(lists, known) && Owner(lists, id).value == n;
    }
    DistinctCount(from, Winners(lists, known));
  }

  // ---------------------------------------------------------------- consolidation

  /** A topic cut to fit the limit on titles. */
  function Shortened(topic: string): (r: string)
    ensures topic != "" ==> 0 < |r| <= 200
    ensures |topic| <= 197 ==> r == topic
    ensures |topic| > 197 ==> |r| == 198 && r[..197] == topic[..197] && r[197] == '\U{2026}'
  {
    if |topic| > 197 then topic[..197] + ['\U{2026}'] else topic
  }

  /** The topic of the first entry with an id. */
  function TopicOf(entries: seq<Item>, id: string): (r: string)
    requires id in Ids(entries)
    ensures exists i :: 0 <= i < |entries| && entries[i].id == id && entries[i].topic == r
                        && forall k :: 0 <= k < i ==> entries[k].id != id
  {
    if entries[0].id == id then entries[0].topic else TopicOf(entries[1..], id)
  }

  function GroupsOf(entries: seq<Item>, ids: seq<string>): (r: seq<Group>)
    requires forall id :: id in ids ==> id in Ids(entries)
    ensures IdLists(r) == Singletons(ids)
    ensures forall i :: 0 <= i < |r| ==> r[i].topic == Shortened(TopicOf(entries, ids[i]))
  {
    seq(|ids|, i requires 0 <= i < |ids| => Group(Shortened(TopicOf(entries, ids[i])), [ids[i]]))
  }

  /** The groups shared from the model's lists, each with its list's topic. */
  ghost predicate GroupsFrom(model: seq<Group>, known: set<string>, groups: seq<Group>, from: seq<nat>) {
    && Shared(IdLists(model), known, IdLists(groups), from)
    && KeptInOrder(IdLists(model), known, IdLists(groups), from)
    && forall i :: 0 <= i < |groups| ==> groups[i].topic == model[from[i]].topic
  }

  /**
   A payload that fails the schema is `None`, and so is the answer.  Any other becomes a partition of
   the known ids: each goes to the first group of the model that names it, forgotten ones stand alone.
   */
  method CoerceConsolidation(payload: Option<seq<Group>>, entries: seq<Item>)
    returns (r: Option<Consolidation>, ghost from: seq<nat>)
    ensures r.None? <==> payload.None?
    ensures r.Some? ==> Partition(IdLists(r.value.groups), Ids(entries))
    ensures r.Some? ==> |from| <= |r.value.groups|
    ensures r.Some? ==> GroupsFrom(payload.value, Ids(entries), r.value.groups[..|from|], from)
    ensures r.Some? ==> forall id :: id in r.value.ungrouped <==>
              id in Ids(entries) && Owner(IdLists(payload.value), id).None?
    ensures r.Some? ==> r.value.groups[|from|..] == GroupsOf(entries, r.value.ungrouped)
  {
    from := [];
    if payload.None? { return None, []; }
    var known := Ids(entries);
    var kept, source, claimed := Share(IdLists(payload.value), known);
    from := source;
    SharedIsDisjoint(IdLists(payload.value), known, kept, source);
    var groups := seq(|kept|, i requires 0 <= i < |kept| => Group(payload.value[source[i]].topic, kept[i]));
    assert IdLists(groups) == kept;
    var ungrouped := Listed(known - claimed);
    AddSingletons(kept, known, ungrouped);
    var all := groups + GroupsOf(entries, ungrouped);
    assert IdLists(all) == kept + Singletons(ungrouped);
    assert all[..|from|] == groups && all[|from|..] == GroupsOf(entries, ungrouped);
    r := Some(Consolidation(all, ungrouped));
  }

  // ---------------------------------------------------------------- summary

  function ThemesOf(entries: seq<Item>, ids: seq<string>): (r: seq<Theme>)
    requires forall id :: id in ids ==> id in Ids(entries)
    ensures ThemeLists(r) == Singletons(ids)
    ensures Ascending(ids) ==> AreFallbacks(entries, r)
  {
    seq(|ids|, i requires 0 <= i < |ids| => Theme(Shortened(TopicOf(entries, ids[i])), TopicOf(entries, ids[i]),
                                                  [ids[i]]))
  }

  /** The themes shared from the model's, each with its own title and summary. */
  ghost predicate ThemesFrom(model: seq<Theme>, known: set<string>, themes: seq<Theme>, from: seq<nat>) {
    && Shared(ThemeLists(model), known, ThemeLists(themes), from)
    && KeptInOrder(ThemeLists(model), known, ThemeLists(themes), from)
    && forall i :: 0 <= i < |themes| ==> themes[i] == model[from[i]].(ids := themes[i].ids)
  }

  /** A theme made for one forgotten entry, from its topic. */
  predicate IsFallback(entries: seq<Item>, t: Theme) {
    && |t.ids| == 1 && t.ids[0] in Ids(entries)
    && t.title == Shortened(TopicOf(entries, t.ids[0])) && t.summary == TopicOf(entries, t.ids[0])
  }

  /** Such themes come in the order of their ids. */
  ghost predicate AreFallbacks(entries: seq<Item>, themes: seq<Theme>) {
    && (forall i :: 0 <= i < |themes| ==> IsFallback(entries, themes[i]))
    && (forall i, j :: 0 <= i < j < |themes| ==> Before(themes[i].ids[0], themes[j].ids[0]))
  }

  /** The limit in force: a missing or zero request means the hard cap. */
  function Limit(themeCount: Option<int>): (r: int)
    ensures themeCount in {None, Some(0)} ==> r == 25
    ensures themeCount !in {None, Some(0)} ==> themeCount == Some(r)
  {
    if themeCount.Some? && themeCount.value != 0 then themeCount.value else MAX_THEMES
  }

  /** A slice from the front; a negative bound counts from the end. */
  function Slice(themes: seq<Theme>, n: int): (r: seq<Theme>)
    ensures r <= themes
    ensures n >= 0 ==> |r| == if n < |themes| then n else |themes|
    ensures n < 0 ==> |r| == if -n < |themes| then |themes| + n else 0
  {
    if n < 0 then (if |themes| + n < 0 then [] else themes[..|themes| + n])
    else if n <= |themes| then themes[..n] else themes
  }

  /** The known ids that some group names. */
  method GroupedIds(groups: seq<Group>, known: set<string>) returns (grouped: set<string>)
    ensures grouped == Claimed(IdLists(groups), known)
  {
    grouped := {};
    for n := 0 to |groups|
      invariant grouped == Claimed(IdLists(groups)[..n], known)
    {
      var ids := groups[n].ids;
      forall id ensures Owner(IdLists(groups)[..n + 1], id).Some? <==>
          Owner(IdLists(groups)[..n], id).Some? || id in ids {
        OwnerGrows(IdLists(groups), n, id);
      }
      grouped := grouped + set id | id in ids && id in known;
    }
    assert IdLists(groups)[..|groups|] == IdLists(groups);
  }

  lemma ThemeListsConcat(a: seq<Theme>, b: seq<Theme>)
    ensures ThemeLists(a + b) == ThemeLists(a) + ThemeLists(b)
  {
  }

  /** The themes before any truncation: the model's, made disjoint, and one per forgotten id of the groups. */
  method AllThemes(model: seq<Theme>, entries: seq<Item>, preGroups: seq<Group>)
    returns (themes: seq<Theme>, ghost from: seq<nat>)
    ensures Disjoint(ThemeLists(themes), Ids(entries))
    ensures |from| <= |themes| && ThemesFrom(model, Ids(entries), themes[..|from|], from)
    ensures AreFallbacks(entries, themes[|from|..])
    ensures forall id :: id in Ids(entries) ==>
              (Covered(ThemeLists(themes), id) <==>
               Owner(ThemeLists(model), id).Some? || Owner(IdLists(preGroups), id).Some?)
    ensures NoneLost(ThemeLists(model), Ids(entries), from)
  {
    var known := Ids(entries);
    var kept, source, claimed := Share(ThemeLists(model), known);
    from := source;
    SharedIsDisjoint(ThemeLists(model), known, kept, source);
    var shared := seq(|kept|, i requires 0 <= i < |kept| => model[source[i]].(ids := kept[i]));
    assert ThemeLists(shared) == kept;
    var grouped := GroupedIds(preGroups, known);
    var forgotten := Ordered(grouped - claimed);
    AddSingletons(kept, known, forgotten);
    themes := shared + ThemesOf(entries, forgotten);
    ThemeListsConcat(shared, ThemesOf(entries, forgotten));
    assert themes[..|from|] == shared && themes[|from|..] == ThemesOf(entries, forgotten);
  }

  /**
   The summary: the disjoint themes cut at the limit.  No entry is lost to the cut exactly when there
   was nothing to cut, and there never is while the entries are no more than the limit.
   */
  method CoerceSummary(payload: Option<seq<Theme>>, entries: seq<Item>, preGroups: seq<Group>, themeCount: Option<int>)
    returns (r: Option<seq<Theme>>, ghost full: seq<Theme>, ghost from: seq<nat>)
    ensures r.None? <==> payload.None?
    ensures r.Some? ==> Disjoint(ThemeLists(full), Ids(entries)) && Disjoint(ThemeLists(r.value), Ids(entries))
    ensures r.Some? ==> |from| <= |full| && ThemesFrom(payload.value, Ids(entries), full[..|from|], from)
    ensures r.Some? ==> AreFallbacks(entries, full[|from|..])
    ensures r.Some? ==> forall id :: id in Ids(entries) ==>
              (Covered(ThemeLists(full), id) <==>
               Owner(ThemeLists(payload.value), id).Some? || Owner(IdLists(preGroups), id).Some?)
    ensures r.Some? ==> NoneLost(ThemeLists(payload.value), Ids(entries), from)
    ensures r.Some? ==> r.value == if |full| > Limit(themeCount) then Slice(full, Limit(themeCount)) else full
    ensures r.Some? && |Ids(entries)| <= Limit(themeCount) ==> r.value == full
  {
    full, from := [], [];
    if payload.None? { return None, [], []; }
    var themes;
    themes, from := AllThemes(payload.value, entries, preGroups);
    full := themes;
    NoMoreListsThanIds(ThemeLists(full), Ids(entries));
    var limit := Limit(themeCount);
    if |themes| > limit {
      themes := Slice(themes, limit);
    }
    r := Some(themes);
  }

  /** The number of themes, from the inputs alone: the model's that get an id, and one per id it forgot. */
  ghost function ThemeTotal(model: seq<Theme>, known: set<string>): nat {
    |Winners(ThemeLists(model), known)| + |known - Claimed(ThemeLists(model), known)|
  }

  function Heads(lists: seq<seq<string>>): (r: seq<string>)
    requires forall i :: 0 <= i < |lists| ==> |lists[i]| == 1
    ensures |r| == |lists| && forall i :: 0 <= i < |r| ==> r[i] == lists[i][0]
  {
    seq(|lists|, i requires 0 <= i < |lists| => lists[i][0])
  }

  /** Lists that cover everything: after those shared from the model comes one for each id nobody claimed. */
  lemma RestIsUnclaimed(model: seq<seq<string>>, known: set<string>, lists: seq<seq<string>>, from: seq<nat>)
    requires Partition(lists, known) && |from| <= |lists| && Shared(model, known, lists[..|from|], from)
    requires NoneLost(model, known, from)
    requires forall i :: |from| <= i < |lists| ==> |lists[i]| == 1
    ensures |lists| - |from| == |known - Claimed(model, known)|
  {
    var rest := Heads(lists[|from|..]);
    SharedIsDisjoint(model, known, lists[..|from|], from);
    forall id | id in rest ensures id in known - Claimed(model, known) {
      var i :| 0 <= i < |rest| && rest[i] == id;
      assert id in lists[|from| + i];
      forall k | 0 <= k < |from| ensures id !in lists[..|from|][k] {
        assert id in lists[|from| + i];
      }
    }
    forall id | id in known - Claimed(model, known) ensures id in rest {
      var i :| 0 <= i < |lists| && id in lists[i];
      assert !Covered(lists[..|from|], id);
      assert forall k :: 0 <= k < |from| ==> lists[..|from|][k] == lists[k];
      assert rest[i - |from|] == id;
    }
    forall i, j | 0 <= i < j < |rest| ensures rest[i] != rest[j] {
      assert rest[i] in lists[|from| + i] && rest[j] in lists[|from| + j];
    }
    DistinctCount(rest, known - Claimed(model, known));
  }

  lemma SharedListsOf(model: seq<Theme>, known: set<string>, full: seq<Theme>, from: seq<nat>)
    requires |from| <= |full| && ThemesFrom(model, known, full[..|from|], from)
    ensures Shared(ThemeLists(model), known, ThemeLists(full)[..|from|], from)
  {
    assert ThemeLists(full[..|from|]) == ThemeLists(full)[..|from|];
  }

  lemma FallbackListsOf(entries: seq<Item>, full: seq<Theme>, n: nat)
    requires n <= |full| && AreFallbacks(entries, full[n..])
    ensures forall i :: n <= i < |full| ==> |ThemeLists(full)[i]| == 1
  {
    forall i | n <= i < |full| ensures |ThemeLists(full)[i]| == 1 {
      assert full[i] == full[n..][i - n];
    }
  }

  lemma ThemesAreCounted(model: seq<Theme>, entries: seq<Item>, full: seq<Theme>, from: seq<nat>)
    requires Partition(ThemeLists(full), Ids(entries)) && |from| <= |full|
    requires ThemesFrom(model, Ids(entries), full[..|from|], from) && AreFallbacks(entries, full[|from|..])
    requires NoneLost(ThemeLists(model), Ids(entries), from)
    ensures |full| == ThemeTotal(model, Ids(entries))
  {
    SharedListsOf(model, Ids(entries), full, from);
    FallbackListsOf(entries, full, |from|);
    ListsAreCounted(ThemeLists(model), Ids(entries), ThemeLists(full), from);
  }

  lemma ListsAreCounted(model: seq<seq<string>>, known: set<string>, lists: seq<seq<string>>, from: seq<nat>)
    requires Partition(lists, known) && |from| <= |lists| && Shared(model, known, lists[..|from|], from)
    requires NoneLost(model, known, from)
    requires forall i :: |from| <= i < |lists| ==> |lists[i]| == 1
    ensures |lists| == |Winners(model, known)| + |known - Claimed(model, known)|
  {
    OnePerWinner(model, known, lists[..|from|], from);
    RestIsUnclaimed(model, known, lists, from);
  }

  /** Cutting a theme always loses an entry, so a cut summary is never a partition. */
  lemma CuttingLosesEntries(full: seq<Theme>, n: nat, known: set<string>)
    requires Partition(ThemeLists(full), known)
    ensures Partition(ThemeLists(Slice(full, n)), known) <==> n >= |full|
  {
    if n < |full| {
      var id := full[n].ids[0];
      assert id in ThemeLists(full)[n] && id in known;
      forall i | 0 <= i < n ensures id !in ThemeLists(Slice(full, n))[i] {
        assert ThemeLists(Slice(full, n))[i] == ThemeLists(full)[i];
      }
      assert !Covered(ThemeLists(Slice(full, n)), id);
    }
  }

  /**
   The worker's two calls in a row.  If consolidation answered, every entry is in exactly one theme
   exactly when the summary's themes that get an entry and the entries it forgot are together no more
   than the cap, which is so whenever there are at most 25 entries; if consolidation failed, the
   summary is made without groups.
   */
  method SummariseSession(grouping: Option<seq<Group>>, summary: Option<seq<Theme>>, entries: seq<Item>)
    returns (r: Option<seq<Theme>>, ghost full: seq<Theme>, ghost from: seq<nat>)
    ensures r.None? <==> summary.None?
    ensures r.Some? ==> Disjoint(ThemeLists(r.value), Ids(entries))
    ensures r.Some? && grouping.Some? ==>
              && Partition(ThemeLists(full), Ids(entries))
              && |from| <= |full| && ThemesFrom(summary.value, Ids(entries), full[..|from|], from)
              && AreFallbacks(entries, full[|from|..])
              && r.value == Slice(full, MAX_THEMES)
    ensures r.Some? && grouping.Some? ==>
              (Partition(ThemeLists(r.value), Ids(entries)) <==>
               ThemeTotal(summary.value, Ids(entries)) <= MAX_THEMES)
    ensures r.Some? && grouping.Some? && |Ids(entries)| <= MAX_THEMES ==> Partition(ThemeLists(r.value), Ids(entries))
  {
    var consolidated, _ := CoerceConsolidation(grouping, entries);
    var preGroups := if consolidated.Some? then consolidated.value.groups else [];
    r, full, from := CoerceSummary(summary, entries, preGroups, None);
    if r.Some? && grouping.Some? {
      forall id | id in Ids(entries) ensures Covered(ThemeLists(full), id) {
        assert Covered(IdLists(preGroups), id);
      }
      ThemesAreCounted(summary.value, entries, full, from);
      CuttingLosesEntries(full, MAX_THEMES, Ids(entries));
    }
  }

  // ---------------------------------------------------------------- more themes than the cap

  /** Entry number `i` of a ledger, under an id of its own. */
  function Numbered(i: nat): Item {
    Item(seq(i + 1, _ => 'x'), "topic")
  }

  function Ledger(n: nat): (r: seq<Item>)
    ensures |r| == n && forall i :: 0 <= i < n ==> r[i] == Numbered(i)
  {
    seq(n, i requires i >= 0 => Numbered(i))
  }

  lemma NewestIsNew(n: nat)
    ensures Numbered(n).id !in Ids(Ledger(n))
    ensures Ids(Ledger(n + 1)) == Ids(Ledger(n)) + {Numbered(n).id}
  {
    forall e | e in Ledger(n) ensures e.id != Numbered(n).id {
      var i :| 0 <= i < n && Ledger(n)[i] == e;
      assert |e.id| == i + 1;
    }
    assert Ledger(n + 1) == Ledger(n) + [Numbered(n)];
  }

  lemma {:induction false} LedgerHasDistinctIds(n: nat)
    ensures |Ids(Ledger(n))| == n
  {
    if n > 0 {
      LedgerHasDistinctIds(n - 1);
      NewestIsNew(n - 1);
    }
  }

  /** Lists that each repeat one id are no fewer than the ids they cover. */
  lemma {:induction false} NoFewerListsThanIds(lists: seq<seq<string>>, known: set<string>)
    requires forall i :: 0 <= i < |lists| ==> |lists[i]| == 1
    requires forall id :: id in known ==> Covered(lists, id)
    ensures |known| <= |lists|
  {
    if lists == [] {
      assert known == {};
    } else {
      var init, last := lists[..|lists| - 1], lists[|lists| - 1][0];
      forall id | id in known - {last} ensures Covered(init, id) {
        var i :| 0 <= i < |lists| && id in lists[i];
        assert init[i] == lists[i];
      }
      NoFewerListsThanIds(init, known - {last});
    }
  }

  /** More than 25 entries that neither model groups with one another: the summary loses some, however many. */
  method UngroupedLedgersAreCut(n: nat) returns (r: Option<seq<Theme>>)
    requires n > MAX_THEMES
    ensures |Ids(Ledger(n))| == n
    ensures r.Some? && |r.value| == MAX_THEMES && !Partition(ThemeLists(r.value), Ids(Ledger(n)))
  {
    LedgerHasDistinctIds(n);
    ghost var full, from;
    r, full, from := SummariseSession(Some([]), Some([]), Ledger(n));
    AllFallbacks(Ledger(n), full, from);
    NoFewerListsThanIds(ThemeLists(full), Ids(Ledger(n)));
  }

  lemma {:induction false} NoMoreThan(from: seq<nat>, n: nat)
    requires forall i, j :: 0 <= i < j < |from| ==> from[i] < from[j]
    requires forall i :: 0 <= i < |from| ==> from[i] < n
    ensures |from| <= n
  {
    if from != [] {
      var last := |from| - 1;
      NoMoreThan(from[..last], from[last]);
    }
  }

  /** With nothing from the model every theme is a fallback, and so has one id. */
  lemma AllFallbacks(entries: seq<Item>, full: seq<Theme>, from: seq<nat>)
    requires |from| <= |full| && ThemesFrom([], Ids(entries), full[..|from|], from)
    requires AreFallbacks(entries, full[|from|..])
    ensures forall i :: 0 <= i < |full| ==> |ThemeLists(full)[i]| == 1
  {
    NoMoreThan(from, 0);
    assert full[|from|..] == full;
  }
}

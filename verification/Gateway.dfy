/** The gateway's treatment of model output: normalised, deduplicated entries the API will accept. */
module GatewayExtraction {
  import opened Common
  import opened Evidence
  import opened EvidenceValidation

  datatype Request = Request(revision: string, segments: seq<Segment>)

  datatype Reason = RevisionMismatch | UnknownSegmentId | RangeMismatch

  /** The text functions both services share: folding, and splitting into significant tokens. */
  datatype Lexicon = Lexicon(fold: Folding, tokens: string -> set<string>)

  const SHORT_VALUES := {"lead", "tenor", "baritone", "bass", "coach"}

  // ---------------------------------------------------------------- one entry

  /** Why a reference is refused, if it is. */
  function Refusal(body: Request, r: Reference): (reason: Option<Reason>)
    ensures reason.None? ==> r.revision == body.revision && Known(body.segments, r.ids)
    ensures reason == Some(RevisionMismatch) <==> r.revision != body.revision
    ensures reason == Some(UnknownSegmentId) <==>
              r.revision == body.revision && exists id :: id in r.ids && id !in ById(body.segments)
    ensures reason.None? ==> forall s :: s in Cited(body.segments, r.ids) ==> Overlaps(s, r.start, r.end)
    ensures reason == Some(RangeMismatch) ==>
              && Known(body.segments, r.ids)
              && exists s :: s in Cited(body.segments, r.ids) && !Overlaps(s, r.start, r.end)
  {
    if r.revision != body.revision then Some(RevisionMismatch)
    else if !Known(body.segments, r.ids) then Some(UnknownSegmentId)
    else if exists s :: s in Cited(body.segments, r.ids) && (r.start >= s.end || r.end <= s.start)
        then Some(RangeMismatch)
    else None
  }

  predicate Usable(body: Request, e: Entry) {
    forall r :: r in e.evidence ==> Refusal(body, r).None?
  }

  /** The same citation of the same segments, with exactly the span they have. */
  predicate IsWidened(body: Request, r: Reference, w: Reference) {
    && w.revision == body.revision && w.ids == r.ids
    && w.ids != [] && Known(body.segments, w.ids) && IsHull(body.segments, w)
  }

  predicate IsVerbatim(fold: Folding, value: Option<string>, text: string) {
    value.Some? ==> fold(value.value) != "" && Contains(fold(text), fold(value.value))
  }

  predicate Supported(tokens: string -> set<string>, value: Option<string>, text: string, short: set<string>) {
    value.Some? ==>
      var own, cited := tokens(value.value), tokens(text);
      if own == {} then false
      else if |own| == 1 then own <= short && own <= cited
      else |own * cited| as real / |own| as real >= 0.6
  }

  /**
   A value is supported if it is absent, or its one token is a known short value that the text has too, or
   three fifths of its two or more tokens are in the text.
   */
  lemma SupportIs(tokens: string -> set<string>, value: Option<string>, text: string)
    ensures Supported(tokens, None, text, SHORT_VALUES) && Supported(tokens, None, text, {})
    ensures value.Some? ==>
              var own, cited := tokens(value.value), tokens(text);
              && (own == {} ==> !Supported(tokens, value, text, SHORT_VALUES) && !Supported(tokens, value, text, {}))
              && (forall t :: own == {t} ==>
                    && !Supported(tokens, value, text, {})
                    && (Supported(tokens, value, text, SHORT_VALUES) <==>
                        t in cited && t in {"lead", "tenor", "baritone", "bass", "coach"}))
              && (|own| > 1 ==> (Supported(tokens, value, text, SHORT_VALUES) <==> 5 * |own * cited| >= 3 * |own|))
              && (|own| > 1 ==> (Supported(tokens, value, text, {}) <==> 5 * |own * cited| >= 3 * |own|))
  {
    if value.Some? {
      var own, cited := tokens(value.value), tokens(text);
      if |own| > 1 {
        var r := |own * cited| as real / |own| as real;
        ThreeFifths(r, |own * cited|, |own|);
      }
    }
  }

  lemma ThreeFifths(r: real, i: nat, n: nat)
    requires n > 0 && r * n as real == i as real
    ensures r >= 0.6 <==> 5 * i >= 3 * n
  {
    if r >= 0.6 {
      assert r * n as real >= 0.6 * n as real;
    } else {
      assert r * n as real < 0.6 * n as real;
    }
  }

  /** What a usable entry becomes: only fields its cited text bears out survive. */
  ghost predicate IsNormalised(lex: Lexicon, body: Request, e: Entry, n: Entry)
    requires EntryOk(e) && Usable(body, e)
  {
    && |n.evidence| == |e.evidence|
    && (forall i :: 0 <= i < |e.evidence| ==> IsWidened(body, e.evidence[i], n.evidence[i]))
    && Known(body.segments, AllIds(e.evidence))
    && n.quote == (if IsVerbatim(lex.fold, e.quote, CitedText(body.segments, e.evidence)) then e.quote else None)
    && n.appliesTo == (if Supported(lex.tokens, e.appliesTo, EvidenceText(body, e), SHORT_VALUES) then e.appliesTo
                       else None)
    && n.observed == (if Supported(lex.tokens, e.observed, EvidenceText(body, e), {}) then e.observed else None)
    && n.topic == e.topic && n.interpretation == e.interpretation && n.metadata == e.metadata
  }

  function EvidenceText(body: Request, e: Entry): string
    requires Known(body.segments, AllIds(e.evidence))
  {
    Joined(TextsOf(Cited(body.segments, AllIds(e.evidence))), "\n")
  }

  /** The widened references and the texts they cite, or why the first bad reference is refused. */
  method NormalizeEvidence(body: Request, evidence: seq<Reference>)
    returns (v: Result<(seq<Reference>, seq<string>), Reason>)
    requires forall r :: r in evidence ==> r.ids != []
    ensures v.Ok? <==> forall r :: r in evidence ==> Refusal(body, r).None?
    ensures v.Err? ==> exists k :: 0 <= k < |evidence| && Refusal(body, evidence[k]) == Some(v.error)
                                   && forall j :: 0 <= j < k ==> Refusal(body, evidence[j]).None?
    ensures v.Ok? ==> |v.value.0| == |evidence|
    ensures v.Ok? ==> forall i :: 0 <= i < |evidence| ==> IsWidened(body, evidence[i], v.value.0[i])
    ensures v.Ok? ==> Known(body.segments, AllIds(evidence))
    ensures v.Ok? ==> v.value.1 == TextsOf(Cited(body.segments, AllIds(evidence)))
  {
    var widened, texts := [], [];
    for i := 0 to |evidence|
      invariant |widened| == i
      invariant forall j :: 0 <= j < i ==> Refusal(body, evidence[j]).None? && IsWidened(body, evidence[j], widened[j])
      invariant Known(body.segments, AllIds(evidence[..i]))
      invariant texts == TextsOf(Cited(body.segments, AllIds(evidence[..i])))
    {
      var reason := Refusal(body, evidence[i]);
      if reason.Some? { return Err(reason.value); }
      AllIdsGrow(body.segments, evidence, i);
      var cited := Cited(body.segments, evidence[i].ids);
      widened := widened + [Reference(body.revision, Earliest(cited), Latest(cited), evidence[i].ids)];
      texts := texts + TextsOf(cited);
    }
    assert evidence[..|evidence|] == evidence;
    v := Ok((widened, texts));
  }

  method NormalizeEntry(lex: Lexicon, e: Entry, body: Request) returns (v: Result<Entry, Reason>)
    requires EntryOk(e) && TranscriptOk(body.segments)
    ensures v.Ok? <==> Usable(body, e)
    ensures v.Ok? ==> IsNormalised(lex, body, e, v.value)
    ensures v.Err? ==> exists k :: 0 <= k < |e.evidence| && Refusal(body, e.evidence[k]) == Some(v.error)
                                   && forall j :: 0 <= j < k ==> Refusal(body, e.evidence[j]).None?
  {
    assert forall r :: r in e.evidence ==> ReferenceOk(r);
    var cited := NormalizeEvidence(body, e.evidence);
    if cited.Err? { return Err(cited.error); }
    var (widened, texts) := cited.value;
    var text := Joined(texts, "\n");
    var n := e.(evidence := widened);
    if !IsVerbatim(lex.fold, e.quote, Joined(texts, " ")) { n := n.(quote := None); }
    if !Supported(lex.tokens, e.appliesTo, text, SHORT_VALUES) { n := n.(appliesTo := None); }
    if !Supported(lex.tokens, e.observed, text, {}) { n := n.(observed := None); }
    v := Ok(n);
  }

  /** A quote survives exactly if it folds to something that stands in the folded cited text. */
  lemma QuotesAreVerbatim(lex: Lexicon, body: Request, e: Entry, n: Entry)
    requires EntryOk(e) && Usable(body, e) && IsNormalised(lex, body, e, n)
    ensures e.quote == None ==> n.quote == None
    ensures e.quote.Some? ==>
              var text, quote := lex.fold(CitedText(body.segments, e.evidence)), lex.fold(e.quote.value);
              && (n.quote == e.quote || n.quote == None)
              && (n.quote == e.quote <==> quote != "" && exists before, after :: text == before + quote + after)
  {
    if e.quote.Some? {
      ContainsIsInside(lex.fold(CitedText(body.segments, e.evidence)), lex.fold(e.quote.value));
    }
  }

  // ---------------------------------------------------------------- the other service accepts it

  /** The API's session has the transcript the gateway was given, and a duration that covers it if any. */
  ghost predicate SameTranscript(body: Request, session: SessionView, revisions: map<string, Revision>) {
    && session.current == Some(body.revision)
    && CurrentTranscript(session, revisions) == Some(body.segments)
    && (session.duration.Some? ==> forall s :: s in body.segments ==> s.end <= session.duration.value)
  }

  lemma WidenedIsGood(body: Request, duration: Option<int>, r: Reference, w: Reference)
    requires TranscriptOk(body.segments) && ReferenceOk(r) && IsWidened(body, r, w)
    requires duration.Some? ==> forall s :: s in body.segments ==> s.end <= duration.value
    ensures GoodReference(body.segments, duration, w) && ReferenceOk(w)
  {
    var cited := Cited(body.segments, r.ids);
    HullBounds(cited);
    CitedAreSegments(body.segments, r.ids);
    assert SegmentOk(cited[0]);
  }

  /** Whatever the gateway emits is a valid entry that passes the API's own test. */
  lemma NormalisedIsAcceptable(lex: Lexicon, body: Request, e: Entry, n: Entry, session: SessionView,
                               revisions: map<string, Revision>)
    requires EntryOk(e) && TranscriptOk(body.segments) && Usable(body, e)
    requires IsNormalised(lex, body, e, n) && SameTranscript(body, session, revisions)
    ensures EntryOk(n) && Acceptable(lex.fold, session, revisions, n)
  {
    forall i | 0 <= i < |n.evidence|
      ensures GoodReference(body.segments, session.duration, n.evidence[i]) && ReferenceOk(n.evidence[i])
    {
      WidenedIsGood(body, session.duration, e.evidence[i], n.evidence[i]);
    }
    SameIds(n.evidence, e.evidence);
  }

  // ---------------------------------------------------------------- all entries

  /** Two entries are the same observation when topic and cited segments agree. */
  function Identity(fold: Folding, e: Entry): (string, set<string>) {
    (fold(e.topic), set id | id in AllIds(e.evidence))
  }

  ghost predicate Cites(e: Entry, id: string) {
    exists r :: r in e.evidence && id in r.ids
  }

  /** Two entries are one observation exactly if their folded topics and the sets of cited segments are equal. */
  lemma SameObservation(fold: Folding, a: Entry, b: Entry)
    ensures Identity(fold, a) == Identity(fold, b) <==>
              fold(a.topic) == fold(b.topic) && forall id :: Cites(a, id) <==> Cites(b, id)
  {
    forall id ensures id in Identity(fold, a).1 <==> Cites(a, id) { IdsCited(a.evidence, id); }
    forall id ensures id in Identity(fold, b).1 <==> Cites(b, id) { IdsCited(b.evidence, id); }
    if forall id :: Cites(a, id) <==> Cites(b, id) {
      assert forall id :: id in Identity(fold, a).1 <==> id in Identity(fold, b).1;
    }
    if Identity(fold, a).1 == Identity(fold, b).1 {
      forall id ensures Cites(a, id) <==> Cites(b, id) {
        assert id in Identity(fold, a).1 <==> id in Identity(fold, b).1;
      }
    }
  }

  lemma NormalisedKeepsIdentity(lex: Lexicon, body: Request, e: Entry, n: Entry)
    requires EntryOk(e) && Usable(body, e) && IsNormalised(lex, body, e, n)
    ensures Identity(lex.fold, n) == Identity(lex.fold, e)
  {
    SameIds(n.evidence, e.evidence);
  }

  /** A model entry that is kept: usable, and the first usable one of its identity. */
  ghost predicate IsKept(fold: Folding, body: Request, all: seq<Entry>, k: int) {
    && 0 <= k < |all| && Usable(body, all[k])
    && forall j :: 0 <= j < k && Usable(body, all[j]) ==> Identity(fold, all[j]) != Identity(fold, all[k])
  }

  function Unusable(body: Request, all: seq<Entry>): nat {
    if all == [] then 0
    else Unusable(body, all[..|all| - 1]) + if Usable(body, all[|all| - 1]) then 0 else 1
  }

  /** `kept` are the normalised forms of exactly the kept entries, in order; `at` says where each came from. */
  ghost predicate AreSurvivors(lex: Lexicon, body: Request, all: seq<Entry>, kept: seq<Entry>, at: seq<int>)
    requires forall e :: e in all ==> EntryOk(e)
  {
    && |at| == |kept|
    && (forall i :: 0 <= i < |at| ==>
        IsKept(lex.fold, body, all, at[i]) && IsNormalised(lex, body, all[at[i]], kept[i]))
    && (forall i, j :: 0 <= i < j < |at| ==> at[i] < at[j])
    && (forall k :: IsKept(lex.fold, body, all, k) ==> k in at)
  }

  ghost predicate Counted(body: Request, all: seq<Entry>, kept: nat, rejected: nat, duplicates: nat) {
    rejected == Unusable(body, all) && kept + rejected + duplicates == |all|
  }

  /** The identities of the usable entries. */
  ghost function Seen(fold: Folding, body: Request, all: seq<Entry>): set<(string, set<string>)> {
    set k | 0 <= k < |all| && Usable(body, all[k]) :: Identity(fold, all[k])
  }

  lemma Extend(lex: Lexicon, body: Request, all: seq<Entry>, e: Entry, kept: seq<Entry>, at: seq<int>)
    requires forall x :: x in all ==> EntryOk(x)
    requires EntryOk(e) && AreSurvivors(lex, body, all, kept, at)
    ensures Seen(lex.fold, body, all + [e]) == Seen(lex.fold, body, all) + if Usable(body, e)
              then {Identity(lex.fold, e)} else {}
    ensures !Usable(body, e) || Identity(lex.fold, e) in Seen(lex.fold, body, all) ==>
              AreSurvivors(lex, body, all + [e], kept, at)
    ensures Usable(body, e) && Identity(lex.fold, e) !in Seen(lex.fold, body, all) ==>
              forall n :: IsNormalised(lex, body, e, n) ==>
              AreSurvivors(lex, body, all + [e], kept + [n], at + [|all|])
  {
    var more := all + [e];
    assert more[|all|] == e && forall k :: 0 <= k < |all| ==> more[k] == all[k];
    assert forall k :: 0 <= k < |all| ==> (IsKept(lex.fold, body, more, k) <==> IsKept(lex.fold, body, all, k));
    assert IsKept(lex.fold, body, more, |all|) <==>
        Usable(body, e) && Identity(lex.fold, e) !in Seen(lex.fold, body, all);
  }

  method KeepNew(lex: Lexicon, all: seq<Entry>, body: Request)
    returns (kept: seq<Entry>, rejected: nat, duplicates: nat, ghost at: seq<int>)
    requires TranscriptOk(body.segments) && forall e :: e in all ==> EntryOk(e)
    ensures AreSurvivors(lex, body, all, kept, at) && Counted(body, all, |kept|, rejected, duplicates)
  {
    kept, rejected, duplicates, at := [], 0, 0, [];
    var seen := {};
    for i := 0 to |all|
      invariant AreSurvivors(lex, body, all[..i], kept, at) && Counted(body, all[..i], |kept|, rejected, duplicates)
      invariant seen == Seen(lex.fold, body, all[..i])
    {
      assert all[..i + 1] == all[..i] + [all[i]];
      Extend(lex, body, all[..i], all[i], kept, at);
      var n := NormalizeEntry(lex, all[i], body);
      if n.Err? {
        rejected := rejected + 1;
        continue;
      }
      NormalisedKeepsIdentity(lex, body, all[i], n.value);
      var identity := Identity(lex.fold, n.value);
      if identity in seen {
        duplicates := duplicates + 1;
        continue;
      }
      seen := seen + {identity};
      kept, at := kept + [n.value], at + [i];
    }
    assert all[..|all|] == all;
  }

  datatype Response = Response(entries: seq<Entry>, modelEntries: nat, rejected: nat)

  /** The counts are added to each entry's metadata. */
  function Tagged(e: Entry, modelEntries: nat, rejected: nat): (r: Entry)
    ensures r == e.(metadata := r.metadata)
    ensures r.metadata.Keys == e.metadata.Keys + {"gateway_model_entry_count", "gateway_rejected_entry_count"}
    ensures r.metadata["gateway_model_entry_count"] == modelEntries
    ensures r.metadata["gateway_rejected_entry_count"] == rejected
    ensures forall k :: k in e.metadata && k != "gateway_model_entry_count" && k != "gateway_rejected_entry_count" ==>
              r.metadata[k] == e.metadata[k]
  {
    e.(metadata := e.metadata["gateway_model_entry_count" := modelEntries]["gateway_rejected_entry_count" := rejected])
  }

  /** The entries of the payloads, a payload that fails the schema being `None`. */
  function Flat(payloads: seq<Option<seq<Entry>>>): seq<Entry> {
    if payloads == [] then []
    else
      var last := payloads[|payloads| - 1];
      Flat(payloads[..|payloads| - 1]) + if last.Some? then last.value else []
  }

  /**
   The whole extraction response: an error if any payload fails the schema, otherwise the survivors,
   every one of which the API accepts for a session with that transcript.
   */
  method CoerceEntries(lex: Lexicon, payloads: seq<Option<seq<Entry>>>, body: Request)
    returns (r: Option<Response>, duplicates: nat, ghost kept: seq<Entry>, ghost at: seq<int>)
    requires TranscriptOk(body.segments)
    requires forall p :: p in payloads && p.Some? ==> forall e :: e in p.value ==> EntryOk(e)
    ensures r.None? <==> None in payloads
    ensures r.Some? ==> forall e :: e in Flat(payloads) ==> EntryOk(e)
    ensures r.Some? ==> AreSurvivors(lex, body, Flat(payloads), kept, at)
    ensures r.Some? ==> Counted(body, Flat(payloads), |kept|, r.value.rejected, duplicates)
    ensures r.Some? ==> r.value.modelEntries == |Flat(payloads)| && |r.value.entries| == |kept|
    ensures r.Some? ==> forall i :: 0 <= i < |kept| ==>
              r.value.entries[i] == Tagged(kept[i], r.value.modelEntries, r.value.rejected)
    ensures r.Some? ==>
              forall e, session, revisions :: e in r.value.entries && SameTranscript(body, session, revisions) ==>
              EntryOk(e) && Acceptable(lex.fold, session, revisions, e)
    ensures r.Some? ==> forall i, j :: 0 <= i < j < |r.value.entries| ==>
              Identity(lex.fold, r.value.entries[i]) != Identity(lex.fold, r.value.entries[j])
  {
    kept, at := [], [];
    duplicates := 0;
    var all := [];
    for i := 0 to |payloads|
      invariant all == Flat(payloads[..i]) && forall e :: e in all ==> EntryOk(e)
      invariant None !in payloads[..i]
    {
      if payloads[i].None? { return None, 0, [], []; }
      assert payloads[..i + 1][..i] == payloads[..i];
      all := all + payloads[i].value;
    }
    assert payloads[..|payloads|] == payloads;
    var entries, rejected;
    entries, rejected, duplicates, at := KeepNew(lex, all, body);
    kept := entries;
    r := Some(Response(seq(|entries|, i requires 0 <= i < |entries| => Tagged(entries[i], |all|, rejected)), |all|,
                       rejected));
    SurvivorsAreDistinct(lex, body, all, entries, at);
    forall i, session, revisions | 0 <= i < |entries| && SameTranscript(body, session, revisions)
      ensures EntryOk(r.value.entries[i]) && Acceptable(lex.fold, session, revisions, r.value.entries[i])
    {
      NormalisedIsAcceptable(lex, body, all[at[i]], entries[i], session, revisions);
    }
  }

  /** No two survivors are the same observation. */
  lemma SurvivorsAreDistinct(lex: Lexicon, body: Request, all: seq<Entry>, kept: seq<Entry>, at: seq<int>)
    requires forall e :: e in all ==> EntryOk(e)
    requires AreSurvivors(lex, body, all, kept, at)
    ensures forall i, j :: 0 <= i < j < |kept| ==> Identity(lex.fold, kept[i]) != Identity(lex.fold, kept[j])
  {
    forall i, j | 0 <= i < j < |kept| ensures Identity(lex.fold, kept[i]) != Identity(lex.fold, kept[j]) {
      NormalisedKeepsIdentity(lex, body, all[at[i]], kept[i]);
      NormalisedKeepsIdentity(lex, body, all[at[j]], kept[j]);
      assert IsKept(lex.fold, body, all, at[i]) && IsKept(lex.fold, body, all, at[j]);
    }
  }

  /** Every usable model entry has a survivor with its identity. */
  lemma {:induction false} EveryObservationSurvives(lex: Lexicon, body: Request, all: seq<Entry>, kept: seq<Entry>,
                                                    at: seq<int>, k: nat)
    returns (i: nat)
    requires forall e :: e in all ==> EntryOk(e)
    requires AreSurvivors(lex, body, all, kept, at) && k < |all| && Usable(body, all[k])
    ensures i < |kept| && Identity(lex.fold, kept[i]) == Identity(lex.fold, all[k])
  {
    if IsKept(lex.fold, body, all, k) {
      i :| 0 <= i < |at| && at[i] == k;
      NormalisedKeepsIdentity(lex, body, all[k], kept[i]);
    } else {
      var j: nat :| j < k && Usable(body, all[j]) && Identity(lex.fold, all[j]) == Identity(lex.fold, all[k]);
      i := EveryObservationSurvives(lex, body, all, kept, at, j);
    }
  }
}

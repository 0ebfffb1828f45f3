/** Transcript segments, ledger entries and the spans they cite, as both services see them. */
module Evidence {
  import opened Common

  datatype Segment = Segment(id: string, start: int, end: int, text: string)

  datatype Reference = Reference(revision: string, start: int, end: int, ids: seq<string>)

  datatype Entry = Entry(
    topic: string,
    quote: Option<string>,
    appliesTo: Option<string>,
    observed: Option<string>,
    interpretation: Option<string>,
    evidence: seq<Reference>,
    metadata: map<string, int>)

  /** Whitespace and case folding, a function both services share. */
  type Folding = string -> string

  // ---------------------------------------------------------------- what the schemas enforce

  predicate SegmentOk(s: Segment) {
    0 <= s.start < s.end
  }

  predicate ReferenceOk(r: Reference) {
    0 <= r.start < r.end && r.ids != [] && forall i, j :: 0 <= i < j < |r.ids| ==> r.ids[i] != r.ids[j]
  }

  predicate EntryOk(e: Entry) {
    0 < |e.topic| <= 300 && e.evidence != [] && forall r :: r in e.evidence ==> ReferenceOk(r)
  }

  predicate TranscriptOk(segments: seq<Segment>) {
    forall s :: s in segments ==> SegmentOk(s)
  }

  // ---------------------------------------------------------------- looking segments up

  /** The dictionary of segments; a repeated id keeps its last segment. */
  function ById(segments: seq<Segment>): map<string, Segment> {
    if segments == [] then map[]
    else
      var last := segments[|segments| - 1];
      ById(segments[..|segments| - 1])[last.id := last]
  }

  lemma {:induction false} ByIdHolds(segments: seq<Segment>, id: string)
    requires id in ById(segments)
    ensures ById(segments)[id] in segments && ById(segments)[id].id == id
  {
    if segments[|segments| - 1].id != id {
      ByIdHolds(segments[..|segments| - 1], id);
    }
  }

  /** The segment found is the last one with the id, and there is one for every id that occurs. */
  lemma {:induction false} ByIdIsLast(segments: seq<Segment>, id: string)
    ensures id in ById(segments) <==> exists i :: 0 <= i < |segments| && segments[i].id == id
    ensures id in ById(segments) ==>
              exists i :: 0 <= i < |segments| && segments[i] == ById(segments)[id] && segments[i].id == id
                          && forall k :: i < k < |segments| ==> segments[k].id != id
  {
    if segments != [] {
      var init, last := segments[..|segments| - 1], segments[|segments| - 1];
      ByIdIsLast(init, id);
      if last.id == id {
        assert segments[|segments| - 1] == ById(segments)[id];
      } else if id in ById(init) {
        var i :| 0 <= i < |init| && init[i] == ById(init)[id] && init[i].id == id
                 && forall k :: i < k < |init| ==> init[k].id != id;
        assert segments[i] == ById(segments)[id];
      }
    }
  }

  predicate Known(segments: seq<Segment>, ids: seq<string>) {
    forall id :: id in ids ==> id in ById(segments)
  }

  function Cited(segments: seq<Segment>, ids: seq<string>): seq<Segment>
    requires Known(segments, ids)
  {
    seq(|ids|, i requires 0 <= i < |ids| => ById(segments)[ids[i]])
  }

  lemma CitedAreSegments(segments: seq<Segment>, ids: seq<string>)
    requires Known(segments, ids)
    ensures forall s :: s in Cited(segments, ids) ==> s in segments
  {
    forall i | 0 <= i < |ids| ensures Cited(segments, ids)[i] in segments {
      ByIdHolds(segments, ids[i]);
    }
  }

  function Earliest(cited: seq<Segment>): int
    requires cited != []
  {
    var rest := cited[1..];
    if rest == [] || cited[0].start < Earliest(rest) then cited[0].start else Earliest(rest)
  }

  function Latest(cited: seq<Segment>): int
    requires cited != []
  {
    var rest := cited[1..];
    if rest == [] || cited[0].end > Latest(rest) then cited[0].end else Latest(rest)
  }

  /** The two bounds enclose every cited segment and are attained. */
  lemma {:induction false} HullBounds(cited: seq<Segment>)
    requires cited != []
    ensures forall s :: s in cited ==> Earliest(cited) <= s.start && s.end <= Latest(cited)
    ensures exists s :: s in cited && s.start == Earliest(cited)
    ensures exists s :: s in cited && s.end == Latest(cited)
  {
    assert cited == [cited[0]] + cited[1..];
    if cited[1..] != [] {
      HullBounds(cited[1..]);
    }
  }

  /** A reference that spans exactly the segments it cites. */
  predicate IsHull(segments: seq<Segment>, r: Reference)
    requires Known(segments, r.ids) && r.ids != []
  {
    r.start == Earliest(Cited(segments, r.ids)) && r.end == Latest(Cited(segments, r.ids))
  }

  predicate Overlaps(s: Segment, start: int, end: int) {
    s.start < end && s.end > start
  }

  // ---------------------------------------------------------------- cited text

  /** The segment ids an entry cites, in order. */
  function AllIds(evidence: seq<Reference>): seq<string> {
    if evidence == [] then [] else AllIds(evidence[..|evidence| - 1]) + evidence[|evidence| - 1].ids
  }

  function TextsOf(cited: seq<Segment>): seq<string> {
    seq(|cited|, i requires 0 <= i < |cited| => cited[i].text)
  }

  lemma AllIdsGrow(segments: seq<Segment>, evidence: seq<Reference>, i: nat)
    requires i < |evidence| && Known(segments, AllIds(evidence[..i])) && Known(segments, evidence[i].ids)
    ensures AllIds(evidence[..i + 1]) == AllIds(evidence[..i]) + evidence[i].ids
    ensures Known(segments, AllIds(evidence[..i + 1]))
    ensures TextsOf(Cited(segments, AllIds(evidence[..i + 1])))
         == TextsOf(Cited(segments, AllIds(evidence[..i]))) + TextsOf(Cited(segments, evidence[i].ids))
  {
    assert evidence[..i + 1][..i] == evidence[..i];
  }

  lemma {:induction false} AllIdsKnown(segments: seq<Segment>, evidence: seq<Reference>)
    requires forall r :: r in evidence ==> Known(segments, r.ids)
    ensures Known(segments, AllIds(evidence))
  {
    if evidence != [] {
      assert evidence[|evidence| - 1] in evidence;
      AllIdsKnown(segments, evidence[..|evidence| - 1]);
    }
  }

  /** The text a quote must come from. */
  function CitedText(segments: seq<Segment>, evidence: seq<Reference>): string
    requires Known(segments, AllIds(evidence))
  {
    Joined(TextsOf(Cited(segments, AllIds(evidence))), " ")
  }

  function Joined(texts: seq<string>, separator: string): string {
    if texts == [] then ""
    else if |texts| == 1 then texts[0]
    else texts[0] + separator + Joined(texts[1..], separator)
  }

  /** Texts are joined in order, the separator between any two and nowhere else. */
  lemma {:induction false} JoinedGrows(texts: seq<string>, separator: string, last: string)
    ensures Joined([], separator) == "" && Joined([last], separator) == last
    ensures texts != [] ==> Joined(texts + [last], separator) == Joined(texts, separator) + separator + last
  {
    if |texts| > 1 {
      JoinedGrows(texts[1..], separator, last);
      assert (texts + [last])[1..] == texts[1..] + [last];
    } else if |texts| == 1 {
      assert (texts + [last])[1..] == [last];
    }
  }

  lemma {:induction false} IdsCited(evidence: seq<Reference>, id: string)
    ensures id in AllIds(evidence) <==> exists r :: r in evidence && id in r.ids
  {
    if evidence != [] {
      assert evidence == evidence[..|evidence| - 1] + [evidence[|evidence| - 1]];
      IdsCited(evidence[..|evidence| - 1], id);
    }
  }

  /** A part stands somewhere in the text, with something, perhaps nothing, before and after it. */
  lemma ContainsIsInside(text: string, part: string)
    ensures Contains(text, part) <==> exists before, after :: text == before + part + after
  {
    if Contains(text, part) {
      var i :| 0 <= i <= |text| && part <= text[i..];
      assert text == text[..i] + part + text[i + |part|..];
    }
    if before, after :| text == before + part + after {
      assert text[|before|..] == part + after;
    }
  }

  predicate Contains(text: string, part: string) {
    exists i {:trigger text[i..]} :: 0 <= i <= |text| && part <= text[i..]
  }

  /** The cited ids depend on nothing but the ids of the references. */
  lemma {:induction false} SameIds(a: seq<Reference>, b: seq<Reference>)
    requires |a| == |b| && forall i :: 0 <= i < |a| ==> a[i].ids == b[i].ids
    ensures AllIds(a) == AllIds(b)
  {
    if a != [] {
      SameIds(a[..|a| - 1], b[..|b| - 1]);
    }
  }
}

/** The API's acceptance test for a new ledger entry. */
module EvidenceValidation {
  import opened Common
  import opened Evidence

  datatype Revision = Revision(session: string, segments: seq<Segment>)

  datatype SessionView = SessionView(id: string, current: Option<string>, duration: Option<int>)

  datatype Fault =
    | SeveralRevisions | NotCurrent | ForeignRevision | BeyondDuration | UnknownSegment | NotOverlapping
    | StartsEarly | EndsLate | StartsLate | EndsEarly | QuoteAbsent

  predicate RevisionsOk(revisions: map<string, Revision>) {
    forall id :: id in revisions ==> TranscriptOk(revisions[id].segments)
  }

  /** The segments of the session's current revision, if it has one of its own. */
  function CurrentTranscript(session: SessionView, revisions: map<string, Revision>): (r: Option<seq<Segment>>)
    ensures r.Some? && RevisionsOk(revisions) ==> TranscriptOk(r.value)
  {
    match session.current
    case None => None
    case Some(id) =>
      if id in revisions && revisions[id].session == session.id then Some(revisions[id].segments) else None
  }

  /** An accepted reference is exactly the hull of the known segments it cites. */
  predicate GoodReference(segments: seq<Segment>, duration: Option<int>, r: Reference) {
    && (duration.Some? ==> r.end <= duration.value)
    && r.ids != [] && Known(segments, r.ids) && IsHull(segments, r)
  }

  /** A quote, when there is one, is found in the text the entry cites. */
  predicate QuoteFound(fold: Folding, segments: seq<Segment>, e: Entry) {
    e.quote.Some? && e.quote.value != "" ==>
      && Known(segments, AllIds(e.evidence))
      && Contains(fold(CitedText(segments, e.evidence)), fold(e.quote.value))
  }

  /** An accepted entry: good references to the current revision, and an honest quote. */
  ghost predicate Acceptable(fold: Folding, session: SessionView, revisions: map<string, Revision>, e: Entry) {
    && e.evidence != []
    && (forall r :: r in e.evidence ==> session.current == Some(r.revision))
    && CurrentTranscript(session, revisions).Some?
    && (forall r :: r in e.evidence ==> GoodReference(CurrentTranscript(session, revisions).value, session.duration, r))
    && QuoteFound(fold, CurrentTranscript(session, revisions).value, e)
  }

  /** The checks on one reference, in the order the API makes them. */
  method CheckReference(session: SessionView, revisions: map<string, Revision>, r: Reference)
    returns (v: Result<seq<Segment>, Fault>)
    requires RevisionsOk(revisions) && ReferenceOk(r) && session.current == Some(r.revision)
    ensures v.Ok? <==>
              && CurrentTranscript(session, revisions).Some?
              && GoodReference(CurrentTranscript(session, revisions).value, session.duration, r)
    ensures v.Ok? ==> v.value == Cited(CurrentTranscript(session, revisions).value, r.ids)
  {
    if r.revision !in revisions || revisions[r.revision].session != session.id { return Err(ForeignRevision); }
    if session.duration.Some? && r.end > session.duration.value { return Err(BeyondDuration); }
    var segments := revisions[r.revision].segments;
    if !Known(segments, r.ids) { return Err(UnknownSegment); }
    var chosen := Cited(segments, r.ids);
    HullBounds(chosen);
    CitedAreSegments(segments, r.ids);
    if exists s :: s in chosen && !Overlaps(s, r.start, r.end) { return Err(NotOverlapping); }
    if r.start < Earliest(chosen) { return Err(StartsEarly); }
    if r.end > Latest(chosen) { return Err(EndsLate); }
    if r.start > Earliest(chosen) { return Err(StartsLate); }
    if r.end < Latest(chosen) { return Err(EndsEarly); }
    v := Ok(chosen);
  }

  /** All references must name one revision, and that the current one. */
  method CheckRevisions(session: SessionView, e: Entry) returns (fault: Option<Fault>)
    ensures fault.None? <==> e.evidence != [] && forall r :: r in e.evidence ==> session.current == Some(r.revision)
  {
    var named := set r | r in e.evidence :: r.revision;
    ghost var agreed := e.evidence != [] && forall r :: r in e.evidence ==> session.current == Some(r.revision);
    if agreed {
      assert e.evidence[0].revision in named;
      assert named == {session.current.value};
    }
    if |named| != 1 {
      return Some(SeveralRevisions);
    }
    if session.current.None? || named != {session.current.value} { return Some(NotCurrent); }
    fault := None;
    assert forall r :: r in e.evidence ==> r.revision in named;
  }

  /** The checks on every reference, collecting the text they cite. */
  method CheckReferences(session: SessionView, revisions: map<string, Revision>, evidence: seq<Reference>)
    returns (v: Result<seq<string>, Fault>)
    requires RevisionsOk(revisions) && evidence != []
    requires forall r :: r in evidence ==> ReferenceOk(r) && session.current == Some(r.revision)
    ensures v.Ok? <==>
              && CurrentTranscript(session, revisions).Some?
              && forall r :: r in evidence ==>
                  GoodReference(CurrentTranscript(session, revisions).value, session.duration, r)
    ensures v.Ok? ==> Known(CurrentTranscript(session, revisions).value, AllIds(evidence))
    ensures v.Ok? ==> v.value == TextsOf(Cited(CurrentTranscript(session, revisions).value, AllIds(evidence)))
  {
    var texts := [];
    ghost var current := CurrentTranscript(session, revisions);
    for i := 0 to |evidence|
      invariant i > 0 ==> current.Some?
      invariant current.Some? ==> forall j :: 0 <= j < i ==> GoodReference(current.value, session.duration, evidence[j])
      invariant current.Some? ==> Known(current.value, AllIds(evidence[..i]))
      invariant current.Some? ==> texts == TextsOf(Cited(current.value, AllIds(evidence[..i])))
    {
      var one := CheckReference(session, revisions, evidence[i]);
      if one.Err? { return Err(one.error); }
      AllIdsGrow(current.value, evidence, i);
      texts := texts + TextsOf(one.value);
    }
    assert evidence[..|evidence|] == evidence;
    v := Ok(texts);
  }

  /** The API accepts an entry exactly when it is acceptable. */
  method ValidateEvidence(fold: Folding, session: SessionView, revisions: map<string, Revision>, e: Entry)
    returns (fault: Option<Fault>)
    requires RevisionsOk(revisions) && EntryOk(e)
    ensures fault.None? <==> Acceptable(fold, session, revisions, e)
  {
    fault := CheckRevisions(session, e);
    if fault.Some? { return; }
    var texts := CheckReferences(session, revisions, e.evidence);
    if texts.Err? { return Some(texts.error); }
    if e.quote.Some? && e.quote.value != "" {
      if !Contains(fold(Joined(texts.value, " ")), fold(e.quote.value)) { return Some(QuoteAbsent); }
    }
  }
}

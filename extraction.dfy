/** Segment extraction: the nested scan in `process_sentiment_data`
    (backend/processors/sentiment_processor.py) that walks the prediction
    items, their results, the prosody and language channels, the speaker
    groups and their spans, and appends one record per span to `data`.

    Each loop of the scan is a left fold over its sequence, written as a
    function (the specification) and as a method with a loop (the model of
    the code), the method proved equal to the function. */
module Extraction {
  import opened Common
  import opened Payload

  /** The two recognised channels of a result item. */
  datatype ChannelKind = Prosody | Language

  /** The record of one span: the prosody channel ranks the span's
      `emotions`, the language channel its `sentiment`. */
  function SegmentOf(kind: ChannelKind, speakerId: Option<string>, span: Span): Segment
  {
    MakeSegment(speakerId, span, if kind == Prosody then span.emotions else span.sentiment)
  }

  /** The dedup key `(speaker_id, start_time, end_time)`. */
  predicate SameKey(a: Segment, b: Segment)
  {
    a.speaker == b.speaker && a.start == b.start && a.end == b.end
  }

  /** `any(d[...] == ... for d in data)`. */
  predicate HasKey(data: seq<Segment>, s: Segment)
  {
    exists i :: 0 <= i < |data| && SameKey(data[i], s)
  }

  /** How many collected records carry the key of `s`. */
  function KeyCount(data: seq<Segment>, s: Segment): (n: nat)
    ensures n <= |data|
    ensures n == 0 <==> !HasKey(data, s)
  {
    if data == [] then 0
    else
      var n := KeyCount(data[..|data| - 1], s) + (if SameKey(data[|data| - 1], s) then 1 else 0);
      assert forall i :: 0 <= i < |data| - 1 ==> data[..|data| - 1][i] == data[i];
      n
  }

  /** No two collected records share a key. */
  ghost predicate KeysDistinct(data: seq<Segment>)
  {
    forall i, j :: 0 <= i < j < |data| ==> !SameKey(data[i], data[j])
  }

  /** One span: a prosody span is always appended; a language span only
      when no collected record has its key yet. */
  function AddSpan(kind: ChannelKind, data: seq<Segment>, speakerId: Option<string>, span: Span): seq<Segment>
  {
    var seg := SegmentOf(kind, speakerId, span);
    if kind == Language && HasKey(data, seg) then data else data + [seg]
  }

  /** The loop over a speaker group's spans. */
  function ScanSpans(kind: ChannelKind, data: seq<Segment>, speakerId: Option<string>, spans: seq<Span>): (r: seq<Segment>)
    ensures data <= r
    ensures SlotsFit(data) ==> SlotsFit(r)
    decreases |spans|
  {
    if spans == [] then data
    else AddSpan(kind, ScanSpans(kind, data, speakerId, spans[..|spans| - 1]), speakerId, spans[|spans| - 1])
  }

  /** One speaker group: its spans, when it has a `predictions` list. */
  function ScanGroup(kind: ChannelKind, data: seq<Segment>, group: SpeakerGroup): (r: seq<Segment>)
    ensures data <= r
    ensures SlotsFit(data) ==> SlotsFit(r)
  {
    match group.predictions
    case None => data
    case Some(spans) => ScanSpans(kind, data, group.id, spans)
  }

  /** The loop over a channel's `grouped_predictions`. */
  function ScanGroups(kind: ChannelKind, data: seq<Segment>, groups: seq<SpeakerGroup>): (r: seq<Segment>)
    ensures data <= r
    ensures SlotsFit(data) ==> SlotsFit(r)
    decreases |groups|
  {
    if groups == [] then data
    else ScanGroup(kind, ScanGroups(kind, data, groups[..|groups| - 1]), groups[|groups| - 1])
  }

  /** A channel is scanned only when present and carrying
      `grouped_predictions`. */
  function ScanChannel(kind: ChannelKind, data: seq<Segment>, channel: Option<Channel>): (r: seq<Segment>)
    ensures data <= r
    ensures SlotsFit(data) ==> SlotsFit(r)
  {
    match channel
    case None => data
    case Some(c) =>
      match c.groupedPredictions
      case None => data
      case Some(groups) => ScanGroups(kind, data, groups)
  }

  /** One result item: its prosody channel first, then its language
      channel. */
  function ScanResult(data: seq<Segment>, item: ResultItem): (r: seq<Segment>)
    ensures data <= r
    ensures SlotsFit(data) ==> SlotsFit(r)
  {
    ScanChannel(Language, ScanChannel(Prosody, data, item.prosody), item.language)
  }

  /** The loop over `results.predictions`. */
  function ScanResults(data: seq<Segment>, items: seq<ResultItem>): (r: seq<Segment>)
    ensures data <= r
    ensures SlotsFit(data) ==> SlotsFit(r)
    decreases |items|
  {
    if items == [] then data
    else ScanResult(ScanResults(data, items[..|items| - 1]), items[|items| - 1])
  }

  /** A wrapper object is scanned only when it has `source`, `results` and
      `results.predictions`. */
  function ScanItem(data: seq<Segment>, item: PredictionItem): (r: seq<Segment>)
    ensures data <= r
    ensures SlotsFit(data) ==> SlotsFit(r)
  {
    if item.hasSource && item.results.Some? then ScanResults(data, item.results.value) else data
  }

  /** The loop over the payload's items. */
  function ScanItems(data: seq<Segment>, items: seq<PredictionItem>): (r: seq<Segment>)
    ensures data <= r
    ensures SlotsFit(data) ==> SlotsFit(r)
    decreases |items|
  {
    if items == [] then data
    else ScanItem(ScanItems(data, items[..|items| - 1]), items[|items| - 1])
  }

  /** All records collected from a payload: only a list payload is scanned;
      a mapping, or nothing, yields no record. */
  function Extract(p: RawPayload): (r: seq<Segment>)
    ensures SlotsFit(r)
  {
    match p
    case List(items) => ScanItems([], items)
    case _ => []
  }

  // ---------------------------------------------------------------------
  // Properties of the dedup rule

  /** One span adds at most one record and never touches earlier ones; a
      prosody span always adds its record; a language span adds one exactly
      when its key is new, and afterwards exactly one record carries a key
      that no record carried before. */
  lemma AddSpanDedup(kind: ChannelKind, data: seq<Segment>, speakerId: Option<string>, span: Span)
    ensures var r := AddSpan(kind, data, speakerId, span);
      var seg := SegmentOf(kind, speakerId, span);
      && data <= r
      && HasKey(r, seg)
      && (kind == Prosody ==> |r| == |data| + 1 && r[|data|] == seg)
      && (kind == Language ==> (|r| == |data| + 1 <==> !HasKey(data, seg)))
      && (|r| == |data| + 1 ==> r[|data|] == seg)
      && (|r| == |data| || |r| == |data| + 1)
      && (kind == Language && !HasKey(data, seg) ==> KeyCount(r, seg) == 1)
      && (kind == Language && HasKey(data, seg) ==> KeyCount(r, seg) == KeyCount(data, seg))
  {
    var r := AddSpan(kind, data, speakerId, span);
    var seg := SegmentOf(kind, speakerId, span);
    if |r| == |data| + 1 {
      assert r[..|r| - 1] == data;
      assert SameKey(r[|data|], seg);
    }
  }

  /** Appending a record adds one to the count of its key only. */
  lemma KeyCountAppend(data: seq<Segment>, x: Segment, s: Segment)
    ensures KeyCount(data + [x], s) == KeyCount(data, s) + (if SameKey(x, s) then 1 else 0)
  {
    assert (data + [x])[..|data|] == data;
  }

  /** Scanning the spans of one speaker group on the language channel,
      whatever was collected before (the prosody records may already repeat
      a key): a key already present keeps its number of records, and a new
      key ends up on at most one record. */
  lemma {:induction false} LanguageSpansKeyCount(data: seq<Segment>, speakerId: Option<string>, spans: seq<Span>, s: Segment)
    ensures var r := ScanSpans(Language, data, speakerId, spans);
      && (HasKey(data, s) ==> KeyCount(r, s) == KeyCount(data, s))
      && (!HasKey(data, s) ==> KeyCount(r, s) <= 1)
    decreases |spans|
  {
    if spans != [] {
      var init := spans[..|spans| - 1];
      var last := spans[|spans| - 1];
      var before := ScanSpans(Language, data, speakerId, init);
      var seg := SegmentOf(Language, speakerId, last);
      var r := AddSpan(Language, before, speakerId, last);
      assert ScanSpans(Language, data, speakerId, spans) == r;
      LanguageSpansKeyCount(data, speakerId, init, s);
      if !HasKey(before, seg) {
        assert r == before + [seg];
        KeyCountAppend(before, seg, s);
        if SameKey(seg, s) {
          assert !HasKey(data, s) by {
            if HasKey(data, s) {
              HasKeyGrows(data, before, s);
            }
          }
        }
      }
    }
  }

  /** The same for a whole language channel, group after group. */
  lemma {:induction false} LanguageGroupsKeyCount(data: seq<Segment>, groups: seq<SpeakerGroup>, s: Segment)
    ensures var r := ScanGroups(Language, data, groups);
      && (HasKey(data, s) ==> KeyCount(r, s) == KeyCount(data, s))
      && (!HasKey(data, s) ==> KeyCount(r, s) <= 1)
    decreases |groups|
  {
    if groups != [] {
      var mid := ScanGroups(Language, data, groups[..|groups| - 1]);
      var g := groups[|groups| - 1];
      LanguageGroupsKeyCount(data, groups[..|groups| - 1], s);
      if g.predictions.Some? {
        LanguageSpansKeyCount(mid, g.id, g.predictions.value, s);
        if HasKey(data, s) {
          HasKeyGrows(data, mid, s);
        }
      }
    }
  }

  /** Scanning a language channel's spans never creates a second record
      with a key already collected. */
  lemma {:induction false} LanguageSpansKeepKeysDistinct(data: seq<Segment>, speakerId: Option<string>, spans: seq<Span>)
    requires KeysDistinct(data)
    ensures KeysDistinct(ScanSpans(Language, data, speakerId, spans))
    decreases |spans|
  {
    if spans != [] {
      var before := ScanSpans(Language, data, speakerId, spans[..|spans| - 1]);
      LanguageSpansKeepKeysDistinct(data, speakerId, spans[..|spans| - 1]);
      var seg := SegmentOf(Language, speakerId, spans[|spans| - 1]);
      var r := AddSpan(Language, before, speakerId, spans[|spans| - 1]);
      if !HasKey(before, seg) {
        assert r == before + [seg];
        forall i, j | 0 <= i < j < |r| ensures !SameKey(r[i], r[j]) {
          if j == |before| {
            assert r[i] == before[i];
          }
        }
      }
    }
  }

  /** The same for a whole language channel. */
  lemma {:induction false} LanguageGroupsKeepKeysDistinct(data: seq<Segment>, groups: seq<SpeakerGroup>)
    requires KeysDistinct(data)
    ensures KeysDistinct(ScanGroups(Language, data, groups))
    decreases |groups|
  {
    if groups != [] {
      LanguageGroupsKeepKeysDistinct(data, groups[..|groups| - 1]);
      var g := groups[|groups| - 1];
      if g.predictions.Some? {
        LanguageSpansKeepKeysDistinct(ScanGroups(Language, data, groups[..|groups| - 1]), g.id, g.predictions.value);
      }
    }
  }

  /** After a language channel is scanned, the key of each of its spans is
      among the collected records. */
  lemma {:induction false} LanguageSpansAllKeyed(data: seq<Segment>, speakerId: Option<string>, spans: seq<Span>, k: nat)
    requires k < |spans|
    ensures HasKey(ScanSpans(Language, data, speakerId, spans), SegmentOf(Language, speakerId, spans[k]))
    decreases |spans|
  {
    var init := spans[..|spans| - 1];
    var last := spans[|spans| - 1];
    var before := ScanSpans(Language, data, speakerId, init);
    var r := AddSpan(Language, before, speakerId, last);
    assert ScanSpans(Language, data, speakerId, spans) == r;
    assert before <= r && HasKey(r, SegmentOf(Language, speakerId, last)) by {
      AddSpanDedup(Language, before, speakerId, last);
    }
    if k < |spans| - 1 {
      LanguageSpansAllKeyed(data, speakerId, init, k);
      assert init[k] == spans[k];
      HasKeyGrows(before, r, SegmentOf(Language, speakerId, spans[k]));
    }
  }

  /** After a whole language channel is scanned, the key of every span of
      every speaker group is among the collected records. */
  lemma {:induction false} LanguageGroupsAllKeyed(data: seq<Segment>, groups: seq<SpeakerGroup>, j: nat, k: nat)
    requires j < |groups| && groups[j].predictions.Some? && k < |groups[j].predictions.value|
    ensures HasKey(ScanGroups(Language, data, groups), SegmentOf(Language, groups[j].id, groups[j].predictions.value[k]))
    decreases |groups|
  {
    var init := groups[..|groups| - 1];
    var g := groups[|groups| - 1];
    var mid := ScanGroups(Language, data, init);
    var r := ScanGroups(Language, data, groups);
    assert r == ScanGroup(Language, mid, g);
    var seg := SegmentOf(Language, groups[j].id, groups[j].predictions.value[k]);
    if j == |groups| - 1 {
      LanguageSpansAllKeyed(mid, g.id, g.predictions.value, k);
    } else {
      assert init[j] == groups[j];
      LanguageGroupsAllKeyed(data, init, j, k);
      HasKeyGrows(mid, r, seg);
    }
  }

  /** A key held by a prefix is held by the whole sequence. */
  lemma HasKeyGrows(a: seq<Segment>, b: seq<Segment>, seg: Segment)
    requires a <= b && HasKey(a, seg)
    ensures HasKey(b, seg)
  {
    var i :| 0 <= i < |a| && SameKey(a[i], seg);
    assert b[i] == a[i];
  }

  // ---------------------------------------------------------------------
  // The scan as the source writes it: nested loops appending to `data`

  method CollectSpans(kind: ChannelKind, data: seq<Segment>, speakerId: Option<string>, spans: seq<Span>)
    returns (out: seq<Segment>)
    ensures out == ScanSpans(kind, data, speakerId, spans)
  {
    out := data;
    for i := 0 to |spans|
      invariant out == ScanSpans(kind, data, speakerId, spans[..i])
    {
      assert spans[..i + 1][..i] == spans[..i];
      var seg := SegmentOf(kind, speakerId, spans[i]);
      if kind == Prosody || !HasKey(out, seg) {
        out := out + [seg];
      }
    }
    assert spans[..|spans|] == spans;
  }

  method CollectGroups(kind: ChannelKind, data: seq<Segment>, groups: seq<SpeakerGroup>)
    returns (out: seq<Segment>)
    ensures out == ScanGroups(kind, data, groups)
  {
    out := data;
    for i := 0 to |groups|
      invariant out == ScanGroups(kind, data, groups[..i])
    {
      assert groups[..i + 1][..i] == groups[..i];
      var group := groups[i];
      if group.predictions.Some? {
        out := CollectSpans(kind, out, group.id, group.predictions.value);
      }
    }
    assert groups[..|groups|] == groups;
  }

  method CollectChannel(kind: ChannelKind, data: seq<Segment>, channel: Option<Channel>)
    returns (out: seq<Segment>)
    ensures out == ScanChannel(kind, data, channel)
  {
    out := data;
    if channel.Some? && channel.value.groupedPredictions.Some? {
      out := CollectGroups(kind, out, channel.value.groupedPredictions.value);
    }
  }

  method CollectResults(data: seq<Segment>, items: seq<ResultItem>)
    returns (out: seq<Segment>)
    ensures out == ScanResults(data, items)
  {
    out := data;
    for i := 0 to |items|
      invariant out == ScanResults(data, items[..i])
    {
      assert items[..i + 1][..i] == items[..i];
      out := CollectChannel(Prosody, out, items[i].prosody);
      out := CollectChannel(Language, out, items[i].language);
    }
    assert items[..|items|] == items;
  }

  /** The whole scan of `process_sentiment_data`, from an empty `data`. */
  method CollectSegments(p: RawPayload) returns (data: seq<Segment>)
    ensures data == Extract(p)
  {
    data := [];
    if p.List? && |p.items| > 0 {
      var items := p.items;
      for i := 0 to |items|
        invariant data == ScanItems([], items[..i])
      {
        assert items[..i + 1][..i] == items[..i];
        var item := items[i];
        if item.hasSource && item.results.Some? {
          data := CollectResults(data, item.results.value);
        }
      }
      assert items[..|items|] == items;
    }
  }
}

/** The decoded vendor prediction payload and the canonical segment record
    built from one of its timed spans (backend/processors/sentiment_processor.py,
    the body of `process_sentiment_data`).

    A JSON key that may be missing is an `Option`; the engine's defaults for
    missing keys are applied by the functions below. */
module Payload {
  import opened Common

  /** An emotion name as JSON delivers it: normally a string, occasionally
      an integer. */
  datatype Name = Str(s: string) | Num(n: int)

  /** One entry of a span's `emotions` (prosody) or `sentiment` (language)
      list. */
  datatype Prediction = Prediction(name: Option<Name>, score: Option<real>)

  /** One timed span: `time.begin`, `time.end`, `text` and the two ranked
      lists a span may carry. A missing `time` object is a span whose
      `begin` and `end` are both `None`. */
  datatype Span = Span(
    begin: Option<real>,
    end: Option<real>,
    text: Option<string>,
    emotions: Option<seq<Prediction>>,
    sentiment: Option<seq<Prediction>>)

  /** One entry of `grouped_predictions`: a speaker `id` and its spans. */
  datatype SpeakerGroup = SpeakerGroup(id: Option<string>, predictions: Option<seq<Span>>)

  /** `models.prosody` or `models.language`: its `grouped_predictions`. */
  datatype Channel = Channel(groupedPredictions: Option<seq<SpeakerGroup>>)

  /** One entry of `results.predictions`: the channels under `models`
      (a missing `models` object has neither). */
  datatype ResultItem = ResultItem(prosody: Option<Channel>, language: Option<Channel>)

  /** One wrapper object `{source, results}`: whether `source` is present,
      and `results.predictions` when both `results` and its `predictions`
      key are present. */
  datatype PredictionItem = PredictionItem(hasSource: bool, results: Option<seq<ResultItem>>)

  /** The loaded predictions: nothing (the file could not be read), a JSON
      object with `size` keys, or a JSON list. */
  datatype RawPayload = Missing | Mapping(size: nat) | List(items: seq<PredictionItem>)

  /** Python truthiness of the loaded predictions. */
  predicate IsTruthy(p: RawPayload)
  {
    match p
    case Missing => false
    case Mapping(size) => size > 0
    case List(items) => |items| > 0
  }

  /** One occupied slot `sentiment_i` / `sentiment_score_i`. */
  datatype Slot = Slot(name: Name, score: real)

  /** The canonical segment record. */
  datatype Segment = Segment(speaker: string, start: real, end: real, text: string, slots: seq<Slot>)

  /** A segment holds at most this many slots. */
  const MaxSlots: nat := 15

  /** Every segment has at most fifteen slots, which the fifteen slot columns
      hold. */
  ghost predicate SlotsFit(segs: seq<Segment>)
  {
    forall j :: 0 <= j < |segs| ==> |segs[j].slots| <= MaxSlots
  }

  /** The sort key `x.get("score", 0)`. */
  function ScoreOf(p: Prediction): real
  {
    match p.score
    case Some(v) => v
    case None => 0.0
  }

  /** `name` defaults to "Unknown" and `score` to 0. */
  function SlotOf(p: Prediction): (r: Slot)
    ensures r.score == ScoreOf(p)
    ensures p.name.None? ==> r.name == Str("Unknown")
    ensures p.name.Some? ==> r.name == p.name.value
  {
    Slot(if p.name.Some? then p.name.value else Str("Unknown"), ScoreOf(p))
  }

  function SlotsOf(ps: seq<Prediction>): (r: seq<Slot>)
    ensures |r| == |ps|
    ensures forall i :: 0 <= i < |ps| ==> r[i] == SlotOf(ps[i])
  {
    if ps == [] then [] else [SlotOf(ps[0])] + SlotsOf(ps[1..])
  }

  function SlotScore(s: Slot): real { s.score }

  /** The slots of one span: its list sorted by score, largest first, and
      cut to the first fifteen entries. The source sorts the raw entries by
      `get("score", 0)` and then reads `name` and `score` with their
      defaults; since that key is the defaulted score, sorting the
      defaulted slots gives the same sequence. */
  function RankSlots(ps: Option<seq<Prediction>>): (r: seq<Slot>)
    ensures ps.None? ==> r == []
    ensures ps.Some? ==> |r| == if |ps.value| < MaxSlots then |ps.value| else MaxSlots
    ensures NonIncreasing(r, SlotScore)
    ensures ps.Some? ==> multiset(r) <= multiset(SlotsOf(ps.value))
  {
    match ps
    case None => []
    case Some(list) =>
      var sorted := SortDesc(SlotsOf(list), SlotScore);
      var k := if |sorted| < MaxSlots then |sorted| else MaxSlots;
      PrefixSubMultiset(sorted, k);
      PrefixNonIncreasing(sorted, k, SlotScore);
      sorted[..k]
  }

  /** The fifteen ranked slots are the best fifteen: a prediction whose
      slot was cut scores no higher than the lowest slot kept. */
  lemma RankSlotsKeepsBest(ps: seq<Prediction>, p: Prediction)
    requires p in ps
    requires SlotOf(p) !in RankSlots(Some(ps))
    ensures |RankSlots(Some(ps))| == MaxSlots
    ensures ScoreOf(p) <= RankSlots(Some(ps))[MaxSlots - 1].score
  {
    var sorted := SortDesc(SlotsOf(ps), SlotScore);
    var k := if |sorted| < MaxSlots then |sorted| else MaxSlots;
    var kept := RankSlots(Some(ps));
    assert kept == sorted[..k];
    assert SlotOf(p) in multiset(SlotsOf(ps)) by {
      var i :| 0 <= i < |ps| && ps[i] == p;
      assert SlotsOf(ps)[i] == SlotOf(p);
    }
    var j :| 0 <= j < |sorted| && sorted[j] == SlotOf(p);
    if j < k {
      assert false;
    }
    assert kept[MaxSlots - 1] == sorted[MaxSlots - 1];
    assert SlotScore(sorted[MaxSlots - 1]) >= SlotScore(sorted[j]);
  }

  /** Builds the record for one span; `emotionList` is the span's `emotions`
      list on the prosody channel and its `sentiment` list on the language
      channel. The speaker id is the group's `id`, "unknown" when missing. */
  function MakeSegment(speakerId: Option<string>, span: Span, emotionList: Option<seq<Prediction>>): (s: Segment)
    ensures s.speaker == (if speakerId.Some? then speakerId.value else "unknown")
    ensures s.start == (if span.begin.Some? then span.begin.value else 0.0)
    ensures s.end == (if span.end.Some? then span.end.value else 0.0)
    ensures s.text == (if span.text.Some? then span.text.value else "")
    ensures |s.slots| <= MaxSlots
    ensures NonIncreasing(s.slots, SlotScore)
    ensures s.slots == RankSlots(emotionList)
  {
    Segment(
      if speakerId.Some? then speakerId.value else "unknown",
      if span.begin.Some? then span.begin.value else 0.0,
      if span.end.Some? then span.end.value else 0.0,
      if span.text.Some? then span.text.value else "",
      RankSlots(emotionList))
  }

  /** Python's `str.isdigit()` on ASCII: non-empty and all digits. */
  predicate IsDigits(s: string)
  {
    |s| > 0 && forall i :: 0 <= i < |s| ==> '0' <= s[i] <= '9'
  }

  /** Decimal digits of a natural number, as `str(n)` writes them. */
  function NatToString(n: nat): (r: string)
    ensures IsDigits(r)
  {
    var d := ['0' + (n % 10) as char];
    if n < 10 then d else NatToString(n / 10) + d
  }

  /** `str(n)` for an integer. */
  function IntToString(n: int): string
  {
    if n < 0 then "-" + NatToString(-n) else NatToString(n)
  }

  /** The label under which a slot's name enters a weighted map: an integer
      name, or a string of digits, becomes "Emotion_<n>". */
  function Relabel(name: Name): string
  {
    match name
    case Num(n) => "Emotion_" + IntToString(n)
    case Str(s) => if IsDigits(s) then "Emotion_" + s else s
  }

  /** No label is a bare string of digits. */
  lemma RelabelNeverDigits(name: Name)
    ensures !IsDigits(Relabel(name))
  {
    match name
    case Num(n) =>
      assert Relabel(name)[0] == 'E';
    case Str(s) =>
      if IsDigits(s) { assert Relabel(name)[0] == 'E'; }
  }
}

/** Duration-weighted aggregation per (speaker, quintile), `_analyze_quintiles`
    (backend/processors/sentiment_processor.py).

    The `weighted_emotions` dictionary is an insertion-ordered association
    list of `Scored` entries: the order matters, since `max` keeps the first
    of equal maxima and the stable sort of `top_emotions` keeps insertion
    order among equal values. */
module Aggregation {
  import opened Common
  import opened Payload
  import opened Quintile

  /** A row of the sorted table: a segment and its `quintile` column. */
  datatype Row = Row(seg: Segment, quintile: int)

  /** Every row has at most fifteen slots. */
  ghost predicate RowsFit(rows: seq<Row>)
  {
    forall r :: 0 <= r < |rows| ==> |rows[r].seg.slots| <= MaxSlots
  }

  /** A `(name, weighted score)` pair. */
  datatype Scored = Scored(name: string, value: real)

  function ScoredValue(e: Scored): real { e.value }

  /** One entry of a speaker's quintile map. The window bounds are the
      numbers `time_range` prints with two decimals. */
  datatype QuintileRecord = QuintileRecord(
    rangeStart: real,
    rangeEnd: real,
    dominantEmotion: string,
    emotionScore: real,
    topEmotions: seq<Scored>)

  /** `quintile_analysis`: the conversation length and, per speaker, the map
      from `quintile_<q+1>` to its record. */
  datatype QuintileReport = QuintileReport(
    conversationLength: real,
    speakers: map<string, map<string, QuintileRecord>>)

  /** `top_emotions` holds at most this many entries. */
  const MaxTopEmotions: nat := 5

  // ---------------------------------------------------------------------
  // Groups, durations and weights

  /** The rows of one speaker in one quintile, in table order. */
  function Group(rows: seq<Row>, speaker: string, q: int): (g: seq<Row>)
    ensures |g| <= |rows|
    ensures forall i :: 0 <= i < |g| ==> g[i].seg.speaker == speaker && g[i].quintile == q
  {
    if rows == [] then []
    else (if rows[0].seg.speaker == speaker && rows[0].quintile == q then [rows[0]] else []) + Group(rows[1..], speaker, q)
  }

  /** The group is the filter of the table: every row of the speaker in
      the quintile is in it, as often as in the table, and no other row. */
  lemma GroupIsFilter(rows: seq<Row>, speaker: string, q: int)
    ensures var g := Group(rows, speaker, q);
      forall x :: multiset(g)[x] == if x.seg.speaker == speaker && x.quintile == q then multiset(rows)[x] else 0
    ensures forall i :: 0 <= i < |rows| && rows[i].seg.speaker == speaker && rows[i].quintile == q ==>
              rows[i] in Group(rows, speaker, q)
  {
    var g := Group(rows, speaker, q);
    forall x: Row
      ensures multiset(g)[x] == if x.seg.speaker == speaker && x.quintile == q then multiset(rows)[x] else 0
    {
      GroupMultiplicity(rows, speaker, q, x);
    }
    forall i | 0 <= i < |rows| && rows[i].seg.speaker == speaker && rows[i].quintile == q
      ensures rows[i] in g
    {
      GroupMultiplicity(rows, speaker, q, rows[i]);
      assert rows[i] in multiset(rows);
    }
  }

  lemma {:induction false} GroupMultiplicity(rows: seq<Row>, speaker: string, q: int, x: Row)
    ensures multiset(Group(rows, speaker, q))[x] == if x.seg.speaker == speaker && x.quintile == q then multiset(rows)[x] else 0
  {
    if rows != [] {
      GroupMultiplicity(rows[1..], speaker, q, x);
      var h := if rows[0].seg.speaker == speaker && rows[0].quintile == q then [rows[0]] else [];
      assert Group(rows, speaker, q) == h + Group(rows[1..], speaker, q);
      assert rows == [rows[0]] + rows[1..];
      assert multiset(rows)[x] == multiset([rows[0]])[x] + multiset(rows[1..])[x];
    }
  }

  /** The rows of one speaker, `df[df['speaker_id'] == speaker]`. */
  function SpeakerRows(rows: seq<Row>, speaker: string): seq<Row>
  {
    if rows == [] then []
    else (if rows[0].seg.speaker == speaker then [rows[0]] else []) + SpeakerRows(rows[1..], speaker)
  }

  function Duration(r: Row): real { r.seg.end - r.seg.start }

  function TotalDuration(rows: seq<Row>): real
  {
    if rows == [] then 0.0 else Duration(rows[0]) + TotalDuration(rows[1..])
  }

  /** A segment's share of its group's total duration; 0 when the total is
      not positive. */
  function Weight(r: Row, total: real): real
  {
    if total > 0.0 then Duration(r) / total else 0.0
  }

  function WeightSum(rows: seq<Row>, total: real): real
  {
    if rows == [] then 0.0 else Weight(rows[0], total) + WeightSum(rows[1..], total)
  }

  lemma {:induction false} WeightSumIsShare(rows: seq<Row>, total: real)
    requires total > 0.0
    ensures WeightSum(rows, total) == TotalDuration(rows) / total
  {
    if rows != [] {
      WeightSumIsShare(rows[1..], total);
      assert Duration(rows[0]) / total + TotalDuration(rows[1..]) / total
          == (Duration(rows[0]) + TotalDuration(rows[1..])) / total;
    }
  }

  /** The weights of a group with positive total duration add up to 1. */
  lemma WeightsSumToOne(group: seq<Row>)
    requires TotalDuration(group) > 0.0
    ensures WeightSum(group, TotalDuration(group)) == 1.0
  {
    WeightSumIsShare(group, TotalDuration(group));
    assert TotalDuration(group) / TotalDuration(group) == 1.0;
  }

  // ---------------------------------------------------------------------
  // The weighted map

  /** The names the map has entries for. */
  function Keys(w: seq<Scored>): set<string>
  {
    if w == [] then {} else {w[0].name} + Keys(w[1..])
  }

  /** No name has two entries. */
  predicate KeysUnique(w: seq<Scored>)
  {
    w == [] || (w[0].name !in Keys(w[1..]) && KeysUnique(w[1..]))
  }

  /** `weighted_emotions.get(name, 0)`. */
  function ValueOf(w: seq<Scored>, name: string): real
  {
    if w == [] then 0.0
    else if w[0].name == name then w[0].value
    else ValueOf(w[1..], name)
  }

  lemma {:induction false} ValueOfEntry(w: seq<Scored>, i: nat)
    requires KeysUnique(w) && i < |w|
    ensures ValueOf(w, w[i].name) == w[i].value
  {
    if i > 0 {
      ValueOfEntry(w[1..], i - 1);
      KeysHas(w[1..], i - 1);
    }
  }

  lemma {:induction false} KeysHas(w: seq<Scored>, i: nat)
    requires i < |w|
    ensures w[i].name in Keys(w)
  {
    if i > 0 {
      KeysHas(w[1..], i - 1);
    }
  }

  /** `if name not in d: d[name] = 0` then `d[name] += delta`: the entry of
      `name` is updated in place, or a new entry is appended. */
  function Bump(w: seq<Scored>, name: string, delta: real): (r: seq<Scored>)
    ensures |w| <= |r| <= |w| + 1
    ensures forall j :: 0 <= j < |w| ==> r[j].name == w[j].name
  {
    if w == [] then [Scored(name, 0.0 + delta)]
    else if w[0].name == name then [Scored(name, w[0].value + delta)] + w[1..]
    else [w[0]] + Bump(w[1..], name, delta)
  }

  lemma {:induction false} BumpKeys(w: seq<Scored>, name: string, delta: real)
    ensures Keys(Bump(w, name, delta)) == Keys(w) + {name}
  {
    if w != [] && w[0].name != name {
      BumpKeys(w[1..], name, delta);
      assert Bump(w, name, delta)[1..] == Bump(w[1..], name, delta);
    } else if w != [] {
      assert Bump(w, name, delta)[1..] == w[1..];
    }
  }

  lemma {:induction false} BumpUnique(w: seq<Scored>, name: string, delta: real)
    requires KeysUnique(w)
    ensures KeysUnique(Bump(w, name, delta))
  {
    if w != [] && w[0].name != name {
      BumpUnique(w[1..], name, delta);
      BumpKeys(w[1..], name, delta);
      assert Bump(w, name, delta)[1..] == Bump(w[1..], name, delta);
    } else if w != [] {
      assert Bump(w, name, delta)[1..] == w[1..];
    }
  }

  /** Bumping adds `delta` to the value of `name` and leaves every other
      value as it was. */
  lemma {:induction false} BumpValues(w: seq<Scored>, name: string, delta: real)
    ensures forall tag :: ValueOf(Bump(w, name, delta), tag) == ValueOf(w, tag) + (if tag == name then delta else 0.0)
  {
    if w != [] && w[0].name != name {
      BumpValues(w[1..], name, delta);
      assert Bump(w, name, delta)[1..] == Bump(w[1..], name, delta);
    } else if w != [] {
      assert Bump(w, name, delta)[1..] == w[1..];
    }
  }

  /** What one slot adds under its label: `sentiment_score * weight`. */
  function Contribution(s: Slot, weight: real): real
  {
    s.score * weight
  }

  /** The inner loop over a segment's slots: every slot adds
      `score * weight` under its relabelled name. */
  function AccumulateSlots(w: seq<Scored>, slots: seq<Slot>, weight: real): seq<Scored>
    decreases |slots|
  {
    if slots == [] then w
    else
      var last := slots[|slots| - 1];
      Bump(AccumulateSlots(w, slots[..|slots| - 1], weight), Relabel(last.name), Contribution(last, weight))
  }

  /** The loop over the group's rows. */
  function AccumulateRows(w: seq<Scored>, rows: seq<Row>, total: real): seq<Scored>
    decreases |rows|
  {
    if rows == [] then w
    else
      var last := rows[|rows| - 1];
      AccumulateSlots(AccumulateRows(w, rows[..|rows| - 1], total), last.seg.slots, Weight(last, total))
  }

  /** `weighted_emotions` of one group. */
  function WeightedEmotions(group: seq<Row>): seq<Scored>
  {
    AccumulateRows([], group, TotalDuration(group))
  }

  // ---------------------------------------------------------------------
  // What the weighted map means

  /** Labels of a segment's slots. */
  function SlotLabels(slots: seq<Slot>): set<string>
  {
    set k | 0 <= k < |slots| :: Relabel(slots[k].name)
  }

  function RowLabels(rows: seq<Row>): set<string>
  {
    set j, k | 0 <= j < |rows| && 0 <= k < |rows[j].seg.slots| :: Relabel(rows[j].seg.slots[k].name)
  }

  /** Sum of `score * weight` over the slots labelled `tag`. */
  function SlotContribution(slots: seq<Slot>, tag: string, weight: real): real
    decreases |slots|
  {
    if slots == [] then 0.0
    else
      var last := slots[|slots| - 1];
      SlotContribution(slots[..|slots| - 1], tag, weight) + (if Relabel(last.name) == tag then Contribution(last, weight) else 0.0)
  }

  /** Sum over the rows of their slot contributions to `tag`. */
  function RowsContribution(rows: seq<Row>, tag: string, total: real): real
    decreases |rows|
  {
    if rows == [] then 0.0
    else
      var last := rows[|rows| - 1];
      RowsContribution(rows[..|rows| - 1], tag, total) + SlotContribution(last.seg.slots, tag, Weight(last, total))
  }

  lemma SlotLabelsStep(slots: seq<Slot>)
    requires slots != []
    ensures SlotLabels(slots) == SlotLabels(slots[..|slots| - 1]) + {Relabel(slots[|slots| - 1].name)}
  {
    SlotLabelsStepSub(slots);
    SlotLabelsStepSup(slots);
  }

  lemma SlotLabelsStepSub(slots: seq<Slot>)
    requires slots != []
    ensures SlotLabels(slots) <= SlotLabels(slots[..|slots| - 1]) + {Relabel(slots[|slots| - 1].name)}
  {
    var init := slots[..|slots| - 1];
    forall x | x in SlotLabels(slots) ensures x in SlotLabels(init) + {Relabel(slots[|slots| - 1].name)} {
      var k :| 0 <= k < |slots| && Relabel(slots[k].name) == x;
      if k < |init| {
        assert init[k] == slots[k];
        assert x in SlotLabels(init);
      } else {
        assert slots[k] == slots[|slots| - 1];
      }
    }
  }

  lemma SlotLabelsStepSup(slots: seq<Slot>)
    requires slots != []
    ensures SlotLabels(slots[..|slots| - 1]) + {Relabel(slots[|slots| - 1].name)} <= SlotLabels(slots)
  {
    var init := slots[..|slots| - 1];
    forall x | x in SlotLabels(init) ensures x in SlotLabels(slots) {
      var k :| 0 <= k < |init| && Relabel(init[k].name) == x;
      assert slots[k] == init[k];
    }
    assert Relabel(slots[|slots| - 1].name) in SlotLabels(slots);
  }

  lemma {:induction false} AccumulateSlotsUnique(w: seq<Scored>, slots: seq<Slot>, weight: real)
    requires KeysUnique(w)
    ensures KeysUnique(AccumulateSlots(w, slots, weight))
    decreases |slots|
  {
    if slots != [] {
      var init := slots[..|slots| - 1];
      var before := AccumulateSlots(w, init, weight);
      var tag := Relabel(slots[|slots| - 1].name);
      var delta := Contribution(slots[|slots| - 1], weight);
      AccumulateSlotsUnfold(w, slots, weight);
      assert AccumulateSlots(w, slots, weight) == Bump(before, tag, delta);
      AccumulateSlotsUnique(w, init, weight);
      BumpUnique(before, tag, delta);
    }
  }

  lemma {:induction false} AccumulateSlotsKeys(w: seq<Scored>, slots: seq<Slot>, weight: real)
    ensures Keys(AccumulateSlots(w, slots, weight)) == Keys(w) + SlotLabels(slots)
    decreases |slots|
  {
    if slots == [] {
      assert SlotLabels(slots) == {};
    } else {
      var init := slots[..|slots| - 1];
      var before := AccumulateSlots(w, init, weight);
      var tag := Relabel(slots[|slots| - 1].name);
      var delta := Contribution(slots[|slots| - 1], weight);
      AccumulateSlotsUnfold(w, slots, weight);
      assert AccumulateSlots(w, slots, weight) == Bump(before, tag, delta);
      BumpKeys(before, tag, delta);
      AccumulateSlotsKeys(w, init, weight);
      SlotLabelsStep(slots);
      assert Keys(AccumulateSlots(w, slots, weight)) == Keys(before) + {tag};
      assert Keys(before) == Keys(w) + SlotLabels(init);
      assert SlotLabels(slots) == SlotLabels(init) + {tag};
    }
  }

  lemma {:induction false} AccumulateSlotsValues(w: seq<Scored>, slots: seq<Slot>, weight: real)
    ensures forall tag :: ValueOf(AccumulateSlots(w, slots, weight), tag) == ValueOf(w, tag) + SlotContribution(slots, tag, weight)
    decreases |slots|
  {
    if slots != [] {
      var init := slots[..|slots| - 1];
      var before := AccumulateSlots(w, init, weight);
      var name := Relabel(slots[|slots| - 1].name);
      var delta := Contribution(slots[|slots| - 1], weight);
      AccumulateSlotsUnfold(w, slots, weight);
      var r := AccumulateSlots(w, slots, weight);
      assert r == Bump(before, name, delta);
      AccumulateSlotsValues(w, init, weight);
      BumpValues(before, name, delta);
      forall tag ensures ValueOf(r, tag) == ValueOf(w, tag) + SlotContribution(slots, tag, weight) {
        assert ValueOf(before, tag) == ValueOf(w, tag) + SlotContribution(init, tag, weight);
        assert ValueOf(r, tag) == ValueOf(before, tag) + (if tag == name then delta else 0.0);
        assert SlotContribution(slots, tag, weight) == SlotContribution(init, tag, weight) + (if tag == name then delta else 0.0);
      }
    }
  }

  lemma AccumulateSlotsEffect(w: seq<Scored>, slots: seq<Slot>, weight: real)
    requires KeysUnique(w)
    ensures var r := AccumulateSlots(w, slots, weight);
      && KeysUnique(r)
      && Keys(r) == Keys(w) + SlotLabels(slots)
      && forall tag :: ValueOf(r, tag) == ValueOf(w, tag) + SlotContribution(slots, tag, weight)
  {
    AccumulateSlotsUnique(w, slots, weight);
    AccumulateSlotsKeys(w, slots, weight);
    AccumulateSlotsValues(w, slots, weight);
  }

  lemma RowLabelsStep(rows: seq<Row>)
    requires rows != []
    ensures RowLabels(rows) == RowLabels(rows[..|rows| - 1]) + SlotLabels(rows[|rows| - 1].seg.slots)
  {
    RowLabelsStepSub(rows);
    RowLabelsStepSup(rows);
  }

  lemma RowLabelsStepSub(rows: seq<Row>)
    requires rows != []
    ensures RowLabels(rows) <= RowLabels(rows[..|rows| - 1]) + SlotLabels(rows[|rows| - 1].seg.slots)
  {
    var init := rows[..|rows| - 1];
    var last := rows[|rows| - 1];
    forall x | x in RowLabels(rows) ensures x in RowLabels(init) + SlotLabels(last.seg.slots) {
      var j, k :| 0 <= j < |rows| && 0 <= k < |rows[j].seg.slots| && Relabel(rows[j].seg.slots[k].name) == x;
      if j < |init| {
        assert init[j] == rows[j];
        assert x in RowLabels(init);
      } else {
        assert rows[j] == last;
        assert x in SlotLabels(last.seg.slots);
      }
    }
  }

  lemma RowLabelsStepSup(rows: seq<Row>)
    requires rows != []
    ensures RowLabels(rows[..|rows| - 1]) + SlotLabels(rows[|rows| - 1].seg.slots) <= RowLabels(rows)
  {
    var init := rows[..|rows| - 1];
    var last := rows[|rows| - 1];
    forall x | x in RowLabels(init) ensures x in RowLabels(rows) {
      var j, k :| 0 <= j < |init| && 0 <= k < |init[j].seg.slots| && Relabel(init[j].seg.slots[k].name) == x;
      assert rows[j] == init[j];
    }
    forall x | x in SlotLabels(last.seg.slots) ensures x in RowLabels(rows) {
      var k :| 0 <= k < |last.seg.slots| && Relabel(last.seg.slots[k].name) == x;
      assert rows[|rows| - 1] == last;
    }
  }

  lemma {:induction false} AccumulateRowsEffect(w: seq<Scored>, rows: seq<Row>, total: real)
    requires KeysUnique(w)
    ensures var r := AccumulateRows(w, rows, total);
      && KeysUnique(r)
      && Keys(r) == Keys(w) + RowLabels(rows)
      && forall tag :: ValueOf(r, tag) == ValueOf(w, tag) + RowsContribution(rows, tag, total)
    decreases |rows|
  {
    if rows != [] {
      var init := rows[..|rows| - 1];
      var last := rows[|rows| - 1];
      AccumulateRowsEffect(w, init, total);
      AccumulateSlotsEffect(AccumulateRows(w, init, total), last.seg.slots, Weight(last, total));
      RowLabelsStep(rows);
    }
  }

  /** The weighted map of a group has one entry per tag that some slot
      of the group carries, whatever the vocabulary, and the entry's value
      is the sum of `score * weight` over all slots with that tag. */
  lemma WeightedEmotionsMeaning(group: seq<Row>)
    ensures var w := WeightedEmotions(group);
      && KeysUnique(w)
      && Keys(w) == RowLabels(group)
      && forall tag :: ValueOf(w, tag) == RowsContribution(group, tag, TotalDuration(group))
  {
    assert Keys([]) == {};
    AccumulateRowsEffect([], group, TotalDuration(group));
  }

  lemma {:induction false} SlotContributionZero(slots: seq<Slot>, tag: string)
    ensures SlotContribution(slots, tag, 0.0) == 0.0
    decreases |slots|
  {
    if slots != [] {
      SlotContributionZero(slots[..|slots| - 1], tag);
    }
  }

  lemma {:induction false} RowsContributionZero(rows: seq<Row>, tag: string, total: real)
    requires total <= 0.0
    ensures RowsContribution(rows, tag, total) == 0.0
    decreases |rows|
  {
    if rows != [] {
      RowsContributionZero(rows[..|rows| - 1], tag, total);
      SlotContributionZero(rows[|rows| - 1].seg.slots, tag);
    }
  }

  /** A group without positive total duration still gets an entry for each
      of its labels, each with value 0. */
  lemma ZeroTotalGivesZeroValues(group: seq<Row>)
    requires TotalDuration(group) <= 0.0
    ensures var w := WeightedEmotions(group);
      && Keys(w) == RowLabels(group)
      && forall i :: 0 <= i < |w| ==> w[i].value == 0.0
  {
    var w := WeightedEmotions(group);
    WeightedEmotionsMeaning(group);
    forall i | 0 <= i < |w| ensures w[i].value == 0.0 {
      RowsContributionZero(group, w[i].name, TotalDuration(group));
      ValueOfEntry(w, i);
    }
  }

  // ---------------------------------------------------------------------
  // Dominant emotion, top five, the record

  /** `max(weighted_emotions.items(), key=value)`. */
  function Dominant(w: seq<Scored>): (d: Scored)
    requires |w| > 0
    ensures d in w
    ensures forall j :: 0 <= j < |w| ==> w[j].value <= d.value
    ensures exists i :: 0 <= i < |w| && w[i] == d && forall j :: 0 <= j < i ==> w[j].value < d.value
  {
    w[FirstMax(w, ScoredValue)]
  }

  /** The first five entries of the map sorted by value, largest first. */
  function TopEmotions(w: seq<Scored>): (t: seq<Scored>)
    ensures |t| == if |w| < MaxTopEmotions then |w| else MaxTopEmotions
    ensures NonIncreasing(t, ScoredValue)
    ensures multiset(t) <= multiset(w)
  {
    var sorted := SortDesc(w, ScoredValue);
    var k := if |sorted| < MaxTopEmotions then |sorted| else MaxTopEmotions;
    PrefixSubMultiset(sorted, k);
    PrefixNonIncreasing(sorted, k, ScoredValue);
    sorted[..k]
  }

  /** The top five are the five largest: an entry that was left out
      scores no more than the fifth one kept, and five were kept. */
  lemma TopEmotionsKeepsLargest(w: seq<Scored>, e: Scored)
    requires e in w && e !in TopEmotions(w)
    ensures |TopEmotions(w)| == MaxTopEmotions
    ensures e.value <= TopEmotions(w)[MaxTopEmotions - 1].value
  {
    var sorted := SortDesc(w, ScoredValue);
    var k := if |sorted| < MaxTopEmotions then |sorted| else MaxTopEmotions;
    var kept := TopEmotions(w);
    assert kept == sorted[..k];
    assert e in multiset(sorted);
    var j :| 0 <= j < |sorted| && sorted[j] == e;
    if j < k {
      assert false;
    }
    assert kept[MaxTopEmotions - 1] == sorted[MaxTopEmotions - 1];
    assert ScoredValue(sorted[MaxTopEmotions - 1]) >= ScoredValue(sorted[j]);
  }

  /** The dominant emotion heads the top five: of equal maxima both take
      the one inserted first. */
  lemma DominantLeadsTopEmotions(w: seq<Scored>)
    requires |w| > 0
    ensures TopEmotions(w)[0] == Dominant(w)
  {
    SortDescHeadIsFirstMax(w, ScoredValue);
  }

  /** The record of quintile `q`. */
  function MakeRecord(q: int, length: real, w: seq<Scored>): (r: QuintileRecord)
    requires |w| > 0
  {
    var size := length / 5.0;
    var d := Dominant(w);
    QuintileRecord(q as real * size, (q + 1) as real * size, d.name, d.value, TopEmotions(w))
  }

  /** `quintile_<q+1>`. */
  function QuintileLabel(q: nat): string
  {
    "quintile_" + NatToString(q + 1)
  }

  lemma QuintileLabelsDistinct(q: nat, q': nat)
    requires q < 5 && q' < 5 && q != q'
    ensures QuintileLabel(q) != QuintileLabel(q')
  {
    assert QuintileLabel(q)[9] == '0' + (q + 1) as char;
    assert QuintileLabel(q')[9] == '0' + (q' + 1) as char;
  }

  /** The record of quintile `q` from the group of rows of one speaker in
      it: none when the group is empty or its rows carry no slot. */
  function EntryOf(g: seq<Row>, q: nat, length: real): (e: Option<QuintileRecord>)
    ensures e.Some? <==> g != [] && WeightedEmotions(g) != []
    ensures e.Some? ==> e.value == MakeRecord(q, length, WeightedEmotions(g))
  {
    if g == [] then None
    else
      var w := WeightedEmotions(g);
      if w == [] then None else Some(MakeRecord(q, length, w))
  }

  /** The map built by the loop over quintiles `0 .. n-1`, given the
      entry of each quintile. */
  function QuintileMapUpTo(entry: nat -> Option<QuintileRecord>, n: nat): map<string, QuintileRecord>
  {
    if n == 0 then map[]
    else
      var m := QuintileMapUpTo(entry, n - 1);
      var e := entry(n - 1);
      if e.Some? then m[QuintileLabel(n - 1) := e.value] else m
  }

  /** The number of buckets. */
  const Quintiles: nat := 5

  /** The entry of each quintile for one speaker. */
  function SpeakerEntries(rows: seq<Row>, length: real, speaker: string): nat -> Option<QuintileRecord>
  {
    (q: nat) => EntryOf(Group(rows, speaker, q), q, length)
  }

  /** One speaker's map from `quintile_<q+1>` to its record. */
  function SpeakerQuintiles(rows: seq<Row>, length: real, speaker: string): map<string, QuintileRecord>
  {
    QuintileMapUpTo(SpeakerEntries(rows, length, speaker), Quintiles)
  }

  /** The set of speakers of the table. */
  function Speakers(rows: seq<Row>): set<string>
  {
    set i | 0 <= i < |rows| :: rows[i].seg.speaker
  }

  /** The whole report. */
  function Analyze(rows: seq<Row>, length: real): QuintileReport
  {
    QuintileReport(length, map s | s in Speakers(rows) :: SpeakerQuintiles(rows, length, s))
  }

  lemma {:induction false} QuintileMapUpToLabels(entry: nat -> Option<QuintileRecord>, n: nat, q: nat)
    requires n <= 5 && q < 5
    ensures var m := QuintileMapUpTo(entry, n);
      && (QuintileLabel(q) in m <==> q < n && entry(q).Some?)
      && (QuintileLabel(q) in m ==> entry(q).Some? && m[QuintileLabel(q)] == entry(q).value)
  {
    if n > 0 {
      QuintileMapUpToLabels(entry, n - 1, q);
      if q != n - 1 {
        QuintileLabelsDistinct(q, n - 1);
      }
    }
  }

  /** The loop over quintiles `0 .. n-1` inserts no other label. */
  lemma {:induction false} QuintileMapUpToKeys(entry: nat -> Option<QuintileRecord>, n: nat, k: string)
    requires k in QuintileMapUpTo(entry, n)
    ensures exists q: nat :: q < n && k == QuintileLabel(q)
  {
    if k != QuintileLabel(n - 1) {
      QuintileMapUpToKeys(entry, n - 1, k);
    }
  }

  /** A speaker's map has the record of quintile `q` exactly when the
      speaker has rows in `q` carrying at least one slot, and then the
      record is built from that group's weighted map. */
  lemma SpeakerQuintilesRecord(rows: seq<Row>, length: real, speaker: string, q: nat)
    requires q < 5
    ensures var m := SpeakerQuintiles(rows, length, speaker);
      var g := Group(rows, speaker, q);
      && (QuintileLabel(q) in m <==> g != [] && RowLabels(g) != {})
      && (QuintileLabel(q) in m ==> WeightedEmotions(g) != [] && m[QuintileLabel(q)] == MakeRecord(q, length, WeightedEmotions(g)))
      && (forall k :: k in m ==> exists q': nat :: q' < 5 && k == QuintileLabel(q'))
  {
    var g := Group(rows, speaker, q);
    var m := SpeakerQuintiles(rows, length, speaker);
    forall k | k in m ensures exists q': nat :: q' < 5 && k == QuintileLabel(q') {
      QuintileMapUpToKeys(SpeakerEntries(rows, length, speaker), Quintiles, k);
    }
    QuintileMapUpToLabels(SpeakerEntries(rows, length, speaker), Quintiles, q);
    assert SpeakerEntries(rows, length, speaker)(q) == EntryOf(g, q, length);
    WeightedEmotionsMeaning(g);
    var w := WeightedEmotions(g);
    if w != [] {
      KeysHas(w, 0);
    }
  }

  /** The report holds the conversation length and one map per speaker
      of the table, no other; a speaker's map has the record of quintile
      `q` exactly when the speaker's rows in `q` carry a slot, and the
      record is then built from those rows' weighted map. */
  lemma AnalyzeReport(rows: seq<Row>, length: real, speaker: string, q: nat)
    requires q < 5
    ensures var a := Analyze(rows, length);
      && a.conversationLength == length
      && (speaker in a.speakers <==> exists i :: 0 <= i < |rows| && rows[i].seg.speaker == speaker)
      && (speaker in a.speakers ==>
            var m := a.speakers[speaker];
            var g := Group(rows, speaker, q);
            && (QuintileLabel(q) in m <==> g != [] && RowLabels(g) != {})
            && (QuintileLabel(q) in m ==> WeightedEmotions(g) != [] && m[QuintileLabel(q)] == MakeRecord(q, length, WeightedEmotions(g)))
            && (forall k :: k in m ==> exists q': nat :: q' < 5 && k == QuintileLabel(q')))
  {
    SpeakerQuintilesRecord(rows, length, speaker, q);
  }

  /** A record's window is the bucket `[q * size, (q + 1) * size]` and its
      dominant emotion scores at least as much as any other entry. */
  lemma RecordShape(q: nat, length: real, w: seq<Scored>)
    requires |w| > 0
    ensures var r := MakeRecord(q, length, w);
      && r.rangeStart == q as real * (length / 5.0)
      && r.rangeEnd == (q + 1) as real * (length / 5.0)
      && Scored(r.dominantEmotion, r.emotionScore) in w
      && (forall j :: 0 <= j < |w| ==> w[j].value <= r.emotionScore)
      && |r.topEmotions| == (if |w| < MaxTopEmotions then |w| else MaxTopEmotions)
      && NonIncreasing(r.topEmotions, ScoredValue)
      && multiset(r.topEmotions) <= multiset(w)
      && r.topEmotions[0] == Scored(r.dominantEmotion, r.emotionScore)
      && (forall e :: e in w && e !in r.topEmotions ==>
            |r.topEmotions| == MaxTopEmotions && e.value <= r.topEmotions[MaxTopEmotions - 1].value)
  {
    DominantLeadsTopEmotions(w);
    forall e | e in w && e !in TopEmotions(w)
      ensures |TopEmotions(w)| == MaxTopEmotions && e.value <= TopEmotions(w)[MaxTopEmotions - 1].value
    {
      TopEmotionsKeepsLargest(w, e);
    }
  }

  // ---------------------------------------------------------------------
  // Speakers are aggregated independently

  lemma {:induction false} GroupOfSpeakerRows(rows: seq<Row>, speaker: string, q: int)
    ensures Group(SpeakerRows(rows, speaker), speaker, q) == Group(rows, speaker, q)
  {
    if rows != [] {
      GroupOfSpeakerRows(rows[1..], speaker, q);
      var head := if rows[0].seg.speaker == speaker then [rows[0]] else [];
      GroupAppend(head, SpeakerRows(rows[1..], speaker), speaker, q);
    }
  }

  lemma {:induction false} GroupAppend(a: seq<Row>, b: seq<Row>, speaker: string, q: int)
    ensures Group(a + b, speaker, q) == Group(a, speaker, q) + Group(b, speaker, q)
  {
    if a != [] {
      var h := if a[0].seg.speaker == speaker && a[0].quintile == q then [a[0]] else [];
      assert (a + b)[0] == a[0];
      assert (a + b)[1..] == a[1..] + b;
      assert Group(a + b, speaker, q) == h + Group(a[1..] + b, speaker, q);
      GroupAppend(a[1..], b, speaker, q);
      assert Group(a, speaker, q) == h + Group(a[1..], speaker, q);
    } else {
      assert a + b == b;
    }
  }

  lemma {:induction false} QuintileMapUpToSameEntries(e1: nat -> Option<QuintileRecord>, e2: nat -> Option<QuintileRecord>, n: nat)
    requires forall q: nat :: q < n ==> e1(q) == e2(q)
    ensures QuintileMapUpTo(e1, n) == QuintileMapUpTo(e2, n)
  {
    if n > 0 {
      QuintileMapUpToSameEntries(e1, e2, n - 1);
    }
  }

  /** No cross-speaker leakage: a speaker's quintile map depends only on
      that speaker's own rows. */
  lemma SpeakerQuintilesOwnRows(rows: seq<Row>, length: real, speaker: string)
    ensures SpeakerQuintiles(SpeakerRows(rows, speaker), length, speaker) == SpeakerQuintiles(rows, length, speaker)
  {
    var own := SpeakerEntries(SpeakerRows(rows, speaker), length, speaker);
    var all := SpeakerEntries(rows, length, speaker);
    forall q: nat | q < 5 ensures own(q) == all(q) {
      GroupOfSpeakerRows(rows, speaker, q);
      var g := Group(rows, speaker, q);
      assert own(q) == EntryOf(g, q, length);
    }
    QuintileMapUpToSameEntries(own, all, Quintiles);
  }

  // ---------------------------------------------------------------------
  // The accumulation loops as the source writes them

  lemma AccumulateSlotsUnfold(w0: seq<Scored>, slots: seq<Slot>, weight: real)
    requires slots != []
    ensures AccumulateSlots(w0, slots, weight)
         == Bump(AccumulateSlots(w0, slots[..|slots| - 1], weight), Relabel(slots[|slots| - 1].name), Contribution(slots[|slots| - 1], weight))
  {
  }

  lemma AccumulateSlotsAppend(w0: seq<Scored>, slots: seq<Slot>, x: Slot, weight: real)
    ensures AccumulateSlots(w0, slots + [x], weight)
         == Bump(AccumulateSlots(w0, slots, weight), Relabel(x.name), Contribution(x, weight))
  {
    var all := slots + [x];
    assert all[..|all| - 1] == slots;
    assert all[|all| - 1] == x;
    AccumulateSlotsUnfold(w0, all, weight);
  }

  lemma AccumulateSlotsStep(w0: seq<Scored>, slots: seq<Slot>, i: nat, weight: real)
    requires i < |slots|
    ensures AccumulateSlots(w0, slots[..i + 1], weight)
         == Bump(AccumulateSlots(w0, slots[..i], weight), Relabel(slots[i].name), Contribution(slots[i], weight))
  {
    assert slots[..i + 1] == slots[..i] + [slots[i]];
    AccumulateSlotsAppend(w0, slots[..i], slots[i], weight);
  }

  /** The loop over the fifteen slot columns of one segment, adding each
      occupied slot to `weighted_emotions`. */
  method AccumulateSegment(w0: seq<Scored>, slots: seq<Slot>, weight: real) returns (w: seq<Scored>)
    requires |slots| <= MaxSlots
    ensures w == AccumulateSlots(w0, slots, weight)
  {
    w := w0;
    for i := 0 to MaxSlots
      invariant i <= |slots| ==> w == AccumulateSlots(w0, slots[..i], weight)
      invariant |slots| < i ==> w == AccumulateSlots(w0, slots, weight)
    {
      if i < |slots| {
        AccumulateSlotsStep(w0, slots, i, weight);
        var tag := Relabel(slots[i].name);
        w := Bump(w, tag, Contribution(slots[i], weight));
      } else if i == |slots| {
        assert slots[..i] == slots;
      }
    }
    if |slots| == MaxSlots {
      assert slots[..|slots|] == slots;
    }
  }

  /** The loop over a group's rows, weighting each by its share of the
      group's total duration. */
  method AccumulateGroup(group: seq<Row>) returns (w: seq<Scored>)
    requires RowsFit(group)
    ensures w == WeightedEmotions(group)
  {
    var total := TotalDuration(group);
    w := [];
    for r := 0 to |group|
      invariant w == AccumulateRows([], group[..r], total)
    {
      assert group[..r + 1][..r] == group[..r];
      var row := group[r];
      var weight := if total > 0.0 then Duration(row) / total else 0.0;
      w := AccumulateSegment(w, row.seg.slots, weight);
    }
    assert group[..|group|] == group;
  }
}

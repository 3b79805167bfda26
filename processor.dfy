/** The `SentimentProcessor` object (backend/processors/sentiment_processor.py):
    its state, the pipeline `process_sentiment_data`, the two steps it
    calls, `_create_streamlined_data` and `_analyze_quintiles`, and the
    accessor `get_top_sentiments`. */
module Processor {
  import opened Common
  import opened Payload
  import opened Extraction
  import opened Quintile
  import opened Vocabulary
  import opened Aggregation
  import opened Streamlined

  /** What `processed_data` holds: the full table with the slot columns,
      or the streamlined table. */
  datatype ProcessedTable = Full(rows: seq<Row>) | Slim(table: Table)

  // ---------------------------------------------------------------------
  // The table operations the pipeline borrows from pandas

  function StartKey(s: Segment): real { -s.start }

  /** `df.sort_values('start_time')`. The engine's sort is not stable; the
      model sorts stably, and the pipeline promises only what any sort
      by start time guarantees. */
  function SortByStart(segs: seq<Segment>): (r: seq<Segment>)
    ensures multiset(r) == multiset(segs)
    ensures forall i, j :: 0 <= i < j < |r| ==> r[i].start <= r[j].start
  {
    var r := SortDesc(segs, StartKey);
    assert forall i, j :: 0 <= i < j < |r| ==> StartKey(r[i]) >= StartKey(r[j]);
    r
  }

  /** `df['end_time'].max()`. */
  function MaxEnd(segs: seq<Segment>): (m: real)
    requires |segs| > 0
    ensures forall i :: 0 <= i < |segs| ==> segs[i].end <= m
    ensures exists i :: 0 <= i < |segs| && segs[i].end == m
  {
    if |segs| == 1 then segs[0].end
    else
      var m := MaxEnd(segs[..|segs| - 1]);
      assert forall i :: 0 <= i < |segs| - 1 ==> segs[..|segs| - 1][i] == segs[i];
      if segs[|segs| - 1].end > m then segs[|segs| - 1].end else m
  }

  /** `df['speaker_id'].unique()`: each speaker once, in order of first
      appearance. */
  function UniqueSpeakers(rows: seq<Row>): (u: seq<string>)
    ensures Distinct(u)
    ensures forall i :: 0 <= i < |rows| ==> rows[i].seg.speaker in u
    ensures forall j :: 0 <= j < |u| ==> u[j] in Speakers(rows)
  {
    if rows == [] then []
    else
      var init := rows[..|rows| - 1];
      var u := UniqueSpeakers(init);
      assert forall i :: 0 <= i < |init| ==> init[i] == rows[i];
      assert forall j :: 0 <= j < |u| ==> u[j] in Speakers(rows) by {
        forall j | 0 <= j < |u| ensures u[j] in Speakers(rows) {
          var i :| 0 <= i < |init| && init[i].seg.speaker == u[j];
          assert rows[i].seg.speaker == u[j];
        }
      }
      var s := rows[|rows| - 1].seg.speaker;
      if s in u then u else u + [s]
  }

  function Segments(rows: seq<Row>): (segs: seq<Segment>)
    ensures |segs| == |rows|
    ensures forall i :: 0 <= i < |rows| ==> segs[i] == rows[i].seg
  {
    if rows == [] then [] else [rows[0].seg] + Segments(rows[1..])
  }

  /** `', '.join(names)` succeeds: every name is a string. */
  predicate AllStrings(names: seq<Name>)
  {
    forall i :: 0 <= i < |names| ==> names[i].Str?
  }

  /** The largest end time does not depend on the order of the segments. */
  lemma MaxEndOfPermutation(a: seq<Segment>, b: seq<Segment>)
    requires |a| > 0 && multiset(a) == multiset(b)
    ensures |b| > 0 && MaxEnd(a) == MaxEnd(b)
  {
    assert a[0] in multiset(b);
    var i :| 0 <= i < |a| && a[i].end == MaxEnd(a);
    var j :| 0 <= j < |b| && b[j].end == MaxEnd(b);
    assert a[i] in multiset(b) && b[j] in multiset(a);
  }

  /** The sorted table has ascending start times. */
  ghost predicate SortedByStart(rows: seq<Row>)
  {
    forall i, j :: 0 <= i < j < |rows| ==> rows[i].seg.start <= rows[j].seg.start
  }

  // ---------------------------------------------------------------------
  // The processor

  class SentimentProcessor {
    /** The decoded predictions file. */
    var predictions: RawPayload
    var processedData: Option<ProcessedTable>
    var topSentiments: seq<Name>
    /** `None` while the analysis is still the initial empty dict. */
    var quintileAnalysis: Option<QuintileReport>
    var conversationLength: real

    /** A processor over an already loaded and decoded payload; `Missing`
        stands for a file that could not be read or parsed. */
    constructor(payload: RawPayload)
      ensures predictions == payload
      ensures processedData == None && topSentiments == [] && quintileAnalysis == None
      ensures conversationLength == 0.0
    {
      predictions := payload;
      processedData := None;
      topSentiments := [];
      quintileAnalysis := None;
      conversationLength := 0.0;
    }

    /** `get_top_sentiments(n=15)`: the first `n` names of the vocabulary,
        with Python's reading of a negative `n`. */
    function GetTopSentiments(n: int := 15): (r: seq<Name>)
      reads this
      ensures r <= topSentiments
      ensures 0 <= n ==> |r| == if n < |topSentiments| then n else |topSentiments|
      ensures n < 0 ==> |r| == if |topSentiments| + n > 0 then |topSentiments| + n else 0
    {
      if topSentiments == [] then [] else Take(topSentiments, n)
    }

    /** `_create_streamlined_data`: the base columns plus one column per
        vocabulary name, stored in `processed_data`. */
    method CreateStreamlinedData(rows: seq<Row>)
      requires RowsFit(rows)
      modifies this
      ensures processedData == Some(Slim(StreamlinedTable(rows, topSentiments)))
      ensures predictions == old(predictions) && topSentiments == old(topSentiments)
      ensures quintileAnalysis == old(quintileAnalysis) && conversationLength == old(conversationLength)
    {
      var top := topSentiments;
      var columns: seq<Column> := [];
      for c := 0 to |top|
        invariant unchanged(this)
        invariant |columns| == c
        invariant forall k :: 0 <= k < c ==> columns[k] == Column(top[k], ColumnCells(rows, top[k]))
      {
        var cells := FillColumn(rows, top[c]);
        columns := columns + [Column(top[c], cells)];
      }
      assert columns == Columns(rows, top);
      processedData := Some(Slim(Table(BaseRows(rows), columns)));
    }

    /** `_analyze_quintiles`: one map of records per speaker, stored in
        `quintile_analysis`. */
    method AnalyzeQuintiles(rows: seq<Row>)
      requires RowsFit(rows)
      modifies this
      ensures quintileAnalysis == Some(Analyze(rows, conversationLength))
      ensures predictions == old(predictions) && topSentiments == old(topSentiments)
      ensures processedData == old(processedData) && conversationLength == old(conversationLength)
    {
      var report := BuildReport(rows, conversationLength);
      quintileAnalysis := Some(QuintileReport(conversationLength, report));
    }

    /** `process_sentiment_data`: extraction, sort by start time,
        conversation length, quintile column, vocabulary, streamlined
        table, quintile analysis. The streamlined table is stored in
        `processed_data` and then replaced by the full table, as the
        source does. Logging the vocabulary joins its names as strings,
        which fails on an integer name: the pipeline then returns `None`
        with the length and the vocabulary already stored. */
    method ProcessSentimentData() returns (df: Option<seq<Row>>)
      modifies this
      ensures predictions == old(predictions)
      ensures !IsTruthy(predictions) || Extract(predictions) == [] ==>
        && df == None
        && processedData == old(processedData) && topSentiments == old(topSentiments)
        && quintileAnalysis == old(quintileAnalysis) && conversationLength == old(conversationLength)
      ensures IsTruthy(predictions) && Extract(predictions) != [] ==>
        && conversationLength == MaxEnd(Extract(predictions))
        && IsVocabulary(topSentiments, Extract(predictions))
        && (df.Some? <==> AllStrings(topSentiments))
      ensures IsTruthy(predictions) && Extract(predictions) != [] && df.None? ==>
        processedData == old(processedData) && quintileAnalysis == old(quintileAnalysis)
      ensures IsTruthy(predictions) && Extract(predictions) != [] && df.Some? ==>
        && SortedByStart(df.value)
        && multiset(Segments(df.value)) == multiset(Extract(predictions))
        && (forall i :: 0 <= i < |df.value| ==>
              df.value[i].quintile == QuintileOf(conversationLength, df.value[i].seg.start, df.value[i].seg.end))
        && IsVocabulary(topSentiments, Segments(df.value))
        && quintileAnalysis == Some(Analyze(df.value, conversationLength))
        && processedData == Some(Full(df.value))
    {
      if !IsTruthy(predictions) {
        return None;
      }
      var data := CollectSegments(predictions);
      if |data| == 0 {
        return None;
      }
      var sorted, length, rows := OrderAndBucket(data);
      conversationLength := length;
      topSentiments := SelectVocabulary(sorted);
      VocabularyOfPermutation(topSentiments, sorted, data);
      if !AllStrings(topSentiments) {
        return None;
      }
      CreateStreamlinedData(rows);
      AnalyzeQuintiles(rows);
      processedData := Some(Full(rows));
      df := Some(rows);
    }
  }

  /** The loop of `_analyze_quintiles` over `df['speaker_id'].unique()`. */
  method BuildReport(rows: seq<Row>, length: real) returns (report: map<string, map<string, QuintileRecord>>)
    requires RowsFit(rows)
    ensures report == Analyze(rows, length).speakers
  {
    var speakers := UniqueSpeakers(rows);
    report := map[];
    for k := 0 to |speakers|
      invariant report == MapUpTo(speakers, k, RecordsOf(rows, length))
    {
      var m := SpeakerRecords(rows, length, speakers[k]);
      report := report[speakers[k] := m];
    }
    ReportUpToIsAnalysis(rows, length);
  }

  /** Each speaker's records, as the function the report loop applies. */
  function RecordsOf(rows: seq<Row>, length: real): string -> map<string, QuintileRecord>
  {
    s => SpeakerQuintiles(rows, length, s)
  }

  /** Once every speaker of `unique()` is visited, the report is the
      analysis of the table. */
  lemma ReportUpToIsAnalysis(rows: seq<Row>, length: real)
    ensures var speakers := UniqueSpeakers(rows);
      MapUpTo(speakers, |speakers|, RecordsOf(rows, length)) == Analyze(rows, length).speakers
  {
    var speakers := UniqueSpeakers(rows);
    var report := MapUpTo(speakers, |speakers|, RecordsOf(rows, length));
    MapUpToEntries(speakers, |speakers|, RecordsOf(rows, length));
    assert speakers[..|speakers|] == speakers;
    ReportIsAnalysis(rows, length, speakers, report);
  }

  /** The map a loop over `keys[..k]` builds by storing `f(key)` under
      each key in turn. */
  ghost function MapUpTo<V>(keys: seq<string>, k: nat, f: string -> V): map<string, V>
    requires k <= |keys|
  {
    if k == 0 then map[] else MapUpTo(keys, k - 1, f)[keys[k - 1] := f(keys[k - 1])]
  }

  /** After `k` keys the map holds exactly those keys, each with its own
      value. */
  lemma {:induction false} MapUpToEntries<V>(keys: seq<string>, k: nat, f: string -> V)
    requires k <= |keys|
    ensures forall s :: s in MapUpTo(keys, k, f) <==> s in keys[..k]
    ensures forall s :: s in MapUpTo(keys, k, f) ==> MapUpTo(keys, k, f)[s] == f(s)
  {
    if k > 0 {
      MapUpToEntries(keys, k - 1, f);
      assert keys[..k] == keys[..k - 1] + [keys[k - 1]];
    }
  }

  /** The records of one speaker: the loop over the five quintiles. */
  method SpeakerRecords(rows: seq<Row>, length: real, speaker: string) returns (m: map<string, QuintileRecord>)
    requires RowsFit(rows)
    ensures m == SpeakerQuintiles(rows, length, speaker)
  {
    var speakerData := SpeakerRows(rows, speaker);
    SpeakerRowsFit(rows, speaker);
    ghost var entries := SpeakerEntries(speakerData, length, speaker);
    m := map[];
    for q := 0 to Quintiles
      invariant m == QuintileMapUpTo(entries, q)
    {
      var group := Group(speakerData, speaker, q);
      GroupFits(speakerData, speaker, q);
      QuintileMapUpToStep(entries, q);
      assert entries(q) == EntryOf(group, q, length);
      if group != [] {
        var w := AccumulateGroup(group);
        if w != [] {
          var rec := MakeRecord(q, length, w);
          assert entries(q) == Some(rec);
          m := m[QuintileLabel(q) := rec];
        } else {
          assert entries(q) == None;
        }
      } else {
        assert entries(q) == None;
      }
    }
    SpeakerQuintilesOwnRows(rows, length, speaker);
  }

  /** The steps of `process_sentiment_data` between extraction and the
      vocabulary: sort by start time, take the largest end time as the
      conversation length, and add the quintile column. */
  method OrderAndBucket(data: seq<Segment>) returns (sorted: seq<Segment>, length: real, rows: seq<Row>)
    requires |data| > 0 && SlotsFit(data)
    ensures multiset(sorted) == multiset(data) && |sorted| > 0
    ensures length == MaxEnd(data)
    ensures Segments(rows) == sorted
    ensures SlotsFit(sorted) && RowsFit(rows) && SortedByStart(rows)
    ensures forall i :: 0 <= i < |rows| ==> rows[i].quintile == QuintileOf(length, rows[i].seg.start, rows[i].seg.end)
  {
    sorted := SortByStart(data);
    assert |sorted| == |multiset(sorted)| == |data|;
    length := MaxEnd(sorted);
    MaxEndOfPermutation(data, sorted);
    rows := AssignQuintiles(sorted, length);
    PermutationFits(data, sorted);
    RowsOfFit(sorted, rows);
    SortedRows(sorted, rows);
  }

  /** The `quintile` column, `df.apply(_determine_quintile)`. */
  method AssignQuintiles(segs: seq<Segment>, length: real) returns (rows: seq<Row>)
    ensures Segments(rows) == segs
    ensures forall k :: 0 <= k < |rows| ==> rows[k].quintile == QuintileOf(length, segs[k].start, segs[k].end)
  {
    rows := [];
    for i := 0 to |segs|
      invariant |rows| == i
      invariant forall k :: 0 <= k < i ==> rows[k] == Row(segs[k], QuintileOf(length, segs[k].start, segs[k].end))
    {
      rows := rows + [Row(segs[i], QuintileOf(length, segs[i].start, segs[i].end))];
    }
    assert Segments(rows) == segs;
  }

  lemma SortedRows(sorted: seq<Segment>, rows: seq<Row>)
    requires forall i, j :: 0 <= i < j < |sorted| ==> sorted[i].start <= sorted[j].start
    requires Segments(rows) == sorted
    ensures SortedByStart(rows)
  {
    forall i, j | 0 <= i < j < |rows| ensures rows[i].seg.start <= rows[j].seg.start {
      assert rows[i].seg == sorted[i] && rows[j].seg == sorted[j];
    }
  }

  lemma PermutationFits(a: seq<Segment>, b: seq<Segment>)
    requires SlotsFit(a) && multiset(a) == multiset(b)
    ensures SlotsFit(b)
  {
    forall j | 0 <= j < |b| ensures |b[j].slots| <= MaxSlots {
      assert b[j] in multiset(a);
    }
  }

  lemma RowsOfFit(segs: seq<Segment>, rows: seq<Row>)
    requires SlotsFit(segs) && Segments(rows) == segs
    ensures RowsFit(rows)
  {
    forall r | 0 <= r < |rows| ensures |rows[r].seg.slots| <= MaxSlots {
      assert rows[r].seg == segs[r];
    }
  }

  /** The map the loop over `unique()` speakers builds is the report. */
  lemma ReportIsAnalysis(rows: seq<Row>, length: real, speakers: seq<string>, report: map<string, map<string, QuintileRecord>>)
    requires forall i :: 0 <= i < |rows| ==> rows[i].seg.speaker in speakers
    requires forall j :: 0 <= j < |speakers| ==> speakers[j] in Speakers(rows)
    requires forall s :: s in report <==> s in speakers
    requires forall s :: s in report ==> report[s] == SpeakerQuintiles(rows, length, s)
    ensures report == Analyze(rows, length).speakers
  {
    var expected := Analyze(rows, length).speakers;
    assert report.Keys == Speakers(rows) by {
      forall s | s in Speakers(rows) ensures s in report {
        var i :| 0 <= i < |rows| && rows[i].seg.speaker == s;
        assert s in speakers;
      }
    }
    assert report.Keys == expected.Keys;
  }

  lemma QuintileMapUpToStep(entry: nat -> Option<QuintileRecord>, n: nat)
    ensures QuintileMapUpTo(entry, n + 1)
         == if entry(n).Some? then QuintileMapUpTo(entry, n)[QuintileLabel(n) := entry(n).value] else QuintileMapUpTo(entry, n)
  {
  }

  lemma SpeakerRowsFit(rows: seq<Row>, speaker: string)
    requires RowsFit(rows)
    ensures RowsFit(SpeakerRows(rows, speaker))
  {
  }

  lemma GroupFits(rows: seq<Row>, speaker: string, q: int)
    requires RowsFit(rows)
    ensures RowsFit(Group(rows, speaker, q))
  {
  }
}

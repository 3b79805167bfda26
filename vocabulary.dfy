/** Vocabulary selection in `process_sentiment_data`
    (backend/processors/sentiment_processor.py): every distinct slot name is
    counted once per slot it occupies, and the fifteen most frequent names
    become `top_sentiments`. */
module Vocabulary {
  import opened Common
  import opened Payload

  /** The vocabulary holds at most this many names. */
  const MaxVocabulary: nat := 15

  /** How many of the slots carry `name`. */
  function SlotCount(slots: seq<Slot>, name: Name): nat
  {
    if slots == [] then 0
    else SlotCount(slots[..|slots| - 1], name) + (if slots[|slots| - 1].name == name then 1 else 0)
  }

  /** Occurrences of `name` over all slots of all segments, repeats within
      one segment included. */
  function Occurrences(segs: seq<Segment>, name: Name): nat
  {
    if segs == [] then 0 else SlotCount(segs[0].slots, name) + Occurrences(segs[1..], name)
  }

  /** Every name some slot carries: `all_sentiments`. */
  function AllNames(segs: seq<Segment>): set<Name>
  {
    set j, k | 0 <= j < |segs| && 0 <= k < |segs[j].slots| :: segs[j].slots[k].name
  }

  /** A name occurs exactly when some slot carries it. */
  lemma {:induction false} SlotCountPositive(slots: seq<Slot>, name: Name)
    ensures SlotCount(slots, name) > 0 <==> exists k :: 0 <= k < |slots| && slots[k].name == name
  {
    if slots != [] {
      var init := slots[..|slots| - 1];
      SlotCountPositive(init, name);
      assert forall k :: 0 <= k < |init| ==> init[k] == slots[k];
    }
  }

  lemma {:induction false} OccurrencesPositive(segs: seq<Segment>, name: Name)
    ensures Occurrences(segs, name) > 0 <==> name in AllNames(segs)
  {
    if segs != [] {
      OccurrencesPositive(segs[1..], name);
      SlotCountPositive(segs[0].slots, name);
      if name in AllNames(segs) {
        var j, k :| 0 <= j < |segs| && 0 <= k < |segs[j].slots| && segs[j].slots[k].name == name;
        if j > 0 {
          assert segs[1..][j - 1] == segs[j];
        }
      }
      if name in AllNames(segs[1..]) {
        var j, k :| 0 <= j < |segs[1..]| && 0 <= k < |segs[1..][j].slots| && segs[1..][j].slots[k].name == name;
        assert segs[j + 1] == segs[1..][j];
      }
    }
  }

  // ---------------------------------------------------------------------
  // Collecting the names, column by column

  /** Names in slot columns `0 .. i-1`. */
  function NamesBelow(segs: seq<Segment>, i: nat): set<Name>
  {
    set j, k | 0 <= j < |segs| && 0 <= k < |segs[j].slots| && k < i :: segs[j].slots[k].name
  }

  /** `df[col].dropna().unique()` for slot column `i`. */
  function ColumnNames(segs: seq<Segment>, i: nat): set<Name>
  {
    set j | 0 <= j < |segs| && i < |segs[j].slots| :: segs[j].slots[i].name
  }

  method CollectNames(segs: seq<Segment>) returns (names: set<Name>)
    requires SlotsFit(segs)
    ensures names == AllNames(segs)
  {
    names := {};
    for i := 0 to MaxSlots
      invariant names == NamesBelow(segs, i)
    {
      names := names + ColumnNames(segs, i);
    }
  }

  // ---------------------------------------------------------------------
  // Counting one name, column by column

  /** `(df[col] == name).sum()` for slot column `i`. */
  function ColumnHits(segs: seq<Segment>, i: nat, name: Name): nat
  {
    if segs == [] then 0
    else (if i < |segs[0].slots| && segs[0].slots[i].name == name then 1 else 0) + ColumnHits(segs[1..], i, name)
  }

  /** Occurrences of `name` among the first `i` slots of each segment. */
  function OccurrencesBelow(segs: seq<Segment>, i: nat, name: Name): nat
  {
    if segs == [] then 0
    else
      var slots := segs[0].slots;
      SlotCount(if i < |slots| then slots[..i] else slots, name) + OccurrencesBelow(segs[1..], i, name)
  }

  lemma {:induction false} OccurrencesBelowStep(segs: seq<Segment>, i: nat, name: Name)
    ensures OccurrencesBelow(segs, i + 1, name) == OccurrencesBelow(segs, i, name) + ColumnHits(segs, i, name)
  {
    if segs != [] {
      OccurrencesBelowStep(segs[1..], i, name);
      var slots := segs[0].slots;
      if i < |slots| {
        assert slots[..i + 1][..i] == slots[..i];
        if i + 1 == |slots| {
          assert slots[..i + 1] == slots;
        }
      }
    }
  }

  lemma {:induction false} OccurrencesBelowZero(segs: seq<Segment>, name: Name)
    ensures OccurrencesBelow(segs, 0, name) == 0
  {
    if segs != [] {
      OccurrencesBelowZero(segs[1..], name);
      if 0 < |segs[0].slots| {
        assert segs[0].slots[..0] == [];
      }
    }
  }

  lemma {:induction false} OccurrencesBelowAll(segs: seq<Segment>, name: Name)
    requires SlotsFit(segs)
    ensures OccurrencesBelow(segs, MaxSlots, name) == Occurrences(segs, name)
  {
    if segs != [] {
      assert SlotsFit(segs[1..]) by {
        forall j | 0 <= j < |segs[1..]| ensures |segs[1..][j].slots| <= MaxSlots {
          assert segs[1..][j] == segs[j + 1];
        }
      }
      OccurrencesBelowAll(segs[1..], name);
      assert |segs[0].slots| <= MaxSlots;
      if |segs[0].slots| == MaxSlots {
        assert segs[0].slots[..MaxSlots] == segs[0].slots;
      }
    }
  }

  /** The inner loop of the counting: one name over the fifteen columns. */
  method CountName(segs: seq<Segment>, name: Name) returns (count: nat)
    requires SlotsFit(segs)
    ensures count == Occurrences(segs, name)
  {
    count := 0;
    OccurrencesBelowZero(segs, name);
    for i := 0 to MaxSlots
      invariant count == OccurrencesBelow(segs, i, name)
    {
      OccurrencesBelowStep(segs, i, name);
      count := count + ColumnHits(segs, i, name);
    }
    OccurrencesBelowAll(segs, name);
  }

  // ---------------------------------------------------------------------
  // The counts table and the top fifteen

  /** One entry of `sentiment_counts`. */
  datatype NameCount = NameCount(name: Name, count: nat)

  function CountKey(c: NameCount): real { c.count as real }

  /** A counts table for `segs`: one entry per distinct name, with its
      occurrence count, in some order. */
  ghost predicate IsCountTable(counts: seq<NameCount>, segs: seq<Segment>)
  {
    && (forall i :: 0 <= i < |counts| ==> counts[i].name in AllNames(segs))
    && (forall i :: 0 <= i < |counts| ==> counts[i].count == Occurrences(segs, counts[i].name))
    && (forall i, j :: 0 <= i < j < |counts| ==> counts[i].name != counts[j].name)
    && (forall n :: n in AllNames(segs) ==> exists i :: 0 <= i < |counts| && counts[i].name == n)
    && |counts| == |AllNames(segs)|
  }

  /** `top_sentiments` for `segs`: as many names as possible up to fifteen,
      all distinct, all present, ordered by non-increasing count, and no
      name left out occurs more often than any name kept. */
  ghost predicate IsVocabulary(top: seq<Name>, segs: seq<Segment>)
  {
    && |top| == (if |AllNames(segs)| < MaxVocabulary then |AllNames(segs)| else MaxVocabulary)
    && Distinct(top)
    && (forall i :: 0 <= i < |top| ==> top[i] in AllNames(segs))
    && (forall i, j :: 0 <= i < j < |top| ==> Occurrences(segs, top[i]) >= Occurrences(segs, top[j]))
    && (forall n, i :: n in AllNames(segs) && n !in top && 0 <= i < |top| ==>
          Occurrences(segs, n) <= Occurrences(segs, top[i]))
  }

  /** The loop over `all_sentiments`, which Python visits in an arbitrary
      order: the model picks the next name arbitrarily as well. */
  method CountSentiments(segs: seq<Segment>, names: set<Name>) returns (counts: seq<NameCount>)
    requires SlotsFit(segs) && names == AllNames(segs)
    ensures IsCountTable(counts, segs)
  {
    counts := [];
    var remaining := names;
    while remaining != {}
      invariant remaining <= names
      invariant CountedSoFar(counts, segs, names, remaining)
      decreases remaining
    {
      var n :| n in remaining;
      var c := CountName(segs, n);
      CountedStep(counts, segs, names, remaining, n);
      counts := counts + [NameCount(n, c)];
      remaining := remaining - {n};
    }
  }

  /** The loop invariant of the counting: the entries so far are exactly
      the names already taken out of `remaining`, each with its count. */
  ghost predicate CountedSoFar(counts: seq<NameCount>, segs: seq<Segment>, names: set<Name>, remaining: set<Name>)
  {
    && (forall i :: 0 <= i < |counts| ==> counts[i].name in names && counts[i].name !in remaining)
    && (forall i :: 0 <= i < |counts| ==> counts[i].count == Occurrences(segs, counts[i].name))
    && (forall i, j :: 0 <= i < j < |counts| ==> counts[i].name != counts[j].name)
    && (forall n :: n in names && n !in remaining ==> exists i :: 0 <= i < |counts| && counts[i].name == n)
    && |counts| + |remaining| == |names|
  }

  lemma CountedStep(counts: seq<NameCount>, segs: seq<Segment>, names: set<Name>, remaining: set<Name>, n: Name)
    requires remaining <= names && n in remaining
    requires CountedSoFar(counts, segs, names, remaining)
    ensures CountedSoFar(counts + [NameCount(n, Occurrences(segs, n))], segs, names, remaining - {n})
  {
    var after := counts + [NameCount(n, Occurrences(segs, n))];
    var rest := remaining - {n};
    forall m | m in names && m !in rest
      ensures exists i :: 0 <= i < |after| && after[i].name == m
    {
      if m == n {
        assert after[|after| - 1].name == m;
      } else {
        var i :| 0 <= i < |counts| && counts[i].name == m;
        assert after[i] == counts[i];
      }
    }
  }

  function NamesOf(cs: seq<NameCount>): (r: seq<Name>)
    ensures |r| == |cs|
    ensures forall i :: 0 <= i < |cs| ==> r[i] == cs[i].name
  {
    if cs == [] then [] else [cs[0].name] + NamesOf(cs[1..])
  }

  /** `sorted(sentiment_counts.items(), key=count, reverse=True)`, then the
      names of the first fifteen. */
  function TopNames(counts: seq<NameCount>): seq<Name>
  {
    var sorted := SortDesc(counts, CountKey);
    NamesOf(if |sorted| < MaxVocabulary then sorted else sorted[..MaxVocabulary])
  }

  /** Each entry names a present name and carries its count. */
  ghost predicate EntriesValid(cs: seq<NameCount>, segs: seq<Segment>)
  {
    forall i :: 0 <= i < |cs| ==> cs[i].name in AllNames(segs) && cs[i].count == Occurrences(segs, cs[i].name)
  }

  lemma EntriesValidPermutation(a: seq<NameCount>, b: seq<NameCount>, segs: seq<Segment>)
    requires EntriesValid(a, segs) && multiset(a) == multiset(b)
    ensures EntriesValid(b, segs)
  {
    forall i | 0 <= i < |b|
      ensures b[i].name in AllNames(segs) && b[i].count == Occurrences(segs, b[i].name)
    {
      assert b[i] in multiset(a);
    }
  }

  /** Names of valid entries are distinct when the entries are. */
  lemma ValidNamesDistinct(cs: seq<NameCount>, segs: seq<Segment>, k: nat)
    requires EntriesValid(cs, segs) && Distinct(cs) && k <= |cs|
    ensures Distinct(NamesOf(cs[..k]))
  {
    var top := NamesOf(cs[..k]);
    forall i, j | 0 <= i < j < k ensures top[i] != top[j] {
      assert top[i] == cs[i].name && top[j] == cs[j].name;
      assert cs[i] == NameCount(cs[i].name, Occurrences(segs, cs[i].name));
      assert cs[j] == NameCount(cs[j].name, Occurrences(segs, cs[j].name));
    }
  }

  /** A name of the table that is not among the first `k` sorted names
      occurs no more often than any of them. */
  lemma LeftOutIsNotMore(counts: seq<NameCount>, sorted: seq<NameCount>, segs: seq<Segment>, k: nat, n: Name, i: nat)
    requires multiset(sorted) == multiset(counts) && NonIncreasing(sorted, CountKey)
    requires EntriesValid(sorted, segs)
    requires k <= |sorted| && i < k
    requires exists x :: 0 <= x < |counts| && counts[x].name == n
    requires forall y :: 0 <= y < k ==> sorted[y].name != n
    ensures Occurrences(segs, n) <= Occurrences(segs, sorted[i].name)
  {
    var x :| 0 <= x < |counts| && counts[x].name == n;
    assert counts[x] in multiset(sorted);
    var y :| 0 <= y < |sorted| && sorted[y] == counts[x];
    assert CountKey(sorted[i]) >= CountKey(sorted[y]);
  }

  /** The first `k` sorted names keep the order of their counts. */
  lemma PrefixOrdered(sorted: seq<NameCount>, segs: seq<Segment>, k: nat)
    requires EntriesValid(sorted, segs) && NonIncreasing(sorted, CountKey) && k <= |sorted|
    ensures var top := NamesOf(sorted[..k]);
      forall i, j :: 0 <= i < j < |top| ==> Occurrences(segs, top[i]) >= Occurrences(segs, top[j])
  {
    var top := NamesOf(sorted[..k]);
    forall i, j | 0 <= i < j < |top| ensures Occurrences(segs, top[i]) >= Occurrences(segs, top[j]) {
      assert top[i] == sorted[i].name && top[j] == sorted[j].name;
      assert CountKey(sorted[i]) >= CountKey(sorted[j]);
    }
  }

  /** Every name of the table left out of the first `k` occurs no more
      often than any name kept. */
  lemma PrefixMaximal(counts: seq<NameCount>, sorted: seq<NameCount>, segs: seq<Segment>, k: nat)
    requires multiset(sorted) == multiset(counts) && NonIncreasing(sorted, CountKey)
    requires EntriesValid(sorted, segs) && k <= |sorted|
    requires forall n :: n in AllNames(segs) ==> exists i :: 0 <= i < |counts| && counts[i].name == n
    ensures var top := NamesOf(sorted[..k]);
      forall n, i :: n in AllNames(segs) && n !in top && 0 <= i < |top| ==>
        Occurrences(segs, n) <= Occurrences(segs, top[i])
  {
    var top := NamesOf(sorted[..k]);
    forall n, i | n in AllNames(segs) && n !in top && 0 <= i < |top|
      ensures Occurrences(segs, n) <= Occurrences(segs, top[i])
    {
      forall y | 0 <= y < k ensures sorted[y].name != n {
        assert top[y] == sorted[y].name;
      }
      assert top[i] == sorted[i].name;
      LeftOutIsNotMore(counts, sorted, segs, k, n, i);
    }
  }

  /** Whatever order the counts table is in, its top fifteen is a valid
      vocabulary. */
  lemma TopNamesIsVocabulary(counts: seq<NameCount>, segs: seq<Segment>)
    requires IsCountTable(counts, segs)
    ensures IsVocabulary(TopNames(counts), segs)
  {
    var sorted := SortDesc(counts, CountKey);
    var k := if |sorted| < MaxVocabulary then |sorted| else MaxVocabulary;
    assert TopNames(counts) == NamesOf(sorted[..k]) by {
      assert sorted[..k] == if |sorted| < MaxVocabulary then sorted else sorted[..MaxVocabulary];
    }
    assert EntriesValid(counts, segs);
    EntriesValidPermutation(counts, sorted, segs);
    TableDistinct(counts, segs);
    DistinctPermutation(counts, sorted);
    PrefixIsVocabulary(counts, sorted, segs, k);
  }

  /** Entries with distinct names are distinct entries. */
  lemma TableDistinct(counts: seq<NameCount>, segs: seq<Segment>)
    requires forall i, j :: 0 <= i < j < |counts| ==> counts[i].name != counts[j].name
    ensures Distinct(counts)
  {
    forall i, j | 0 <= i < j < |counts| ensures counts[i] != counts[j] {
      assert counts[i].name != counts[j].name;
    }
  }

  /** The first `k` entries of a sorted permutation of the counts table,
      with `k` the smaller of fifteen and the table size, name a valid
      vocabulary. */
  lemma PrefixIsVocabulary(counts: seq<NameCount>, sorted: seq<NameCount>, segs: seq<Segment>, k: nat)
    requires IsCountTable(counts, segs)
    requires multiset(sorted) == multiset(counts) && NonIncreasing(sorted, CountKey)
    requires EntriesValid(sorted, segs) && Distinct(sorted)
    requires k == if |sorted| < MaxVocabulary then |sorted| else MaxVocabulary
    ensures IsVocabulary(NamesOf(sorted[..k]), segs)
  {
    assert |sorted| == |counts| by {
      assert |multiset(sorted)| == |multiset(counts)|;
    }
    var top := NamesOf(sorted[..k]);
    ValidNamesDistinct(sorted, segs, k);
    forall i | 0 <= i < k ensures top[i] in AllNames(segs) {
      assert top[i] == sorted[i].name;
    }
    PrefixOrdered(sorted, segs, k);
    PrefixMaximal(counts, sorted, segs, k);
  }

  // ---------------------------------------------------------------------
  // The vocabulary does not depend on the order of the segments

  lemma {:induction false} OccurrencesAppend(a: seq<Segment>, b: seq<Segment>, name: Name)
    ensures Occurrences(a + b, name) == Occurrences(a, name) + Occurrences(b, name)
  {
    if a == [] {
      assert a + b == b;
    } else {
      assert (a + b)[1..] == a[1..] + b;
      OccurrencesAppend(a[1..], b, name);
    }
  }

  /** Reordering the segments keeps every occurrence count. */
  lemma {:induction false} OccurrencesPermutation(a: seq<Segment>, b: seq<Segment>, name: Name)
    requires multiset(a) == multiset(b)
    ensures Occurrences(a, name) == Occurrences(b, name)
    decreases |a|
  {
    if a == [] {
      assert |b| == |multiset(b)| == 0;
    } else {
      assert a[0] in multiset(b) by {
        assert a[0] in multiset(a);
      }
      var j :| 0 <= j < |b| && b[j] == a[0];
      var rest := b[..j] + b[j + 1..];
      TailPermutation(a, b, j);
      OccurrencesPermutation(a[1..], rest, name);
      OccurrencesRemove(b, j, name);
      assert Occurrences(a, name) == SlotCount(a[0].slots, name) + Occurrences(a[1..], name);
    }
  }

  /** Taking one segment out removes exactly its own occurrences. */
  lemma OccurrencesRemove(b: seq<Segment>, j: nat, name: Name)
    requires j < |b|
    ensures Occurrences(b, name) == SlotCount(b[j].slots, name) + Occurrences(b[..j] + b[j + 1..], name)
  {
    var tail := [b[j]] + b[j + 1..];
    assert b == b[..j] + tail;
    assert tail[0] == b[j] && tail[1..] == b[j + 1..];
    OccurrencesAppend(b[..j], tail, name);
    OccurrencesAppend(b[..j], b[j + 1..], name);
  }

  lemma AllNamesSub(a: seq<Segment>, b: seq<Segment>)
    requires multiset(a) == multiset(b)
    ensures AllNames(a) <= AllNames(b)
  {
    forall n | n in AllNames(a) ensures n in AllNames(b) {
      var j, k :| 0 <= j < |a| && 0 <= k < |a[j].slots| && a[j].slots[k].name == n;
      assert a[j] in multiset(b);
      var j' :| 0 <= j' < |b| && b[j'] == a[j];
      assert b[j'].slots[k].name == n;
    }
  }

  /** Reordering the segments keeps the set of names. */
  lemma AllNamesPermutation(a: seq<Segment>, b: seq<Segment>)
    requires multiset(a) == multiset(b)
    ensures AllNames(a) == AllNames(b)
  {
    AllNamesSub(a, b);
    AllNamesSub(b, a);
  }

  /** A vocabulary of the segments is a vocabulary of any reordering of
      them: sorting by start time does not change what is selected. */
  lemma VocabularyOfPermutation(top: seq<Name>, a: seq<Segment>, b: seq<Segment>)
    requires IsVocabulary(top, a) && multiset(a) == multiset(b)
    ensures IsVocabulary(top, b)
  {
    AllNamesPermutation(a, b);
    forall n ensures Occurrences(a, n) == Occurrences(b, n) {
      OccurrencesPermutation(a, b, n);
    }
  }

  /** The vocabulary step of `process_sentiment_data`: collect the names,
      count each, sort by count and keep fifteen. */
  method SelectVocabulary(segs: seq<Segment>) returns (top: seq<Name>)
    requires SlotsFit(segs)
    ensures IsVocabulary(top, segs)
  {
    var names := CollectNames(segs);
    var counts := CountSentiments(segs, names);
    top := TopNames(counts);
    TopNamesIsVocabulary(counts, segs);
  }
}

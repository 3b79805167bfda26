/** Small building blocks shared by the sentiment engine and the transcript
    builder: an optional value, a descending insertion sort on a real-valued
    key (the behaviour of Python's `sorted(xs, key=k, reverse=True)`), and
    the prefix slice `xs[:n]`. */
module Common {

  datatype Option<+T> = None | Some(value: T)

  /** Every key is at least as large as every key after it. */
  ghost predicate NonIncreasing<T>(s: seq<T>, key: T -> real)
  {
    forall i, j :: 0 <= i < j < |s| ==> key(s[i]) >= key(s[j])
  }

  /** Inserts `x` in front of the first element whose key is not larger
      than its own, so that `x` stays ahead of equal keys. */
  function InsertDesc<T>(x: T, s: seq<T>, key: T -> real): (r: seq<T>)
    requires NonIncreasing(s, key)
    ensures |r| == |s| + 1
    ensures multiset(r) == multiset(s) + multiset{x}
    ensures NonIncreasing(r, key)
    ensures r[0] == if s != [] && key(s[0]) > key(x) then s[0] else x
    decreases |s|
  {
    if s == [] then [x]
    else if key(s[0]) > key(x) then
      TailNonIncreasing(s, key);
      var rest := InsertDesc(x, s[1..], key);
      InsertAheadKeepsOrder(s[0], rest, key);
      assert s == [s[0]] + s[1..];
      [s[0]] + rest
    else
      InsertFrontKeepsOrder(x, s, key);
      [x] + s
  }

  lemma TailNonIncreasing<T>(s: seq<T>, key: T -> real)
    requires s != [] && NonIncreasing(s, key)
    ensures NonIncreasing(s[1..], key)
  {
    var t := s[1..];
    forall i, j | 0 <= i < j < |t| ensures key(t[i]) >= key(t[j]) {
      assert t[i] == s[i + 1] && t[j] == s[j + 1];
    }
  }

  /** Putting `h` in front of `rest` keeps the order when `h` is at least
      every key of `rest`. */
  lemma InsertAheadKeepsOrder<T>(h: T, rest: seq<T>, key: T -> real)
    requires NonIncreasing(rest, key)
    requires rest != [] && key(h) >= key(rest[0])
    ensures NonIncreasing([h] + rest, key)
  {
    var r := [h] + rest;
    forall i, j | 0 <= i < j < |r| ensures key(r[i]) >= key(r[j]) {
      if i == 0 {
        assert r[j] == rest[j - 1];
        assert key(rest[0]) >= key(rest[j - 1]) || j == 1;
      } else {
        assert r[i] == rest[i - 1] && r[j] == rest[j - 1];
      }
    }
  }

  lemma InsertFrontKeepsOrder<T>(x: T, s: seq<T>, key: T -> real)
    requires NonIncreasing(s, key)
    requires s != [] && key(s[0]) <= key(x)
    ensures NonIncreasing([x] + s, key)
  {
    InsertAheadKeepsOrder(x, s, key);
  }

  /** Insertion sort, largest key first; each element goes ahead of the
      later equal keys already sorted. */
  function SortDesc<T>(s: seq<T>, key: T -> real): (r: seq<T>)
    ensures |r| == |s|
    ensures multiset(r) == multiset(s)
    ensures NonIncreasing(r, key)
    decreases |s|
  {
    if s == [] then []
    else
      assert s == [s[0]] + s[1..];
      InsertDesc(s[0], SortDesc(s[1..], key), key)
  }

  /** The first `k` elements of a sequence are among its elements. */
  lemma PrefixSubMultiset<T>(s: seq<T>, k: nat)
    requires k <= |s|
    ensures multiset(s[..k]) <= multiset(s)
  {
    assert s == s[..k] + s[k..];
  }

  lemma Singleton<T>(s: seq<T>)
    requires |s| == 1
    ensures s == [s[0]]
  {
  }

  lemma SplitLast<T>(s: seq<T>)
    requires s != []
    ensures s == s[..|s| - 1] + [s[|s| - 1]]
  {
  }

  /** Removing the element at `j` removes one copy of it. */
  lemma RemoveAt<T>(s: seq<T>, j: nat)
    requires j < |s|
    ensures multiset(s[..j] + s[j + 1..]) == multiset(s) - multiset{s[j]}
  {
    assert s == s[..j] + [s[j]] + s[j + 1..];
  }

  /** Matching the head of `a` with position `j` of `b` leaves two
      permutations of each other. */
  lemma TailPermutation<T>(a: seq<T>, b: seq<T>, j: nat)
    requires a != [] && j < |b| && b[j] == a[0] && multiset(a) == multiset(b)
    ensures multiset(a[1..]) == multiset(b[..j] + b[j + 1..])
  {
    RemoveAt(b, j);
    assert a == [a[0]] + a[1..];
    assert multiset(a[1..]) == multiset(a) - multiset{a[0]};
  }

  /** A prefix of a non-increasing sequence is non-increasing. */
  lemma PrefixNonIncreasing<T>(s: seq<T>, k: nat, key: T -> real)
    requires k <= |s| && NonIncreasing(s, key)
    ensures NonIncreasing(s[..k], key)
  {
    var p := s[..k];
    forall i, j | 0 <= i < j < |p| ensures key(p[i]) >= key(p[j]) {
      assert p[i] == s[i] && p[j] == s[j];
    }
  }

  /** The leftmost position holding a largest key: Python's `max(xs, key=k)`
      keeps the first of several equal maxima. */
  function FirstMax<T>(s: seq<T>, key: T -> real): (i: nat)
    requires |s| > 0
    ensures i < |s|
    ensures forall j :: 0 <= j < |s| ==> key(s[j]) <= key(s[i])
    ensures forall j :: 0 <= j < i ==> key(s[j]) < key(s[i])
  {
    if |s| == 1 then 0
    else
      var p := FirstMax(s[..|s| - 1], key);
      assert forall j :: 0 <= j < |s| - 1 ==> s[..|s| - 1][j] == s[j];
      if key(s[|s| - 1]) > key(s[p]) then |s| - 1 else p
  }

  /** Two positions that both satisfy FirstMax's contract are the same one. */
  lemma FirstMaxUnique<T>(s: seq<T>, key: T -> real, i: nat, i': nat)
    requires i < |s| && i' < |s|
    requires forall j :: 0 <= j < |s| ==> key(s[j]) <= key(s[i]) && key(s[j]) <= key(s[i'])
    requires forall j :: 0 <= j < i ==> key(s[j]) < key(s[i])
    requires forall j :: 0 <= j < i' ==> key(s[j]) < key(s[i'])
    ensures i == i'
  {
    assert key(s[i]) == key(s[i']);
  }

  /** The first maximum of `s` is either its head or the first maximum of
      its tail, whichever has the strictly larger key. */
  lemma FirstMaxOfTail<T>(s: seq<T>, key: T -> real)
    requires |s| > 1
    ensures var m := FirstMax(s[1..], key);
      FirstMax(s, key) == if key(s[m + 1]) > key(s[0]) then m + 1 else 0
  {
    var t := s[1..];
    var m := FirstMax(t, key);
    var i := FirstMax(s, key);
    assert forall j :: 1 <= j < |s| ==> s[j] == t[j - 1];
    if key(s[m + 1]) > key(s[0]) {
      FirstMaxUnique(s, key, i, m + 1);
    } else {
      FirstMaxUnique(s, key, i, 0);
    }
  }

  /** With stability, the head of the descending sort is the first maximum
      of the input, the same element `max` picks. */
  lemma {:induction false} SortDescHeadIsFirstMax<T>(s: seq<T>, key: T -> real)
    requires |s| > 0
    ensures SortDesc(s, key)[0] == s[FirstMax(s, key)]
  {
    var r := SortDesc(s[1..], key);
    assert SortDesc(s, key) == InsertDesc(s[0], r, key);
    if |s| > 1 {
      SortDescHeadIsFirstMax(s[1..], key);
      FirstMaxOfTail(s, key);
    }
  }

  /** Python's slice `s[:n]`: a negative `n` counts from the end. */
  function Take<T>(s: seq<T>, n: int): (r: seq<T>)
    ensures r <= s
    ensures 0 <= n ==> |r| == if n < |s| then n else |s|
    ensures n < 0 ==> |r| == if |s| + n > 0 then |s| + n else 0
  {
    if n >= 0 then
      (if n < |s| then s[..n] else s)
    else
      (if |s| + n > 0 then s[..|s| + n] else [])
  }

  /** No element occurs twice. */
  ghost predicate Distinct<T>(s: seq<T>)
  {
    forall i, j :: 0 <= i < j < |s| ==> s[i] != s[j]
  }

  /** A permutation of a sequence without repeats has no repeats. */
  lemma {:induction false} DistinctPermutation<T>(a: seq<T>, b: seq<T>)
    requires Distinct(a) && multiset(a) == multiset(b)
    ensures Distinct(b)
  {
    forall x ensures multiset(a)[x] <= 1 {
      DistinctAtMostOnce(a, x);
    }
    forall i, j | 0 <= i < j < |b| ensures b[i] != b[j] {
      assert b == b[..i] + [b[i]] + b[i + 1..j] + [b[j]] + b[j + 1..];
      assert multiset(b)[b[i]] >= 1 + multiset([b[j]])[b[i]];
    }
  }

  lemma {:induction false} DistinctAtMostOnce<T>(s: seq<T>, x: T)
    requires Distinct(s)
    ensures multiset(s)[x] <= 1
  {
    if s != [] {
      assert s == [s[0]] + s[1..];
      assert Distinct(s[1..]) by {
        forall i, j | 0 <= i < j < |s[1..]| ensures s[1..][i] != s[1..][j] {
          assert s[1..][i] == s[i + 1] && s[1..][j] == s[j + 1];
        }
      }
      DistinctAtMostOnce(s[1..], x);
      if s[0] == x {
        assert x !in s[1..] by {
          forall k | 0 <= k < |s[1..]| ensures s[1..][k] != x {
            assert s[1..][k] == s[k + 1];
          }
        }
      }
    }
  }
}

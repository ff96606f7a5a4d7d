/** `Array.prototype.sort` with a comparator `(a, b) => key(a) - key(b)`.  The language
    requires the sort to be stable, and a stable sort by a key has exactly one possible
    result, so a stable insertion sort is a faithful model of it. */
module StableSort {

  ghost predicate Sorted<T>(s: seq<T>, key: T -> real)
  {
    forall i, j :: 0 <= i < j < |s| ==> key(s[i]) <= key(s[j])
  }

  /** Inserts `x` before the first element whose key is not smaller, so that `x` stays in
      front of every element of equal key, as it was in the input. */
  function Insert<T>(x: T, s: seq<T>, key: T -> real): (r: seq<T>)
    ensures |r| == |s| + 1
    ensures multiset(r) == multiset(s) + multiset{x}
  {
    if |s| == 0 || key(x) <= key(s[0]) then [x] + s
    else
      assert s == [s[0]] + s[1..];
      [s[0]] + Insert(x, s[1..], key)
  }

  /** Sorts by ascending key, keeping the input order among equal keys. */
  function SortBy<T>(s: seq<T>, key: T -> real): (r: seq<T>)
    ensures |r| == |s|
    ensures multiset(r) == multiset(s)
  {
    if |s| == 0 then []
    else
      assert s == [s[0]] + s[1..];
      Insert(s[0], SortBy(s[1..], key), key)
  }

  lemma {:induction false} InsertSorted<T>(x: T, s: seq<T>, key: T -> real)
    requires Sorted(s, key)
    ensures Sorted(Insert(x, s, key), key)
    decreases |s|
  {
    if |s| == 0 || key(x) <= key(s[0]) {
    } else {
      var t := Insert(x, s[1..], key);
      InsertSorted(x, s[1..], key);
      forall j | 0 <= j < |t|
        ensures key(s[0]) <= key(t[j])
      {
        assert t[j] in multiset(t);
        assert t[j] == x || t[j] in multiset(s[1..]);
        if t[j] != x {
          var k :| 0 <= k < |s[1..]| && s[1..][k] == t[j];
          assert s[k + 1] == t[j];
        }
      }
    }
  }

  /** The sort's output is in ascending key order. */
  lemma {:induction false} SortBySorted<T>(s: seq<T>, key: T -> real)
    ensures Sorted(SortBy(s, key), key)
    decreases |s|
  {
    if |s| > 0 {
      SortBySorted(s[1..], key);
      InsertSorted(s[0], SortBy(s[1..], key), key);
    }
  }

  /** Stability at the front: an element whose key is no larger than any later key stays first. */
  lemma SortByKeepsLeastFirst<T>(s: seq<T>, key: T -> real)
    requires |s| > 0
    requires forall i :: 0 < i < |s| ==> key(s[0]) <= key(s[i])
    ensures SortBy(s, key) == [s[0]] + SortBy(s[1..], key)
  {
    var t := SortBy(s[1..], key);
    if |t| > 0 {
      assert t[0] in multiset(s[1..]);
      var k :| 0 <= k < |s[1..]| && s[1..][k] == t[0];
      assert s[k + 1] == t[0];
    }
  }

  /** The same at the front two places: two elements no larger than any later key, the
      first no larger than the second, keep their order and their places. */
  lemma SortByKeepsTwoFirst<T>(s: seq<T>, key: T -> real)
    requires |s| >= 2
    requires forall i :: 0 < i < |s| ==> key(s[0]) <= key(s[i])
    requires forall i :: 1 < i < |s| ==> key(s[1]) <= key(s[i])
    ensures SortBy(s, key)[0] == s[0] && SortBy(s, key)[1] == s[1]
  {
    SortByKeepsLeastFirst(s, key);
    SortByKeepsLeastFirst(s[1..], key);
  }

  /** An input already in order comes back unchanged. */
  lemma {:induction false} SortByOfSorted<T>(s: seq<T>, key: T -> real)
    requires Sorted(s, key)
    ensures SortBy(s, key) == s
    decreases |s|
  {
    if |s| > 0 {
      SortByOfSorted(s[1..], key);
      SortByKeepsLeastFirst(s, key);
    }
  }

  // ---------------------------------------------------------------- counting

  function Count<T>(s: seq<T>, p: T -> bool): nat
  {
    if |s| == 0 then 0 else (if p(s[0]) then 1 else 0) + Count(s[1..], p)
  }

  lemma {:induction false} CountAppend<T>(a: seq<T>, b: seq<T>, p: T -> bool)
    ensures Count(a + b, p) == Count(a, p) + Count(b, p)
    decreases |a|
  {
    if |a| == 0 {
      assert a + b == b;
    } else {
      assert (a + b)[1..] == a[1..] + b;
      CountAppend(a[1..], b, p);
    }
  }

  lemma {:induction false} CountInsert<T>(x: T, s: seq<T>, key: T -> real, p: T -> bool)
    ensures Count(Insert(x, s, key), p) == (if p(x) then 1 else 0) + Count(s, p)
    decreases |s|
  {
    if |s| == 0 || key(x) <= key(s[0]) {
      assert Insert(x, s, key)[1..] == s;
    } else {
      CountInsert(x, s[1..], key, p);
      assert Insert(x, s, key)[1..] == Insert(x, s[1..], key);
    }
  }

  /** Sorting changes no count. */
  lemma {:induction false} CountSortBy<T>(s: seq<T>, key: T -> real, p: T -> bool)
    ensures Count(SortBy(s, key), p) == Count(s, p)
    decreases |s|
  {
    if |s| > 0 {
      CountSortBy(s[1..], key, p);
      CountInsert(s[0], SortBy(s[1..], key), key, p);
    }
  }

  /** `s.filter(p)` */
  function Filter<T>(s: seq<T>, p: T -> bool): (r: seq<T>)
    ensures |r| == Count(s, p)
    ensures forall x :: x in r ==> x in s && p(x)
  {
    if |s| == 0 then []
    else if p(s[0]) then [s[0]] + Filter(s[1..], p)
    else Filter(s[1..], p)
  }

  lemma {:induction false} FilterAppend<T>(a: seq<T>, b: seq<T>, p: T -> bool)
    ensures Filter(a + b, p) == Filter(a, p) + Filter(b, p)
    decreases |a|
  {
    if |a| == 0 {
      assert a + b == b;
    } else {
      assert (a + b)[1..] == a[1..] + b;
      FilterAppend(a[1..], b, p);
    }
  }

  /** Filtering keeps a sequence whose every element passes... */
  lemma {:induction false} FilterAll<T>(s: seq<T>, p: T -> bool)
    requires forall i :: 0 <= i < |s| ==> p(s[i])
    ensures Filter(s, p) == s
    decreases |s|
  {
    if |s| > 0 {
      FilterAll(s[1..], p);
    }
  }

  /** ...and empties one whose every element fails. */
  lemma {:induction false} FilterNone<T>(s: seq<T>, p: T -> bool)
    requires forall i :: 0 <= i < |s| ==> !p(s[i])
    ensures Filter(s, p) == []
    decreases |s|
  {
    if |s| > 0 {
      FilterNone(s[1..], p);
    }
  }

  // ---------------------------------------------------------------- flattening

  /** `xs.forEach(x => out.push(...f(x)))` */
  function FlatMap<T, U>(s: seq<T>, f: T -> seq<U>): seq<U>
  {
    if |s| == 0 then [] else f(s[0]) + FlatMap(s[1..], f)
  }

  lemma {:induction false} FlatMapInsert<T, U>(x: T, s: seq<T>, key: T -> real, f: T -> seq<U>)
    ensures multiset(FlatMap(Insert(x, s, key), f)) == multiset(f(x)) + multiset(FlatMap(s, f))
    decreases |s|
  {
    if |s| == 0 || key(x) <= key(s[0]) {
      assert Insert(x, s, key)[1..] == s;
    } else {
      FlatMapInsert(x, s[1..], key, f);
      assert Insert(x, s, key)[1..] == Insert(x, s[1..], key);
    }
  }

  /** Flattening a sorted copy yields the same elements as flattening the input. */
  lemma {:induction false} FlatMapSortBy<T, U>(s: seq<T>, key: T -> real, f: T -> seq<U>)
    ensures multiset(FlatMap(SortBy(s, key), f)) == multiset(FlatMap(s, f))
    decreases |s|
  {
    if |s| > 0 {
      FlatMapSortBy(s[1..], key, f);
      FlatMapInsert(s[0], SortBy(s[1..], key), key, f);
    }
  }

  /** Every element of a flattening comes from some element of the input. */
  lemma {:induction false} FlatMapMember<T, U>(s: seq<T>, f: T -> seq<U>, y: U)
    requires y in FlatMap(s, f)
    ensures exists x :: x in s && y in f(x)
    decreases |s|
  {
    if y !in f(s[0]) {
      FlatMapMember(s[1..], f, y);
      var x :| x in s[1..] && y in f(x);
      assert x in s;
    }
  }

  /** A property of every piece holds of the whole flattening. */
  lemma {:induction false} FlatMapAll<T, U>(s: seq<T>, f: T -> seq<U>, p: U -> bool)
    requires forall x, y :: x in s && y in f(x) ==> p(y)
    ensures forall y :: y in FlatMap(s, f) ==> p(y)
    decreases |s|
  {
    if |s| > 0 {
      FlatMapAll(s[1..], f, p);
      assert forall y :: y in FlatMap(s, f) ==> y in f(s[0]) || y in FlatMap(s[1..], f);
    }
  }

  /** The same, flattening a sorted copy. */
  lemma FlatMapSortByAll<T, U>(s: seq<T>, key: T -> real, f: T -> seq<U>, p: U -> bool)
    requires forall x, y :: x in s && y in f(x) ==> p(y)
    ensures forall y :: y in FlatMap(SortBy(s, key), f) ==> p(y)
  {
    var t := SortBy(s, key);
    forall x | x in t
      ensures x in s
    {
      assert x in multiset(t);
    }
    FlatMapAll(t, f, p);
  }

  lemma {:induction false} FlatMapLength<T, U>(s: seq<T>, f: T -> seq<U>, n: nat)
    requires forall x :: |f(x)| == n
    ensures |FlatMap(s, f)| == n * |s|
    decreases |s|
  {
    if |s| > 0 {
      FlatMapLength(s[1..], f, n);
    }
  }

  // ---------------------------------------------------------------- blocks

  /** The blocks one after another, as nested `forEach` loops push them. */
  function Concat<T>(blocks: seq<seq<T>>): (r: seq<T>)
    ensures |r| == Total(blocks)
  {
    if |blocks| == 0 then [] else blocks[0] + Concat(blocks[1..])
  }

  /** The number of elements in all blocks. */
  function Total<T>(blocks: seq<seq<T>>): nat
  {
    if |blocks| == 0 then 0 else |blocks[0]| + Total(blocks[1..])
  }

  lemma {:induction false} ConcatAppend<T>(a: seq<seq<T>>, b: seq<seq<T>>)
    ensures Concat(a + b) == Concat(a) + Concat(b)
    decreases |a|
  {
    if |a| == 0 {
      assert a + b == b;
    } else {
      ConcatAppend(a[1..], b);
      assert (a + b)[1..] == a[1..] + b;
    }
  }

  /** Block `i` occupies the places after all blocks before it. */
  lemma ConcatBlock<T>(blocks: seq<seq<T>>, i: nat)
    requires i < |blocks|
    ensures Total(blocks[..i]) + |blocks[i]| <= Total(blocks)
    ensures Concat(blocks)[Total(blocks[..i])..Total(blocks[..i]) + |blocks[i]|] == blocks[i]
  {
    var before, rest := blocks[..i], blocks[i + 1..];
    assert blocks == before + ([blocks[i]] + rest);
    ConcatAppend(before, [blocks[i]] + rest);
    ConcatAppend([blocks[i]], rest);
    assert Concat([blocks[i]]) == blocks[i] by {
      assert [blocks[i]][1..] == [];
    }
  }

  /** Blocks of one size `m` hold `m` elements each. */
  lemma {:induction false} TotalUniform<T>(blocks: seq<seq<T>>, m: nat)
    requires forall i :: 0 <= i < |blocks| ==> |blocks[i]| == m
    ensures Total(blocks) == m * |blocks|
    decreases |blocks|
  {
    if |blocks| > 0 {
      TotalUniform(blocks[1..], m);
    }
  }

  /** Blocks of the same sizes hold the same number of elements. */
  lemma {:induction false} TotalSameSizes<T, U>(a: seq<seq<T>>, b: seq<seq<U>>)
    requires |a| == |b|
    requires forall i :: 0 <= i < |a| ==> |a[i]| == |b[i]|
    ensures Total(a) == Total(b)
    decreases |a|
  {
    if |a| > 0 {
      TotalSameSizes(a[1..], b[1..]);
    }
  }

  /** An element of the concatenation comes from one of the blocks. */
  lemma {:induction false} ConcatMember<T>(blocks: seq<seq<T>>, x: T)
    requires x in Concat(blocks)
    ensures exists i :: 0 <= i < |blocks| && x in blocks[i]
    decreases |blocks|
  {
    if x !in blocks[0] {
      ConcatMember(blocks[1..], x);
      var i :| 0 <= i < |blocks[1..]| && x in blocks[1..][i];
      assert x in blocks[i + 1];
    }
  }

  /** Element `j` of block `i`, found in the concatenation. */
  lemma ConcatAt<T>(blocks: seq<seq<T>>, i: nat, j: nat)
    requires i < |blocks| && j < |blocks[i]|
    ensures Total(blocks[..i]) + j < |Concat(blocks)|
    ensures Concat(blocks)[Total(blocks[..i]) + j] == blocks[i][j]
  {
    var at := Total(blocks[..i]);
    ConcatBlock(blocks, i);
    assert Concat(blocks)[at + j] == Concat(blocks)[at..at + |blocks[i]|][j];
  }

  /** With blocks of one size `m`, block `i` starts at `m * i`. */
  lemma ConcatUniformBlock<T>(blocks: seq<seq<T>>, m: nat, i: nat)
    requires forall k :: 0 <= k < |blocks| ==> |blocks[k]| == m
    requires i < |blocks|
    ensures |Concat(blocks)| == m * |blocks|
    ensures m * i + m <= |Concat(blocks)|
    ensures Concat(blocks)[m * i..m * i + m] == blocks[i]
  {
    TotalUniform(blocks, m);
    TotalUniform(blocks[..i], m);
    ConcatBlock(blocks, i);
    assert m * i + m <= m * |blocks| by {
      MulMonotone(m, i + 1, |blocks|);
    }
  }

  lemma MulMonotone(m: nat, a: nat, b: nat)
    requires a <= b
    ensures m * a <= m * b
  {
  }
}

/** The in-place sort `a.sort((x, y) => key(y) - key(x))`: descending by an integer key and
    stable, since ECMAScript requires `Array.prototype.sort` to keep elements that compare
    equal in their original order. */
module Sorting {
  import opened Seqs

  predicate SortedDesc<T>(s: seq<T>, key: T -> int) {
    forall i, j :: 0 <= i < j < |s| ==> key(s[i]) >= key(s[j])
  }

  /** Inserts `x` into `t` after every element whose key is at least `x`'s key, scanning
      from the right as insertion sort does. */
  function Insert<T>(t: seq<T>, x: T, key: T -> int): (r: seq<T>)
    ensures |r| == |t| + 1
  {
    if t == [] then [x]
    else if key(t[|t| - 1]) >= key(x) then t + [x]
    else Insert(t[..|t| - 1], x, key) + [t[|t| - 1]]
  }

  /** Insertion sort, the reference for the in-place method below. */
  function SortDesc<T>(s: seq<T>, key: T -> int): (r: seq<T>)
    ensures |r| == |s|
  {
    if s == [] then [] else Insert(SortDesc(s[..|s| - 1], key), s[|s| - 1], key)
  }

  function KeyIs<T>(key: T -> int, k: int): T -> bool {
    x => key(x) == k
  }

  lemma {:induction false} InsertSorted<T>(t: seq<T>, x: T, key: T -> int)
    requires SortedDesc(t, key)
    ensures SortedDesc(Insert(t, x, key), key)
    ensures Insert(t, x, key) != [] &&
            Insert(t, x, key)[|t|] == (if t != [] && key(t[|t| - 1]) < key(x) then t[|t| - 1] else x)
  {
    if t != [] && key(t[|t| - 1]) < key(x) {
      var t' := t[..|t| - 1];
      InsertSorted(t', x, key);
      var r' := Insert(t', x, key);
      var r := r' + [t[|t| - 1]];
      forall i, j | 0 <= i < j < |r| ensures key(r[i]) >= key(r[j]) {
        if j == |r| - 1 && i < |r'| {
          // the last element of r' is either x or the last of t', both at least t's last key
          assert key(r'[|t'|]) >= key(t[|t| - 1]);
          if i < |t'| {
            assert key(r'[i]) >= key(r'[|t'|]);
          }
        }
      }
    }
  }

  lemma {:induction false} InsertPermutes<T>(t: seq<T>, x: T, key: T -> int)
    ensures multiset(Insert(t, x, key)) == multiset(t) + multiset{x}
  {
    if t != [] && key(t[|t| - 1]) < key(x) {
      InsertPermutes(t[..|t| - 1], x, key);
      assert t == t[..|t| - 1] + [t[|t| - 1]];
    }
  }

  /** Among the elements with any one key, insertion puts `x` last. */
  lemma {:induction false} InsertStable<T>(t: seq<T>, x: T, key: T -> int, k: int)
    ensures Filter(Insert(t, x, key), KeyIs(key, k)) == Filter(t, KeyIs(key, k)) + Filter([x], KeyIs(key, k))
  {
    var p := KeyIs(key, k);
    if t == [] {
    } else if key(t[|t| - 1]) >= key(x) {
      FilterAppend(t, [x], p);
    } else {
      var t' := t[..|t| - 1];
      var y := t[|t| - 1];
      var ix := Insert(t', x, key);
      assert Insert(t, x, key) == ix + [y];
      assert t == t' + [y];
      InsertStable(t', x, key, k);
      FilterAppend(ix, [y], p);
      FilterAppend(t', [y], p);
      FilterSingleton(x, p);
      FilterSingleton(y, p);
      // x and y have different keys, so at most one of them passes p
      if p(x) {
        assert !p(y);
        assert Filter(Insert(t, x, key), p) == Filter(t', p) + [x];
      } else {
        assert Filter(Insert(t, x, key), p) == Filter(t', p) + Filter([y], p);
      }
    }
  }

  /** The sort's result is ordered by descending key. */
  lemma {:induction false} SortDescSorted<T>(s: seq<T>, key: T -> int)
    ensures SortedDesc(SortDesc(s, key), key)
  {
    if s != [] {
      SortDescSorted(s[..|s| - 1], key);
      InsertSorted(SortDesc(s[..|s| - 1], key), s[|s| - 1], key);
    }
  }

  /** The sort's result is a permutation of its input. */
  lemma {:induction false} SortDescPermutes<T>(s: seq<T>, key: T -> int)
    ensures multiset(SortDesc(s, key)) == multiset(s)
  {
    if s != [] {
      SortDescPermutes(s[..|s| - 1], key);
      InsertPermutes(SortDesc(s[..|s| - 1], key), s[|s| - 1], key);
      assert s == s[..|s| - 1] + [s[|s| - 1]];
    }
  }

  /** The sort is stable: the elements sharing any key keep their input order. */
  lemma {:induction false} SortDescStable<T>(s: seq<T>, key: T -> int, k: int)
    ensures Filter(SortDesc(s, key), KeyIs(key, k)) == Filter(s, KeyIs(key, k))
  {
    if s != [] {
      var init, x, p := s[..|s| - 1], s[|s| - 1], KeyIs(key, k);
      var sorted := SortDesc(init, key);
      assert SortDesc(s, key) == Insert(sorted, x, key);
      SortDescStable(init, key, k);
      InsertStable(sorted, x, key, k);
      assert s == init + [x];
      FilterAppend(init, [x], p);
    }
  }

  lemma {:induction false} InsertCount<T>(t: seq<T>, x: T, key: T -> int, p: T -> bool)
    ensures Count(Insert(t, x, key), p) == Count(t, p) + Count([x], p)
  {
    if t == [] {
    } else if key(t[|t| - 1]) >= key(x) {
      FilterAppend(t, [x], p);
    } else {
      var t' := t[..|t| - 1];
      var y := t[|t| - 1];
      InsertCount(t', x, key, p);
      FilterAppend(Insert(t', x, key), [y], p);
      FilterAppend(t', [y], p);
      assert t == t' + [y];
    }
  }

  /** Sorting keeps how many elements satisfy any predicate, so a count taken after the
      sort is the count of the input. */
  lemma {:induction false} SortDescCount<T>(s: seq<T>, key: T -> int, p: T -> bool)
    ensures Count(SortDesc(s, key), p) == Count(s, p)
  {
    if s != [] {
      var init := s[..|s| - 1];
      SortDescCount(init, key, p);
      InsertCount(SortDesc(init, key), s[|s| - 1], key, p);
      assert s == init + [s[|s| - 1]];
      FilterAppend(init, [s[|s| - 1]], p);
    }
  }

  /** One step of the shifting loop: when the element left of the gap has a smaller key
      than `x`, the gap moves one place left. */
  lemma InsertShift<T>(t: seq<T>, j: nat, x: T, key: T -> int)
    requires 0 < j <= |t| && key(t[j - 1]) < key(x)
    ensures Insert(t[..j], x, key) + t[j..] == Insert(t[..j - 1], x, key) + t[j - 1..]
  {
    assert t[..j][..j - 1] == t[..j - 1];
    assert t[j - 1..] == [t[j - 1]] + t[j..];
  }

  /** Where the shifting loop stops, `x` goes right after the prefix. */
  lemma InsertStop<T>(t: seq<T>, j: nat, x: T, key: T -> int)
    requires j <= |t| && (j == 0 || key(t[j - 1]) >= key(x))
    ensures Insert(t[..j], x, key) == t[..j] + [x]
  {
    if j > 0 {
      assert t[..j][j - 1] == t[j - 1];
    }
  }

  /** The shifting loop of insertion: moves the elements of `a[..i]` whose key is smaller
      than `x`'s one place right, leaving a gap at `j`, where `x` belongs. */
  method ShiftGap<T>(a: array<T>, i: nat, x: T, key: T -> int) returns (j: nat)
    requires i < a.Length
    modifies a
    ensures j <= i
    ensures forall k :: 0 <= k < j ==> a[k] == old(a[k])
    ensures forall k :: j < k <= i ==> a[k] == old(a[k - 1])
    ensures forall k :: i < k < a.Length ==> a[k] == old(a[k])
    ensures j == 0 || key(old(a[j - 1])) >= key(x)
    ensures Insert(old(a[..i]), x, key) == Insert(old(a[..i])[..j], x, key) + old(a[..i])[j..]
  {
    ghost var t := a[..i];
    j := i;
    assert t[..i] == t;
    while j > 0 && key(a[j - 1]) < key(x)
      invariant 0 <= j <= i
      invariant forall k :: 0 <= k < j ==> a[k] == t[k]
      invariant forall k :: j < k <= i ==> a[k] == t[k - 1]
      invariant forall k :: i < k < a.Length ==> a[k] == old(a[k])
      invariant Insert(t, x, key) == Insert(t[..j], x, key) + t[j..]
    {
      InsertShift(t, j, x, key);
      assert a[j - 1] == t[j - 1];
      a[j] := a[j - 1];
      j := j - 1;
      assert a[j + 1] == t[j];
    }
  }

  /** Moves `a[i]` into the sorted prefix `a[..i]`, shifting the smaller keys right. */
  method InsertAt<T>(a: array<T>, i: nat, key: T -> int)
    requires i < a.Length
    modifies a
    ensures a[..i + 1] == Insert(old(a[..i]), old(a[i]), key)
    ensures forall k :: i < k < a.Length ==> a[k] == old(a[k])
  {
    ghost var t := a[..i];
    var x := a[i];
    var j := ShiftGap(a, i, x, key);
    a[j] := x;
    InsertStop(t, j, x, key);
    forall k | 0 <= k <= i ensures a[..i + 1][k] == (t[..j] + [x] + t[j..])[k] {
      if k > j {
        assert (t[..j] + [x] + t[j..])[k] == t[k - 1];
      }
    }
  }

  /** Sorts `a` in place, by descending key and stably (see SortDesc's lemmas). */
  method SortInPlace<T>(a: array<T>, key: T -> int)
    modifies a
    ensures a[..] == SortDesc(old(a[..]), key)
  {
    var i := 0;
    while i < a.Length
      invariant 0 <= i <= a.Length
      invariant a[..i] == SortDesc(old(a[..])[..i], key)
      invariant a[i..] == old(a[..])[i..]
    {
      ghost var before := a[..];
      InsertAt(a, i, key);
      assert before[i] == old(a[..])[i];
      assert old(a[..])[..i + 1][..i] == old(a[..])[..i];
      assert a[i + 1..] == before[i + 1..];
      i := i + 1;
    }
    assert a[..] == a[..a.Length];
    assert old(a[..])[..a.Length] == old(a[..]);
  }
}

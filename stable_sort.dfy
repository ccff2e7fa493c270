/** Python's `sorted(xs, key=k, reverse=True)` and `xs.sort(key=k, reverse=True)`:
    a stable sort by a real-valued key, largest key first.  Stability means that
    elements with equal keys keep their input order. */
module StableSort {

  /** `s` is ordered by `key`, largest first. */
  ghost predicate SortedDesc<T>(s: seq<T>, key: T -> real) {
    forall i, j :: 0 <= i < j < |s| ==> key(s[i]) >= key(s[j])
  }

  /** The elements of `s` whose key is `k`, in their order in `s`. */
  function WithKey<T>(s: seq<T>, key: T -> real, k: real): (r: seq<T>)
    ensures |r| <= |s|
  {
    if s == [] then []
    else (if key(s[0]) == k then [s[0]] else []) + WithKey(s[1..], key, k)
  }

  /** Inserts `x` after every element whose key is at least `key(x)`. */
  function Insert<T>(s: seq<T>, x: T, key: T -> real): (r: seq<T>)
    ensures multiset(r) == multiset(s) + multiset{x}
    ensures |r| == |s| + 1
  {
    if s == [] then [x]
    else if key(s[0]) >= key(x) then
      assert s == [s[0]] + s[1..];
      [s[0]] + Insert(s[1..], x, key)
    else [x] + s
  }

  /** Insertion sort: the last input element is inserted into the sorted prefix. */
  function SortDesc<T>(s: seq<T>, key: T -> real): (r: seq<T>)
    ensures multiset(r) == multiset(s)
    ensures |r| == |s|
  {
    if s == [] then []
    else
      assert s == s[..|s| - 1] + [s[|s| - 1]];
      Insert(SortDesc(s[..|s| - 1], key), s[|s| - 1], key)
  }

  /** The first `k` elements of `s` (Python's `s[:k]`). */
  function Take<T>(s: seq<T>, k: nat): (r: seq<T>)
    ensures |r| == if k < |s| then k else |s|
    ensures r <= s
  {
    if k < |s| then s[..k] else s
  }

  lemma {:induction false} InsertSorted<T>(s: seq<T>, x: T, key: T -> real)
    requires SortedDesc(s, key)
    ensures SortedDesc(Insert(s, x, key), key)
  {
    if s != [] && key(s[0]) >= key(x) {
      InsertSorted(s[1..], x, key);
      var r := Insert(s, x, key);
      var t := Insert(s[1..], x, key);
      assert r == [s[0]] + t;
      forall j | 0 <= j < |t| ensures key(s[0]) >= key(t[j]) {
        assert t[j] in multiset(t);
        assert t[j] in multiset(s[1..]) + multiset{x};
        if t[j] in multiset(s[1..]) {
          var m :| 0 <= m < |s[1..]| && s[1..][m] == t[j];
          assert s[1 + m] == t[j];
        }
      }
    }
  }

  lemma {:induction false} InsertWithKey<T>(s: seq<T>, x: T, key: T -> real, k: real)
    requires SortedDesc(s, key)
    ensures WithKey(Insert(s, x, key), key, k) == WithKey(s, key, k) + (if key(x) == k then [x] else [])
  {
    if s == [] {
    } else if key(s[0]) >= key(x) {
      SortedTail(s, key);
      InsertWithKey(s[1..], x, key, k);
      InsertBehindHead(s, x, key, k);
    } else {
      InsertAtFront(s, x, key, k);
    }
  }

  /** The step of InsertWithKey where `x` goes behind the head. */
  lemma InsertBehindHead<T>(s: seq<T>, x: T, key: T -> real, k: real)
    requires s != [] && key(s[0]) >= key(x)
    requires WithKey(Insert(s[1..], x, key), key, k) == WithKey(s[1..], key, k) + (if key(x) == k then [x] else [])
    ensures WithKey(Insert(s, x, key), key, k) == WithKey(s, key, k) + (if key(x) == k then [x] else [])
  {
    var t := Insert(s[1..], x, key);
    var head := if key(s[0]) == k then [s[0]] else [];
    var tail := if key(x) == k then [x] else [];
    var rest := WithKey(s[1..], key, k);
    assert Insert(s, x, key) == [s[0]] + t;
    WithKeyCons(s[0], t, key, k);
    assert WithKey(Insert(s, x, key), key, k) == head + (rest + tail);
    assert WithKey(s, key, k) == head + rest;
    ConcatAssoc(head, rest, tail);
  }

  lemma ConcatAssoc<T>(a: seq<T>, b: seq<T>, c: seq<T>)
    ensures a + (b + c) == (a + b) + c
  {
  }

  /** The elements with key `k` of a sequence with one more element in front. */
  lemma WithKeyCons<T>(y: T, t: seq<T>, key: T -> real, k: real)
    ensures WithKey([y] + t, key, k) == (if key(y) == k then [y] else []) + WithKey(t, key, k)
  {
    assert ([y] + t)[0] == y && ([y] + t)[1..] == t;
  }

  /** The step of InsertWithKey where `x` goes in front. */
  lemma InsertAtFront<T>(s: seq<T>, x: T, key: T -> real, k: real)
    requires SortedDesc(s, key)
    requires s != [] && key(s[0]) < key(x)
    ensures WithKey(Insert(s, x, key), key, k) == WithKey(s, key, k) + (if key(x) == k then [x] else [])
  {
    assert Insert(s, x, key) == [x] + s;
    assert ([x] + s)[0] == x && ([x] + s)[1..] == s;
    if key(x) == k {
      WithKeyNone(s, key, k);
    }
  }

  /** The tail of a sorted sequence is sorted. */
  lemma SortedTail<T>(s: seq<T>, key: T -> real)
    requires s != [] && SortedDesc(s, key)
    ensures SortedDesc(s[1..], key)
  {
    forall i, j | 0 <= i < j < |s| - 1 ensures key(s[1..][i]) >= key(s[1..][j]) {
      assert s[1..][i] == s[i + 1] && s[1..][j] == s[j + 1];
    }
  }

  /** In a sorted sequence whose first key is below k, no element has key k. */
  lemma {:induction false} WithKeyNone<T>(s: seq<T>, key: T -> real, k: real)
    requires SortedDesc(s, key)
    requires s != [] ==> key(s[0]) < k
    ensures WithKey(s, key, k) == []
  {
    if s != [] {
      if 1 < |s| {
        assert key(s[1]) <= key(s[0]);
        assert s[1..][0] == s[1];
      }
      WithKeyNone(s[1..], key, k);
    }
  }

  lemma {:induction false} WithKeyAppend<T>(s: seq<T>, x: T, key: T -> real, k: real)
    ensures WithKey(s + [x], key, k) == WithKey(s, key, k) + (if key(x) == k then [x] else [])
  {
    if s == [] {
      assert [] + [x] == [x];
    } else {
      var head := if key(s[0]) == k then [s[0]] else [];
      var tail := if key(x) == k then [x] else [];
      assert (s + [x])[0] == s[0];
      assert (s + [x])[1..] == s[1..] + [x];
      calc {
        WithKey(s + [x], key, k);
        head + WithKey(s[1..] + [x], key, k);
        { WithKeyAppend(s[1..], x, key, k); }
        head + (WithKey(s[1..], key, k) + tail);
        (head + WithKey(s[1..], key, k)) + tail;
        WithKey(s, key, k) + tail;
      }
    }
  }

  lemma {:induction false} SortDescSorted<T>(s: seq<T>, key: T -> real)
    ensures SortedDesc(SortDesc(s, key), key)
  {
    if s != [] {
      SortDescSorted(s[..|s| - 1], key);
      InsertSorted(SortDesc(s[..|s| - 1], key), s[|s| - 1], key);
    }
  }

  /** Stability: for every key, the elements carrying it appear in the output
      in the same order as in the input. */
  lemma {:induction false} SortDescStable<T>(s: seq<T>, key: T -> real, k: real)
    ensures WithKey(SortDesc(s, key), key, k) == WithKey(s, key, k)
  {
    if s != [] {
      var init, last := s[..|s| - 1], s[|s| - 1];
      var tail := if key(last) == k then [last] else [];
      calc {
        WithKey(SortDesc(s, key), key, k);
        WithKey(Insert(SortDesc(init, key), last, key), key, k);
        { SortDescSorted(init, key); InsertWithKey(SortDesc(init, key), last, key, k); }
        WithKey(SortDesc(init, key), key, k) + tail;
        { SortDescStable(init, key, k); }
        WithKey(init, key, k) + tail;
        { WithKeyAppend(init, last, key, k); assert init + [last] == s; }
        WithKey(s, key, k);
      }
    }
  }

  /** The number of elements of `s` that satisfy `p`. */
  function Count<T>(s: seq<T>, p: T -> bool): (n: nat)
    ensures n <= |s|
  {
    if s == [] then 0 else (if p(s[0]) then 1 else 0) + Count(s[1..], p)
  }

  lemma {:induction false} CountConcat<T>(a: seq<T>, b: seq<T>, p: T -> bool)
    ensures Count(a + b, p) == Count(a, p) + Count(b, p)
  {
    if a == [] {
      assert a + b == b;
    } else {
      assert (a + b)[0] == a[0];
      assert (a + b)[1..] == a[1..] + b;
      CountConcat(a[1..], b, p);
    }
  }

  /** Taking out the element at `m` takes it out of the multiset. */
  lemma RemoveAt<T>(t: seq<T>, m: nat)
    requires m < |t|
    ensures multiset(t[..m] + t[m + 1..]) == multiset(t) - multiset{t[m]}
  {
    assert t == t[..m] + [t[m]] + t[m + 1..];
  }

  /** The count of a sequence with one more element in front. */
  lemma CountCons<T>(x: T, b: seq<T>, p: T -> bool)
    ensures Count([x] + b, p) == (if p(x) then 1 else 0) + Count(b, p)
  {
    assert ([x] + b)[0] == x && ([x] + b)[1..] == b;
  }

  /** Taking out the element at `m` lowers the count by its own share. */
  lemma CountRemoveAt<T>(t: seq<T>, m: nat, p: T -> bool)
    requires m < |t|
    ensures Count(t, p) == Count(t[..m] + t[m + 1..], p) + (if p(t[m]) then 1 else 0)
  {
    var a, x, b := t[..m], t[m], t[m + 1..];
    assert t == a + ([x] + b);
    CountConcat(a, [x] + b, p);
    CountCons(x, b, p);
    CountConcat(a, b, p);
  }

  /** Reordering preserves how many elements satisfy a property. */
  lemma {:induction false} CountPermutation<T>(s: seq<T>, t: seq<T>, p: T -> bool)
    requires multiset(s) == multiset(t)
    ensures Count(s, p) == Count(t, p)
  {
    if s == [] {
      assert |t| == |multiset(t)| == 0;
    } else {
      var x := s[0];
      assert x in multiset(t);
      var m :| 0 <= m < |t| && t[m] == x;
      var rest := t[..m] + t[m + 1..];
      RemoveAt(t, m);
      assert s == [x] + s[1..];
      assert multiset(s[1..]) == multiset(s) - multiset{x};
      CountPermutation(s[1..], rest, p);
      CountRemoveAt(t, m, p);
    }
  }
}

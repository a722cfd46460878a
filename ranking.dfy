/**
 * The final ordering step of `find_arbitrage_opportunities`: Python's
 * `list.sort(key=..., reverse=True)`, a stable sort into descending key order.
 * `SortDesc` is the specification (repeated stable insertion); `SortInPlace`
 * is the in-place algorithm on an array, proved to produce it.
 */
module Ranking {

  /** `s` is in descending key order. */
  ghost predicate Descending<T>(s: seq<T>, key: T -> real)
  {
    forall i, j :: 0 <= i < j < |s| ==> key(s[i]) >= key(s[j])
  }

  /**
   * Inserts `x` into `r` after every trailing element whose key is below
   * `key(x)` has been stepped over, so it lands behind all elements with a key
   * at least as large: ties keep their order.
   */
  function Insert<T>(r: seq<T>, x: T, key: T -> real): seq<T>
  {
    if |r| == 0 || key(r[|r| - 1]) >= key(x) then r + [x]
    else Insert(r[..|r| - 1], x, key) + [r[|r| - 1]]
  }

  /** The stable descending sort of `s`, one insertion per element in input order. */
  function SortDesc<T>(s: seq<T>, key: T -> real): seq<T>
  {
    if |s| == 0 then [] else Insert(SortDesc(s[..|s| - 1], key), s[|s| - 1], key)
  }

  /** The elements of `s` whose key is `v`, in the order they appear. */
  function WithKey<T>(s: seq<T>, v: real, key: T -> real): seq<T>
  {
    if |s| == 0 then []
    else WithKey(s[..|s| - 1], v, key) + (if key(s[|s| - 1]) == v then [s[|s| - 1]] else [])
  }

  lemma {:induction false} InsertPermutes<T>(r: seq<T>, x: T, key: T -> real)
    ensures multiset(Insert(r, x, key)) == multiset(r) + multiset{x}
  {
    if |r| > 0 && key(r[|r| - 1]) < key(x) {
      InsertPermutes(r[..|r| - 1], x, key);
      assert r == r[..|r| - 1] + [r[|r| - 1]];
    }
  }

  lemma {:induction false} InsertKeepsDescending<T>(r: seq<T>, x: T, key: T -> real)
    requires Descending(r, key)
    ensures Descending(Insert(r, x, key), key)
  {
    if |r| > 0 {
      var n := |r| - 1;
      if key(r[n]) >= key(x) {
        var t := r + [x];
        forall i, j | 0 <= i < j < |t| ensures key(t[i]) >= key(t[j]) {
          if j == |r| { assert key(r[i]) >= key(r[n]); }
        }
      } else {
        var p := r[..n];
        assert Descending(p, key);
        InsertKeepsDescending(p, x, key);
        InsertPermutes(p, x, key);
        var u := Insert(p, x, key);
        var t := u + [r[n]];
        forall i, j | 0 <= i < j < |t| ensures key(t[i]) >= key(t[j]) {
          if j == |u| {
            assert t[i] in multiset(u);
            if t[i] != x {
              assert t[i] in multiset(p);
              var m :| 0 <= m < |p| && p[m] == t[i];
              assert key(r[m]) >= key(r[n]);
            }
          }
        }
      }
    }
  }

  lemma {:induction false} WithKeyAppend<T>(a: seq<T>, b: seq<T>, v: real, key: T -> real)
    ensures WithKey(a + b, v, key) == WithKey(a, v, key) + WithKey(b, v, key)
  {
    if |b| == 0 {
      assert a + b == a;
    } else {
      WithKeyAppend(a, b[..|b| - 1], v, key);
      assert (a + b)[..|a + b| - 1] == a + b[..|b| - 1];
    }
  }

  lemma WithKeySingle<T>(x: T, v: real, key: T -> real)
    ensures WithKey([x], v, key) == if key(x) == v then [x] else []
  {
    assert [x][..0] == [];
  }

  /** Two elements with different keys never both have key `v`, so their order does not show. */
  lemma WithKeyCommute<T>(x: T, l: T, v: real, key: T -> real)
    requires key(x) != key(l)
    ensures WithKey([x], v, key) + WithKey([l], v, key) == WithKey([l], v, key) + WithKey([x], v, key)
  {
    WithKeySingle(x, v, key);
    WithKeySingle(l, v, key);
  }

  lemma {:induction false} InsertIsStable<T>(r: seq<T>, x: T, v: real, key: T -> real)
    ensures WithKey(Insert(r, x, key), v, key) == WithKey(r, v, key) + WithKey([x], v, key)
  {
    WithKeySingle(x, v, key);
    if |r| == 0 || key(r[|r| - 1]) >= key(x) {
      WithKeyAppend(r, [x], v, key);
    } else {
      var p, l := r[..|r| - 1], r[|r| - 1];
      var wp, wx, wl := WithKey(p, v, key), WithKey([x], v, key), WithKey([l], v, key);
      calc {
        WithKey(Insert(r, x, key), v, key);
        { assert Insert(r, x, key) == Insert(p, x, key) + [l]; }
        WithKey(Insert(p, x, key) + [l], v, key);
        { WithKeyAppend(Insert(p, x, key), [l], v, key); }
        WithKey(Insert(p, x, key), v, key) + wl;
        { InsertIsStable(p, x, v, key); }
        (wp + wx) + wl;
        { WithKeyCommute(x, l, v, key); assert (wp + wx) + wl == wp + (wx + wl); }
        wp + (wl + wx);
        { WithKeyAppend(p, [l], v, key); assert r == p + [l]; }
        WithKey(r, v, key) + wx;
      }
    }
  }

  /** The sort result is in descending key order. */
  lemma {:induction false} SortDescIsDescending<T>(s: seq<T>, key: T -> real)
    ensures Descending(SortDesc(s, key), key)
  {
    if |s| > 0 {
      SortDescIsDescending(s[..|s| - 1], key);
      InsertKeepsDescending(SortDesc(s[..|s| - 1], key), s[|s| - 1], key);
    }
  }

  /** The sort result is a permutation of its input. */
  lemma {:induction false} SortDescPermutes<T>(s: seq<T>, key: T -> real)
    ensures multiset(SortDesc(s, key)) == multiset(s)
  {
    if |s| > 0 {
      var init, last := s[..|s| - 1], s[|s| - 1];
      var r := SortDesc(init, key);
      assert SortDesc(s, key) == Insert(r, last, key);
      SortDescPermutes(init, key);
      InsertPermutes(r, last, key);
      SnocMultiset(s);
    }
  }

  lemma SnocMultiset<T>(s: seq<T>)
    requires |s| > 0
    ensures multiset(s) == multiset(s[..|s| - 1]) + multiset{s[|s| - 1]}
  {
    assert s == s[..|s| - 1] + [s[|s| - 1]];
  }

  /** Stability: the elements sharing any one key keep their input order. */
  lemma {:induction false} SortDescIsStable<T>(s: seq<T>, v: real, key: T -> real)
    ensures WithKey(SortDesc(s, key), v, key) == WithKey(s, v, key)
  {
    if |s| > 0 {
      var p, l := s[..|s| - 1], s[|s| - 1];
      SortDescIsStable(p, v, key);
      InsertIsStable(SortDesc(p, key), l, v, key);
      WithKeySingle(l, v, key);
    }
  }

  /**
   * Where the insertion lands: behind position `j - 1`, whose key is at least
   * `key(x)`, and in front of a tail whose keys are all below it.
   */
  lemma {:induction false} InsertAt<T>(r: seq<T>, x: T, key: T -> real, j: int)
    requires 0 <= j <= |r|
    requires j == 0 || key(r[j - 1]) >= key(x)
    requires forall k :: j <= k < |r| ==> key(r[k]) < key(x)
    ensures Insert(r, x, key) == r[..j] + [x] + r[j..]
  {
    if j < |r| {
      var n := |r| - 1;
      var p := r[..n];
      InsertAt(p, x, key, j);
      assert p[..j] == r[..j];
      assert p[j..] + [r[n]] == r[j..];
    } else {
      assert r[..j] == r;
    }
  }

  /**
   * `opportunities.sort(key=..., reverse=True)` on an array: straight insertion,
   * one element at a time in input order.
   */
  method SortInPlace<T>(a: array<T>, key: T -> real)
    modifies a
    ensures a[..] == SortDesc(old(a[..]), key)
  {
    ghost var s := a[..];
    for i := 0 to a.Length
      invariant a[..i] == SortDesc(s[..i], key)
      invariant a[i..] == s[i..]
    {
      assert a[i] == s[i];
      InsertNext(a, i, key);
      assert s[..i + 1][..i] == s[..i];
    }
    assert s[..a.Length] == s;
  }

  /**
   * Moves `a[i]` into place among `a[..i]`, shifting the elements with a
   * strictly smaller key one place up.
   */
  method InsertNext<T>(a: array<T>, i: int, key: T -> real)
    requires 0 <= i < a.Length
    modifies a
    ensures a[..i + 1] == Insert(old(a[..i]), old(a[i]), key)
    ensures a[i + 1..] == old(a[i + 1..])
  {
    ghost var r := a[..i];
    var x := a[i];
    var j := i;
    while j > 0 && key(a[j - 1]) < key(x)
      invariant 0 <= j <= i
      invariant forall k :: 0 <= k < j ==> a[k] == r[k]
      invariant forall k :: j < k <= i ==> a[k] == r[k - 1]
      invariant forall k :: i < k < a.Length ==> a[k] == old(a[k])
      invariant forall k :: j <= k < i ==> key(r[k]) < key(x)
    {
      a[j] := a[j - 1];
      j := j - 1;
    }
    a[j] := x;
    InsertAt(r, x, key, j);
    assert a[..i + 1] == r[..j] + [x] + r[j..];
  }
}

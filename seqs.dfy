/**
 * Sequence helpers shared by the stores: the left fold `reduce((acc, x) => acc + f(x), 0)`,
 * `findIndex` by a key, `splice(i, 1)`, the stable `Array.prototype.sort` by a numeric key,
 * and `slice(0, end)`.
 */
module Seqs {
  import opened Wrappers

  /** `s.reduce((sum, x) => sum + f(x), 0)`, folded from the left as JavaScript and Java streams do. */
  function Sum<T>(s: seq<T>, f: T -> int): int {
    if s == [] then 0 else Sum(s[..|s| - 1], f) + f(s[|s| - 1])
  }

  lemma {:induction false} SumAppend<T>(a: seq<T>, b: seq<T>, f: T -> int)
    ensures Sum(a + b, f) == Sum(a, f) + Sum(b, f)
  {
    if b == [] {
      assert a + b == a;
    } else {
      assert (a + b)[..|a + b| - 1] == a + b[..|b| - 1];
      SumAppend(a, b[..|b| - 1], f);
    }
  }

  lemma SumSingle<T>(x: T, f: T -> int)
    ensures Sum([x], f) == f(x)
  {
    assert [x][..0] == [];
  }

  lemma SumCons<T>(x: T, s: seq<T>, f: T -> int)
    ensures Sum([x] + s, f) == f(x) + Sum(s, f)
  {
    SumAppend([x], s, f);
    SumSingle(x, f);
  }

  /** Replacing one element changes the sum by the difference of the two summands. */
  lemma SumUpdate<T>(s: seq<T>, k: nat, x: T, f: T -> int)
    requires k < |s|
    ensures Sum(s[k := x], f) == Sum(s, f) - f(s[k]) + f(x)
  {
    assert s == s[..k] + [s[k]] + s[k + 1..];
    assert s[k := x] == s[..k] + [x] + s[k + 1..];
    SumAppend(s[..k] + [s[k]], s[k + 1..], f);
    SumAppend(s[..k], [s[k]], f);
    SumAppend(s[..k] + [x], s[k + 1..], f);
    SumAppend(s[..k], [x], f);
    SumSingle(s[k], f);
    SumSingle(x, f);
  }

  /** Summing is insensitive to the order of the summands. */
  lemma {:induction false} SumPermutation<T>(a: seq<T>, b: seq<T>, f: T -> int)
    requires multiset(a) == multiset(b)
    ensures Sum(a, f) == Sum(b, f)
  {
    if a != [] {
      var x := a[|a| - 1];
      assert x in multiset(b);
      var k :| 0 <= k < |b| && b[k] == x;
      var a', b' := a[..|a| - 1], b[..k] + b[k + 1..];
      assert a == a' + [x];
      assert b == b[..k] + [x] + b[k + 1..];
      assert multiset(a) == multiset(a') + multiset{x};
      assert multiset(b) == multiset(b[..k]) + multiset{x} + multiset(b[k + 1..]);
      assert multiset(b') == multiset(b[..k]) + multiset(b[k + 1..]);
      assert multiset(a') == multiset(a) - multiset{x};
      assert multiset(b') == multiset(b) - multiset{x};
      SumPermutation(a', b', f);
      SumAppend(a', [x], f);
      SumSingle(x, f);
      SumAppend(b[..k] + [x], b[k + 1..], f);
      SumAppend(b[..k], [x], f);
      SumAppend(b[..k], b[k + 1..], f);
    } else {
      assert b == [];
    }
  }

  /** `s.findIndex(x => key(x) === k)`, as an option: the first position whose key is `k`. */
  function FindIndex<T>(s: seq<T>, key: T -> int, k: int): (r: Option<nat>)
    ensures r.Some? ==> r.value < |s| && key(s[r.value]) == k
    ensures r.Some? ==> forall j :: 0 <= j < r.value ==> key(s[j]) != k
    ensures r.None? <==> forall j :: 0 <= j < |s| ==> key(s[j]) != k
  {
    if s == [] then None
    else if key(s[0]) == k then Some(0)
    else match FindIndex(s[1..], key, k)
      case None => None
      case Some(i) => Some(i + 1)
  }

  /** Position `i` is the first whose key is `k`, the one `FindIndex` returns. */
  ghost predicate FirstWithKey<T>(s: seq<T>, key: T -> int, k: int, i: int) {
    && 0 <= i < |s|
    && key(s[i]) == k
    && forall j :: 0 <= j < i ==> key(s[j]) != k
  }

  /** At most one position is the first with a given key. */
  lemma FirstWithKeyUnique<T>(s: seq<T>, key: T -> int, k: int, i: int)
    requires FirstWithKey(s, key, k, i)
    ensures forall j :: FirstWithKey(s, key, k, j) ==> j == i
  {
  }

  /** `s.splice(i, 1)`: everything but position `i`, in order. */
  function RemoveAt<T>(s: seq<T>, i: nat): (r: seq<T>)
    requires i < |s|
    ensures |r| == |s| - 1
    ensures forall j :: 0 <= j < i ==> r[j] == s[j]
    ensures forall j :: i <= j < |r| ==> r[j] == s[j + 1]
  {
    s[..i] + s[i + 1..]
  }

  /** Two sequences whose elements agree position by position under `f` and `g` have equal sums. */
  lemma {:induction false} SumPointwise<T, U>(a: seq<T>, f: T -> int, b: seq<U>, g: U -> int)
    requires |a| == |b| && forall i :: 0 <= i < |a| ==> f(a[i]) == g(b[i])
    ensures Sum(a, f) == Sum(b, g)
  {
    if a != [] {
      SumPointwise(a[..|a| - 1], f, b[..|b| - 1], g);
    }
  }

  /** Every pair of positions is ordered by `key`. */
  ghost predicate SortedBy<T>(s: seq<T>, key: T -> int) {
    forall i, j :: 0 <= i < j < |s| ==> key(s[i]) <= key(s[j])
  }

  /** The elements whose key is `k`, in their order in `s`. */
  function WithKey<T>(s: seq<T>, key: T -> int, k: int): seq<T> {
    if s == [] then []
    else (if key(s[0]) == k then [s[0]] else []) + WithKey(s[1..], key, k)
  }

  /** Places `x` in front of the first element of `s` whose key is not smaller. */
  function Insert<T>(x: T, s: seq<T>, key: T -> int): seq<T> {
    if s == [] || key(x) <= key(s[0]) then [x] + s
    else [s[0]] + Insert(x, s[1..], key)
  }

  lemma {:induction false} InsertPermutes<T>(x: T, s: seq<T>, key: T -> int)
    ensures multiset(Insert(x, s, key)) == multiset(s) + multiset{x}
  {
    if !(s == [] || key(x) <= key(s[0])) {
      InsertPermutes(x, s[1..], key);
      assert s == [s[0]] + s[1..];
    }
  }

  lemma {:induction false} InsertSorted<T>(x: T, s: seq<T>, key: T -> int)
    requires SortedBy(s, key)
    ensures SortedBy(Insert(x, s, key), key)
  {
    if s == [] || key(x) <= key(s[0]) {
      assert forall j :: 0 <= j < |s| ==> key(x) <= key(s[j]) by {
        forall j | 0 <= j < |s| ensures key(x) <= key(s[j]) {
          assert key(s[0]) <= key(s[j]) || j == 0;
        }
      }
    } else {
      var t := Insert(x, s[1..], key);
      InsertSorted(x, s[1..], key);
      InsertPermutes(x, s[1..], key);
      forall j | 0 <= j < |t| ensures key(s[0]) <= key(t[j]) {
        assert t[j] in multiset(s[1..]) + multiset{x};
        if t[j] != x {
          assert t[j] in s[1..];
        }
      }
    }
  }

  /** Selecting from a sequence with one more element in front. */
  lemma WithKeyCons<T>(y: T, rest: seq<T>, key: T -> int, k: int)
    ensures WithKey([y] + rest, key, k) == (if key(y) == k then [y] else []) + WithKey(rest, key, k)
  {
    assert ([y] + rest)[0] == y && ([y] + rest)[1..] == rest;
  }

  /** Inserting `x` adds it to the selection of its own key, and only there. */
  lemma {:induction false} InsertWithKey<T>(x: T, s: seq<T>, key: T -> int, k: int)
    ensures WithKey(Insert(x, s, key), key, k) == (if key(x) == k then [x] else []) + WithKey(s, key, k)
  {
    if s == [] || key(x) <= key(s[0]) {
      WithKeyCons(x, s, key, k);
    } else {
      var t := Insert(x, s[1..], key);
      InsertWithKey(x, s[1..], key, k);
      WithKeyCons(s[0], t, key, k);
      WithKeyCons(s[0], s[1..], key, k);
      assert [s[0]] + s[1..] == s;
      var head, mine := if key(s[0]) == k then [s[0]] else [], if key(x) == k then [x] else [];
      assert head == [] || mine == [];
      assert head + (mine + WithKey(s[1..], key, k)) == mine + (head + WithKey(s[1..], key, k));
    }
  }

  /** Selecting by key distributes over concatenation. */
  lemma {:induction false} WithKeyAppend<T>(a: seq<T>, b: seq<T>, key: T -> int, k: int)
    ensures WithKey(a + b, key, k) == WithKey(a, key, k) + WithKey(b, key, k)
  {
    if a == [] {
      assert a + b == b;
    } else {
      WithKeyAppend(a[1..], b, key, k);
      WithKeyCons(a[0], a[1..] + b, key, k);
      WithKeyCons(a[0], a[1..], key, k);
      assert [a[0]] + (a[1..] + b) == a + b && [a[0]] + a[1..] == a;
    }
  }

  /** Nothing is selected when every key lies below `k`. */
  lemma {:induction false} WithKeyBelow<T>(s: seq<T>, key: T -> int, k: int)
    requires KeysBelow(s, key, k)
    ensures WithKey(s, key, k) == []
  {
    if s != [] {
      WithKeyBelow(s[1..], key, k);
    }
  }

  /** Everything is selected when every key is `k`. */
  lemma {:induction false} WithKeyAll<T>(s: seq<T>, key: T -> int, k: int)
    requires forall i :: 0 <= i < |s| ==> key(s[i]) == k
    ensures WithKey(s, key, k) == s
  {
    if s != [] {
      WithKeyAll(s[1..], key, k);
      assert s == [s[0]] + s[1..];
    }
  }

  /**
   * The stable sort `[...s].sort((a, b) => key(a) - key(b))`: sorted by `key`,
   * a permutation of `s`, and elements with equal keys keep their relative order.
   */
  function SortBy<T>(s: seq<T>, key: T -> int): (r: seq<T>)
    ensures SortedBy(r, key)
    ensures multiset(r) == multiset(s) && |r| == |s|
    ensures forall k :: WithKey(r, key, k) == WithKey(s, key, k)
  {
    if s == [] then []
    else
      var t := SortBy(s[1..], key);
      InsertSorted(s[0], t, key);
      InsertPermutes(s[0], t, key);
      assert s == [s[0]] + s[1..];
      assert forall k :: WithKey(Insert(s[0], t, key), key, k) == WithKey(s, key, k) by {
        forall k ensures WithKey(Insert(s[0], t, key), key, k) == WithKey(s, key, k) {
          InsertWithKey(s[0], t, key, k);
        }
      }
      Insert(s[0], t, key)
  }

  /** `s.slice(0, end)` with JavaScript's rule that a negative end counts from the back. */
  function JsSliceTo<T>(s: seq<T>, end: int): (r: seq<T>)
    ensures r <= s
    ensures end >= 0 ==> |r| == if end < |s| then end else |s|
    ensures end < 0 ==> |r| == if |s| + end > 0 then |s| + end else 0
  {
    if end >= 0 then (if end < |s| then s[..end] else s)
    else (if |s| + end > 0 then s[..|s| + end] else [])
  }

  /** Every key lies below `bound`: a counter that has not handed `bound` out yet. */
  ghost predicate KeysBelow<T>(s: seq<T>, key: T -> int, bound: int) {
    forall i :: 0 <= i < |s| ==> key(s[i]) < bound
  }

  /** No two elements share a key. */
  ghost predicate KeysDistinct<T>(s: seq<T>, key: T -> int) {
    forall i, j :: 0 <= i < j < |s| ==> key(s[i]) != key(s[j])
  }

  /** Keys handed out by a counter: distinct and all below the counter's next value. */
  ghost predicate Fresh<T>(s: seq<T>, key: T -> int, next: int) {
    KeysBelow(s, key, next) && KeysDistinct(s, key)
  }

  /** Removing the element at `k` when keys are distinct removes exactly the element with its key. */
  lemma RemoveByUniqueKey<T>(s: seq<T>, key: T -> int, k: nat)
    requires KeysDistinct(s, key) && k < |s|
    ensures forall x :: x in RemoveAt(s, k) <==> x in s && key(x) != key(s[k])
    ensures KeysDistinct(RemoveAt(s, k), key)
    ensures forall b :: KeysBelow(s, key, b) ==> KeysBelow(RemoveAt(s, k), key, b)
  {
    var r := RemoveAt(s, k);
    forall x ensures x in r <==> x in s && key(x) != key(s[k]) {
      if x in r {
        var j :| 0 <= j < |r| && r[j] == x;
        if j < k { assert r[j] == s[j]; } else { assert r[j] == s[j + 1]; }
      }
      if x in s && key(x) != key(s[k]) {
        var j :| 0 <= j < |s| && s[j] == x;
        if j < k { assert r[j] == x; } else { assert j != k; assert r[j - 1] == x; }
      }
    }
    forall i, j | 0 <= i < j < |r| ensures key(r[i]) != key(r[j]) {
      var i', j' := if i < k then i else i + 1, if j < k then j else j + 1;
      assert r[i] == s[i'] && r[j] == s[j'];
    }
  }

  /** `DELETE ... WHERE key = k`, or `filter(x => key(x) !== k)`: the other elements, in order. */
  function Without<T(!new)>(s: seq<T>, key: T -> int, k: int): (r: seq<T>)
    ensures forall x :: x in r <==> x in s && key(x) != k
    ensures |r| <= |s|
  {
    if s == [] then []
    else (if key(s[0]) != k then [s[0]] else []) + Without(s[1..], key, k)
  }

  /** Deleting by key keeps keys fresh. */
  lemma {:induction false} WithoutFresh<T(!new)>(s: seq<T>, key: T -> int, k: int, next: int)
    requires Fresh(s, key, next)
    ensures Fresh(Without(s, key, k), key, next)
  {
    if s != [] {
      var tail := s[1..];
      assert Fresh(tail, key, next) by {
        forall i | 0 <= i < |tail| ensures key(tail[i]) < next { assert tail[i] == s[i + 1]; }
        forall i, j | 0 <= i < j < |tail| ensures key(tail[i]) != key(tail[j]) {
          assert tail[i] == s[i + 1] && tail[j] == s[j + 1];
        }
      }
      WithoutFresh(tail, key, k, next);
      var rest := Without(tail, key, k);
      forall j | 0 <= j < |rest| ensures key(s[0]) != key(rest[j]) {
        assert rest[j] in tail;
        var m :| 0 <= m < |tail| && tail[m] == rest[j];
        assert tail[m] == s[m + 1];
      }
      if key(s[0]) != k {
        var r := [s[0]] + rest;
        forall i, j | 0 <= i < j < |r| ensures key(r[i]) != key(r[j]) {
          assert r[j] == rest[j - 1];
          if i > 0 { assert r[i] == rest[i - 1]; }
        }
        forall i | 0 <= i < |r| ensures key(r[i]) < next {
          if i > 0 { assert r[i] == rest[i - 1]; }
        }
      }
    }
  }

  /** Deleting a key no element has changes nothing. */
  lemma {:induction false} WithoutAbsent<T(!new)>(s: seq<T>, key: T -> int, k: int)
    requires forall i :: 0 <= i < |s| ==> key(s[i]) != k
    ensures Without(s, key, k) == s
  {
    if s != [] {
      WithoutAbsent(s[1..], key, k);
    }
  }

  /** SQL `LIMIT n`: the first `n` rows; a negative limit means no limit. */
  function SqlLimit<T>(s: seq<T>, n: int): (r: seq<T>)
    ensures r <= s
    ensures |r| == if 0 <= n < |s| then n else |s|
  {
    if 0 <= n < |s| then s[..n] else s
  }
}

/** Sequence operations that stand for the JavaScript array methods the source uses
    (`find`, `findIndex`, `filter`, `splice`, `slice`, `sort`), with their contracts. */
module Seqs {
  import opened Wrappers

  // ---------------------------------------------------------------------------
  // Keys and key uniqueness
  // ---------------------------------------------------------------------------

  /** The key of every element, in order (`s.map(key)`). */
  function Keys<T, K>(s: seq<T>, key: T -> K): (r: seq<K>)
    ensures |r| == |s|
    ensures forall i :: 0 <= i < |s| ==> r[i] == key(s[i])
  {
    seq(|s|, i requires 0 <= i < |s| => key(s[i]))
  }

  /** No value occurs twice in the bag. */
  ghost predicate NoDuplicates<K>(m: multiset<K>) {
    forall k | k in m :: m[k] == 1
  }

  /** Adding a value the bag lacks keeps every value single. */
  lemma NoDuplicatesAdd<K>(m: multiset<K>, k: K)
    requires NoDuplicates(m) && k !in m
    ensures NoDuplicates(m + multiset{k})
  {
  }

  /** Part of a bag without duplicates has none either. */
  lemma NoDuplicatesSub<K>(m: multiset<K>, part: multiset<K>)
    requires NoDuplicates(m) && part <= m
    ensures NoDuplicates(part)
  {
  }

  lemma KeysAppend<T, K>(a: seq<T>, b: seq<T>, key: T -> K)
    ensures Keys(a + b, key) == Keys(a, key) + Keys(b, key)
  {
  }

  lemma KeysPush<T, K>(s: seq<T>, x: T, key: T -> K)
    ensures multiset(Keys(s + [x], key)) == multiset(Keys(s, key)) + multiset{key(x)}
  {
    KeysAppend(s, [x], key);
    assert Keys([x], key) == [key(x)];
  }

  lemma KeysUpdate<T, K>(s: seq<T>, i: int, x: T, key: T -> K)
    requires 0 <= i < |s| && key(x) == key(s[i])
    ensures Keys(s[i := x], key) == Keys(s, key)
  {
  }


  lemma KeysRemoveAt<T, K>(s: seq<T>, i: int, key: T -> K)
    requires 0 <= i < |s|
    ensures multiset(Keys(RemoveAt(s, i), key)) == multiset(Keys(s, key)) - multiset{key(s[i])}
  {
    var ks := Keys(s, key);
    assert Keys(RemoveAt(s, i), key) == RemoveAt(ks, i);
    MultisetRemoveAt(ks, i);
  }

  /** Removing position `i` removes one occurrence of `s[i]`. */
  lemma MultisetRemoveAt<T>(s: seq<T>, i: int)
    requires 0 <= i < |s|
    ensures multiset(RemoveAt(s, i)) == multiset(s) - multiset{s[i]}
  {
    assert s == s[..i] + [s[i]] + s[i + 1..];
  }

  lemma KeysCons<T, K>(s: seq<T>, key: T -> K)
    requires s != []
    ensures Keys(s, key) == [key(s[0])] + Keys(s[1..], key)
  {
  }

  /** Reordering a list reorders its keys alike. */
  lemma {:induction false} KeysPermutation<T, K>(a: seq<T>, b: seq<T>, key: T -> K)
    requires multiset(a) == multiset(b)
    ensures multiset(Keys(a, key)) == multiset(Keys(b, key))
    decreases |a|
  {
    if a != [] {
      var x := a[0];
      assert a == [x] + a[1..];
      assert multiset(a) == multiset{x} + multiset(a[1..]);
      assert x in multiset(b);
      var j :| 0 <= j < |b| && b[j] == x;
      var rest := RemoveAt(b, j);
      MultisetRemoveAt(b, j);
      assert multiset(a[1..]) == multiset(rest);
      KeysPermutation(a[1..], rest, key);
      KeysRemoveAt(b, j, key);
      KeysCons(a, key);
      var kb := multiset(Keys(b, key));
      var k := key(x);
      assert Keys(b, key)[j] == k;
      assert k in kb;
      assert multiset(Keys(a, key)) == multiset{k} + multiset(Keys(a[1..], key));
      assert multiset(Keys(a[1..], key)) == kb - multiset{k};
      MultisetPutBack(kb, k);
    }
  }

  /** Taking one occurrence out of a bag and putting it back gives the bag. */
  lemma MultisetPutBack<K>(m: multiset<K>, k: K)
    requires k in m
    ensures multiset{k} + (m - multiset{k}) == m
  {
    assert forall y :: (multiset{k} + (m - multiset{k}))[y] == m[y];
  }

  /** When no key occurs twice, elements at different positions have different keys. */
  lemma UniqueKeysDistinct<T, K>(s: seq<T>, key: T -> K, i: int, j: int)
    requires NoDuplicates(multiset(Keys(s, key)))
    requires 0 <= i < j < |s|
    ensures key(s[i]) != key(s[j])
  {
    var ks := Keys(s, key);
    var a, b := ks[..j], ks[j..];
    assert ks == a + b && a[i] == ks[i] && b[0] == ks[j];
    assert multiset(ks) == multiset(a) + multiset(b);
    assert multiset(ks)[ks[i]] == 1;
    assert multiset(a)[ks[i]] >= 1;
    assert multiset(b)[ks[j]] >= 1;
  }

  // ---------------------------------------------------------------------------
  // find / findIndex / splice
  // ---------------------------------------------------------------------------

  /** `s.findIndex(x => key(x) === k)`: the first position whose key is `k`, or -1. */
  function FindIndex<T, K(==)>(s: seq<T>, key: T -> K, k: K): (r: int)
    ensures -1 <= r < |s|
    ensures r == -1 <==> forall i :: 0 <= i < |s| ==> key(s[i]) != k
    ensures r >= 0 ==> key(s[r]) == k && forall i :: 0 <= i < r ==> key(s[i]) != k
  {
    if s == [] then -1
    else if key(s[0]) == k then 0
    else
      var r := FindIndex(s[1..], key, k);
      if r == -1 then -1 else r + 1
  }

  /** `s.find(x => key(x) === k)`: the first element whose key is `k`, or `undefined`. */
  function Find<T, K(==)>(s: seq<T>, key: T -> K, k: K): (r: Option<T>)
    ensures r.None? <==> forall i :: 0 <= i < |s| ==> key(s[i]) != k
    ensures r.Some? ==> 0 <= FindIndex(s, key, k) && r.value == s[FindIndex(s, key, k)] && key(r.value) == k
  {
    var i := FindIndex(s, key, k);
    if i < 0 then None else Some(s[i])
  }

  /** With unique keys, `find` returns the one element that carries the key. */
  lemma FindUnique<T, K>(s: seq<T>, key: T -> K, i: int)
    requires NoDuplicates(multiset(Keys(s, key)))
    requires 0 <= i < |s|
    ensures Find(s, key, key(s[i])) == Some(s[i])
  {
    var j := FindIndex(s, key, key(s[i]));
    if j < i {
      UniqueKeysDistinct(s, key, j, i);
    }
  }

  /** An element appended with a key no element has is what `find` returns for that key. */
  lemma FindAppended<T, K>(s: seq<T>, x: T, key: T -> K)
    requires key(x) !in Keys(s, key)
    ensures Find(s + [x], key, key(x)) == Some(x)
  {
    var t := s + [x];
    assert key(t[|s|]) == key(x);
    assert forall i :: 0 <= i < |s| ==> t[i] == s[i] && Keys(s, key)[i] == key(s[i]);
  }

  /** `find` over a list from which the only element with key `k` was removed finds nothing. */
  lemma FindAfterRemoval<T, K>(s: seq<T>, key: T -> K, i: int)
    requires NoDuplicates(multiset(Keys(s, key)))
    requires 0 <= i < |s|
    ensures Find(RemoveAt(s, i), key, key(s[i])).None?
  {
    var t := RemoveAt(s, i);
    forall j | 0 <= j < |t|
      ensures key(t[j]) != key(s[i])
    {
      if j < i {
        UniqueKeysDistinct(s, key, j, i);
      } else {
        UniqueKeysDistinct(s, key, i, j + 1);
      }
    }
  }

  /** The keys rise strictly from left to right and all lie in `[1, bound)`: what a list
      built by appending records stamped from a counter looks like. */
  ghost predicate Rising<T>(s: seq<T>, key: T -> int, bound: int)
    decreases |s|
  {
    s == [] || (1 <= key(s[|s| - 1]) < bound && Rising(s[..|s| - 1], key, key(s[|s| - 1])))
  }

  lemma RisingPush<T>(s: seq<T>, x: T, key: T -> int, bound: int)
    requires Rising(s, key, key(x)) && 1 <= key(x) < bound
    ensures Rising(s + [x], key, bound)
  {
    assert (s + [x])[..|s|] == s;
  }

  lemma RisingWeaken<T>(s: seq<T>, key: T -> int, bound: int, larger: int)
    requires Rising(s, key, bound) && bound <= larger
    ensures Rising(s, key, larger)
  {
  }

  /** Rising keys are unique and lie in `[1, bound)`. */
  lemma {:induction false} RisingUnique<T>(s: seq<T>, key: T -> int, bound: int)
    requires Rising(s, key, bound)
    ensures NoDuplicates(multiset(Keys(s, key)))
    ensures forall k | k in multiset(Keys(s, key)) :: 1 <= k < bound
  {
    if s != [] {
      var init, x := s[..|s| - 1], s[|s| - 1];
      RisingUnique(init, key, key(x));
      KeysPush(init, x, key);
      assert init + [x] == s;
    }
  }

  /** Replacing an element by one with the same key keeps the keys ascending. */
  lemma {:induction false} RisingUpdate<T>(s: seq<T>, i: int, x: T, key: T -> int, bound: int)
    requires Rising(s, key, bound) && 0 <= i < |s| && key(x) == key(s[i])
    ensures Rising(s[i := x], key, bound)
  {
    var n := |s| - 1;
    if i == n {
      assert s[i := x][..n] == s[..n];
    } else {
      RisingUpdate(s[..n], i, x, key, key(s[n]));
      assert s[i := x][..n] == s[..n][i := x];
    }
  }

  /** Removing an element keeps the keys ascending. */
  lemma {:induction false} RisingRemoveAt<T>(s: seq<T>, i: int, key: T -> int, bound: int)
    requires Rising(s, key, bound) && 0 <= i < |s|
    ensures Rising(RemoveAt(s, i), key, bound)
  {
    var n := |s| - 1;
    if i == n {
      assert RemoveAt(s, i) == s[..n];
      if n > 0 {
        RisingWeaken(s[..n], key, key(s[n]), bound);
      }
    } else {
      RisingRemoveAt(s[..n], i, key, key(s[n]));
      var r := RemoveAt(s, i);
      assert r[..|r| - 1] == RemoveAt(s[..n], i);
      assert r[|r| - 1] == s[n];
    }
  }

  /** `s.splice(s.findIndex(x => key(x) === k), 1)` when some element has key `k`;
      `s` itself otherwise. */
  function RemoveKey<T, K(==)>(s: seq<T>, key: T -> K, k: K): seq<T> {
    var i := FindIndex(s, key, k);
    if i < 0 then s else RemoveAt(s, i)
  }

  /** With unique keys, removing by key keeps exactly the elements whose key differs. */
  lemma RemoveKeyKeepsOthers<T, K>(s: seq<T>, key: T -> K, k: K)
    requires NoDuplicates(multiset(Keys(s, key)))
    ensures forall x | x in RemoveKey(s, key, k) :: x in s && key(x) != k
    ensures forall x | x in s && key(x) != k :: x in RemoveKey(s, key, k)
  {
    var i := FindIndex(s, key, k);
    if i >= 0 {
      var r := RemoveAt(s, i);
      forall j | 0 <= j < |s| && j != i
        ensures key(s[j]) != k && s[j] in r
      {
        if j < i {
          UniqueKeysDistinct(s, key, j, i);
          assert r[j] == s[j];
        } else {
          UniqueKeysDistinct(s, key, i, j);
          assert r[j - 1] == s[j];
        }
      }
      forall x | x in r
        ensures x in s && key(x) != k
      {
        var j :| 0 <= j < |r| && r[j] == x;
        if j < i {
          assert x == s[j];
        } else {
          assert x == s[j + 1];
        }
      }
    }
  }

  /** `s.splice(i, 1)`: the list without position `i`, the rest in order. */
  function RemoveAt<T>(s: seq<T>, i: int): (r: seq<T>)
    requires 0 <= i < |s|
    ensures |r| == |s| - 1
    ensures forall j :: 0 <= j < i ==> r[j] == s[j]
    ensures forall j :: i <= j < |r| ==> r[j] == s[j + 1]
  {
    s[..i] + s[i + 1..]
  }

  // ---------------------------------------------------------------------------
  // filter / slice
  // ---------------------------------------------------------------------------

  /** `a` is an order-preserving sublist of `b`: `b` with some elements dropped. */
  predicate Sublist<T(==)>(a: seq<T>, b: seq<T>)
    decreases |b|
  {
    a == [] || (b != [] && ((a[0] == b[0] && Sublist(a[1..], b[1..])) || Sublist(a, b[1..])))
  }

  /** `s.filter(p)`. */
  function Filter<T(==)>(s: seq<T>, p: T -> bool): (r: seq<T>)
    ensures |r| <= |s|
    ensures forall x | x in r :: x in s && p(x)
    ensures forall x | x in s :: x in r <==> p(x)
    ensures forall x | x in s :: multiset(r)[x] == if p(x) then multiset(s)[x] else 0
    ensures Sublist(r, s)
  {
    if s == [] then []
    else
      assert s == [s[0]] + s[1..];
      if p(s[0]) then [s[0]] + Filter(s[1..], p) else Filter(s[1..], p)
  }

  /** A test every element passes keeps the whole list. */
  lemma {:induction false} FilterKeepsAll<T>(s: seq<T>, p: T -> bool)
    requires forall x | x in s :: p(x)
    ensures Filter(s, p) == s
  {
    if s != [] {
      assert s == [s[0]] + s[1..];
      FilterKeepsAll(s[1..], p);
    }
  }

  /** Two predicates that agree on every element of `s` filter it alike. */
  lemma {:induction false} FilterCongruent<T>(s: seq<T>, p: T -> bool, q: T -> bool)
    requires forall x :: x in s ==> p(x) == q(x)
    ensures Filter(s, p) == Filter(s, q)
  {
    if s != [] {
      assert s == [s[0]] + s[1..];
      FilterCongruent(s[1..], p, q);
    }
  }

  lemma {:induction false} FilterAppend<T>(a: seq<T>, b: seq<T>, p: T -> bool)
    ensures Filter(a + b, p) == Filter(a, p) + Filter(b, p)
  {
    if a == [] {
      assert a + b == b;
    } else {
      assert (a + b)[1..] == a[1..] + b;
      FilterAppend(a[1..], b, p);
    }
  }

  /** The number of elements satisfying `p` (`s.filter(p).length`). */
  function Count<T(==)>(s: seq<T>, p: T -> bool): (n: nat)
    ensures n <= |s|
  {
    |Filter(s, p)|
  }

  /** Appending one element raises the count by one exactly when it satisfies `p`. */
  lemma CountAppend<T>(s: seq<T>, x: T, p: T -> bool)
    ensures Count(s + [x], p) == Count(s, p) + (if p(x) then 1 else 0)
  {
    FilterAppend(s, [x], p);
  }

  /** A test that holds wherever `p` holds counts at least as many elements. */
  lemma {:induction false} CountWeaker<T>(s: seq<T>, p: T -> bool, q: T -> bool)
    requires forall x :: x in s && p(x) ==> q(x)
    ensures Count(s, p) <= Count(s, q)
  {
    if s != [] {
      assert s == [s[0]] + s[1..];
      CountWeaker(s[1..], p, q);
    }
  }

  /** ... and strictly more when some element passes `q` but not `p`. */
  lemma {:induction false} CountStrictlyWeaker<T>(s: seq<T>, p: T -> bool, q: T -> bool)
    requires forall x :: x in s && p(x) ==> q(x)
    requires exists x :: x in s && q(x) && !p(x)
    ensures Count(s, p) < Count(s, q)
  {
    assert s == [s[0]] + s[1..];
    if q(s[0]) && !p(s[0]) {
      CountWeaker(s[1..], p, q);
    } else {
      var x :| x in s && q(x) && !p(x);
      assert x in s[1..];
      CountStrictlyWeaker(s[1..], p, q);
    }
  }

  /** Replacing position `i` changes the count by the difference of the two elements' votes. */
  lemma CountUpdate<T>(s: seq<T>, i: int, x: T, p: T -> bool)
    requires 0 <= i < |s|
    ensures Count(s[i := x], p) == Count(s, p) - (if p(s[i]) then 1 else 0) + (if p(x) then 1 else 0)
  {
    assert s == s[..i] + [s[i]] + s[i + 1..];
    assert s[i := x] == s[..i] + [x] + s[i + 1..];
    FilterAppend(s[..i] + [s[i]], s[i + 1..], p);
    FilterAppend(s[..i], [s[i]], p);
    FilterAppend(s[..i] + [x], s[i + 1..], p);
    FilterAppend(s[..i], [x], p);
  }

  /** `s.slice(0, n)`. */
  function Take<T>(s: seq<T>, n: nat): (r: seq<T>)
    ensures |r| == if n < |s| then n else |s|
    ensures forall i :: 0 <= i < |r| ==> r[i] == s[i]
  {
    if n < |s| then s[..n] else s
  }

  /** The first `n` elements are part of the list. */
  lemma TakePart<T>(s: seq<T>, n: nat)
    ensures multiset(Take(s, n)) <= multiset(s)
  {
    var t := Take(s, n);
    assert s == t + s[|t|..];
    assert multiset(s) == multiset(t) + multiset(s[|t|..]);
  }

  /** An element the first `n` leave out (one of its copies, at least) lies beyond position `n`. */
  lemma TakeLeavesOut<T>(s: seq<T>, n: nat, x: T)
    requires multiset(Take(s, n))[x] < multiset(s)[x]
    ensures n < |s| && x in s[n..]
  {
    var t := Take(s, n);
    var rest := s[|t|..];
    assert s == t + rest;
    assert multiset(s) == multiset(t) + multiset(rest);
    assert x in rest;
  }

  /** In an ascending list, such an element is no smaller than the last one taken. */
  lemma TakeOfSortedLeavesLater<T>(s: seq<T>, key: T -> int, n: nat, x: T)
    requires SortedBy(s, key, Ascending)
    requires multiset(Take(s, n))[x] < multiset(s)[x]
    ensures n < |s|
    ensures n > 0 ==> key(s[n - 1]) <= key(x)
  {
    TakeLeavesOut(s, n, x);
    var j :| n <= j < |s| && s[j] == x;
    if n > 0 {
      assert InOrder(Ascending, key(s[n - 1]), key(s[j]));
    }
  }

  // ---------------------------------------------------------------------------
  // sort
  // ---------------------------------------------------------------------------

  /** The direction of a comparator: `a - b` is ascending, `b - a` descending. */
  datatype Order = Ascending | Descending

  predicate InOrder(o: Order, a: int, b: int) {
    match o
    case Ascending => a <= b
    case Descending => a >= b
  }

  ghost predicate SortedBy<T>(s: seq<T>, key: T -> int, o: Order) {
    forall i, j :: 0 <= i < j < |s| ==> InOrder(o, key(s[i]), key(s[j]))
  }

  /** Every neighbouring pair is in order. */
  ghost predicate Chained<T>(s: seq<T>, key: T -> int, o: Order) {
    forall i :: 0 <= i < |s| - 1 ==> InOrder(o, key(s[i]), key(s[i + 1]))
  }

  lemma {:induction false} ChainedIsSorted<T>(s: seq<T>, key: T -> int, o: Order)
    requires Chained(s, key, o)
    ensures SortedBy(s, key, o)
  {
    if |s| > 1 {
      var t := s[1..];
      ChainedIsSorted(t, key, o);
      forall i, j | 0 <= i < j < |s|
        ensures InOrder(o, key(s[i]), key(s[j]))
      {
        if i == 0 {
          assert InOrder(o, key(s[0]), key(s[1]));
          if j > 1 {
            assert s[1] == t[0] && s[j] == t[j - 1];
          }
        } else {
          assert s[i] == t[i - 1] && s[j] == t[j - 1];
        }
      }
    }
  }

  /** Inserts `x` before the first element it may precede, keeping `s` in order. */
  function Insert<T>(x: T, s: seq<T>, key: T -> int, o: Order): (r: seq<T>)
    requires Chained(s, key, o)
    ensures |r| == |s| + 1
    ensures multiset(r) == multiset(s) + multiset{x}
    ensures r[0] == x || (s != [] && r[0] == s[0])
    ensures Chained(r, key, o)
  {
    if s == [] || InOrder(o, key(x), key(s[0])) then
      [x] + s
    else
      assert s == [s[0]] + s[1..];
      [s[0]] + Insert(x, s[1..], key, o)
  }

  /** `s.sort((a, b) => key(a) - key(b))`, or `key(b) - key(a)` descending, as an
      insertion sort that puts each element before the elements of equal key after it. */
  function Sort<T>(s: seq<T>, key: T -> int, o: Order): (r: seq<T>)
    ensures |r| == |s|
    ensures multiset(r) == multiset(s)
    ensures Chained(r, key, o)
  {
    if s == [] then []
    else
      assert s == [s[0]] + s[1..];
      Insert(s[0], Sort(s[1..], key, o), key, o)
  }

  /** The result of `Sort` is ordered pairwise, not only between neighbours. */
  lemma SortIsSorted<T>(s: seq<T>, key: T -> int, o: Order)
    ensures SortedBy(Sort(s, key, o), key, o)
  {
    ChainedIsSorted(Sort(s, key, o), key, o);
  }
}

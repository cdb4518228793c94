/**
 * Sequence helpers for the array methods the program calls: `filter`, and the
 * stable `Array.prototype.sort` driven by a comparator. A comparator `cmp` is
 * represented by `le(a, b)`, meaning `cmp(a, b) <= 0`: `a` may stay in front of `b`.
 */
module Lists {

  /** `Array.prototype.filter`: the elements satisfying `p`, in their original order. */
  function Filter<T(!new)>(s: seq<T>, p: T -> bool): (r: seq<T>)
    ensures |r| <= |s|
    ensures multiset(r) <= multiset(s)
    ensures forall x :: x in r <==> x in s && p(x)
  {
    if s == [] then []
    else
      assert s == [s[0]] + s[1..];
      if p(s[0]) then [s[0]] + Filter(s[1..], p) else Filter(s[1..], p)
  }

  /** Filtering a concatenation filters each part. */
  lemma {:induction false} FilterAppend<T(!new)>(a: seq<T>, b: seq<T>, p: T -> bool)
    ensures Filter(a + b, p) == Filter(a, p) + Filter(b, p)
  {
    if a == [] {
      assert a + b == b;
    } else {
      assert (a + b)[1..] == a[1..] + b;
      FilterAppend(a[1..], b, p);
    }
  }

  /** The positions `j` with `k <= j < |s|` whose element satisfies `p`, in increasing order. */
  function PositionsFrom<T>(s: seq<T>, p: T -> bool, k: nat): (r: seq<nat>)
    requires k <= |s|
    ensures forall i :: 0 <= i < |r| ==> k <= r[i] < |s| && p(s[r[i]])
    ensures forall i, j :: 0 <= i < j < |r| ==> r[i] < r[j]
    ensures forall j :: k <= j < |s| && p(s[j]) ==> j in r
    decreases |s| - k
  {
    if k == |s| then []
    else
      var rest := PositionsFrom(s, p, k + 1);
      if p(s[k]) then [k] + rest else rest
  }

  /**
   * `filter` keeps exactly the elements at the positions `p` accepts, in their order:
   * its i-th element is the element at the i-th accepted position.
   */
  lemma FilterPositions<T(!new)>(s: seq<T>, p: T -> bool)
    ensures var pos := PositionsFrom(s, p, 0);
      |Filter(s, p)| == |pos| && forall i :: 0 <= i < |pos| ==> Filter(s, p)[i] == s[pos[i]]
  {
    FilterPositionsFrom(s, p, 0);
    assert s[0..] == s;
  }

  lemma {:induction false} FilterPositionsFrom<T(!new)>(s: seq<T>, p: T -> bool, k: nat)
    requires k <= |s|
    ensures var pos := PositionsFrom(s, p, k);
      |Filter(s[k..], p)| == |pos| && forall i :: 0 <= i < |pos| ==> Filter(s[k..], p)[i] == s[pos[i]]
    decreases |s| - k
  {
    if k < |s| {
      FilterPositionsFrom(s, p, k + 1);
      assert s[k..] == [s[k]] + s[k + 1..];
      if p(s[k]) {
        PositionsCons(s, k, Filter(s[k + 1..], p), PositionsFrom(s, p, k + 1));
      }
    }
  }

  lemma PositionsCons<T>(s: seq<T>, k: nat, kept: seq<T>, rest: seq<nat>)
    requires k < |s| && |kept| == |rest|
    requires forall i :: 0 <= i < |rest| ==> rest[i] < |s| && kept[i] == s[rest[i]]
    ensures forall i :: 0 <= i < |rest| + 1 ==> ([s[k]] + kept)[i] == s[([k] + rest)[i]]
  {
    forall i | 0 <= i < |rest| + 1 ensures ([s[k]] + kept)[i] == s[([k] + rest)[i]] {
      if i > 0 {
        assert ([k] + rest)[i] == rest[i - 1];
      }
    }
  }

  lemma {:induction false} FilterAll<T(!new)>(s: seq<T>, p: T -> bool)
    requires forall x :: x in s ==> p(x)
    ensures Filter(s, p) == s
  {
    if s != [] {
      assert s[0] in s;
      assert forall x :: x in s[1..] ==> x in s;
      FilterAll(s[1..], p);
    }
  }

  lemma {:induction false} FilterNone<T(!new)>(s: seq<T>, p: T -> bool)
    requires forall x :: x in s ==> !p(x)
    ensures Filter(s, p) == []
  {
    if s != [] {
      assert s[0] in s;
      assert forall x :: x in s[1..] ==> x in s;
      FilterNone(s[1..], p);
    }
  }

  /** The number of elements of `s` equal to `x` (`filter(e => e === x).length`). */
  function Count<T(==)>(s: seq<T>, x: T): (n: nat)
    ensures n == multiset(s)[x]
    ensures n > 0 <==> x in s
  {
    if s == [] then 0
    else
      assert s == [s[0]] + s[1..];
      (if s[0] == x then 1 else 0) + Count(s[1..], x)
  }

  ghost predicate NoDuplicates<T>(s: seq<T>) {
    forall i, j :: 0 <= i < j < |s| ==> s[i] != s[j]
  }

  /** The comparator is a total preorder: every two elements are comparable, transitively. */
  ghost predicate TotalPreorder<T(!new)>(le: (T, T) -> bool) {
    && (forall a, b :: le(a, b) || le(b, a))
    && (forall a, b, c :: le(a, b) && le(b, c) ==> le(a, c))
  }

  ghost predicate SortedBy<T>(s: seq<T>, le: (T, T) -> bool) {
    forall i, j :: 0 <= i < j < |s| ==> le(s[i], s[j])
  }

  /** Places `x` in front of the first element it may precede. */
  function Insert<T>(x: T, s: seq<T>, le: (T, T) -> bool): (r: seq<T>)
    ensures |r| == |s| + 1
    ensures multiset(r) == multiset(s) + multiset{x}
  {
    if s == [] || le(x, s[0]) then [x] + s
    else
      assert s == [s[0]] + s[1..];
      [s[0]] + Insert(x, s[1..], le)
  }

  /**
   * The stable sort of `s` under `le`. Each element is inserted in front of the
   * already sorted elements that come after it in `s`, so equivalent elements keep
   * their input order.
   */
  function Sort<T>(s: seq<T>, le: (T, T) -> bool): (r: seq<T>)
    ensures |r| == |s|
    ensures multiset(r) == multiset(s)
  {
    if s == [] then []
    else
      assert s == [s[0]] + s[1..];
      Insert(s[0], Sort(s[1..], le), le)
  }

  lemma {:induction false} InsertSorted<T(!new)>(x: T, s: seq<T>, le: (T, T) -> bool)
    requires TotalPreorder(le)
    requires SortedBy(s, le)
    ensures SortedBy(Insert(x, s, le), le)
  {
    if s == [] || le(x, s[0]) {
    } else {
      var rest := Insert(x, s[1..], le);
      InsertSorted(x, s[1..], le);
      assert le(s[0], x);
      forall y | y in rest ensures le(s[0], y) {
        assert y in multiset(rest);
        if y != x {
          assert y in multiset(s[1..]);
          assert y in s[1..];
        }
      }
    }
  }

  /** The sort yields a sequence ordered by the comparator. */
  lemma {:induction false} SortSorted<T(!new)>(s: seq<T>, le: (T, T) -> bool)
    requires TotalPreorder(le)
    ensures SortedBy(Sort(s, le), le)
  {
    if s != [] {
      SortSorted(s[1..], le);
      InsertSorted(s[0], Sort(s[1..], le), le);
    }
  }

  /** The elements of `s` the comparator cannot tell apart from `k`, in order. */
  function Peers<T>(s: seq<T>, k: T, le: (T, T) -> bool): (r: seq<T>)
    ensures forall i :: 0 <= i < |r| ==> le(r[i], k) && le(k, r[i])
  {
    if s == [] then []
    else if le(s[0], k) && le(k, s[0]) then [s[0]] + Peers(s[1..], k, le)
    else Peers(s[1..], k, le)
  }

  lemma {:induction false} InsertPeers<T(!new)>(x: T, s: seq<T>, k: T, le: (T, T) -> bool)
    requires TotalPreorder(le)
    ensures Peers(Insert(x, s, le), k, le) == Peers([x], k, le) + Peers(s, k, le)
  {
    if s == [] || le(x, s[0]) {
      assert ([x] + s)[1..] == s;
    } else {
      InsertPeers(x, s[1..], k, le);
      assert ([s[0]] + Insert(x, s[1..], le))[1..] == Insert(x, s[1..], le);
      if le(x, k) && le(k, x) {
        assert !(le(s[0], k) && le(k, s[0]));
      }
    }
  }

  lemma PeersCons<T>(s: seq<T>, k: T, le: (T, T) -> bool)
    requires s != []
    ensures Peers(s, k, le) == Peers([s[0]], k, le) + Peers(s[1..], k, le)
  {
    assert [s[0]][1..] == [];
  }

  /** Stability: the sort keeps equivalent elements in their input order. */
  lemma {:induction false} SortStable<T(!new)>(s: seq<T>, k: T, le: (T, T) -> bool)
    requires TotalPreorder(le)
    ensures Peers(Sort(s, le), k, le) == Peers(s, k, le)
  {
    if s != [] {
      SortStable(s[1..], k, le);
      InsertPeers(s[0], Sort(s[1..], le), k, le);
      PeersCons(s, k, le);
    }
  }

  /** A sorted sequence is its own sort. */
  lemma {:induction false} SortOfSorted<T(!new)>(s: seq<T>, le: (T, T) -> bool)
    requires SortedBy(s, le)
    ensures Sort(s, le) == s
  {
    if s != [] {
      SortOfSorted(s[1..], le);
      assert Sort(s[1..], le) == s[1..];
      if |s| > 1 {
        assert le(s[0], s[1]);
      }
      assert [s[0]] + s[1..] == s;
    }
  }

  /**
   * The position of the first entry of `t` whose key is `key`, or -1: the lookup
   * `record[key]` of an object literal written as the list of its entries.
   */
  function KeyIndex<K(==), V>(t: seq<(K, V)>, key: K): (k: int)
    ensures -1 <= k < |t|
    ensures k >= 0 ==> t[k].0 == key && forall i :: 0 <= i < k ==> t[i].0 != key
    ensures k == -1 ==> forall i :: 0 <= i < |t| ==> t[i].0 != key
  {
    if t == [] then -1
    else if t[0].0 == key then 0
    else
      var k := KeyIndex(t[1..], key);
      if k == -1 then -1 else k + 1
  }

  /** The keys of an entry list, in order (`Object.keys`). */
  function Keys<K, V>(t: seq<(K, V)>): (r: seq<K>)
    ensures |r| == |t|
    ensures forall i :: 0 <= i < |t| ==> r[i] == t[i].0
  {
    if t == [] then [] else [t[0].0] + Keys(t[1..])
  }

  /** The distinct elements of `s` in order of first occurrence (the key order of a JS `Set` or `Map`). */
  function Dedup<T(==, !new)>(s: seq<T>): (r: seq<T>)
    ensures NoDuplicates(r)
    ensures forall x :: x in r <==> x in s
  {
    if s == [] then []
    else
      var d := Dedup(s[..|s| - 1]);
      assert forall i :: 0 <= i < |s| - 1 ==> s[i] == s[..|s| - 1][i];
      if s[|s| - 1] in d then d else d + [s[|s| - 1]]
  }

  /** Appending an element extends the first-occurrence order only when the element is new. */
  lemma DedupSnoc<T(!new)>(s: seq<T>, x: T)
    ensures Dedup(s + [x]) == if x in s then Dedup(s) else Dedup(s) + [x]
  {
    assert (s + [x])[..|s|] == s;
  }

  lemma CountSnoc<T>(s: seq<T>, x: T, y: T)
    ensures Count(s + [x], y) == Count(s, y) + if x == y then 1 else 0
  {
    assert multiset(s + [x]) == multiset(s) + multiset{x};
  }

  /** An element found at two positions occurs at least twice. */
  lemma MultisetTwo<T>(s: seq<T>, i: nat, j: nat)
    requires i < j < |s|
    ensures s[i] == s[j] ==> multiset(s)[s[i]] >= 2
  {
    assert s == s[..j] + s[j..];
    assert s[i] in s[..j] && s[j] in s[j..];
  }

  lemma {:induction false} AtMostOnce<T>(s: seq<T>)
    requires NoDuplicates(s)
    ensures forall x :: multiset(s)[x] <= 1
  {
    if s != [] {
      assert s == [s[0]] + s[1..];
      AtMostOnce(s[1..]);
      assert s[0] !in s[1..];
    }
  }

  /** A sub-multiset of a sequence without duplicates has none either. */
  lemma NoDuplicatesSub<T>(a: seq<T>, b: seq<T>)
    requires multiset(a) <= multiset(b) && NoDuplicates(b)
    ensures NoDuplicates(a)
  {
    AtMostOnce(b);
    forall i, j | 0 <= i < j < |a| ensures a[i] != a[j] {
      MultisetTwo(a, i, j);
    }
  }

  lemma EmptyWhenNoMember<T>(s: seq<T>)
    ensures (forall x :: x !in s) ==> s == []
  {
    if s != [] {
      assert s[0] in s;
    }
  }

  function Min(a: int, b: int): int {
    if a <= b then a else b
  }
}

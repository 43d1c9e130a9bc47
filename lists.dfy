/** The list operations the routes and pages share: `filter`, `slice(0, n)`, first-wins
    deduplication through a `seen` set, and the stable `Array.prototype.sort` by a numeric key. */
module Lists {

  import opened Common

  /** `a` can be obtained from `b` by deleting elements: same elements, same relative order. */
  ghost predicate IsSubseq<T>(a: seq<T>, b: seq<T>)
    decreases |b|
  {
    if b == [] then a == []
    else IsSubseq(a, b[1..]) || (a != [] && a[0] == b[0] && IsSubseq(a[1..], b[1..]))
  }

  lemma {:induction false} IsSubseqRefl<T>(s: seq<T>)
    ensures IsSubseq(s, s)
  {
    if s != [] {
      IsSubseqRefl(s[1..]);
    }
  }

  // ---------------------------------------------------------------- filter

  /** `xs.filter(p)`. */
  function Filter<T>(xs: seq<T>, p: T -> bool): (r: seq<T>)
    ensures |r| <= |xs|
    ensures forall i :: 0 <= i < |r| ==> p(r[i]) && r[i] in xs
    ensures forall i :: 0 <= i < |xs| && p(xs[i]) ==> xs[i] in r
  {
    if xs == [] then []
    else if p(xs[0]) then [xs[0]] + Filter(xs[1..], p)
    else Filter(xs[1..], p)
  }

  /** The filtered list keeps the original relative order. */
  lemma {:induction false} FilterIsSubseq<T>(xs: seq<T>, p: T -> bool)
    ensures IsSubseq(Filter(xs, p), xs)
  {
    if xs != [] {
      FilterIsSubseq(xs[1..], p);
    }
  }

  /** A predicate every element satisfies filters nothing out. */
  lemma {:induction false} FilterKeepsAll<T>(xs: seq<T>, p: T -> bool)
    requires forall i :: 0 <= i < |xs| ==> p(xs[i])
    ensures Filter(xs, p) == xs
  {
    if xs != [] {
      FilterKeepsAll(xs[1..], p);
    }
  }

  // ---------------------------------------------------------------- slice(0, n)

  /** `xs.slice(0, n)`. */
  function Take<T>(xs: seq<T>, n: nat): (r: seq<T>)
    ensures |r| == Min(|xs|, n)
    ensures r == xs[..|r|]
  {
    if |xs| <= n then xs else xs[..n]
  }

  lemma PrefixIsSubseq<T>(xs: seq<T>, n: nat)
    requires n <= |xs|
    ensures IsSubseq(xs[..n], xs)
    decreases |xs|
  {
    if n == 0 {
      if xs != [] {
        PrefixIsSubseq(xs[1..], 0);
      }
    } else {
      assert xs[..n][1..] == xs[1..][..n - 1];
      PrefixIsSubseq(xs[1..], n - 1);
    }
  }

  lemma {:induction false} SubseqTrans<T>(a: seq<T>, b: seq<T>, c: seq<T>)
    requires IsSubseq(a, b) && IsSubseq(b, c)
    ensures IsSubseq(a, c)
    decreases |c|
  {
    if c == [] {
    } else if IsSubseq(b, c[1..]) {
      SubseqTrans(a, b, c[1..]);
    } else {
      // b[0] == c[0] and IsSubseq(b[1..], c[1..])
      if a == [] {
        EmptyIsSubseq(c);
      } else if IsSubseq(a, b[1..]) {
        SubseqTrans(a, b[1..], c[1..]);
      } else {
        SubseqTrans(a[1..], b[1..], c[1..]);
      }
    }
  }

  lemma {:induction false} EmptyIsSubseq<T>(c: seq<T>)
    ensures IsSubseq([], c)
  {
    if c != [] {
      EmptyIsSubseq(c[1..]);
    }
  }

  /** Every element of a subsequence is an element of the whole list. */
  lemma {:induction false} SubseqMembers<T>(a: seq<T>, b: seq<T>)
    requires IsSubseq(a, b)
    ensures forall i :: 0 <= i < |a| ==> a[i] in b
    decreases |b|
  {
    if b != [] {
      if IsSubseq(a, b[1..]) {
        SubseqMembers(a, b[1..]);
      } else {
        SubseqMembers(a[1..], b[1..]);
        assert forall i :: 1 <= i < |a| ==> a[i] == a[1..][i - 1];
      }
    }
  }

  /** `xs.map(f)`. */
  function Map<T, U>(xs: seq<T>, f: T -> U): (r: seq<U>)
    ensures |r| == |xs|
    ensures forall i :: 0 <= i < |xs| ==> r[i] == f(xs[i])
  {
    seq(|xs|, i requires 0 <= i < |xs| => f(xs[i]))
  }

  // ---------------------------------------------------------------- first-wins dedup

  /** No two elements of `s` share a key. */
  ghost predicate KeysDistinct<T, K>(s: seq<T>, key: T -> K)
  {
    forall i, j :: 0 <= i < j < |s| ==> key(s[i]) != key(s[j])
  }

  /** Cutting a list short keeps its keys distinct. */
  lemma PrefixKeysDistinct<T, K>(s: seq<T>, key: T -> K, n: nat)
    requires n <= |s| && KeysDistinct(s, key)
    ensures KeysDistinct(s[..n], key)
  {
    assert forall i :: 0 <= i < n ==> s[..n][i] == s[i];
  }

  /** `xs[i]` is the first element of `xs` with its key. */
  ghost predicate FirstOfKey<T, K>(xs: seq<T>, key: T -> K, i: int)
    requires 0 <= i < |xs|
  {
    forall k :: 0 <= k < i ==> key(xs[k]) != key(xs[i])
  }

  /** The `filter` with a mutable `seen` set, as a value: the keys in `seen` are
      already taken, and each later element is kept iff its key is new. */
  function DedupFrom<T, K(==)>(xs: seq<T>, key: T -> K, seen: set<K>): seq<T>
    decreases |xs|
  {
    if xs == [] then []
    else if key(xs[0]) in seen then DedupFrom(xs[1..], key, seen)
    else [xs[0]] + DedupFrom(xs[1..], key, seen + {key(xs[0])})
  }

  /** First-occurrence-wins deduplication by `key`, starting from an empty `seen` set. */
  function DedupBy<T, K(==)>(xs: seq<T>, key: T -> K): seq<T>
  {
    DedupFrom(xs, key, {})
  }

  /** `DedupFrom` keeps the input order. */
  lemma {:induction false} DedupFromSubseq<T, K>(xs: seq<T>, key: T -> K, seen: set<K>)
    ensures IsSubseq(DedupFrom(xs, key, seen), xs)
    decreases |xs|
  {
    if xs != [] {
      var k0 := key(xs[0]);
      if k0 in seen {
        DedupFromSubseq(xs[1..], key, seen);
      } else {
        DedupFromSubseq(xs[1..], key, seen + {k0});
      }
    }
  }

  /** `DedupFrom` keeps at most one element per key, and none whose key was already seen. */
  lemma {:induction false} DedupFromDistinct<T, K>(xs: seq<T>, key: T -> K, seen: set<K>)
    ensures var r := DedupFrom(xs, key, seen);
      KeysDistinct(r, key) && forall j :: 0 <= j < |r| ==> key(r[j]) !in seen
    decreases |xs|
  {
    if xs != [] {
      var k0 := key(xs[0]);
      if k0 in seen {
        DedupFromDistinct(xs[1..], key, seen);
      } else {
        var rest := DedupFrom(xs[1..], key, seen + {k0});
        DedupFromDistinct(xs[1..], key, seen + {k0});
        var r := [xs[0]] + rest;
        assert forall j :: 1 <= j < |r| ==> r[j] == rest[j - 1];
      }
    }
  }

  /** Every element `DedupFrom` keeps is the first element of the input with its key. */
  lemma {:induction false} DedupFromKeepsFirsts<T, K>(xs: seq<T>, key: T -> K, seen: set<K>)
    ensures forall y :: y in DedupFrom(xs, key, seen) ==> exists i :: 0 <= i < |xs| && xs[i] == y && FirstOfKey(xs, key, i)
    decreases |xs|
  {
    var r := DedupFrom(xs, key, seen);
    if xs != [] {
      var k0 := key(xs[0]);
      var tail := xs[1..];
      var seen' := if k0 in seen then seen else seen + {k0};
      var rest := DedupFrom(tail, key, seen');
      DedupFromKeepsFirsts(tail, key, seen');
      DedupFromDistinct(tail, key, seen');
      assert r == if k0 in seen then rest else [xs[0]] + rest;
      forall j | 0 <= j < |r|
        ensures exists i :: 0 <= i < |xs| && xs[i] == r[j] && FirstOfKey(xs, key, i)
      {
        if k0 !in seen && j == 0 {
          assert xs[0] == r[0] && FirstOfKey(xs, key, 0);
        } else {
          var jr := if k0 in seen then j else j - 1;
          assert r[j] == rest[jr];
          assert rest[jr] in rest;
          var i' :| 0 <= i' < |tail| && tail[i'] == rest[jr] && FirstOfKey(tail, key, i');
          assert key(rest[jr]) !in seen';
          assert xs[i' + 1] == r[j];
          assert FirstOfKey(xs, key, i' + 1) by {
            forall k | 0 <= k < i' + 1
              ensures key(xs[k]) != key(xs[i' + 1])
            {
              assert xs[i' + 1] == tail[i'];
              if k > 0 {
                assert xs[k] == tail[k - 1];
                assert key(tail[k - 1]) != key(tail[i']);
              } else {
                assert key(xs[0]) in seen';
              }
            }
          }
        }
      }
    }
  }

  /** The first element of each key not yet seen is kept. */
  lemma {:induction false} DedupFromKeepsEveryFirst<T, K>(xs: seq<T>, key: T -> K, seen: set<K>)
    ensures var r := DedupFrom(xs, key, seen);
      forall i :: 0 <= i < |xs| && key(xs[i]) !in seen && FirstOfKey(xs, key, i) ==> xs[i] in r
    decreases |xs|
  {
    var r := DedupFrom(xs, key, seen);
    if xs != [] {
      var k0 := key(xs[0]);
      var tail := xs[1..];
      var seen' := if k0 in seen then seen else seen + {k0};
      var rest := DedupFrom(tail, key, seen');
      DedupFromKeepsEveryFirst(tail, key, seen');
      assert r == if k0 in seen then rest else [xs[0]] + rest;
      forall i | 0 <= i < |xs| && key(xs[i]) !in seen && FirstOfKey(xs, key, i)
        ensures xs[i] in r
      {
        if i > 0 {
          assert xs[i] == tail[i - 1];
          assert key(xs[i]) != k0;
          assert FirstOfKey(tail, key, i - 1) by {
            forall k | 0 <= k < i - 1
              ensures key(tail[k]) != key(tail[i - 1])
            {
              assert tail[k] == xs[k + 1];
            }
          }
          assert tail[i - 1] in rest;
        }
      }
    }
  }

  /** Every key of the input that was not yet seen is represented in the output. */
  lemma {:induction false} DedupFromCovers<T, K>(xs: seq<T>, key: T -> K, seen: set<K>)
    ensures forall i :: 0 <= i < |xs| && key(xs[i]) !in seen ==>
      exists y :: y in DedupFrom(xs, key, seen) && key(y) == key(xs[i])
    decreases |xs|
  {
    var r := DedupFrom(xs, key, seen);
    if xs != [] {
      var k0 := key(xs[0]);
      var tail := xs[1..];
      var seen' := if k0 in seen then seen else seen + {k0};
      var rest := DedupFrom(tail, key, seen');
      DedupFromCovers(tail, key, seen');
      assert r == if k0 in seen then rest else [xs[0]] + rest;
      forall i | 0 <= i < |xs| && key(xs[i]) !in seen
        ensures exists j :: 0 <= j < |r| && key(r[j]) == key(xs[i])
      {
        if key(xs[i]) == k0 {
          assert r[0] == xs[0];
        } else {
          assert xs[i] == tail[i - 1];
          var j' :| 0 <= j' < |rest| && key(rest[j']) == key(tail[i - 1]);
          var j := if k0 in seen then j' else j' + 1;
          assert r[j] == rest[j'];
        }
      }
    }
  }

  /** The deduplicated list: order kept, one element per key, and the element kept for a key is
      the first one in the input that has it; every key of the input is represented. */
  lemma DedupBySpec<T, K>(xs: seq<T>, key: T -> K)
    ensures var r := DedupBy(xs, key);
      && IsSubseq(r, xs)
      && KeysDistinct(r, key)
      && (forall y :: y in r ==> exists i :: 0 <= i < |xs| && xs[i] == y && FirstOfKey(xs, key, i))
      && (forall i :: 0 <= i < |xs| && FirstOfKey(xs, key, i) ==> xs[i] in r)
      && (forall i :: 0 <= i < |xs| ==> exists y :: y in r && key(y) == key(xs[i]))
  {
    DedupFromSubseq(xs, key, {});
    DedupFromDistinct(xs, key, {});
    DedupFromKeepsFirsts(xs, key, {});
    DedupFromKeepsEveryFirst(xs, key, {});
    DedupFromCovers(xs, key, {});
  }

  /** The positions of `xs` below `n` that hold the first element of their key, in increasing
      order: an index-level description of first-wins deduplication, independent of `DedupFrom`. */
  ghost function FirstIndices<T, K>(xs: seq<T>, key: T -> K, n: nat): (idx: seq<nat>)
    requires n <= |xs|
    ensures forall j :: 0 <= j < |idx| ==> idx[j] < n
  {
    if n == 0 then [] else FirstIndices(xs, key, n - 1) + (if FirstOfKey(xs, key, n - 1) then [n - 1] else [])
  }

  /** `FirstIndices` lists every first-of-key position below `n`, only those, in increasing order. */
  lemma {:induction false} FirstIndicesSpec<T, K>(xs: seq<T>, key: T -> K, n: nat)
    requires n <= |xs|
    ensures var idx := FirstIndices(xs, key, n);
      && (forall j :: 0 <= j < |idx| ==> FirstOfKey(xs, key, idx[j]))
      && (forall j1, j2 :: 0 <= j1 < j2 < |idx| ==> idx[j1] < idx[j2])
      && (forall i :: 0 <= i < n && FirstOfKey(xs, key, i) ==> i in idx)
    decreases n
  {
    if n > 0 {
      FirstIndicesSpec(xs, key, n - 1);
      var prev := FirstIndices(xs, key, n - 1);
      if FirstOfKey(xs, key, n - 1) {
        var idx := prev + [n - 1];
        assert forall j :: 0 <= j < |prev| ==> idx[j] == prev[j];
        assert idx[|prev|] == n - 1;
      }
    }
  }

  /** The elements of `xs` at the positions `idx`, in that order. */
  function AtIndices<T>(xs: seq<T>, idx: seq<nat>): (r: seq<T>)
    requires forall j :: 0 <= j < |idx| ==> idx[j] < |xs|
    ensures |r| == |idx| && forall j :: 0 <= j < |idx| ==> r[j] == xs[idx[j]]
  {
    seq(|idx|, j requires 0 <= j < |idx| => xs[idx[j]])
  }

  lemma AtIndicesSnoc<T>(xs: seq<T>, idx: seq<nat>, i: nat)
    requires forall j :: 0 <= j < |idx| ==> idx[j] < |xs|
    requires i < |xs|
    ensures AtIndices(xs, idx + [i]) == AtIndices(xs, idx) + [xs[i]]
  {
    var l := idx + [i];
    assert forall j :: 0 <= j < |idx| ==> l[j] == idx[j];
  }

  /** The keys of the first `n` elements: the `seen` set after `n` steps of the filter. */
  ghost function KeysBefore<T, K>(xs: seq<T>, key: T -> K, n: nat): set<K>
    requires n <= |xs|
  {
    set j | 0 <= j < n :: key(xs[j])
  }

  /** One more step adds the element's key, which was new exactly when the element is the first
      of its key. */
  lemma KeysBeforeStep<T, K>(xs: seq<T>, key: T -> K, m: nat)
    requires m < |xs|
    ensures KeysBefore(xs, key, m + 1) == KeysBefore(xs, key, m) + {key(xs[m])}
    ensures key(xs[m]) in KeysBefore(xs, key, m) <==> !FirstOfKey(xs, key, m)
  {
    if key(xs[m]) in KeysBefore(xs, key, m) {
      var j :| 0 <= j < m && key(xs[j]) == key(xs[m]);
    }
  }

  /** Two first-of-key positions with the same key are the same position. */
  lemma FirstOfKeyUnique<T, K>(xs: seq<T>, key: T -> K, i: nat, k: nat)
    requires i < |xs| && k < |xs| && FirstOfKey(xs, key, i) && FirstOfKey(xs, key, k)
    requires key(xs[i]) == key(xs[k])
    ensures i == k
  {
  }

  /** After `n` steps, the filter has kept the first-of-key elements among the first `n`, and
      goes on from the remaining elements with the keys seen so far. */
  lemma {:induction false} DedupSplit<T, K>(xs: seq<T>, key: T -> K, n: nat)
    requires n <= |xs|
    ensures DedupBy(xs, key) ==
      AtIndices(xs, FirstIndices(xs, key, n)) + DedupFrom(xs[n..], key, KeysBefore(xs, key, n))
    decreases n
  {
    if n == 0 {
      assert xs[0..] == xs;
      assert KeysBefore(xs, key, 0) == {};
    } else {
      var m := n - 1;
      DedupSplit(xs, key, m);
      KeysBeforeStep(xs, key, m);
      var seen := KeysBefore(xs, key, m);
      var before := AtIndices(xs, FirstIndices(xs, key, m));
      var rest := DedupFrom(xs[n..], key, KeysBefore(xs, key, n));
      assert xs[m..][0] == xs[m] && xs[m..][1..] == xs[n..];
      if FirstOfKey(xs, key, m) {
        AtIndicesSnoc(xs, FirstIndices(xs, key, m), m);
        assert DedupFrom(xs[m..], key, seen) == [xs[m]] + rest;
        assert before + ([xs[m]] + rest) == (before + [xs[m]]) + rest;
      } else {
        assert seen + {key(xs[m])} == seen;
        assert DedupFrom(xs[m..], key, seen) == rest;
      }
    }
  }

  /** First-wins deduplication keeps exactly the elements at the first-of-key positions, in
      input order. */
  lemma DedupByIsFirsts<T, K>(xs: seq<T>, key: T -> K)
    ensures DedupBy(xs, key) == AtIndices(xs, FirstIndices(xs, key, |xs|))
  {
    DedupSplit(xs, key, |xs|);
    assert xs[|xs|..] == [];
  }

  /** `a` and `b` are each the first element of its key in `xs`, `a` at an earlier position. */
  ghost predicate EarlierFirsts<T, K>(xs: seq<T>, key: T -> K, a: T, b: T)
  {
    exists i1, i2 ::
      && 0 <= i1 < i2 < |xs| && xs[i1] == a && xs[i2] == b
      && FirstOfKey(xs, key, i1) && FirstOfKey(xs, key, i2)
  }

  /** Deduplicating and keeping the first `n`: the survivors come in input order, each the first
      element of its key. */
  lemma TakeFirstsOrder<T, K>(xs: seq<T>, key: T -> K, n: nat)
    ensures var r := Take(DedupBy(xs, key), n);
      forall j1, j2 :: 0 <= j1 < j2 < |r| ==> EarlierFirsts(xs, key, r[j1], r[j2])
  {
    var r := Take(DedupBy(xs, key), n);
    forall j1, j2 | 0 <= j1 < j2 < |r|
      ensures EarlierFirsts(xs, key, r[j1], r[j2])
    {
      OrderWitness(xs, key, n, j1, j2);
    }
  }

  lemma OrderWitness<T, K>(xs: seq<T>, key: T -> K, n: nat, j1: nat, j2: nat)
    requires j1 < j2 < |Take(DedupBy(xs, key), n)|
    ensures var r := Take(DedupBy(xs, key), n);
      EarlierFirsts(xs, key, r[j1], r[j2])
  {
    var idx := FirstIndices(xs, key, |xs|);
    var r := Take(DedupBy(xs, key), n);
    DedupByIsFirsts(xs, key);
    FirstIndicesSpec(xs, key, |xs|);
    var i1, i2 := idx[j1], idx[j2];
    assert xs[i1] == r[j1] && xs[i2] == r[j2];
    assert FirstOfKey(xs, key, i1) && FirstOfKey(xs, key, i2);
  }

  /** Deduplicating and keeping the first `n`: no first-of-key element is passed over in favour of
      a later one. */
  lemma TakeFirstsNoSkip<T, K>(xs: seq<T>, key: T -> K, n: nat)
    ensures var r := Take(DedupBy(xs, key), n);
      forall i, k :: 0 <= i < k < |xs| && FirstOfKey(xs, key, i) && FirstOfKey(xs, key, k) && xs[k] in r ==>
        xs[i] in r
  {
    var r := Take(DedupBy(xs, key), n);
    forall i, k | 0 <= i < k < |xs| && FirstOfKey(xs, key, i) && FirstOfKey(xs, key, k) && xs[k] in r
      ensures xs[i] in r
    {
      NoSkipWitness(xs, key, n, i, k);
    }
  }

  lemma NoSkipWitness<T, K>(xs: seq<T>, key: T -> K, n: nat, i: nat, k: nat)
    requires i < k < |xs| && FirstOfKey(xs, key, i) && FirstOfKey(xs, key, k)
    requires xs[k] in Take(DedupBy(xs, key), n)
    ensures xs[i] in Take(DedupBy(xs, key), n)
  {
    var idx := FirstIndices(xs, key, |xs|);
    var r := Take(DedupBy(xs, key), n);
    DedupByIsFirsts(xs, key);
    FirstIndicesSpec(xs, key, |xs|);
    var j :| 0 <= j < |r| && r[j] == xs[k];
    FirstOfKeyUnique(xs, key, k, idx[j]);
    var j1 :| 0 <= j1 < |idx| && idx[j1] == i;
    IncreasingIndex(idx, j1, j);
    assert r[j1] == xs[i];
  }

  /** In a strictly increasing sequence a smaller entry sits at a smaller position. */
  lemma IncreasingIndex(idx: seq<nat>, j1: nat, j2: nat)
    requires forall a, b :: 0 <= a < b < |idx| ==> idx[a] < idx[b]
    requires j1 < |idx| && j2 < |idx| && idx[j1] < idx[j2]
    ensures j1 < j2
  {
  }

  /** Deduplicating keeps the input order: each survivor is the first element of its key, and
      survivors appear in the order of their positions in `xs`. */
  lemma DedupByOrder<T, K>(xs: seq<T>, key: T -> K)
    ensures var r := DedupBy(xs, key);
      forall j1, j2 :: 0 <= j1 < j2 < |r| ==> EarlierFirsts(xs, key, r[j1], r[j2])
  {
    var r := DedupBy(xs, key);
    TakeFirstsOrder(xs, key, |r|);
    assert Take(r, |r|) == r;
  }

  /** The imperative dedup of both routes: a `seen` set filled while filtering, first occurrence wins. */
  method DedupFirst<T, K(==)>(xs: seq<T>, key: T -> K) returns (kept: seq<T>)
    ensures kept == DedupBy(xs, key)
  {
    var seen: set<K> := {};
    kept := [];
    var i := 0;
    while i < |xs|
      invariant 0 <= i <= |xs|
      invariant kept + DedupFrom(xs[i..], key, seen) == DedupBy(xs, key)
    {
      var k := key(xs[i]);
      assert xs[i..][1..] == xs[i + 1..];
      if k !in seen {
        seen := seen + {k};
        kept := kept + [xs[i]];
      }
      i := i + 1;
    }
    assert xs[i..] == [];
  }

  // ---------------------------------------------------------------- stable sort by a numeric key

  /** `a` may stand before `b` in ascending (`asc`) or descending order. */
  predicate InOrder(a: real, b: real, asc: bool)
  {
    if asc then a <= b else b <= a
  }

  ghost predicate Ordered<T>(s: seq<T>, key: T -> real, asc: bool)
  {
    forall i, j :: 0 <= i < j < |s| ==> InOrder(key(s[i]), key(s[j]), asc)
  }

  /** Insert `x` in front of the first element it may stand before. */
  function InsertBy<T>(x: T, s: seq<T>, key: T -> real, asc: bool): seq<T>
  {
    if s == [] || InOrder(key(x), key(s[0]), asc) then [x] + s
    else [s[0]] + InsertBy(x, s[1..], key, asc)
  }

  /** A stable sort of `xs` by `key` (the comparator `key(a) - key(b)`, or its negation). */
  function SortByKey<T>(xs: seq<T>, key: T -> real, asc: bool): seq<T>
  {
    if xs == [] then [] else InsertBy(xs[0], SortByKey(xs[1..], key, asc), key, asc)
  }

  lemma {:induction false} InsertByPerm<T>(x: T, s: seq<T>, key: T -> real, asc: bool)
    ensures multiset(InsertBy(x, s, key, asc)) == multiset(s) + multiset{x}
    ensures |InsertBy(x, s, key, asc)| == |s| + 1
  {
    if s != [] && !InOrder(key(x), key(s[0]), asc) {
      InsertByPerm(x, s[1..], key, asc);
      assert s == [s[0]] + s[1..];
    }
  }

  lemma {:induction false} InsertByMembers<T>(x: T, s: seq<T>, key: T -> real, asc: bool)
    ensures forall y :: y in InsertBy(x, s, key, asc) ==> y == x || y in s
  {
    if s != [] && !InOrder(key(x), key(s[0]), asc) {
      InsertByMembers(x, s[1..], key, asc);
    }
  }

  lemma OrderedHead<T>(s: seq<T>, key: T -> real, asc: bool)
    requires s != [] && Ordered(s, key, asc)
    ensures forall y :: y in s[1..] ==> InOrder(key(s[0]), key(y), asc)
  {
    forall y | y in s[1..]
      ensures InOrder(key(s[0]), key(y), asc)
    {
      var k :| 0 <= k < |s[1..]| && s[1..][k] == y;
      assert s[k + 1] == y;
    }
  }

  lemma {:induction false} InsertByOrdered<T>(x: T, s: seq<T>, key: T -> real, asc: bool)
    requires Ordered(s, key, asc)
    ensures Ordered(InsertBy(x, s, key, asc), key, asc)
  {
    if s != [] && !InOrder(key(x), key(s[0]), asc) {
      var rest := InsertBy(x, s[1..], key, asc);
      InsertByOrdered(x, s[1..], key, asc);
      InsertByMembers(x, s[1..], key, asc);
      OrderedHead(s, key, asc);
      var r := [s[0]] + rest;
      forall j | 0 < j < |r|
        ensures InOrder(key(r[0]), key(r[j]), asc)
      {
        assert r[j] == rest[j - 1] && r[j] in rest;
      }
      forall i, j | 0 < i < j < |r|
        ensures InOrder(key(r[i]), key(r[j]), asc)
      {
        assert r[i] == rest[i - 1] && r[j] == rest[j - 1];
      }
    }
  }

  /** The sorted list is a permutation of the input, ordered by the key. */
  lemma {:induction false} SortByKeySpec<T>(xs: seq<T>, key: T -> real, asc: bool)
    ensures Ordered(SortByKey(xs, key, asc), key, asc)
    ensures multiset(SortByKey(xs, key, asc)) == multiset(xs)
    ensures |SortByKey(xs, key, asc)| == |xs|
  {
    if xs != [] {
      SortByKeySpec(xs[1..], key, asc);
      InsertByOrdered(xs[0], SortByKey(xs[1..], key, asc), key, asc);
      InsertByPerm(xs[0], SortByKey(xs[1..], key, asc), key, asc);
      assert xs == [xs[0]] + xs[1..];
    }
  }
}

/**
 * Sequence helpers: Python lists, ordered dicts (as association lists),
 * flattening of per-bank batches and the order-preserving list filter
 * `[c for c in xs if c in ys]`.
 */
module Seqs {
  import opened Wrappers

  predicate Distinct<T(==)>(s: seq<T>) {
    forall i, j :: 0 <= i < j < |s| ==> s[i] != s[j]
  }

  /** The keys of a Python dict, in insertion order. */
  function Keys<K, V>(d: seq<(K, V)>): (ks: seq<K>)
    ensures |ks| == |d| && forall i :: 0 <= i < |d| ==> ks[i] == d[i].0
  {
    seq(|d|, i requires 0 <= i < |d| => d[i].0)
  }

  lemma KeysInit<K, V>(d: seq<(K, V)>)
    requires d != []
    ensures Keys(d[..|d| - 1]) == Keys(d)[..|d| - 1]
  {
  }

  lemma KeysAppend<K, V>(a: seq<(K, V)>, b: seq<(K, V)>)
    ensures Keys(a + b) == Keys(a) + Keys(b)
  {
  }

  /** `d.get(k)`: the value stored under `k`, or None when `k` is not a key. */
  function Get<K(==), V>(d: seq<(K, V)>, k: K): (r: Option<V>)
    ensures r.None? <==> k !in Keys(d)
    ensures r.Some? ==> exists i :: 0 <= i < |d| && d[i] == (k, r.value)
  {
    if d == [] then None
    else if d[0].0 == k then Some(d[0].1)
    else Get(d[1..], k)
  }

  /** With distinct keys, the value stored under the `i`-th key is the `i`-th value. */
  lemma {:induction false} GetAt<K, V>(d: seq<(K, V)>, i: nat)
    requires Distinct(Keys(d)) && i < |d|
    ensures Get(d, d[i].0) == Some(d[i].1)
  {
    if i > 0 {
      assert Keys(d)[0] != Keys(d)[i];
      assert Keys(d[1..]) == Keys(d)[1..];
      GetAt(d[1..], i - 1);
    }
  }

  /** With distinct keys, a listed pair is what `Get` finds under its key. */
  lemma GetListed<K, V>(d: seq<(K, V)>, p: (K, V))
    requires Distinct(Keys(d)) && p in d
    ensures Get(d, p.0) == Some(p.1)
  {
    var i :| 0 <= i < |d| && d[i] == p;
    GetAt(d, i);
  }

  /** Two distinct lists with no element in common append to a distinct list. */
  lemma DistinctAppend<T>(a: seq<T>, b: seq<T>)
    requires Distinct(a) && Distinct(b)
    requires forall i, j :: 0 <= i < |a| && 0 <= j < |b| ==> a[i] != b[j]
    ensures Distinct(a + b)
  {
    forall i, j | 0 <= i < j < |a + b| ensures (a + b)[i] != (a + b)[j] {
      if j < |a| {
        assert (a + b)[i] == a[i] && (a + b)[j] == a[j];
      } else if i >= |a| {
        assert (a + b)[i] == b[i - |a|] && (a + b)[j] == b[j - |a|];
      } else {
        assert (a + b)[i] == a[i] && (a + b)[j] == b[j - |a|];
      }
    }
  }

  lemma AppendAssoc<T>(a: seq<T>, b: seq<T>, c: seq<T>)
    ensures (a + b) + c == a + (b + c)
  {
  }

  lemma AppendEmpty<T>(a: seq<T>, e: seq<T>)
    requires e == []
    ensures e + a == a && a + e == a
  {
  }

  /** The concatenation of a list of lists, in list order. */
  function Flatten<T>(parts: seq<seq<T>>): seq<T>
  {
    if parts == [] then [] else Flatten(parts[..|parts| - 1]) + parts[|parts| - 1]
  }

  lemma {:induction false} FlattenUniformLength<T>(parts: seq<seq<T>>, h: nat)
    requires forall b :: 0 <= b < |parts| ==> |parts[b]| == h
    ensures |Flatten(parts)| == h * |parts|
  {
    if parts != [] {
      var n := |parts|;
      FlattenUniformLength(parts[..n - 1], h);
      assert h * n == h * (n - 1) + h;
    }
  }

  /** With parts of one height `h`, element `j` of part `b` sits at `b * h + j`. */
  lemma {:induction false} FlattenUniformAt<T>(parts: seq<seq<T>>, h: nat, b: nat, j: nat)
    requires forall p :: 0 <= p < |parts| ==> |parts[p]| == h
    requires b < |parts| && j < h
    ensures |Flatten(parts)| == h * |parts|
    ensures b * h + j < |Flatten(parts)| && Flatten(parts)[b * h + j] == parts[b][j]
  {
    FlattenUniformLength(parts, h);
    var n := |parts|;
    var init := parts[..n - 1];
    FlattenUniformLength(init, h);
    assert h * n == h * (n - 1) + h;
    if b < n - 1 {
      FlattenUniformAt(init, h, b, j);
    } else {
      assert b * h == h * (n - 1);
    }
    BlockBound(b, n, h, j);
  }

  /** Row `j` of block `b` lies within `n` blocks of height `h`. */
  lemma {:induction false} BlockBound(b: nat, n: nat, h: nat, j: nat)
    requires b < n && j < h
    ensures b * h + j < n * h
    decreases n - b
  {
    if b + 1 < n {
      BlockBound(b + 1, n, h, j);
    }
  }

  /** Elements of every part are elements of the flattened list. */
  lemma {:induction false} FlattenMember<T>(parts: seq<seq<T>>, x: T)
    ensures x in Flatten(parts) <==> exists b :: 0 <= b < |parts| && x in parts[b]
  {
    if parts != [] {
      var init := parts[..|parts| - 1];
      FlattenMember(init, x);
      if x in Flatten(parts) && x !in parts[|parts| - 1] {
        var b :| 0 <= b < |init| && x in init[b];
        assert parts[b] == init[b];
      }
      if x !in Flatten(parts) {
        forall b | 0 <= b < |parts| ensures x !in parts[b] {
          if b < |init| {
            assert parts[b] == init[b];
          }
        }
      }
    }
  }

  /** `[x for x in xs if x in ys]`. */
  function Keep<T(==,!new)>(xs: seq<T>, ys: seq<T>): (r: seq<T>)
    ensures forall x :: x in r <==> x in xs && x in ys
    ensures |r| <= |xs|
  {
    if xs == [] then []
    else if xs[0] in ys then [xs[0]] + Keep(xs[1..], ys)
    else Keep(xs[1..], ys)
  }

  /** The elements of `xs` that are not in `ys`, in `xs` order. */
  function Unseen<T(==,!new)>(xs: seq<T>, ys: seq<T>): (r: seq<T>)
    ensures forall x :: x in r <==> x in xs && x !in ys
  {
    if xs == [] then []
    else if xs[0] !in ys then [xs[0]] + Unseen(xs[1..], ys)
    else Unseen(xs[1..], ys)
  }

  lemma {:induction false} UnseenCovered<T(!new)>(xs: seq<T>, ys: seq<T>)
    requires forall x :: x in xs ==> x in ys
    ensures Unseen(xs, ys) == []
  {
    if xs != [] {
      assert xs[0] in xs;
      UnseenCovered(xs[1..], ys);
    }
  }

  /** Dropping the last element keeps a list distinct, and the last element is not in the rest. */
  lemma DistinctInit<T>(xs: seq<T>)
    requires Distinct(xs) && xs != []
    ensures Distinct(xs[..|xs| - 1]) && xs[|xs| - 1] !in xs[..|xs| - 1]
  {
    var init := xs[..|xs| - 1];
    forall i | 0 <= i < |init| ensures init[i] == xs[i] != xs[|xs| - 1] {}
  }

  function IndexOf<T(==)>(xs: seq<T>, x: T): (i: nat)
    requires x in xs
    ensures i < |xs| && xs[i] == x && x !in xs[..i]
  {
    if xs[0] == x then 0 else 1 + IndexOf(xs[1..], x)
  }

  lemma {:induction false} KeepDistinct<T(!new)>(xs: seq<T>, ys: seq<T>)
    requires Distinct(xs)
    ensures Distinct(Keep(xs, ys))
  {
    if xs != [] {
      DistinctTail(xs);
      KeepDistinct(xs[1..], ys);
    }
  }

  /** The filter keeps the order of `xs`: earlier results come earlier in `xs`. */
  lemma {:induction false} KeepPreservesOrder<T(!new)>(xs: seq<T>, ys: seq<T>, i: nat, j: nat)
    requires Distinct(xs)
    requires i < j < |Keep(xs, ys)|
    ensures IndexOf(xs, Keep(xs, ys)[i]) < IndexOf(xs, Keep(xs, ys)[j])
  {
    var r := Keep(xs, ys);
    var tl := xs[1..];
    DistinctTail(xs);
    if xs[0] in ys {
      assert r == [xs[0]] + Keep(tl, ys);
      if i > 0 {
        KeepPreservesOrder(tl, ys, i - 1, j - 1);
      }
      KeptHeadFirst(xs, ys, i, j);
    } else {
      assert r == Keep(tl, ys);
      KeepPreservesOrder(tl, ys, i, j);
      IndexOfTail(xs, r[i]);
      IndexOfTail(xs, r[j]);
    }
  }

  /** The step of `KeepPreservesOrder` where the head of `xs` is kept. */
  lemma {:induction false} KeptHeadFirst<T(!new)>(xs: seq<T>, ys: seq<T>, i: nat, j: nat)
    requires Distinct(xs) && xs != [] && xs[0] in ys
    requires Distinct(xs[1..]) && xs[0] !in xs[1..]
    requires i < j < |Keep(xs, ys)|
    requires |Keep(xs, ys)| == 1 + |Keep(xs[1..], ys)|
    requires i > 0 ==> IndexOf(xs[1..], Keep(xs[1..], ys)[i - 1]) < IndexOf(xs[1..], Keep(xs[1..], ys)[j - 1])
    ensures IndexOf(xs, Keep(xs, ys)[i]) < IndexOf(xs, Keep(xs, ys)[j])
  {
    var r := Keep(xs, ys);
    var tl := xs[1..];
    var rt := Keep(tl, ys);
    assert r == [xs[0]] + rt;
    assert r[j] == rt[j - 1] && r[j] in tl;
    IndexOfTail(xs, r[j]);
    if i > 0 {
      assert r[i] == rt[i - 1] && r[i] in tl;
      IndexOfTail(xs, r[i]);
    }
  }

  /** The tail of a distinct list is distinct and does not hold its head. */
  lemma DistinctTail<T>(xs: seq<T>)
    requires Distinct(xs) && xs != []
    ensures Distinct(xs[1..]) && xs[0] !in xs[1..]
  {
    var tl := xs[1..];
    forall a | 0 <= a < |tl| ensures tl[a] == xs[a + 1] {}
  }

  /** In a distinct list, the element at `k` is first found at `k`. */
  lemma IndexOfAt<T>(xs: seq<T>, k: nat)
    requires Distinct(xs) && k < |xs|
    ensures IndexOf(xs, xs[k]) == k
  {
  }

  /** An element of a prefix is found at the same place in the whole list. */
  lemma IndexOfPrefix<T>(xs: seq<T>, m: nat, x: T)
    requires m <= |xs| && x in xs[..m]
    ensures x in xs && IndexOf(xs, x) == IndexOf(xs[..m], x)
  {
    var i := IndexOf(xs[..m], x);
    assert xs[..m][i] == xs[i];
    assert xs[..m][..i] == xs[..i];
    IndexOfFirst(xs, x, i);
  }

  /** The first place of `x` is the place before which it does not occur. */
  lemma {:induction false} IndexOfFirst<T>(xs: seq<T>, x: T, i: nat)
    requires i < |xs| && xs[i] == x && x !in xs[..i]
    ensures x in xs && IndexOf(xs, x) == i
  {
    assert xs[i] in xs;
    if i > 0 {
      assert xs[..i][0] == xs[0];
      assert xs[1..][..i - 1] == xs[..i][1..];
      IndexOfFirst(xs[1..], x, i - 1);
    }
  }

  lemma IndexOfTail<T>(xs: seq<T>, x: T)
    requires xs != [] && x in xs[1..] && xs[0] != x
    ensures IndexOf(xs, x) == 1 + IndexOf(xs[1..], x)
  {
  }

  /** Filtering by a list that holds every element keeps everything, in order. */
  lemma {:induction false} KeepAll<T(!new)>(xs: seq<T>, ys: seq<T>)
    requires forall x :: x in xs ==> x in ys
    ensures Keep(xs, ys) == xs
  {
    if xs != [] {
      assert xs[0] in xs;
      KeepAll(xs[1..], ys);
      assert xs == [xs[0]] + xs[1..];
    }
  }

  /** Filtering by two lists that agree on the elements of `xs` gives the same result. */
  lemma {:induction false} KeepCongruent<T(!new)>(xs: seq<T>, ys: seq<T>, zs: seq<T>)
    requires forall x :: x in xs ==> (x in ys <==> x in zs)
    ensures Keep(xs, ys) == Keep(xs, zs)
  {
    if xs != [] {
      assert xs[0] in xs;
      KeepCongruent(xs[1..], ys, zs);
    }
  }

  lemma {:induction false} UnseenAppendDistinct<T(!new)>(xs: seq<T>, ys: seq<T>)
    requires Distinct(xs) && Distinct(ys)
    ensures Distinct(xs + Unseen(ys, xs))
  {
    UnseenDistinct(ys, xs);
    var u := Unseen(ys, xs);
    forall i, j | 0 <= i < j < |xs + u| ensures (xs + u)[i] != (xs + u)[j] {
      if j >= |xs| && i < |xs| {
        assert (xs + u)[j] == u[j - |xs|];
        assert u[j - |xs|] in u;
      }
    }
  }

  lemma {:induction false} UnseenDistinct<T(!new)>(xs: seq<T>, ys: seq<T>)
    requires Distinct(xs)
    ensures Distinct(Unseen(xs, ys))
  {
    if xs != [] {
      DistinctTail(xs);
      UnseenDistinct(xs[1..], ys);
    }
  }
}

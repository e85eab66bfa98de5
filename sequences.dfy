/** Sequence operations the services use through JavaScript's array methods
    (`slice(0, n)`, `filter`) and through insertion-ordered `Map`/`Set`
    collections keyed by a derived key, with the facts the models rely on. */
module Sequences {

  /** `s.slice(0, n)` */
  function Take<T>(s: seq<T>, n: nat): (r: seq<T>)
    ensures |r| == if n <= |s| then n else |s|
    ensures r == s[..|r|]
  {
    if n <= |s| then s[..n] else s
  }

  /** `s.filter(p)` */
  function Filter<T>(s: seq<T>, p: T -> bool): (r: seq<T>)
    ensures |r| <= |s|
    ensures forall i | 0 <= i < |r| :: p(r[i])
    decreases |s|
  {
    if s == [] then []
    else (if p(s[0]) then [s[0]] else []) + Filter(s[1..], p)
  }

  lemma {:induction false} FilterAppend<T>(a: seq<T>, b: seq<T>, p: T -> bool)
    ensures Filter(a + b, p) == Filter(a, p) + Filter(b, p)
    decreases |a|
  {
    if a != [] {
      assert (a + b)[1..] == a[1..] + b;
      FilterAppend(a[1..], b, p);
    } else {
      assert a + b == b;
    }
  }

  /** Filtering keeps exactly the elements that satisfy the predicate. */
  lemma {:induction false} FilterMembers<T>(s: seq<T>, p: T -> bool)
    ensures forall x :: x in Filter(s, p) <==> x in s && p(x)
    decreases |s|
  {
    if s != [] {
      FilterMembers(s[1..], p);
      assert s == [s[0]] + s[1..];
    }
  }

  lemma {:induction false} FilterAllOrNone<T>(s: seq<T>, p: T -> bool)
    ensures (forall i | 0 <= i < |s| :: p(s[i])) ==> Filter(s, p) == s
    ensures (forall i | 0 <= i < |s| :: !p(s[i])) ==> Filter(s, p) == []
    decreases |s|
  {
    if s != [] {
      FilterAllOrNone(s[1..], p);
      assert s == [s[0]] + s[1..];
    }
  }

  /** When the elements satisfying `p` are exactly the first `k`, filtering
      by `p` keeps that prefix. */
  lemma {:induction false} FilterPrefix<T>(s: seq<T>, k: nat, p: T -> bool)
    requires k <= |s|
    requires forall i | 0 <= i < k :: p(s[i])
    requires forall i | k <= i < |s| :: !p(s[i])
    ensures Filter(s, p) == s[..k]
    decreases |s|
  {
    if s != [] {
      assert s == [s[0]] + s[1..];
      if k == 0 {
        FilterAllOrNone(s, p);
      } else {
        FilterPrefix(s[1..], k - 1, p);
        assert s[..k] == [s[0]] + s[1..][..k - 1];
      }
    }
  }

  /** When none of the first `k` elements satisfies `p`, filtering by `p`
      looks only at the rest. */
  lemma {:induction false} FilterSkip<T>(s: seq<T>, k: nat, p: T -> bool)
    requires k <= |s|
    requires forall i | 0 <= i < k :: !p(s[i])
    ensures Filter(s, p) == Filter(s[k..], p)
    decreases k
  {
    if k > 0 {
      assert s == [s[0]] + s[1..];
      FilterSkip(s[1..], k - 1, p);
      assert s[1..][k - 1..] == s[k..];
    }
  }

  /** When the elements satisfying `p` are exactly those from `k` to `m`,
      filtering by `p` keeps that slice. */
  lemma {:induction false} FilterSlice<T>(s: seq<T>, k: nat, m: nat, p: T -> bool)
    requires k <= m <= |s|
    requires forall i | 0 <= i < k :: !p(s[i])
    requires forall i | k <= i < m :: p(s[i])
    requires forall i | m <= i < |s| :: !p(s[i])
    ensures Filter(s, p) == s[k..m]
    decreases k
  {
    if k == 0 {
      FilterPrefix(s, m, p);
    } else {
      assert s == [s[0]] + s[1..];
      FilterSlice(s[1..], k - 1, m - 1, p);
      assert s[1..][k - 1..m - 1] == s[k..m];
    }
  }

  // ---------------------------------------------------------------------------
  // Subsequences: `a` is obtained from `b` by deleting elements.

  predicate IsSubseq<T(==)>(a: seq<T>, b: seq<T>)
    decreases |b|
  {
    a == [] || (b != [] && ((a[0] == b[0] && IsSubseq(a[1..], b[1..])) || IsSubseq(a, b[1..])))
  }

  lemma {:induction false} SubseqRefl<T>(s: seq<T>)
    ensures IsSubseq(s, s)
    decreases |s|
  {
    if s != [] {
      SubseqRefl(s[1..]);
    }
  }

  lemma {:induction false} SubseqMembers<T>(a: seq<T>, b: seq<T>)
    requires IsSubseq(a, b)
    ensures |a| <= |b|
    ensures forall x | x in a :: x in b
    decreases |b|
  {
    if a != [] {
      if a[0] == b[0] && IsSubseq(a[1..], b[1..]) {
        SubseqMembers(a[1..], b[1..]);
        assert a == [a[0]] + a[1..];
        assert b == [b[0]] + b[1..];
      } else {
        SubseqMembers(a, b[1..]);
        assert b == [b[0]] + b[1..];
      }
    }
  }

  lemma {:induction false} SubseqTrans<T>(a: seq<T>, b: seq<T>, c: seq<T>)
    requires IsSubseq(a, b) && IsSubseq(b, c)
    ensures IsSubseq(a, c)
    decreases |c|
  {
    if a != [] {
      assert b != [] && c != [];
      if b[0] == c[0] && IsSubseq(b[1..], c[1..]) {
        if a[0] == b[0] && IsSubseq(a[1..], b[1..]) {
          SubseqTrans(a[1..], b[1..], c[1..]);
        } else {
          SubseqTrans(a, b[1..], c[1..]);
        }
      } else {
        SubseqTrans(a, b, c[1..]);
      }
    }
  }

  lemma {:induction false} SubseqDropFront<T>(a: seq<T>, b: seq<T>, c: seq<T>)
    requires IsSubseq(a, b)
    ensures IsSubseq(a, c + b)
    decreases |c|
  {
    if c != [] {
      SubseqDropFront(a, b, c[1..]);
      assert (c + b)[1..] == c[1..] + b;
      if a != [] {
        assert IsSubseq(a, (c + b)[1..]);
      }
    } else {
      assert c + b == b;
    }
  }

  lemma {:induction false} SubseqConcat<T>(a1: seq<T>, b1: seq<T>, a2: seq<T>, b2: seq<T>)
    requires IsSubseq(a1, b1) && IsSubseq(a2, b2)
    ensures IsSubseq(a1 + a2, b1 + b2)
    decreases |b1|
  {
    if a1 == [] {
      assert a1 + a2 == a2;
      SubseqDropFront(a2, b2, b1);
    } else {
      assert (b1 + b2)[1..] == b1[1..] + b2;
      assert (b1 + b2)[0] == b1[0];
      if a1[0] == b1[0] && IsSubseq(a1[1..], b1[1..]) {
        SubseqConcat(a1[1..], b1[1..], a2, b2);
        assert (a1 + a2)[1..] == a1[1..] + a2;
      } else {
        SubseqConcat(a1, b1[1..], a2, b2);
      }
    }
  }

  lemma {:induction false} PrefixIsSubseq<T>(s: seq<T>, n: nat)
    requires n <= |s|
    ensures IsSubseq(s[..n], s)
    decreases |s|
  {
    if n > 0 {
      PrefixIsSubseq(s[1..], n - 1);
      assert s[..n][1..] == s[1..][..n - 1];
    }
  }

  lemma TakeIsSubseq<T>(s: seq<T>, n: nat)
    ensures IsSubseq(Take(s, n), s)
  {
    PrefixIsSubseq(s, |Take(s, n)|);
  }

  lemma {:induction false} FilterIsSubseq<T>(s: seq<T>, p: T -> bool)
    ensures IsSubseq(Filter(s, p), s)
    decreases |s|
  {
    if s != [] {
      FilterIsSubseq(s[1..], p);
      if p(s[0]) {
        assert Filter(s, p)[0] == s[0];
        assert Filter(s, p)[1..] == Filter(s[1..], p);
      } else {
        assert Filter(s, p) == Filter(s[1..], p);
      }
    }
  }

  /** `le` holds between every earlier and later element. */
  ghost predicate Chain<T>(s: seq<T>, le: (T, T) -> bool) {
    forall i, j | 0 <= i < j < |s| :: le(s[i], s[j])
  }

  /** Deleting elements keeps an ordered sequence ordered. */
  lemma {:induction false} SubseqChain<T>(a: seq<T>, b: seq<T>, le: (T, T) -> bool)
    requires IsSubseq(a, b) && Chain(b, le)
    ensures Chain(a, le)
    decreases |b|
  {
    if a != [] {
      assert Chain(b[1..], le) by {
        forall i, j | 0 <= i < j < |b[1..]| ensures le(b[1..][i], b[1..][j]) {
          assert b[1..][i] == b[i + 1] && b[1..][j] == b[j + 1];
        }
      }
      if a[0] == b[0] && IsSubseq(a[1..], b[1..]) {
        SubseqChain(a[1..], b[1..], le);
        SubseqMembers(a[1..], b[1..]);
        forall i, j | 0 <= i < j < |a| ensures le(a[i], a[j]) {
          assert a[j] == a[1..][j - 1];
          assert a[j] in b[1..];
          var k :| 0 <= k < |b[1..]| && b[1..][k] == a[j];
          if i == 0 {
            assert b[k + 1] == a[j];
          } else {
            assert a[i] == a[1..][i - 1];
          }
        }
      } else {
        SubseqChain(a, b[1..], le);
      }
    }
  }

  // ---------------------------------------------------------------------------
  // Concatenating what each element yields, in order

  /** `f(s[0]) + f(s[1]) + ...`: what a loop appends element by element. */
  function FlatMap<A, B>(s: seq<A>, f: A -> seq<B>): seq<B>
    decreases |s|
  {
    if s == [] then [] else FlatMap(s[..|s| - 1], f) + f(s[|s| - 1])
  }

  /** A flat map is empty exactly when every element maps to nothing. */
  lemma {:induction false} FlatMapEmpty<A, B>(s: seq<A>, f: A -> seq<B>)
    ensures FlatMap(s, f) == [] <==> forall i | 0 <= i < |s| :: f(s[i]) == []
    decreases |s|
  {
    if s != [] {
      var init := s[..|s| - 1];
      FlatMapEmpty(init, f);
      assert forall i | 0 <= i < |init| :: init[i] == s[i];
    }
  }

  lemma FlatMapSnoc<A, B>(s: seq<A>, x: A, f: A -> seq<B>)
    ensures FlatMap(s + [x], f) == FlatMap(s, f) + f(x)
  {
    assert (s + [x])[..|s|] == s;
  }

  /** What a list yields is what its first part yields followed by what its
      second part yields. */
  lemma {:induction false} FlatMapAppend<A, B>(a: seq<A>, b: seq<A>, f: A -> seq<B>)
    ensures FlatMap(a + b, f) == FlatMap(a, f) + FlatMap(b, f)
    decreases |b|
  {
    if b == [] {
      assert a + b == a;
    } else {
      var b', x := b[..|b| - 1], b[|b| - 1];
      assert b == b' + [x];
      assert a + b == (a + b') + [x];
      FlatMapAppend(a, b', f);
      FlatMapSnoc(a + b', x, f);
      FlatMapSnoc(b', x, f);
    }
  }

  // ---------------------------------------------------------------------------
  // First-wins deduplication by a key: what an insertion-ordered Map or Set
  // holds after inserting a stream of elements, each only when its key is new.

  function KeysOf<T, K(==)>(s: seq<T>, key: T -> K): (ks: set<K>)
    ensures forall i | 0 <= i < |s| :: key(s[i]) in ks
  {
    set i | 0 <= i < |s| :: key(s[i])
  }

  lemma KeysOfAppend<T, K>(s: seq<T>, x: T, key: T -> K)
    ensures KeysOf(s + [x], key) == KeysOf(s, key) + {key(x)}
  {
    var l := KeysOf(s + [x], key);
    var r := KeysOf(s, key) + {key(x)};
    forall k | k in l ensures k in r {
      var i :| 0 <= i < |s + [x]| && key((s + [x])[i]) == k;
      if i < |s| {
        assert (s + [x])[i] == s[i];
      }
    }
    forall k | k in r ensures k in l {
      if k != key(x) {
        var i :| 0 <= i < |s| && key(s[i]) == k;
        assert (s + [x])[i] == s[i];
      } else {
        assert (s + [x])[|s|] == x;
      }
    }
  }

  /** The elements of `s` kept in encounter order, each only if no earlier kept
      element has the same key. */
  function DedupBy<T, K(==)>(s: seq<T>, key: T -> K): (r: seq<T>)
    decreases |s|
  {
    if s == [] then []
    else
      var prev := DedupBy(s[..|s| - 1], key);
      var last := s[|s| - 1];
      if key(last) in KeysOf(prev, key) then prev else prev + [last]
  }

  lemma DedupByAppend<T, K>(s: seq<T>, x: T, key: T -> K)
    ensures DedupBy(s + [x], key) ==
      if key(x) in KeysOf(DedupBy(s, key), key) then DedupBy(s, key) else DedupBy(s, key) + [x]
  {
    assert (s + [x])[..|s + [x]| - 1] == s;
  }

  /** The position of the first element of `s` whose key is `k`. */
  function FirstIndex<T, K(==)>(s: seq<T>, key: T -> K, k: K): (i: nat)
    requires k in KeysOf(s, key)
    ensures i < |s| && key(s[i]) == k
    ensures forall j | 0 <= j < i :: key(s[j]) != k
    decreases |s|
  {
    if key(s[0]) == k then 0
    else
      assert k in KeysOf(s[1..], key) by {
        var i :| 0 <= i < |s| && key(s[i]) == k;
        assert s[1..][i - 1] == s[i];
      }
      1 + FirstIndex(s[1..], key, k)
  }

  lemma {:induction false} FirstIndexAppend<T, K>(s: seq<T>, x: T, key: T -> K, k: K)
    requires k in KeysOf(s + [x], key)
    ensures k in KeysOf(s, key) ==> FirstIndex(s + [x], key, k) == FirstIndex(s, key, k)
    ensures k !in KeysOf(s, key) ==> FirstIndex(s + [x], key, k) == |s|
  {
    var i := FirstIndex(s + [x], key, k);
    if k in KeysOf(s, key) {
      var j := FirstIndex(s, key, k);
      assert (s + [x])[j] == s[j];
      assert i <= j;
      assert (s + [x])[i] == s[i];
    } else {
      assert forall j | 0 <= j < |s| :: (s + [x])[j] == s[j];
    }
  }

  /** No key occurs twice in the deduplicated sequence, and it has the same
      keys as the input. */
  lemma {:induction false} DedupByKeys<T, K>(s: seq<T>, key: T -> K)
    ensures forall i, j | 0 <= i < j < |DedupBy(s, key)| ::
      key(DedupBy(s, key)[i]) != key(DedupBy(s, key)[j])
    ensures KeysOf(DedupBy(s, key), key) == KeysOf(s, key)
    decreases |s|
  {
    if s != [] {
      var init, x := s[..|s| - 1], s[|s| - 1];
      assert s == init + [x];
      DedupByKeys(init, key);
      var prev := DedupBy(init, key);
      DedupByAppend(init, x, key);
      KeysOfAppend(init, x, key);
      if key(x) !in KeysOf(prev, key) {
        var r := prev + [x];
        KeysOfAppend(prev, x, key);
        forall i, j | 0 <= i < j < |r| ensures key(r[i]) != key(r[j]) {
          assert r[i] == prev[i];
          if j < |prev| {
            assert r[j] == prev[j];
          }
        }
      }
    }
  }

  /** Each kept element is the FIRST element of the input with its key: a later
      duplicate is dropped whatever else it holds. */
  lemma {:induction false} DedupByFirstWins<T, K>(s: seq<T>, key: T -> K)
    ensures forall i | 0 <= i < |DedupBy(s, key)| ::
      key(DedupBy(s, key)[i]) in KeysOf(s, key) &&
      DedupBy(s, key)[i] == s[FirstIndex(s, key, key(DedupBy(s, key)[i]))]
    decreases |s|
  {
    if s != [] {
      var init, x := s[..|s| - 1], s[|s| - 1];
      assert s == init + [x];
      DedupByFirstWins(init, key);
      DedupByKeys(init, key);
      var prev := DedupBy(init, key);
      var r := DedupBy(s, key);
      DedupByAppend(init, x, key);
      KeysOfAppend(init, x, key);
      forall i | 0 <= i < |r|
        ensures key(r[i]) in KeysOf(s, key) && r[i] == s[FirstIndex(s, key, key(r[i]))]
      {
        FirstIndexAppend(init, x, key, key(r[i]));
        if i < |prev| {
          assert r[i] == prev[i];
          assert s[FirstIndex(init, key, key(r[i]))] == init[FirstIndex(init, key, key(r[i]))];
        }
      }
    }
  }

  /** The kept keys come in the order of their first appearance in the input:
      an earlier kept element's key appears first earlier. */
  lemma {:induction false} DedupByFirstAppearanceOrder<T, K>(s: seq<T>, key: T -> K)
    ensures forall i | 0 <= i < |DedupBy(s, key)| :: key(DedupBy(s, key)[i]) in KeysOf(s, key)
    ensures forall i, j | 0 <= i < j < |DedupBy(s, key)| ::
      FirstIndex(s, key, key(DedupBy(s, key)[i])) < FirstIndex(s, key, key(DedupBy(s, key)[j]))
    decreases |s|
  {
    DedupByKeys(s, key);
    if s != [] {
      var init, x := s[..|s| - 1], s[|s| - 1];
      assert s == init + [x];
      DedupByFirstAppearanceOrder(init, key);
      DedupByKeys(init, key);
      var prev := DedupBy(init, key);
      var r := DedupBy(s, key);
      DedupByAppend(init, x, key);
      KeysOfAppend(init, x, key);
      forall i | 0 <= i < |r| ensures key(r[i]) in KeysOf(init, key) ==>
        FirstIndex(s, key, key(r[i])) == FirstIndex(init, key, key(r[i]))
      {
        FirstIndexAppend(init, x, key, key(r[i]));
      }
      forall i, j | 0 <= i < j < |r|
        ensures FirstIndex(s, key, key(r[i])) < FirstIndex(s, key, key(r[j]))
      {
        assert r[i] == prev[i];
        if j < |prev| {
          assert r[j] == prev[j];
        } else {
          assert r[j] == x && key(x) !in KeysOf(init, key);
          FirstIndexAppend(init, x, key, key(x));
        }
      }
    }
  }

  /** The kept elements keep their encounter order. */
  lemma {:induction false} DedupByIsSubseq<T, K>(s: seq<T>, key: T -> K)
    ensures IsSubseq(DedupBy(s, key), s)
    decreases |s|
  {
    if s != [] {
      var init, x := s[..|s| - 1], s[|s| - 1];
      assert s == init + [x];
      DedupByIsSubseq(init, key);
      DedupByAppend(init, x, key);
      if key(x) in KeysOf(DedupBy(init, key), key) {
        SubseqDropLast(DedupBy(init, key), init, x);
      } else {
        SubseqRefl([x]);
        SubseqConcat(DedupBy(init, key), init, [x], [x]);
      }
    }
  }

  lemma SubseqDropLast<T>(a: seq<T>, b: seq<T>, x: T)
    requires IsSubseq(a, b)
    ensures IsSubseq(a, b + [x])
  {
    assert IsSubseq([], [x]);
    SubseqConcat(a, b, [], [x]);
    assert a + [] == a;
  }
}

/** ORDER BY ... LIMIT: the first so many of a set of rows, in order. */
module Selection {

  /** `lt` puts any two different rows in one order. */
  ghost predicate Linear<K(!new)>(lt: (K, K) -> bool, all: set<K>) {
    && (forall a, b :: a in all && b in all && a != b ==> lt(a, b) || lt(b, a))
    && (forall a, b, c :: a in all && b in all && c in all && lt(a, b) && lt(b, c) ==> lt(a, c))
  }

  ghost predicate Sorted<K(!new)>(lt: (K, K) -> bool, ks: seq<K>) {
    forall i, j :: 0 <= i < j < |ks| ==> lt(ks[i], ks[j])
  }

  function Elements<K>(ks: seq<K>): set<K> {
    set k | k in ks
  }

  /** The first `limit` rows, or all of them if there are fewer, each once and in order. */
  ghost predicate FirstOf<K(!new)>(lt: (K, K) -> bool, all: set<K>, limit: nat, ks: seq<K>) {
    && Elements(ks) <= all && Sorted(lt, ks)
    && |ks| == |Elements(ks)| == (if |all| <= limit then |all| else limit)
    && forall k, late :: k in Elements(ks) && late in all - Elements(ks) ==> lt(k, late)
  }

  lemma StrictlyFewer<K>(some: set<K>, all: set<K>, k: K)
    requires some <= all && k in all && k !in some
    ensures |some| < |all|
  {
    assert all == some + {k} + (all - some - {k});
    assert |some + {k}| == |some| + 1;
  }

  /** A selection under way, with `left` still to select from. */
  ghost predicate Picking<K(!new)>(lt: (K, K) -> bool, all: set<K>, ks: seq<K>, left: set<K>) {
    && left <= all && Elements(ks) == all - left && |ks| == |Elements(ks)| && Sorted(lt, ks)
    && forall k, late :: k in Elements(ks) && late in left ==> lt(k, late)
  }

  lemma PickOne<K(!new)>(lt: (K, K) -> bool, all: set<K>, ks: seq<K>, left: set<K>, k: K)
    requires Picking(lt, all, ks, left) && k in left && forall x :: x in left && x != k ==> lt(k, x)
    ensures Picking(lt, all, ks + [k], left - {k})
  {
    var ks' := ks + [k];
    assert Elements(ks') == Elements(ks) + {k};
    forall i, j | 0 <= i < j < |ks'| ensures lt(ks'[i], ks'[j]) {
      if j == |ks| { assert ks[i] in Elements(ks); }
    }
  }

  lemma PickDone<K(!new)>(lt: (K, K) -> bool, all: set<K>, ks: seq<K>, left: set<K>, limit: nat)
    requires Picking(lt, all, ks, left) && |ks| <= limit && (left == {} || |ks| == limit)
    ensures FirstOf(lt, all, limit, ks)
  {
    assert all == Elements(ks) + left;
    assert |all| == |Elements(ks)| + |left|;
    assert all - Elements(ks) == left;
  }

  method First<K(!new)>(lt: (K, K) -> bool, s: set<K>) returns (k: K)
    requires s != {} && Linear(lt, s)
    ensures k in s && forall x :: x in s && x != k ==> lt(k, x)
  {
    k :| k in s;
    var rest := s - {k};
    while rest != {}
      invariant rest <= s && k in s && k !in rest
      invariant forall x :: x in s && x !in rest && x != k ==> lt(k, x)
      decreases |rest|
    {
      var x :| x in rest;
      if lt(x, k) { k := x; }
      rest := rest - {x};
    }
  }

  method Select<K(!new)>(lt: (K, K) -> bool, all: set<K>, limit: nat) returns (ks: seq<K>)
    requires Linear(lt, all)
    ensures FirstOf(lt, all, limit, ks)
  {
    ks := [];
    var left := all;
    while left != {} && |ks| < limit
      invariant |ks| <= limit && Picking(lt, all, ks, left)
      decreases |left|
    {
      var k := First(lt, left);
      PickOne(lt, all, ks, left, k);
      left := left - {k};
      ks := ks + [k];
    }
    PickDone(lt, all, ks, left, limit);
  }
}

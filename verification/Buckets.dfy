/**
 Chained hash buckets, as corelib/set.c and corelib/arenatable.c lay them out:
 what the chains denote, for any comparison that is an equivalence the hash
 respects.
 */
module Buckets {

  datatype Option<+A> = None | Some(value: A)

  /** How entries are filed: their key, and the caller's `cmp` and `hash`. */
  datatype Order<!E, !K> = Order(key: E -> K, same: (K, K) -> bool, hash: K -> nat)

  ghost predicate Lawful<E(!new), K(!new)>(o: Order<E, K>) {
    (forall x :: o.same(x, x)) &&
    (forall x, y :: o.same(x, y) ==> o.same(y, x) && o.hash(x) == o.hash(y)) &&
    (forall x, y, z :: o.same(x, y) && o.same(y, z) ==> o.same(x, z))
  }

  predicate Hit<E, K>(o: Order<E, K>, k: K, e: E) { o.same(k, o.key(e)) }

  function Slot<E, K>(o: Order<E, K>, n: nat, k: K): (i: nat)
    requires n > 0
    ensures i < n
  {
    o.hash(k) % n
  }

  ghost predicate ChainOk<E, K>(o: Order<E, K>, chain: seq<E>, n: nat, i: nat)
    requires n > 0
  {
    (forall j :: 0 <= j < |chain| ==> o.hash(o.key(chain[j])) % n == i) &&
    (forall j, k :: 0 <= j < |chain| && 0 <= k < |chain| && j != k ==> !Hit(o, o.key(chain[j]), chain[k]))
  }

  /** Every entry sits in its own slot, and no chain holds two equal keys. */
  ghost predicate Rep<E, K>(o: Order<E, K>, bs: seq<seq<E>>) {
    |bs| > 0 && forall i :: 0 <= i < |bs| ==> ChainOk(o, bs[i], |bs|, i)
  }

  /** The entries in the buckets. */
  ghost function Elems<E>(bs: seq<seq<E>>): (r: set<E>) {
    set i, e | 0 <= i < |bs| && e in bs[i] :: e
  }

  function Total<E>(bs: seq<seq<E>>): (n: nat) {
    if bs == [] then 0 else Total(bs[..|bs| - 1]) + |bs[|bs| - 1]|
  }

  // ----- sets of entries up to the caller's comparison -----

  ghost predicate Holds<E, K>(o: Order<E, K>, s: set<E>, k: K) {
    exists e :: e in s && Hit(o, k, e)
  }

  ghost function Without<E, K>(o: Order<E, K>, s: set<E>, k: K): (r: set<E>) {
    set e | e in s && !Hit(o, k, e)
  }

  ghost predicate Unique<E, K>(o: Order<E, K>, s: set<E>) {
    forall x, y :: x in s && y in s && Hit(o, o.key(x), y) ==> x == y
  }

  // ----- the buckets denote such a set -----

  lemma InSlot<E, K>(o: Order<E, K>, bs: seq<seq<E>>, i: nat, e: E)
    requires Rep(o, bs) && i < |bs| && e in bs[i]
    ensures Slot(o, |bs|, o.key(e)) == i
  {
    assert ChainOk(o, bs[i], |bs|, i);
  }

  /** Looking in one chain is enough. */
  lemma OneChainIsEnough<E(!new), K(!new)>(o: Order<E, K>, bs: seq<seq<E>>, k: K)
    requires Lawful(o) && Rep(o, bs)
    ensures Holds(o, Elems(bs), k) <==> exists e :: e in bs[Slot(o, |bs|, k)] && Hit(o, k, e)
  {
    var i := Slot(o, |bs|, k);
    if e :| e in Elems(bs) && Hit(o, k, e) {
      var j :| 0 <= j < |bs| && e in bs[j];
      InSlot(o, bs, j, e);
      assert j == i;
    }
    if e :| e in bs[i] && Hit(o, k, e) {
      assert e in Elems(bs);
    }
  }

  lemma EntriesAreUnique<E(!new), K(!new)>(o: Order<E, K>, bs: seq<seq<E>>)
    requires Lawful(o) && Rep(o, bs)
    ensures Unique(o, Elems(bs))
  {
    forall x, y | x in Elems(bs) && y in Elems(bs) && Hit(o, o.key(x), y) ensures x == y {
      var i :| 0 <= i < |bs| && x in bs[i];
      var j :| 0 <= j < |bs| && y in bs[j];
      InSlot(o, bs, i, x);
      InSlot(o, bs, j, y);
      assert ChainOk(o, bs[i], |bs|, i);
    }
  }

  // ----- one chain changes -----

  lemma ElemsUpdate<E>(bs: seq<seq<E>>, i: nat, chain: seq<E>, e: E)
    requires i < |bs|
    ensures e in Elems(bs[i := chain]) <==> e in chain || exists k :: 0 <= k < |bs| && k != i && e in bs[k]
  {
    var cs := bs[i := chain];
    if e in chain {
      assert e in cs[i];
    }
    if k :| 0 <= k < |bs| && k != i && e in bs[k] {
      assert e in cs[k];
    }
    if e in Elems(cs) {
      var k :| 0 <= k < |cs| && e in cs[k];
      assert k != i ==> e in bs[k];
    }
  }

  lemma {:induction false} TotalUpdate<E>(bs: seq<seq<E>>, i: nat, chain: seq<E>)
    requires i < |bs|
    ensures Total(bs[i := chain]) == Total(bs) - |bs[i]| + |chain|
    decreases |bs|
  {
    var n := |bs| - 1;
    if i == n {
      assert bs[i := chain][..n] == bs[..n];
    } else {
      assert bs[i := chain][..n] == bs[..n][i := chain];
      TotalUpdate(bs[..n], i, chain);
    }
  }

  lemma RepUpdate<E, K>(o: Order<E, K>, bs: seq<seq<E>>, i: nat, chain: seq<E>)
    requires Rep(o, bs) && i < |bs| && ChainOk(o, chain, |bs|, i)
    ensures Rep(o, bs[i := chain])
  {
  }

  lemma ElemsWhen<E>(bs: seq<seq<E>>, i: nat, e: E)
    requires i < |bs|
    ensures e in Elems(bs) <==> e in bs[i] || exists k :: 0 <= k < |bs| && k != i && e in bs[k]
  {
    ElemsUpdate(bs, i, bs[i], e);
    assert bs[i := bs[i]] == bs;
  }

  /** Linking a new entry in front of its chain. */
  lemma Prepended<E(!new), K(!new)>(o: Order<E, K>, bs: seq<seq<E>>, e: E)
    requires Lawful(o) && Rep(o, bs) && !Holds(o, Elems(bs), o.key(e))
    ensures var i := Slot(o, |bs|, o.key(e));
            var cs := bs[i := [e] + bs[i]];
            Rep(o, cs) && Elems(cs) == Elems(bs) + {e} && Total(cs) == Total(bs) + 1
  {
    var i := Slot(o, |bs|, o.key(e));
    var was, chain := bs[i], [e] + bs[i];
    assert ChainOk(o, was, |bs|, i);
    forall j | 0 <= j < |was| ensures !Hit(o, o.key(e), was[j]) {
      assert was[j] in bs[i];
    }
    assert ChainOk(o, chain, |bs|, i);
    RepUpdate(o, bs, i, chain);
    TotalUpdate(bs, i, chain);
    forall x ensures x in Elems(bs[i := chain]) <==> x in Elems(bs) + {e} {
      ElemsUpdate(bs, i, chain, x);
      ElemsWhen(bs, i, x);
    }
  }

  /** An entry elsewhere than in chain `i` does not match a key of that slot. */
  lemma OthersDiffer<E(!new), K(!new)>(o: Order<E, K>, bs: seq<seq<E>>, k: K, m: nat, x: E)
    requires Lawful(o) && Rep(o, bs) && m < |bs| && m != Slot(o, |bs|, k) && x in bs[m]
    ensures !Hit(o, k, x)
  {
    InSlot(o, bs, m, x);
  }

  lemma OnlyOneHit<E(!new), K(!new)>(o: Order<E, K>, chain: seq<E>, n: nat, i: nat, k: K, j: nat, m: nat)
    requires Lawful(o) && n > 0 && ChainOk(o, chain, n, i)
    requires j < |chain| && m < |chain| && m != j && Hit(o, k, chain[j])
    ensures !Hit(o, k, chain[m])
  {
    assert !Hit(o, o.key(chain[j]), chain[m]);
  }

  lemma ChainReplaced<E(!new), K(!new)>(o: Order<E, K>, chain: seq<E>, n: nat, j: nat, e: E)
    requires Lawful(o) && n > 0 && j < |chain| && Hit(o, o.key(e), chain[j])
    requires ChainOk(o, chain, n, Slot(o, n, o.key(e)))
    ensures ChainOk(o, chain[j := e], n, Slot(o, n, o.key(e)))
  {
    forall m | 0 <= m < |chain| && m != j ensures !Hit(o, o.key(e), chain[m]) && !Hit(o, o.key(chain[m]), e) {
      OnlyOneHit(o, chain, n, Slot(o, n, o.key(e)), o.key(e), j, m);
    }
  }

  /** The entries after chain `i`, where `k` belongs, has lost its entry with that
      key and gained those of `more`. */
  lemma ElemsReplaced<E(!new), K(!new)>(o: Order<E, K>, bs: seq<seq<E>>, k: K, chain: seq<E>, more: set<E>)
    requires Lawful(o) && Rep(o, bs)
    requires var i := Slot(o, |bs|, k); forall x :: x in chain <==> (x in bs[i] && !Hit(o, k, x)) || x in more
    ensures Elems(bs[Slot(o, |bs|, k) := chain]) == Without(o, Elems(bs), k) + more
  {
    var i := Slot(o, |bs|, k);
    forall x ensures x in Elems(bs[i := chain]) <==> x in Without(o, Elems(bs), k) + more {
      ElemsUpdate(bs, i, chain, x);
      ElemsWhen(bs, i, x);
      if m :| 0 <= m < |bs| && m != i && x in bs[m] {
        OthersDiffer(o, bs, k, m, x);
      }
    }
  }

  /** Putting a new entry in the place of the one with the same key. */
  lemma Replaced<E(!new), K(!new)>(o: Order<E, K>, bs: seq<seq<E>>, j: nat, e: E)
    requires Lawful(o) && Rep(o, bs)
    requires var i := Slot(o, |bs|, o.key(e)); j < |bs[i]| && Hit(o, o.key(e), bs[i][j])
    ensures var i := Slot(o, |bs|, o.key(e));
            var cs := bs[i := bs[i][j := e]];
            Rep(o, cs) && Elems(cs) == Without(o, Elems(bs), o.key(e)) + {e} && Total(cs) == Total(bs)
  {
    var k := o.key(e);
    var i := Slot(o, |bs|, k);
    var was, chain := bs[i], bs[i][j := e];
    assert ChainOk(o, was, |bs|, i);
    ChainReplaced(o, was, |bs|, j, e);
    RepUpdate(o, bs, i, chain);
    TotalUpdate(bs, i, chain);
    forall x ensures x in chain <==> (x in was && !Hit(o, k, x)) || x in {e} {
      assert chain[j] == e;
      if m :| 0 <= m < |was| && m != j && x == was[m] {
        assert chain[m] == x;
        OnlyOneHit(o, was, |bs|, i, k, j, m);
      }
    }
    ElemsReplaced(o, bs, k, chain, {e});
  }

  /** Unlinking the entry with key `k`. */
  lemma Unlinked<E(!new), K(!new)>(o: Order<E, K>, bs: seq<seq<E>>, k: K, j: nat)
    requires Lawful(o) && Rep(o, bs)
    requires var i := Slot(o, |bs|, k); j < |bs[i]| && Hit(o, k, bs[i][j])
    ensures var i := Slot(o, |bs|, k);
            var cs := bs[i := bs[i][..j] + bs[i][j + 1..]];
            Rep(o, cs) && Elems(cs) == Without(o, Elems(bs), k) && Total(cs) == Total(bs) - 1
  {
    var i := Slot(o, |bs|, k);
    var was, chain := bs[i], bs[i][..j] + bs[i][j + 1..];
    assert ChainOk(o, was, |bs|, i);
    assert ChainOk(o, chain, |bs|, i);
    RepUpdate(o, bs, i, chain);
    TotalUpdate(bs, i, chain);
    forall x ensures x in chain <==> (x in was && !Hit(o, k, x)) || x in {} {
      if m :| 0 <= m < |was| && m != j && x == was[m] {
        assert chain[if m < j then m else m - 1] == x;
        OnlyOneHit(o, was, |bs|, i, k, j, m);
      }
    }
    ElemsReplaced(o, bs, k, chain, {});
  }

  // ----- the length counts the entries -----

  ghost function Entries<E>(chain: seq<E>): (r: set<E>) { set e | e in chain }

  lemma {:induction false} ChainCount<E>(chain: seq<E>)
    requires forall j, k :: 0 <= j < k < |chain| ==> chain[j] != chain[k]
    ensures |Entries(chain)| == |chain|
    decreases |chain|
  {
    if chain != [] {
      var n := |chain| - 1;
      ChainCount(chain[..n]);
      assert Entries(chain) == Entries(chain[..n]) + {chain[n]};
    }
  }

  ghost predicate Apart<E, K>(o: Order<E, K>, bs: seq<seq<E>>, n: nat)
    requires n > 0
  {
    forall i :: 0 <= i < |bs| ==> ChainOk(o, bs[i], n, i)
  }

  lemma {:induction false} ApartCount<E(!new), K(!new)>(o: Order<E, K>, bs: seq<seq<E>>, n: nat)
    requires Lawful(o) && n > 0 && Apart(o, bs, n)
    ensures |Elems(bs)| == Total(bs)
    decreases |bs|
  {
    if bs != [] {
      var m := |bs| - 1;
      var front, chain := bs[..m], bs[m];
      ApartCount(o, front, n);
      assert ChainOk(o, chain, n, m);
      forall j, k | 0 <= j < k < |chain| ensures chain[j] != chain[k] {
        assert !Hit(o, o.key(chain[j]), chain[k]);
      }
      ChainCount(chain);
      forall e | e in Elems(front) ensures e !in chain {
        var i :| 0 <= i < |front| && e in front[i];
        assert ChainOk(o, bs[i], n, i);
      }
      ElemsSplit(bs);
    }
  }

  lemma ElemsSplit<E>(bs: seq<seq<E>>)
    requires bs != []
    ensures Elems(bs) == Elems(bs[..|bs| - 1]) + Entries(bs[|bs| - 1])
  {
    var m := |bs| - 1;
    forall e ensures e in Elems(bs) <==> e in Elems(bs[..m]) + Entries(bs[m]) {
      ElemsWhen(bs, m, e);
      if k :| 0 <= k < |bs| && k != m && e in bs[k] {
        assert e in bs[..m][k];
      }
      if e in Elems(bs[..m]) {
        var k :| 0 <= k < m && e in bs[..m][k];
        assert e in bs[k];
      }
    }
  }

  lemma CountIsTotal<E(!new), K(!new)>(o: Order<E, K>, bs: seq<seq<E>>)
    requires Lawful(o) && Rep(o, bs)
    ensures |Elems(bs)| == Total(bs)
  {
    ApartCount(o, bs, |bs|);
  }

  // ----- empty buckets, and the walk over all of them -----

  lemma {:induction false} EmptyTotal<E>(bs: seq<seq<E>>)
    requires forall i :: 0 <= i < |bs| ==> bs[i] == []
    ensures Total(bs) == 0 && Elems(bs) == {}
    decreases |bs|
  {
    if bs != [] {
      EmptyTotal(bs[..|bs| - 1]);
    }
  }

  /** The entries in walking order: bucket after bucket, each chain from its head. */
  function Flat<E>(bs: seq<seq<E>>): (r: seq<E>) {
    if bs == [] then [] else Flat(bs[..|bs| - 1]) + bs[|bs| - 1]
  }

  lemma {:induction false} FlatHasAll<E>(bs: seq<seq<E>>)
    ensures |Flat(bs)| == Total(bs) && Entries(Flat(bs)) == Elems(bs)
    decreases |bs|
  {
    if bs != [] {
      FlatHasAll(bs[..|bs| - 1]);
      ElemsSplit(bs);
    }
  }

  /** What a walk has seen when it stands at entry `j` of chain `i`. */
  ghost function Seen<E>(bs: seq<seq<E>>, i: nat, j: nat): (r: set<E>)
    requires i < |bs| && j <= |bs[i]|
  {
    Elems(bs[..i]) + Entries(bs[i][..j])
  }

  lemma SeenNext<E>(bs: seq<seq<E>>, i: nat, j: nat)
    requires i < |bs| && j < |bs[i]|
    ensures Seen(bs, i, j + 1) == Seen(bs, i, j) + {bs[i][j]}
  {
  }

  lemma SeenChain<E>(bs: seq<seq<E>>, i: nat)
    requires i < |bs|
    ensures Seen(bs, i, 0) == Elems(bs[..i]) && Seen(bs, i, |bs[i]|) == Elems(bs[..i + 1])
  {
    assert bs[..i + 1][..i] == bs[..i];
    assert bs[i][..|bs[i]|] == bs[i];
    ElemsSplit(bs[..i + 1]);
  }

  /** The entry a walk stands at is in the buckets, and new to it. */
  lemma SeenFresh<E(!new), K(!new)>(o: Order<E, K>, bs: seq<seq<E>>, i: nat, j: nat)
    requires Lawful(o) && Rep(o, bs) && i < |bs| && j < |bs[i]|
    ensures bs[i][j] in Elems(bs) && Seen(bs, i, j) <= Elems(bs)
    ensures !Holds(o, Seen(bs, i, j), o.key(bs[i][j]))
  {
    assert bs[i][j] in bs[i];
    forall e | e in Seen(bs, i, j) ensures e in Elems(bs) && !Hit(o, o.key(bs[i][j]), e) {
      if e in Elems(bs[..i]) {
        var k :| 0 <= k < i && e in bs[..i][k];
        assert e in bs[k];
        InSlot(o, bs, i, bs[i][j]);
        OthersDiffer(o, bs, o.key(bs[i][j]), k, e);
      } else {
        var k :| 0 <= k < j && bs[i][k] == e;
        assert e in bs[i];
        assert ChainOk(o, bs[i], |bs|, i);
      }
    }
  }

  // ----- the search every operation starts with -----

  /** Walk a chain to the first entry with key `k`, or off its end. */
  method Find<E, K>(o: Order<E, K>, chain: seq<E>, k: K) returns (j: nat)
    ensures j <= |chain|
    ensures j < |chain| ==> Hit(o, k, chain[j])
    ensures forall m :: 0 <= m < j ==> !Hit(o, k, chain[m])
  {
    j := 0;
    while j < |chain| && !Hit(o, k, chain[j])
      invariant j <= |chain| && forall m :: 0 <= m < j ==> !Hit(o, k, chain[m])
    {
      j := j + 1;
    }
  }

  const INT_MAX := 0x7fff_ffff

  const PRIMES := [509, 509, 1021, 2053, 4093, 8191, 16381, 32771, 65521, INT_MAX]

  /** The number of buckets for a hint: the largest prime of the table below it,
      509 at least. */
  method SizeFor(hint: nat) returns (n: nat)
    requires hint <= INT_MAX
    ensures n in [509, 1021, 2053, 4093, 8191, 16381, 32771, 65521] && (n < hint || n == 509)
    ensures forall p :: p in [509, 1021, 2053, 4093, 8191, 16381, 32771, 65521] && p < hint ==> p <= n
  {
    var i := 1;
    while PRIMES[i] < hint
      invariant 1 <= i < |PRIMES| && (PRIMES[i - 1] < hint || i == 1)
      invariant forall j :: 0 <= j < i ==> PRIMES[j] <= PRIMES[i - 1]
      decreases |PRIMES| - i
    {
      i := i + 1;
    }
    n := PRIMES[i - 1];
  }
}

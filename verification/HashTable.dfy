/**
 corelib/arenatable.c: a table from keys to values in hash buckets.
 */
module HashTable {
  import opened Buckets

  datatype Binding<+K, +V> = Binding(key: K, value: V)

  /** The value a set of bindings gives to `k`. */
  ghost predicate Gives<K, V>(o: Order<Binding<K, V>, K>, s: set<Binding<K, V>>, k: K, v: V) {
    exists b :: b in s && Hit(o, k, b) && b.value == v
  }

  /** `s` answers a lookup of `k` with `r`. */
  ghost predicate Answers<K, V>(o: Order<Binding<K, V>, K>, s: set<Binding<K, V>>, k: K, r: Option<V>) {
    if r.Some? then Gives(o, s, k, r.value) else !Holds(o, s, k)
  }

  /** A lookup has one answer. */
  lemma AnswerIsUnique<K(!new), V(!new)>(o: Order<Binding<K, V>, K>, s: set<Binding<K, V>>, k: K, p: Option<V>,
                                         q: Option<V>)
    requires Lawful(o) && Unique(o, s) && Answers(o, s, k, p) && Answers(o, s, k, q)
    ensures p == q
  {
    if p.Some? && q.Some? {
      var b :| b in s && Hit(o, k, b) && b.value == p.value;
      var c :| c in s && Hit(o, k, c) && c.value == q.value;
      assert Hit(o, o.key(b), c);
    }
  }

  /** The bindings after `k` is bound to `v`, under the key it has already. */
  ghost predicate Bound<K(!new), V>(o: Order<Binding<K, V>, K>, s: set<Binding<K, V>>, k: K, v: V,
                                    r: set<Binding<K, V>>) {
    exists key :: Rebound(o, s, k, key) && r == Without(o, s, k) + {Binding(key, v)}
  }

  ghost predicate Rebound<K, V>(o: Order<Binding<K, V>, K>, s: set<Binding<K, V>>, k: K, key: K) {
    if Holds(o, s, k) then exists b :: b in s && Hit(o, k, b) && b.key == key else key == k
  }

  ghost predicate Keyed<K(!new), V(!new)>(o: Order<Binding<K, V>, K>) {
    forall b :: o.key(b) == b.key
  }

  /** A put is seen by lookups of equal keys, and by no others. */
  lemma LookupAfterPut<K(!new), V(!new)>(o: Order<Binding<K, V>, K>, s: set<Binding<K, V>>, k: K, v: V,
                                         r: set<Binding<K, V>>, j: K, before: Option<V>)
    requires Lawful(o) && Keyed(o) && Unique(o, s) && Bound(o, s, k, v, r) && Answers(o, s, j, before)
    ensures Answers(o, r, j, if o.same(j, k) then Some(v) else before)
  {
    var key :| Rebound(o, s, k, key) && r == Without(o, s, k) + {Binding(key, v)};
    var b := Binding(key, v);
    assert o.same(k, key) && b in r && Hit(o, k, b);
    if o.same(j, k) {
      assert Hit(o, j, b);
    } else if before.Some? {
      var c :| c in s && Hit(o, j, c) && c.value == before.value;
      assert !Hit(o, k, c);
      assert c in r;
    }
  }

  /** A removal is seen by lookups of equal keys, and by no others. */
  lemma LookupAfterRemove<K(!new), V(!new)>(o: Order<Binding<K, V>, K>, s: set<Binding<K, V>>, k: K, j: K,
                                            before: Option<V>)
    requires Lawful(o) && Keyed(o) && Answers(o, s, j, before)
    ensures Answers(o, Without(o, s, k), j, if o.same(j, k) then None else before)
  {
    if !o.same(j, k) && before.Some? {
      var c :| c in s && Hit(o, j, c) && c.value == before.value;
      assert !Hit(o, k, c);
    }
  }

  class Table<K(!new), V(!new)> {
    const order: Order<Binding<K, V>, K>
    const buckets: array<seq<Binding<K, V>>>
    var length: nat
    var timestamp: nat

    ghost predicate Valid()
      reads this, buckets
    {
      Lawful(order) && Keyed(order) && Rep(order, buckets[..]) && length == Total(buckets[..])
    }

    ghost function Bindings(): (r: set<Binding<K, V>>)
      reads this, buckets
    {
      Elems(buckets[..])
    }

    /** ArenaTable_new */
    constructor (hint: nat, order: Order<Binding<K, V>, K>)
      requires hint <= INT_MAX && Lawful(order) && Keyed(order)
      ensures Valid() && fresh(buckets) && this.order == order && Bindings() == {}
    {
      var size := SizeFor(hint);
      this.order := order;
      buckets := new seq<Binding<K, V>>[size](_ => []);
      length, timestamp := 0, 0;
      new;
      EmptyTotal(buckets[..]);
    }

    /** ArenaTable_length */
    method Length() returns (n: nat)
      requires Valid()
      ensures n == |Bindings()| && Unique(order, Bindings())
    {
      CountIsTotal(order, buckets[..]);
      EntriesAreUnique(order, buckets[..]);
      n := length;
    }

    /** ArenaTable_get */
    method Get(key: K) returns (r: Option<V>)
      requires Valid()
      ensures Answers(order, Bindings(), key, r)
    {
      OneChainIsEnough(order, buckets[..], key);
      var i := Slot(order, buckets.Length, key);
      var chain := buckets[i];
      var j := Find(order, chain, key);
      if j < |chain| {
        assert chain[j] in buckets[..][i];
        r := Some(chain[j].value);
      } else {
        r := None;
      }
    }

    /** ArenaTable_put: the answer is the value that was there. */
    method Put(key: K, value: V) returns (prev: Option<V>)
      requires Valid()
      modifies this, buckets
      ensures Valid() && Bound(order, old(Bindings()), key, value, Bindings())
      ensures Answers(order, old(Bindings()), key, prev)
      ensures timestamp == (old(timestamp) + 1) % 0x1_0000_0000
    {
      hide ChainOk, Lawful;
      OneChainIsEnough(order, buckets[..], key);
      var i := Slot(order, buckets.Length, key);
      var chain := buckets[i];
      var j := Find(order, chain, key);
      ghost var bs, was := buckets[..], Bindings();
      if j == |chain| {
        var b := Binding(key, value);
        assert !Holds(order, was, key);
        Prepended(order, bs, b);
        buckets[i] := [b] + chain;
        assert buckets[..] == bs[i := [b] + bs[i]];
        assert Without(order, was, key) == was;
        assert Rebound(order, was, key, key);
        length := length + 1;
        prev := None;
      } else {
        var b := Binding(chain[j].key, value);
        assert chain[j] in bs[i];
        SameSlot(order, was, |bs|, key, chain[j].key);
        Replaced(order, bs, j, b);
        buckets[i] := chain[j := b];
        assert buckets[..] == bs[i := bs[i][j := b]];
        assert Rebound(order, was, key, chain[j].key);
        prev := Some(chain[j].value);
      }
      timestamp := (timestamp + 1) % 0x1_0000_0000;
    }

    /** ArenaTable_remove */
    method Remove(key: K) returns (r: Option<V>)
      requires Valid()
      modifies this, buckets
      ensures Valid() && Bindings() == Without(order, old(Bindings()), key)
      ensures Answers(order, old(Bindings()), key, r)
      ensures timestamp == (old(timestamp) + 1) % 0x1_0000_0000
    {
      timestamp := (timestamp + 1) % 0x1_0000_0000;
      OneChainIsEnough(order, buckets[..], key);
      var i := Slot(order, buckets.Length, key);
      var chain := buckets[i];
      var j := Find(order, chain, key);
      ghost var bs, was := buckets[..], Bindings();
      if j == |chain| {
        assert !Holds(order, was, key);
        assert Without(order, was, key) == was;
        r := None;
      } else {
        Unlinked(order, bs, key, j);
        assert chain[j] in bs[i];
        r := Some(chain[j].value);
        buckets[i] := chain[..j] + chain[j + 1..];
        assert buckets[..] == bs[i := bs[i][..j] + bs[i][j + 1..]];
        length := length - 1;
      }
    }

    /** ArenaTable_toArray: every binding once. */
    method ToArray() returns (a: seq<Binding<K, V>>)
      requires Valid()
      ensures a == Flat(buckets[..]) && |a| == length == |Bindings()| && Entries(a) == Bindings()
    {
      a := [];
      ghost var bs := buckets[..];
      for i := 0 to buckets.Length
        invariant a == Flat(bs[..i])
      {
        assert bs[..i + 1][..i] == bs[..i];
        var chain := buckets[i];
        for j := 0 to |chain|
          invariant a == Flat(bs[..i]) + chain[..j]
        {
          a := a + [chain[j]];
        }
      }
      assert bs[..buckets.Length] == bs;
      FlatHasAll(bs);
      CountIsTotal(order, bs);
    }
  }

  lemma SameSlot<K(!new), V(!new)>(o: Order<Binding<K, V>, K>, s: set<Binding<K, V>>, n: nat, j: K, k: K)
    requires Lawful(o) && n > 0 && o.same(j, k)
    ensures Slot(o, n, j) == Slot(o, n, k) && Without(o, s, j) == Without(o, s, k)
    ensures o.same(k, j) && o.same(k, k)
  {
  }
}

/**
 corelib/set.c: a mutable set in hash buckets, and the set algebra on it.  The
 caller's comparison decides which members are the same.
 */
module HashSet {
  import opened Buckets

  /** The entries of `a` whose presence in `b` is `wanted`. */
  ghost function Chosen<T>(o: Order<T, T>, a: set<T>, b: set<T>, wanted: bool): (r: set<T>) {
    set x | x in a && (Holds(o, b, x) <==> wanted)
  }

  class Set<T(!new)> {
    const order: Order<T, T>
    const buckets: array<seq<T>>
    var length: nat
    var timestamp: nat

    ghost predicate Valid()
      reads this, buckets
    {
      Lawful(order) && (forall x :: order.key(x) == x) &&
      Rep(order, buckets[..]) && length == Total(buckets[..])
    }

    ghost function Elements(): (r: set<T>)
      reads this, buckets
    {
      Elems(buckets[..])
    }

    /** Set_new */
    constructor (hint: nat, order: Order<T, T>)
      requires hint <= INT_MAX && Lawful(order) && forall x :: order.key(x) == x
      ensures Valid() && fresh(buckets) && this.order == order && Elements() == {} && buckets.Length <= INT_MAX
    {
      var size := SizeFor(hint);
      this.order := order;
      buckets := new seq<T>[size](_ => []);
      length, timestamp := 0, 0;
      new;
      EmptyTotal(buckets[..]);
    }

    /** Set_length */
    method Length() returns (n: nat)
      requires Valid()
      ensures n == |Elements()|
    {
      CountIsTotal(order, buckets[..]);
      n := length;
    }

    /** Set_member */
    method Member(member: T) returns (r: bool)
      requires Valid()
      ensures r <==> Holds(order, Elements(), member)
    {
      OneChainIsEnough(order, buckets[..], member);
      var i := Slot(order, buckets.Length, member);
      var j := Find(order, buckets[i], member);
      r := j < |buckets[i]|;
    }

    /** Link a member the set does not hold yet. */
    method Link(member: T)
      requires Valid() && !Holds(order, Elements(), member)
      modifies this`length, buckets
      ensures Valid() && Elements() == old(Elements()) + {member}
    {
      Prepended(order, buckets[..], member);
      var i := Slot(order, buckets.Length, member);
      ghost var after := buckets[..][i := [member] + buckets[i]];
      buckets[i] := [member] + buckets[i];
      assert buckets[..] == after;
      length := length + 1;
    }

    /** Set_put: the new member takes the place of an equal one. */
    method Put(member: T)
      requires Valid()
      modifies this, buckets
      ensures Valid() && Elements() == Without(order, old(Elements()), member) + {member}
      ensures timestamp == (old(timestamp) + 1) % 0x1_0000_0000
    {
      OneChainIsEnough(order, buckets[..], member);
      var i := Slot(order, buckets.Length, member);
      var j := Find(order, buckets[i], member);
      if j == |buckets[i]| {
        assert !Holds(order, Elements(), member);
        assert Without(order, Elements(), member) == Elements();
        Link(member);
      } else {
        Replaced(order, buckets[..], j, member);
        ghost var after := buckets[..][i := buckets[i][j := member]];
        buckets[i] := buckets[i][j := member];
        assert buckets[..] == after;
      }
      timestamp := (timestamp + 1) % 0x1_0000_0000;
    }

    /** Set_remove */
    method Remove(member: T) returns (r: Option<T>)
      requires Valid()
      modifies this, buckets
      ensures Valid() && Elements() == Without(order, old(Elements()), member)
      ensures r.None? <==> !Holds(order, old(Elements()), member)
      ensures r.Some? ==> r.value in old(Elements()) && Hit(order, member, r.value)
      ensures timestamp == (old(timestamp) + 1) % 0x1_0000_0000
    {
      timestamp := (timestamp + 1) % 0x1_0000_0000;
      OneChainIsEnough(order, buckets[..], member);
      var i := Slot(order, buckets.Length, member);
      var chain := buckets[i];
      var j := Find(order, chain, member);
      if j == |chain| {
        assert !Holds(order, Elements(), member);
        assert Without(order, Elements(), member) == Elements();
        r := None;
      } else {
        Unlinked(order, buckets[..], member, j);
        assert chain[j] in buckets[..][i];
        r := Some(chain[j]);
        ghost var after := buckets[..][i := chain[..j] + chain[j + 1..]];
        buckets[i] := chain[..j] + chain[j + 1..];
        assert buckets[..] == after;
        length := length - 1;
      }
    }

    /** Set_toArray: every member once, bucket by bucket. */
    method ToArray() returns (a: seq<T>)
      requires Valid()
      ensures a == Flat(buckets[..]) && |a| == length == |Elements()| && Entries(a) == Elements()
    {
      a := [];
      ghost var bs := buckets[..];
      for i := 0 to buckets.Length
        invariant a == Flat(bs[..i])
      {
        assert bs[..i + 1][..i] == bs[..i];
        var chain := buckets[i];
        for j := 0 to |chain|
          invariant a == Flat(bs[..i]) + chain[..j]
        {
          a := a + [chain[j]];
        }
      }
      assert bs[..buckets.Length] == bs;
      FlatHasAll(bs);
      CountIsTotal(order, bs);
    }

    // ----- set algebra -----

    /** Another set, valid and over the same comparison, that shares nothing with this one. */
    ghost predicate Separate(t: Set<T>)
      reads this, t, t.buckets
    {
      t != this && t.buckets != buckets && t.Valid() && t.order == order
    }

    /** The loops of Set_inter, Set_minus and Set_diff: link the members of `t`
        whose presence in `s` is `wanted`. */
    method LinkWhere(t: Set<T>, s: Set<T>, wanted: bool)
      requires Valid() && Separate(t) && Separate(s)
      requires forall x :: x in Chosen(order, t.Elements(), s.Elements(), wanted) ==> !Holds(order, Elements(), x)
      modifies this`length, buckets
      ensures Valid() && Elements() == old(Elements()) + Chosen(order, t.Elements(), s.Elements(), wanted)
    {
      ghost var bs, was := t.buckets[..], Elements();
      for i := 0 to t.buckets.Length
        invariant Valid() && Elements() == was + Chosen(order, Elems(bs[..i]), s.Elements(), wanted)
      {
        LinkChain(t, s, wanted, i, was);
      }
      assert bs[..t.buckets.Length] == bs;
    }

    /** The loop over one chain. */
    method LinkChain(t: Set<T>, s: Set<T>, wanted: bool, i: nat, ghost was: set<T>)
      requires Valid() && Separate(t) && Separate(s) && i < t.buckets.Length
      requires forall x :: x in Chosen(order, t.Elements(), s.Elements(), wanted) ==> !Holds(order, was, x)
      requires Elements() == was + Chosen(order, Elems(t.buckets[..i]), s.Elements(), wanted)
      modifies this`length, buckets
      ensures Valid() && Elements() == was + Chosen(order, Elems(t.buckets[..i + 1]), s.Elements(), wanted)
    {
      ghost var bs := t.buckets[..];
      assert bs[..i] == t.buckets[..i] && bs[..i + 1] == t.buckets[..i + 1];
      SeenChain(bs, i);
      var chain := t.buckets[i];
      for j := 0 to |chain|
        invariant Valid() && Elements() == was + Chosen(order, Seen(bs, i, j), s.Elements(), wanted)
      {
        SeenNext(bs, i, j);
        SeenFresh(order, bs, i, j);
        LinkIf(s, wanted, chain[j], was, Seen(bs, i, j));
      }
    }

    method LinkIf(s: Set<T>, wanted: bool, x: T, ghost was: set<T>, ghost seen: set<T>)
      requires Valid() && Separate(s) && !Holds(order, seen, x)
      requires (Holds(order, s.Elements(), x) <==> wanted) ==> !Holds(order, was, x)
      requires Elements() == was + Chosen(order, seen, s.Elements(), wanted)
      modifies this`length, buckets
      ensures Valid() && Elements() == was + Chosen(order, seen + {x}, s.Elements(), wanted)
    {
      var present := s.Member(x);
      ChosenNext(order, seen, s.Elements(), wanted, x);
      if present == wanted {
        StillNew(order, was, Chosen(order, seen, s.Elements(), wanted), x);
        Link(x);
      }
    }

    /** `copy` */
    method LinkAll(t: Set<T>)
      requires Valid() && Separate(t) && Elements() == {}
      modifies this`length, buckets
      ensures Valid() && Elements() == t.Elements()
    {
      ghost var bs := t.buckets[..];
      for i := 0 to t.buckets.Length
        invariant Valid() && Separate(t) && t.buckets[..] == bs && Elements() == Elems(bs[..i])
      {
        SeenChain(bs, i);
        var chain := t.buckets[i];
        for j := 0 to |chain|
          invariant Valid() && Separate(t) && t.buckets[..] == bs && Elements() == Seen(bs, i, j)
        {
          SeenNext(bs, i, j);
          SeenFresh(order, bs, i, j);
          Link(chain[j]);
        }
      }
      assert bs[..t.buckets.Length] == bs;
    }

    /** Set_union's loop. */
    method PutAll(t: Set<T>)
      requires Valid() && Separate(t)
      modifies this, buckets
      ensures Valid() && Elements() == Chosen(order, old(Elements()), t.Elements(), false) + t.Elements()
    {
      ghost var bs, was := t.buckets[..], Elements();
      assert Chosen(order, was, {}, false) == was;
      for i := 0 to t.buckets.Length
        invariant Valid() && Separate(t) && t.buckets[..] == bs
        invariant Elements() == Overlaid(order, was, Elems(bs[..i]))
      {
        SeenChain(bs, i);
        var chain := t.buckets[i];
        for j := 0 to |chain|
          invariant Valid() && Separate(t) && t.buckets[..] == bs
          invariant Elements() == Overlaid(order, was, Seen(bs, i, j))
        {
          SeenNext(bs, i, j);
          SeenFresh(order, bs, i, j);
          OverlaidNext(order, was, Seen(bs, i, j), chain[j]);
          Put(chain[j]);
        }
      }
      assert bs[..t.buckets.Length] == bs;
    }
  }

  /** `a` with every entry equal to one of `b` replaced by it, and the rest of `b`. */
  ghost function Overlaid<T>(o: Order<T, T>, a: set<T>, b: set<T>): (r: set<T>) {
    Chosen(o, a, b, false) + b
  }

  lemma ChosenNext<T>(o: Order<T, T>, a: set<T>, b: set<T>, wanted: bool, x: T)
    ensures Chosen(o, a + {x}, b, wanted)
         == Chosen(o, a, b, wanted) + if Holds(o, b, x) <==> wanted then {x} else {}
  {
  }

  lemma StillNew<T>(o: Order<T, T>, a: set<T>, b: set<T>, x: T)
    requires !Holds(o, a, x) && !Holds(o, b, x)
    ensures !Holds(o, a + b, x)
  {
  }

  lemma OverlaidNext<T(!new)>(o: Order<T, T>, a: set<T>, b: set<T>, x: T)
    requires Lawful(o) && (forall y :: o.key(y) == y) && !Holds(o, b, x)
    ensures Without(o, Overlaid(o, a, b), x) + {x} == Overlaid(o, a, b + {x})
  {
    forall e ensures e in Without(o, Overlaid(o, a, b), x) + {x} <==> e in Overlaid(o, a, b + {x}) {
      assert Hit(o, x, e) <==> Hit(o, e, x);
      assert Holds(o, b + {x}, e) <==> Holds(o, b, e) || Hit(o, e, x);
    }
  }

  // ----- the four operations; a missing set counts as empty -----

  ghost predicate Ok<T(!new)>(s: Set?<T>)
    reads s, if s == null then {} else {s.buckets}
  {
    s != null ==> s.Valid() && s.buckets.Length <= INT_MAX
  }

  ghost function ElementsOf<T(!new)>(s: Set?<T>): (r: set<T>)
    reads s, if s == null then {} else {s.buckets}
  {
    if s == null then {} else s.Elements()
  }

  ghost predicate Comparable<T(!new)>(s: Set?<T>, t: Set?<T>, o: Order<T, T>)
    reads s, t, if s == null then {} else {s.buckets}, if t == null then {} else {t.buckets}
  {
    Ok(s) && Ok(t) && !(s == null && t == null) &&
    (s != null ==> s.order == o) && (t != null ==> t.order == o)
  }

  method Copy<T(!new)>(t: Set<T>, hint: nat) returns (r: Set<T>)
    requires t.Valid() && hint <= INT_MAX
    ensures fresh(r) && fresh(r.buckets) && Ok(r) && r.order == t.order && r.Elements() == t.Elements()
  {
    r := new Set(hint, t.order);
    r.LinkAll(t);
  }

  method Union<T(!new)>(s: Set?<T>, t: Set?<T>, ghost o: Order<T, T>) returns (r: Set<T>)
    requires Comparable(s, t, o)
    ensures fresh(r) && fresh(r.buckets) && Ok(r) && r.order == o
    ensures r.Elements() == Overlaid(o, ElementsOf(s), ElementsOf(t))
    ensures forall x :: Holds(o, r.Elements(), x) <==> Holds(o, ElementsOf(s), x) || Holds(o, ElementsOf(t), x)
  {
    if s == null {
      r := Copy(t, t.buckets.Length);
    } else if t == null {
      r := Copy(s, s.buckets.Length);
    } else {
      r := Copy(s, if s.buckets.Length > t.buckets.Length then s.buckets.Length else t.buckets.Length);
      r.PutAll(t);
    }
    UnionHolds(o, ElementsOf(s), ElementsOf(t));
  }

  method Inter<T(!new)>(s: Set?<T>, t: Set?<T>, ghost o: Order<T, T>) returns (r: Set<T>)
    requires Comparable(s, t, o)
    ensures fresh(r) && fresh(r.buckets) && Ok(r) && r.order == o
    ensures forall x :: Holds(o, r.Elements(), x) <==> Holds(o, ElementsOf(s), x) && Holds(o, ElementsOf(t), x)
    ensures s != null && t != null ==>
      r.Elements() == if s.length < t.length then Chosen(o, s.Elements(), t.Elements(), true)
                      else Chosen(o, t.Elements(), s.Elements(), true)
    decreases if s != null && t != null && s.length < t.length then 1 else 0
  {
    if s == null {
      r := new Set(t.buckets.Length, t.order);
    } else if t == null {
      r := new Set(s.buckets.Length, s.order);
    } else if s.length < t.length {
      r := Inter(t, s, o);
    } else {
      r := new Set(Min(s.buckets.Length, t.buckets.Length), s.order);
      r.LinkWhere(t, s, true);
      ChosenHolds(o, t.Elements(), s.Elements(), true);
    }
  }

  method Minus<T(!new)>(t: Set?<T>, s: Set?<T>, ghost o: Order<T, T>) returns (r: Set<T>)
    requires Comparable(s, t, o)
    ensures fresh(r) && fresh(r.buckets) && Ok(r) && r.order == o
    ensures r.Elements() == Chosen(o, ElementsOf(t), ElementsOf(s), false)
    ensures forall x :: Holds(o, r.Elements(), x) <==> Holds(o, ElementsOf(t), x) && !Holds(o, ElementsOf(s), x)
  {
    if t == null {
      r := new Set(s.buckets.Length, s.order);
    } else if s == null {
      r := Copy(t, t.buckets.Length);
    } else {
      r := new Set(Min(s.buckets.Length, t.buckets.Length), s.order);
      r.LinkWhere(t, s, false);
    }
    ChosenHolds(o, ElementsOf(t), ElementsOf(s), false);
  }

  method Diff<T(!new)>(s: Set?<T>, t: Set?<T>, ghost o: Order<T, T>) returns (r: Set<T>)
    requires Comparable(s, t, o)
    ensures fresh(r) && fresh(r.buckets) && Ok(r) && r.order == o
    ensures r.Elements() ==
            Chosen(o, ElementsOf(t), ElementsOf(s), false) + Chosen(o, ElementsOf(s), ElementsOf(t), false)
    ensures forall x :: Holds(o, r.Elements(), x) <==> (Holds(o, ElementsOf(s), x) <==> !Holds(o, ElementsOf(t), x))
  {
    if s == null {
      r := Copy(t, t.buckets.Length);
    } else if t == null {
      r := Copy(s, s.buckets.Length);
    } else {
      r := new Set(Min(s.buckets.Length, t.buckets.Length), s.order);
      r.LinkWhere(t, s, false);
      ChosenHolds(o, t.Elements(), s.Elements(), false);
      r.LinkWhere(s, t, false);
    }
    ChosenHolds(o, ElementsOf(t), ElementsOf(s), false);
    ChosenHolds(o, ElementsOf(s), ElementsOf(t), false);
  }

  function Min(a: nat, b: nat): (m: nat) { if a < b then a else b }

  // ----- the operations on representatives are those on classes -----

  lemma HoldsEqual<T(!new)>(o: Order<T, T>, s: set<T>, x: T, y: T)
    requires Lawful(o) && o.same(x, y)
    ensures Holds(o, s, x) <==> Holds(o, s, y)
  {
  }

  lemma ChosenHolds<T(!new)>(o: Order<T, T>, a: set<T>, b: set<T>, wanted: bool)
    requires Lawful(o) && forall x :: o.key(x) == x
    ensures forall x :: Holds(o, Chosen(o, a, b, wanted), x) <==> Holds(o, a, x) && (Holds(o, b, x) <==> wanted)
  {
    forall x ensures Holds(o, Chosen(o, a, b, wanted), x) <==> Holds(o, a, x) && (Holds(o, b, x) <==> wanted) {
      if e :| e in a && Hit(o, x, e) {
        forall e | e in a && Hit(o, x, e) ensures Holds(o, b, x) <==> Holds(o, b, e) {
          HoldsEqual(o, b, x, e);
        }
      }
    }
  }

  lemma UnionHolds<T(!new)>(o: Order<T, T>, a: set<T>, b: set<T>)
    requires Lawful(o) && forall x :: o.key(x) == x
    ensures forall x :: Holds(o, Overlaid(o, a, b), x) <==> Holds(o, a, x) || Holds(o, b, x)
  {
    ChosenHolds(o, a, b, false);
    forall x ensures Holds(o, Overlaid(o, a, b), x) <==> Holds(o, a, x) || Holds(o, b, x) {
      assert Holds(o, Overlaid(o, a, b), x) <==> Holds(o, Chosen(o, a, b, false), x) || Holds(o, b, x);
    }
  }
}

/**
 The client's count of what it has enlisted in a transaction
 (corelib/OesKernel_impl.c, corelib/Oec_CountdownLatch.c) against the store's.
 */
module Enlistment {
  import opened Space
  import Rollback

  /** Oec_CountdownLatch: a count, and the sum of all that was ever added. */
  class Latch {
    var count: int
    var high: int

    constructor ()
      ensures count == 0 && high == 0
    {
      count, high := 0, 0;
    }

    /** `_update` */
    method Update(value: int) returns (r: int)
      modifies this
      ensures count == old(count) + value && r == count
      ensures high == old(high) + if value > 0 then value else 0
    {
      count := count + value;
      r := count;
      if value > 0 {
        high := high + value;
      }
    }
  }

  /** An operation on its way: asked for, or answered, `n` being how often its
      callback will count. */
  datatype Flight = AskedPut | AskedTake | Answered(n: nat)

  /** The client's side of one transaction: the two latches and what is under way. */
  datatype Client = Client(enlisted: int, high: int, flights: seq<Flight>)

  class Txn {
    const enlisted: Latch
    const counter: Latch
    var flights: seq<Flight>

    ghost predicate Valid()
      reads this, enlisted, counter
    {
      enlisted != counter
    }

    ghost function View(): (c: Client)
      reads this, enlisted, counter
    {
      Client(enlisted.count, counter.high, flights)
    }

    /** OesKernel_impl_begin */
    constructor ()
      ensures Valid() && fresh(enlisted) && fresh(counter) && View() == Client(0, 0, [])
    {
      var e := new Latch();
      var c := new Latch();
      enlisted, counter, flights := e, c, [];
    }

    /** OesKernel_impl_write within the transaction. */
    method Write()
      requires Valid()
      modifies this, enlisted
      ensures View() == Asks(old(View()), AskedPut)
    {
      var r := enlisted.Update(1);
      flights := flights + [AskedPut];
    }

    /** OesKernel_impl_take within the transaction. */
    method Take()
      requires Valid()
      modifies this, enlisted
      ensures View() == Asks(old(View()), AskedTake)
    {
      var r := enlisted.Update(1);
      flights := flights + [AskedTake];
    }

    /** `_oes_put_promise_cb`, which counts one even on an error, and
        `_oes_get_promise_cb`, which counts the results. */
    method Return(i: nat)
      requires Valid() && i < |flights| && flights[i].Answered?
      modifies this, enlisted, counter
      ensures Valid() && View() == Returns(old(View()), i)
    {
      var n := flights[i].n;
      var r := enlisted.Update(-1);
      for k := 0 to n
        invariant counter.high == old(counter.high) + k && enlisted.count == old(enlisted.count) - 1
        invariant flights == old(flights)
      {
        r := counter.Update(1);
      }
      flights := flights[..i] + flights[i + 1..];
    }

    /** The count `_oes_upt_txn` sends, -1 when there is none. */
    method Expected() returns (e: int)
      ensures e == ExpectedOf(View())
    {
      e := if counter.high > 0 then counter.high else -1;
    }
  }

  function Asks(c: Client, f: Flight): (r: Client) {
    c.(enlisted := c.enlisted + 1, flights := c.flights + [f])
  }

  function Returns(c: Client, i: nat): (r: Client)
    requires i < |c.flights| && c.flights[i].Answered?
  {
    Client(c.enlisted - 1, c.high + c.flights[i].n, c.flights[..i] + c.flights[i + 1..])
  }

  function ExpectedOf(c: Client): (e: int) { if c.high > 0 then c.high else -1 }

  // ----- client and store together -----

  /** `failed` counts the enlisted puts the store has refused. */
  datatype World = World(db: Db, client: Client, failed: nat)

  /** `Serve` is a put or take that succeeds in the store, `Fail` one that is
      refused or finds nothing; either leaves an answer, which `Return` delivers.
      `Other` is any store step on behalf of someone else. */
  datatype Move =
    | AskPut
    | AskTake
    | Serve(i: nat, e: Event)
    | Fail(i: nat)
    | Return(i: nat)
    | Other(e: Event)

  /** The store event is an enlisted put or take of `t`. */
  predicate Enlists(step: Step, t: Id) {
    (step.Put? && step.txn == t) || (step.Take? && step.owner == t)
  }

  predicate Finishes(step: Step, t: Id) {
    (step.Commit? || step.Rollback?) && step.tid == t
  }

  /** How many records the store enlists. */
  function EnlistedBy(step: Step): (n: nat) { if step.Take? then |step.lids| else 1 }

  predicate CanMove(w: World, t: Id, m: Move) {
    var flights := w.client.flights;
    match m
    case AskPut => true
    case AskTake => true
    case Serve(i, e) =>
      i < |flights| && Legal(w.db, e) && Enlists(e.step, t) &&
      flights[i] == if e.step.Put? then AskedPut else AskedTake
    case Fail(i) => i < |flights| && !flights[i].Answered?
    case Return(i) => i < |flights| && flights[i].Answered?
    case Other(e) => Legal(w.db, e) && !Enlists(e.step, t) && !Finishes(e.step, t)
  }

  function Moved(w: World, t: Id, m: Move): (r: World)
    requires CanMove(w, t, m)
  {
    var c := w.client;
    match m
    case AskPut => w.(client := Asks(c, AskedPut))
    case AskTake => w.(client := Asks(c, AskedTake))
    case Serve(i, e) =>
      w.(db := Apply(w.db, e), client := c.(flights := c.flights[i := Answered(EnlistedBy(e.step))]))
    case Fail(i) =>
      if c.flights[i].AskedPut?
      then w.(client := c.(flights := c.flights[i := Answered(1)]), failed := w.failed + 1)
      else w.(client := c.(flights := c.flights[i := Answered(0)]))
    case Return(i) => w.(client := Returns(c, i))
    case Other(e) => w.(db := Apply(w.db, e))
  }

  predicate CanRun(w: World, t: Id, moves: seq<Move>)
    decreases |moves|
  {
    moves == [] || (CanMove(w, t, moves[0]) && CanRun(Moved(w, t, moves[0]), t, moves[1..]))
  }

  function After(w: World, t: Id, moves: seq<Move>): (r: World)
    requires CanRun(w, t, moves)
    decreases |moves|
  {
    if moves == [] then w else After(Moved(w, t, moves[0]), t, moves[1..])
  }

  /** What the answers not yet delivered will add to the client's count. */
  function OnTheWay(flights: seq<Flight>): (n: nat) {
    if flights == [] then 0
    else (if flights[0].Answered? then flights[0].n else 0) + OnTheWay(flights[1..])
  }

  ghost predicate Agree(w: World, t: Id) {
    Inv(w.db) && t != 0 && w.client.enlisted == |w.client.flights| &&
    w.client.high + OnTheWay(w.client.flights) == |Owned(w.db.holders, t)| + w.failed
  }

  lemma {:induction false} OnTheWayAt(flights: seq<Flight>, i: nat)
    requires i < |flights|
    ensures OnTheWay(flights) ==
            OnTheWay(flights[..i] + flights[i + 1..]) + if flights[i].Answered? then flights[i].n else 0
    decreases i
  {
    if i == 0 {
      assert flights[..0] + flights[1..] == flights[1..];
    } else {
      var less := flights[..i] + flights[i + 1..];
      assert less[1..] == flights[1..][..i - 1] + flights[1..][i..];
      OnTheWayAt(flights[1..], i - 1);
    }
  }

  lemma OnTheWayUpdate(flights: seq<Flight>, i: nat, f: Flight)
    requires i < |flights| && !flights[i].Answered? && f.Answered?
    ensures OnTheWay(flights[i := f]) == OnTheWay(flights) + f.n
  {
    OnTheWayAt(flights, i);
    OnTheWayAt(flights[i := f], i);
    assert flights[i := f][..i] + flights[i := f][i + 1..] == flights[..i] + flights[i + 1..];
  }

  lemma {:induction false} OnTheWayAsked(flights: seq<Flight>, f: Flight)
    requires !f.Answered?
    ensures OnTheWay(flights + [f]) == OnTheWay(flights)
    decreases |flights|
  {
    if flights != [] {
      assert (flights + [f])[1..] == flights[1..] + [f];
      OnTheWayAsked(flights[1..], f);
    } else {
      assert (flights + [f])[1..] == [];
    }
  }

  function Ids(lids: seq<Id>): (r: set<Id>) { set l | l in lids }

  lemma {:induction false} DistinctCount(lids: seq<Id>)
    requires Distinct(lids)
    ensures |Ids(lids)| == |lids|
    decreases |lids|
  {
    if lids != [] {
      var rest := lids[1..];
      DistinctCount(rest);
      assert lids == [lids[0]] + rest;
      assert Ids(lids) == {lids[0]} + Ids(rest);
      assert lids[0] !in Ids(rest);
    }
  }

  // ----- what the store lists under `t`, step by step -----

  lemma OwnedAfterPut(hs: Holders, t: Id, l: Id, h: Holder)
    requires l !in hs
    ensures |Owned(hs[l := h], t)| == |Owned(hs, t)| + if h.txnId == t then 1 else 0
  {
    assert Owned(hs[l := h], t) == Owned(hs, t) + if h.txnId == t then {l} else {};
  }

  lemma OwnedAfterTake(hs: Holders, t: Id, owner: Id, lids: seq<Id>)
    requires t != 0 && Rollback.AllFree(hs, lids) && Distinct(lids)
    ensures |Owned(TakeFrom(hs, owner, lids), t)| == |Owned(hs, t)| + if owner == t then |lids| else 0
  {
    var more := Ids(lids);
    DistinctCount(lids);
    forall l | l in lids ensures l in hs && hs[l].txnId == 0 {}
    assert more !! Owned(hs, t);
    assert Owned(TakeFrom(hs, owner, lids), t) == Owned(hs, t) + if owner == t then more else {};
  }

  lemma OwnedAfterFinish(hs: Holders, t: Id, other: Id, del: Lock, clear: Lock)
    requires t != 0 && other != t
    ensures Owned(Finish(hs, other, del, clear), t) == Owned(hs, t)
  {
  }

  /** What the store lists under `t` grows by exactly what an event enlists. */
  lemma OwnedGrows(s: Db, e: Event, t: Id)
    requires Inv(s) && Legal(s, e) && t != 0 && !Finishes(e.step, t)
    ensures |Owned(Apply(s, e).holders, t)| ==
            |Owned(s.holders, t)| + if Enlists(e.step, t) then EnlistedBy(e.step) else 0
  {
    var hs, us := s.holders, Apply(s, e).holders;
    match e.step
    case Put(l, _, _, _, _) =>
      assert l !in hs by { assert l in hs ==> HolderOk(s, l); }
      OwnedAfterPut(hs, t, l, us[l]);
    case Take(owner, lids) =>
      Rollback.TakenAreFree(s, e.now, lids);
      OwnedAfterTake(hs, t, owner, lids);
    case Commit(other, _) => OwnedAfterFinish(hs, t, other, TakeLock, WriteLock);
    case Rollback(other) => OwnedAfterFinish(hs, t, other, WriteLock, TakeLock);
    case _ => assert Owned(us, t) == Owned(hs, t);
  }

  lemma AgreeKept(w: World, t: Id, m: Move)
    requires Agree(w, t) && CanMove(w, t, m)
    ensures Agree(Moved(w, t, m), t)
  {
    var flights := w.client.flights;
    match m
    case AskPut => OnTheWayAsked(flights, AskedPut);
    case AskTake => OnTheWayAsked(flights, AskedTake);
    case Serve(i, e) =>
      InvHolds(w.db, e);
      OwnedGrows(w.db, e, t);
      OnTheWayUpdate(flights, i, Answered(EnlistedBy(e.step)));
    case Fail(i) => OnTheWayUpdate(flights, i, Answered(if flights[i].AskedPut? then 1 else 0));
    case Return(i) => OnTheWayAt(flights, i);
    case Other(e) =>
      InvHolds(w.db, e);
      OwnedGrows(w.db, e, t);
  }

  lemma {:induction false} AgreeRun(w: World, t: Id, moves: seq<Move>)
    requires Agree(w, t) && CanRun(w, t, moves)
    ensures Agree(After(w, t, moves), t)
    decreases |moves|
  {
    if moves != [] {
      AgreeKept(w, t, moves[0]);
      AgreeRun(Moved(w, t, moves[0]), t, moves[1..]);
    }
  }

  // The run of a put that the store refuses.
  const RefusedPut: seq<Move> := [AskPut, Fail(0), Return(0)]

  /** After it no commit of the transaction passes the count check: the client counts
      one, the store lists none. */
  lemma RefusedPutSpoilsCommit(s: Db, t: Id, now: Time)
    requires Inv(s) && t != 0 && Owned(s.holders, t) == {}
    ensures var w := World(s, Client(0, 0, []), 0);
            CanRun(w, t, RefusedPut) &&
            var v := After(w, t, RefusedPut);
            v.db == s && v.client == Client(0, 1, []) &&
            !Legal(v.db, Event(now, Commit(t, ExpectedOf(v.client))))
  {
    var w := World(s, Client(0, 0, []), 0);
    var w1 := Moved(w, t, AskPut);
    var w2 := Moved(w1, t, Fail(0));
    var w3 := Moved(w2, t, Return(0));
    assert RefusedPut[1..] == [Fail(0), Return(0)] && RefusedPut[1..][1..] == [Return(0)];
    assert CanRun(w2, t, [Return(0)]) && After(w2, t, [Return(0)]) == w3;
    assert CanRun(w1, t, RefusedPut[1..]) && After(w1, t, RefusedPut[1..]) == w3;
  }

  /** Such a transaction exists. */
  lemma RefusedPutExample()
    ensures var start := Event(0, Start(1, FOREVER));
            Legal(EMPTY, start) && var s := Apply(EMPTY, start);
            Inv(s) && Owned(s.holders, 1) == {} && Committable(s, 1, 0) &&
            !Legal(After(World(s, Client(0, 0, []), 0), 1, RefusedPut).db, Event(0, Commit(1, 1)))
  {
    var s := Apply(EMPTY, Event(0, Start(1, FOREVER)));
    RefusedPutSpoilsCommit(s, 1, 0);
  }

  /** Everything a commit of `t` needs besides the right count. */
  predicate Committable(s: Db, t: Id, now: Time) {
    s.clock <= now && Updatable(s.txns, t, now) && CanClear(s.holders, t, WriteLock)
  }

  /** Client and store agree: however operations, answers and other clients'
      steps interleave, once nothing is under way the client's mark exceeds what
      the store lists by the puts that were refused; so the commit's count check
      passes exactly when every enlisted put succeeded. */
  lemma CountCheckIsExact(w: World, t: Id, moves: seq<Move>, now: Time)
    requires Inv(w.db) && t != 0 && Owned(w.db.holders, t) == {} && w.client == Client(0, 0, []) && w.failed == 0
    requires CanRun(w, t, moves) && After(w, t, moves).client.enlisted == 0
    ensures var v := After(w, t, moves);
            v.client.high == |Owned(v.db.holders, t)| + v.failed &&
            (Committable(v.db, t, now) ==>
               (Legal(v.db, Event(now, Commit(t, ExpectedOf(v.client)))) <==> v.failed == 0))
  {
    assert OnTheWay([]) == 0;
    AgreeRun(w, t, moves);
  }
}

/**
 The tuple space as a state machine of its state-changing steps: the holder
 and transaction databases of corelib/OeBdb.c, with Berkeley DB reduced to
 atomic steps.  Calls that read, fail or must be retried change nothing and are
 not steps; a call that draws an id and then fails is `DrawId`.
 */
module Space {

  /** oe_id; 0 stands for "no transaction". */
  type Id = nat

  /** oe_time in milliseconds, signed to leave room for FOREVER. */
  type Time = int

  const FOREVER: Time := -1

  const WILDCARD := "_"

  datatype Lock = Unlocked | WriteLock | TakeLock

  datatype Status = Committed | RolledBack | Active

  datatype DataObject = DataObject(attrs: seq<string>, bytes: seq<bv8>)

  datatype Holder = Holder(lock: Lock, isTuple: bool, leaseId: Id, txnId: Id, expire: Time, data: DataObject)

  datatype Txn = Txn(status: Status, expire: Time, begin: Time, end: Time)

  type Holders = map<Id, Holder>

  /** `used` is the set of ids the sequence has handed out so far. */
  datatype Db = Db(holders: Holders, txns: map<Id, Txn>, used: set<Id>, clock: Time)

  datatype Step =
    | DrawId(id: Id)
    | Start(tid: Id, dur: Time)
    | Put(lid: Id, txn: Id, expire: Time, isTuple: bool, data: DataObject)
    | Take(owner: Id, lids: seq<Id>)
    | Lease(lid: Id, expire: Time)
    | Extend(tid: Id, dur: Time)
    | Commit(tid: Id, expected: int)
    | Rollback(tid: Id)
    | Reap(victims: set<Id>)

  datatype Event = Event(now: Time, step: Step)

  type Run = seq<Event>

  // ----- guards -----

  /** The attribute callback accepts the record: some non-wildcard tuple field,
      or a non-empty list of map pairs. */
  predicate Indexable(isTuple: bool, attrs: seq<string>) {
    if isTuple then exists i :: 0 <= i < |attrs| && attrs[i] != WILDCARD
    else |attrs| > 0 && |attrs| % 2 == 0
  }

  /** OeStoreHolder_skip's first test. */
  predicate LeaseOver(h: Holder, now: Time) {
    h.expire != FOREVER && h.expire <= now
  }

  /** OeStoreHolder_skip returns OESTORE_DO_NOT_SKIP. */
  predicate Visible(h: Holder, now: Time) {
    !LeaseOver(h, now) && h.lock == Unlocked
  }

  /** An expiry that has passed: the strict test of lease and transaction updates. */
  predicate Expired(expire: Time, now: Time) {
    expire != FOREVER && expire < now
  }

  predicate IsActive(txns: map<Id, Txn>, t: Id) {
    t in txns && txns[t].status == Active
  }

  predicate Updatable(txns: map<Id, Txn>, t: Id, now: Time) {
    IsActive(txns, t) && !Expired(txns[t].expire, now)
  }

  predicate Distinct(s: seq<Id>) {
    forall i, j :: 0 <= i < j < |s| ==> s[i] != s[j]
  }

  function Owned(hs: Holders, t: Id): (r: set<Id>) {
    set l | l in hs && hs[l].txnId == t
  }

  function Locked(hs: Holders, t: Id, lock: Lock): (r: set<Id>) {
    set l | l in hs && hs[l].txnId == t && hs[l].lock == lock
  }

  /** No record that finishing `t` would unlock is refused by the attribute callback. */
  predicate CanClear(hs: Holders, t: Id, clear: Lock) {
    forall l :: l in hs && hs[l].txnId == t && hs[l].lock == clear ==> Indexable(hs[l].isTuple, hs[l].data.attrs)
  }

  predicate Legal(s: Db, e: Event) {
    s.clock <= e.now &&
    match e.step
    case DrawId(id) => id != 0 && id !in s.used
    case Start(t, dur) => t != 0 && t !in s.used
    case Put(l, t, expire, isTuple, data) =>
      l != 0 && l !in s.used &&
      (if t == 0 then Indexable(isTuple, data.attrs) else IsActive(s.txns, t))
    case Take(owner, lids) =>
      (owner != 0 ==> IsActive(s.txns, owner)) && Distinct(lids) &&
      forall i :: 0 <= i < |lids| ==> lids[i] in s.holders && Visible(s.holders[lids[i]], e.now)
    case Lease(l, expire) => l in s.holders && !Expired(s.holders[l].expire, e.now)
    case Extend(t, dur) => Updatable(s.txns, t, e.now)
    case Commit(t, expected) =>
      Updatable(s.txns, t, e.now) && CanClear(s.holders, t, WriteLock) &&
      (expected == -1 || expected == |Owned(s.holders, t)|)
    case Rollback(t) => Updatable(s.txns, t, e.now) && CanClear(s.holders, t, TakeLock)
    case Reap(victims) =>
      forall l :: l in victims ==> l in s.holders && s.holders[l].txnId == 0 && LeaseOver(s.holders[l], e.now)
  }

  // ----- effects -----

  function Until(now: Time, dur: Time): (r: Time) {
    if dur == FOREVER then FOREVER else now + dur
  }

  function Released(h: Holder): (r: Holder) {
    h.(lock := Unlocked, txnId := 0)
  }

  /** The records after `_finish_oetxn`: those of `t` under lock `del` go, those
      under lock `clear` are released. */
  function Finish(hs: Holders, t: Id, del: Lock, clear: Lock): (r: Holders) {
    map l | l in hs && !(hs[l].txnId == t && hs[l].lock == del) ::
      if hs[l].txnId == t && hs[l].lock == clear then Released(hs[l]) else hs[l]
  }

  function TakeFrom(hs: Holders, owner: Id, lids: seq<Id>): (r: Holders) {
    if owner == 0 then map l | l in hs && l !in lids :: hs[l]
    else map l | l in hs :: if l in lids then hs[l].(lock := TakeLock, txnId := owner) else hs[l]
  }

  function Apply(s: Db, e: Event): (r: Db)
    requires Legal(s, e)
  {
    var s := s.(clock := e.now);
    match e.step
    case DrawId(id) => s.(used := s.used + {id})
    case Start(t, dur) =>
      s.(used := s.used + {t}, txns := s.txns[t := Txn(Active, Until(e.now, dur), e.now, 0)])
    case Put(l, t, expire, isTuple, data) =>
      var lock := if t == 0 then Unlocked else WriteLock;
      s.(used := s.used + {l}, holders := s.holders[l := Holder(lock, isTuple, l, t, expire, data)])
    case Take(owner, lids) => s.(holders := TakeFrom(s.holders, owner, lids))
    case Lease(l, expire) => s.(holders := s.holders[l := s.holders[l].(expire := expire)])
    case Extend(t, dur) =>
      if dur > 0 then s.(txns := s.txns[t := s.txns[t].(expire := e.now + dur)]) else s
    case Commit(t, _) =>
      s.(holders := Finish(s.holders, t, TakeLock, WriteLock),
         txns := s.txns[t := s.txns[t].(status := Committed, end := e.now, expire := e.now)])
    case Rollback(t) =>
      s.(holders := Finish(s.holders, t, WriteLock, TakeLock),
         txns := s.txns[t := s.txns[t].(status := RolledBack, end := e.now, expire := e.now)])
    case Reap(victims) => s.(holders := map l | l in s.holders && l !in victims :: s.holders[l])
  }

  // ----- invariant -----

  ghost predicate HolderOk(s: Db, l: Id)
    requires l in s.holders
  {
    var h := s.holders[l];
    h.leaseId == l && l in s.used &&
    (h.lock == Unlocked <==> h.txnId == 0) &&
    (h.txnId != 0 ==> IsActive(s.txns, h.txnId)) &&
    (h.lock != WriteLock ==> Indexable(h.isTuple, h.data.attrs))
  }

  /** A record is unlocked exactly when unowned, an owner is an active
      transaction, and every record not under a write lock can be indexed. */
  ghost predicate Inv(s: Db) {
    0 !in s.used && s.txns.Keys <= s.used && forall l :: l in s.holders ==> HolderOk(s, l)
  }

  const EMPTY := Db(map[], map[], {}, 0)

  lemma InvHolds(s: Db, e: Event)
    requires Inv(s) && Legal(s, e)
    ensures Inv(Apply(s, e))
  {
    var r := Apply(s, e);
    forall l | l in r.holders ensures HolderOk(r, l) {
      assert l in s.holders ==> HolderOk(s, l);
    }
  }

  /** `_finish_oetxn`'s panic branch needs a record of `t` under neither lock. */
  lemma NoPanic(s: Db, t: Id, l: Id)
    requires Inv(s) && t != 0 && l in Owned(s.holders, t)
    ensures s.holders[l].lock == WriteLock || s.holders[l].lock == TakeLock
    ensures IsActive(s.txns, t)
  {
    assert HolderOk(s, l);
  }

  // ----- runs -----

  predicate LegalRun(s: Db, run: Run)
    decreases |run|
  {
    run == [] || (Legal(s, run[0]) && LegalRun(Apply(s, run[0]), run[1..]))
  }

  function End(s: Db, run: Run): (r: Db)
    requires LegalRun(s, run)
    decreases |run|
  {
    if run == [] then s else End(Apply(s, run[0]), run[1..])
  }

  lemma {:induction false} InvRun(s: Db, run: Run)
    requires Inv(s) && LegalRun(s, run)
    ensures Inv(End(s, run))
    decreases |run|
  {
    if run != [] {
      InvHolds(s, run[0]);
      InvRun(Apply(s, run[0]), run[1..]);
    }
  }

  lemma {:induction false} RunConcat(s: Db, a: Run, b: Run)
    requires LegalRun(s, a)
    ensures LegalRun(s, a + b) <==> LegalRun(End(s, a), b)
    ensures LegalRun(s, a + b) ==> End(s, a + b) == End(End(s, a), b)
    decreases |a|
  {
    if a == [] {
      assert a + b == b;
    } else {
      assert (a + b)[1..] == a[1..] + b;
      RunConcat(Apply(s, a[0]), a[1..], b);
    }
  }

  lemma {:induction false} RunPrefix(s: Db, a: Run, b: Run)
    requires LegalRun(s, a + b)
    ensures LegalRun(s, a)
    decreases |a|
  {
    if a != [] {
      assert (a + b)[1..] == a[1..] + b && (a + b)[0] == a[0];
      RunPrefix(Apply(s, a[0]), a[1..], b);
    }
  }
}

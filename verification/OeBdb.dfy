/**
 The store over Berkeley DB: records, transactions and the three secondary
 indexes that the associate callbacks keep.  Each method is one database
 transaction; `deadlock` stands for the library's decision to abort it.
 */
module OeBdb {
  import opened Space
  import opened PropIndex
  import opened History

  datatype Rc =
    | Ok | NotFound | PleaseRetry | Failed | InactiveTxn | MissingAttrs | AttrsNotPaired
    | UpdatingExpiredTxn | UpdatingRolledBackTxn | UpdatingCommittedTxn | EnlistedCountIncorrect

  /** The attribute callback refuses the record. */
  predicate IsRefusal(rc: Rc) { rc == Failed || rc == MissingAttrs || rc == AttrsNotPaired }

  // ----- what the indexes hold -----

  function PropKeys(h: Holder): (r: set<string>) {
    if h.txnId != 0 then {} else RecordKeys(h.isTuple, h.data.attrs)
  }

  ghost predicate PropOk(idx: set<(string, Id)>, hs: Holders) {
    forall k, l :: (k, l) in idx <==> l in hs && k in PropKeys(hs[l])
  }

  ghost predicate OwnerOk(idx: set<(Id, Id)>, hs: Holders) {
    forall t, l :: (t, l) in idx <==> l in hs && t != 0 && hs[l].txnId == t
  }

  ghost predicate ExpireOk(idx: set<(Time, Id)>, hs: Holders) {
    forall x, l :: (x, l) in idx <==> l in hs && hs[l].txnId == 0 && x != FOREVER && hs[l].expire == x
  }

  /** The index entries of one more record. */
  lemma Indexed(props: set<(string, Id)>, owners: set<(Id, Id)>, expiries: set<(Time, Id)>, hs: Holders, l: Id,
                h: Holder)
    requires PropOk(props, hs - {l}) && OwnerOk(owners, hs - {l}) && ExpireOk(expiries, hs - {l})
    ensures PropOk(props + set k | k in PropKeys(h) :: (k, l), hs[l := h])
    ensures OwnerOk(if h.txnId != 0 then owners + {(h.txnId, l)} else owners, hs[l := h])
    ensures ExpireOk(if h.txnId == 0 && h.expire != FOREVER then expiries + {(h.expire, l)} else expiries, hs[l := h])
  {
    hide PropKeys;
  }

  /** Some record of `t` is under neither lock. */
  predicate Panics(hs: Holders, t: Id, del: Lock, clear: Lock) {
    exists l :: l in Owned(hs, t) && hs[l].lock != del && hs[l].lock != clear
  }

  /** One event for each of `lids`, carrying the record's data. */
  ghost predicate OneEventEach(events: seq<DataObject>, hs: Holders, lids: set<Id>) {
    exists order: seq<Id> :: IsListing(order, lids) && |order| == |events| &&
      forall i :: 0 <= i < |order| ==> order[i] in hs && hs[order[i]].data == events[i]
  }

  ghost predicate IsListing(order: seq<Id>, lids: set<Id>) {
    Distinct(order) && forall l :: l in order <==> l in lids
  }

  /** The record carries every key the query looks up. */
  predicate HasKeys(isTuple: bool, t: seq<string>, h: Holder) {
    TemplateKeys(isTuple, t) <= RecordKeys(h.isTuple, h.data.attrs)
  }

  /** `_get_one` accepts the template. */
  predicate TemplateOk(isTuple: bool, t: seq<string>) {
    if isTuple then exists i :: 0 <= i < |t| && t[i] != WILDCARD
    else |t| > 0 && |t| % 2 == 0
  }

  /** The parameters and the result list of one get. */
  class Query {
    const take: bool
    const isTuple: bool
    const owner: Id
    const templates: seq<seq<string>>
    const max: nat
    var exists': bool
    var results: seq<Holder>
    /** Which template each result was found by. */
    ghost var foundBy: seq<nat>

    constructor (take: bool, isTuple: bool, owner: Id, templates: seq<seq<string>>, max: nat)
      ensures results == [] && foundBy == [] && !exists'
      ensures this.take == take && this.isTuple == isTuple && this.owner == owner
      ensures this.templates == templates && this.max == max
    {
      this.take, this.isTuple, this.owner, this.templates, this.max := take, isTuple, owner, templates, max;
      results, foundBy, exists' := [], [], false;
    }

    function Params(): (p: Params) { GetParams(take, isTuple, owner, templates, max) }

    method AddStoreHolder(h: Holder, ghost template: nat)
      modifies this
      ensures results == old(results) + [h] && foundBy == old(foundBy) + [template] && exists' == old(exists')
    {
      results, foundBy := results + [h], foundBy + [template];
    }

    method ResetNItemsFound()
      modifies this
      ensures results == [] && foundBy == [] && exists' == old(exists')
    {
      results, foundBy := [], [];
    }
  }

  class Store {
    var holderDb: Holders
    var txnDb: map<Id, Txn>
    var propIdx: set<(string, Id)>
    var ownerIdx: set<(Id, Id)>
    var expireIdx: set<(Time, Id)>
    var nextId: Id
    /** The data handed to the write-event callback so far. */
    var fired: seq<DataObject>
    ghost var clock: Time
    ghost var drawn: set<Id>

    ghost predicate IndexesOk()
      reads this
    {
      PropOk(propIdx, holderDb) && OwnerOk(ownerIdx, holderDb) && ExpireOk(expireIdx, holderDb)
    }

    ghost function View(): (s: Db)
      reads this
    {
      Db(holderDb, txnDb, drawn, clock)
    }

    ghost predicate Valid()
      reads this
    {
      IndexesOk() && Inv(View()) && nextId > 0 && forall i :: i in drawn ==> i < nextId
    }

    constructor ()
      ensures Valid() && View() == EMPTY && fired == []
    {
      holderDb, txnDb, propIdx, ownerIdx, expireIdx := map[], map[], {}, {}, {};
      nextId, fired, clock, drawn := 1001, [], 0, {};
    }

    // ----- records and their secondary keys -----

    /** `_set_tuple_props` */
    static method TupleProps(attrs: seq<string>) returns (rc: Rc, keys: set<string>)
      ensures keys == RecordKeys(true, attrs)
      ensures rc == (if Indexable(true, attrs) then Ok else Failed)
    {
      hide TupleKey;
      keys := {};
      var n := 0;
      for pos := 0 to |attrs|
        invariant keys == set i | 0 <= i < pos && attrs[i] != WILDCARD :: TupleKey(attrs[i], i, |attrs|)
        invariant n > 0 <==> exists i :: 0 <= i < pos && attrs[i] != WILDCARD
        invariant n >= 0
      {
        if attrs[pos] != WILDCARD {
          keys := keys + {TupleKey(attrs[pos], pos, |attrs|)};
          n := n + 1;
        }
      }
      rc := if n <= 0 then Failed else Ok;
    }

    /** `_set_map_props` */
    static method MapProps(attrs: seq<string>) returns (rc: Rc, keys: set<string>)
      ensures rc == Ok <==> Indexable(false, attrs)
      ensures rc == if |attrs| == 0 then MissingAttrs else if |attrs| % 2 == 1 then AttrsNotPaired else Ok
      ensures rc == Ok ==> keys == RecordKeys(false, attrs)
    {
      keys := {};
      if |attrs| == 0 { return MissingAttrs, keys; }
      if |attrs| % 2 != 0 { return AttrsNotPaired, keys; }
      rc := Ok;
      var p := 0;
      while p < |attrs| / 2
        invariant 0 <= p <= |attrs| / 2
        invariant keys == set i | 0 <= i < p && attrs[2*i] != WILDCARD && attrs[2*i+1] != WILDCARD ::
                            MapKey(attrs[2*i], attrs[2*i+1])
      {
        if attrs[2*p] != WILDCARD && attrs[2*p+1] != WILDCARD {
          keys := keys + {MapKey(attrs[2*p], attrs[2*p+1])};
        }
        p := p + 1;
      }
    }

    /** `_set_props` */
    static method SetProps(h: Holder) returns (rc: Rc, keys: set<string>)
      ensures rc == Ok <==> h.txnId != 0 || Indexable(h.isTuple, h.data.attrs)
      ensures rc != Ok ==> IsRefusal(rc)
      ensures rc == Ok ==> keys == PropKeys(h)
    {
      if h.txnId != 0 { return Ok, {}; }
      if h.isTuple {
        rc, keys := TupleProps(h.data.attrs);
      } else {
        rc, keys := MapProps(h.data.attrs);
      }
    }

    method Unindex(l: Id)
      requires l in holderDb && IndexesOk()
      modifies this`propIdx, this`ownerIdx, this`expireIdx
      ensures PropOk(propIdx, holderDb - {l}) && OwnerOk(ownerIdx, holderDb - {l})
      ensures ExpireOk(expireIdx, holderDb - {l})
    {
      var h := holderDb[l];
      propIdx := propIdx - set k | k in PropKeys(h) :: (k, l);
      ownerIdx := ownerIdx - {(h.txnId, l)};
      expireIdx := expireIdx - {(h.expire, l)};
    }

    /** `holder_db->put` with its associated indexes. */
    method PutHolder(l: Id, h: Holder) returns (rc: Rc)
      requires IndexesOk()
      modifies this`holderDb, this`propIdx, this`ownerIdx, this`expireIdx
      ensures IndexesOk()
      ensures rc == Ok <==> h.txnId != 0 || Indexable(h.isTuple, h.data.attrs)
      ensures rc != Ok ==> IsRefusal(rc)
      ensures holderDb == if rc == Ok then old(holderDb)[l := h] else old(holderDb)
    {
      hide PropKeys, RecordKeys, Indexable;
      var keys;
      rc, keys := SetProps(h);
      if rc != Ok { return; }
      if l in holderDb {
        Unindex(l);
      }
      assert PropOk(propIdx, holderDb - {l}) && OwnerOk(ownerIdx, holderDb - {l}) &&
             ExpireOk(expireIdx, holderDb - {l}) by {
        if l !in holderDb { assert holderDb - {l} == holderDb; }
      }
      Indexed(propIdx, ownerIdx, expireIdx, holderDb, l, h);
      hide PropOk, OwnerOk, ExpireOk;
      holderDb := holderDb[l := h];
      propIdx := propIdx + set k | k in keys :: (k, l);
      if h.txnId != 0 {
        ownerIdx := ownerIdx + {(h.txnId, l)};
      } else if h.expire != FOREVER {
        expireIdx := expireIdx + {(h.expire, l)};
      }
    }

    /** `holder_db->del` */
    method DelHolder(l: Id)
      requires l in holderDb && IndexesOk()
      modifies this`holderDb, this`propIdx, this`ownerIdx, this`expireIdx
      ensures IndexesOk() && holderDb == old(holderDb) - {l}
    {
      Unindex(l);
      holderDb := holderDb - {l};
    }

    /** `_create_id` */
    method CreateId() returns (id: Id)
      requires nextId > 0 && forall i :: i in drawn ==> i < nextId
      modifies this`nextId, this`drawn
      ensures id != 0 && id !in old(drawn) && drawn == old(drawn) + {id}
      ensures nextId > 0 && forall i :: i in drawn ==> i < nextId
    {
      id := nextId;
      nextId, drawn := nextId + 1, drawn + {id};
    }

    // ----- put and lease -----

    /** `_sput` chooses lock and expiry, `_api_put` stores the record. */
    method Put(txnId: Id, dur: Time, isTuple: bool, data: DataObject, now: Time, deadlock: bool)
      returns (rc: Rc, lid: Id, ghost e: Event)
      requires Valid() && clock <= now
      modifies this
      ensures Valid()
      ensures rc == Ok <==>
              !deadlock && if txnId == 0 then Indexable(isTuple, data.attrs) else IsActive(old(txnDb), txnId)
      ensures e == Event(now, if rc == Ok then Step.Put(lid, txnId, Until(now, dur), isTuple, data) else DrawId(lid))
      ensures Legal(old(View()), e) && View() == Apply(old(View()), e)
      ensures var active := txnId in old(txnDb) && old(txnDb)[txnId].status == Active;
              if txnId != 0 && !active then rc == InactiveTxn
              else if deadlock then rc == PleaseRetry
              else rc == Ok || (txnId == 0 && IsRefusal(rc))
      ensures lid !in old(holderDb) && (rc != Ok ==> holderDb == old(holderDb))
      ensures rc == Ok ==> holderDb == old(holderDb)[lid := Holder(if txnId == 0 then Unlocked else WriteLock, isTuple,
                                         lid, txnId, if dur == -1 then -1 else now + dur, data)]
      ensures old(fired) <= fired && OneEventEach(fired[|old(fired)|..], holderDb, BecomeFree(old(View()), View()))
    {
      var lock := if txnId == 0 then Unlocked else WriteLock;
      lid := CreateId();
      var h := Holder(lock, isTuple, lid, txnId, Until(now, dur), data);
      clock := now;
      rc := TryPut(h, deadlock);
      e := Event(now, if rc == Ok then Step.Put(lid, txnId, Until(now, dur), isTuple, data) else DrawId(lid));
      InvHolds(old(View()), e);
      WakeUpsAreExact(old(View()), e);
      assert lid in old(holderDb) ==> HolderOk(old(View()), lid);
      ghost var order := if rc == Ok && txnId == 0 then [lid] else [];
      assert IsListing(order, Fires(old(View()), e));
      if rc == Ok && txnId == 0 {
        fired := fired + [data];
      }
    }

    /** `_try_put`, up to the commit. */
    method TryPut(h: Holder, deadlock: bool) returns (rc: Rc)
      requires IndexesOk()
      modifies this`holderDb, this`propIdx, this`ownerIdx, this`expireIdx
      ensures IndexesOk()
      ensures rc == Ok <==>
              !deadlock && if h.txnId == 0 then Indexable(h.isTuple, h.data.attrs) else IsActive(txnDb, h.txnId)
      ensures if h.txnId != 0 && !IsActive(txnDb, h.txnId) then rc == InactiveTxn
              else if deadlock then rc == PleaseRetry
              else rc == Ok || (h.txnId == 0 && IsRefusal(rc))
      ensures holderDb == if rc == Ok then old(holderDb)[h.leaseId := h] else old(holderDb)
    {
      if h.txnId != 0 && !IsActive(txnDb, h.txnId) { return InactiveTxn; }
      if deadlock { return PleaseRetry; }
      rc := PutHolder(h.leaseId, h);
    }

    /** `_update_lease` */
    method UpdateLease(l: Id, expire: Time, now: Time, deadlock: bool) returns (rc: Rc)
      requires Valid() && clock <= now
      modifies this
      ensures Valid() && fired == old(fired)
      ensures rc == if deadlock then PleaseRetry
                    else if l !in old(holderDb) then NotFound
                    else if old(holderDb)[l].expire == -1 || now <= old(holderDb)[l].expire then Ok
                    else Failed
      ensures rc == Ok ==> holderDb == old(holderDb)[l := old(holderDb)[l].(expire := expire)]
      ensures rc == Ok ==> var e := Event(now, Lease(l, expire));
              Legal(old(View()), e) && View() == Apply(old(View()), e) && BecomeFree(old(View()), View()) == {}
      ensures rc != Ok ==> View() == old(View()).(clock := now)
    {
      clock := now;
      if deadlock { return PleaseRetry; }
      if l !in holderDb { return NotFound; }
      var h := holderDb[l];
      if Expired(h.expire, now) { return Failed; }
      assert old(HolderOk(View(), l));
      rc := PutHolder(l, h.(expire := expire));
      ghost var e := Event(now, Lease(l, expire));
      InvHolds(old(View()), e);
      WakeUpsAreExact(old(View()), e);
    }

    // ----- transactions -----

    /** `_start_txn` */
    method StartTxn(dur: Time, now: Time, deadlock: bool) returns (rc: Rc, tid: Id, ghost e: Event)
      requires Valid() && clock <= now
      modifies this
      ensures Valid() && fired == old(fired)
      ensures rc == (if deadlock then PleaseRetry else Ok)
      ensures tid !in old(txnDb)
      ensures rc == Ok ==> txnDb == old(txnDb)[tid := Txn(Active, if dur == -1 then -1 else now + dur, now, 0)]
      ensures e == Event(now, if rc == Ok then Start(tid, dur) else DrawId(tid))
      ensures Legal(old(View()), e) && View() == Apply(old(View()), e) && BecomeFree(old(View()), View()) == {}
    {
      tid := CreateId();
      clock := now;
      rc := PleaseRetry;
      e := Event(now, DrawId(tid));
      if !deadlock {
        txnDb := txnDb[tid := Txn(Active, Until(now, dur), now, 0)];
        rc, e := Ok, Event(now, Start(tid, dur));
      }
      InvHolds(old(View()), e);
      WakeUpsAreExact(old(View()), e);
    }

    /** `_finish_oetxn`'s walk over the owner index. */
    method FinishRecords(t: Id, del: Lock, clear: Lock) returns (rc: Rc, updated: nat, unlocked: seq<DataObject>)
      requires IndexesOk() && t != 0 && del != clear
      modifies this`holderDb, this`propIdx, this`ownerIdx, this`expireIdx
      ensures IndexesOk()
      ensures rc == Ok ==> updated == |Owned(old(holderDb), t)| && CanClear(old(holderDb), t, clear)
      ensures rc == Ok ==> holderDb == Finish(old(holderDb), t, del, clear)
      ensures rc == Ok ==> OneEventEach(unlocked, holderDb, Locked(old(holderDb), t, clear))
      ensures rc != Ok ==> IsRefusal(rc) && (!CanClear(old(holderDb), t, clear) || Panics(old(holderDb), t, del, clear))
    {
      hide PropOk, ExpireOk, OwnerOk, PartFinished, Unlocks, OneEventEach, Finish, Indexable;
      ghost var hs := holderDb;
      PartStart(hs, t, del, clear, Owned(hs, t));
      rc, updated, unlocked := Ok, 0, [];
      var todo := set e | e in ownerIdx && e.0 == t :: e.1;
      OwnerIndexLists(ownerIdx, hs, t, todo);
      ghost var order: seq<Id> := [];
      UnlocksNone(hs, t, clear);
      while todo != {}
        invariant rc == Ok && IndexesOk() && todo <= Owned(hs, t) && updated + |todo| == |Owned(hs, t)|
        invariant PartFinished(hs, holderDb, t, del, clear, todo)
        invariant Unlocks(hs, t, clear, todo, order, unlocked)
        decreases todo
      {
        var l :| l in todo;
        PartAt(hs, holderDb, t, del, clear, todo, l);
        var h := holderDb[l];
        updated := updated + 1;
        if h.lock == del {
          DelHolder(l);
          UnlocksOther(hs, t, clear, todo, order, unlocked, l);
        } else if h.lock == clear {
          rc := PutHolder(l, Released(h));
          if rc != Ok { return; }
          UnlocksOne(hs, t, clear, todo, order, unlocked, l);
          unlocked, order := unlocked + [h.data], order + [l];
        } else {
          rc := Failed;
          return;
        }
        todo := todo - {l};
      }
      PartEnd(hs, holderDb, t, del, clear);
      UnlocksEnd(hs, holderDb, t, del, clear, order, unlocked);
    }

    /** `_finish_oetxn`, undone by the library when it fails. */
    method FinishTxn(t: Id, status: Status, expected: int) returns (rc: Rc, unlocked: seq<DataObject>)
      requires IndexesOk() && t != 0 && status != Active
      requires !Panics(holderDb, t, TakeLock, WriteLock)
      modifies this`holderDb, this`propIdx, this`ownerIdx, this`expireIdx
      ensures IndexesOk()
      ensures rc == Ok <==> CanFinish(old(holderDb), t, status, expected)
      ensures rc == Ok ==> holderDb == Finish(old(holderDb), t, Deletes(status), Clears(status))
      ensures rc == Ok ==> OneEventEach(unlocked, holderDb, Locked(old(holderDb), t, Clears(status)))
      ensures rc != Ok ==> holderDb == old(holderDb) && (IsRefusal(rc) || rc == EnlistedCountIncorrect)
      ensures rc == EnlistedCountIncorrect ==> CanClear(old(holderDb), t, Clears(status))
      ensures IsRefusal(rc) ==> !CanClear(old(holderDb), t, Clears(status))
    {
      var saved := (holderDb, propIdx, ownerIdx, expireIdx);
      var updated;
      rc, updated, unlocked := FinishRecords(t, Deletes(status), Clears(status));
      if rc == Ok && status == Committed && expected != -1 && updated != expected {
        rc := EnlistedCountIncorrect;
      }
      if rc != Ok {
        holderDb, propIdx, ownerIdx, expireIdx := saved.0, saved.1, saved.2, saved.3;
      }
    }

    /** `_update_txn` */
    method UpdateTxn(t: Id, dur: Time, status: Status, expected: int, now: Time, deadlock: bool)
      returns (rc: Rc, ghost e: Event)
      requires Valid() && clock <= now
      modifies this
      ensures Valid()
      ensures e == Event(now, UpdateStep(t, dur, status, expected))
      ensures rc == Ok && IsActive(old(txnDb), t) <==> !deadlock && Legal(old(View()), e)
      ensures rc == Ok && IsActive(old(txnDb), t) ==> View() == Apply(old(View()), e)
      ensures rc != Ok || !IsActive(old(txnDb), t) ==> View() == old(View()).(clock := now)
      ensures rc == Ok && IsActive(old(txnDb), t) ==> var txn := old(txnDb)[t];
              txnDb == old(txnDb)[t :=
                if status != Active then txn.(status := status, end := now, expire := now)
                else if dur > 0 then txn.(expire := now + dur) else txn]
      ensures deadlock ==> rc == PleaseRetry
      ensures !deadlock && t !in old(txnDb) ==> rc == NotFound
      ensures !deadlock && t in old(txnDb) ==> var txn := old(txnDb)[t];
              match txn.status
              case RolledBack => rc == if status == RolledBack then Ok else UpdatingRolledBackTxn
              case Committed => rc == if status == Committed then Ok else UpdatingCommittedTxn
              case Active =>
                if txn.expire != -1 && txn.expire < now then rc == UpdatingExpiredTxn
                else if status != Committed then rc == Ok
                else if !InOrder(old(holderDb), t) then IsRefusal(rc)
                else rc == if Counted(old(holderDb), t, expected) then Ok else EnlistedCountIncorrect
      ensures old(fired) <= fired && OneEventEach(fired[|old(fired)|..], holderDb, BecomeFree(old(View()), View()))
    {
      hide PropOk, ExpireOk, OwnerOk, Inv, CanClear, Finish, OneEventEach, BecomeFree, Panics, InOrder, Counted,
           Owned, Locked, CanFinish;
      e := Event(now, UpdateStep(t, dur, status, expected));
      clock := now;
      ghost var before := old(View());
      NothingFreed(before, now);
      assert fired[|fired|..] == [];
      if deadlock { return PleaseRetry, e; }
      if t !in txnDb { return NotFound, e; }
      var txn := txnDb[t];
      if txn.status == RolledBack {
        return if status != RolledBack then UpdatingRolledBackTxn else Ok, e;
      }
      if txn.status == Committed {
        return if status != Committed then UpdatingCommittedTxn else Ok, e;
      }
      if Expired(txn.expire, now) { return UpdatingExpiredTxn, e; }
      if dur > 0 {
        txn := txn.(expire := now + dur);
      }
      UpdateIsStep(before, t, dur, status, expected, now);
      CommitCondition(holderDb, t, expected);
      rc := Ok;
      if status != Active {
        var unlocked;
        NeverPanics(before, t);
        rc, unlocked := FinishTxn(t, status, expected);
        if rc != Ok { return; }
        txn := txn.(end := now, status := status, expire := now);
        fired := fired + unlocked;
        assert fired[|old(fired)|..] == unlocked;
      }
      txnDb := txnDb[t := txn];
      assert View() == Apply(before, e);
    }

    // ----- get -----

    /** Positions one cursor per key and joins them. */
    method Join(keys: set<string>) returns (lids: set<Id>)
      requires IndexesOk() && keys != {}
      ensures forall l :: l in lids <==> l in holderDb && holderDb[l].txnId == 0 && keys <= PropKeys(holderDb[l])
    {
      var key :| key in keys;
      lids := set e | e in propIdx && e.0 == key :: e.1;
      var left := keys - {key};
      assert forall l :: l in lids <==> (key, l) in propIdx;
      while left != {}
        invariant key in keys && left <= keys - {key}
        invariant forall l :: l in lids <==> forall k :: k in keys - left ==> (k, l) in propIdx
        decreases left
      {
        var k :| k in left;
        assert keys - (left - {k}) == (keys - left) + {k};
        lids := set l | l in lids && (k, l) in propIdx;
        left := left - {k};
      }
      assert keys - left == keys;
      forall l ensures l in lids <==> l in holderDb && holderDb[l].txnId == 0 && keys <= PropKeys(holderDb[l]) {
        if l in lids { assert (key, l) in propIdx; }
      }
    }

    /** Adds a record to the results unless `OeStoreHolder_skip` says otherwise. */
    static method Offer(q: Query, k: nat, now: Time, h: Holder) returns (ghost more: seq<Holder>)
      modifies q
      ensures more == if Visible(h, now) then [AsResult(q.Params(), h)] else []
      ensures q.results == old(q.results) + more && q.foundBy == old(q.foundBy) + Times(k, |more|)
      ensures q.exists' == (old(q.exists') || Skip(h, now) != SkipIt)
    {
      more := [];
      q.exists' := q.exists' || Skip(h, now) != SkipIt;
      if Skip(h, now) == DoNotSkip {
        q.AddStoreHolder(AsResult(q.Params(), h), k);
        more := [AsResult(q.Params(), h)];
      }
    }

    /** `_get_one`'s loop over the join cursor. */
    method ScanJoin(q: Query, k: nat, now: Time, lids: set<Id>) returns (rc: Rc, ghost more: seq<Holder>)
      requires forall l :: l in lids ==> Candidate(holderDb, q.Params(), k, l)
      modifies q
      ensures rc == Ok || rc == NotFound
      ensures q.results == old(q.results) + more && q.foundBy == old(q.foundBy) + Times(k, |more|)
      ensures ScanEnd(holderDb, q.Params(), k, now, rc == Ok, |old(q.results)|, more)
      ensures rc == NotFound ==> Scanned(holderDb, q.Params(), k, now, lids, more)
      ensures q.exists' == (old(q.exists') || more != [])
    {
      hide Candidate, Scanned, ScanEnd, Times, AsResult, Visible, Skip;
      var todo := lids;
      ghost var hs, p, done := holderDb, q.Params(), {};
      more := [];
      NoneScanned(hs, p, k, now);
      while todo != {}
        invariant done + todo == lids && done !! todo
        invariant q.results == old(q.results) + more && q.foundBy == old(q.foundBy) + Times(k, |more|)
        invariant Scanned(hs, p, k, now, done, more)
        invariant more == [] || |q.results| < q.max
        invariant q.exists' == (old(q.exists') || more != [])
        decreases todo
      {
        var l :| l in todo;
        ScanOne(hs, p, k, now, done, more, l);
        UnlockedIsShown(hs, p, k, l, now);
        var n := |q.results|;
        ghost var one := Offer(q, k, now, holderDb[l]);
        TimesPlus(k, |more|, |one|);
        assert more + [] == more;
        todo, done, more := todo - {l}, done + {l}, more + one;
        if |q.results| > n && |q.results| >= q.max {
          ScanIsOver(hs, p, k, now, done, true, |old(q.results)|, more);
          return Ok, more;
        }
      }
      ScanIsOver(hs, p, k, now, done, false, |old(q.results)|, more);
      return NotFound, more;
    }

    /** `_get_one`: adds what the template finds, until the result list is full. */
    method GetOne(q: Query, k: nat, now: Time) returns (rc: Rc, ghost more: seq<Holder>)
      requires Valid() && k < |q.templates|
      modifies q
      ensures rc == Ok || rc == NotFound || rc == Failed
      ensures rc == Failed <==> !TemplateOk(q.isTuple, q.templates[k])
      ensures q.results == old(q.results) + more && q.foundBy == old(q.foundBy) + Times(k, |more|)
      ensures rc != Failed ==> ScanEnd(holderDb, q.Params(), k, now, rc == Ok, |old(q.results)|, more)
      ensures rc == Failed ==> more == []
      ensures rc == NotFound ==> Complete(holderDb, q.Params(), k, now, more)
      ensures rc != Failed ==> |more| == Adds(HitCount(holderDb, q.Params(), k, now), q.max, |old(q.results)|)
      ensures q.exists' == (old(q.exists') || more != [])
    {
      hide Inv, PropOk, OwnerOk, ExpireOk, ScanEnd, Complete, Scanned;
      var t := q.templates[k];
      if !TemplateOk(q.isTuple, t) { return Failed, []; }
      TemplateHasKeys(q.isTuple, t);
      var lids := Join(TemplateKeys(q.isTuple, t));
      forall l | l in lids ensures Candidate(holderDb, q.Params(), k, l) { LeaseIdIsKey(View(), l); }
      rc, more := ScanJoin(q, k, now, lids);
      if rc == NotFound {
        CompleteScan(View(), q.Params(), k, now, lids, more);
      }
      AddsExactly(holderDb, q.Params(), k, now, rc == Ok, |old(q.results)|, more);
    }

    /** `_api_get`'s loop over the templates; `max` 0 asks for all of them. */
    method Collect(q: Query, now: Time) returns (rc: Rc)
      requires Valid() && q.results == [] && q.foundBy == []
      modifies q
      ensures rc == Verdict(holderDb, q.Params(), now) && (rc == Ok || rc == NotFound || rc == Failed)
      ensures Results(holderDb, q.Params(), now, q.results, q.foundBy) && EachOnce(q.results, q.foundBy)
      ensures rc == Ok ==> q.foundBy == Expected(holderDb, q.Params(), now, |q.templates|)
      ensures rc == NotFound ==> q.results == []
      ensures rc == NotFound ==> q.exists' == (old(q.exists') || FirstHits(holderDb, q.Params(), now))
    {
      hide PropOk, OwnerOk, ExpireOk, Inv, Results, EachOnce, ScanEnd, Complete, Adds, HitCount, TemplateOk;
      var all := q.max == 0;
      rc := Ok;
      var k := 0;
      NoneYet(holderDb, q.Params(), now);
      while k < |q.templates|
        invariant 0 <= k <= |q.templates| && (rc == Ok || rc == NotFound)
        invariant Results(holderDb, q.Params(), now, q.results, q.foundBy) && EachOnce(q.results, q.foundBy)
        invariant |q.results| == |q.foundBy| && q.foundBy == Expected(holderDb, q.Params(), now, k)
        invariant Trouble(holderDb, q.Params(), now, 0) == Trouble(holderDb, q.Params(), now, k)
        invariant all ==> rc == Ok
        invariant q.exists' == (old(q.exists') || q.results != [])
        invariant all && k > 0 ==> HitCount(holderDb, q.Params(), 0, now) > 0 && q.results != []
      {
        var hits := |q.results|;
        ghost var more;
        ghost var results, foundBy := q.results, q.foundBy;
        rc, more := GetOne(q, k, now);
        if rc == Failed {
          assert q.results == results && q.foundBy == foundBy;
          return;
        }
        MoreResults(holderDb, q.Params(), k, now, rc == Ok, results, foundBy, more);
        if all && hits == |q.results| {
          q.ResetNItemsFound();
          NoneYet(holderDb, q.Params(), now);
          return NotFound;
        }
        k := k + 1;
      }
      var itemsFound := |q.results|;
      if !all && rc == NotFound && itemsFound > 0 {
        rc := Ok;
      }
      if rc == Ok && itemsFound == 0 {
        rc := NotFound;
      }
    }

    /** `_update_locks_for_take` and `_delete_items_for_take`: a record found
        twice is no longer there to take the second time. */
    method TakeResults(q: Query, now: Time) returns (rc: Rc)
      requires IndexesOk() && q.take && Results(holderDb, q.Params(), now, q.results, q.foundBy)
      modifies this`holderDb, this`propIdx, this`ownerIdx, this`expireIdx
      ensures IndexesOk() && (rc == Ok || rc == PleaseRetry)
      ensures rc == Ok <==> Distinct(LeaseIds(q.results))
      ensures rc == Ok ==> holderDb == TakeFrom(old(holderDb), q.owner, LeaseIds(q.results))
    {
      ghost var hs, lids := holderDb, LeaseIds(q.results);
      TakeNone(hs, q.owner);
      rc := Ok;
      for i := 0 to |q.results|
        invariant rc == Ok && IndexesOk() && holderDb == TakeFrom(hs, q.owner, lids[..i]) && Distinct(lids[..i])
      {
        var r := q.results[i];
        var l := r.leaseId;
        assert ResultOk(hs, q.Params(), q.foundBy[i], now, r) && lids[i] == l;
        TakeMore(hs, q.owner, lids, i, now);
        if l !in holderDb || Skip(holderDb[l], now) != DoNotSkip {
          rc := PleaseRetry;
          return;
        }
        if q.owner == 0 {
          DelHolder(l);
        } else {
          rc := PutHolder(l, r);
        }
      }
      assert lids[..|q.results|] == lids;
    }

    /** `_api_get` */
    method Get(q: Query, now: Time, deadlock: bool) returns (rc: Rc)
      requires Valid() && clock <= now && q.results == [] && q.foundBy == []
      modifies this, q
      ensures Valid() && fired == old(fired)
      ensures rc == if q.take && q.owner != 0 && !IsActive(old(txnDb), q.owner) then InactiveTxn
                    else if deadlock then PleaseRetry
                    else if q.take && Verdict(old(holderDb), q.Params(), now) == Ok && !Distinct(LeaseIds(q.results))
                    then PleaseRetry
                    else Verdict(old(holderDb), q.Params(), now)
      ensures rc == Ok ==> GetAnswer(old(holderDb), q.Params(), now, q.results, q.foundBy)
      ensures rc == PleaseRetry && !deadlock ==>
                Results(old(holderDb), q.Params(), now, q.results, q.foundBy) && EachOnce(q.results, q.foundBy) &&
                q.foundBy == Expected(old(holderDb), q.Params(), now, |q.templates|)
      ensures rc == Ok && q.take ==> IsQuietStep(old(View()), TakeEvent(q.owner, q.results, now), View())
      ensures rc != Ok || !q.take ==> View() == old(View()).(clock := now)
      ensures rc == NotFound ==> q.results == []
      ensures rc == NotFound ==> q.exists' == (old(q.exists') || FirstHits(old(holderDb), q.Params(), now))
      ensures rc == PleaseRetry && Verdict(old(holderDb), q.Params(), now) != Ok ==> q.exists' == old(q.exists')
    {
      hide PropOk, ExpireOk, OwnerOk, Inv, Results, EachOnce, Expected, Verdict, IsQuietStep, TakeFrom, LeaseIds,
           Distinct, BecomeFree, OneEventEach;
      NothingFreed(View(), now);
      clock := now;
      if q.take && q.owner != 0 && !IsActive(txnDb, q.owner) { return InactiveTxn; }
      if deadlock { return PleaseRetry; }
      rc := Collect(q, now);
      if rc != Ok || !q.take { return; }
      var saved := (holderDb, propIdx, ownerIdx, expireIdx);
      rc := TakeResults(q, now);
      if rc != Ok {
        holderDb, propIdx, ownerIdx, expireIdx := saved.0, saved.1, saved.2, saved.3;
        return;
      }
      TakeIsStep(old(View()), q.Params(), now, q.results, q.foundBy);
    }

    // ----- the lease reaper -----

    /** DB_SET_RANGE, in the order of the comparator: the first entry at or after `now`. */
    method FirstFrom(now: Time) returns (found: bool, at: (Time, Id))
      requires Narrow(expireIdx, now)
      ensures found <==> Starts(expireIdx, now)
      ensures found ==> IsFirst(expireIdx, now, at)
    {
      found, at := false, (0, 0);
      var todo := expireIdx;
      while todo != {}
        invariant todo <= expireIdx
        invariant found <==> exists e :: e in expireIdx - todo && e.0 >= now
        invariant found ==> at in expireIdx && at.0 >= now
        invariant found ==> forall e :: e in expireIdx - todo && e.0 >= now ==> !Before(e, at)
        decreases todo
      {
        var e :| e in todo;
        todo := todo - {e};
        OrderIsRight(expireIdx, now, e, if found then at else e);
        if Compare(e.0, now) >= 0 && (!found || Less(e, at)) {
          found, at := true, e;
        }
      }
    }

    /** DB_PREV, in the order of the comparator: the last entry before `from`. */
    method Previous(from: (Time, Id), ghost all: set<(Time, Id)>, ghost now: Time) returns (found: bool, at: (Time, Id))
      requires expireIdx <= all && from in all && Narrow(all, now)
      ensures found <==> exists e :: e in expireIdx && Before(e, from)
      ensures found ==> at in expireIdx && Before(at, from)
      ensures found ==> forall e :: e in expireIdx && Before(e, from) ==> !Before(at, e)
    {
      found, at := false, (0, 0);
      var todo := expireIdx;
      while todo != {}
        invariant todo <= expireIdx
        invariant found <==> exists e :: e in expireIdx - todo && Before(e, from)
        invariant found ==> at in expireIdx && Before(at, from)
        invariant found ==> forall e :: e in expireIdx - todo && Before(e, from) ==> !Before(at, e)
        decreases todo
      {
        var e :| e in todo;
        todo := todo - {e};
        OrderIsRight(all, now, e, from);
        OrderIsRight(all, now, if found then at else e, e);
        if Less(e, from) && (!found || Less(at, e)) {
          found, at := true, e;
        }
      }
    }

    /** The pass's cursor loop, from the first entry at or after `now`. */
    method ReapFrom(now: Time, first: (Time, Id)) returns (rc: int, ghost victims: set<Id>)
      requires IndexesOk() && IsFirst(expireIdx, now, first) && Narrow(expireIdx, now)
      modifies this`holderDb, this`propIdx, this`ownerIdx, this`expireIdx
      ensures IndexesOk() && holderDb == old(holderDb) - victims && Reapable(old(holderDb), victims, now)
      ensures expireIdx <= old(expireIdx) && |expireIdx| == |old(expireIdx)| - |victims|
      ensures rc == 0 || (rc == 1 && 99 <= |victims| <= 100)
      ensures rc == 0 ==> LapsedBefore(old(holderDb), now) <= victims
    {
      ghost var hs, idx := holderDb, expireIdx;
      rc, victims := 0, {};
      assert hs - {} == hs;
      var more, at, cnt := true, first, 0;
      while more
        invariant rc == 0 && IndexesOk() && holderDb == hs - victims && cnt < MAX_REAP_COMMIT
        invariant Walk(hs, idx, expireIdx, victims, now, first, cnt) && AtPlace(expireIdx, now, first, at, more, cnt)
        invariant Swept(idx, victims, now, at, more)
        decreases if more then UpTo(expireIdx, at) else {}, more
      {
        cnt := cnt + 1;
        var from := at;
        ghost var left := expireIdx;
        WalkOn(hs, idx, left, victims, now, first, cnt - 1, at);
        if at.0 <= now {
          DelHolder(at.1);
          assert hs - (victims + {at.1}) == hs - victims - {at.1};
          OneEntryGone(left, expireIdx, hs - victims, holderDb, at);
          victims := victims + {at.1};
          if cnt >= MAX_REAP_COMMIT {
            return 1, victims;
          }
        }
        more, at := Previous(from, idx, now);
        SweptOn(hs, idx, expireIdx, victims, now, from, more, at);
        if more {
          FewerLeft(left, expireIdx, from, at);
        }
      }
      SweptAll(hs, idx, victims, now, at);
    }

    /** `_lease_reaper`: one pass, 1 meaning there is more to do.  The comparator must
        be able to order the index: its expiries and `now` span at most 2^31 ms. */
    method LeaseReaper(now: Time) returns (rc: int, ghost victims: set<Id>)
      requires Valid() && clock <= now && Narrow(expireIdx, now)
      modifies this
      ensures Valid() && fired == old(fired)
      ensures IsQuietStep(old(View()), Event(now, Reap(victims)), View())
      ensures holderDb == old(holderDb) - victims && forall l :: l in victims ==>
                l in old(holderDb) && old(holderDb)[l].txnId == 0 && old(holderDb)[l].expire != -1 &&
                old(holderDb)[l].expire <= now
      ensures rc == 0 || (rc == 1 && 99 <= |victims| <= 100)
      ensures Starts(old(expireIdx), now) && rc == 0 ==> LapsedBefore(old(holderDb), now) <= victims
      ensures !Starts(old(expireIdx), now) ==> rc == 0 && victims == {}
      ensures expireIdx <= old(expireIdx) && |expireIdx| == |old(expireIdx)| - |victims|
    {
      ghost var before := View();
      rc, victims := 0, {};
      var found, first := FirstFrom(now);
      if found {
        rc, victims := ReapFrom(now, first);
      } else {
        assert holderDb - {} == holderDb;
      }
      clock := now;
      ReapIsStep(before, victims, now);
    }

    /** `_lease_reaper_cb`: passes until one reports no more, each at its own time, `until` at the latest. */
    method ReapUntilDone(start: Time, until: Time) returns (now: Time)
      requires Valid() && clock <= start <= until && Narrow(expireIdx, start) && SameSpan(expireIdx, start, until)
      modifies this
      ensures Valid() && fired == old(fired) && start <= now == clock && now <= until
      ensures VisibleAt(View(), now) == VisibleAt(old(View()), now) && txnDb == old(txnDb)
      ensures |expireIdx| <= |old(expireIdx)|
    {
      hide PropOk, OwnerOk, ExpireOk, Inv, Narrow, SameSpan, IsQuietStep, VisibleAt;
      now := start;
      ghost var victims;
      var rc;
      rc, victims := LeaseReaper(now);
      ReapKeepsVisible(old(View()), now, victims, View());
      while rc > 0
        invariant Valid() && fired == old(fired) && start <= now == clock && now <= until && txnDb == old(txnDb)
        invariant expireIdx <= old(expireIdx) && |expireIdx| <= |old(expireIdx)|
        invariant forall later :: now <= later ==> VisibleAt(View(), later) == VisibleAt(old(View()), later)
        decreases |expireIdx|, rc
      {
        ghost var before := View();
        var later: Time :| now <= later <= until;
        now := later;
        StaysNarrow(old(expireIdx), expireIdx, start, until, now);
        rc, victims := LeaseReaper(now);
        ReapKeepsVisible(before, now, victims, View());
      }
    }
  }

  // ----- the expiry index -----

  const MAX_REAP_COMMIT := 100

  /** The order of the index as its comparator has it: by expiry, then by lease id,
      the same comparator deciding both. */
  predicate Less(a: (Time, Id), b: (Time, Id)) {
    Compare(a.0, b.0) < 0 || (Compare(a.0, b.0) == 0 && Compare(a.1, b.1) < 0)
  }

  /** The expiries and `now` lie in an interval of 2^31 ms, and the lease ids in one of
      2^31 numbers. */
  ghost predicate Narrow(idx: set<(Time, Id)>, now: Time) {
    (exists lo :: Within(idx, now, lo)) && exists lo :: IdsWithin(idx, lo)
  }

  ghost predicate IdsWithin(idx: set<(Time, Id)>, lo: int) {
    forall e :: e in idx ==> lo <= e.1 < lo + TWO31
  }

  ghost predicate Within(idx: set<(Time, Id)>, now: Time, lo: Time) {
    lo <= now < lo + TWO31 && forall e :: e in idx ==> lo <= e.0 < lo + TWO31
  }

  /** One such interval holds both times. */
  ghost predicate SameSpan(idx: set<(Time, Id)>, start: Time, until: Time) {
    exists lo :: Within(idx, start, lo) && Within(idx, until, lo)
  }

  lemma StaysNarrow(idx: set<(Time, Id)>, left: set<(Time, Id)>, start: Time, until: Time, now: Time)
    requires Narrow(idx, start) && SameSpan(idx, start, until) && left <= idx && start <= now <= until
    ensures Narrow(left, now)
  {
    var lo :| Within(idx, start, lo) && Within(idx, until, lo);
    assert Within(left, now, lo);
    var low :| IdsWithin(idx, low);
    assert IdsWithin(left, low);
  }

  lemma OrderIsRight(idx: set<(Time, Id)>, now: Time, e: (Time, Id), f: (Time, Id))
    requires Narrow(idx, now) && e in idx && f in idx
    ensures (Less(e, f) <==> Before(e, f)) && (Compare(e.0, now) >= 0 <==> e.0 >= now)
  {
    var lo :| Within(idx, now, lo);
    var low :| IdsWithin(idx, low);
    CompareRight(e.0, f.0);
    CompareRight(e.1, f.1);
    CompareRight(e.0, now);
  }

  /** The order the index is meant to have. */
  predicate Before(a: (Time, Id), b: (Time, Id)) {
    a.0 < b.0 || (a.0 == b.0 && a.1 < b.1)
  }

  function UpTo(idx: set<(Time, Id)>, at: (Time, Id)): (r: set<(Time, Id)>) {
    set e | e in idx && !Before(at, e)
  }

  lemma FewerLeft(idx: set<(Time, Id)>, idx': set<(Time, Id)>, from: (Time, Id), at: (Time, Id))
    requires idx' <= idx && from in idx && Before(at, from)
    ensures UpTo(idx', at) < UpTo(idx, from)
  {
    assert from in UpTo(idx, from) && from !in UpTo(idx', at);
  }

  /** The reaper's cursor finds a place to start. */
  ghost predicate Starts(idx: set<(Time, Id)>, now: Time) {
    exists e :: e in idx && e.0 >= now
  }

  ghost predicate IsFirst(idx: set<(Time, Id)>, now: Time, first: (Time, Id)) {
    first in idx && first.0 >= now && forall e :: e in idx && e.0 >= now ==> !Before(e, first)
  }

  /** The unowned records whose lease ran out before `now`. */
  function LapsedBefore(hs: Holders, now: Time): (r: set<Id>) {
    set l | l in hs && hs[l].txnId == 0 && hs[l].expire != -1 && hs[l].expire < now
  }

  ghost predicate Reapable(hs: Holders, victims: set<Id>, now: Time) {
    forall l :: l in victims ==> l in hs && hs[l].txnId == 0 && LeaseOver(hs[l], now)
  }

  /** What the cursor has passed is gone, except a first entry still to run out. */
  ghost predicate Swept(idx: set<(Time, Id)>, victims: set<Id>, now: Time, at: (Time, Id), more: bool) {
    forall e :: e in idx && e.0 < now ==> e.1 in victims || (more && !Before(at, e))
  }

  lemma OneEntryGone(idx: set<(Time, Id)>, idx': set<(Time, Id)>, hs: Holders, hs': Holders, at: (Time, Id))
    requires ExpireOk(idx, hs) && ExpireOk(idx', hs') && at in idx && hs' == hs - {at.1}
    ensures idx' == idx - {at} && |idx'| == |idx| - 1
  {
    assert at == (at.0, at.1);
    forall x, l ensures (x, l) in idx' <==> (x, l) in idx - {at} {
      assert (x, l) == at <==> x == at.0 && l == at.1;
      assert (x, l) in idx' <==> l in hs' && hs'[l].txnId == 0 && x != FOREVER && hs'[l].expire == x;
      assert (x, l) in idx <==> l in hs && hs[l].txnId == 0 && x != FOREVER && hs[l].expire == x;
    }
    assert idx' == idx - {at} by {
      forall e ensures e in idx' <==> e in idx - {at} {
        assert e == (e.0, e.1);
      }
    }
  }

  /** The pass so far: `cnt` entries visited, all but perhaps the first reaped. */
  ghost predicate Walk(hs: Holders, idx: set<(Time, Id)>, left: set<(Time, Id)>, victims: set<Id>, now: Time,
                       first: (Time, Id), cnt: nat) {
    ExpireOk(idx, hs) && ExpireOk(left, hs - victims) && left <= idx && IsFirst(idx, now, first) &&
    Reapable(hs, victims, now) && |left| == |idx| - |victims| &&
    cnt == |victims| + if cnt > 0 && first.0 > now then 1 else 0
  }

  ghost predicate AtPlace(left: set<(Time, Id)>, now: Time, first: (Time, Id), at: (Time, Id), more: bool, cnt: nat) {
    more ==> at in left && if cnt == 0 then at == first else at.0 < now
  }

  lemma WalkOn(hs: Holders, idx: set<(Time, Id)>, left: set<(Time, Id)>, victims: set<Id>, now: Time,
               first: (Time, Id), cnt: nat, at: (Time, Id))
    requires Walk(hs, idx, left, victims, now, first, cnt) && AtPlace(left, now, first, at, true, cnt)
    ensures at.1 in hs && at.1 !in victims
    ensures at.0 > now ==> cnt == 0 && Walk(hs, idx, left, victims, now, first, 1)
    ensures at.0 <= now ==> Reapable(hs, victims + {at.1}, now) && |victims + {at.1}| == |victims| + 1
    ensures forall e :: e in left && Before(e, at) ==> e.0 < now
  {
    assert (at.0, at.1) in left;
  }

  lemma SweptOn(hs: Holders, idx: set<(Time, Id)>, left: set<(Time, Id)>, victims: set<Id>, now: Time,
                from: (Time, Id), more: bool, at: (Time, Id))
    requires ExpireOk(idx, hs) && ExpireOk(left, hs - victims)
    requires Swept(idx, victims, now, from, true) && (from.0 <= now ==> from.1 in victims)
    requires more <==> exists e :: e in left && Before(e, from)
    requires more ==> at in left && Before(at, from) && forall e :: e in left && Before(e, from) ==> !Before(at, e)
    ensures Swept(idx, victims, now, at, more)
  {
    forall e | e in idx && e.0 < now && e.1 !in victims ensures more && !Before(at, e) {
      assert (e.0, e.1) in idx && (e.0, e.1) in left;
    }
  }

  lemma SweptAll(hs: Holders, idx: set<(Time, Id)>, victims: set<Id>, now: Time, at: (Time, Id))
    requires ExpireOk(idx, hs) && Swept(idx, victims, now, at, false)
    ensures LapsedBefore(hs, now) <= victims
  {
    forall l | l in LapsedBefore(hs, now) ensures l in victims {
      assert (hs[l].expire, l) in idx;
    }
  }

  lemma ReapIsStep(s: Db, victims: set<Id>, now: Time)
    requires Inv(s) && s.clock <= now && Reapable(s.holders, victims, now)
    ensures var u := s.(holders := s.holders - victims, clock := now);
            IsQuietStep(s, Event(now, Reap(victims)), u) && Inv(u)
  {
    var e := Event(now, Reap(victims));
    InvHolds(s, e);
    WakeUpsAreExact(s, e);
    assert Apply(s, e).holders == s.holders - victims;
  }

  /** No later get can tell that a pass has been made. */
  lemma ReapKeepsVisible(s: Db, now: Time, victims: set<Id>, u: Db)
    requires IsQuietStep(s, Event(now, Reap(victims)), u)
    ensures u.txns == s.txns && u.clock == now
    ensures forall later :: now <= later ==> VisibleAt(u, later) == VisibleAt(s, later)
  {
  }

  // ----- results of a get -----

  datatype Params = GetParams(take: bool, isTuple: bool, owner: Id, templates: seq<seq<string>>, max: nat)

  datatype SkipStatus = DoNotSkip | SkipIt | SkipButExists

  /** `OeStoreHolder_skip` */
  function Skip(h: Holder, now: Time): (r: SkipStatus)
    ensures r == DoNotSkip <==> Visible(h, now)
    ensures r == SkipButExists <==> (h.expire == -1 || now < h.expire) && h.lock == WriteLock
  {
    if LeaseOver(h, now) then SkipIt
    else if h.lock == TakeLock then SkipIt
    else if h.lock == WriteLock then SkipButExists
    else DoNotSkip
  }

  function Times(k: nat, n: nat): (r: seq<nat>)
    ensures |r| == n && forall i :: 0 <= i < n ==> r[i] == k
  {
    seq(n, _ => k)
  }

  /** What is reported for a record: a take shows it as already locked. */
  function AsResult(p: Params, h: Holder): (r: Holder) {
    if p.take then h.(lock := TakeLock, txnId := p.owner) else h
  }

  ghost predicate ResultOk(hs: Holders, p: Params, k: nat, now: Time, r: Holder) {
    k < |p.templates| && TemplateOk(p.isTuple, p.templates[k]) && r.leaseId in hs &&
    var h := hs[r.leaseId];
    h.leaseId == r.leaseId && r == AsResult(p, h) && Visible(h, now) && HasKeys(p.isTuple, p.templates[k], h)
  }

  ghost predicate Found(hs: Holders, p: Params, k: nat, now: Time, results: seq<Holder>) {
    (forall i :: 0 <= i < |results| ==> ResultOk(hs, p, k, now, results[i])) &&
    forall i, j :: 0 <= i < j < |results| ==> results[i].leaseId != results[j].leaseId
  }

  ghost predicate Reported(results: seq<Holder>, l: Id) {
    exists i :: 0 <= i < |results| && results[i].leaseId == l
  }

  /** Nothing visible that carries the template's keys is missing. */
  ghost predicate Complete(hs: Holders, p: Params, k: nat, now: Time, results: seq<Holder>)
    requires k < |p.templates|
  {
    forall l :: l in hs && Visible(hs[l], now) && HasKeys(p.isTuple, p.templates[k], hs[l]) ==> Reported(results, l)
  }

  /** What one template adds to a list of `before` results: a full scan stops
      short of `max`, one cut off has reached it, and each adds one at least. */
  ghost predicate ScanEnd(hs: Holders, p: Params, k: nat, now: Time, cutOff: bool, before: nat, more: seq<Holder>) {
    var total := before + |more|;
    Found(hs, p, k, now, more) && (total <= p.max || |more| <= 1) &&
    (cutOff ==> |more| > 0 && total >= p.max) && (!cutOff ==> more == [] || total < p.max)
  }

  ghost predicate Results(hs: Holders, p: Params, now: Time, results: seq<Holder>, foundBy: seq<nat>) {
    |foundBy| == |results| && forall i :: 0 <= i < |results| ==> ResultOk(hs, p, foundBy[i], now, results[i])
  }

  // ----- how many results a get has, told from the store alone -----

  /** The visible records that carry the keys of template `k`. */
  ghost function HitsOf(hs: Holders, p: Params, k: nat, now: Time): (r: set<Id>)
    requires k < |p.templates|
  {
    set l | l in hs && Visible(hs[l], now) && HasKeys(p.isTuple, p.templates[k], hs[l])
  }

  ghost function HitCount(hs: Holders, p: Params, k: nat, now: Time): (n: nat)
    requires k < |p.templates|
  {
    |HitsOf(hs, p, k, now)|
  }

  /** A template with `hits` records adds what is missing to `max`, and one at least. */
  function Adds(hits: nat, max: nat, before: nat): (n: nat) {
    var room := if before < max then max - before else 1;
    if hits < room then hits else room
  }

  /** Which template each result is found by, for the first `k` templates. */
  ghost function Expected(hs: Holders, p: Params, now: Time, k: nat): (r: seq<nat>)
    requires k <= |p.templates|
  {
    if k == 0 then []
    else
      var before := Expected(hs, p, now, k - 1);
      before + Times(k - 1, Adds(HitCount(hs, p, k - 1, now), p.max, |before|))
  }

  /** What ends the loop early, from template `k` on: a template that is refused, or,
      when all are asked for, one without a record. */
  ghost function Trouble(hs: Holders, p: Params, now: Time, k: nat): (rc: Rc)
    requires k <= |p.templates|
    decreases |p.templates| - k
  {
    if k == |p.templates| then Ok
    else if !TemplateOk(p.isTuple, p.templates[k]) then Failed
    else if p.max == 0 && HitCount(hs, p, k, now) == 0 then NotFound
    else Trouble(hs, p, now, k + 1)
  }

  ghost function Verdict(hs: Holders, p: Params, now: Time): (rc: Rc) {
    var rc := Trouble(hs, p, now, 0);
    if rc == Ok && Expected(hs, p, now, |p.templates|) == [] then NotFound else rc
  }

  /** What a get that misses takes for a record to wait for: all templates are asked
      for, and the first of them found one. */
  ghost predicate FirstHits(hs: Holders, p: Params, now: Time) {
    p.max == 0 && p.templates != [] && HitCount(hs, p, 0, now) > 0
  }

  /** No template reports a record twice. */
  ghost predicate EachOnce(results: seq<Holder>, foundBy: seq<nat>) {
    |foundBy| == |results| &&
    forall i, j :: 0 <= i < j < |results| && foundBy[i] == foundBy[j] ==> results[i].leaseId != results[j].leaseId
  }

  lemma LeaseIdIsKey(s: Db, l: Id)
    requires Inv(s) && l in s.holders
    ensures s.holders[l].leaseId == l && (s.holders[l].txnId == 0 ==> s.holders[l].lock == Unlocked)
  {
    assert HolderOk(s, l);
  }

  lemma NoneYet(hs: Holders, p: Params, now: Time)
    ensures Results(hs, p, now, [], []) && EachOnce([], []) && Expected(hs, p, now, 0) == []
  {
  }

  lemma {:induction false} DistinctIds(results: seq<Holder>) returns (ids: set<Id>)
    requires forall i, j :: 0 <= i < j < |results| ==> results[i].leaseId != results[j].leaseId
    ensures |ids| == |results| && forall l :: l in ids <==> Reported(results, l)
    decreases |results|
  {
    if results == [] {
      ids := {};
    } else {
      var n := |results| - 1;
      var front, last := results[..n], results[n];
      var some := DistinctIds(front);
      ids := some + {last.leaseId};
      forall l ensures l in ids <==> Reported(results, l) {
        if Reported(front, l) {
          var i :| 0 <= i < n && front[i].leaseId == l;
          assert results[i].leaseId == l;
        }
        if i :| 0 <= i < |results| && results[i].leaseId == l {
          assert i < n ==> front[i].leaseId == l;
        }
      }
      assert forall i :: 0 <= i < n ==> front[i].leaseId == results[i].leaseId;
      assert !Reported(front, last.leaseId);
    }
  }

  /** A template's scan adds exactly the number foretold. */
  lemma AddsExactly(hs: Holders, p: Params, k: nat, now: Time, cutOff: bool, before: nat, more: seq<Holder>)
    requires k < |p.templates| && ScanEnd(hs, p, k, now, cutOff, before, more)
    requires !cutOff ==> Complete(hs, p, k, now, more)
    ensures |more| == Adds(HitCount(hs, p, k, now), p.max, before)
  {
    var ids := DistinctIds(more);
    var all := HitsOf(hs, p, k, now);
    forall l | l in ids ensures l in all {
      var i :| 0 <= i < |more| && more[i].leaseId == l;
      assert ResultOk(hs, p, k, now, more[i]);
    }
    Subset(ids, all);
    if !cutOff {
      assert ids == all;
    }
  }

  lemma Subset(a: set<Id>, b: set<Id>)
    requires a <= b
    ensures |a| <= |b|
  {
    assert b == a + (b - a);
  }

  /** The result list with one more template's results. */
  lemma MoreResults(hs: Holders, p: Params, k: nat, now: Time, cutOff: bool, results: seq<Holder>, foundBy: seq<nat>,
                    more: seq<Holder>)
    requires k < |p.templates| && Results(hs, p, now, results, foundBy) && EachOnce(results, foundBy)
    requires ScanEnd(hs, p, k, now, cutOff, |results|, more) && foundBy == Expected(hs, p, now, k)
    requires |more| == Adds(HitCount(hs, p, k, now), p.max, |results|)
    ensures var rs, fs := results + more, foundBy + Times(k, |more|);
            Results(hs, p, now, rs, fs) && EachOnce(rs, fs) && fs == Expected(hs, p, now, k + 1)
    ensures (more == [] <==> HitCount(hs, p, k, now) == 0) && (p.max == 0 && more != [] ==> cutOff)
  {
    var rs, fs := results + more, foundBy + Times(k, |more|);
    ExpectedBelow(hs, p, now, k);
    forall i | 0 <= i < |rs| ensures ResultOk(hs, p, fs[i], now, rs[i]) {
      if i < |results| {
        assert ResultOk(hs, p, foundBy[i], now, results[i]);
      }
    }
  }

  lemma {:induction false} ExpectedBelow(hs: Holders, p: Params, now: Time, k: nat)
    requires k <= |p.templates|
    ensures forall i :: 0 <= i < |Expected(hs, p, now, k)| ==> Expected(hs, p, now, k)[i] < k
    decreases k
  {
    if k > 0 {
      ExpectedBelow(hs, p, now, k - 1);
    }
  }

  function LeaseIds(results: seq<Holder>): (r: seq<Id>)
    ensures |r| == |results| && forall i :: 0 <= i < |r| ==> r[i] == results[i].leaseId
  {
    seq(|results|, i requires 0 <= i < |results| => results[i].leaseId)
  }

  /** What a successful get promises: so many visible records for each template, as
      foretold from the store, none twice for one template and, taken, none twice. */
  ghost predicate GetAnswer(hs: Holders, p: Params, now: Time, results: seq<Holder>, foundBy: seq<nat>) {
    Verdict(hs, p, now) == Ok && Results(hs, p, now, results, foundBy) && EachOnce(results, foundBy) &&
    foundBy == Expected(hs, p, now, |p.templates|) && (p.take ==> Distinct(LeaseIds(results)))
  }

  function TakeEvent(owner: Id, results: seq<Holder>, now: Time): (e: Event) {
    Event(now, Take(owner, LeaseIds(results)))
  }

  /** `e` leads from `s` to `u` and frees no record. */
  ghost predicate IsQuietStep(s: Db, e: Event, u: Db) {
    Legal(s, e) && u == Apply(s, e) && BecomeFree(s, u) == {}
  }

  lemma TakeIsStep(s: Db, p: Params, now: Time, results: seq<Holder>, foundBy: seq<nat>)
    requires Inv(s) && s.clock <= now && p.take && (p.owner != 0 ==> IsActive(s.txns, p.owner))
    requires Results(s.holders, p, now, results, foundBy) && Distinct(LeaseIds(results))
    ensures var u := s.(holders := TakeFrom(s.holders, p.owner, LeaseIds(results)), clock := now);
            IsQuietStep(s, TakeEvent(p.owner, results, now), u) && Inv(u)
  {
    var e := TakeEvent(p.owner, results, now);
    forall i | 0 <= i < |e.step.lids| ensures e.step.lids[i] in s.holders && Visible(s.holders[e.step.lids[i]], now) {
      assert ResultOk(s.holders, p, foundBy[i], now, results[i]);
    }
    InvHolds(s, e);
    WakeUpsAreExact(s, e);
  }

  lemma TakeNone(hs: Holders, owner: Id)
    ensures TakeFrom(hs, owner, []) == hs
  {
  }

  lemma TakeMore(hs: Holders, owner: Id, lids: seq<Id>, i: nat, now: Time)
    requires i < |lids| && lids[i] in hs && Visible(hs[lids[i]], now) && Distinct(lids[..i])
    ensures var cur := TakeFrom(hs, owner, lids[..i]);
            var here := lids[i] in cur && Visible(cur[lids[i]], now);
            (here <==> Distinct(lids[..i + 1])) && (!here ==> !Distinct(lids)) &&
            (here && owner == 0 ==> TakeFrom(hs, owner, lids[..i + 1]) == cur - {lids[i]}) &&
            (here && owner != 0 ==> TakeFrom(hs, owner, lids[..i + 1])
                                    == cur[lids[i] := hs[lids[i]].(lock := TakeLock, txnId := owner)])
  {
    assert lids[..i + 1] == lids[..i] + [lids[i]];
    if lids[i] in lids[..i] {
      var j :| 0 <= j < i && lids[..i][j] == lids[i];
      assert lids[..i + 1][j] == lids[..i + 1][i];
    }
  }

  lemma TimesPlus(k: nat, m: nat, n: nat)
    ensures Times(k, m + n) == Times(k, m) + Times(k, n)
  {
  }

  lemma TemplateHasKeys(isTuple: bool, t: seq<string>)
    requires TemplateOk(isTuple, t)
    ensures TemplateKeys(isTuple, t) != {}
  {
    if isTuple {
      var i :| 0 <= i < |t| && t[i] != WILDCARD;
      assert TupleKey(t[i], i, |t|) in TemplateKeys(true, t);
    } else {
      assert MapKey(t[2*0], t[2*0+1]) in TemplateKeys(false, t);
    }
  }

  /** `results` holds exactly the visible records of `lids`, each found by template `k`. */
  ghost predicate Scanned(hs: Holders, p: Params, k: nat, now: Time, lids: set<Id>, results: seq<Holder>) {
    Found(hs, p, k, now, results) &&
    (forall i :: 0 <= i < |results| ==> results[i].leaseId in lids) &&
    forall l :: l in lids ==> l in hs && (Visible(hs[l], now) ==> Reported(results, l))
  }

  ghost predicate Candidate(hs: Holders, p: Params, k: nat, l: Id) {
    k < |p.templates| && TemplateOk(p.isTuple, p.templates[k]) && l in hs && hs[l].leaseId == l &&
    hs[l].lock == Unlocked && HasKeys(p.isTuple, p.templates[k], hs[l])
  }

  /** A record the join finds has no lock: it is passed over only when its lease is over. */
  lemma UnlockedIsShown(hs: Holders, p: Params, k: nat, l: Id, now: Time)
    requires Candidate(hs, p, k, l)
    ensures l in hs && Skip(hs[l], now) == if Visible(hs[l], now) then DoNotSkip else SkipIt
  {
  }

  lemma NoneScanned(hs: Holders, p: Params, k: nat, now: Time)
    ensures Scanned(hs, p, k, now, {}, [])
  {
  }

  lemma ScanIsOver(hs: Holders, p: Params, k: nat, now: Time, lids: set<Id>, cutOff: bool, before: nat,
                   more: seq<Holder>)
    requires Scanned(hs, p, k, now, lids, more) && (before + |more| <= p.max || |more| <= 1)
    requires if cutOff then |more| > 0 && before + |more| >= p.max else more == [] || before + |more| < p.max
    ensures ScanEnd(hs, p, k, now, cutOff, before, more)
  {
  }

  lemma ScanOne(hs: Holders, p: Params, k: nat, now: Time, lids: set<Id>, results: seq<Holder>, l: Id)
    requires Scanned(hs, p, k, now, lids, results) && l !in lids && Candidate(hs, p, k, l)
    ensures !Visible(hs[l], now) ==> Scanned(hs, p, k, now, lids + {l}, results)
    ensures Visible(hs[l], now) ==> Scanned(hs, p, k, now, lids + {l}, results + [AsResult(p, hs[l])])
  {
    var r := AsResult(p, hs[l]);
    var more := results + [r];
    if Visible(hs[l], now) {
      assert more[|results|].leaseId == l;
      forall m | m in lids && Visible(hs[m], now) ensures Reported(more, m) {
        var i :| 0 <= i < |results| && results[i].leaseId == m;
        assert more[i].leaseId == m;
      }
    }
  }

  lemma CompleteScan(s: Db, p: Params, k: nat, now: Time, lids: set<Id>, results: seq<Holder>)
    requires Inv(s) && k < |p.templates| && Scanned(s.holders, p, k, now, lids, results)
    requires var hs := s.holders;
             forall l :: l in hs && hs[l].txnId == 0 && HasKeys(p.isTuple, p.templates[k], hs[l]) ==> l in lids
    ensures Complete(s.holders, p, k, now, results)
  {
    forall l | l in s.holders && Visible(s.holders[l], now) && HasKeys(p.isTuple, p.templates[k], s.holders[l])
      ensures Reported(results, l)
    {
      assert HolderOk(s, l);
    }
  }

  // ----- finishing a transaction, record by record -----

  function Deletes(status: Status): (r: Lock) { if status == Committed then TakeLock else WriteLock }

  function Clears(status: Status): (r: Lock) { if status == Committed then WriteLock else TakeLock }

  predicate CanFinish(hs: Holders, t: Id, status: Status, expected: int) {
    CanClear(hs, t, Clears(status)) && (status == Committed && expected != -1 ==> expected == |Owned(hs, t)|)
  }

  /** Each record `t` has written has a field other than "_", or is a list of pairs. */
  ghost predicate InOrder(hs: Holders, t: Id) {
    forall l :: l in hs && hs[l].txnId == t && hs[l].lock == WriteLock ==>
      var attrs := hs[l].data.attrs;
      if hs[l].isTuple then exists i :: 0 <= i < |attrs| && attrs[i] != "_"
      else |attrs| >= 2 && |attrs| % 2 == 0
  }

  /** The records `t` holds, if they are counted at all, are as many as expected. */
  ghost predicate Counted(hs: Holders, t: Id, expected: int) {
    expected == -1 || expected == |set l | l in hs && hs[l].txnId == t|
  }

  lemma CommitCondition(hs: Holders, t: Id, expected: int)
    ensures CanClear(hs, t, WriteLock) <==> InOrder(hs, t)
    ensures CanFinish(hs, t, Committed, expected) <==> InOrder(hs, t) && Counted(hs, t, expected)
  {
    assert Owned(hs, t) == set l | l in hs && hs[l].txnId == t;
  }

  /** The record `_update_txn` writes back. */
  function UpdatedTxn(txn: Txn, dur: Time, status: Status, now: Time): (r: Txn) {
    var txn := if dur > 0 then txn.(expire := now + dur) else txn;
    if status == Active then txn else txn.(end := now, status := status, expire := now)
  }

  lemma UpdateIsStep(s: Db, t: Id, dur: Time, status: Status, expected: int, now: Time)
    requires Inv(s) && s.clock <= now && Updatable(s.txns, t, now)
    ensures var e := Event(now, UpdateStep(t, dur, status, expected));
            (Legal(s, e) <==> (status != Active ==> CanFinish(s.holders, t, status, expected))) &&
            (Legal(s, e) ==>
               Inv(Apply(s, e)) && Fires(s, e) == BecomeFree(s, Apply(s, e)) &&
               Apply(s, e).clock == now && Apply(s, e).used == s.used &&
               Apply(s, e).txns == s.txns[t := UpdatedTxn(s.txns[t], dur, status, now)] &&
               Apply(s, e).holders == if status == Active then s.holders
                                      else Finish(s.holders, t, Deletes(status), Clears(status)))
  {
    var e := Event(now, UpdateStep(t, dur, status, expected));
    NeverPanics(s, t);
    if Legal(s, e) {
      InvHolds(s, e);
      WakeUpsAreExact(s, e);
      if status == Active && dur <= 0 {
        assert s.txns == s.txns[t := s.txns[t]];
      }
    }
  }

  lemma OwnerIndexLists(idx: set<(Id, Id)>, hs: Holders, t: Id, todo: set<Id>)
    requires OwnerOk(idx, hs) && t != 0 && todo == set e | e in idx && e.0 == t :: e.1
    ensures todo == Owned(hs, t)
  {
    forall l | l in Owned(hs, t) ensures l in todo { assert (t, l) in idx; }
    forall l | l in todo ensures l in Owned(hs, t) { assert (t, l) in idx; }
  }

  /** `cur` is `hs` once all of `t`'s records but `todo` have been finished. */
  ghost predicate PartFinished(hs: Holders, cur: Holders, t: Id, del: Lock, clear: Lock, todo: set<Id>) {
    (forall l :: l in cur ==> l in hs) &&
    (forall l :: l in hs && (hs[l].txnId != t || l in todo) ==> l in cur && cur[l] == hs[l]) &&
    forall l :: l in hs && hs[l].txnId == t && l !in todo ==>
      if hs[l].lock == del then l !in cur
      else hs[l].lock == clear && l in cur && cur[l] == Released(hs[l]) && Indexable(hs[l].isTuple, hs[l].data.attrs)
  }

  lemma PartStart(hs: Holders, t: Id, del: Lock, clear: Lock, todo: set<Id>)
    requires todo == Owned(hs, t)
    ensures PartFinished(hs, hs, t, del, clear, todo)
  {
  }

  lemma PartAt(hs: Holders, cur: Holders, t: Id, del: Lock, clear: Lock, todo: set<Id>, l: Id)
    requires PartFinished(hs, cur, t, del, clear, todo) && l in todo && todo <= Owned(hs, t) && del != clear
    ensures l in hs && l in cur && cur[l] == hs[l] && hs[l].txnId == t
    ensures hs[l].lock == del ==> PartFinished(hs, cur - {l}, t, del, clear, todo - {l})
    ensures hs[l].lock == clear && Indexable(hs[l].isTuple, hs[l].data.attrs) ==>
              PartFinished(hs, cur[l := Released(hs[l])], t, del, clear, todo - {l})
  {
  }

  lemma PartEnd(hs: Holders, cur: Holders, t: Id, del: Lock, clear: Lock)
    requires PartFinished(hs, cur, t, del, clear, {}) && del != clear
    ensures cur == Finish(hs, t, del, clear) && CanClear(hs, t, clear)
  {
  }

  /** `order` lists the records unlocked so far, `unlocked` their data. */
  ghost predicate Unlocks(hs: Holders, t: Id, clear: Lock, todo: set<Id>, order: seq<Id>, unlocked: seq<DataObject>) {
    IsListing(order, Locked(hs, t, clear) - todo) && |order| == |unlocked| &&
    forall i :: 0 <= i < |order| ==> order[i] in hs && hs[order[i]].data == unlocked[i]
  }

  lemma UnlocksNone(hs: Holders, t: Id, clear: Lock)
    ensures Unlocks(hs, t, clear, Owned(hs, t), [], [])
  {
  }

  lemma UnlocksOther(hs: Holders, t: Id, clear: Lock, todo: set<Id>, order: seq<Id>, unlocked: seq<DataObject>, l: Id)
    requires Unlocks(hs, t, clear, todo, order, unlocked) && l !in Locked(hs, t, clear)
    ensures Unlocks(hs, t, clear, todo - {l}, order, unlocked)
  {
  }

  lemma UnlocksEnd(hs: Holders, cur: Holders, t: Id, del: Lock, clear: Lock, order: seq<Id>, unlocked: seq<DataObject>)
    requires del != clear && cur == Finish(hs, t, del, clear) && Unlocks(hs, t, clear, {}, order, unlocked)
    ensures OneEventEach(unlocked, cur, Locked(hs, t, clear))
  {
    assert Locked(hs, t, clear) - {} == Locked(hs, t, clear);
    forall i | 0 <= i < |order| ensures order[i] in cur && cur[order[i]].data == unlocked[i] {
      assert order[i] in order;
    }
  }

  lemma UnlocksOne(hs: Holders, t: Id, clear: Lock, todo: set<Id>, order: seq<Id>, unlocked: seq<DataObject>, l: Id)
    requires Unlocks(hs, t, clear, todo, order, unlocked) && l in todo && l in Locked(hs, t, clear)
    ensures Unlocks(hs, t, clear, todo - {l}, order + [l], unlocked + [hs[l].data])
  {
  }

  lemma NothingFreed(s: Db, now: Time)
    ensures BecomeFree(s, s.(clock := now)) == {} && OneEventEach([], s.holders, {})
    ensures Inv(s) ==> Inv(s.(clock := now))
  {
    forall l | l in s.holders ensures HolderOk(s, l) ==> HolderOk(s.(clock := now), l) {}
    var none: seq<Id> := [];
    assert IsListing(none, {});
  }

  function UpdateStep(t: Id, dur: Time, status: Status, expected: int): (r: Step) {
    match status
    case Committed => Commit(t, expected)
    case RolledBack => Rollback(t)
    case Active => Extend(t, dur)
  }

  lemma NeverPanics(s: Db, t: Id)
    requires Inv(s) && t in s.txns
    ensures t != 0 && CanClear(s.holders, t, TakeLock)
    ensures !Panics(s.holders, t, TakeLock, WriteLock) && !Panics(s.holders, t, WriteLock, TakeLock)
  {
    forall l | l in Owned(s.holders, t)
      ensures s.holders[l].lock == WriteLock || s.holders[l].lock == TakeLock
    {
      NoPanic(s, t, l);
    }
    forall l | l in s.holders ensures HolderOk(s, l) {}
  }

  // ----- what a get means, index aside -----

  /** Every record and every template keeps "~+" out of its map attributes. */
  ghost predicate AllSafe(hs: Holders, p: Params) {
    forall l, k :: l in hs && 0 <= k < |p.templates| ==> SafeKeys(p.isTuple, p.templates[k], hs[l])
  }

  /** The join yields exactly the unowned records a direct scan would. */
  lemma JoinAgreesWithScan(hs: Holders, p: Params, k: nat)
    requires AllSafe(hs, p) && k < |p.templates| && TemplateOk(p.isTuple, p.templates[k])
    ensures (set l | l in hs && hs[l].txnId == 0 && TemplateKeys(p.isTuple, p.templates[k]) <= PropKeys(hs[l]))
         == (set l | l in hs && hs[l].txnId == 0 && Matches(p.isTuple, p.templates[k], hs[l]))
  {
    TemplateHasKeys(p.isTuple, p.templates[k]);
    forall l | l in hs && hs[l].txnId == 0
      ensures TemplateKeys(p.isTuple, p.templates[k]) <= PropKeys(hs[l]) <==> Matches(p.isTuple, p.templates[k], hs[l])
    {
      KeysAgreeWithMatching(p.isTuple, p.templates[k], hs[l]);
    }
  }

  /** Each result of a get is a record nobody holds and whose lease has not run out, and
      matches the template it was found by.  A read reports it as it is stored, a take
      with nothing but lock and owner changed. */
  lemma AnswersMatch(hs: Holders, p: Params, now: Time, results: seq<Holder>, foundBy: seq<nat>, i: nat)
    requires AllSafe(hs, p) && GetAnswer(hs, p, now, results, foundBy) && i < |results|
    ensures foundBy[i] < |p.templates| && results[i].leaseId in hs
    ensures var h := hs[results[i].leaseId];
            h.lock == Unlocked && (h.expire == -1 || now < h.expire) &&
            Matches(p.isTuple, p.templates[foundBy[i]], h) &&
            results[i] == if p.take then h.(lock := TakeLock, txnId := p.owner) else h
  {
    assert ResultOk(hs, p, foundBy[i], now, results[i]);
    TemplateHasKeys(p.isTuple, p.templates[foundBy[i]]);
    KeysAgreeWithMatching(p.isTuple, p.templates[foundBy[i]], hs[results[i].leaseId]);
  }

  /** A template without a result matches nothing visible. */
  lemma MissesMatchNothing(hs: Holders, p: Params, now: Time, k: nat, l: Id)
    requires AllSafe(hs, p) && k < |p.templates| && TemplateOk(p.isTuple, p.templates[k])
    requires HitCount(hs, p, k, now) == 0 && l in hs && Visible(hs[l], now)
    ensures !Matches(p.isTuple, p.templates[k], hs[l])
  {
    assert l !in HitsOf(hs, p, k, now);
    TemplateHasKeys(p.isTuple, p.templates[k]);
    KeysAgreeWithMatching(p.isTuple, p.templates[k], hs[l]);
  }

  // ----- what the counts come to -----

  /** Records found by the first `k` templates together, as far as `max` goes. */
  ghost function HitSum(hs: Holders, p: Params, now: Time, k: nat): (n: nat)
    requires k <= |p.templates|
  {
    if k == 0 then 0 else HitSum(hs, p, now, k - 1) + HitCount(hs, p, k - 1, now)
  }

  /** Template `j` finds something although those before it fill the list. */
  ghost predicate Overflows(hs: Holders, p: Params, now: Time, j: nat)
    requires j < |p.templates|
  {
    HitCount(hs, p, j, now) > 0 && HitSum(hs, p, now, j) >= p.max
  }

  ghost function Overflow(hs: Holders, p: Params, now: Time, k: nat): (n: nat)
    requires k <= |p.templates|
    ensures n > 0 <==> exists j :: 0 <= j < k && Overflows(hs, p, now, j)
  {
    if k == 0 then 0 else Overflow(hs, p, now, k - 1) + if Overflows(hs, p, now, k - 1) then 1 else 0
  }

  /** The number of results: all there are while they do not fill the list; then `max`,
      and one more for each template that comes too late and still finds something. */
  lemma {:induction false} ResultCount(hs: Holders, p: Params, now: Time, k: nat)
    requires k <= |p.templates|
    ensures var sum := HitSum(hs, p, now, k);
            |Expected(hs, p, now, k)| == (if sum < p.max then sum else p.max + Overflow(hs, p, now, k)) &&
            (sum < p.max ==> Overflow(hs, p, now, k) == 0)
    decreases k
  {
    if k > 0 {
      ResultCount(hs, p, now, k - 1);
    }
  }

  lemma {:induction false} SumGrows(hs: Holders, p: Params, now: Time, j: nat, k: nat)
    requires j <= k <= |p.templates|
    ensures HitSum(hs, p, now, j) <= HitSum(hs, p, now, k)
    decreases k
  {
    if j < k {
      SumGrows(hs, p, now, j, k - 1);
    }
  }

  /** More than `max` results come back if and only if some template finds a visible
      record although the templates before it find `max` of them or more. */
  lemma MaxIsExceededIff(hs: Holders, p: Params, now: Time, results: seq<Holder>, foundBy: seq<nat>)
    requires GetAnswer(hs, p, now, results, foundBy)
    ensures |results| > p.max <==> exists j :: 0 <= j < |p.templates| && Overflows(hs, p, now, j)
  {
    var n := |p.templates|;
    ResultCount(hs, p, now, n);
    if j :| 0 <= j < n && Overflows(hs, p, now, j) {
      SumGrows(hs, p, now, j, n);
    }
  }

  /** The bounds a caller can rely on: one result for each template in order when all
      are asked for, and otherwise at most `max` and one more for each template after
      the first. */
  lemma {:induction false} CountBounds(hs: Holders, p: Params, now: Time, k: nat)
    requires k <= |p.templates| && Trouble(hs, p, now, 0) == Ok
    ensures var foundBy := Expected(hs, p, now, k);
            if p.max == 0 then |foundBy| == k && forall i :: 0 <= i < k ==> foundBy[i] == i
            else |foundBy| <= if k == 0 then 0 else p.max + k - 1
    decreases k
  {
    if k > 0 {
      CountBounds(hs, p, now, k - 1);
      NoTroubleAt(hs, p, now, 0, k - 1);
    }
  }

  lemma {:induction false} NoTroubleAt(hs: Holders, p: Params, now: Time, i: nat, k: nat)
    requires i <= k < |p.templates| && Trouble(hs, p, now, i) == Ok
    ensures TemplateOk(p.isTuple, p.templates[k]) && (p.max == 0 ==> HitCount(hs, p, k, now) > 0)
    decreases k - i
  {
    if i < k {
      NoTroubleAt(hs, p, now, i + 1, k);
    }
  }

  /** Every template that matches something has a result. */
  lemma {:induction false} EveryHitIsAnswered(hs: Holders, p: Params, now: Time, j: nat, k: nat)
    requires j < k <= |p.templates| && HitCount(hs, p, j, now) > 0
    ensures j in Expected(hs, p, now, k)
    decreases k
  {
    var before := Expected(hs, p, now, k - 1);
    if j < k - 1 {
      EveryHitIsAnswered(hs, p, now, j, k - 1);
    } else {
      assert Expected(hs, p, now, k)[|before|] == j;
    }
  }

  // ----- a get that returns more than `max` -----

  function Tuple(l: Id, field: string): (h: Holder) {
    Holder(Unlocked, true, l, 0, FOREVER, DataObject([field], []))
  }

  /** Two records for the first template and one for the second. */
  function ThreeTuples(a: Id, b: Id, c: Id): (hs: Holders) {
    map[a := Tuple(a, "a"), b := Tuple(b, "a"), c := Tuple(c, "b")]
  }

  const AorB := GetParams(false, true, 0, [["a"], ["b"]], 2)

  lemma OneFieldHits(f: string, g: string, l: Id)
    requires f != WILDCARD
    ensures HasKeys(true, [f], Tuple(l, g)) <==> f == g
  {
    assert [f][0] != WILDCARD;
    TemplateHasKeys(true, [f]);
    KeysAgreeWithMatching(true, [f], Tuple(l, g));
    assert [g][0] == g && [f][0] == f;
  }

  lemma ThreeHits(a: Id, b: Id, c: Id, now: Time)
    requires a != b && b != c && a != c
    ensures HitCount(ThreeTuples(a, b, c), AorB, 0, now) == 2 && HitCount(ThreeTuples(a, b, c), AorB, 1, now) == 1
  {
    hide HasKeys;
    var hs := ThreeTuples(a, b, c);
    forall l | l in hs ensures HasKeys(true, ["a"], hs[l]) <==> l != c {
      OneFieldHits("a", if l == c then "b" else "a", l);
    }
    forall l | l in hs ensures HasKeys(true, ["b"], hs[l]) <==> l == c {
      OneFieldHits("b", if l == c then "b" else "a", l);
    }
    assert HitsOf(hs, AorB, 0, now) == {a, b} && HitsOf(hs, AorB, 1, now) == {c};
  }

  lemma ThreeForTwo(a: Id, b: Id, c: Id, now: Time)
    requires a != b && b != c && a != c
    ensures Verdict(ThreeTuples(a, b, c), AorB, now) == Ok && |Expected(ThreeTuples(a, b, c), AorB, now, 2)| == 3
  {
    var hs := ThreeTuples(a, b, c);
    ThreeHits(a, b, c, now);
    hide HitCount, HitsOf;
    assert ["a"][0] != WILDCARD && ["b"][0] != WILDCARD;
    assert TemplateOk(true, AorB.templates[0]) && TemplateOk(true, AorB.templates[1]);
    assert Trouble(hs, AorB, now, 1) == Trouble(hs, AorB, now, 2) == Ok;
    assert |Expected(hs, AorB, now, 1)| == 2;
  }

  /** A store with three records, and a read of at most two that returns all three. */
  method MaxIsExceeded() returns (store: Store, q: Query)
    ensures fresh(store) && fresh(q) && store.Valid() && q.max == 2 && |q.results| == 3
  {
    hide PropOk, ExpireOk, OwnerOk, Inv, Verdict, Expected, Results, OneEventEach;
    store := new Store();
    var rc, a := PutTuple(store, "a");
    var b, c;
    rc, b := PutTuple(store, "a");
    rc, c := PutTuple(store, "b");
    assert store.holderDb == ThreeTuples(a, b, c);
    ThreeForTwo(a, b, c, 0);
    q := new Query(false, true, 0, [["a"], ["b"]], 2);
    assert q.Params() == AorB;
    rc := store.Get(q, 0, false);
  }

  /** A put of a tuple of one field, for good. */
  method PutTuple(store: Store, field: string) returns (rc: Rc, l: Id)
    requires store.Valid() && store.clock == 0 && field != WILDCARD
    modifies store
    ensures store.Valid() && store.clock == 0 && rc == Ok && l !in old(store.holderDb)
    ensures store.holderDb == old(store.holderDb)[l := Tuple(l, field)]
  {
    assert [field][0] != WILDCARD;
    ghost var e;
    rc, l, e := store.Put(0, FOREVER, true, DataObject([field], []), 0, false);
  }

  // ----- a lapsed record the reaper leaves -----

  /** The only record lapses at 10; a pass at 20 finds no place to start and says it is
      done. */
  method ReaperLeavesLapsed() returns (store: Store, l: Id)
    ensures fresh(store) && store.Valid() && store.clock == 20
    ensures l in store.holderDb && store.holderDb[l].txnId == 0 && LeaseOver(store.holderDb[l], 20)
  {
    store := new Store();
    assert ["a"][0] != WILDCARD;
    ghost var e, victims;
    var rc;
    rc, l, e := store.Put(0, 10, true, DataObject(["a"], []), 0, false);
    OneExpiry(store.expireIdx, store.holderDb, l, 10);
    var more;
    more, victims := store.LeaseReaper(20);
    assert more == 0 && victims == {};
  }

  lemma OneExpiry(idx: set<(Time, Id)>, hs: Holders, l: Id, x: Time)
    requires ExpireOk(idx, hs) && hs.Keys == {l} && hs[l].txnId == 0 && hs[l].expire == x && 0 <= x <= 20
    ensures idx == {(x, l)} && Narrow(idx, 20)
  {
    assert (x, l) in idx <==> l in hs && hs[l].txnId == 0 && x != FOREVER && hs[l].expire == x;
    forall a, b | (a, b) in idx ensures a == x && b == l {
      assert (a, b) in idx <==> b in hs && hs[b].txnId == 0 && a != FOREVER && hs[b].expire == a;
    }
    forall e | e in idx ensures e == (x, l) {
      assert e == (e.0, e.1);
    }
    assert Within(idx, 20, 0) && IdsWithin(idx, l);
  }

  // ----- the comparators of the owner and expiry indexes -----

  const TWO31 := 0x8000_0000
  const TWO32 := 0x1_0000_0000

  /** A 64-bit difference returned as an int. */
  function Compare(a: int, b: int): (r: int)
    ensures -TWO31 <= r < TWO31
  {
    var m := (a - b) % TWO32;
    if m < TWO31 then m else m - TWO32
  }

  lemma CompareRight(a: int, b: int)
    requires -TWO31 <= a - b < TWO31
    ensures Compare(a, b) == a - b
  {
    if a < b {
      assert (a - b) % TWO32 == a - b + TWO32;
    }
  }

  predicate OrderedRightly(a: int, b: int) {
    (Compare(a, b) < 0 <==> a < b) && (Compare(a, b) == 0 <==> a == b)
  }

  /** The comparator orders all keys of an interval rightly if and only if the interval
      holds at most 2^31 of them. */
  lemma ComparatorIsRightIff(lo: int, hi: int)
    requires lo <= hi
    ensures (forall a, b :: lo <= a <= hi && lo <= b <= hi ==> OrderedRightly(a, b)) <==> hi - lo < 0x8000_0000
  {
    if hi - lo < TWO31 {
      forall a, b | lo <= a <= hi && lo <= b <= hi ensures OrderedRightly(a, b) {
        CompareRight(a, b);
      }
    } else {
      var a := lo + TWO31;
      assert (a - lo) % TWO32 == TWO31;
      assert !OrderedRightly(a, lo);
    }
  }
}

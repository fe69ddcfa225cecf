/**
 A transaction that does not commit leaves no trace: taking its steps out of any
 interleaved run leaves a legal run, which ends in the store the full run shows
 once the transaction is undone.
 */
module Rollback {
  import opened Space

  /** What the holders would be were `t` rolled back now. */
  function Undone(hs: Holders, t: Id): (r: Holders) {
    Finish(hs, t, WriteLock, TakeLock)
  }

  /** Whether `step` is a step of transaction `t`, `written` being the lease ids
      `t` has put so far.  A lease update counts as a step of `t` exactly when it
      is aimed at one of those. */
  predicate StepOf(step: Step, t: Id, written: set<Id>) {
    match step
    case DrawId(_) => false
    case Start(tid, _) => tid == t
    case Put(_, txn, _, _, _) => txn == t
    case Take(owner, _) => owner == t
    case Lease(l, _) => l in written
    case Extend(tid, _) => tid == t
    case Commit(tid, _) => tid == t
    case Rollback(tid) => tid == t
    case Reap(_) => false
  }

  function Writes(step: Step, t: Id): (r: set<Id>) {
    if step.Put? && step.txn == t then {step.lid} else {}
  }

  function Erase(run: Run, t: Id, written: set<Id>): (r: Run)
    decreases |run|
  {
    if run == [] then []
    else
      var rest := Erase(run[1..], t, written + Writes(run[0].step, t));
      if StepOf(run[0].step, t, written) then rest else [run[0]] + rest
  }

  predicate Commits(run: Run, t: Id) {
    exists i :: 0 <= i < |run| && run[i].step.Commit? && run[i].step.tid == t
  }

  /** The states of the full and of the erased run, side by side. */
  ghost predicate Hidden(s: Db, u: Db, t: Id, written: set<Id>) {
    t != 0 && Inv(s) && Inv(u) &&
    u.holders == Undone(s.holders, t) && u.txns == s.txns - {t} &&
    u.used <= s.used && u.clock <= s.clock &&
    written <= s.used && written !! u.used &&
    WrittenBy(s.holders, t, written)
  }

  lemma OwnedUnaffected(hs: Holders, t: Id, other: Id)
    requires other != t && other != 0
    ensures Owned(Undone(hs, t), other) == Owned(hs, other)
  {
  }

  // ----- undoing commutes with what others do to the holders -----

  predicate Mine(h: Holder, t: Id) {
    h.txnId == t && h.lock != Unlocked
  }

  lemma UndoneUpdate(hs: Holders, t: Id, l: Id, h: Holder)
    ensures !Mine(h, t) ==> Undone(hs[l := h], t) == Undone(hs, t)[l := h]
    ensures Mine(h, t) && h.lock == TakeLock ==> Undone(hs[l := h], t) == Undone(hs, t)[l := Released(h)]
    ensures Mine(h, t) && h.lock == WriteLock && l !in Undone(hs, t) ==> Undone(hs[l := h], t) == Undone(hs, t)
  {
  }

  ghost predicate AllFree(hs: Holders, lids: seq<Id>) {
    forall i :: 0 <= i < |lids| ==> lids[i] in hs && hs[lids[i]].lock == Unlocked && hs[lids[i]].txnId == 0
  }

  lemma FreeAreFree(hs: Holders, lids: seq<Id>, l: Id)
    requires AllFree(hs, lids) && l in lids
    ensures l in hs && hs[l].lock == Unlocked && hs[l].txnId == 0
  {
  }

  lemma UndoneOwnTake(hs: Holders, t: Id, lids: seq<Id>)
    requires t != 0 && AllFree(hs, lids)
    ensures Undone(TakeFrom(hs, t, lids), t) == Undone(hs, t)
  {
    forall l | l in lids ensures l in hs && hs[l].lock == Unlocked && hs[l].txnId == 0 { FreeAreFree(hs, lids, l); }
    hide AllFree;
  }

  lemma UndoneOthersTake(hs: Holders, t: Id, owner: Id, lids: seq<Id>)
    requires t != 0 && AllFree(hs, lids) && owner != t
    ensures Undone(TakeFrom(hs, owner, lids), t) == TakeFrom(Undone(hs, t), owner, lids)
  {
    forall l | l in lids ensures l in hs && hs[l].lock == Unlocked && hs[l].txnId == 0 { FreeAreFree(hs, lids, l); }
    hide AllFree;
  }

  lemma UndoneFinish(hs: Holders, t: Id, other: Id, del: Lock, clear: Lock)
    requires t != 0 && other != 0
    ensures other != t ==> Undone(Finish(hs, other, del, clear), t) == Finish(Undone(hs, t), other, del, clear)
  {
    if other != t {
      var a, b := Undone(Finish(hs, other, del, clear), t), Finish(Undone(hs, t), other, del, clear);
      assert a.Keys == b.Keys;
      forall l | l in a ensures a[l] == b[l] {}
    }
  }

  lemma UndoneTwice(hs: Holders, t: Id)
    requires t != 0
    ensures Undone(Undone(hs, t), t) == Undone(hs, t)
  {
  }

  lemma UndoneReap(hs: Holders, t: Id, victims: set<Id>)
    requires forall l :: l in victims ==> l in hs && hs[l].txnId == 0
    ensures Undone(map l | l in hs && l !in victims :: hs[l], t)
         == map l | l in Undone(hs, t) && l !in victims :: Undone(hs, t)[l]
  {
  }

  ghost predicate WrittenBy(hs: Holders, t: Id, written: set<Id>) {
    forall l :: l in hs ==> (l in written <==> hs[l].txnId == t && hs[l].lock == WriteLock)
  }

  lemma TakenAreFree(s: Db, now: Time, lids: seq<Id>)
    requires Inv(s)
    requires forall i :: 0 <= i < |lids| ==> lids[i] in s.holders && Visible(s.holders[lids[i]], now)
    ensures AllFree(s.holders, lids)
  {
    forall i | 0 <= i < |lids| ensures s.holders[lids[i]].txnId == 0 {
      assert HolderOk(s, lids[i]);
    }
  }

  lemma HoldersErased(s: Db, t: Id, written: set<Id>, e: Event)
    requires t != 0 && Inv(s) && WrittenBy(s.holders, t, written) && written <= s.used && Legal(s, e)
    requires StepOf(e.step, t, written) && !e.step.Commit?
    ensures Undone(Apply(s, e).holders, t) == Undone(s.holders, t)
    ensures WrittenBy(Apply(s, e).holders, t, written + Writes(e.step, t))
  {
    var hs := s.holders;
    match e.step
    case Put(l, _, expire, isTuple, data) =>
      assert l !in hs by { assert l in hs ==> HolderOk(s, l); }
      UndoneUpdate(hs, t, l, Apply(s, e).holders[l]);
    case Lease(l, expire) => UndoneUpdate(hs, t, l, hs[l].(expire := expire));
    case Take(_, lids) =>
      TakenAreFree(s, e.now, lids);
      UndoneOwnTake(hs, t, lids);
    case Rollback(_) => UndoneTwice(hs, t);
    case _ =>
  }

  lemma StepErased(s: Db, u: Db, t: Id, written: set<Id>, e: Event)
    requires Hidden(s, u, t, written) && Legal(s, e)
    requires StepOf(e.step, t, written) && !e.step.Commit?
    ensures Hidden(Apply(s, e), u, t, written + Writes(e.step, t))
  {
    InvHolds(s, e);
    HoldersErased(s, t, written, e);
    assert Apply(s, e).txns - {t} == u.txns;
  }

  lemma KeptIsLegal(s: Db, u: Db, t: Id, written: set<Id>, e: Event)
    requires Hidden(s, u, t, written) && Legal(s, e)
    requires !StepOf(e.step, t, written)
    ensures Legal(u, e)
  {
    match e.step
    case Take(owner, lids) =>
      forall i | 0 <= i < |lids| ensures lids[i] in u.holders && Visible(u.holders[lids[i]], e.now) {
        assert HolderOk(s, lids[i]);
      }
    case Commit(tid, _) => OwnedUnaffected(s.holders, t, tid);
    case _ =>
  }

  lemma HoldersKept(s: Db, u: Db, t: Id, written: set<Id>, e: Event)
    requires t != 0 && Inv(s) && u.holders == Undone(s.holders, t) && WrittenBy(s.holders, t, written)
    requires Legal(s, e) && Legal(u, e) && !StepOf(e.step, t, written)
    ensures Undone(Apply(s, e).holders, t) == Apply(u, e).holders
  {
    var hs := s.holders;
    match e.step
    case Put(l, _, _, _, _) => UndoneUpdate(hs, t, l, Apply(s, e).holders[l]);
    case Lease(l, expire) =>
      assert HolderOk(s, l);
      UndoneUpdate(hs, t, l, hs[l].(expire := expire));
    case Take(owner, lids) =>
      TakenAreFree(s, e.now, lids);
      UndoneOthersTake(hs, t, owner, lids);
    case Commit(other, _) => UndoneFinish(hs, t, other, TakeLock, WriteLock);
    case Rollback(other) => UndoneFinish(hs, t, other, WriteLock, TakeLock);
    case Reap(victims) => UndoneReap(hs, t, victims);
    case _ =>
  }

  lemma WrittenKept(s: Db, t: Id, written: set<Id>, e: Event)
    requires t != 0 && Inv(s) && WrittenBy(s.holders, t, written) && written <= s.used
    requires Legal(s, e) && !StepOf(e.step, t, written)
    ensures WrittenBy(Apply(s, e).holders, t, written)
  {
    if e.step.Take? {
      TakenAreFree(s, e.now, e.step.lids);
    }
  }

  lemma TxnsKept(s: Db, u: Db, t: Id, written: set<Id>, e: Event)
    requires u.txns == s.txns - {t}
    requires Legal(s, e) && Legal(u, e) && !StepOf(e.step, t, written)
    ensures Apply(u, e).txns == Apply(s, e).txns - {t}
  {
    hide Finish, TakeFrom, Until;
    match e.step
    case Start(tid, _) => assert tid != t;
    case Extend(tid, _) => assert tid != t;
    case Commit(tid, _) => assert tid != t;
    case Rollback(tid) => assert tid != t;
    case _ =>
  }

  lemma StepKept(s: Db, u: Db, t: Id, written: set<Id>, e: Event)
    requires Hidden(s, u, t, written) && Legal(s, e)
    requires !StepOf(e.step, t, written)
    ensures Legal(u, e) && Hidden(Apply(s, e), Apply(u, e), t, written)
  {
    KeptIsLegal(s, u, t, written, e);
    InvHolds(s, e);
    InvHolds(u, e);
    HoldersKept(s, u, t, written, e);
    WrittenKept(s, t, written, e);
    TxnsKept(s, u, t, written, e);
  }

  /** The lease ids `t` has put by the end of the run. */
  function WrittenIn(run: Run, t: Id, written: set<Id>): (r: set<Id>)
    decreases |run|
  {
    if run == [] then written else WrittenIn(run[1..], t, written + Writes(run[0].step, t))
  }

  lemma {:induction false} EraseKeepsHidden(s: Db, u: Db, t: Id, written: set<Id>, run: Run)
    requires Hidden(s, u, t, written) && LegalRun(s, run) && !Commits(run, t)
    ensures LegalRun(u, Erase(run, t, written))
    ensures Hidden(End(s, run), End(u, Erase(run, t, written)), t, WrittenIn(run, t, written))
    decreases |run|
  {
    if run != [] {
      var e := run[0];
      var written' := written + Writes(e.step, t);
      if StepOf(e.step, t, written) {
        StepErased(s, u, t, written, e);
        EraseKeepsHidden(Apply(s, e), u, t, written', run[1..]);
      } else {
        StepKept(s, u, t, written, e);
        assert written' == written;
        EraseKeepsHidden(Apply(s, e), Apply(u, e), t, written', run[1..]);
        var rest := Erase(run[1..], t, written');
        assert ([e] + rest)[1..] == rest;
      }
    }
  }

  lemma FreshIsHidden(s: Db, t: Id)
    requires Inv(s) && t != 0 && t !in s.used
    ensures Hidden(s, s, t, {})
  {
    forall l | l in s.holders ensures HolderOk(s, l) && s.holders[l].txnId != t {
      assert HolderOk(s, l);
    }
    assert Undone(s.holders, t) == s.holders;
    assert s.txns - {t} == s.txns;
  }

  /** At every point before it commits, erasing `t` from the run leads to the
      store with `t` undone. */
  lemma UncommittedIsInvisible(s: Db, run: Run, t: Id)
    requires Inv(s) && t != 0 && t !in s.used && LegalRun(s, run) && !Commits(run, t)
    ensures LegalRun(s, Erase(run, t, {}))
    ensures var v := End(s, Erase(run, t, {}));
            v.holders == Undone(End(s, run).holders, t) && v.txns == End(s, run).txns - {t}
  {
    FreshIsHidden(s, t);
    EraseKeepsHidden(s, s, t, {}, run);
  }

  lemma FinishedOwnsNothing(s: Db, t: Id)
    requires Inv(s) && t in s.txns && s.txns[t].status != Active
    ensures Owned(s.holders, t) == {} && Undone(s.holders, t) == s.holders
  {
    forall l | l in s.holders ensures s.holders[l].txnId != t {
      assert HolderOk(s, l);
    }
  }

  /** Rollback leaves no trace: every run in which `t` starts and is rolled back
      ends with the same holders, record for record, as the run without it. */
  lemma RollbackLeavesNoTrace(s: Db, run: Run, t: Id)
    requires Inv(s) && t != 0 && t !in s.used && LegalRun(s, run) && !Commits(run, t)
    requires t in End(s, run).txns && End(s, run).txns[t].status == RolledBack
    ensures LegalRun(s, Erase(run, t, {}))
    ensures End(s, Erase(run, t, {})).holders == End(s, run).holders
    ensures End(s, Erase(run, t, {})).txns == End(s, run).txns - {t}
  {
    UncommittedIsInvisible(s, run, t);
    InvRun(s, run);
    FinishedOwnsNothing(End(s, run), t);
  }
}

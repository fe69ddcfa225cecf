/**
 What holds over whole runs of the store: the life of one lease id, who may
 take it, what becomes of finished and of expired transactions, which wake-up
 events fire, and that reaping cannot be observed.
 */
module History {
  import opened Space
  import opened Rollback

  // ----- the life of a lease id -----

  datatype Fate = Unborn | Free | Written(owner: Id) | Taken(owner: Id) | Consumed | Withdrawn | Reaped

  /** The fate of `l` after a step, told from the step's label alone. */
  function NextFate(f: Fate, step: Step, l: Id): (r: Fate) {
    match step
    case Put(lid, t, _, _, _) => if lid != l then f else if t == 0 then Free else Written(t)
    case Take(owner, lids) => if l !in lids then f else if owner == 0 then Consumed else Taken(owner)
    case Commit(t, _) => if f == Written(t) then Free else if f == Taken(t) then Consumed else f
    case Rollback(t) => if f == Written(t) then Withdrawn else if f == Taken(t) then Free else f
    case Reap(victims) => if l in victims then Reaped else f
    case _ => f
  }

  function FateAfter(f: Fate, run: Run, l: Id): (r: Fate)
    decreases |run|
  {
    if run == [] then f else FateAfter(NextFate(f, run[0].step, l), run[1..], l)
  }

  /** Holding `f` to be the fate of `l` is right for state `s`. */
  ghost predicate Agrees(s: Db, l: Id, f: Fate) {
    match f
    case Unborn => l !in s.holders
    case Free => l in s.holders && s.holders[l].lock == Unlocked && s.holders[l].txnId == 0
    case Written(t) => l in s.holders && s.holders[l].lock == WriteLock && s.holders[l].txnId == t && t != 0
    case Taken(t) => l in s.holders && s.holders[l].lock == TakeLock && s.holders[l].txnId == t && t != 0
    case _ => l !in s.holders && l in s.used
  }

  lemma FateStep(s: Db, e: Event, l: Id, f: Fate)
    requires Inv(s) && Legal(s, e) && Agrees(s, l, f)
    ensures Agrees(Apply(s, e), l, NextFate(f, e.step, l))
  {
    assert l in s.holders ==> HolderOk(s, l);
  }

  /** Conservation: over any run every lease id is in exactly the one place its
      fate names. */
  lemma {:induction false} FateRun(s: Db, run: Run, l: Id, f: Fate)
    requires Inv(s) && LegalRun(s, run) && Agrees(s, l, f)
    ensures Agrees(End(s, run), l, FateAfter(f, run, l))
    decreases |run|
  {
    if run != [] {
      InvHolds(s, run[0]);
      FateStep(s, run[0], l, f);
      FateRun(Apply(s, run[0]), run[1..], l, NextFate(f, run[0].step, l));
    }
  }

  /** The step removes `l` for a taker, either at once or by committing the take. */
  ghost predicate Consumes(s: Db, e: Event, l: Id)
    requires Legal(s, e)
  {
    l in s.holders && l !in Apply(s, e).holders && (e.step.Take? || e.step.Commit?)
  }

  ghost function Consumptions(s: Db, run: Run, l: Id): (r: nat)
    requires LegalRun(s, run)
    decreases |run|
  {
    if run == [] then 0
    else (if Consumes(s, run[0], l) then 1 else 0) + Consumptions(Apply(s, run[0]), run[1..], l)
  }

  lemma {:induction false} GoneStaysGone(s: Db, run: Run, l: Id)
    requires Inv(s) && LegalRun(s, run) && l !in s.holders && l in s.used
    ensures l !in End(s, run).holders && Consumptions(s, run, l) == 0
    ensures forall f :: FateAfter(f, run, l) == Consumed <== f == Consumed
    decreases |run|
  {
    if run != [] {
      InvHolds(s, run[0]);
      FateStep(s, run[0], l, Consumed);
      assert forall f :: NextFate(f, run[0].step, l) == Consumed <== f == Consumed;
      GoneStaysGone(Apply(s, run[0]), run[1..], l);
    }
  }

  lemma {:induction false} FinalFates(s: Db, run: Run, l: Id, f: Fate)
    requires Inv(s) && LegalRun(s, run) && Agrees(s, l, f)
    requires f.Consumed? || f.Withdrawn? || f.Reaped?
    ensures FateAfter(f, run, l) == f
    decreases |run|
  {
    if run != [] {
      InvHolds(s, run[0]);
      FateStep(s, run[0], l, f);
      FinalFates(Apply(s, run[0]), run[1..], l, f);
    }
  }

  /** A lease id is consumed by at most one take, and exactly when that is its fate. */
  lemma {:induction false} ConsumedOnce(s: Db, run: Run, l: Id, f: Fate)
    requires Inv(s) && LegalRun(s, run) && Agrees(s, l, f) && f != Consumed
    ensures Consumptions(s, run, l) <= 1
    ensures Consumptions(s, run, l) == 1 <==> FateAfter(f, run, l) == Consumed
    decreases |run|
  {
    if run != [] {
      var e := run[0];
      InvHolds(s, e);
      FateStep(s, e, l, f);
      if l in s.holders {
        assert HolderOk(s, l);
      }
      var f' := NextFate(f, e.step, l);
      if f' == Consumed {
        GoneStaysGone(Apply(s, e), run[1..], l);
        FinalFates(Apply(s, e), run[1..], l, f');
      } else {
        ConsumedOnce(Apply(s, e), run[1..], l, f');
      }
    }
  }

  // ----- exclusive takes -----

  predicate RollsBack(run: Run, t: Id) {
    exists i :: 0 <= i < |run| && run[i].step == Step.Rollback(t)
  }

  lemma {:induction false} TakenUntilRollback(s: Db, run: Run, l: Id, t: Id)
    requires Inv(s) && LegalRun(s, run) && !RollsBack(run, t) && l in s.used
    requires l !in s.holders || (t != 0 && Agrees(s, l, Taken(t)))
    ensures l !in End(s, run).holders || Agrees(End(s, run), l, Taken(t))
    decreases |run|
  {
    if run != [] {
      var e := run[0];
      InvHolds(s, e);
      FateStep(s, e, l, if l in s.holders then Taken(t) else Consumed);
      assert forall i :: 0 <= i < |run[1..]| ==> run[1..][i] == run[i + 1];
      TakenUntilRollback(Apply(s, e), run[1..], l, t);
    }
  }

  /** Takes are exclusive: once `first` has taken `l`, a later take of `l` can
      succeed only after the first taker's transaction was rolled back. */
  lemma TakesAreExclusive(s: Db, first: Event, mid: Run, second: Event, l: Id)
    requires Inv(s) && LegalRun(s, [first] + mid + [second])
    requires first.step.Take? && l in first.step.lids
    requires second.step.Take? && l in second.step.lids
    ensures first.step.owner != 0 && RollsBack(mid, first.step.owner)
  {
    assert [first] + mid + [second] == [first] + (mid + [second]);
    assert ([first] + (mid + [second]))[1..] == mid + [second];
    assert HolderOk(s, l);
    InvHolds(s, first);
    FateStep(s, first, l, Free);
    var m := Apply(s, first);
    RunPrefix(m, mid, [second]);
    RunConcat(m, mid, [second]);
    assert Legal(End(m, mid), second);
    var owner := first.step.owner;
    if owner == 0 || !RollsBack(mid, owner) {
      if owner == 0 {
        GoneStaysGone(m, mid, l);
      } else {
        TakenUntilRollback(m, mid, l, owner);
      }
      assert false;
    }
  }

  // ----- finished and expired transactions -----

  lemma {:induction false} StatusIsFinal(s: Db, run: Run, t: Id)
    requires Inv(s) && LegalRun(s, run) && t in s.txns && s.txns[t].status != Active
    ensures t in End(s, run).txns && End(s, run).txns[t] == s.txns[t]
    decreases |run|
  {
    if run != [] {
      InvHolds(s, run[0]);
      assert t in s.used;
      StatusIsFinal(Apply(s, run[0]), run[1..], t);
    }
  }

  ghost predicate StillHeld(s: Db, u: Db, t: Id) {
    forall l :: l in Owned(s.holders, t) ==>
      l in u.holders && u.holders[l].txnId == t && u.holders[l].lock == s.holders[l].lock
  }

  /** A transaction that expires while active stays active for good, and what it
      holds is never unlocked or deleted. */
  lemma {:induction false} ExpiredHoldsForever(s: Db, run: Run, t: Id)
    requires Inv(s) && LegalRun(s, run) && t in s.txns && s.txns[t].status == Active
    requires s.txns[t].expire != -1 && s.txns[t].expire < s.clock
    ensures t in End(s, run).txns && End(s, run).txns[t] == s.txns[t]
    ensures StillHeld(s, End(s, run), t)
    decreases |run|
  {
    if run != [] {
      var e := run[0];
      InvHolds(s, e);
      assert t in s.used;
      var s' := Apply(s, e);
      assert s'.txns[t] == s.txns[t];
      forall l | l in Owned(s.holders, t)
        ensures l in s'.holders && s'.holders[l].txnId == t && s'.holders[l].lock == s.holders[l].lock
      {
        assert HolderOk(s, l);
      }
      ExpiredHoldsForever(s', run[1..], t);
      assert forall l :: l in Owned(s.holders, t) ==> l in Owned(s'.holders, t);
    }
  }

  lemma {:induction false} FinishedNeverCommits(s: Db, run: Run, t: Id)
    requires Inv(s) && LegalRun(s, run) && t in s.txns && s.txns[t].status != Active
    ensures !Commits(run, t)
    decreases |run|
  {
    if run != [] {
      InvHolds(s, run[0]);
      assert t in s.used;
      FinishedNeverCommits(Apply(s, run[0]), run[1..], t);
    }
  }

  /** `t` has written record `l`, which the attribute index refuses. */
  ghost predicate HoldsUnindexable(s: Db, t: Id, l: Id) {
    t != 0 && l in s.holders && s.holders[l].txnId == t && s.holders[l].lock == WriteLock &&
    !Indexable(s.holders[l].isTuple, s.holders[l].data.attrs)
  }

  lemma StillUnindexable(s: Db, e: Event, t: Id, l: Id)
    requires Inv(s) && Legal(s, e) && HoldsUnindexable(s, t, l)
    ensures e.step != Step.Rollback(t) ==> HoldsUnindexable(Apply(s, e), t, l)
    ensures !(e.step.Commit? && e.step.tid == t)
  {
    assert HolderOk(s, l);
  }

  /** Such a transaction never commits, in any run. */
  lemma {:induction false} UnindexableNeverCommits(s: Db, run: Run, t: Id, l: Id)
    requires Inv(s) && LegalRun(s, run) && HoldsUnindexable(s, t, l)
    ensures !Commits(run, t)
    decreases |run|
  {
    if run != [] {
      var e, rest := run[0], run[1..];
      InvHolds(s, e);
      StillUnindexable(s, e, t, l);
      if e.step == Step.Rollback(t) {
        FinishedNeverCommits(Apply(s, e), rest, t);
      } else {
        UnindexableNeverCommits(Apply(s, e), rest, t, l);
      }
      assert forall i :: 0 < i < |run| ==> run[i] == rest[i - 1];
    }
  }

  // ----- wake-up events -----

  /** The records a step fires a write event for, branch by branch. */
  function Fires(s: Db, e: Event): (r: set<Id>) {
    match e.step
    case Put(l, t, _, _, _) => if t == 0 then {l} else {}
    case Commit(t, _) => Locked(s.holders, t, WriteLock)
    case Rollback(t) => Locked(s.holders, t, TakeLock)
    case _ => {}
  }

  function BecomeFree(s: Db, u: Db): (r: set<Id>) {
    set l | l in u.holders && u.holders[l].txnId == 0 && (l !in s.holders || s.holders[l].txnId != 0)
  }

  /** Wake-up events are exact. */
  lemma WakeUpsAreExact(s: Db, e: Event)
    requires Inv(s) && Legal(s, e)
    ensures Fires(s, e) == BecomeFree(s, Apply(s, e))
  {
    var u := Apply(s, e);
    forall l ensures l in Fires(s, e) <==> l in BecomeFree(s, u) {
      assert l in s.holders ==> HolderOk(s, l);
    }
  }

  // ----- reaping is invisible -----

  function WithoutReaps(run: Run): (r: Run)
    decreases |run|
  {
    if run == [] then []
    else if run[0].step.Reap? then WithoutReaps(run[1..])
    else [run[0]] + WithoutReaps(run[1..])
  }

  /** `us` is `hs` with unowned records of a lapsed lease still there. */
  ghost predicate OnlyLapsed(hs: Holders, us: Holders, now: Time) {
    (forall l :: l in hs ==> l in us && us[l] == hs[l]) &&
    forall l :: l in us && l !in hs ==> us[l].txnId == 0 && LeaseOver(us[l], now)
  }

  ghost predicate Unreaped(s: Db, u: Db) {
    Inv(s) && Inv(u) && u.txns == s.txns && u.used == s.used && u.clock <= s.clock &&
    OnlyLapsed(s.holders, u.holders, s.clock)
  }

  lemma UnreapedLegal(s: Db, u: Db, e: Event)
    requires Unreaped(s, u) && Legal(s, e) && !e.step.Reap?
    ensures Legal(u, e)
  {
    if e.step.Commit? {
      assert Owned(u.holders, e.step.tid) == Owned(s.holders, e.step.tid);
    }
  }

  lemma UnreapedHolders(s: Db, u: Db, e: Event)
    requires OnlyLapsed(s.holders, u.holders, e.now) && Legal(s, e) && Legal(u, e) && 0 !in s.txns
    ensures !e.step.Reap? ==> OnlyLapsed(Apply(s, e).holders, Apply(u, e).holders, e.now)
    ensures e.step.Reap? ==> OnlyLapsed(Apply(s, e).holders, u.holders, e.now)
  {
    hide Finish, Expired, Indexable;
    match e.step
    case Commit(t, _) => UnreapedFinish(s.holders, u.holders, e.now, t, TakeLock, WriteLock);
    case Rollback(t) => UnreapedFinish(s.holders, u.holders, e.now, t, WriteLock, TakeLock);
    case Take(owner, lids) =>
      forall l | l in lids ensures l in s.holders {}
    case _ =>
  }

  lemma UnreapedFinish(hs: Holders, us: Holders, now: Time, t: Id, del: Lock, clear: Lock)
    requires OnlyLapsed(hs, us, now) && t != 0
    ensures OnlyLapsed(Finish(hs, t, del, clear), Finish(us, t, del, clear), now)
  {
  }

  lemma UnreapedStep(s: Db, u: Db, e: Event)
    requires Unreaped(s, u) && Legal(s, e)
    ensures e.step.Reap? ==> Unreaped(Apply(s, e), u)
    ensures !e.step.Reap? ==> Legal(u, e) && Unreaped(Apply(s, e), Apply(u, e))
  {
    InvHolds(s, e);
    if !e.step.Reap? {
      UnreapedLegal(s, u, e);
      InvHolds(u, e);
    }
    UnreapedHolders(s, u, e);
  }

  lemma {:induction false} UnreapedRun(s: Db, u: Db, run: Run)
    requires Unreaped(s, u) && LegalRun(s, run)
    ensures LegalRun(u, WithoutReaps(run)) && Unreaped(End(s, run), End(u, WithoutReaps(run)))
    decreases |run|
  {
    if run != [] {
      var e := run[0];
      UnreapedStep(s, u, e);
      if e.step.Reap? {
        UnreapedRun(Apply(s, e), u, run[1..]);
      } else {
        UnreapedRun(Apply(s, e), Apply(u, e), run[1..]);
        assert ([e] + WithoutReaps(run[1..]))[1..] == WithoutReaps(run[1..]);
      }
    }
  }

  function VisibleAt(s: Db, now: Time): (r: Holders) {
    map l | l in s.holders && Visible(s.holders[l], now) :: s.holders[l]
  }

  /** Reaping is invisible: a run and the same run with the reaper switched off
      offer every later get the same records, and know the same transactions. */
  lemma ReapingIsInvisible(s: Db, run: Run, now: Time)
    requires Inv(s) && LegalRun(s, run) && End(s, run).clock <= now
    ensures LegalRun(s, WithoutReaps(run))
    ensures VisibleAt(End(s, WithoutReaps(run)), now) == VisibleAt(End(s, run), now)
    ensures End(s, WithoutReaps(run)).txns == End(s, run).txns
  {
    hide LegalRun, End, Inv;
    UnreapedRun(s, s, run);
    SameVisible(End(s, run), End(s, WithoutReaps(run)), now);
  }

  lemma SameVisible(s: Db, u: Db, now: Time)
    requires OnlyLapsed(s.holders, u.holders, s.clock) && s.clock <= now
    ensures VisibleAt(u, now) == VisibleAt(s, now)
  {
  }
}

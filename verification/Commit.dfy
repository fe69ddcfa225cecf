/**
 Commit is atomic: a run in which a transaction commits ends with the same
 holders as the run in which the transaction does nothing until the commit, and
 then all its puts are plain puts and all its takes plain deletes.
 */
module CommitAtomicity {
  import opened Space
  import opened Rollback

  /** The elements of a finite set, each once. */
  ghost function Listed(s: set<Id>): (r: seq<Id>)
    ensures Distinct(r) && forall l :: l in r <==> l in s
  {
    if s == {} then []
    else
      var l :| l in s;
      [l] + Listed(s - {l})
  }

  function PlainPut(h: Holder, l: Id, now: Time): (r: Event) {
    Event(now, Put(l, 0, h.expire, h.isTuple, h.data))
  }

  function PlainPuts(hs: Holders, lids: seq<Id>, now: Time): (r: Run)
    requires forall l :: l in lids ==> l in hs
    ensures |r| == |lids|
  {
    seq(|lids|, i requires 0 <= i < |lids| => PlainPut(hs[lids[i]], lids[i], now))
  }

  /** What `t` would do without a transaction, all at the time of its commit: put
      what it wrote, take what it took, and leave to the reaper what it took and
      whose lease has run out since. */
  ghost function Batch(hs: Holders, t: Id, now: Time): (r: Run) {
    var taken := Locked(hs, t, TakeLock);
    var over := set l | l in taken && LeaseOver(hs[l], now);
    PlainPuts(hs, Listed(Locked(hs, t, WriteLock)), now) +
    [Event(now, Take(0, Listed(taken - over))), Event(now, Reap(over))]
  }

  // ----- the plain puts -----

  function WithPuts(us: Holders, hs: Holders, lids: seq<Id>): (r: Holders)
    requires forall l :: l in lids ==> l in hs
  {
    us + map l | l in lids :: Released(hs[l])
  }

  ghost predicate PutsReady(u: Db, hs: Holders, lids: seq<Id>) {
    Distinct(lids) &&
    forall l :: l in lids ==> l in hs && hs[l].leaseId == l && l != 0 && l !in u.used &&
                              Indexable(hs[l].isTuple, hs[l].data.attrs)
  }

  lemma PlainPutStep(u: Db, hs: Holders, lids: seq<Id>, now: Time)
    requires PutsReady(u, hs, lids) && u.clock <= now && lids != []
    ensures var e := PlainPut(hs[lids[0]], lids[0], now);
            Legal(u, e) && PutsReady(Apply(u, e), hs, lids[1..]) &&
            Apply(u, e) == u.(holders := u.holders[lids[0] := Released(hs[lids[0]])],
                              used := u.used + {lids[0]}, clock := now)
  {
    forall k | k in lids[1..] ensures k != lids[0] && k in lids {}
  }

  lemma WithPutsCons(us: Holders, hs: Holders, lids: seq<Id>)
    requires lids != [] && forall l :: l in lids ==> l in hs
    ensures WithPuts(us[lids[0] := Released(hs[lids[0]])], hs, lids[1..]) == WithPuts(us, hs, lids)
  {
    assert lids == [lids[0]] + lids[1..];
  }

  lemma NoPuts(us: Holders, hs: Holders)
    ensures WithPuts(us, hs, []) == us
  {
  }

  lemma {:induction false} PlainPutsRun(u: Db, hs: Holders, lids: seq<Id>, now: Time)
    requires PutsReady(u, hs, lids) && u.clock <= now
    ensures LegalRun(u, PlainPuts(hs, lids, now))
    ensures var v := End(u, PlainPuts(hs, lids, now));
            v.holders == WithPuts(u.holders, hs, lids) && v.txns == u.txns && v.clock <= now &&
            v.used == u.used + set l | l in lids
    decreases |lids|
  {
    hide Legal, Apply, Released, WithPuts;
    var run := PlainPuts(hs, lids, now);
    if lids == [] {
      NoPuts(u.holders, hs);
    } else {
      PlainPutStep(u, hs, lids, now);
      assert run[0] == PlainPut(hs[lids[0]], lids[0], now) && run[1..] == PlainPuts(hs, lids[1..], now);
      PlainPutsRun(Apply(u, run[0]), hs, lids[1..], now);
      WithPutsCons(u.holders, hs, lids);
      assert lids == [lids[0]] + lids[1..];
    }
  }

  // ----- the whole batch -----

  lemma TwoSteps(u: Db, a: Event, b: Event)
    requires Legal(u, a) && Legal(Apply(u, a), b)
    ensures LegalRun(u, [a, b]) && End(u, [a, b]) == Apply(Apply(u, a), b)
  {
    assert [a, b][1..] == [b] && [b][1..] == [];
    assert LegalRun(Apply(u, a), [b]);
    assert End(Apply(u, a), [b]) == Apply(Apply(u, a), b);
  }

  /** Deleting what `t` took, from a state in which `t` never took it. */
  lemma DeletesRun(v: Db, hs: Holders, t: Id, now: Time)
    requires t != 0 && v.clock <= now
    requires forall l :: l in Locked(hs, t, TakeLock) ==> l in v.holders && v.holders[l] == Released(hs[l])
    ensures var taken := Locked(hs, t, TakeLock);
            var over := set l | l in taken && LeaseOver(hs[l], now);
            var tail := [Event(now, Take(0, Listed(taken - over))), Event(now, Reap(over))];
            LegalRun(v, tail) &&
            End(v, tail) == v.(holders := v.holders - taken, clock := now)
  {
    var taken := Locked(hs, t, TakeLock);
    var over := set l | l in taken && LeaseOver(hs[l], now);
    var a, b := Event(now, Take(0, Listed(taken - over))), Event(now, Reap(over));
    TakesSome(v, taken - over, now);
    var w := v.(holders := v.holders - (taken - over), clock := now);
    ReapsRest(w, over, now);
    hide Legal, Apply, Locked, LeaseOver;
    TwoSteps(v, a, b);
    assert (v.holders - (taken - over)) - over == v.holders - taken;
  }

  lemma TakesSome(v: Db, some: set<Id>, now: Time)
    requires v.clock <= now && forall l :: l in some ==> l in v.holders && Visible(v.holders[l], now)
    ensures var a := Event(now, Take(0, Listed(some)));
            Legal(v, a) && Apply(v, a) == v.(holders := v.holders - some, clock := now)
  {
    var lids := Listed(some);
    forall i | 0 <= i < |lids| ensures lids[i] in v.holders && Visible(v.holders[lids[i]], now) {
      assert lids[i] in some;
    }
    assert TakeFrom(v.holders, 0, lids) == v.holders - some;
  }

  lemma ReapsRest(w: Db, over: set<Id>, now: Time)
    requires w.clock <= now
    requires forall l :: l in over ==> l in w.holders && w.holders[l].txnId == 0 && LeaseOver(w.holders[l], now)
    ensures var b := Event(now, Reap(over));
            Legal(w, b) && Apply(w, b) == w.(holders := w.holders - over, clock := now)
  {
  }

  lemma BatchHolders(hs: Holders, t: Id)
    requires t != 0
    ensures WithPuts(Undone(hs, t), hs, Listed(Locked(hs, t, WriteLock))) - Locked(hs, t, TakeLock)
         == Finish(hs, t, TakeLock, WriteLock)
  {
  }

  lemma BatchReady(s: Db, u: Db, t: Id, written: set<Id>)
    requires Hidden(s, u, t, written) && CanClear(s.holders, t, WriteLock)
    ensures PutsReady(u, s.holders, Listed(Locked(s.holders, t, WriteLock)))
  {
    forall l | l in Locked(s.holders, t, WriteLock)
      ensures s.holders[l].leaseId == l && l != 0 && l !in u.used
    {
      assert HolderOk(s, l) && l in written;
    }
  }

  /** Before the batch's deletes everything `t` took is there again. */
  lemma TakenAreBack(hs: Holders, t: Id)
    requires t != 0
    ensures var lids := Listed(Locked(hs, t, WriteLock));
            forall l :: l in Locked(hs, t, TakeLock) ==>
              l in WithPuts(Undone(hs, t), hs, lids) && WithPuts(Undone(hs, t), hs, lids)[l] == Released(hs[l])
  {
  }

  lemma BatchRun(s: Db, u: Db, t: Id, written: set<Id>, now: Time)
    requires Hidden(s, u, t, written) && CanClear(s.holders, t, WriteLock) && s.clock <= now
    ensures LegalRun(u, Batch(s.holders, t, now))
    ensures var w := End(u, Batch(s.holders, t, now));
            w.holders == Finish(s.holders, t, TakeLock, WriteLock) && w.txns == u.txns &&
            w.used == u.used + Locked(s.holders, t, WriteLock) && w.clock == now
  {
    hide Legal, Apply, LegalRun, End, PutsReady, CanClear, Finish, WithPuts, PlainPuts, Inv;
    var hs := s.holders;
    var lids := Listed(Locked(hs, t, WriteLock));
    BatchReady(s, u, t, written);
    PlainPutsRun(u, hs, lids, now);
    var puts := PlainPuts(hs, lids, now);
    var v := End(u, puts);
    TakenAreBack(hs, t);
    DeletesRun(v, hs, t, now);
    var tail := Batch(hs, t, now)[|puts|..];
    assert Batch(hs, t, now) == puts + tail;
    RunConcat(u, puts, tail);
    BatchHolders(hs, t);
    assert (set l | l in lids) == Locked(hs, t, WriteLock);
  }

  lemma BatchIsCommit(s: Db, u: Db, t: Id, written: set<Id>, e: Event)
    requires Hidden(s, u, t, written) && Legal(s, e) && e.step.Commit? && e.step.tid == t
    ensures LegalRun(u, Batch(s.holders, t, e.now))
    ensures Hidden(Apply(s, e), End(u, Batch(s.holders, t, e.now)), t, {})
  {
    BatchRun(s, u, t, written, e.now);
    InvRun(u, Batch(s.holders, t, e.now));
    InvHolds(s, e);
    var r, w := Apply(s, e), End(u, Batch(s.holders, t, e.now));
    FinishedOwnsNothing(r, t);
    assert w.used <= r.used by {
      forall l | l in Locked(s.holders, t, WriteLock) ensures l in s.used { assert HolderOk(s, l); }
    }
    assert w.txns == r.txns - {t};
    forall l | l in r.holders ensures r.holders[l].txnId != t { assert l !in Owned(r.holders, t); }
  }

  // ----- what follows the commit -----

  lemma {:induction false} FinishedDoesNothing(s: Db, t: Id, run: Run)
    requires Inv(s) && t in s.txns && s.txns[t].status != Active && LegalRun(s, run)
    ensures Erase(run, t, {}) == run && !Commits(run, t)
    ensures t in End(s, run).txns && End(s, run).txns[t] == s.txns[t]
    decreases |run|
  {
    if run != [] {
      var e := run[0];
      assert t in s.used;
      InvHolds(s, e);
      FinishedDoesNothing(Apply(s, e), t, run[1..]);
      assert Writes(e.step, t) == {};
      assert {} + Writes(e.step, t) == {};
    }
  }

  /** Commit is atomic. */
  lemma CommitIsAtomic(s: Db, pre: Run, e: Event, post: Run, t: Id)
    requires Inv(s) && t != 0 && t !in s.used
    requires LegalRun(s, pre + ([e] + post)) && !Commits(pre, t)
    requires e.step.Commit? && e.step.tid == t
    ensures LegalRun(s, pre)
    ensures var plain := Erase(pre, t, {}) + (Batch(End(s, pre).holders, t, e.now) + post);
            LegalRun(s, plain) &&
            End(s, plain).holders == End(s, pre + ([e] + post)).holders &&
            End(s, plain).txns == End(s, pre + ([e] + post)).txns - {t}
  {
    RunPrefix(s, pre, [e] + post);
    RunConcat(s, pre, [e] + post);
    FreshIsHidden(s, t);
    EraseKeepsHidden(s, s, t, {}, pre);
    var m := End(s, pre);
    var erased := Erase(pre, t, {});
    var u := End(s, erased);
    assert ([e] + post)[0] == e && ([e] + post)[1..] == post;
    var batch := Batch(m.holders, t, e.now);
    var written := WrittenIn(pre, t, {});
    BatchIsCommit(m, u, t, written, e);
    var m', u' := Apply(m, e), End(u, batch);
    FinishedDoesNothing(m', t, post);
    EraseKeepsHidden(m', u', t, {}, post);
    InvRun(m', post);
    FinishedOwnsNothing(End(m', post), t);
    RunConcat(u, batch, post);
    RunConcat(s, erased, batch + post);
  }
}

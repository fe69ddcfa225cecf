/**
 What a client is promised, told from clock readings, attribute lists and results
 alone: how long a record can be had, how long a transaction can be finished, which
 gets are refused, which miss, and what a get hands back.
 */
module Promise {
  import opened Space
  import opened History
  import opened PropIndex
  import opened OeBdb

  // ----- leases, over whole runs -----

  /** No step takes record `l` or renews its lease. */
  predicate LeftAlone(run: Run, l: Id) {
    forall i :: 0 <= i < |run| ==>
      !(run[i].step.Take? && l in run[i].step.lids) && !(run[i].step.Lease? && run[i].step.lid == l)
  }

  /** Record `l` is there at `m`, held by nobody and within its lease. */
  ghost predicate OnOffer(hs: Holders, l: Id, m: Time) {
    l in hs && hs[l].lock == Unlocked && (hs[l].expire == -1 || m < hs[l].expire)
  }

  lemma AloneStep(s: Db, e: Event, l: Id)
    requires Inv(s) && Legal(s, e) && l in s.holders && s.holders[l].txnId == 0 && LeftAlone([e], l)
    ensures var s' := Apply(s, e);
            if l in s'.holders then s'.holders[l] == s.holders[l]
            else s.holders[l].expire != -1 && s.holders[l].expire <= e.now
  {
    assert [e][0] == e && HolderOk(s, l);
  }

  lemma {:induction false} ClockGrows(s: Db, run: Run)
    requires LegalRun(s, run)
    ensures s.clock <= End(s, run).clock
    decreases |run|
  {
    if run != [] {
      ClockGrows(Apply(s, run[0]), run[1..]);
    }
  }

  /** A record nobody owns can be had exactly until its lease runs out, whatever else
      happens: nothing but its reaping, once it has lapsed, removes or changes it. */
  lemma {:induction false} LeaseLaw(s: Db, run: Run, l: Id, m: Time)
    requires Inv(s) && LegalRun(s, run) && LeftAlone(run, l) && End(s, run).clock <= m
    requires l in s.holders && s.holders[l].txnId == 0
    ensures OnOffer(End(s, run).holders, l, m) <==> s.holders[l].expire == -1 || m < s.holders[l].expire
    ensures l in End(s, run).holders ==> End(s, run).holders[l] == s.holders[l]
    decreases |run|
  {
    assert HolderOk(s, l);
    if run != [] {
      var e, rest := run[0], run[1..];
      assert LeftAlone([e], l) && LeftAlone(rest, l);
      AloneStep(s, e, l);
      InvHolds(s, e);
      var s' := Apply(s, e);
      if l in s'.holders {
        LeaseLaw(s', rest, l, m);
      } else {
        GoneStaysGone(s', rest, l);
        ClockGrows(s', rest);
      }
    }
  }

  /** It can be renewed through the very last moment, as long as it is still there. */
  lemma RenewalLaw(s: Db, run: Run, l: Id, m: Time, until: Time)
    requires Inv(s) && LegalRun(s, run) && LeftAlone(run, l) && End(s, run).clock <= m
    requires l in s.holders && s.holders[l].txnId == 0
    ensures Legal(End(s, run), Event(m, Lease(l, until))) <==>
            l in End(s, run).holders && (s.holders[l].expire == -1 || m <= s.holders[l].expire)
  {
    LeaseLaw(s, run, l, m);
  }

  // ----- transactions, over whole runs -----

  /** No step extends or finishes transaction `t`. */
  predicate LeftOpen(run: Run, t: Id) {
    forall i :: 0 <= i < |run| ==>
      match run[i].step
      case Extend(t', _) => t' != t
      case Commit(t', _) => t' != t
      case Rollback(t') => t' != t
      case _ => true
  }

  lemma {:induction false} OpenStays(s: Db, run: Run, t: Id)
    requires Inv(s) && LegalRun(s, run) && LeftOpen(run, t) && t in s.txns
    ensures t in End(s, run).txns && End(s, run).txns[t] == s.txns[t]
    decreases |run|
  {
    if run != [] {
      var e := run[0];
      InvHolds(s, e);
      assert t in s.used;
      assert forall i :: 0 <= i < |run[1..]| ==> run[1..][i] == run[i + 1];
      OpenStays(Apply(s, e), run[1..], t);
    }
  }

  /** A transaction started at `n` for `d` can be rolled back at `m` if and only if `m`
      is not past `n + d`, and committed then if what it wrote is in order and counted
      rightly; one started for good, at any time. */
  lemma TxnLaw(s: Db, t: Id, d: Time, n: Time, run: Run, m: Time, expected: int)
    requires Inv(s) && Legal(s, Event(n, Start(t, d))) && 0 <= n && (d >= 0 || d == -1)
    requires var s1 := Apply(s, Event(n, Start(t, d)));
             LegalRun(s1, run) && LeftOpen(run, t) && End(s1, run).clock <= m
    ensures var u := End(Apply(s, Event(n, Start(t, d))), run);
            var inTime := d == -1 || m <= n + d;
            (Legal(u, Event(m, Step.Rollback(t))) <==> inTime) &&
            (Legal(u, Event(m, Step.Commit(t, expected))) <==>
              inTime && InOrder(u.holders, t) && Counted(u.holders, t, expected))
  {
    var e := Event(n, Start(t, d));
    InvHolds(s, e);
    var s1 := Apply(s, e);
    OpenStays(s1, run, t);
    InvRun(s1, run);
    NeverPanics(End(s1, run), t);
    CommitCondition(End(s1, run).holders, t, expected);
  }

  // ----- which gets are refused, which find something -----

  /** The template has nothing to look up: only wildcards, or no list of pairs. */
  ghost predicate NoKey(isTuple: bool, t: seq<string>) {
    if isTuple then forall i :: 0 <= i < |t| ==> t[i] == "_" else |t| == 0 || |t| % 2 == 1
  }

  /** Some record on offer matches template `k`. */
  ghost predicate Hit(hs: Holders, p: Params, k: nat, now: Time)
    requires k < |p.templates|
  {
    exists l :: OnOffer(hs, l, now) && Matches(p.isTuple, p.templates[k], hs[l])
  }

  lemma HitIff(hs: Holders, p: Params, k: nat, now: Time)
    requires AllSafe(hs, p) && k < |p.templates|
    ensures TemplateOk(p.isTuple, p.templates[k]) <==> !NoKey(p.isTuple, p.templates[k])
    ensures !NoKey(p.isTuple, p.templates[k]) ==> (HitCount(hs, p, k, now) > 0 <==> Hit(hs, p, k, now))
  {
    var t := p.templates[k];
    if !NoKey(p.isTuple, t) {
      TemplateHasKeys(p.isTuple, t);
      forall l ensures l in HitsOf(hs, p, k, now) <==> OnOffer(hs, l, now) && Matches(p.isTuple, t, hs[l]) {
        if l in hs {
          KeysAgreeWithMatching(p.isTuple, t, hs[l]);
        }
      }
      if Hit(hs, p, k, now) {
        var l :| OnOffer(hs, l, now) && Matches(p.isTuple, t, hs[l]);
        assert l in HitsOf(hs, p, k, now);
      }
      if HitCount(hs, p, k, now) > 0 {
        var l :| l in HitsOf(hs, p, k, now);
        assert OnOffer(hs, l, now) && Matches(p.isTuple, t, hs[l]);
      }
    }
  }

  /** The first template that is refused, or that misses when none may. */
  ghost predicate StopsAt(hs: Holders, p: Params, k: nat, now: Time)
    requires k < |p.templates|
  {
    NoKey(p.isTuple, p.templates[k]) || (p.max == 0 && !Hit(hs, p, k, now))
  }

  lemma {:induction false} TroubleIff(hs: Holders, p: Params, now: Time, i: nat)
    requires AllSafe(hs, p) && i <= |p.templates|
    ensures var rc := Trouble(hs, p, now, i);
            (rc == Ok && forall k :: i <= k < |p.templates| ==> !StopsAt(hs, p, k, now)) ||
            ((rc == Failed || rc == NotFound) &&
             exists k :: i <= k < |p.templates| && StopsAt(hs, p, k, now) &&
               (rc == Failed <==> NoKey(p.isTuple, p.templates[k])) &&
               forall j :: i <= j < k ==> !StopsAt(hs, p, j, now))
    decreases |p.templates| - i
  {
    hide HitCount, TemplateOk, Hit, NoKey, AllSafe;
    if i < |p.templates| {
      HitIff(hs, p, i, now);
      TroubleIff(hs, p, now, i + 1);
      if !StopsAt(hs, p, i, now) && Trouble(hs, p, now, i) != Ok {
        var k :| i + 1 <= k < |p.templates| && StopsAt(hs, p, k, now) &&
                 (Trouble(hs, p, now, i + 1) == Failed <==> NoKey(p.isTuple, p.templates[k])) &&
                 forall j :: i + 1 <= j < k ==> !StopsAt(hs, p, j, now);
        assert i <= k;
      }
    }
  }

  lemma {:induction false} ExpectedIff(hs: Holders, p: Params, now: Time, k: nat)
    requires k <= |p.templates|
    ensures Expected(hs, p, now, k) != [] <==> exists j :: 0 <= j < k && HitCount(hs, p, j, now) > 0
    decreases k
  {
    if k > 0 {
      ExpectedIff(hs, p, now, k - 1);
    }
  }

  /** What a get answers.  With `max` above 0 it is refused if and only if some template
      has nothing to look up, and otherwise finds something if and only if some template
      does.  With `max` 0 every template has to find something, and one that is refused
      is noticed only if all before it do. */
  lemma VerdictIff(hs: Holders, p: Params, now: Time)
    requires AllSafe(hs, p)
    ensures var rc, n := Verdict(hs, p, now), |p.templates|;
            (rc == Ok || rc == NotFound || rc == Failed) &&
            (rc == Failed <==> exists k :: 0 <= k < n && NoKey(p.isTuple, p.templates[k]) &&
                                 (p.max == 0 ==> forall j :: 0 <= j < k ==> Hit(hs, p, j, now))) &&
            (rc == Ok <==> (forall k :: 0 <= k < n ==> !NoKey(p.isTuple, p.templates[k])) &&
                           if p.max == 0 then n > 0 && forall k :: 0 <= k < n ==> Hit(hs, p, k, now)
                           else exists k :: 0 <= k < n && Hit(hs, p, k, now))
  {
    hide HitCount, TemplateOk, Hit, NoKey, AllSafe;
    var n := |p.templates|;
    TroubleIff(hs, p, now, 0);
    ExpectedIff(hs, p, now, n);
    forall k | 0 <= k < n
      ensures !NoKey(p.isTuple, p.templates[k]) ==> (HitCount(hs, p, k, now) > 0 <==> Hit(hs, p, k, now))
    {
      HitIff(hs, p, k, now);
    }
    var rc := Trouble(hs, p, now, 0);
    if rc != Ok {
      var k :| 0 <= k < n && StopsAt(hs, p, k, now) && (rc == Failed <==> NoKey(p.isTuple, p.templates[k])) &&
               forall j :: 0 <= j < k ==> !StopsAt(hs, p, j, now);
      forall j | 0 <= j < k ensures !NoKey(p.isTuple, p.templates[j]) && (p.max == 0 ==> Hit(hs, p, j, now)) {
        assert !StopsAt(hs, p, j, now);
      }
    } else {
      forall k | 0 <= k < n ensures !NoKey(p.isTuple, p.templates[k]) && (p.max == 0 ==> Hit(hs, p, k, now)) {
        assert !StopsAt(hs, p, k, now);
      }
    }
  }

  // ----- put, wait, and get or renew; start, wait and finish -----

  /** What one get of template `t` answers if `h` is the only record. */
  lemma OnlyRecord(h: Holder, p: Params, t: seq<string>, m: Time)
    requires p.templates == [t] && !NoKey(p.isTuple, t) && NoSeps(t) && NoSeps(h.data.attrs)
    requires Matches(p.isTuple, t, h) && h.lock == Unlocked
    ensures var hs, had := map[h.leaseId := h], h.expire == -1 || m < h.expire;
            AllSafe(hs, p) && Verdict(hs, p, m) == (if had then Ok else NotFound) &&
            Expected(hs, p, m, 1) == if had then [0] else []
  {
    var hs := map[h.leaseId := h];
    assert p.templates[0] == t;
    VerdictIff(hs, p, m);
    HitIff(hs, p, 0, m);
    hide Matches, NoKey, HasKeys;
    assert OnOffer(hs, h.leaseId, m) <==> h.expire == -1 || m < h.expire;
    assert Hit(hs, p, 0, m) <==> OnOffer(hs, h.leaseId, m);
    Subset(HitsOf(hs, p, 0, m), {h.leaseId});
    assert Expected(hs, p, m, 0) == [];
  }

  /** What is put at `n` for `d` is had at `m`, by any template that matches it and has
      something to look up, and exactly as it was put, if and only if `m` is before
      `n + d`. */
  method PutThenGet(store: Store, isTuple: bool, data: DataObject, d: Time, n: Time, t: seq<string>, take: bool,
                    max: nat, m: Time) returns (l: Id, rc: Rc, q: Query)
    requires store.Valid() && store.holderDb == map[] && store.clock <= n <= m && 0 <= n && (d >= 0 || d == -1)
    requires !NoKey(isTuple, t) && (!isTuple ==> |data.attrs| % 2 == 0) && NoSeps(t) && NoSeps(data.attrs)
    requires Matches(isTuple, t, Holder(Unlocked, isTuple, 0, 0, 0, data))
    modifies store
    ensures store.Valid() && fresh(q)
    ensures var x := if d == -1 then -1 else n + d;
            if d == -1 || m < n + d then
              rc == Ok && q.results == [Holder(if take then TakeLock else Unlocked, isTuple, l, 0, x, data)] &&
              store.holderDb == if take then map[] else map[l := Holder(Unlocked, isTuple, l, 0, x, data)]
            else rc == NotFound && q.results == []
  {
    ghost var e;
    var put;
    MatchedIsIndexable(isTuple, t, data);
    put, l, e := store.Put(0, d, isTuple, data, n, false);
    ghost var h := store.holderDb[l];
    assert store.holderDb == map[l := h];
    q := new Query(take, isTuple, 0, [t], max);
    OnlyRecord(h, q.Params(), t, m);
    hide Verdict, Expected, Matches, NoKey, AllSafe, Inv, PropOk, OwnerOk, ExpireOk, IsQuietStep;
    ghost var before := store.View();
    rc := store.Get(q, m, false);
    if rc == Ok || rc == PleaseRetry {
      OneAnswer(h, q.Params(), m, q.results, q.foundBy);
    }
    if rc == Ok && take {
      TookIt(before, store.View(), h, q.results, m);
    }
  }

  lemma TookIt(s: Db, s': Db, h: Holder, results: seq<Holder>, now: Time)
    requires IsQuietStep(s, TakeEvent(0, results, now), s') && s.holders == map[h.leaseId := h]
    requires |results| == 1 && results[0].leaseId == h.leaseId
    ensures s'.holders == map[]
  {
    assert LeaseIds(results)[0] == h.leaseId;
  }

  lemma MatchedIsIndexable(isTuple: bool, t: seq<string>, data: DataObject)
    requires !NoKey(isTuple, t) && (!isTuple ==> |data.attrs| % 2 == 0)
    requires Matches(isTuple, t, Holder(Unlocked, isTuple, 0, 0, 0, data))
    ensures Indexable(isTuple, data.attrs)
  {
    if isTuple {
      var i :| 0 <= i < |t| && t[i] != "_";
      assert data.attrs[i] != WILDCARD;
    } else {
      assert HasPair(data.attrs, t[2*0], t[2*0+1]);
    }
  }

  lemma OneAnswer(h: Holder, p: Params, m: Time, results: seq<Holder>, foundBy: seq<nat>)
    requires var hs := map[h.leaseId := h];
             Results(hs, p, m, results, foundBy) && foundBy == Expected(hs, p, m, |p.templates|) == [0]
    ensures Distinct(LeaseIds(results))
    ensures results == [if p.take then h.(lock := TakeLock, txnId := p.owner) else h]
  {
    assert ResultOk(map[h.leaseId := h], p, 0, m, results[0]);
  }

  /** A lease put at `n` for `d` can be renewed at `m` if and only if `m` is not past `n + d`. */
  method PutThenRenew(store: Store, isTuple: bool, data: DataObject, d: Time, n: Time, m: Time, until: Time)
      returns (put: Rc, l: Id, rc: Rc)
    requires store.Valid() && store.clock <= n <= m && 0 <= n && (d >= 0 || d == -1)
    modifies store
    ensures store.Valid()
    ensures put == Ok ==> rc == if d == -1 || m <= n + d then Ok else Failed
    ensures put == Ok && rc == Ok ==> l in store.holderDb && store.holderDb[l].expire == until
  {
    ghost var e;
    put, l, e := store.Put(0, d, isTuple, data, n, false);
    rc := store.UpdateLease(l, until, m, false);
  }

  /** A transaction started at `n` for `d` can be finished at `m` if and only if `m` is
      not past `n + d`. */
  method StartThenFinish(store: Store, d: Time, n: Time, status: Status, m: Time) returns (t: Id, rc: Rc)
    requires store.Valid() && store.clock <= n <= m && 0 <= n && (d >= 0 || d == -1) && status != Active
    modifies store
    ensures store.Valid()
    ensures rc == if d == -1 || m <= n + d then Ok else UpdatingExpiredTxn
  {
    ghost var e;
    var started;
    started, t, e := store.StartTxn(d, n, false);
    rc, e := store.UpdateTxn(t, 0, status, -1, m, false);
  }

  /** One extended by `more` at `k`, if that is in time, can be finished until `k + more`,
      whether that is later or sooner than before. */
  method ExtendThenFinish(store: Store, d: Time, n: Time, more: Time, k: Time, status: Status, m: Time)
      returns (extended: Rc, rc: Rc)
    requires store.Valid() && store.clock <= n <= k <= m && 0 <= n && d >= 0 && more > 0 && status != Active
    modifies store
    ensures store.Valid()
    ensures extended == if k <= n + d then Ok else UpdatingExpiredTxn
    ensures rc == if k <= n + d && m <= k + more then Ok else UpdatingExpiredTxn
  {
    ghost var e;
    var started, t;
    started, t, e := store.StartTxn(d, n, false);
    extended, e := store.UpdateTxn(t, more, Active, -1, k, false);
    rc, e := store.UpdateTxn(t, 0, status, -1, m, false);
  }
}

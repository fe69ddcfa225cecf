/**
 The kernel's wake-up path (corelib/OEK_impl.c): each write event the store fires
 is handed to the template matcher, so that whoever waits for a record hears of it
 as soon as it is free to be taken.
 */
module Kernel {
  import opened Space
  import opened History
  import PropIndex
  import OeBdb
  import D = Dispatcher

  /** Template `x` is filed, its group still waiting, and the store's own rule
      matches it to record `h`, a map one in a way the scan can find. */
  ghost predicate WaitsFor(s: D.State, x: D.Sid, h: Holder) {
    D.InTable(s.table, x) && x in s.items && s.items[x].gid !in s.dead && s.items[x].keyIdx < |s.items[x].templ| &&
    PropIndex.Matches(h.isTuple, s.items[x].templ, h) &&
    (!h.isTuple ==> |s.items[x].templ| % 2 == 0 && D.MapFindable(s.items[x].templ, s.items[x].keyIdx, h.data.attrs))
  }

  /** Group `g` has fired between the two states. */
  ghost predicate Woken(s: D.State, s': D.State, g: nat) {
    s.fired <= s'.fired && g in s'.fired[|s.fired|..]
  }

  /** The event stops at the consuming match at place `b`, `r`, which comes before every
      match of `x`, and is woken itself, or is a leftover of a group removed before. */
  ghost predicate TookFirst(s: D.State, s': D.State, x: D.Sid, fields: seq<string>, b: nat, r: nat) {
    D.Consumer(s, fields, b, r) && D.Reached(s, fields, b, r) &&
    (forall at: nat, q: nat :: D.Met(s, fields, at, q) && D.Entry(s, fields, at, q) == x ==> D.Sooner(b, r, at, q)) &&
    var g := s.items[D.Entry(s, fields, b, r)].gid;
    g in s.dead || Woken(s, s', g)
  }

  ghost predicate Excused(s: D.State, s': D.State, x: D.Sid, fields: seq<string>) {
    exists b: nat, r: nat :: TookFirst(s, s', x, fields, b, r)
  }

  /** The template is found by a scan and its group live. */
  ghost predicate Concerned(s: D.State, x: D.Sid, fields: seq<string>) {
    D.Found(s, x, fields) && x in s.items && s.items[x].gid !in s.dead
  }

  /** Everyone the event concerns has been woken, or a consumer took it first. */
  ghost predicate Delivered(s: D.State, s': D.State, fields: seq<string>) {
    forall x :: Concerned(s, x, fields) ==> Woken(s, s', s.items[x].gid) || Excused(s, s', x, fields)
  }

  lemma WokenLater(s: D.State, s1: D.State, s2: D.State, g: nat)
    requires s.fired <= s1.fired <= s2.fired
    ensures Woken(s, s1, g) ==> Woken(s, s2, g)
    ensures Woken(s1, s2, g) ==> Woken(s, s2, g)
  {
    if Woken(s, s1, g) {
      var i :| |s.fired| <= i < |s1.fired| && s1.fired[i] == g;
      assert s2.fired[|s.fired|..][i - |s.fired|] == g;
    }
    if Woken(s1, s2, g) {
      var i :| |s1.fired| <= i < |s2.fired| && s2.fired[i] == g;
      assert s2.fired[|s.fired|..][i - |s.fired|] == g;
    }
  }

  /** The scan's outcome, as the waiting client sees it. */
  lemma OutcomeDelivers(s: D.State, s': D.State, fields: seq<string>)
    requires D.Ok(s) && D.Ok(s') && D.Progress(s, s') && D.Outcome(s, s', fields)
    ensures Delivered(s, s', fields)
  {
    forall x | Concerned(s, x, fields) ensures Woken(s, s', s.items[x].gid) || Excused(s, s', x, fields) {
      if at: nat, q: nat :| D.ReachedBy(s, fields, at, q, s.items[x].gid) {
        D.ReachedFires(s, s', fields, at, q, s.items[x].gid);
      } else {
        UnreachedIsExcused(s, s', fields, x);
      }
    }
  }

  lemma UnreachedIsExcused(s: D.State, s': D.State, fields: seq<string>, x: D.Sid)
    requires D.Ok(s) && D.Ok(s') && D.Progress(s, s') && D.Outcome(s, s', fields) && Concerned(s, x, fields)
    requires forall at: nat, q: nat :: !D.ReachedBy(s, fields, at, q, s.items[x].gid)
    ensures Excused(s, s', x, fields)
  {
    hide D.Ok, D.Progress, D.Outcome;
    var at: nat, q: nat :| D.Met(s, fields, at, q) && D.Entry(s, fields, at, q) == x;
    assert !D.ReachedBy(s, fields, at, q, s.items[x].gid);
    var c: nat, p: nat :| D.Consumer(s, fields, c, p) && D.Sooner(c, p, at, q);
    var b, r := D.FirstConsumer(s, fields, c, p);
    forall a: nat, k: nat | D.Met(s, fields, a, k) && D.Entry(s, fields, a, k) == x ensures D.Sooner(b, r, a, k) {
      assert !D.ReachedBy(s, fields, a, k, s.items[x].gid);
      var d: nat, l: nat :| D.Consumer(s, fields, d, l) && D.Sooner(d, l, a, k);
      assert !D.Sooner(d, l, b, r);
    }
    var g := s.items[D.Entry(s, fields, b, r)].gid;
    if g !in s.dead {
      D.ReachedFires(s, s', fields, b, r, g);
      LogIsPrefix(s, s');
    }
    assert TookFirst(s, s', x, fields, b, r);
  }

  /** A template concerned and still live after some events is still concerned. */
  lemma StillConcerned(s: D.State, s1: D.State, x: D.Sid, fields: seq<string>)
    requires D.Ok(s) && D.Ok(s1) && D.Progress(s, s1) && Concerned(s, x, fields) && s.items[x].gid !in s1.dead
    ensures Concerned(s1, x, fields) && s1.items[x].gid == s.items[x].gid && D.InTable(s1.table, x)
  {
    var at: nat, q: nat :| D.Met(s, fields, at, q) && D.Entry(s, fields, at, q) == x;
    D.LiveStaysFiled(s, s1, fields, at, q);
    var i := D.Forth(s, s1, fields, at, q);
    assert D.Met(s1, fields, at, i) && D.Entry(s1, fields, at, i) == x;
  }

  lemma DeadIsWoken(s: D.State, s1: D.State, g: nat)
    requires D.Progress(s, s1) && g in s1.dead && g !in s.dead
    ensures Woken(s, s1, g)
  {
  }

  // ----- the events of one store step, one after the other -----

  /** `states` are the matcher's states before, between and after the events. */
  ghost predicate Chain(states: seq<D.State>, events: seq<DataObject>) {
    |states| == |events| + 1 && (forall i :: 0 <= i < |states| ==> D.Ok(states[i])) &&
    forall i :: 0 <= i < |events| ==> Link(states, events, i)
  }

  /** Event `i` leads from its state to the next, as a scan does. */
  ghost predicate Link(states: seq<D.State>, events: seq<DataObject>, i: nat) {
    i < |events| && |states| == |events| + 1 && D.Progress(states[i], states[i + 1]) &&
    D.Outcome(states[i], states[i + 1], events[i].attrs) && Delivered(states[i], states[i + 1], events[i].attrs)
  }

  lemma {:induction false} ChainProgress(states: seq<D.State>, events: seq<DataObject>, i: nat, j: nat)
    requires Chain(states, events) && i <= j < |states|
    ensures D.Progress(states[i], states[j])
    decreases j
  {
    hide D.Progress, D.Ok;
    if i == j {
      D.ProgressNone(states[i]);
    } else {
      ChainProgress(states, events, i, j - 1);
      assert Link(states, events, j - 1);
      D.ProgressTwice(states[i], states[j - 1], states[j]);
    }
  }

  /** `_fire_write_event`, for all events of one store step in turn. */
  method FireAll(d: D.Matcher, events: seq<DataObject>) returns (ghost states: seq<D.State>)
    requires D.Ok(d.View())
    modifies d
    ensures Chain(states, events) && states[0] == old(d.View()) && states[|events|] == d.View()
  {
    hide D.Ok, D.Progress, D.Outcome, Delivered;
    states := [d.View()];
    for k := 0 to |events|
      invariant Chain(states, events[..k]) && states[0] == old(d.View()) && states[k] == d.View()
    {
      FireOne(d, events[k].attrs);
      ChainOn(states, events, k, d.View());
      states := states + [d.View()];
    }
    assert events[..|events|] == events;
  }

  lemma ChainOn(states: seq<D.State>, events: seq<DataObject>, k: nat, next: D.State)
    requires k < |events| && Chain(states, events[..k]) && D.Ok(next) && D.Progress(states[k], next)
    requires D.Outcome(states[k], next, events[k].attrs) && Delivered(states[k], next, events[k].attrs)
    ensures Chain(states + [next], events[..k + 1])
  {
    hide D.Ok, D.Progress, D.Outcome, Delivered;
    var more, es := states + [next], events[..k + 1];
    forall i | 0 <= i < |es| ensures Link(more, es, i) {
      if i < k {
        assert Link(states, events[..k], i);
      }
    }
  }

  method FireOne(d: D.Matcher, fields: seq<string>)
    requires D.Ok(d.View())
    modifies d
    ensures D.Ok(d.View()) && D.Progress(old(d.View()), d.View()) && D.Outcome(old(d.View()), d.View(), fields)
    ensures Delivered(old(d.View()), d.View(), fields)
  {
    hide D.Ok, D.Progress, D.Outcome, Delivered;
    var stopped := d.Process(fields);
    OutcomeDelivers(old(d.View()), d.View(), fields);
  }

  lemma LogIsPrefix(s: D.State, s1: D.State)
    requires D.Progress(s, s1)
    ensures s.fired <= s1.fired
  {
  }

  lemma LogGrows(s: D.State, s1: D.State, s2: D.State)
    requires D.Progress(s, s1) && D.Progress(s1, s2)
    ensures s.fired <= s1.fired <= s2.fired
  {
  }

  /** By the end of event `i` template `x` is woken, or a consumer took that very event. */
  ghost predicate Noticed(states: seq<D.State>, i: nat, x: D.Sid, fields: seq<string>)
    requires i + 1 < |states| && x in states[0].items
  {
    Woken(states[0], states[i + 1], states[0].items[x].gid) || Excused(states[i], states[i + 1], x, fields)
  }

  lemma ConcernedIsNoticed(states: seq<D.State>, events: seq<DataObject>, i: nat, x: D.Sid)
    requires Chain(states, events) && i < |events| && Concerned(states[0], x, events[i].attrs)
    ensures Noticed(states, i, x, events[i].attrs)
    ensures states[0].items[x].gid !in states[i].dead ==> D.InTable(states[i].table, x)
  {
    hide D.Ok, D.Progress, D.Outcome, Concerned, Excused;
    FromConcerned(states[0], x, events[i].attrs);
    var s, s1, s2, g := states[0], states[i], states[i + 1], states[0].items[x].gid;
    ChainProgress(states, events, 0, i);
    assert Link(states, events, i);
    LogGrows(s, s1, s2);
    WokenLater(s, s1, s2, g);
    if g in s1.dead {
      DeadIsWoken(s, s1, g);
    } else {
      StillConcerned(s, s1, x, events[i].attrs);
    }
  }

  lemma FromConcerned(s: D.State, x: D.Sid, fields: seq<string>)
    requires Concerned(s, x, fields)
    ensures x in s.items && s.items[x].gid !in s.dead
  {
  }

  // ----- a consuming template takes one event at most -----

  /** The event concerns `x`, and `y` is a consuming template that comes before every
      match of `x`. */
  ghost predicate Rival(s: D.State, x: D.Sid, y: D.Sid, fields: seq<string>) {
    Concerned(s, x, fields) && exists b: nat, r: nat :: RivalAt(s, x, y, fields, b, r)
  }

  ghost predicate RivalAt(s: D.State, x: D.Sid, y: D.Sid, fields: seq<string>, b: nat, r: nat) {
    D.Consumer(s, fields, b, r) && D.Entry(s, fields, b, r) == y &&
    forall at: nat, q: nat :: D.Met(s, fields, at, q) && D.Entry(s, fields, at, q) == x ==> D.Sooner(b, r, at, q)
  }

  /** What takes an event first was there, and before `x`, when the step began. */
  lemma TakerIsRival(s: D.State, s1: D.State, s2: D.State, x: D.Sid, fields: seq<string>, b: nat, r: nat)
    requires D.Ok(s) && D.Ok(s1) && D.Progress(s, s1) && D.InTable(s1.table, x)
    requires TookFirst(s1, s2, x, fields, b, r) && Concerned(s, x, fields)
    ensures var y := D.Entry(s1, fields, b, r); y in s.items && Rival(s, x, y, fields)
  {
    hide D.Ok, D.Progress, D.Hits, Woken, D.Reached, Concerned;
    var r0 := D.Back(s, s1, fields, b, r);
    var y := D.Entry(s, fields, b, r0);
    D.HitsBack(s, s1, y, fields, b);
    forall at: nat, q: nat | D.Met(s, fields, at, q) && D.Entry(s, fields, at, q) == x
      ensures D.Sooner(b, r0, at, q)
    {
      var i := D.Forth(s, s1, fields, at, q);
      D.HitsBack(s, s1, x, fields, at);
      assert D.Met(s1, fields, at, i) && D.Entry(s1, fields, at, i) == x;
      if b == at {
        D.SameOrder(s, s1, fields, at, r, i, r0, q);
      }
    }
    assert RivalAt(s, x, y, fields, b, r0);
  }

  /** It is filed when the event comes and no longer when the event is through. */
  lemma TakerLeaves(s: D.State, s': D.State, x: D.Sid, fields: seq<string>, b: nat, r: nat)
    requires D.Outcome(s, s', fields) && TookFirst(s, s', x, fields, b, r)
    ensures var y := D.Entry(s, fields, b, r); D.InTable(s.table, y) && !D.InTable(s'.table, y)
  {
    assert D.Entry(s, fields, b, r) in s.table[D.Hash(fields[b])];
    assert D.Left(s, s', fields, |fields|);
  }

  /** How many of the first `k` events concern `x`. */
  ghost function Concerns(s: D.State, x: D.Sid, events: seq<DataObject>, k: nat): (n: nat)
    requires k <= |events|
  {
    if k == 0 then 0
    else Concerns(s, x, events, k - 1) + if Concerned(s, x, events[k - 1].attrs) then 1 else 0
  }

  ghost function Rivals(s: D.State, x: D.Sid, events: seq<DataObject>): (r: set<D.Sid>) {
    set y | y in s.items && exists i :: 0 <= i < |events| && Rival(s, x, y, events[i].attrs)
  }

  /** None of these is filed. */
  ghost predicate AllOut(ys: set<D.Sid>, s: D.State) { forall y :: y in ys ==> !D.InTable(s.table, y) }

  lemma OutStays(ys: set<D.Sid>, s: D.State, s': D.State)
    requires AllOut(ys, s) && forall y :: D.InTable(s'.table, y) ==> D.InTable(s.table, y)
    ensures AllOut(ys, s')
  {
  }

  lemma OutMore(ys: set<D.Sid>, y: D.Sid, s: D.State, s': D.State)
    requires AllOut(ys, s) && AllOut(ys, s') && D.InTable(s.table, y) && !D.InTable(s'.table, y)
    ensures AllOut(ys + {y}, s') && |ys + {y}| == |ys| + 1
  {
  }

  /** The takers of the first `k` events that concern `x`: one each, rivals from the
      start, and no longer filed. */
  ghost predicate Takers(states: seq<D.State>, events: seq<DataObject>, x: D.Sid, k: nat, takers: set<D.Sid>)
    requires k < |states| == |events| + 1
  {
    |takers| == Concerns(states[0], x, events, k) && takers <= Rivals(states[0], x, events) && AllOut(takers, states[k])
  }

  /** While `x` is not woken, each event that concerns it has a taker of its own. */
  lemma {:induction false} TakersDiffer(states: seq<D.State>, events: seq<DataObject>, x: D.Sid, k: nat)
      returns (takers: set<D.Sid>)
    requires Chain(states, events) && k <= |events| && x in states[0].items
    requires states[0].items[x].gid in states[0].groups && states[0].items[x].gid !in states[k].dead
    ensures Takers(states, events, x, k, takers)
    decreases k
  {
    hide Takers, D.Ok, D.InTable, D.Outcome, Delivered, D.Progress, Rivals, Concerns;
    AllOk(states, events);
    NoTakers(states, events, x);
    hide Chain;
    takers := {};
    if k > 0 {
      ChainStep(states, events, k - 1);
      takers := TakersDiffer(states, events, x, k - 1);
      takers := OneTakerMore(states, events, x, k - 1, takers);
    }
  }

  lemma NoTakers(states: seq<D.State>, events: seq<DataObject>, x: D.Sid)
    requires |states| == |events| + 1
    ensures Takers(states, events, x, 0, {})
  {
  }

  lemma OneTakerMore(states: seq<D.State>, events: seq<DataObject>, x: D.Sid, i: nat, takers: set<D.Sid>)
      returns (more: set<D.Sid>)
    requires Chain(states, events) && i < |events| && Takers(states, events, x, i, takers) && x in states[0].items
    requires states[0].items[x].gid in states[0].groups && states[0].items[x].gid !in states[i + 1].dead
    ensures Takers(states, events, x, i + 1, more)
  {
    AllOk(states, events);
    hide Chain, D.Ok, D.InTable, Concerned, Rivals, AllOut;
    ChainStep(states, events, i);
    OutStays(takers, states[i], states[i + 1]);
    more := takers;
    if Concerned(states[0], x, events[i].attrs) {
      var y := NewTaker(states, events, x, i);
      OutMore(takers, y, states[i], states[i + 1]);
      more := takers + {y};
    }
  }

  /** Nothing comes back between two events. */
  lemma ChainStep(states: seq<D.State>, events: seq<DataObject>, i: nat)
    requires Chain(states, events) && i < |events|
    ensures states[i].dead <= states[i + 1].dead
    ensures forall y :: D.InTable(states[i + 1].table, y) ==> D.InTable(states[i].table, y)
  {
    hide D.Ok, D.Outcome, Delivered, D.Progress;
    assert Link(states, events, i);
    D.DeadStays(states[i], states[i + 1]);
    forall y ensures D.InTable(states[i + 1].table, y) ==> D.InTable(states[i].table, y) {
      D.InTableBefore(states[i], states[i + 1], y);
    }
  }

  lemma NewTaker(states: seq<D.State>, events: seq<DataObject>, x: D.Sid, i: nat) returns (y: D.Sid)
    requires Chain(states, events) && i < |events| && Concerned(states[0], x, events[i].attrs)
    requires states[0].items[x].gid in states[0].groups && states[0].items[x].gid !in states[i + 1].dead
    ensures y in Rivals(states[0], x, events)
    ensures D.InTable(states[i].table, y) && !D.InTable(states[i + 1].table, y)
  {
    hide D.Ok, D.Progress, D.Outcome, Concerned, Delivered;
    FromConcerned(states[0], x, events[i].attrs);
    var fields, g := events[i].attrs, states[0].items[x].gid;
    assert Link(states, events, i);
    ChainProgress(states, events, 0, i);
    ChainProgress(states, events, 0, i + 1);
    D.DeadStays(states[i], states[i + 1]);
    ConcernedIsNoticed(states, events, i, x);
    LiveIsNotWoken(states[0], states[i + 1], g);
    var b: nat, r: nat :| TookFirst(states[i], states[i + 1], x, fields, b, r);
    y := D.Entry(states[i], fields, b, r);
    TakerIsRival(states[0], states[i], states[i + 1], x, fields, b, r);
    TakerLeaves(states[i], states[i + 1], x, fields, b, r);
  }

  lemma LiveIsNotWoken(s: D.State, s1: D.State, g: nat)
    requires D.Ok(s1) && D.Progress(s, s1) && g in s.groups && g !in s1.dead
    ensures !Woken(s, s1, g)
  {
    D.GroupLife(s1, g);
    assert g !in s1.fired;
    assert forall y :: y in s1.fired[|s.fired|..] ==> y in s1.fired;
  }

  /** Whoever is concerned by more events than there are consumers before it is woken. */
  lemma EnoughForAll(states: seq<D.State>, events: seq<DataObject>, x: D.Sid)
    requires Chain(states, events) && x in states[0].items && states[0].items[x].gid !in states[0].dead
    requires Concerns(states[0], x, events, |events|) > |Rivals(states[0], x, events)|
    ensures Woken(states[0], states[|events|], states[0].items[x].gid)
  {
    AllOk(states, events);
    hide D.Ok, D.Progress, Chain;
    var n, g := |events|, states[0].items[x].gid;
    ChainProgress(states, events, 0, n);
    if g in states[n].dead {
      DeadIsWoken(states[0], states[n], g);
    } else {
      D.SameGroup(states[0], states[n], x);
      var takers := TakersDiffer(states, events, x, n);
      Fewer(takers, Rivals(states[0], x, events));
      assert false;
    }
  }

  lemma AllOk(states: seq<D.State>, events: seq<DataObject>)
    requires Chain(states, events)
    ensures |states| == |events| + 1 && forall i :: 0 <= i < |states| ==> D.Ok(states[i])
  {
  }

  lemma Fewer(a: set<D.Sid>, b: set<D.Sid>)
    requires a <= b
    ensures |a| <= |b|
  {
    assert b == a + (b - a);
  }

  // ----- end to end -----

  /** For each freed record, at its own event: whoever waits for it has been woken by
      then, or a consuming template that comes first takes that event. */
  ghost predicate AllWoken(order: seq<Id>, hs: Holders, states: seq<D.State>) {
    |states| == |order| + 1 &&
    forall i, x :: 0 <= i < |order| && order[i] in hs && WaitsFor(states[0], x, hs[order[i]]) ==>
      Noticed(states, i, x, hs[order[i]].data.attrs)
  }

  /** The freed records `x` waits for. */
  ghost function Wanted(s: D.State, x: D.Sid, freed: set<Id>, hs: Holders): (r: set<Id>) {
    set l | l in freed && l in hs && WaitsFor(s, x, hs[l])
  }

  /** The consuming templates that come before `x` for one of the freed records it matches. */
  ghost function Competitors(s: D.State, x: D.Sid, freed: set<Id>, hs: Holders): (r: set<D.Sid>) {
    set y | y in s.items && exists l :: l in freed && l in hs && Rival(s, x, y, hs[l].data.attrs)
  }

  /** Whoever waits for more of the freed records than there are competitors is woken. */
  ghost predicate Served(s: D.State, s': D.State, freed: set<Id>, hs: Holders) {
    forall x :: x in s.items && |Wanted(s, x, freed, hs)| > |Competitors(s, x, freed, hs)| ==>
      Woken(s, s', s.items[x].gid)
  }

  lemma WaitsIsConcerned(s: D.State, x: D.Sid, h: Holder)
    requires D.Ok(s) && WaitsFor(s, x, h)
    ensures Concerned(s, x, h.data.attrs)
  {
    D.StoreMatchIsFound(s, x, h.isTuple, h.data.attrs);
  }

  /** One event for each of `order`, in that order. */
  ghost predicate EventsOf(events: seq<DataObject>, hs: Holders, order: seq<Id>) {
    |order| == |events| && forall i :: 0 <= i < |order| ==> order[i] in hs && hs[order[i]].data == events[i]
  }

  lemma EventsWakeAll(events: seq<DataObject>, hs: Holders, order: seq<Id>, states: seq<D.State>)
    requires Chain(states, events) && EventsOf(events, hs, order)
    ensures AllWoken(order, hs, states)
  {
    hide D.Ok;
    AllOk(states, events);
    forall i, x | 0 <= i < |order| && order[i] in hs && WaitsFor(states[0], x, hs[order[i]])
      ensures Noticed(states, i, x, hs[order[i]].data.attrs)
    {
      WaitsIsConcerned(states[0], x, hs[order[i]]);
      ConcernedIsNoticed(states, events, i, x);
    }
  }

  lemma EventsServe(events: seq<DataObject>, hs: Holders, order: seq<Id>, freed: set<Id>, states: seq<D.State>)
    requires Chain(states, events) && EventsOf(events, hs, order) && OeBdb.IsListing(order, freed)
    ensures Served(states[0], states[|events|], freed, hs)
  {
    AllOk(states, events);
    hide Chain, D.Ok, WaitsFor, Rival;
    var s := states[0];
    forall x | x in s.items && |Wanted(s, x, freed, hs)| > |Competitors(s, x, freed, hs)|
      ensures Woken(s, states[|events|], s.items[x].gid)
    {
      WantedConcern(events, hs, order, freed, s, x);
      SameRivals(events, hs, order, freed, s, x);
      var l :| l in Wanted(s, x, freed, hs);
      WaitsIsLive(s, x, hs[l]);
      EnoughForAll(states, events, x);
    }
  }

  lemma WaitsIsLive(s: D.State, x: D.Sid, h: Holder)
    requires WaitsFor(s, x, h)
    ensures x in s.items && s.items[x].gid !in s.dead
  {
  }

  lemma SameRivals(events: seq<DataObject>, hs: Holders, order: seq<Id>, freed: set<Id>, s: D.State, x: D.Sid)
    requires EventsOf(events, hs, order) && OeBdb.IsListing(order, freed)
    ensures Rivals(s, x, events) == Competitors(s, x, freed, hs)
  {
    hide Rival;
    forall y ensures y in Rivals(s, x, events) <==> y in Competitors(s, x, freed, hs) {
      if y in Rivals(s, x, events) {
        var i :| 0 <= i < |events| && Rival(s, x, y, events[i].attrs);
        assert order[i] in order;
      }
      if y in Competitors(s, x, freed, hs) {
        var l :| l in freed && l in hs && Rival(s, x, y, hs[l].data.attrs);
        var i :| 0 <= i < |order| && order[i] == l;
        assert events[i] == hs[l].data;
      }
    }
  }

  lemma WantedConcern(events: seq<DataObject>, hs: Holders, order: seq<Id>, freed: set<Id>, s: D.State, x: D.Sid)
    requires D.Ok(s) && EventsOf(events, hs, order) && OeBdb.IsListing(order, freed)
    ensures |Wanted(s, x, freed, hs)| <= Concerns(s, x, events, |events|)
  {
    hide D.Ok, WaitsFor;
    WantedPrefix(events, hs, order, s, x, |order|);
    assert order[..|order|] == order;
    assert Wanted(s, x, freed, hs) == Wanted(s, x, Listed(order), hs);
  }

  function Listed(order: seq<Id>): (r: set<Id>) { set l | l in order }

  lemma {:induction false} WantedPrefix(events: seq<DataObject>, hs: Holders, order: seq<Id>, s: D.State, x: D.Sid,
                                        k: nat)
    requires D.Ok(s) && EventsOf(events, hs, order) && k <= |order|
    ensures |Wanted(s, x, Listed(order[..k]), hs)| <= Concerns(s, x, events, k)
    decreases k
  {
    hide D.Ok, WaitsFor, Concerned, Wanted, Listed;
    if k == 0 {
      NothingWanted(s, x, order[..0], hs);
    } else {
      WantedPrefix(events, hs, order, s, x, k - 1);
      var l := order[k - 1];
      var fewer := Wanted(s, x, Listed(order[..k - 1]), hs);
      assert order[..k] == order[..k - 1] + [l];
      WantedOneMore(s, x, order[..k - 1], l, hs);
      if WaitsFor(s, x, hs[l]) {
        WaitsIsConcerned(s, x, hs[l]);
      }
    }
  }

  lemma NothingWanted(s: D.State, x: D.Sid, order: seq<Id>, hs: Holders)
    requires order == []
    ensures Wanted(s, x, Listed(order), hs) == {}
  {
  }

  lemma WantedOneMore(s: D.State, x: D.Sid, order: seq<Id>, l: Id, hs: Holders)
    requires l in hs
    ensures Wanted(s, x, Listed(order + [l]), hs) ==
            Wanted(s, x, Listed(order), hs) + if WaitsFor(s, x, hs[l]) then {l} else {}
  {
    hide WaitsFor;
  }

  lemma Order(events: seq<DataObject>, hs: Holders, freed: set<Id>) returns (order: seq<Id>)
    requires OeBdb.OneEventEach(events, hs, freed)
    ensures OeBdb.IsListing(order, freed) && EventsOf(events, hs, order)
  {
    order :| OeBdb.IsListing(order, freed) && |order| == |events| &&
      forall i :: 0 <= i < |order| ==> order[i] in hs && hs[order[i]].data == events[i];
  }

  /** The write events of a step, delivered. */
  method Deliver(d: D.Matcher, events: seq<DataObject>, ghost hs: Holders, ghost freed: set<Id>)
      returns (ghost order: seq<Id>, ghost states: seq<D.State>)
    requires D.Ok(d.View()) && OeBdb.OneEventEach(events, hs, freed)
    modifies d
    ensures D.Ok(d.View()) && OeBdb.IsListing(order, freed) && EventsOf(events, hs, order)
    ensures Chain(states, events) && states[0] == old(d.View()) && states[|order|] == d.View()
    ensures AllWoken(order, hs, states) && Served(old(d.View()), d.View(), freed, hs)
  {
    hide D.Ok, AllWoken, OeBdb.OneEventEach, Served, Chain;
    order := Order(events, hs, freed);
    states := FireAll(d, events);
    AllOk(states, events);
    EventsWakeAll(events, hs, order, states);
    EventsServe(events, hs, order, freed, states);
  }

  /** Commit, rollback or extension, and the wake-ups it causes. */
  method UpdateTxn(store: OeBdb.Store, d: D.Matcher, t: Id, dur: Time, status: Status, expected: int, now: Time,
                   deadlock: bool)
      returns (rc: OeBdb.Rc, ghost e: Event, ghost order: seq<Id>, ghost states: seq<D.State>)
    requires store.Valid() && store.clock <= now && D.Ok(d.View())
    modifies store, d
    ensures store.Valid() && D.Ok(d.View()) && e == Event(now, OeBdb.UpdateStep(t, dur, status, expected))
    ensures var done := !deadlock && Legal(old(store.View()), e);
            (rc == OeBdb.Ok && IsActive(old(store.txnDb), t) <==> done) &&
            store.View() == if done then Apply(old(store.View()), e) else old(store.View()).(clock := now)
    ensures OeBdb.IsListing(order, BecomeFree(old(store.View()), store.View())) && old(store.fired) <= store.fired
    ensures EventsOf(store.fired[|old(store.fired)|..], store.holderDb, order)
    ensures Chain(states, store.fired[|old(store.fired)|..])
    ensures AllWoken(order, store.holderDb, states) && states[0] == old(d.View()) && states[|order|] == d.View()
    ensures Served(old(d.View()), d.View(), BecomeFree(old(store.View()), store.View()), store.holderDb)
  {
    hide D.Ok, AllWoken, OeBdb.OneEventEach, Served, BecomeFree, Chain, Legal, Apply, Inv;
    var n := |store.fired|;
    rc, e := store.UpdateTxn(t, dur, status, expected, now, deadlock);
    order, states := Deliver(d, store.fired[n..], store.holderDb, BecomeFree(old(store.View()), store.View()));
  }

  /** A put, and the wake-up it causes. */
  method Put(store: OeBdb.Store, d: D.Matcher, txnId: Id, dur: Time, isTuple: bool, data: DataObject, now: Time,
             deadlock: bool)
      returns (rc: OeBdb.Rc, lid: Id, ghost e: Event, ghost order: seq<Id>, ghost states: seq<D.State>)
    requires store.Valid() && store.clock <= now && D.Ok(d.View())
    modifies store, d
    ensures store.Valid() && D.Ok(d.View())
    ensures rc == OeBdb.Ok <==> !deadlock && if txnId == 0 then Indexable(isTuple, data.attrs)
                                             else IsActive(old(store.txnDb), txnId)
    ensures e.now == now && e.step == if rc == OeBdb.Ok then Step.Put(lid, txnId, Until(now, dur), isTuple, data)
                                      else DrawId(lid)
    ensures Legal(old(store.View()), e) && store.View() == Apply(old(store.View()), e)
    ensures OeBdb.IsListing(order, BecomeFree(old(store.View()), store.View())) && old(store.fired) <= store.fired
    ensures EventsOf(store.fired[|old(store.fired)|..], store.holderDb, order)
    ensures Chain(states, store.fired[|old(store.fired)|..])
    ensures AllWoken(order, store.holderDb, states) && states[0] == old(d.View()) && states[|order|] == d.View()
    ensures Served(old(d.View()), d.View(), BecomeFree(old(store.View()), store.View()), store.holderDb)
  {
    hide D.Ok, AllWoken, OeBdb.OneEventEach, Served, BecomeFree, Chain, Legal, Apply, Inv;
    var n := |store.fired|;
    rc, lid, e := store.Put(txnId, dur, isTuple, data, now, deadlock);
    order, states := Deliver(d, store.fired[n..], store.holderDb, BecomeFree(old(store.View()), store.View()));
  }
}

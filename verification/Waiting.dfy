/**
 One get request (corelib/OEK_get.c): look in the store, answer, or register the
 templates and look again each time a handler of theirs runs.
 */
module Waiting {
  import opened Space
  import opened OeBdb
  import D = Dispatcher

  /** What the client is sent. */
  datatype Answer = Found(results: seq<Holder>) | Nothing | Refused(rc: Rc)

  /** How many entries of the log are of one of `groups`. */
  function FiredOf(fired: seq<nat>, groups: set<nat>): (n: nat) {
    if fired == [] then 0
    else FiredOf(fired[..|fired| - 1], groups) + if fired[|fired| - 1] in groups then 1 else 0
  }

  class Get {
    const store: Store
    const d: D.Matcher
    const p: Params
    const ifExists: bool
    const deadline: Time
    /** Runs of `_geth` that are scheduled. */
    var pending: nat
    var answers: seq<Answer>
    /** The groups registered so far. */
    var groups: set<nat>
    /** Runs that ended without an answer and without a template to register. */
    var silent: nat

    /** In the state `s` of the matcher, the groups are made for this get's templates. */
    ghost predicate MadeIn(s: D.State)
      reads this
    {
      groups <= s.groups.Keys && (silent > 0 ==> p.templates == []) && forall g :: g in groups ==> MadeFor(s, g, p)
    }

    ghost predicate Sound()
      reads this, store, d
    {
      store.Valid() && d.Valid() && MadeIn(d.View())
    }

    /** Answers given, runs scheduled, groups registered and runs lost. */
    ghost function Accounted(): (n: nat)
      reads this
    {
      |answers| + pending + |groups| + silent
    }

    /** Each run comes from the request itself or from a handler that had run by `s`. */
    ghost predicate Balanced(s: D.State)
      reads this
    {
      MadeIn(s) && Accounted() == 1 + FiredOf(s.fired, groups)
    }

    ghost predicate Valid()
      reads this, store, d
    {
      store.Valid() && d.Valid() && Balanced(d.View())
    }

    /** `_oek_impl_get` */
    constructor (store: Store, d: D.Matcher, p: Params, ifExists: bool, deadline: Time)
      requires store.Valid() && d.Valid()
      ensures Valid() && this.store == store && this.d == d && this.p == p
      ensures this.ifExists == ifExists && this.deadline == deadline
      ensures pending == 1 && answers == [] && groups == {} && silent == 0
    {
      this.store, this.d, this.p, this.ifExists, this.deadline := store, d, p, ifExists, deadline;
      pending, answers, groups, silent := 1, [], {}, 0;
      new;
      NoneFired(d.fired);
    }

    /** `_geth`'s loop: try again while the store asks for it. */
    method Search(now: Time, deadlocks: seq<bool>) returns (rc: Rc, q: Query)
      requires store.Valid() && store.clock <= now && |deadlocks| > 0
      modifies store
      ensures store.Valid() && fresh(q) && q.Params() == p
      ensures rc == Ok ==> GetAnswer(old(store.holderDb), p, now, q.results, q.foundBy)
      ensures rc == NotFound ==> Verdict(old(store.holderDb), p, now) == NotFound
      ensures rc == NotFound ==> q.exists' == FirstHits(old(store.holderDb), p, now)
      ensures rc != Ok || !p.take ==> store.View() == old(store.View()).(clock := now)
      ensures !deadlocks[0] && !p.take ==> rc == Verdict(old(store.holderDb), p, now)
    {
      hide Verdict, FirstHits, GetAnswer, Inv, PropOk, OwnerOk, ExpireOk, LeaseIds, Distinct, IsQuietStep;
      q := new Query(p.take, p.isTuple, p.owner, p.templates, p.max);
      rc := store.Get(q, now, deadlocks[0]);
      var i := 1;
      while i < |deadlocks| && rc == PleaseRetry
        invariant 1 <= i <= |deadlocks| && store.Valid() && (rc != Ok ==> store.clock == now)
        invariant q.Params() == p && fresh(q)
        invariant rc == Ok ==> GetAnswer(old(store.holderDb), p, now, q.results, q.foundBy)
        invariant rc == NotFound ==> Verdict(old(store.holderDb), p, now) == NotFound
        invariant rc == NotFound ==> q.exists' == FirstHits(old(store.holderDb), p, now)
        invariant rc == PleaseRetry && Verdict(old(store.holderDb), p, now) != Ok ==> !q.exists'
        invariant rc != Ok || !p.take ==> store.View() == old(store.View()).(clock := now)
        invariant !deadlocks[0] && !p.take ==> rc == Verdict(old(store.holderDb), p, now)
      {
        q.ResetNItemsFound();
        rc := store.Get(q, now, deadlocks[i]);
        i := i + 1;
      }
    }

    /** A run of `_geth` is under way and has not ended yet. */
    ghost predicate Running()
      reads this, store, d
    {
      Sound() && Accounted() == FiredOf(d.fired, groups)
    }

    /** The run ends with an answer. */
    method Reply(a: Answer)
      requires Running()
      modifies this`answers
      ensures Valid() && answers == old(answers) + [a]
    {
      answers := answers + [a];
    }

    /** The run ends with a registration, `_geth_handle_no_results`' last case. */
    method Register(drawn: seq<nat>)
      requires Running() && |drawn| == |p.templates|
      modifies this`groups, this`silent, d`items, d`groups, d`sent, d`nextSid
      ensures Valid()
      ensures p.templates == [] ==> groups == old(groups) && d.View() == old(d.View())
      ensures p.templates != [] ==> var g := old(d.nextSid);
                groups == old(groups) + {g} && NewGroup(old(d.View()), d.View(), g, p, drawn)
    {
      hide D.Ok, Inv, PropOk, OwnerOk, ExpireOk, D.NewItems, D.SidAt, MadeFor, FiredOf;
      if p.templates == [] {
        silent := silent + 1;
      } else {
        ghost var before := d.View();
        var g := d.CreateGroup(p.templates, p.take, drawn);
        Registered(before, d.View(), g, p, groups);
        groups := groups + {g};
      }
    }

    /** `_geth`; `handled` is the time at which a miss is dealt with. */
    method Look(now: Time, handled: Time, deadlocks: seq<bool>, drawn: seq<nat>)
        returns (rc: Rc, exists': bool, ghost foundBy: seq<nat>)
      requires Valid() && pending > 0 && store.clock <= now && |deadlocks| > 0 && |drawn| == |p.templates|
      modifies this, store, d`items, d`groups, d`sent, d`nextSid
      ensures Valid() && pending == old(pending) - 1
      ensures rc == Ok ==> |answers| == |old(answers)| + 1 && answers[|answers| - 1].Found?
      ensures rc == Ok ==> GetAnswer(old(store.holderDb), p, now, answers[|answers| - 1].results, foundBy)
      ensures rc == NotFound ==> Verdict(old(store.holderDb), p, now) == NotFound
      ensures rc == NotFound ==> exists' == FirstHits(old(store.holderDb), p, now)
      ensures rc == NotFound && deadline <= handled ==> answers == old(answers) + [Nothing]
      ensures rc == NotFound && handled < deadline ==>
                answers == old(answers) + if ifExists && !FirstHits(old(store.holderDb), p, now) then [Nothing] else []
      ensures rc == NotFound && answers == old(answers) && p.templates != [] ==> var g := old(d.nextSid);
                groups == old(groups) + {g} && NewGroup(old(d.View()), d.View(), g, p, drawn)
      ensures rc != Ok && rc != NotFound ==> answers == old(answers) + [Refused(rc)]
      ensures answers != old(answers) || p.templates == [] ==>
                groups == old(groups) && d.View() == old(d.View())
      ensures old(answers) <= answers
      ensures rc != Ok || !p.take ==> store.View() == old(store.View()).(clock := now)
      ensures !deadlocks[0] && !p.take ==> rc == Verdict(old(store.holderDb), p, now)
    {
      hide D.Ok, Verdict, FirstHits, GetAnswer, Inv, PropOk, OwnerOk, ExpireOk, NewGroup, MadeFor;
      var q;
      rc, q := Search(now, deadlocks);
      exists', foundBy := q.exists', q.foundBy;
      pending := pending - 1;
      if rc == Ok {
        Reply(Found(q.results));
      } else if rc != NotFound {
        Reply(Refused(rc));
      } else if deadline <= handled || (ifExists && !exists') {
        Reply(Nothing);
      } else {
        Register(drawn);
      }
    }

    /** The handlers that ran since the log had `n` entries: each schedules a run. */
    method Wake(n: nat, ghost before: D.State)
      requires n == |before.fired| && before.fired <= d.fired
      requires store.Valid() && d.Valid() && Balanced(before) && Grown(before, d.View())
      modifies this`pending
      ensures Valid() && pending == old(pending) + FiredOf(d.fired, groups) - FiredOf(before.fired, groups)
    {
      hide D.Ok, Inv, PropOk, OwnerOk, ExpireOk, MadeFor, D.Drawn, FiredOf;
      StillMade(this, before, d.View());
      hide Grown;
      assert d.fired[..n] == before.fired;
      for i := n to |d.fired|
        invariant pending == old(pending) + FiredOf(d.fired[..i], groups) - FiredOf(before.fired, groups)
      {
        FiredNext(d.fired, i, groups);
        if d.fired[i] in groups {
          pending := pending + 1;
        }
      }
      assert d.fired[..|d.fired|] == d.fired;
    }

    /** A write event passes through the matcher. */
    method Event(fields: seq<string>)
      requires Valid()
      modifies this`pending, d
      ensures Valid() && D.Progress(old(d.View()), d.View()) && D.Outcome(old(d.View()), d.View(), fields)
      ensures d.nextSid == old(d.nextSid)
      ensures pending == old(pending) + FiredOf(d.fired, groups) - FiredOf(old(d.fired), groups)
    {
      hide D.Ok, D.Outcome, Inv, PropOk, OwnerOk, ExpireOk;
      ghost var before := d.View();
      var n := |d.fired|;
      var stopped := d.Process(fields);
      ScanGrows(before, d.View());
      Wake(n, before);
    }

    /** The next template of a group, one of the single field `w`, is queued and filed. */
    method File(g: nat, ghost w: string)
      requires Valid() && d.queue == [] && g in d.groups && g in d.sent && d.sent[g] < |d.groups[g]|
      requires var x := d.groups[g][d.sent[g]]; x in d.items && d.items[x].templ == [w] && w != WILDCARD
      modifies d`items, d`table, d`queue, d`sent, d`armed
      ensures Valid() && d.queue == [] && d.sent == old(d.sent)[g := old(d.sent)[g] + 1]
      ensures var x := d.groups[g][old(d.sent)[g]];
              d.items == old(d.items)[x := old(d.items)[x].(linked := true, filed := true, keyIdx := 0)] &&
              d.table == D.Filed(old(d.table), w, x)
    {
      hide D.Ok, Inv, PropOk, OwnerOk, ExpireOk, D.Hash, D.Insert;
      D.FileNext(d, g, w);
    }

    /** A timer goes off. */
    method Timer(sid: D.Sid)
      requires Valid() && D.Handled(d.View(), sid)
      modifies this`pending, d
      ensures Valid() && d.groups == old(d.groups)
      ensures var g := old(d.items)[sid].gid;
              g in d.groups && d.groups[g] != [] &&
              d.fired == old(d.fired) +
                if g !in old(d.dead) && D.InTable(old(d.table), d.groups[g][0]) then [g] else []
      ensures pending == old(pending) + FiredOf(d.fired, groups) - FiredOf(old(d.fired), groups)
    {
      hide D.Ok, Inv, PropOk, OwnerOk, ExpireOk;
      ghost var before := d.View();
      var n := |d.fired|;
      d.Timeout(sid);
      Wake(n, before);
    }
  }

  /** Group `g` has been made for the templates of `p`, and nothing else has happened. */
  ghost predicate NewGroup(s: D.State, s': D.State, g: nat, p: Params, drawn: seq<nat>) {
    s' == s.(items := s'.items, groups := s'.groups, sent := s.sent[g := 0]) && |drawn| == |p.templates| &&
    g !in s.groups && g in s'.groups && s'.groups == s.groups[g := s'.groups[g]] &&
    D.NewItems(s.items, s'.items, g, p.take, p.templates, s'.groups[g]) &&
    forall j :: 0 <= j < |p.templates| ==> s'.groups[g][j] == D.SidAt(g + 1, drawn, j) + drawn[j]
  }

  /** Group `g` is one that this get registers. */
  ghost predicate MadeFor(s: D.State, g: nat, p: Params) {
    g in s.groups && |s.groups[g]| == |p.templates| > 0 && s.groups[g][0] in s.items &&
    s.items[s.groups[g][0]].consume == p.take
  }

  lemma {:induction false} FiredNext(fired: seq<nat>, i: nat, groups: set<nat>)
    requires i < |fired|
    ensures FiredOf(fired[..i + 1], groups) == FiredOf(fired[..i], groups) + if fired[i] in groups then 1 else 0
  {
    assert fired[..i + 1][..i] == fired[..i];
  }

  lemma {:induction false} NoneFired(fired: seq<nat>)
    ensures FiredOf(fired, {}) == 0
    decreases |fired|
  {
    if fired != [] {
      NoneFired(fired[..|fired| - 1]);
    }
  }

  lemma {:induction false} FiredWithout(fired: seq<nat>, groups: set<nat>, g: nat)
    requires g !in groups
    ensures FiredOf(fired, groups + {g}) == FiredOf(fired, groups) + multiset(fired)[g]
    decreases |fired|
  {
    if fired != [] {
      var n := |fired| - 1;
      FiredWithout(fired[..n], groups, g);
      assert fired == fired[..n] + [fired[n]];
      assert multiset(fired) == multiset(fired[..n]) + multiset{fired[n]};
    }
  }

  lemma Registered(s: D.State, s': D.State, g: nat, p: Params, groups: set<nat>)
    requires D.Ok(s) && D.Ok(s') && g !in s.groups && g in s'.groups && s'.groups == s.groups[g := s'.groups[g]]
    requires s'.fired == s.fired && groups <= s.groups.Keys && |p.templates| > 0
    requires D.NewItems(s.items, s'.items, g, p.take, p.templates, s'.groups[g])
    requires forall h :: h in groups ==> MadeFor(s, h, p)
    ensures FiredOf(s'.fired, groups + {g}) == FiredOf(s.fired, groups)
    ensures forall h :: h in groups + {g} ==> MadeFor(s', h, p)
  {
    FiredWithout(s.fired, groups, g);
    NotYetFired(s, g);
  }

  lemma NotYetFired(s: D.State, g: nat)
    requires D.Ok(s) && g !in s.groups
    ensures multiset(s.fired)[g] == 0
  {
    assert g !in s.fired;
  }

  /** From `s` to `s'` groups may be added, and templates stay what they are. */
  ghost predicate Grown(s: D.State, s': D.State) {
    (forall g :: g in s.groups ==> g in s'.groups && s'.groups[g] == s.groups[g]) &&
    forall x :: x in s.items ==>
      x in s'.items && s'.items[x].templ == s.items[x].templ && s'.items[x].consume == s.items[x].consume
  }

  lemma StillMade(g: Get, s: D.State, s': D.State)
    requires g.MadeIn(s) && Grown(s, s')
    ensures g.MadeIn(s')
  {
    forall h | h in g.groups ensures h in s'.groups && MadeFor(s', h, g.p) {
      assert MadeFor(s, h, g.p);
    }
  }

  /** A get's account is kept by whatever runs none of its handlers. */
  lemma BalanceKept(g: Get, s: D.State, s': D.State)
    requires g.Balanced(s) && Grown(s, s') && s'.fired == s.fired
    ensures g.Balanced(s')
  {
    StillMade(g, s, s');
  }

  lemma ScanGrows(s: D.State, s': D.State)
    requires D.Progress(s, s')
    ensures Grown(s, s') && s.fired <= s'.fired
  {
    forall x | x in s.items ensures x in s'.items && s'.items[x].templ == s.items[x].templ &&
                                    s'.items[x].consume == s.items[x].consume
    {
      assert D.SameTemplate(s.items[x], s'.items[x]);
    }
  }

  // ----- any number of gets on one store and one matcher -----

  ghost predicate Together(gets: set<Get>, store: Store, d: D.Matcher)
    reads gets, store, d
  {
    store.Valid() && d.Valid() && forall g :: g in gets ==> g.store == store && g.d == d && g.Balanced(d.View())
  }

  /** Nothing of theirs has run: every get's account is kept. */
  lemma AllKept(gets: set<Get>, s: D.State, s': D.State)
    requires (forall g :: g in gets ==> g.Balanced(s)) && Grown(s, s') && s'.fired == s.fired
    ensures forall g :: g in gets ==> g.Balanced(s')
  {
    forall g | g in gets ensures g.Balanced(s') {
      BalanceKept(g, s, s');
    }
  }

  /** A new get joins the others. */
  method Ask(gets: set<Get>, store: Store, d: D.Matcher, p: Params, ifExists: bool, deadline: Time)
      returns (g: Get, all: set<Get>)
    requires Together(gets, store, d)
    ensures fresh(g) && all == gets + {g} && Together(all, store, d) && g.p == p
    ensures g.ifExists == ifExists && g.deadline == deadline && g.pending == 1 && g.answers == []
  {
    g := new Get(store, d, p, ifExists, deadline);
    all := gets + {g};
  }

  /** One of the gets runs: the others neither gain nor lose a run. */
  method LookTogether(gets: set<Get>, g: Get, now: Time, handled: Time, deadlocks: seq<bool>, drawn: seq<nat>)
    requires g in gets && Together(gets, g.store, g.d) && g.pending > 0 && g.store.clock <= now
    requires |deadlocks| > 0 && |drawn| == |g.p.templates|
    modifies g, g.store, g.d`items, g.d`groups, g.d`sent, g.d`nextSid
    ensures Together(gets, g.store, g.d) && g.pending == old(g.pending) - 1 && old(g.answers) <= g.answers
    ensures |g.answers| == |old(g.answers)| + 1 || g.groups == old(g.groups) + {old(g.d.nextSid)} ||
            g.p.templates == []
  {
    hide D.Ok, Inv, PropOk, OwnerOk, ExpireOk, Verdict, FirstHits, GetAnswer, MadeFor, FiredOf;
    ghost var before := g.d.View();
    var rc, exists';
    ghost var foundBy;
    rc, exists', foundBy := g.Look(now, handled, deadlocks, drawn);
    LookGrows(before, g.d.View(), g.p);
    AllKept(gets - {g}, before, g.d.View());
  }

  /** The next template of a group, any group of any get, is queued. */
  method SendTogether(gets: set<Get>, store: Store, d: D.Matcher, g: nat)
    requires Together(gets, store, d) && g in d.groups && g in d.sent && d.sent[g] < |d.groups[g]|
    modifies d`items, d`queue, d`sent
    ensures Together(gets, store, d) && d.queue == old(d.queue) + [d.groups[g][old(d.sent)[g]]]
    ensures d.sent == old(d.sent)[g := old(d.sent)[g] + 1]
  {
    hide D.Ok, Inv, PropOk, OwnerOk, ExpireOk, MadeFor, FiredOf;
    ghost var before := d.View();
    d.SendNext(g);
    AllKept(gets, before, d.View());
  }

  /** The template at the head of the queue, whatever its fields, is filed or refused. */
  method FileTogether(gets: set<Get>, store: Store, d: D.Matcher, finite: bool) returns (rc: int)
    requires Together(gets, store, d) && d.queue != [] && d.queue[0] in d.items
    modifies d`items, d`table, d`queue, d`armed
    ensures Together(gets, store, d) && d.queue == old(d.queue)[1..]
    ensures rc == 0 <==> exists i :: 0 <= i < |old(d.items)[old(d.queue)[0]].templ| &&
                                     old(d.items)[old(d.queue)[0]].templ[i] != WILDCARD
  {
    hide D.Ok, Inv, PropOk, OwnerOk, ExpireOk, MadeFor, FiredOf, D.RarestField, D.FileUnder;
    ghost var before := d.View();
    var keyIdx;
    rc, keyIdx := d.RegisterNext(finite);
    AllKept(gets, before, d.View());
  }

  /** A write event passes through the matcher, and each handler that runs schedules its get. */
  method EventTogether(gets: set<Get>, store: Store, d: D.Matcher, fields: seq<string>)
    requires Together(gets, store, d)
    modifies gets, d
    ensures Together(gets, store, d) && D.Outcome(old(d.View()), d.View(), fields)
    ensures forall g :: g in gets ==> g.answers == old(g.answers) && g.groups == old(g.groups)
    ensures forall g :: g in gets ==>
              g.pending == old(g.pending) + FiredOf(d.fired, g.groups) - FiredOf(old(d.fired), g.groups)
  {
    hide D.Ok, D.Outcome, Inv, PropOk, OwnerOk, ExpireOk, MadeFor, FiredOf;
    ghost var before := d.View();
    var n := |d.fired|;
    var stopped := d.Process(fields);
    ScanGrows(before, d.View());
    WakeAll(gets, store, d, n, before);
  }

  /** A timer goes off. */
  method TimerTogether(gets: set<Get>, store: Store, d: D.Matcher, sid: D.Sid)
    requires Together(gets, store, d) && D.Handled(d.View(), sid)
    modifies gets, d
    ensures Together(gets, store, d)
    ensures forall g :: g in gets ==> g.answers == old(g.answers) && g.groups == old(g.groups)
    ensures forall g :: g in gets ==>
              g.pending == old(g.pending) + FiredOf(d.fired, g.groups) - FiredOf(old(d.fired), g.groups)
  {
    hide D.Ok, Inv, PropOk, OwnerOk, ExpireOk, MadeFor, FiredOf;
    ghost var before := d.View();
    var n := |d.fired|;
    d.Timeout(sid);
    WakeAll(gets, store, d, n, before);
  }

  /** The handlers that ran since the log had `n` entries. */
  method WakeAll(gets: set<Get>, store: Store, d: D.Matcher, n: nat, ghost before: D.State)
    requires n == |before.fired| && before.fired <= d.fired && Grown(before, d.View()) && store.Valid() && d.Valid()
    requires forall g :: g in gets ==> g.store == store && g.d == d && g.Balanced(before)
    modifies gets`pending
    ensures Together(gets, store, d)
    ensures forall g :: g in gets ==>
              g.pending == old(g.pending) + FiredOf(d.fired, g.groups) - FiredOf(before.fired, g.groups)
  {
    hide D.Ok, Inv, PropOk, OwnerOk, ExpireOk, MadeFor, FiredOf, Grown;
    var todo := gets;
    while todo != {}
      invariant todo <= gets && store.Valid() && d.Valid() && d.View() == old(d.View())
      invariant forall g :: g in todo ==> g.Balanced(before) && g.pending == old(g.pending)
      invariant forall g :: g in gets - todo ==> g.Balanced(d.View())
      invariant forall g :: g in gets - todo ==>
                  g.pending == old(g.pending) + FiredOf(d.fired, g.groups) - FiredOf(before.fired, g.groups)
      decreases todo
    {
      var g :| g in todo;
      g.Wake(n, before);
      todo := todo - {g};
    }
  }

  lemma LookGrows(s: D.State, s': D.State, p: Params)
    requires s' == s || exists g, drawn :: NewGroup(s, s', g, p, drawn)
    ensures Grown(s, s') && s'.fired == s.fired
  {
  }

  // ----- how often a get is answered -----

  lemma {:induction false} FiredBound(s: D.State, groups: set<nat>)
    requires D.Ok(s) && groups <= s.groups.Keys
    ensures FiredOf(s.fired, groups) <= |groups| + |groups * s.twice|
    decreases groups
  {
    hide D.Ok;
    if groups == {} {
      NoneFired(s.fired);
    } else {
      var g :| g in groups;
      var rest := groups - {g};
      assert rest + {g} == groups;
      FiredBound(s, rest);
      FiredWithout(s.fired, rest, g);
      D.GroupLife(s, g);
      assert groups * s.twice == rest * s.twice + if g in s.twice then {g} else {};
    }
  }

  /** Whatever happens in between, a get is answered, and has runs left to answer it,
      at most once and once more for each of its groups that fired twice. */
  lemma AnswerBound(g: Get)
    requires g.Valid()
    ensures |g.answers| + g.pending <= 1 + |g.groups * g.d.twice|
  {
    FiredBound(g.d.View(), g.groups);
  }

  /** A take, and a get of a single template, is answered at most once. */
  lemma AnsweredOnce(g: Get)
    requires g.Valid() && (g.p.take || |g.p.templates| <= 1)
    ensures |g.answers| + g.pending <= 1
  {
    AnswerBound(g);
    forall h | h in g.groups ensures h !in g.d.twice {
      SafeGroup(g.d.View(), h, g.p);
    }
    assert g.groups * g.d.twice == {};
  }

  lemma SafeGroup(s: D.State, g: nat, p: Params)
    requires D.Ok(s) && MadeFor(s, g, p) && (p.take || |p.templates| <= 1)
    ensures g !in s.twice
  {
    assert D.Safe(s.items, s.groups[g]);
    D.GroupFiresAtMostOnce(s, g);
    D.GroupFiresAtMostTwice(s, g);
  }

  // ----- what an if-exists get waits for -----

  /** The store without the records that transactions have written or taken. */
  ghost function Unowned(hs: Holders): (r: Holders) {
    map l | l in hs && hs[l].txnId == 0 :: hs[l]
  }

  lemma SameHits(s: Db, p: Params, k: nat, now: Time)
    requires Inv(s) && k < |p.templates|
    ensures HitsOf(s.holders, p, k, now) == HitsOf(Unowned(s.holders), p, k, now)
  {
    forall l | l in s.holders && Visible(s.holders[l], now) ensures s.holders[l].txnId == 0 {
      assert HolderOk(s, l);
    }
  }

  lemma {:induction false} SameExpected(s: Db, p: Params, now: Time, k: nat)
    requires Inv(s) && k <= |p.templates|
    ensures Expected(s.holders, p, now, k) == Expected(Unowned(s.holders), p, now, k)
  {
    if k > 0 {
      SameExpected(s, p, now, k - 1);
      SameHits(s, p, k - 1, now);
    }
  }

  lemma {:induction false} SameTrouble(s: Db, p: Params, now: Time, k: nat)
    requires Inv(s) && k <= |p.templates|
    ensures Trouble(s.holders, p, now, k) == Trouble(Unowned(s.holders), p, now, k)
    decreases |p.templates| - k
  {
    if k < |p.templates| {
      SameTrouble(s, p, now, k + 1);
      SameHits(s, p, k, now);
    }
  }

  /** Whether a get misses, and whether it then sees something to wait for, does not
      depend on what transactions have written or taken. */
  lemma OwnedAreUnseen(s: Db, p: Params, now: Time)
    requires Inv(s)
    ensures Verdict(s.holders, p, now) == Verdict(Unowned(s.holders), p, now)
    ensures FirstHits(s.holders, p, now) == FirstHits(Unowned(s.holders), p, now)
  {
    SameTrouble(s, p, now, 0);
    SameExpected(s, p, now, |p.templates|);
    if p.templates != [] {
      SameHits(s, p, 0, now);
    }
  }

  lemma {:induction false} TroubleAt(hs: Holders, p: Params, now: Time, k: nat) returns (m: nat)
    requires k <= |p.templates| && Trouble(hs, p, now, k) == NotFound
    ensures k <= m < |p.templates| && p.max == 0 && HitCount(hs, p, m, now) == 0
    decreases |p.templates| - k
  {
    m := k;
    if p.max != 0 || HitCount(hs, p, k, now) > 0 {
      m := TroubleAt(hs, p, now, k + 1);
    }
  }

  lemma {:induction false} FirstIsExpected(hs: Holders, p: Params, now: Time, k: nat)
    requires 0 < k <= |p.templates| && HitCount(hs, p, 0, now) > 0
    ensures Expected(hs, p, now, k) != []
  {
    if k > 1 {
      FirstIsExpected(hs, p, now, k - 1);
    }
  }

  /** A get that misses and sees something to wait for has its record for the first
      template already: it is a later one that has none. */
  lemma WaitsForAnother(hs: Holders, p: Params, now: Time) returns (k: nat)
    requires Verdict(hs, p, now) == NotFound && FirstHits(hs, p, now)
    ensures 0 < k < |p.templates| && HitCount(hs, p, k, now) == 0
  {
    hide HitCount;
    FirstIsExpected(hs, p, now, |p.templates|);
    k := TroubleAt(hs, p, now, 0);
  }

  // ----- a write between the miss and the filing -----

  /** None of the group's templates is filed yet. */
  ghost predicate Unfiled(s: D.State, g: nat) {
    g in s.groups && forall x :: x in s.groups[g] ==> !D.InTable(s.table, x)
  }

  /** An event that comes before the templates are filed does not wake the get. */
  lemma UnfiledIsPassedOver(s: D.State, s': D.State, fields: seq<string>, g: nat)
    requires D.Ok(s) && D.Outcome(s, s', fields) && Unfiled(s, g)
    ensures multiset(s'.fired)[g] == multiset(s.fired)[g]
  {
    assert D.Swept(s, s', fields, |fields|, g);
    D.GroupLife(s, g);
    hide D.Ok, D.Outcome;
    forall at: nat, q: nat ensures !D.MetBy(s, fields, at, q, g) { MetIsFiled(s, fields, at, q, g); }
    forall at: nat, q: nat ensures !D.ReachedBy(s, fields, at, q, g) {
      assert !D.MetBy(s, fields, at, q, g);
    }
    forall at: nat, i: nat, j: nat ensures !D.ReachedTwice(s, fields, at, i, j, g) {
      assert !D.MetBy(s, fields, at, i, g);
    }
  }

  lemma MetIsFiled(s: D.State, fields: seq<string>, at: nat, q: nat, g: nat)
    requires D.Ok(s)
    ensures D.MetBy(s, fields, at, q, g) ==>
              g in s.groups && D.Entry(s, fields, at, q) in s.groups[g] && D.InTable(s.table, D.Entry(s, fields, at, q))
  {
    if D.MetBy(s, fields, at, q, g) {
      var x := D.Entry(s, fields, at, q);
      assert D.IsMember(s, x) && x in s.table[D.Hash(fields[at])];
    }
  }

  // ----- two runs -----

  const TwoEqual := GetParams(false, true, 0, [["a"], ["a"]], 1)

  const JustOne := GetParams(false, true, 0, [["a"]], 1)

  /** In an empty store nothing is found; with a tuple ["a"] either get succeeds. */
  lemma Verdicts(p: Params, l: Id, now: Time)
    requires p == TwoEqual || p == JustOne
    ensures Verdict(map[], p, now) == NotFound && Verdict(map[l := Tuple(l, "a")], p, now) == Ok
  {
    assert ["a"][0] != WILDCARD;
    forall k | 0 <= k < |p.templates| ensures p.templates[k] == ["a"] && TemplateOk(true, p.templates[k]) {}
    OneFieldHits("a", "a", l);
    var hs := map[l := Tuple(l, "a")];
    forall k | 0 <= k < |p.templates|
      ensures HitsOf(map[], p, k, now) == {} && HitsOf(hs, p, k, now) == {l}
    {
    }
    VerdictOf(map[], p, now, 0);
    VerdictOf(hs, p, now, 1);
  }

  /** With the same number of hits for each template, and `max` 1. */
  lemma VerdictOf(hs: Holders, p: Params, now: Time, hits: nat)
    requires p.max == 1 && 1 <= |p.templates| <= 2 && hits <= 1
    requires forall k :: 0 <= k < |p.templates| ==>
               TemplateOk(p.isTuple, p.templates[k]) && HitCount(hs, p, k, now) == hits
    ensures Verdict(hs, p, now) == if hits == 0 then NotFound else Ok
  {
    hide HitCount, TemplateOk;
    assert Trouble(hs, p, now, |p.templates|) == Ok && Trouble(hs, p, now, |p.templates| - 1) == Ok;
    assert Trouble(hs, p, now, 0) == Ok;
    assert |Expected(hs, p, now, 1)| == hits;
    assert |p.templates| == 2 ==> |Expected(hs, p, now, 2)| == 2 * hits;
  }

  lemma FiredBy(fired: seq<nat>, g: nat)
    ensures FiredOf(fired, {g}) == multiset(fired)[g]
  {
    NoneFired(fired);
    FiredWithout(fired, {}, g);
    assert {} + {g} == {g};
  }

  /** A get that misses, in an empty store, and registers its templates as group 101. */
  method MissAndRegister(p: Params, drawn: seq<nat>) returns (g: Get)
    requires (p == TwoEqual || p == JustOne) && |drawn| == |p.templates|
    ensures fresh(g) && fresh(g.store) && fresh(g.d) && g.Valid() && g.p == p && g.deadline == 100 && !g.ifExists
    ensures g.pending == 0 && g.answers == [] && g.groups == {101} && g.store.holderDb == map[] && g.store.clock == 0
    ensures NewGroup(EMPTY_MATCHER, g.d.View(), 101, p, drawn)
  {
    hide D.Ok, Inv, PropOk, OwnerOk, ExpireOk, Verdict, NewGroup;
    var store := new Store();
    var d := new D.Matcher();
    g := new Get(store, d, p, false, 100);
    Verdicts(p, 1, 0);
    var rc, exists';
    ghost var foundBy;
    rc, exists', foundBy := g.Look(0, 0, [false], drawn);
  }

  const EMPTY_MATCHER := D.State(map[], map[], [], map[], map[], [], {}, {})

  /** A read of two equal templates misses and is filed as in `D.ReadOfTwo`. */
  method ReadMisses() returns (g: Get)
    ensures fresh(g) && fresh(g.store) && fresh(g.d) && g.Valid() && g.p == TwoEqual
    ensures g.pending == 0 && g.answers == [] && g.groups == {101} && g.d.fired == [] && g.d.dead == {}
    ensures 101 in g.d.groups && D.PairFiled(g.d.View(), 101) && g.store.holderDb == map[] && g.store.clock == 0
  {
    hide D.Ok, Inv, PropOk, OwnerOk, ExpireOk, D.Hash, D.Insert;
    g := MissAndRegister(TwoEqual, [915, 0]);
    PairMade(g.d.View());
    hide NewGroup;
    FilePair(g);
  }

  method FilePair(g: Get)
    requires g.Valid() && g.d.queue == [] && g.d.table == map[]
    requires 101 in g.d.groups && g.d.groups[101] == [1017, 1018] && 101 in g.d.sent && g.d.sent[101] == 0
    requires 1017 in g.d.items && g.d.items[1017] == D.NewItem(101, 0, false, ["a"])
    requires 1018 in g.d.items && g.d.items[1018] == D.NewItem(101, 1, false, ["a"])
    modifies g.d`items, g.d`table, g.d`queue, g.d`sent, g.d`armed
    ensures g.Valid() && D.PairFiled(g.d.View(), 101)
  {
    hide D.Ok, Inv, PropOk, OwnerOk, ExpireOk, D.Hash, D.Insert, MadeFor, D.Drawn;
    g.File(101, "a");
    g.File(101, "a");
    D.InsertPair();
  }

  lemma PairMade(s: D.State)
    requires NewGroup(EMPTY_MATCHER, s, 101, TwoEqual, [915, 0])
    ensures 101 in s.groups && s.groups[101] == [1017, 1018] && 101 in s.sent && s.sent[101] == 0
    ensures 1017 in s.items && s.items[1017] == D.NewItem(101, 0, false, ["a"])
    ensures 1018 in s.items && s.items[1018] == D.NewItem(101, 1, false, ["a"])
    ensures s.table == map[] && s.queue == [] && s.fired == [] && s.dead == {}
  {
    assert D.SidAt(102, [915, 0], 1) == 1018;
    assert s.groups[101] == [1017, 1018];
  }

  lemma OneMade(s: D.State)
    requires NewGroup(EMPTY_MATCHER, s, 101, JustOne, [0])
    ensures 101 in s.groups && s.groups[101] == [102] && 101 in s.sent && s.sent[101] == 0
    ensures 102 in s.items && s.items[102] == D.NewItem(101, 0, false, ["a"])
    ensures s.table == map[] && s.queue == [] && s.fired == [] && s.dead == {}
  {
    assert s.groups[101] == [102];
  }

  /** A record written after the miss and before the template is filed: its event goes
      by, and only the timeout makes the get look again and find it. */
  method WriteInTheGap() returns (g: Get, ghost noticed: nat)
    ensures fresh(g) && g.Valid() && noticed == 0 && |g.answers| == 1 && g.answers[0].Found?
  {
    hide D.Ok, Inv, PropOk, OwnerOk, ExpireOk, Verdict, GetAnswer, D.Hash, MadeFor, FiredOf;
    g := MissAndRegister(JustOne, [0]);
    OneMade(g.d.View());
    hide NewGroup;
    var rc, l := PutTuple(g.store, "a");
    ghost var s := g.d.View();
    g.Event(["a"]);
    noticed := g.pending;
    EventGoesBy(s, g.d.View());
    FileAndTime(g);
    LookAgain(g, l);
  }

  /** At the deadline the record is there to be found. */
  method LookAgain(g: Get, l: Id)
    requires g.Valid() && g.pending == 1 && g.answers == [] && g.p == JustOne && g.store.clock == 0
    requires g.store.holderDb == map[l := Tuple(l, "a")]
    modifies g, g.store, g.d
    ensures g.Valid() && |g.answers| == 1 && g.answers[0].Found?
  {
    hide D.Ok, Inv, PropOk, OwnerOk, ExpireOk, Verdict, GetAnswer, MadeFor, NewGroup, FiredOf;
    Verdicts(JustOne, l, 100);
    var rc, exists';
    ghost var foundBy;
    rc, exists', foundBy := g.Look(100, 100, [false], [0]);
  }

  lemma EventGoesBy(s: D.State, s': D.State)
    requires D.Ok(s) && D.Ok(s') && D.Progress(s, s') && D.Outcome(s, s', ["a"]) && s.table == map[] && s.fired == []
    requires 101 in s.groups && 101 !in s.dead && s.groups[101] == [102] && 102 in s.items
    ensures FiredOf(s'.fired, {101}) == 0 && FiredOf(s.fired, {101}) == 0 && 101 !in s'.dead && 101 !in s'.fired
    ensures s'.groups == s.groups && s'.sent == s.sent && s'.queue == s.queue
    ensures 102 in s'.items && D.SameTemplate(s.items[102], s'.items[102])
  {
    forall x ensures !D.InTable(s.table, x) {}
    UnfiledIsPassedOver(s, s', ["a"], 101);
    FiredBy(s.fired, 101);
    FiredBy(s'.fired, 101);
    assert D.Swept(s, s', ["a"], 1, 101);
  }

  /** The template is filed at last, and its timer goes off. */
  method FileAndTime(g: Get)
    requires g.Valid() && g.groups == {101} && g.pending == 0 && g.d.queue == [] && 101 !in g.d.dead
    requires 101 in g.d.groups && g.d.groups[101] == [102] && 101 in g.d.sent && g.d.sent[101] == 0
    requires 102 in g.d.items && g.d.items[102].gid == 101 && g.d.items[102].pos == 0 && g.d.items[102].templ == ["a"]
    modifies g`pending, g.d
    ensures g.Valid() && g.pending == 1 && g.d.fired == old(g.d.fired) + [101]
  {
    hide D.Ok, Inv, PropOk, OwnerOk, ExpireOk, D.Hash, D.Insert, MadeFor;
    g.File(101, "a");
    assert 102 in g.d.table[D.Hash("a")];
    assert D.InTable(g.d.table, 102);
    ghost var before := g.d.fired;
    g.Timer(102);
    OneMoreFired(before, g.d.fired, 101);
  }

  lemma OneMoreFired(a: seq<nat>, b: seq<nat>, g: nat)
    requires b == a + [g]
    ensures FiredOf(b, {g}) == FiredOf(a, {g}) + 1
  {
    assert b[..|b| - 1] == a;
  }

  /** A get that nothing matches misses, waits, is timed out at its deadline, and ends with
      the one answer that there is nothing. */
  method TimedOut() returns (g: Get)
    ensures fresh(g) && g.Valid() && !g.ifExists && g.deadline == 100 && g.store.clock == 100
    ensures g.answers == [Nothing] && g.pending == 0 && g.groups == {101} && g.d.fired == [101]
  {
    hide D.Ok, Inv, PropOk, OwnerOk, ExpireOk, Verdict, GetAnswer, MadeFor, FiredOf;
    g := MissAndRegister(JustOne, [0]);
    OneMade(g.d.View());
    hide NewGroup;
    FileAndTime(g);
    Verdicts(JustOne, 1, 100);
    var rc, exists';
    ghost var foundBy;
    rc, exists', foundBy := g.Look(100, 100, [false], [0]);
  }

  /** The one write that matches it has it answered twice. */
  method ReadAnsweredTwice() returns (g: Get)
    ensures fresh(g) && g.Valid() && !g.p.take && |g.answers| == 2
  {
    hide D.Ok, Inv, PropOk, OwnerOk, ExpireOk, Verdict, D.ReachedTwice, D.PairFiled, GetAnswer, MadeFor, FiredOf,
         NewGroup;
    g := ReadMisses();
    var rc, l := PutTuple(g.store, "a");
    ghost var s := g.d.View();
    D.PairIsReachedTwice(s, 101);
    g.Event(["a"]);
    assert D.Swept(s, g.d.View(), ["a"], 1, 101);
    FiredBy([], 101);
    FiredBy(g.d.fired, 101);
    Verdicts(TwoEqual, l, 0);
    var exists';
    ghost var foundBy;
    rc, exists', foundBy := g.Look(0, 0, [false], [0, 0]);
    rc, exists', foundBy := g.Look(0, 0, [false], [0, 0]);
  }

  /** A transaction has written ["a"]; an if-exists get of ["a"] with time to wait is
      told at once that there is nothing. */
  method IfExistsIgnoresWritten() returns (g: Get, t: Id, l: Id)
    ensures fresh(g) && g.Valid() && g.p == JustOne && g.ifExists && g.deadline == 100 && g.store.clock == 0
    ensures t != 0 && IsActive(g.store.txnDb, t)
    ensures g.store.holderDb == map[l := Tuple(l, "a").(lock := WriteLock, txnId := t)]
    ensures g.answers == [Nothing] && g.pending == 0 && g.groups == {}
  {
    hide D.Ok, PropOk, OwnerOk, ExpireOk, MadeFor, FiredOf, Verdict, GetAnswer, Inv, NewGroup;
    var store;
    store, t, l := WriteUnderTxn();
    var d := new D.Matcher();
    g := new Get(store, d, JustOne, true, 100);
    OwnedAreUnseen(store.View(), JustOne, 0);
    assert Unowned(store.holderDb) == map[];
    Verdicts(JustOne, 1, 0);
    var rc, exists';
    ghost var foundBy;
    rc, exists', foundBy := g.Look(0, 0, [false], [0]);
  }

  method WriteUnderTxn() returns (store: Store, t: Id, l: Id)
    ensures fresh(store) && store.Valid() && store.clock == 0 && t != 0 && IsActive(store.txnDb, t)
    ensures store.holderDb == map[l := Tuple(l, "a").(lock := WriteLock, txnId := t)]
  {
    hide PropOk, OwnerOk, ExpireOk, Indexable, OneEventEach;
    store := new Store();
    var rc;
    ghost var e;
    rc, t, e := store.StartTxn(FOREVER, 0, false);
    rc, l, e := store.Put(t, FOREVER, true, DataObject(["a"], []), 0, false);
  }
}

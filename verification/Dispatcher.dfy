/**
 The template matcher of corelib/Oed_Dispatcher.c: templates filed under their
 rarest field, groups of templates that are to fire once, write events that
 scan only the sets found under their own fields.
 */
module Dispatcher {
  import PropIndex
  import Space

  type Sid = nat

  const WILDCARD := Space.WILDCARD

  // ----- keys -----

  /** oec_hash_string_key */
  function HashFrom(h: nat, s: string): (r: nat)
    decreases |s|
  {
    if s == [] then h else HashFrom((127 * h + s[0] as int) % 99000, s[1..])
  }

  /** The table compares and files string keys by this hash alone. */
  function Hash(s: string): (r: nat) { HashFrom(0, s) }

  lemma {:induction false} HashSnoc(h: nat, s: string, c: char)
    ensures HashFrom(h, s + [c]) == (127 * HashFrom(h, s) + c as int) % 99000
    decreases |s|
  {
    if s == [] {
      assert (s + [c])[1..] == [];
    } else {
      assert (s + [c])[1..] == s[1..] + [c];
      HashSnoc((127 * h + s[0] as int) % 99000, s[1..], c);
    }
  }

  /** The hash reads a string to its end, character by character. */
  lemma HashLaw(s: string, c: char)
    ensures Hash("") == 0 && Hash(s + [c]) == (127 * Hash(s) + c as int) % 99000
  {
    HashSnoc(0, s, c);
  }

  /** `oec_hash_string_key`'s loop. */
  method HashStringKey(s: string) returns (h: nat)
    ensures h == Hash(s)
  {
    h := 0;
    var v := 0;
    while v < |s|
      invariant v <= |s| && h == Hash(s[..v])
    {
      HashLaw(s[..v], s[v]);
      assert s[..v + 1] == s[..v] + [s[v]];
      h := (127 * h + s[v] as int) % 99000;
      v := v + 1;
    }
    assert s[..v] == s;
  }

  // ----- the sets of templates, in the order Set_toArray lists them -----

  const BUCKETS := 509

  function Bucket(sid: Sid): (r: nat) { (sid % 0x1_0000_0000) % BUCKETS }

  predicate Ordered(a: seq<Sid>) {
    forall i, j :: 0 <= i < j < |a| ==> Bucket(a[i]) <= Bucket(a[j]) && a[i] != a[j]
  }

  /** Set_put of a new member: at the head of its bucket. */
  function Insert(a: seq<Sid>, sid: Sid): (r: seq<Sid>)
    ensures |r| == |a| + 1 && forall x :: x in r <==> x == sid || x in a
    decreases |a|
  {
    if a == [] || Bucket(sid) <= Bucket(a[0]) then
      assert forall x :: x in [sid] + a <==> x == sid || x in a;
      [sid] + a
    else
      var r := [a[0]] + Insert(a[1..], sid);
      assert forall x :: x in a <==> x == a[0] || x in a[1..];
      r
  }

  lemma {:induction false} InsertOrdered(a: seq<Sid>, sid: Sid)
    requires Ordered(a) && sid !in a
    ensures Ordered(Insert(a, sid))
    decreases |a|
  {
    if a != [] && Bucket(sid) > Bucket(a[0]) {
      InsertOrdered(a[1..], sid);
      var tail := Insert(a[1..], sid);
      forall j | 0 <= j < |tail| ensures Bucket(a[0]) <= Bucket(tail[j]) && a[0] != tail[j] {
        assert tail[j] in tail;
      }
    }
  }

  /** The new member is put before the first one of its bucket, after those of lower buckets. */
  lemma {:induction false} InsertedAtHead(a: seq<Sid>, sid: Sid) returns (k: nat)
    requires Ordered(a)
    ensures k <= |a| && Insert(a, sid) == a[..k] + [sid] + a[k..]
    ensures forall i :: 0 <= i < |a| ==> (i < k <==> Bucket(a[i]) < Bucket(sid))
    decreases |a|
  {
    if a == [] || Bucket(sid) <= Bucket(a[0]) {
      k := 0;
    } else {
      var j := InsertedAtHead(a[1..], sid);
      k := j + 1;
      forall i | 0 <= i < |a| ensures i < k <==> Bucket(a[i]) < Bucket(sid) {
        assert i > 0 ==> a[i] == a[1..][i - 1];
      }
    }
  }

  /** Members are hashed as 32-bit values over 509 buckets. */
  lemma BucketLaw(x: Sid, k: nat)
    requires x < 509 && x + 509 * k < 0x1_0000_0000
    ensures Bucket(x + 509 * k) == x && Bucket(x + 509 * k + 0x1_0000_0000) == x
  {
    var y := x + 509 * k;
    assert (y + 0x1_0000_0000) % 0x1_0000_0000 == y;
    assert y % 509 == x;
  }

  /** Set_remove of every member of `s`. */
  function Without(a: seq<Sid>, s: set<Sid>): (r: seq<Sid>)
    ensures forall x :: x in r <==> x in a && x !in s
    decreases |a|
  {
    if a == [] then []
    else
      assert forall x :: x in a <==> x == a[0] || x in a[1..];
      if a[0] in s then Without(a[1..], s) else [a[0]] + Without(a[1..], s)
  }

  lemma {:induction false} WithoutOrdered(a: seq<Sid>, s: set<Sid>)
    requires Ordered(a)
    ensures Ordered(Without(a, s))
    decreases |a|
  {
    if a != [] {
      WithoutOrdered(a[1..], s);
      var rest := Without(a[1..], s);
      forall j | 0 <= j < |rest| ensures Bucket(a[0]) <= Bucket(rest[j]) && a[0] != rest[j] {
        assert rest[j] in rest;
      }
    }
  }

  lemma {:induction false} WithoutTwice(a: seq<Sid>, s: set<Sid>, t: set<Sid>)
    ensures Without(Without(a, s), t) == Without(a, s + t)
    decreases |a|
  {
    if a != [] {
      WithoutTwice(a[1..], s, t);
      if a[0] !in s {
        assert ([a[0]] + Without(a[1..], s))[1..] == Without(a[1..], s);
      }
    }
  }

  lemma {:induction false} WithoutNone(a: seq<Sid>, s: set<Sid>)
    requires forall x :: x in a ==> x !in s
    ensures Without(a, s) == a
    decreases |a|
  {
    if a != [] {
      assert a[0] in a;
      forall x | x in a[1..] ensures x in a {}
      WithoutNone(a[1..], s);
    }
  }

  // ----- matching -----

  predicate MatchesField(field: string, fields: seq<string>, at: nat, k: nat)
    requires k < |fields|
  {
    k != at && (fields[k] == field || field == WILDCARD)
  }

  /** `_processSet`'s test of one template against an object found under field
      `at`: neither the field that filed the template nor the one that found it
      is compared again. */
  predicate FieldMatches(field: string, fields: seq<string>, at: nat) {
    exists k :: 0 <= k < |fields| && MatchesField(field, fields, at, k)
  }

  predicate MatchesAt(templ: seq<string>, keyIdx: nat, fields: seq<string>, at: nat) {
    forall j :: 0 <= j < |templ| && j != keyIdx ==> FieldMatches(templ[j], fields, at)
  }

  /** `_processSet`'s innermost loop. */
  method TestField(field: string, fields: seq<string>, at: nat) returns (kmatched: bool)
    ensures kmatched == FieldMatches(field, fields, at)
  {
    kmatched := false;
    var k := 0;
    while !kmatched && k < |fields|
      invariant k <= |fields|
      invariant kmatched <==> exists i :: 0 <= i < k && MatchesField(field, fields, at, i)
    {
      if k != at && (fields[k] == field || field == WILDCARD) {
        assert MatchesField(field, fields, at, k);
        kmatched := true;
      }
      k := k + 1;
    }
  }

  /** `_processSet`'s loop over the fields of a template. */
  method TestFields(templ: seq<string>, keyIdx: nat, fields: seq<string>, at: nat) returns (matched: bool)
    ensures matched == MatchesAt(templ, keyIdx, fields, at)
  {
    matched := true;
    var j := 0;
    while matched && j < |templ|
      invariant j <= |templ|
      invariant matched ==> forall i :: 0 <= i < j && i != keyIdx ==> FieldMatches(templ[i], fields, at)
      invariant !matched ==> !MatchesAt(templ, keyIdx, fields, at)
    {
      if j != keyIdx {
        matched := TestField(templ[j], fields, at);
      }
      j := j + 1;
    }
  }

  /** Each template field finds its own field of the object, `f` telling which. */
  predicate Placed(templ: seq<string>, fields: seq<string>, f: seq<nat>) {
    |f| == |templ| &&
    (forall j :: 0 <= j < |templ| ==> f[j] < |fields| && (templ[j] == WILDCARD || fields[f[j]] == templ[j])) &&
    forall i, j :: 0 <= i < j < |templ| ==> f[i] != f[j]
  }

  lemma PlacedMatches(templ: seq<string>, fields: seq<string>, f: seq<nat>, keyIdx: nat)
    requires Placed(templ, fields, f) && keyIdx < |templ|
    ensures MatchesAt(templ, keyIdx, fields, f[keyIdx])
  {
    forall j | 0 <= j < |templ| && j != keyIdx ensures FieldMatches(templ[j], fields, f[keyIdx]) {
      var k := f[j];
      assert MatchesField(templ[j], fields, f[keyIdx], k);
    }
  }

  // ----- state -----

  /** A registered template.  `linked` says its group pointer is set, `onMatch`
      and `onTimeout` that its handlers are, `filed` that it was given a set. */
  datatype Item = Item(gid: nat, pos: nat, consume: bool, templ: seq<string>, linked: bool,
                       onMatch: bool, onTimeout: bool, filed: bool, keyIdx: nat)

  /** `sent` counts the members of a group handed to the work queue so far,
      `fired` lists the groups whose handler ran, `dead` those removed, `twice`
      those whose handler ran in one scan for two members. */
  datatype State = State(items: map<Sid, Item>, table: map<nat, seq<Sid>>, queue: seq<Sid>,
                         groups: map<nat, seq<Sid>>, sent: map<nat, nat>, fired: seq<nat>, dead: set<nat>,
                         twice: set<nat>)

  ghost predicate ItemAt(s: State, h: nat, sid: Sid) {
    sid in s.items && sid !in s.queue &&
    var it := s.items[sid];
    it.filed && it.keyIdx < |it.templ| && it.templ[it.keyIdx] != WILDCARD && Hash(it.templ[it.keyIdx]) == h
  }

  ghost predicate TableOk(s: State) {
    forall h :: h in s.table ==> Ordered(s.table[h]) && forall sid :: sid in s.table[h] ==> ItemAt(s, h, sid)
  }

  ghost predicate InTable(table: map<nat, seq<Sid>>, sid: Sid) {
    exists h :: h in table && sid in table[h]
  }

  ghost predicate QueuedBefore(items: map<Sid, Item>, a: Sid, b: Sid) {
    a in items && b in items && a != b && (items[a].gid == items[b].gid ==> items[a].pos < items[b].pos)
  }

  /** Work is queued first come, first served, each group's members in order. */
  ghost predicate QueueOk(s: State) {
    (forall i :: 0 <= i < |s.queue| ==> s.queue[i] in s.items && !s.items[s.queue[i]].filed) &&
    forall i, j :: 0 <= i < j < |s.queue| ==> QueuedBefore(s.items, s.queue[i], s.queue[j])
  }

  ghost predicate MembersOk(s: State, g: nat)
    requires g in s.groups
  {
    var m := s.groups[g];
    |m| > 0 && g in s.sent && s.sent[g] <= |m| && m[0] in s.items &&
    (forall j :: 0 <= j < |m| ==> m[j] in s.items && s.items[m[j]].gid == g && s.items[m[j]].pos == j &&
                                  s.items[m[j]].consume == s.items[m[0]].consume) &&
    (forall j :: s.sent[g] <= j < |m| ==> m[j] !in s.queue && !s.items[m[j]].filed) &&
    forall i, j :: 0 <= i < j < s.sent[g] && m[i] in s.queue ==> m[j] in s.queue
  }

  /** No scan can come upon a later member before the first one and go on. */
  predicate Safe(items: map<Sid, Item>, m: seq<Sid>) {
    m != [] && m[0] in items && (items[m[0]].consume || forall j :: 0 < j < |m| ==> Bucket(m[0]) < Bucket(m[j]))
  }

  /** Until it is removed a group has all its handlers and has not fired; after
      that only its first member keeps handlers, and that one is out of reach. */
  ghost predicate LifeOk(s: State, g: nat)
    requires g in s.groups && MembersOk(s, g)
  {
    var m := s.groups[g];
    if g in s.dead then
      s.sent[g] > 0 && m[0] !in s.queue && !InTable(s.table, m[0]) && multiset(s.fired)[g] <= 2 &&
      (Safe(s.items, m) ==> multiset(s.fired)[g] <= 1) && (multiset(s.fired)[g] == 2 <==> g in s.twice) &&
      forall j :: 0 < j < |m| ==> !s.items[m[j]].onMatch && !s.items[m[j]].onTimeout
    else
      multiset(s.fired)[g] == 0 && g !in s.twice &&
      forall j :: 0 <= j < |m| ==> s.items[m[j]].onMatch && s.items[m[j]].onTimeout &&
                                   (s.items[m[j]].linked <==> j < s.sent[g])
  }

  ghost predicate GroupsOk(s: State) {
    forall g :: g in s.groups ==> MembersOk(s, g) && LifeOk(s, g)
  }

  ghost predicate IsMember(s: State, sid: Sid)
    requires sid in s.items
  {
    var it := s.items[sid];
    it.gid in s.groups && it.pos < |s.groups[it.gid]| && s.groups[it.gid][it.pos] == sid
  }

  ghost predicate BackOk(s: State) {
    forall sid {:trigger IsMember(s, sid)} :: sid in s.items ==> IsMember(s, sid)
  }

  ghost predicate LogOk(s: State) {
    s.dead <= s.groups.Keys && s.twice <= s.groups.Keys && forall g :: g in s.fired ==> g in s.groups
  }

  ghost predicate Ok(s: State) { TableOk(s) && QueueOk(s) && GroupsOk(s) && BackOk(s) && LogOk(s) }

  // ----- removing a group -----

  function Members(m: seq<Sid>): (r: set<Sid>) { set x | x in m }

  /** The items once a group's links are cut and all handlers but the first's dropped. */
  function Unlinked(items: map<Sid, Item>, m: seq<Sid>): (r: map<Sid, Item>) {
    map sid | sid in items ::
      if sid !in m then items[sid]
      else if items[sid].pos == 0 then items[sid].(linked := false)
      else items[sid].(linked := false, onMatch := false, onTimeout := false)
  }

  ghost predicate MinusAt(t: map<nat, seq<Sid>>, t': map<nat, seq<Sid>>, gone: set<Sid>, h: nat) {
    (h in t' ==> h in t && t'[h] == Without(t[h], gone)) && (h in t && h !in t' ==> Without(t[h], gone) == [])
  }

  /** `t'` is `t` without the templates `gone`; emptied sets may be dropped. */
  ghost predicate Minus(t: map<nat, seq<Sid>>, t': map<nat, seq<Sid>>, gone: set<Sid>) {
    forall h {:trigger MinusAt(t, t', gone, h)} :: MinusAt(t, t', gone, h)
  }

  ghost predicate Thinned(t: map<nat, seq<Sid>>, t': map<nat, seq<Sid>>) {
    exists gone :: Minus(t, t', gone)
  }

  lemma MinusTwice(t: map<nat, seq<Sid>>, t1: map<nat, seq<Sid>>, t2: map<nat, seq<Sid>>, a: set<Sid>, b: set<Sid>)
    requires Minus(t, t1, a) && Minus(t1, t2, b)
    ensures Minus(t, t2, a + b)
  {
    forall h ensures MinusAt(t, t2, a + b, h) {
      assert MinusAt(t, t1, a, h) && MinusAt(t1, t2, b, h);
      if h in t { WithoutTwice(t[h], a, b); }
    }
  }

  lemma ThinnedTwice(t: map<nat, seq<Sid>>, t1: map<nat, seq<Sid>>, t2: map<nat, seq<Sid>>)
    requires Thinned(t, t1) && Thinned(t1, t2)
    ensures Thinned(t, t2)
  {
    var a :| Minus(t, t1, a);
    var b :| Minus(t1, t2, b);
    MinusTwice(t, t1, t2, a, b);
  }

  lemma MinusTable(t: map<nat, seq<Sid>>, t': map<nat, seq<Sid>>, gone: set<Sid>, sid: Sid)
    requires Minus(t, t', gone)
    ensures InTable(t', sid) <==> InTable(t, sid) && sid !in gone
  {
    if InTable(t, sid) && sid !in gone {
      var h :| h in t && sid in t[h];
      assert MinusAt(t, t', gone, h);
    }
    if InTable(t', sid) {
      var h :| h in t' && sid in t'[h];
      assert MinusAt(t, t', gone, h);
    }
  }

  /** Running the handler of `g` now will not be a third time, nor a second one
      of a safe group. */
  ghost predicate MayRun(s: State, g: nat)
    requires g in s.groups
  {
    g in s.dead ==> multiset(s.fired)[g] == 1 && !Safe(s.items, s.groups[g])
  }

  /** The group of `s` is removed, its handler having run if `hit`. */
  ghost predicate Killed(s: State, s': State, g: nat, hit: bool)
    requires g in s.groups
  {
    s'.items == Unlinked(s.items, s.groups[g]) && Minus(s.table, s'.table, Members(s.groups[g])) &&
    s'.queue == s.queue && s'.groups == s.groups && s'.sent == s.sent &&
    s'.fired == s.fired + (if hit then [g] else []) && s'.dead == s.dead + {g} &&
    s'.twice == s.twice + if hit && g in s.dead then {g} else {}
  }

  lemma KilledTable(s: State, s': State, g: nat, hit: bool)
    requires TableOk(s) && g in s.groups && Killed(s, s', g, hit)
    ensures TableOk(s')
  {
    forall h | h in s'.table ensures Ordered(s'.table[h]) && forall sid :: sid in s'.table[h] ==> ItemAt(s', h, sid) {
      assert MinusAt(s.table, s'.table, Members(s.groups[g]), h);
      WithoutOrdered(s.table[h], Members(s.groups[g]));
      forall sid | sid in s'.table[h] ensures ItemAt(s', h, sid) { assert ItemAt(s, h, sid); }
    }
  }

  lemma KilledQueue(s: State, s': State, g: nat, hit: bool)
    requires QueueOk(s) && g in s.groups && Killed(s, s', g, hit)
    ensures QueueOk(s')
  {
    forall i, j | 0 <= i < j < |s'.queue| ensures QueuedBefore(s'.items, s'.queue[i], s'.queue[j]) {
      assert QueuedBefore(s.items, s.queue[i], s.queue[j]);
    }
  }

  lemma KilledMembers(s: State, s': State, g: nat, hit: bool, g': nat)
    requires g in s.groups && g' in s.groups && MembersOk(s, g') && Killed(s, s', g, hit)
    ensures MembersOk(s', g')
  {
  }

  lemma KilledLife(s: State, s': State, g: nat, hit: bool, g': nat)
    requires g in s.groups && g' in s.groups && MembersOk(s, g) && MembersOk(s, g') && LifeOk(s, g')
    requires Killed(s, s', g, hit) && MembersOk(s', g')
    requires s.sent[g] > 0 && s.groups[g][0] !in s.queue && (hit ==> MayRun(s, g))
    ensures LifeOk(s', g')
  {
    var m := s.groups[g'];
    forall j | 0 <= j < |m| ensures m[j] in s.groups[g] <==> g' == g {}
    MinusTable(s.table, s'.table, Members(s.groups[g]), m[0]);
  }

  lemma KilledGroups(s: State, s': State, g: nat, hit: bool)
    requires GroupsOk(s) && g in s.groups && Killed(s, s', g, hit)
    requires s.sent[g] > 0 && s.groups[g][0] !in s.queue && (hit ==> MayRun(s, g))
    ensures GroupsOk(s')
  {
    forall g' | g' in s'.groups ensures MembersOk(s', g') && LifeOk(s', g') {
      KilledMembers(s, s', g, hit, g');
      KilledLife(s, s', g, hit, g');
    }
  }

  lemma KilledOk(s: State, s': State, g: nat, hit: bool)
    requires Ok(s) && g in s.groups && Killed(s, s', g, hit)
    requires s.sent[g] > 0 && s.groups[g][0] !in s.queue && (hit ==> MayRun(s, g))
    ensures Ok(s')
  {
    hide TableOk, QueueOk, GroupsOk, Minus, MayRun;
    KilledTable(s, s', g, hit);
    KilledQueue(s, s', g, hit);
    KilledGroups(s, s', g, hit);
    forall sid | sid in s'.items ensures IsMember(s', sid) { assert IsMember(s, sid); }
  }

  /** Templates only leave the table, and with each goes its timer, and no other. */
  ghost predicate Cleared(t: map<nat, seq<Sid>>, t': map<nat, seq<Sid>>, armed: set<Sid>, armed': set<Sid>) {
    (forall x :: InTable(t', x) ==> InTable(t, x)) &&
    forall x :: x in armed' <==> x in armed && (InTable(t, x) ==> InTable(t', x))
  }

  lemma ClearedTwice(t: map<nat, seq<Sid>>, t1: map<nat, seq<Sid>>, t2: map<nat, seq<Sid>>, a: set<Sid>, a1: set<Sid>,
                     a2: set<Sid>)
    requires Cleared(t, t1, a, a1) && Cleared(t1, t2, a1, a2)
    ensures Cleared(t, t2, a, a2)
  {
    hide InTable;
  }

  lemma NoneCleared(t: map<nat, seq<Sid>>, armed: set<Sid>)
    ensures Cleared(t, t, armed, armed)
  {
  }

  lemma OneCleared(t: map<nat, seq<Sid>>, t': map<nat, seq<Sid>>, armed: set<Sid>, sid: Sid)
    requires Minus(t, t', {sid}) && InTable(t, sid)
    ensures Cleared(t, t', armed, armed - {sid})
  {
    forall x ensures InTable(t', x) <==> InTable(t, x) && x != sid {
      MinusTable(t, t', {sid}, x);
    }
  }

  // ----- the dispatcher -----

  /** Every template in a set is filed there by its key field. */
  ghost predicate Homes(items: map<Sid, Item>, table: map<nat, seq<Sid>>) {
    forall h, x :: h in table && x in table[h] ==>
      x in items && items[x].filed && items[x].keyIdx < |items[x].templ| && Hash(items[x].templ[items[x].keyIdx]) == h
  }

  ghost predicate Drawn(s: State, next: Sid) {
    (forall sid :: sid in s.items ==> sid < next) && forall g :: g in s.groups ==> g < next
  }

  class Matcher {
    var items: map<Sid, Item>
    var table: map<nat, seq<Sid>>
    var queue: seq<Sid>
    var groups: map<nat, seq<Sid>>
    var sent: map<nat, nat>
    var armed: set<Sid>
    var nextSid: Sid
    /** The groups whose match or timeout handler has run, in order. */
    var fired: seq<nat>
    ghost var dead: set<nat>
    ghost var twice: set<nat>

    ghost function View(): (s: State)
      reads this
    {
      State(items, table, queue, groups, sent, fired, dead, twice)
    }

    ghost predicate Valid()
      reads this
    {
      Ok(View()) && Drawn(View(), nextSid)
    }

    constructor ()
      ensures Valid() && View() == State(map[], map[], [], map[], map[], [], {}, {}) && nextSid == 101
    {
      items, table, queue, groups, sent, armed := map[], map[], [], map[], map[], {};
      nextSid, fired, dead, twice := 101, [], {}, {};
    }

    // ----- removal -----

    /** `_remove_item` of an item without a group. */
    method Detach(sid: Sid, timeout: bool)
      requires sid in items && Homes(items, table)
      modifies this`table, this`armed, this`fired
      ensures Homes(items, table) && Minus(old(table), table, {sid})
      ensures fired == old(fired) +
                (if timeout && InTable(old(table), sid) && items[sid].onTimeout then [items[sid].gid] else [])
      ensures Cleared(old(table), table, old(armed), armed)
      ensures InTable(old(table), sid) ==>
                var k := items[sid].keyIdx;
                k < |items[sid].templ| && var h := Hash(items[sid].templ[k]);
                h in old(table) && (h in table <==> k == 0 || exists x :: x in old(table)[h] && x != sid)
    {
      ghost var table0, armed0 := table, armed;
      var it := items[sid];
      if !it.filed || it.keyIdx >= |it.templ| || Hash(it.templ[it.keyIdx]) !in table ||
         sid !in table[Hash(it.templ[it.keyIdx])] {
        NotThere(items, table, sid);
        NoneCleared(table, armed);
        return;
      }
      var h := Hash(it.templ[it.keyIdx]);
      assert InTable(table, sid);
      armed := armed - {sid};
      if timeout && it.onTimeout {
        fired := fired + [it.gid];
      }
      var rest := Without(table[h], {sid});
      TableWithout(items, table, sid, h);
      hide Minus, Homes;
      if it.keyIdx != 0 && rest == [] {
        table := table - {h};
      } else {
        table := table[h := rest];
      }
      assert rest != [] ==> rest[0] in rest;
      OneCleared(table0, table, armed0, sid);
    }

    /** One turn of `_remove_group`'s loop. */
    method CutMember(m: seq<Sid>, i: nat, timeout: bool)
      requires i < |m| && m[i] in items && Homes(items, table)
      modifies this`items, this`table, this`armed, this`fired
      ensures items == old(items)[m[i] := Cut(old(items)[m[i]], i)]
      ensures Homes(items, table) && Minus(old(table), table, {m[i]})
      ensures fired == old(fired) +
                (if timeout && i == 0 && InTable(old(table), m[0]) && old(items)[m[0]].onTimeout
                 then [old(items)[m[0]].gid] else [])
      ensures Cleared(old(table), table, old(armed), armed)
    {
      items := items[m[i] := Cut(items[m[i]], i)];
      Detach(m[i], timeout);
    }

    /** `_remove_group` */
    method RemoveGroup(g: nat, m: seq<Sid>, timeout: bool) returns (ghost hit: bool)
      requires Homes(items, table) && IsGroup(items, g, m)
      modifies this`items, this`table, this`armed, this`fired
      ensures items == Unlinked(old(items), m) && Minus(old(table), table, Members(m))
      ensures fired == old(fired) + if hit then [g] else []
      ensures hit <==> timeout && InTable(old(table), m[0]) && old(items)[m[0]].onTimeout
      ensures Cleared(old(table), table, old(armed), armed)
    {
      hide Cleared, Homes, Minus, Unlinked, InTable;
      ghost var items0, table0, fired0 := items, table, fired;
      hit := timeout && InTable(table, m[0]) && items[m[0]].onTimeout;
      CutNone(items, table, m);
      NoneCleared(table, armed);
      for i := 0 to |m|
        invariant Homes(items, table) && CutSoFar(items0, items, table0, table, m, i)
        invariant fired == fired0 + if hit && i > 0 then [g] else []
        invariant Cleared(table0, table, old(armed), armed)
      {
        ghost var items1, table1, armed1 := items, table, armed;
        CutInRange(items0, items, table0, table, m, i, g);
        CutMember(m, i, timeout);
        ClearedTwice(table0, table1, table, old(armed), armed1, armed);
        CutOneMore(items0, items1, items, table0, table1, table, m, i, g);
      }
      assert m[..|m|] == m;
    }

    /** `_timeout_cb`: the timer of a template goes off.  The timeout handler runs
        exactly when the group is live and its first member is filed. */
    method Timeout(sid: Sid)
      requires Ok(View()) && Handled(View(), sid)
      modifies this`items, this`table, this`armed, this`fired, this`dead
      ensures Ok(View()) && items.Keys == old(items).Keys
      ensures forall x :: x in items ==> SameTemplate(old(items)[x], items[x])
      ensures Cleared(old(table), table, old(armed) - {sid}, armed)
      ensures var g := old(items)[sid].gid;
              g in groups && groups[g] != [] && dead == old(dead) + {g} &&
              fired == old(fired) + if g !in old(dead) && InTable(old(table), groups[g][0]) then [g] else []
    {
      hide Ok, Minus, Homes, Safe, SameTemplate, Cleared;
      ghost var before := View();
      TemplatesAlike(items);
      armed := armed - {sid};
      HandledFacts(before, sid);
      var g := items[sid].gid;
      FirstHasTimeout(before, g);
      if items[sid].linked {
        ghost var hit := RemoveGroup(g, groups[g], true);
        UnlinkedAlike(before.items, groups[g]);
        dead := dead + {g};
        KilledOk(before, View(), g, hit);
      } else {
        Detach(sid, true);
        DetachedOk(before, View(), sid);
        assert dead + {g} == dead;
      }
    }

    /** A template of the scanned set matches: run its handler and remove it. */
    method Match(sid: Sid)
      requires Ok(View()) && Handled(View(), sid) && CanFire(View(), sid)
      modifies this`items, this`table, this`armed, this`fired, this`dead, this`twice
      ensures Ok(View()) && Matched(old(View()), View(), sid)
      ensures Cleared(old(table), table, old(armed), armed)
    {
      hide Ok, Minus, Homes, Unlinked, Safe, Progress, IsGroup, InTable, Cleared;
      ghost var before := View();
      HandledFacts(before, sid);
      var it := items[sid];
      if it.onMatch {
        fired := fired + [it.gid];
        twice := if it.gid in dead then twice + {it.gid} else twice;
      }
      if it.linked {
        ghost var hit := RemoveGroup(it.gid, groups[it.gid], false);
        dead := dead + {it.gid};
        assert fired == before.fired + if it.onMatch then [it.gid] else [];
        KillMatches(before, View(), sid);
      } else {
        Detach(sid, false);
        DetachMatches(before, View(), sid);
      }
    }

    // ----- registration -----

    /** `_create_reg_item`, once per template; `drawn` counts the ids others draw in between. */
    method MakeItems(g: nat, templates: seq<seq<string>>, consume: bool, drawn: seq<nat>) returns (m: seq<Sid>)
      requires |drawn| == |templates| && forall x :: x in items ==> x < nextSid
      modifies this`items, this`nextSid
      ensures NewItems(old(items), items, g, consume, templates, m) && |m| == |templates|
      ensures nextSid >= old(nextSid) && forall x :: x in items ==> x < nextSid
      ensures nextSid == SidAt(old(nextSid), drawn, |templates|)
      ensures forall j :: 0 <= j < |m| ==> m[j] == SidAt(old(nextSid), drawn, j) + drawn[j]
    {
      hide NewItems, SidAt;
      ghost var items0 := items;
      m := [];
      NoItems(items0, g, consume);
      SidAtStart(nextSid, drawn);
      assert templates[..0] == [];
      for j := 0 to |templates|
        invariant NewItems(items0, items, g, consume, templates[..j], m) && |m| == j
        invariant nextSid >= old(nextSid) && forall x :: x in items ==> x < nextSid
        invariant nextSid == SidAt(old(nextSid), drawn, j)
        invariant forall i :: 0 <= i < j ==> m[i] == SidAt(old(nextSid), drawn, i) + drawn[i]
      {
        SidAtNext(old(nextSid), drawn, j);
        var sid := nextSid + drawn[j];
        nextSid := sid + 1;
        NewItemsMore(items0, items, g, consume, templates, m, sid);
        items := items[sid := NewItem(g, j, consume, templates[j])];
        m := m + [sid];
      }
      assert templates[..|templates|] == templates;
    }

    /** `Oed_Dispatcher_reg_group`, first half: the items are made, none of them
        linked or queued yet. */
    method CreateGroup(templates: seq<seq<string>>, consume: bool, drawn: seq<nat>) returns (g: nat)
      requires Valid() && |templates| > 0 && |drawn| == |templates|
      modifies this`items, this`groups, this`sent, this`nextSid
      ensures Valid() && g !in old(groups) && g in groups && groups == old(groups)[g := groups[g]]
      ensures NewItems(old(items), items, g, consume, templates, groups[g]) && sent == old(sent)[g := 0]
      ensures g == old(nextSid) && nextSid == SidAt(g + 1, drawn, |templates|)
      ensures forall j :: 0 <= j < |templates| ==> groups[g][j] == SidAt(g + 1, drawn, j) + drawn[j]
    {
      hide Ok, NewItems, SidAt;
      ghost var before := View();
      g := nextSid;
      nextSid := nextSid + 1;
      var m := MakeItems(g, templates, consume, drawn);
      groups, sent := groups[g := m], sent[g := 0];
      NewGroupOk(before, View(), g, consume, templates, m);
    }

    /** Second half, once per member: link the next member and queue it. */
    method SendNext(g: nat)
      requires Valid() && g in groups && g in sent && sent[g] < |groups[g]|
      modifies this`items, this`queue, this`sent
      ensures Valid() && sent == old(sent)[g := old(sent)[g] + 1] && queue == old(queue) + [groups[g][old(sent)[g]]]
      ensures var sid := groups[g][old(sent)[g]];
              sid in old(items) && items == old(items)[sid := old(items)[sid].(linked := true)]
    {
      ghost var before := View();
      var sid := groups[g][sent[g]];
      assert MembersOk(before, g);
      items := items[sid := items[sid].(linked := true)];
      queue := queue + [sid];
      sent := sent[g := sent[g] + 1];
      SentOk(before, View(), g, sid);
    }

    /** `_add_template`'s search for the rarest field that is not a wildcard. */
    method ChooseKey(templ: seq<string>) returns (found: bool, keyIdx: nat)
      ensures found <==> exists i :: 0 <= i < |templ| && templ[i] != WILDCARD
      ensures found ==> RarestField(table, templ, keyIdx)
    {
      found, keyIdx := false, 0;
      for i := 0 to |templ|
        invariant found <==> exists j :: 0 <= j < i && templ[j] != WILDCARD
        invariant found ==> keyIdx < i && templ[keyIdx] != WILDCARD
        invariant found ==> Hash(templ[keyIdx]) in table
        invariant found ==> forall j :: 0 <= j < i && templ[j] != WILDCARD ==>
                    Hash(templ[j]) in table && |table[Hash(templ[keyIdx])]| <= |table[Hash(templ[j])]|
      {
        if templ[i] != WILDCARD {
          var h := HashStringKey(templ[i]);
          if h in table {
            if !found || |table[h]| < |table[Hash(templ[keyIdx])]| {
              found, keyIdx := true, i;
            }
          } else {
            return true, i;
          }
        }
      }
    }

    /** The worker takes the next registration: file the template, set its timer. */
    method RegisterNext(finite: bool) returns (rc: int, keyIdx: nat)
      requires Valid() && queue != [] && queue[0] in items
      modifies this`items, this`table, this`queue, this`armed
      ensures Valid() && queue == old(queue)[1..]
      ensures rc == 0 <==> exists i :: 0 <= i < |old(items)[old(queue)[0]].templ| &&
                                        old(items)[old(queue)[0]].templ[i] != WILDCARD
      ensures rc == 0 ==> RarestField(old(table), old(items)[old(queue)[0]].templ, keyIdx)
      ensures rc == 0 ==> var it := old(items)[old(queue)[0]].(filed := true, keyIdx := keyIdx);
                items == old(items)[old(queue)[0] := it] && table == FileUnder(old(table), it, old(queue)[0])
      ensures rc != 0 ==> table == old(table) && items == old(items)
      ensures armed == old(armed) + if finite then {old(queue)[0]} else {}
    {
      hide Ok, RarestField, InTable;
      ghost var before := View();
      var sid := queue[0];
      queue := queue[1..];
      PopOk(before);
      var it := items[sid];
      var found;
      found, keyIdx := ChooseKey(it.templ);
      rc := -1;
      if found {
        it := it.(filed := true, keyIdx := keyIdx);
        ghost var popped := View();
        FirstIsOut(before, sid);
        items := items[sid := it];
        table := FileUnder(table, it, sid);
        FiledOk(popped, View(), sid, keyIdx);
        rc := 0;
      }
      if finite {
        armed := armed + {sid};
      }
    }

    // ----- scanning -----

    /** One turn of `_processSet`'s loop over the snapshot `arr`. */
    method TestOne(arr: seq<Sid>, p: nat, fields: seq<string>, at: nat, ghost s0: State) returns (done: bool)
      requires p < |arr| && Scanning(s0, View(), arr, p, fields, at)
      modifies this`items, this`table, this`armed, this`fired, this`dead, this`twice
      ensures !done ==> Scanning(s0, View(), arr, p + 1, fields, at)
      ensures !done && Hits(old(View()), arr[p], fields, at) ==>
                !old(items)[arr[p]].consume && !s0.items[arr[p]].consume
      ensures done ==> Ok(View()) && Progress(s0, View()) && Hits(s0, arr[p], fields, at) && s0.items[arr[p]].consume
      ensures Hits(old(View()), arr[p], fields, at) ==> Matched(old(View()), View(), arr[p])
      ensures !Hits(old(View()), arr[p], fields, at) ==> View() == old(View())
      ensures Cleared(old(table), table, old(armed), armed)
    {
      hide Cleared, Ok, Progress, MatchesAt, Handled, CanFire, InTable;
      NoneCleared(table, armed);
      ghost var s := View();
      SnapshotFacts(s0, s, arr, p, fields, at);
      var it := items[arr[p]];
      done := false;
      var matched := TestFields(it.templ, it.keyIdx, fields, at);
      if matched {
        Match(arr[p]);
        ProgressTwice(s0, s, View());
        done := it.consume;
        if !done {
          ScanGoesOn(s0, s, View(), arr, p, fields, at);
        }
      }
    }

    /** `_processSet`: the first `upto` entries of the set were tested; the last of
        them matched and consumes, or they are all there are. */
    method ProcessSet(h: nat, fields: seq<string>, at: nat) returns (done: bool, ghost upto: nat)
      requires Ok(View()) && h in table
      modifies this`items, this`table, this`armed, this`fired, this`dead, this`twice
      ensures Ok(View()) && Progress(old(View()), View())
      ensures Tested(old(View()), old(table)[h], upto, done, fields, at)
      ensures Counted(old(View()), View(), old(table)[h], upto, fields, at)
      ensures !done ==> ConsumersStay(old(View()), View())
      ensures Cleared(old(table), table, old(armed), armed)
    {
      hide Ok, Progress, Scanning, Counted, Matched, Handled, CanFire, SameTemplate, ConsumersStay, Cleared;
      NoneCleared(table, armed);
      ghost var s0 := View();
      var arr := table[h];
      ScanBegins(s0, h, fields, at);
      CountNone(s0, arr, fields, at);
      StayNone(s0);
      done := false;
      for p := 0 to |arr|
        invariant Scanning(s0, View(), arr, p, fields, at) && Counted(s0, View(), arr, p, fields, at)
        invariant ConsumersStay(s0, View()) && Cleared(old(table), table, old(armed), armed)
        invariant forall i :: 0 <= i < p && Hits(s0, arr[i], fields, at) ==> !s0.items[arr[i]].consume
      {
        ghost var s, armed1 := View(), armed;
        SnapshotFacts(s0, s, arr, p, fields, at);
        done := TestOne(arr, p, fields, at, s0);
        ClearedTwice(old(table), s.table, table, old(armed), armed1, armed);
        CountStep(s0, s, View(), arr, p, fields, at);
        if done { return true, p + 1; }
        ConsumersStep(s0, s, View(), arr[p], fields, at);
      }
      SnapshotEnd(s0, View(), arr, fields, at);
      upto := |arr|;
    }

    /** `_process`: one write event, with exactly the outcome `Outcome` tells. */
    method Process(fields: seq<string>) returns (stopped: bool)
      requires Ok(View())
      modifies this`items, this`table, this`armed, this`fired, this`dead, this`twice
      ensures Ok(View()) && Progress(old(View()), View()) && Outcome(old(View()), View(), fields)
      ensures stopped <==> exists at: nat, q: nat :: Consumer(old(View()), fields, at, q)
      ensures Cleared(old(table), table, old(armed), armed)
    {
      hide Ok, Progress, Swept, Counted, ConsumersStay, Consumer, Hits, Cleared;
      NoneCleared(table, armed);
      ghost var s0 := View();
      stopped := false;
      SweepBegins(s0, fields);
      for at := 0 to |fields|
        invariant Sweep(s0, View(), fields, at) && Cleared(old(table), table, old(armed), armed)
      {
        var h := HashStringKey(fields[at]);
        ghost var s, armed1 := View(), armed;
        ghost var upto := 0;
        if h in table {
          stopped, upto := ProcessSet(h, fields, at);
          ClearedTwice(old(table), s.table, table, old(armed), armed1, armed);
        } else {
          NothingThere(s, fields, at);
        }
        assert SetDone(s, View(), upto, stopped, fields, at);
        SweepStep(s0, s, View(), upto, stopped, fields, at);
        if stopped {
          SweepStops(s0, View(), fields, at);
          return;
        }
      }
      SweepEnds(s0, View(), fields);
    }
  }

  // ----- registration, state by state -----

  /** The next id after `j` draws of our own and those of others before each. */
  function SidAt(next: nat, drawn: seq<nat>, j: nat): (r: nat)
    requires j <= |drawn|
    ensures r >= next
  {
    if j == 0 then next else SidAt(next, drawn, j - 1) + drawn[j - 1] + 1
  }

  lemma SidAtStart(next: nat, drawn: seq<nat>)
    ensures SidAt(next, drawn, 0) == next
  {
  }

  lemma SidAtNext(next: nat, drawn: seq<nat>, j: nat)
    requires j < |drawn|
    ensures SidAt(next, drawn, j + 1) == SidAt(next, drawn, j) + drawn[j] + 1
  {
  }

  function NewItem(g: nat, pos: nat, consume: bool, templ: seq<string>): (r: Item) {
    Item(g, pos, consume, templ, false, true, true, false, 0)
  }

  predicate RarestField(table: map<nat, seq<Sid>>, templ: seq<string>, keyIdx: nat) {
    keyIdx < |templ| && templ[keyIdx] != WILDCARD &&
    (Hash(templ[keyIdx]) in table ==>
       forall i :: 0 <= i < |templ| && templ[i] != WILDCARD ==>
         Hash(templ[i]) in table && |table[Hash(templ[keyIdx])]| <= |table[Hash(templ[i])]|)
  }

  function FileUnder(table: map<nat, seq<Sid>>, it: Item, sid: Sid): (r: map<nat, seq<Sid>>)
    requires it.keyIdx < |it.templ|
  {
    Filed(table, it.templ[it.keyIdx], sid)
  }

  /** The table with `sid` put into the set of field `w`. */
  function Filed(table: map<nat, seq<Sid>>, w: string, sid: Sid): (r: map<nat, seq<Sid>>) {
    var h := Hash(w);
    table[h := Insert(if h in table then table[h] else [], sid)]
  }

  ghost predicate NewItems(items0: map<Sid, Item>, items: map<Sid, Item>, g: nat, consume: bool,
                           templates: seq<seq<string>>, m: seq<Sid>) {
    |m| == |templates| && items.Keys == items0.Keys + Members(m) &&
    (forall j :: 0 <= j < |m| ==>
       m[j] in items && items[m[j]] == NewItem(g, j, consume, templates[j]) && m[j] !in items0) &&
    forall x :: x in items0 ==> x in items && items[x] == items0[x]
  }

  /** Nothing filed, queued or grouped so far is touched. */
  ghost predicate Kept(s: State, s': State) {
    (forall x :: x in s.items ==> x in s'.items && s'.items[x] == s.items[x]) &&
    s'.table == s.table && s'.queue == s.queue && s'.fired == s.fired && s'.dead == s.dead && s'.twice == s.twice
  }

  lemma KeptGroup(s: State, s': State, g: nat)
    requires Kept(s, s') && g in s.groups && g in s'.groups && s'.groups[g] == s.groups[g]
    requires MembersOk(s, g) && LifeOk(s, g) && g in s'.sent && s'.sent[g] == s.sent[g]
    ensures MembersOk(s', g) && LifeOk(s', g)
  {
  }

  lemma KeptTable(s: State, s': State)
    requires Kept(s, s') && TableOk(s) && QueueOk(s)
    ensures TableOk(s') && QueueOk(s')
  {
    forall h, x | h in s'.table && x in s'.table[h] ensures ItemAt(s', h, x) { assert ItemAt(s, h, x); }
    forall i, j | 0 <= i < j < |s'.queue| ensures QueuedBefore(s'.items, s'.queue[i], s'.queue[j]) {
      assert QueuedBefore(s.items, s.queue[i], s.queue[j]);
    }
  }

  lemma NoItems(items: map<Sid, Item>, g: nat, consume: bool)
    ensures NewItems(items, items, g, consume, [], [])
  {
  }

  lemma NewItemsMore(items0: map<Sid, Item>, items: map<Sid, Item>, g: nat, consume: bool,
                     templates: seq<seq<string>>, m: seq<Sid>, sid: Sid)
    requires |m| < |templates| && NewItems(items0, items, g, consume, templates[..|m|], m) && sid !in items
    ensures NewItems(items0, items[sid := NewItem(g, |m|, consume, templates[|m|])], g, consume,
                     templates[..|m| + 1], m + [sid])
  {
    assert Members(m + [sid]) == Members(m) + {sid};
  }

  lemma NewGroupFresh(s: State, s': State, g: nat, consume: bool, templates: seq<seq<string>>, m: seq<Sid>)
    requires QueueOk(s) && LogOk(s) && g !in s.groups && |m| > 0
    requires NewItems(s.items, s'.items, g, consume, templates, m)
    requires s' == s.(items := s'.items, groups := s.groups[g := m], sent := s.sent[g := 0])
    ensures MembersOk(s', g) && LifeOk(s', g)
  {
    forall j | 0 <= j < |m| ensures m[j] !in s.queue && s'.items[m[j]] == NewItem(g, j, consume, templates[j]) {}
    assert g !in s.fired;
  }

  lemma NewGroupOk(s: State, s': State, g: nat, consume: bool, templates: seq<seq<string>>, m: seq<Sid>)
    requires Ok(s) && g !in s.groups && |m| > 0 && NewItems(s.items, s'.items, g, consume, templates, m)
    requires s' == s.(items := s'.items, groups := s.groups[g := m], sent := s.sent[g := 0])
    ensures Ok(s')
  {
    KeptTable(s, s');
    forall g' | g' in s.groups ensures MembersOk(s', g') && LifeOk(s', g') { KeptGroup(s, s', g'); }
    NewGroupFresh(s, s', g, consume, templates, m);
    NewGroupBack(s, s', g, consume, templates, m);
  }

  lemma NewGroupBack(s: State, s': State, g: nat, consume: bool, templates: seq<seq<string>>, m: seq<Sid>)
    requires BackOk(s) && g !in s.groups && NewItems(s.items, s'.items, g, consume, templates, m)
    requires s'.groups == s.groups[g := m]
    ensures BackOk(s')
  {
    forall x | x in s'.items ensures IsMember(s', x) {
      if x in s.items {
        assert IsMember(s, x);
      } else {
        var j :| 0 <= j < |m| && m[j] == x;
      }
    }
  }

  lemma SentGroup(s: State, s': State, g: nat, sid: Sid, g': nat)
    requires g in s.groups && g' in s.groups && MembersOk(s, g) && LifeOk(s, g) && MembersOk(s, g') && LifeOk(s, g')
    requires s.sent[g] < |s.groups[g]| && sid == s.groups[g][s.sent[g]]
    requires s' == s.(items := s.items[sid := s.items[sid].(linked := true)], queue := s.queue + [sid],
                      sent := s.sent[g := s.sent[g] + 1])
    ensures MembersOk(s', g') && LifeOk(s', g')
  {
    var m := s.groups[g'];
    forall j | 0 <= j < |m| ensures m[j] == sid <==> g' == g && j == s.sent[g] {}
  }

  lemma SentOk(s: State, s': State, g: nat, sid: Sid)
    requires Ok(s) && g in s.groups && MembersOk(s, g) && s.sent[g] < |s.groups[g]| && sid == s.groups[g][s.sent[g]]
    requires s' == s.(items := s.items[sid := s.items[sid].(linked := true)], queue := s.queue + [sid],
                      sent := s.sent[g := s.sent[g] + 1])
    ensures Ok(s')
  {
    forall h, x | h in s'.table && x in s'.table[h] ensures ItemAt(s', h, x) { assert ItemAt(s, h, x); }
    SentQueue(s, s', g, sid);
    forall g' | g' in s'.groups ensures MembersOk(s', g') && LifeOk(s', g') { SentGroup(s, s', g, sid, g'); }
    forall x | x in s'.items ensures IsMember(s', x) { assert IsMember(s, x); }
  }

  lemma SentQueue(s: State, s': State, g: nat, sid: Sid)
    requires QueueOk(s) && BackOk(s) && g in s.groups && MembersOk(s, g)
    requires s.sent[g] < |s.groups[g]| && sid == s.groups[g][s.sent[g]]
    requires s'.items == s.items[sid := s.items[sid].(linked := true)] && s'.queue == s.queue + [sid]
    ensures QueueOk(s')
  {
    forall i, j | 0 <= i < j < |s'.queue| ensures QueuedBefore(s'.items, s'.queue[i], s'.queue[j]) {
      assert IsMember(s, s.queue[i]);
      if j < |s.queue| { assert QueuedBefore(s.items, s.queue[i], s.queue[j]); }
    }
  }

  lemma PopOk(s: State)
    requires Ok(s) && s.queue != []
    ensures var s' := s.(queue := s.queue[1..]);
            Ok(s') && Handled(s', s.queue[0]) && !s.items[s.queue[0]].filed && !InTable(s.table, s.queue[0])
  {
    var s' := s.(queue := s.queue[1..]);
    PoppedQueue(s);
    PoppedFirst(s);
    forall g | g in s'.groups ensures MembersOk(s', g) && LifeOk(s', g) { PoppedGroup(s, g); }
    forall x | x in s'.items ensures IsMember(s', x) { assert IsMember(s, x); }
  }

  lemma PoppedQueue(s: State)
    requires TableOk(s) && QueueOk(s) && s.queue != []
    ensures var s' := s.(queue := s.queue[1..]); TableOk(s') && QueueOk(s') && s.queue[0] !in s'.queue
  {
    var s' := s.(queue := s.queue[1..]);
    forall h, x | h in s'.table && x in s'.table[h] ensures ItemAt(s', h, x) { assert ItemAt(s, h, x); }
    forall i, j | 0 <= i < j < |s'.queue| ensures QueuedBefore(s'.items, s'.queue[i], s'.queue[j]) {
      assert QueuedBefore(s.items, s.queue[i + 1], s.queue[j + 1]);
    }
    forall j | 0 <= j < |s'.queue| ensures s'.queue[j] != s.queue[0] {
      assert QueuedBefore(s.items, s.queue[0], s.queue[j + 1]);
    }
  }

  lemma PoppedFirst(s: State)
    requires Ok(s) && s.queue != [] && s.queue[0] !in s.queue[1..]
    ensures Handled(s.(queue := s.queue[1..]), s.queue[0])
    ensures !s.items[s.queue[0]].filed && !InTable(s.table, s.queue[0])
  {
    var sid := s.queue[0];
    assert IsMember(s, sid);
    assert MembersOk(s, s.items[sid].gid);
    forall h | h in s.table ensures sid !in s.table[h] {
      assert !ItemAt(s, h, sid);
    }
  }

  /** A queued member of a removed group is never the first. */
  lemma FirstIsOut(s: State, sid: Sid)
    requires Ok(s) && sid in s.queue
    ensures sid in s.items && (s.items[sid].gid in s.dead ==> s.items[sid].pos > 0)
  {
    var k :| 0 <= k < |s.queue| && s.queue[k] == sid;
    assert IsMember(s, sid);
    assert MembersOk(s, s.items[sid].gid) && LifeOk(s, s.items[sid].gid);
  }

  lemma PoppedGroup(s: State, g: nat)
    requires QueueOk(s) && s.queue != [] && g in s.groups && MembersOk(s, g) && LifeOk(s, g)
    ensures var s' := s.(queue := s.queue[1..]); MembersOk(s', g) && LifeOk(s', g)
  {
    var s', sid, m := s.(queue := s.queue[1..]), s.queue[0], s.groups[g];
    forall i, j | 0 <= i < j < s.sent[g] && m[i] in s'.queue ensures m[j] in s'.queue {
      var k :| 0 <= k < |s'.queue| && s'.queue[k] == m[i];
      assert QueuedBefore(s.items, s.queue[0], s.queue[k + 1]);
      assert m[i] in s.queue && m[j] in s.queue && m[j] != sid;
    }
  }

  lemma FiledGroup(s: State, s': State, sid: Sid, keyIdx: nat, g: nat)
    requires Handled(s, sid) && g in s.groups && MembersOk(s, g) && LifeOk(s, g) && FiledItem(s, s', sid, keyIdx)
    requires g == s.items[sid].gid && g in s.dead ==> sid != s.groups[g][0]
    ensures MembersOk(s', g) && LifeOk(s', g)
  {
    var m := s.groups[g];
    if InTable(s'.table, m[0]) && m[0] != sid {
      var h :| h in s'.table && m[0] in s'.table[h];
      assert h in s.table && m[0] in s.table[h];
    }
  }

  ghost predicate FiledItem(s: State, s': State, sid: Sid, keyIdx: nat) {
    sid in s.items && keyIdx < |s.items[sid].templ| && s.items[sid].templ[keyIdx] != WILDCARD &&
    var it := s.items[sid].(filed := true, keyIdx := keyIdx);
    s' == s.(items := s.items[sid := it], table := FileUnder(s.table, it, sid))
  }

  lemma FiledTable(s: State, s': State, sid: Sid, keyIdx: nat)
    requires TableOk(s) && sid !in s.queue && !InTable(s.table, sid) && FiledItem(s, s', sid, keyIdx)
    ensures TableOk(s') && InTable(s'.table, sid)
  {
    var k := Hash(s.items[sid].templ[keyIdx]);
    assert sid in s'.table[k];
    forall h | h in s'.table ensures Ordered(s'.table[h]) && forall x :: x in s'.table[h] ==> ItemAt(s', h, x) {
      if h == k {
        InsertOrdered(if h in s.table then s.table[h] else [], sid);
      }
      forall x | x in s'.table[h] ensures ItemAt(s', h, x) {
        if x != sid { assert ItemAt(s, h, x); }
      }
    }
  }

  lemma FiledOk(s: State, s': State, sid: Sid, keyIdx: nat)
    requires Ok(s) && Handled(s, sid) && !s.items[sid].filed && !InTable(s.table, sid)
    requires FiledItem(s, s', sid, keyIdx) && (s.items[sid].gid in s.dead ==> s.items[sid].pos > 0)
    ensures Ok(s') && InTable(s'.table, sid)
  {
    FiledTable(s, s', sid, keyIdx);
    forall i, j | 0 <= i < j < |s'.queue| ensures QueuedBefore(s'.items, s'.queue[i], s'.queue[j]) {
      assert QueuedBefore(s.items, s.queue[i], s.queue[j]);
    }
    forall g | g in s'.groups ensures MembersOk(s', g) && LifeOk(s', g) { FiledGroup(s, s', sid, keyIdx, g); }
    forall x | x in s'.items ensures IsMember(s', x) { assert IsMember(s, x); }
  }

  // ----- scans -----

  ghost predicate Hits(s: State, x: Sid, fields: seq<string>, at: nat) {
    x in s.items && MatchesAt(s.items[x].templ, s.items[x].keyIdx, fields, at)
  }

  // A place of a scan is a field `at` of the object and an index `q` into the set
  // filed under it.

  predicate IsPlace(s: State, fields: seq<string>, at: nat, q: nat) {
    at < |fields| && Hash(fields[at]) in s.table && q < |s.table[Hash(fields[at])]|
  }

  function Entry(s: State, fields: seq<string>, at: nat, q: nat): (x: Sid)
    requires IsPlace(s, fields, at, q)
  {
    s.table[Hash(fields[at])][q]
  }

  /** The template at that place passes the scan's test. */
  ghost predicate Met(s: State, fields: seq<string>, at: nat, q: nat) {
    IsPlace(s, fields, at, q) && Hits(s, Entry(s, fields, at, q), fields, at)
  }

  ghost predicate MetBy(s: State, fields: seq<string>, at: nat, q: nat, g: nat) {
    Met(s, fields, at, q) && s.items[Entry(s, fields, at, q)].gid == g
  }

  /** It is a match after which the scan stops. */
  ghost predicate Consumer(s: State, fields: seq<string>, at: nat, q: nat) {
    Met(s, fields, at, q) && s.items[Entry(s, fields, at, q)].consume
  }

  predicate Sooner(at: nat, q: nat, at': nat, q': nat) { at < at' || (at == at' && q < q') }

  /** A match with no consuming match before it. */
  ghost predicate Reached(s: State, fields: seq<string>, at: nat, q: nat) {
    Met(s, fields, at, q) && forall b: nat, r: nat :: Consumer(s, fields, b, r) ==> !Sooner(b, r, at, q)
  }

  ghost predicate ReachedBy(s: State, fields: seq<string>, at: nat, q: nat, g: nat) {
    Reached(s, fields, at, q) && s.items[Entry(s, fields, at, q)].gid == g
  }

  /** In the first set that holds a match of `g`, the group's first member matches
      after another one, and both are reached. */
  ghost predicate ReachedTwice(s: State, fields: seq<string>, at: nat, i: nat, j: nat, g: nat) {
    i < j && MetBy(s, fields, at, i, g) && ReachedBy(s, fields, at, j, g) &&
    s.items[Entry(s, fields, at, j)].pos == 0 &&
    forall b: nat, q: nat :: b < at ==> !MetBy(s, fields, b, q, g)
  }

  /** What one event does to group `g`: it fires if and only if a match of it is
      reached, and twice if and only if its first member is reached after another. */
  ghost predicate Swept(s0: State, s: State, fields: seq<string>, n: nat, g: nat)
    requires g in s0.groups
  {
    if g in s0.dead then multiset(s.fired)[g] == multiset(s0.fired)[g]
    else
      (g in s.dead <==> exists at: nat, q: nat :: at < n && ReachedBy(s0, fields, at, q, g)) &&
      (g in s.twice <==> exists at: nat, i: nat, j: nat :: at < n && ReachedTwice(s0, fields, at, i, j, g)) &&
      multiset(s.fired)[g] == if g in s.twice then 2 else if g in s.dead then 1 else 0
  }

  /** Every match reached is no longer filed. */
  ghost predicate Left(s0: State, s: State, fields: seq<string>, n: nat) {
    forall at: nat, q: nat :: at < n && Reached(s0, fields, at, q) ==> !InTable(s.table, Entry(s0, fields, at, q))
  }

  ghost predicate Outcome(s0: State, s: State, fields: seq<string>) {
    Left(s0, s, fields, |fields|) && forall g :: g in s0.groups ==> Swept(s0, s, fields, |fields|, g)
  }

  /** Half way through a snapshot of a set: what is left of it can still be run. */
  ghost predicate Scanning(s0: State, s: State, arr: seq<Sid>, p: nat, fields: seq<string>, at: nat) {
    p <= |arr| && Ok(s) && Progress(s0, s) && Ordered(arr) &&
    (forall q :: 0 <= q < |arr| ==> Handled(s0, arr[q]) && InTable(s0.table, arr[q])) &&
    forall q :: p <= q < |arr| ==> CanFire(s, arr[q])
  }

  lemma SnapshotFacts(s0: State, s: State, arr: seq<Sid>, p: nat, fields: seq<string>, at: nat)
    requires p < |arr| && Scanning(s0, s, arr, p, fields, at)
    ensures Handled(s, arr[p]) && CanFire(s, arr[p]) && SameTemplate(s0.items[arr[p]], s.items[arr[p]])
    ensures Handled(s0, arr[p]) && InTable(s0.table, arr[p]) && Ok(s) && Progress(s0, s) && arr[p] in s.items
  {
    assert Handled(s0, arr[p]);
  }

  lemma SnapshotEnd(s0: State, s: State, arr: seq<Sid>, fields: seq<string>, at: nat)
    requires Scanning(s0, s, arr, |arr|, fields, at)
    ensures Ok(s) && Progress(s0, s)
  {
  }

  lemma ScanBegins(s: State, h: nat, fields: seq<string>, at: nat)
    requires Ok(s) && h in s.table
    ensures Scanning(s, s, s.table[h], 0, fields, at)
  {
    SetFacts(s, h);
    ProgressNone(s);
  }

  /** How a scan of the snapshot ended. */
  ghost predicate Tested(s0: State, arr: seq<Sid>, upto: nat, done: bool, fields: seq<string>, at: nat) {
    upto <= |arr| &&
    (forall i :: 0 <= i < upto && Hits(s0, arr[i], fields, at) && s0.items[arr[i]].consume ==> done && i + 1 == upto) &&
    if done then upto > 0 && Hits(s0, arr[upto - 1], fields, at) && s0.items[arr[upto - 1]].consume
    else upto == |arr|
  }

  /** While nothing consuming has matched, consuming templates stay filed. */
  ghost predicate ConsumersStay(s0: State, s: State) {
    forall x :: x in s0.items && s0.items[x].consume && InTable(s0.table, x) ==> InTable(s.table, x)
  }

  lemma StayNone(s: State)
    ensures ConsumersStay(s, s)
  {
  }

  lemma ConsumersStep(s0: State, s: State, s': State, x: Sid, fields: seq<string>, at: nat)
    requires Ok(s) && Progress(s0, s) && ConsumersStay(s0, s) && x in s.items
    requires if Hits(s, x, fields, at) then Matched(s, s', x) && !s.items[x].consume else s' == s
    ensures ConsumersStay(s0, s')
  {
    if Hits(s, x, fields, at) {
      forall y | y in s0.items && s0.items[y].consume && InTable(s0.table, y) ensures InTable(s'.table, y) {
        assert SameTemplate(s0.items[y], s.items[y]);
        SameConsume(s, x, y);
      }
    }
  }

  /** Members of one group consume alike. */
  lemma SameConsume(s: State, x: Sid, y: Sid)
    requires Ok(s) && x in s.items && y in s.items
    ensures s.items[x].gid == s.items[y].gid ==> s.items[x].consume == s.items[y].consume
  {
    assert IsMember(s, x) && IsMember(s, y);
    assert MembersOk(s, s.items[x].gid);
  }

  lemma ScanGoesOn(s0: State, s: State, s': State, arr: seq<Sid>, p: nat, fields: seq<string>, at: nat)
    requires p < |arr| && Scanning(s0, s, arr, p, fields, at) && Ok(s') && Progress(s0, s')
    requires Matched(s, s', arr[p]) && !s.items[arr[p]].consume
    ensures Scanning(s0, s', arr, p + 1, fields, at)
  {
    SnapshotFacts(s0, s, arr, p, fields, at);
    forall q | p < q < |arr| ensures CanFire(s', arr[q]) { ScanOn(s, s', arr, p, q); }
  }

  /** How often the first `p` entries of the snapshot run group `g`'s handler: the
      first match does, and after it only the group's first member. */
  ghost function Firings(s0: State, arr: seq<Sid>, p: nat, fields: seq<string>, at: nat, g: nat): (n: nat)
    requires p <= |arr|
  {
    if p == 0 then 0
    else
      var n := Firings(s0, arr, p - 1, fields, at, g);
      var x := arr[p - 1];
      n + if HitOf(s0, x, fields, at, g) && (n == 0 || s0.items[x].pos == 0) then 1 else 0
  }

  ghost predicate HitOf(s: State, x: Sid, fields: seq<string>, at: nat, g: nat) {
    Hits(s, x, fields, at) && s.items[x].gid == g
  }

  /** The log agrees; a group removed before the scan began does not fire again. */
  ghost predicate Counted(s0: State, s: State, arr: seq<Sid>, p: nat, fields: seq<string>, at: nat) {
    p <= |arr| && FirstsKept(s0, s) && Gone(s0, s, arr, p, fields, at) &&
    forall g :: g in s0.groups ==> CountedGroup(s0, s, arr, p, fields, at, g)
  }

  /** What has matched so far is no longer filed. */
  ghost predicate Gone(s0: State, s: State, arr: seq<Sid>, p: nat, fields: seq<string>, at: nat) {
    p <= |arr| && forall i :: 0 <= i < p && Hits(s0, arr[i], fields, at) ==> !InTable(s.table, arr[i])
  }

  lemma InTableBefore(s: State, s': State, x: Sid)
    requires Progress(s, s')
    ensures InTable(s'.table, x) ==> InTable(s.table, x)
  {
    var gone :| Minus(s.table, s'.table, gone);
    MinusTable(s.table, s'.table, gone, x);
  }

  lemma GoneStep(s0: State, s: State, s': State, arr: seq<Sid>, p: nat, fields: seq<string>, at: nat)
    requires p < |arr| && Gone(s0, s, arr, p, fields, at) && arr[p] in s0.items && arr[p] in s.items
    requires SameTemplate(s0.items[arr[p]], s.items[arr[p]])
    requires if Hits(s, arr[p], fields, at) then Matched(s, s', arr[p]) else s' == s
    ensures Gone(s0, s', arr, p + 1, fields, at)
  {
    HitsBack(s0, s, arr[p], fields, at);
    hide Hits, Progress;
    forall i | 0 <= i < p + 1 && Hits(s0, arr[i], fields, at) ensures !InTable(s'.table, arr[i]) {
      if i < p && Hits(s, arr[p], fields, at) {
        InTableBefore(s, s', arr[i]);
      }
    }
  }

  ghost predicate CountedGroup(s0: State, s: State, arr: seq<Sid>, p: nat, fields: seq<string>, at: nat, g: nat)
    requires p <= |arr|
  {
    if g in s0.dead then multiset(s.fired)[g] == multiset(s0.fired)[g]
    else
      multiset(s.fired)[g] == Firings(s0, arr, p, fields, at, g) &&
      (g in s.dead <==> Firings(s0, arr, p, fields, at, g) > 0)
  }

  ghost predicate FirstsKept(s0: State, s: State) {
    forall x :: x in s0.items && s0.items[x].pos == 0 ==> x in s.items && s.items[x].onMatch == s0.items[x].onMatch
  }

  lemma CountNone(s: State, arr: seq<Sid>, fields: seq<string>, at: nat)
    requires Ok(s)
    ensures Counted(s, s, arr, 0, fields, at)
  {
    forall g | g in s.groups ensures CountedGroup(s, s, arr, 0, fields, at, g) {
      assert MembersOk(s, g) && LifeOk(s, g);
    }
  }

  lemma CountStep(s0: State, s: State, s': State, arr: seq<Sid>, p: nat, fields: seq<string>, at: nat)
    requires Ok(s0) && Ok(s) && p < |arr| && Counted(s0, s, arr, p, fields, at) && Progress(s0, s)
    requires Handled(s0, arr[p]) && arr[p] in s.items && SameTemplate(s0.items[arr[p]], s.items[arr[p]])
    requires InTable(s0.table, arr[p])
    requires if Hits(s, arr[p], fields, at) then Matched(s, s', arr[p]) else s' == s
    ensures Counted(s0, s', arr, p + 1, fields, at)
  {
    hide Ok, Progress, FirstsKept, Matched, CountedGroup, Handled, Hits, SameTemplate, Gone;
    var x := arr[p];
    forall g | g in s0.groups ensures CountedGroup(s0, s', arr, p + 1, fields, at, g) {
      CountGroupStep(s0, s, s', arr, p, fields, at, g);
    }
    FromHandled(s0, x);
    GoneStep(s0, s, s', arr, p, fields, at);
    if Hits(s, x, fields, at) {
      FirstsStep(s0, s, s', x);
    }
  }

  lemma FromHandled(s: State, x: Sid)
    requires Handled(s, x)
    ensures x in s.items
  {
  }

  lemma FirstsStep(s0: State, s: State, s': State, x: Sid)
    requires FirstsKept(s0, s) && Progress(s0, s) && Matched(s, s', x)
    ensures FirstsKept(s0, s')
  {
    forall y | y in s0.items && s0.items[y].pos == 0
      ensures y in s'.items && s'.items[y].onMatch == s0.items[y].onMatch
    {
      assert SameTemplate(s0.items[y], s.items[y]);
    }
  }

  lemma CountGroupStep(s0: State, s: State, s': State, arr: seq<Sid>, p: nat, fields: seq<string>, at: nat, g: nat)
    requires Ok(s0) && Ok(s) && p < |arr| && Progress(s0, s) && FirstsKept(s0, s)
    requires g in s0.groups && CountedGroup(s0, s, arr, p, fields, at, g)
    requires Handled(s0, arr[p]) && arr[p] in s.items && SameTemplate(s0.items[arr[p]], s.items[arr[p]])
    requires InTable(s0.table, arr[p])
    requires if Hits(s, arr[p], fields, at) then Matched(s, s', arr[p]) else s' == s
    ensures CountedGroup(s0, s', arr, p + 1, fields, at, g)
  {
    hide Ok, Progress, FirstsKept, MatchesAt, InTable;
    if HitOf(s0, arr[p], fields, at, g) {
      RunsHandler(s0, s, arr[p]);
    }
  }

  /** Whether a template of the snapshot still has its match handler. */
  lemma RunsHandler(s0: State, s: State, x: Sid)
    requires Ok(s0) && Ok(s) && Progress(s0, s) && FirstsKept(s0, s) && InTable(s0.table, x)
    requires x in s0.items && x in s.items && SameTemplate(s0.items[x], s.items[x])
    ensures var g := s0.items[x].gid;
            s.items[x].onMatch <==> g !in s0.dead && (g !in s.dead || s0.items[x].pos == 0)
  {
    var g := s0.items[x].gid;
    assert IsMember(s0, x) && IsMember(s, x);
    assert MembersOk(s0, g) && LifeOk(s0, g) && MembersOk(s, g) && LifeOk(s, g);
  }

  /** `i` and `j` are matches of `g` in the snapshot, and `j` is the group's first member. */
  ghost predicate FirstComesLater(s: State, arr: seq<Sid>, fields: seq<string>, at: nat, g: nat, i: nat, j: nat) {
    i < j < |arr| && HitOf(s, arr[i], fields, at, g) && HitOf(s, arr[j], fields, at, g) && s.items[arr[j]].pos == 0
  }

  lemma OneAtEachPlace(s: State, x: Sid, y: Sid)
    requires BackOk(s)
    ensures x in s.items && y in s.items && s.items[x].gid == s.items[y].gid && s.items[x].pos == s.items[y].pos ==>
              x == y
  {
    assert (x in s.items ==> IsMember(s, x)) && (y in s.items ==> IsMember(s, y));
  }

  /** A scan runs a live group's handler twice if and only if it matches some
      other member before the first one; never more often; and not at all if and
      only if it matches none. */
  lemma {:induction false} FiresTwiceIff(s: State, arr: seq<Sid>, p: nat, fields: seq<string>, at: nat, g: nat)
    requires Ok(s) && Ordered(arr) && p <= |arr|
    ensures Firings(s, arr, p, fields, at, g) == 0 <==> forall i :: 0 <= i < p ==> !HitOf(s, arr[i], fields, at, g)
    ensures Firings(s, arr, p, fields, at, g) <= 2
    ensures Firings(s, arr, p, fields, at, g) == 2 <==>
            exists i: nat, j: nat :: j < p && FirstComesLater(s, arr, fields, at, g, i, j)
    decreases p
  {
    if p > 0 {
      FiresTwiceIff(s, arr, p - 1, fields, at, g);
      var n, x := Firings(s, arr, p - 1, fields, at, g), arr[p - 1];
      if n == 2 {
        var i: nat, j: nat :| j < p - 1 && FirstComesLater(s, arr, fields, at, g, i, j);
        OneAtEachPlace(s, arr[j], x);
        assert FirstComesLater(s, arr, fields, at, g, i, j);
      } else if HitOf(s, x, fields, at, g) && s.items[x].pos == 0 && n == 1 {
        var i :| 0 <= i < p - 1 && HitOf(s, arr[i], fields, at, g);
        assert FirstComesLater(s, arr, fields, at, g, i, p - 1);
      }
    }
  }

  lemma ProgressNone(s: State)
    ensures Progress(s, s)
  {
    MinusNothing(s.table);
  }

  lemma ProgressTwice(s0: State, s1: State, s2: State)
    requires Progress(s0, s1) && Progress(s1, s2)
    ensures Progress(s0, s2)
  {
    forall g | g in s2.dead && g !in s0.dead ensures g in s2.fired[|s0.fired|..] {
      if g in s1.dead {
        assert g in s1.fired[|s0.fired|..];
        var i :| |s0.fired| <= i < |s1.fired| && s1.fired[i] == g;
        assert s2.fired[i] == g && s2.fired[|s0.fired|..][i - |s0.fired|] == g;
      } else {
        var i :| |s1.fired| <= i < |s2.fired| && s2.fired[i] == g;
        assert s2.fired[|s0.fired|..][i - |s0.fired|] == g;
      }
    }
    ThinnedTwice(s0.table, s1.table, s2.table);
    forall x | x in s2.items ensures SameTemplate(s0.items[x], s2.items[x]) {
      assert x in s1.items && SameTemplate(s0.items[x], s1.items[x]);
    }
    forall x | x in s2.items ensures FiledAsBefore(s0, s2, x) {
      assert FiledAsBefore(s0, s1, x) && FiledAsBefore(s1, s2, x) && SameTemplate(s1.items[x], s2.items[x]);
    }
  }

  lemma SetFacts(s: State, h: nat)
    requires Ok(s) && h in s.table
    ensures forall q :: 0 <= q < |s.table[h]| ==> Handled(s, s.table[h][q]) && CanFire(s, s.table[h][q])
  {
    forall q | 0 <= q < |s.table[h]| ensures Handled(s, s.table[h][q]) && CanFire(s, s.table[h][q]) {
      var x := s.table[h][q];
      assert x in s.table[h] && ItemAt(s, h, x) && IsMember(s, x) && InTable(s.table, x);
      assert MembersOk(s, s.items[x].gid) && LifeOk(s, s.items[x].gid);
    }
  }

  /** Going on after a match at `p`: what is left of the snapshot can still be run. */
  lemma ScanOn(s: State, s': State, arr: seq<Sid>, p: nat, q: nat)
    requires p < q < |arr| && Ordered(arr) && Ok(s) && Ok(s') && Matched(s, s', arr[p]) && !s.items[arr[p]].consume
    requires CanFire(s, arr[q])
    ensures CanFire(s', arr[q])
  {
    hide Ok, Progress;
    var x, y := arr[p], arr[q];
    SameGroup(s, s', y);
    if s.items[x].gid == s.items[y].gid {
      MateCanFire(s, s', x, y);
    } else if s.items[y].gid in s'.dead && s'.items[y].onMatch {
      assert MayRun(s, s.items[y].gid);
    }
  }

  lemma SameGroup(s: State, s': State, y: Sid)
    requires Ok(s) && Progress(s, s') && y in s.items
    ensures y in s'.items && s'.items[y].gid == s.items[y].gid && s.items[y].gid in s.groups && s'.groups == s.groups
    ensures Safe(s'.items, s'.groups[s.items[y].gid]) <==> Safe(s.items, s.groups[s.items[y].gid])
  {
    var g := s.items[y].gid;
    assert IsMember(s, y) && SameTemplate(s.items[y], s'.items[y]);
    var m := s.groups[g];
    assert MembersOk(s, g) && SameTemplate(s.items[m[0]], s'.items[m[0]]);
  }

  /** Of a group just matched only the first member can run again, and only after another one. */
  lemma MateCanFire(s: State, s': State, x: Sid, y: Sid)
    requires Ok(s) && Ok(s') && Matched(s, s', x) && !s.items[x].consume && y in s.items && CanFire(s, y)
    requires s.items[x].gid == s.items[y].gid && x != y && Bucket(x) <= Bucket(y)
    ensures CanFire(s', y)
  {
    var g := s.items[y].gid;
    SameGroup(s, s', y);
    if s'.items[y].onMatch {
      LateOrFirst(s', y);
      LaterIsUnsafe(s, x, y);
      MatchCount(s, s', x, y);
    }
  }

  lemma LaterIsUnsafe(s: State, x: Sid, y: Sid)
    requires Ok(s) && x in s.items && y in s.items && s.items[x].gid == s.items[y].gid && x != y
    requires s.items[y].gid in s.groups && s.groups[s.items[y].gid] != [] && y == s.groups[s.items[y].gid][0]
    requires !s.items[x].consume && Bucket(x) <= Bucket(y)
    ensures !Safe(s.items, s.groups[s.items[y].gid])
  {
    assert IsMember(s, x);
    SameConsume(s, x, y);
  }

  lemma MatchCount(s: State, s': State, x: Sid, y: Sid)
    requires Ok(s) && Matched(s, s', x) && y in s.items && CanFire(s, y) && x != y
    requires s.items[x].gid == s.items[y].gid && s.groups[s.items[y].gid] != [] && y == s.groups[s.items[y].gid][0]
    requires s'.items[y].onMatch
    ensures multiset(s'.fired)[s.items[y].gid] == 1
  {
    var g := s.items[y].gid;
    assert IsMember(s, x) && IsMember(s, y);
    assert MembersOk(s, g) && LifeOk(s, g);
  }

  lemma LateOrFirst(s: State, y: Sid)
    requires Ok(s) && y in s.items && s.items[y].gid in s.dead && s.items[y].onMatch
    ensures s.items[y].gid in s.groups && s.groups[s.items[y].gid] != [] && y == s.groups[s.items[y].gid][0]
  {
    assert IsMember(s, y);
    assert MembersOk(s, s.items[y].gid) && LifeOk(s, s.items[y].gid);
  }

  // ----- an event, set by set -----

  /** `r` lists some elements of `a`, at the indexes `f`, in the same order. */
  predicate Sublist(a: seq<Sid>, r: seq<Sid>, f: seq<nat>) {
    |f| == |r| && (forall i :: 0 <= i < |r| ==> f[i] < |a| && r[i] == a[f[i]]) &&
    forall i, j :: 0 <= i < j < |r| ==> f[i] < f[j]
  }

  function Shifted(f: seq<nat>): (r: seq<nat>)
    ensures |r| == |f| && forall i :: 0 <= i < |f| ==> r[i] == f[i] + 1
  {
    seq(|f|, i requires 0 <= i < |f| => f[i] + 1)
  }

  lemma SublistBehind(a: seq<Sid>, r: seq<Sid>, f: seq<nat>)
    requires a != [] && Sublist(a[1..], r, f)
    ensures Sublist(a, r, Shifted(f))
  {
  }

  lemma SublistWith(a: seq<Sid>, r: seq<Sid>, f: seq<nat>)
    requires a != [] && Sublist(a, r, Shifted(f))
    ensures Sublist(a, [a[0]] + r, [0] + Shifted(f))
  {
  }

  lemma {:induction false} WithoutIsSublist(a: seq<Sid>, gone: set<Sid>) returns (f: seq<nat>)
    ensures Sublist(a, Without(a, gone), f)
    decreases |a|
  {
    if a == [] {
      f := [];
    } else {
      WithoutHead(a, gone);
      hide Without, Sublist;
      f := WithoutIsSublist(a[1..], gone);
      SublistBehind(a, Without(a[1..], gone), f);
      SublistWith(a, Without(a[1..], gone), f);
      f := if a[0] in gone then Shifted(f) else [0] + Shifted(f);
    }
  }

  lemma {:induction false} WithoutHead(a: seq<Sid>, gone: set<Sid>)
    requires a != []
    ensures Without(a, gone) == if a[0] in gone then Without(a[1..], gone) else [a[0]] + Without(a[1..], gone)
  {
  }

  lemma WithoutKeepsOrder(a: seq<Sid>, gone: set<Sid>, i: nat, j: nat, i0: nat, j0: nat)
    requires Ordered(a) && i < j < |Without(a, gone)| && i0 < |a| && j0 < |a|
    requires a[i0] == Without(a, gone)[i] && a[j0] == Without(a, gone)[j]
    ensures i0 < j0
  {
    var f := WithoutIsSublist(a, gone);
    hide Without, Bucket;
    assert f[i] == i0 && f[j] == j0;
  }

  /** The set a scan of field `at` goes through. */
  function SetAt(s: State, fields: seq<string>, at: nat): (arr: seq<Sid>)
    requires at < |fields|
  {
    if Hash(fields[at]) in s.table then s.table[Hash(fields[at])] else []
  }

  /** An entry of a set was there when the event began, and as much of a match. */
  lemma Back(s0: State, s: State, fields: seq<string>, at: nat, i: nat) returns (q: nat)
    requires Ok(s0) && Progress(s0, s) && at < |fields| && i < |SetAt(s, fields, at)|
    ensures IsPlace(s0, fields, at, q) && Entry(s0, fields, at, q) == SetAt(s, fields, at)[i]
    ensures var x := SetAt(s, fields, at)[i];
            x in s0.items && x in s.items && SameTemplate(s0.items[x], s.items[x])
  {
    var h, x := Hash(fields[at]), SetAt(s, fields, at)[i];
    var gone :| Minus(s0.table, s.table, gone);
    assert MinusAt(s0.table, s.table, gone, h);
    assert x in s0.table[h];
    assert ItemAt(s0, h, x);
    q :| 0 <= q < |s0.table[h]| && s0.table[h][q] == x;
  }

  /** An entry that is still filed is in the same set. */
  lemma Forth(s0: State, s: State, fields: seq<string>, at: nat, q: nat) returns (i: nat)
    requires Ok(s0) && Ok(s) && Progress(s0, s) && IsPlace(s0, fields, at, q)
    requires InTable(s.table, Entry(s0, fields, at, q))
    ensures i < |SetAt(s, fields, at)| && SetAt(s, fields, at)[i] == Entry(s0, fields, at, q)
    ensures var x := Entry(s0, fields, at, q);
            x in s0.items && x in s.items && SameTemplate(s0.items[x], s.items[x])
  {
    var h, x := Hash(fields[at]), Entry(s0, fields, at, q);
    assert x in s0.table[h] && ItemAt(s0, h, x);
    var k :| k in s.table && x in s.table[k];
    assert ItemAt(s, k, x) && SameTemplate(s0.items[x], s.items[x]);
    i :| 0 <= i < |s.table[h]| && s.table[h][i] == x;
  }

  lemma SameOrder(s0: State, s: State, fields: seq<string>, at: nat, i: nat, j: nat, q: nat, r: nat)
    requires Ok(s0) && Progress(s0, s) && at < |fields| && i < |SetAt(s, fields, at)| && j < |SetAt(s, fields, at)|
    requires IsPlace(s0, fields, at, q) && Entry(s0, fields, at, q) == SetAt(s, fields, at)[i]
    requires IsPlace(s0, fields, at, r) && Entry(s0, fields, at, r) == SetAt(s, fields, at)[j]
    ensures i < j <==> q < r
  {
    var h := Hash(fields[at]);
    var gone :| Minus(s0.table, s.table, gone);
    assert MinusAt(s0.table, s.table, gone, h);
    if i < j {
      WithoutKeepsOrder(s0.table[h], gone, i, j, q, r);
    } else if j < i {
      WithoutKeepsOrder(s0.table[h], gone, j, i, r, q);
    }
  }

  ghost predicate NoConsumer(s: State, fields: seq<string>, n: nat) {
    forall b: nat, r: nat :: b < n ==> !Consumer(s, fields, b, r)
  }

  /** The first `n` fields are done and nothing has stopped the scan. */
  ghost predicate Sweep(s0: State, s: State, fields: seq<string>, n: nat) {
    n <= |fields| && Ok(s0) && Ok(s) && Progress(s0, s) && s.groups == s0.groups && s0.dead <= s.dead &&
    ConsumersStay(s0, s) &&
    NoConsumer(s0, fields, n) && Left(s0, s, fields, n) && forall g :: g in s0.groups ==> Swept(s0, s, fields, n, g)
  }

  /** A set has been gone through, as far as `upto`. */
  ghost predicate SetDone(s: State, s': State, upto: nat, stopped: bool, fields: seq<string>, at: nat) {
    at < |fields| && upto <= |SetAt(s, fields, at)| && Ok(s') && Progress(s, s') &&
    (!stopped ==> ConsumersStay(s, s')) &&
    Tested(s, SetAt(s, fields, at), upto, stopped, fields, at) && Counted(s, s', SetAt(s, fields, at), upto, fields, at)
  }

  lemma SweepBegins(s: State, fields: seq<string>)
    requires Ok(s)
    ensures Sweep(s, s, fields, 0)
  {
    ProgressNone(s);
    forall g | g in s.groups ensures Swept(s, s, fields, 0, g) {
      assert MembersOk(s, g) && LifeOk(s, g);
    }
  }

  lemma NothingThere(s: State, fields: seq<string>, at: nat)
    requires Ok(s) && at < |fields| && Hash(fields[at]) !in s.table
    ensures SetDone(s, s, 0, false, fields, at)
  {
    ProgressNone(s);
    CountNone(s, [], fields, at);
  }

  /** What a set's scan does to a group, told from the state it began in. */
  lemma SetOutcome(s: State, s': State, upto: nat, stopped: bool, fields: seq<string>, at: nat, g: nat)
    requires Ok(s) && SetDone(s, s', upto, stopped, fields, at) && g in s.groups
    ensures g in s.dead ==>
              g in s'.dead && (g in s'.twice <==> g in s.twice) && multiset(s'.fired)[g] == multiset(s.fired)[g]
    ensures var arr := SetAt(s, fields, at);
            g !in s.dead ==>
              (g in s'.dead <==> exists i :: 0 <= i < upto && HitOf(s, arr[i], fields, at, g)) &&
              (g in s'.twice <==> exists i: nat, j: nat :: j < upto && FirstComesLater(s, arr, fields, at, g, i, j)) &&
              multiset(s'.fired)[g] == if g in s'.twice then 2 else if g in s'.dead then 1 else 0
  {
    hide Progress, Tested, ConsumersStay, HitOf, FirstComesLater, FirstsKept;
    GroupLife(s, g);
    GroupLife(s', g);
    SetIsOrdered(s, fields, at);
    DeadStays(s, s');
    hide Ok;
    FiresTwiceIff(s, SetAt(s, fields, at), upto, fields, at, g);
    assert CountedGroup(s, s', SetAt(s, fields, at), upto, fields, at, g);
  }

  lemma DeadStays(s: State, s': State)
    requires Progress(s, s')
    ensures s.dead <= s'.dead && s'.groups == s.groups
  {
  }

  lemma GroupLife(s: State, g: nat)
    requires Ok(s)
    ensures g in s.groups ==> multiset(s.fired)[g] <= 2 && (multiset(s.fired)[g] == 2 <==> g in s.twice)
    ensures g in s.groups && g !in s.dead ==> multiset(s.fired)[g] == 0
  {
    assert g in s.groups ==> MembersOk(s, g) && LifeOk(s, g);
  }

  lemma SetIsOrdered(s: State, fields: seq<string>, at: nat)
    requires Ok(s) && at < |fields|
    ensures Ordered(SetAt(s, fields, at))
  {
  }

  /** Being among the entries tested is being reached. */
  lemma TestedIsReached(s0: State, s: State, s': State, upto: nat, stopped: bool, fields: seq<string>, at: nat,
                        i: nat, q: nat)
    requires Sweep(s0, s, fields, at) && SetDone(s, s', upto, stopped, fields, at)
    requires i < |SetAt(s, fields, at)| && IsPlace(s0, fields, at, q) &&
             Entry(s0, fields, at, q) == SetAt(s, fields, at)[i]
    requires Met(s0, fields, at, q)
    ensures i < upto <==> Reached(s0, fields, at, q)
  {
    hide Ok, Counted, Swept, ConsumersStay, Progress, Hits;
    if i < upto {
      forall b: nat, r: nat | Consumer(s0, fields, b, r) ensures !Sooner(b, r, at, q) {
        if b == at && r < q {
          ConsumerIsTested(s0, s, s', upto, stopped, fields, at, i, q, r);
        }
      }
    } else {
      var r := Back(s0, s, fields, at, upto - 1);
      SameOrder(s0, s, fields, at, upto - 1, i, r, q);
      HitsBack(s0, s, SetAt(s, fields, at)[upto - 1], fields, at);
      assert Consumer(s0, fields, at, r);
    }
  }

  lemma HitsBack(s0: State, s: State, x: Sid, fields: seq<string>, at: nat)
    requires x in s0.items && x in s.items && SameTemplate(s0.items[x], s.items[x])
    ensures Hits(s0, x, fields, at) <==> Hits(s, x, fields, at)
  {
  }

  /** A consuming match of the set stops the scan no later than at its own place. */
  lemma ConsumerIsTested(s0: State, s: State, s': State, upto: nat, stopped: bool, fields: seq<string>, at: nat,
                         i: nat, q: nat, r: nat)
    requires Sweep(s0, s, fields, at) && SetDone(s, s', upto, stopped, fields, at) && Consumer(s0, fields, at, r)
    requires i < |SetAt(s, fields, at)| && IsPlace(s0, fields, at, q) &&
             Entry(s0, fields, at, q) == SetAt(s, fields, at)[i]
    ensures r < q ==> upto <= i
    ensures stopped
  {
    var k := Forth(s0, s, fields, at, r);
    SameOrder(s0, s, fields, at, k, i, r, q);
    assert Hits(s, SetAt(s, fields, at)[k], fields, at) && s.items[SetAt(s, fields, at)[k]].consume;
  }

  lemma EarlyIsReached(s: State, fields: seq<string>, n: nat, at: nat, q: nat, g: nat)
    requires NoConsumer(s, fields, n) && at < n
    ensures MetBy(s, fields, at, q, g) ==> ReachedBy(s, fields, at, q, g)
  {
  }

  /** A template of a group still live is still filed. */
  lemma LiveStaysFiled(s0: State, s: State, fields: seq<string>, at: nat, q: nat)
    requires Ok(s0) && Progress(s0, s) && IsPlace(s0, fields, at, q)
    ensures var x := Entry(s0, fields, at, q);
            x in s0.items && x in s.items && (s0.items[x].gid !in s.dead ==> InTable(s.table, x))
  {
    var h, x := Hash(fields[at]), Entry(s0, fields, at, q);
    assert x in s0.table[h] && ItemAt(s0, h, x);
    assert InTable(s0.table, x) && SameTemplate(s0.items[x], s.items[x]) && FiledAsBefore(s0, s, x);
  }

  lemma HitIsReached(s0: State, s: State, s': State, upto: nat, stopped: bool, fields: seq<string>, at: nat, g: nat,
                     i: nat)
      returns (q: nat)
    requires Sweep(s0, s, fields, at) && SetDone(s, s', upto, stopped, fields, at)
    requires i < upto && HitOf(s, SetAt(s, fields, at)[i], fields, at, g)
    ensures ReachedBy(s0, fields, at, q, g) && Entry(s0, fields, at, q) == SetAt(s, fields, at)[i]
  {
    q := Back(s0, s, fields, at, i);
    assert Met(s0, fields, at, q);
    TestedIsReached(s0, s, s', upto, stopped, fields, at, i, q);
  }

  lemma ReachedIsHit(s0: State, s: State, s': State, upto: nat, stopped: bool, fields: seq<string>, at: nat, g: nat,
                     q: nat)
      returns (i: nat)
    requires Sweep(s0, s, fields, at) && SetDone(s, s', upto, stopped, fields, at) && g !in s.dead
    requires MetBy(s0, fields, at, q, g)
    ensures i < |SetAt(s, fields, at)| && HitOf(s, SetAt(s, fields, at)[i], fields, at, g)
    ensures Entry(s0, fields, at, q) == SetAt(s, fields, at)[i] && (ReachedBy(s0, fields, at, q, g) <==> i < upto)
  {
    LiveStaysFiled(s0, s, fields, at, q);
    i := Forth(s0, s, fields, at, q);
    TestedIsReached(s0, s, s', upto, stopped, fields, at, i, q);
  }

  lemma DeadStep(s0: State, s: State, s': State, upto: nat, stopped: bool, fields: seq<string>, at: nat, g: nat)
    requires Sweep(s0, s, fields, at) && SetDone(s, s', upto, stopped, fields, at) && g in s0.groups && g !in s.dead
    requires forall b: nat, q: nat :: b < at ==> !MetBy(s0, fields, b, q, g)
    ensures g in s'.dead <==> exists b: nat, q: nat :: b < at + 1 && ReachedBy(s0, fields, b, q, g)
  {
    hide Ok, Progress, Counted, Tested, ConsumersStay, Swept, NoConsumer;
    SetOutcome(s, s', upto, stopped, fields, at, g);
    if g in s'.dead {
      var i :| 0 <= i < upto && HitOf(s, SetAt(s, fields, at)[i], fields, at, g);
      var q := HitIsReached(s0, s, s', upto, stopped, fields, at, g, i);
    }
    if b: nat, q: nat :| b < at + 1 && ReachedBy(s0, fields, b, q, g) {
      assert MetBy(s0, fields, b, q, g);
      var i := ReachedIsHit(s0, s, s', upto, stopped, fields, at, g, q);
    }
  }

  lemma TwiceStep(s0: State, s: State, s': State, upto: nat, stopped: bool, fields: seq<string>, at: nat, g: nat)
    requires Sweep(s0, s, fields, at) && SetDone(s, s', upto, stopped, fields, at) && g in s0.groups && g !in s.dead
    requires forall b: nat, q: nat :: b < at ==> !MetBy(s0, fields, b, q, g)
    ensures g in s'.twice <==> exists b: nat, i: nat, j: nat :: b < at + 1 && ReachedTwice(s0, fields, b, i, j, g)
  {
    hide Ok, Progress, Counted, Tested, ConsumersStay, Swept, NoConsumer;
    var arr := SetAt(s, fields, at);
    SetOutcome(s, s', upto, stopped, fields, at, g);
    if g in s'.twice {
      var i: nat, j: nat :| j < upto && FirstComesLater(s, arr, fields, at, g, i, j);
      var q := HitIsReached(s0, s, s', upto, stopped, fields, at, g, i);
      var r := HitIsReached(s0, s, s', upto, stopped, fields, at, g, j);
      SameOrder(s0, s, fields, at, i, j, q, r);
      PosKept(s0, s, arr[j]);
      assert ReachedTwice(s0, fields, at, q, r, g);
    }
    if b: nat, q: nat, r: nat :| b < at + 1 && ReachedTwice(s0, fields, b, q, r, g) {
      assert MetBy(s0, fields, b, q, g) && MetBy(s0, fields, b, r, g);
      var i := ReachedIsHit(s0, s, s', upto, stopped, fields, at, g, q);
      var j := ReachedIsHit(s0, s, s', upto, stopped, fields, at, g, r);
      SameOrder(s0, s, fields, at, i, j, q, r);
      PosKept(s0, s, arr[j]);
      assert FirstComesLater(s, arr, fields, at, g, i, j);
    }
  }

  lemma PosKept(s0: State, s: State, x: Sid)
    requires Progress(s0, s)
    ensures x in s.items ==> x in s0.items && s.items[x].pos == s0.items[x].pos
  {
    assert x in s.items ==> SameTemplate(s0.items[x], s.items[x]);
  }

  lemma SweptStep(s0: State, s: State, s': State, upto: nat, stopped: bool, fields: seq<string>, at: nat, g: nat)
    requires Sweep(s0, s, fields, at) && SetDone(s, s', upto, stopped, fields, at) && g in s0.groups
    ensures Swept(s0, s', fields, at + 1, g)
  {
    hide Ok, Progress, Counted, Tested, ConsumersStay, SetAt, IsPlace, Hits;
    assert g in s.groups && Swept(s0, s, fields, at, g);
    SetOutcome(s, s', upto, stopped, fields, at, g);
    if g !in s0.dead {
      if g in s.dead {
        var b: nat, q: nat :| b < at && ReachedBy(s0, fields, b, q, g);
        assert MetBy(s0, fields, b, q, g) && b < at + 1;
      } else {
        forall b: nat, q: nat | b < at ensures !MetBy(s0, fields, b, q, g) {
          EarlyIsReached(s0, fields, at, b, q, g);
        }
        DeadStep(s0, s, s', upto, stopped, fields, at, g);
        TwiceStep(s0, s, s', upto, stopped, fields, at, g);
      }
    }
  }

  lemma SweepStep(s0: State, s: State, s': State, upto: nat, stopped: bool, fields: seq<string>, at: nat)
    requires Sweep(s0, s, fields, at) && SetDone(s, s', upto, stopped, fields, at)
    ensures Ok(s') && Progress(s0, s') && Left(s0, s', fields, at + 1)
    ensures forall g :: g in s0.groups ==> Swept(s0, s', fields, at + 1, g)
    ensures if stopped then exists q: nat :: Consumer(s0, fields, at, q) else Sweep(s0, s', fields, at + 1)
  {
    hide Ok, Counted, Swept, Reached, Left, Progress;
    ProgressTwice(s0, s, s');
    DeadStays(s0, s');
    LeftStep(s0, s, s', upto, stopped, fields, at);
    forall g | g in s0.groups ensures Swept(s0, s', fields, at + 1, g) {
      SweptStep(s0, s, s', upto, stopped, fields, at, g);
    }
    if stopped {
      var q := Back(s0, s, fields, at, upto - 1);
      assert Consumer(s0, fields, at, q);
    } else {
      forall r: nat ensures !Consumer(s0, fields, at, r) {
        if Consumer(s0, fields, at, r) {
          var i := Forth(s0, s, fields, at, r);
          ConsumerIsTested(s0, s, s', upto, stopped, fields, at, i, r, r);
        }
      }
      StayTwice(s0, s, s');
    }
  }

  lemma LeftStep(s0: State, s: State, s': State, upto: nat, stopped: bool, fields: seq<string>, at: nat)
    requires Sweep(s0, s, fields, at) && SetDone(s, s', upto, stopped, fields, at)
    ensures Left(s0, s', fields, at + 1)
  {
    hide Ok, Progress, Swept, ConsumersStay, NoConsumer, CountedGroup, FirstsKept, Tested;
    forall b: nat, q: nat | b < at + 1 && Reached(s0, fields, b, q)
      ensures !InTable(s'.table, Entry(s0, fields, b, q))
    {
      var x := Entry(s0, fields, b, q);
      InTableBefore(s, s', x);
      if b == at && InTable(s.table, x) {
        var i := Forth(s0, s, fields, at, q);
        TestedIsReached(s0, s, s', upto, stopped, fields, at, i, q);
        HitsBack(s0, s, x, fields, at);
      }
    }
  }

  lemma StayTwice(s0: State, s: State, s': State)
    requires ConsumersStay(s0, s) && ConsumersStay(s, s') && Progress(s0, s)
    ensures ConsumersStay(s0, s')
  {
    forall x | x in s0.items && s0.items[x].consume && InTable(s0.table, x) ensures InTable(s'.table, x) {
      assert SameTemplate(s0.items[x], s.items[x]);
    }
  }

  /** Nothing is reached behind the field at which the scan stopped. */
  lemma SweepStops(s0: State, s: State, fields: seq<string>, at: nat)
    requires at < |fields| && exists q: nat :: Consumer(s0, fields, at, q)
    requires Left(s0, s, fields, at + 1) && forall g :: g in s0.groups ==> Swept(s0, s, fields, at + 1, g)
    ensures Outcome(s0, s, fields)
  {
    var c: nat :| Consumer(s0, fields, at, c);
    forall b: nat, q: nat | Reached(s0, fields, b, q) ensures b < at + 1 {
      assert !Sooner(at, c, b, q);
    }
    forall g | g in s0.groups ensures Swept(s0, s, fields, |fields|, g) {
      assert Swept(s0, s, fields, at + 1, g);
    }
  }

  lemma SweepEnds(s0: State, s: State, fields: seq<string>)
    requires Sweep(s0, s, fields, |fields|)
    ensures Ok(s) && Progress(s0, s) && Outcome(s0, s, fields)
    ensures forall at: nat, q: nat :: !Consumer(s0, fields, at, q)
  {
    forall at: nat, q: nat ensures !Consumer(s0, fields, at, q) {}
  }

  function Cut(it: Item, i: nat): (r: Item) {
    if i == 0 then it.(linked := false) else it.(linked := false, onMatch := false, onTimeout := false)
  }

  ghost predicate CutSoFar(items0: map<Sid, Item>, items: map<Sid, Item>, table0: map<nat, seq<Sid>>,
                           table: map<nat, seq<Sid>>, m: seq<Sid>, i: nat) {
    i <= |m| && items == Unlinked(items0, m[..i]) && Minus(table0, table, Members(m[..i]))
  }

  lemma CutNone(items: map<Sid, Item>, table: map<nat, seq<Sid>>, m: seq<Sid>)
    ensures CutSoFar(items, items, table, table, m, 0)
  {
    MinusNothing(table);
    assert Unlinked(items, m[..0]) == items && Members(m[..0]) == {};
  }

  lemma CutInRange(items0: map<Sid, Item>, items: map<Sid, Item>, table0: map<nat, seq<Sid>>,
                   table: map<nat, seq<Sid>>, m: seq<Sid>, i: nat, g: nat)
    requires i < |m| && IsGroup(items0, g, m) && CutSoFar(items0, items, table0, table, m, i)
    ensures m[i] in items && items[m[i]] == items0[m[i]] && (InTable(table, m[i]) <==> InTable(table0, m[i]))
  {
    UnlinkedMore(items0, m, i);
    MinusTable(table0, table, Members(m[..i]), m[i]);
  }

  lemma CutOneMore(items0: map<Sid, Item>, items: map<Sid, Item>, items': map<Sid, Item>, table0: map<nat, seq<Sid>>,
                   table: map<nat, seq<Sid>>, table': map<nat, seq<Sid>>, m: seq<Sid>, i: nat, g: nat)
    requires i < |m| && IsGroup(items0, g, m) && CutSoFar(items0, items, table0, table, m, i) && m[i] in items
    requires items' == items[m[i] := Cut(items[m[i]], i)] && Minus(table, table', {m[i]})
    ensures CutSoFar(items0, items', table0, table', m, i + 1)
  {
    UnlinkedMore(items0, m, i);
    assert m[..i + 1] == m[..i] + [m[i]];
    assert Members(m[..i + 1]) == Members(m[..i]) + {m[i]};
    MinusTwice(table0, table, table', Members(m[..i]), {m[i]});
  }

  lemma KillMatches(s: State, s': State, sid: Sid)
    requires Ok(s) && Handled(s, sid) && CanFire(s, sid) && Killed(s, s', s.items[sid].gid, s.items[sid].onMatch)
    ensures Ok(s') && Matched(s, s', sid)
  {
    hide Ok, Progress, Unlinked, Minus, Safe, IsGroup, Homes, InTable;
    HandledFacts(s, sid);
    KilledItems(s, s', s.items[sid].gid, s.items[sid].onMatch);
    KilledOk(s, s', s.items[sid].gid, s.items[sid].onMatch);
    KilledProgress(s, s', s.items[sid].gid, s.items[sid].onMatch);
  }

  /** Removing a group leaves the handlers of first members, and all other groups, alone. */
  lemma KilledItems(s: State, s': State, g: nat, hit: bool)
    requires Ok(s) && g in s.groups && Killed(s, s', g, hit)
    ensures forall x :: x in s.items && s.items[x].pos == 0 ==>
              x in s'.items && s'.items[x].onMatch == s.items[x].onMatch
    ensures forall x :: x in s.items && s.items[x].gid != g ==> x in s'.items && s'.items[x] == s.items[x]
    ensures forall x :: x in s.items && s.items[x].gid != g && InTable(s.table, x) ==> InTable(s'.table, x)
    ensures forall x :: x in s.items && s.items[x].gid == g ==> !InTable(s'.table, x)
  {
    assert MembersOk(s, g);
    forall x | x in s.items && s.items[x].gid == g ensures !InTable(s'.table, x) {
      assert IsMember(s, x);
      MinusTable(s.table, s'.table, Members(s.groups[g]), x);
    }
    forall x | x in s.items && s.items[x].gid != g
      ensures s'.items[x] == s.items[x] && (InTable(s.table, x) ==> InTable(s'.table, x))
    {
      assert x !in s.groups[g];
      MinusTable(s.table, s'.table, Members(s.groups[g]), x);
    }
  }

  lemma DetachMatches(s: State, s': State, sid: Sid)
    requires Ok(s) && Handled(s, sid) && CanFire(s, sid) && !s.items[sid].linked
    requires s' == s.(table := s'.table, fired := s'.fired, twice := s'.twice) && Minus(s.table, s'.table, {sid})
    requires s'.fired == s.fired + if s.items[sid].onMatch then [s.items[sid].gid] else []
    requires s'.twice == s.twice + if s.items[sid].onMatch then {s.items[sid].gid} else {}
    ensures Ok(s') && Matched(s, s', sid)
  {
    hide Ok, Progress, Homes, IsGroup, Safe;
    HandledFacts(s, sid);
    assert Detached(s, s', sid);
    DetachedOk(s, s', sid);
    DetachedProgress(s, s', sid);
    hide Minus;
    MinusTable(s.table, s'.table, {sid}, sid);
    forall x | x in s.items && x != sid && InTable(s.table, x) ensures InTable(s'.table, x) {
      MinusTable(s.table, s'.table, {sid}, x);
    }
    assert s.dead == s.dead + {s.items[sid].gid};
  }

  /** The template has left the work queue. */
  ghost predicate Handled(s: State, sid: Sid) {
    sid in s.items && sid !in s.queue && s.items[sid].gid in s.sent && s.items[sid].pos < s.sent[s.items[sid].gid]
  }

  /** Running the template's handler cannot make a safe group fire again. */
  ghost predicate CanFire(s: State, sid: Sid) {
    sid in s.items && s.items[sid].gid in s.groups &&
    (s.items[sid].onMatch ==> MayRun(s, s.items[sid].gid))
  }

  lemma HandledFacts(s: State, sid: Sid)
    requires Ok(s) && Handled(s, sid)
    ensures var g := s.items[sid].gid;
            g in s.groups && IsGroup(s.items, g, s.groups[g]) && s.sent[g] > 0 && s.groups[g][0] !in s.queue &&
            (!s.items[sid].linked ==> g in s.dead) && (g in s.dead ==> !InTable(s.table, s.groups[g][0])) &&
            (g !in s.dead ==> s.items[sid].onMatch) &&
            (g in s.dead && s.items[sid].onTimeout ==> sid == s.groups[g][0])
    ensures Homes(s.items, s.table)
  {
    assert IsMember(s, sid);
    var g := s.items[sid].gid;
    assert MembersOk(s, g) && LifeOk(s, g);
    OkHomes(s);
  }

  /** The first member keeps its timeout handler while the group is live. */
  lemma FirstHasTimeout(s: State, g: nat)
    requires Ok(s) && g in s.groups
    ensures s.groups[g] != [] && s.groups[g][0] in s.items && s.items[s.groups[g][0]].gid == g
    ensures g !in s.dead ==> s.items[s.groups[g][0]].onTimeout
  {
    assert MembersOk(s, g) && LifeOk(s, g);
  }

  /** The outcome of a match: the group's handler ran if the template had it. */
  ghost predicate Matched(s: State, s': State, sid: Sid) {
    sid in s.items && Progress(s, s') && s.items[sid].gid in s'.dead &&
    s'.fired == s.fired + (if s.items[sid].onMatch then [s.items[sid].gid] else []) &&
    s'.dead == s.dead + {s.items[sid].gid} && !InTable(s'.table, sid) &&
    (forall x :: x in s.items && s.items[x].gid != s.items[sid].gid && InTable(s.table, x) ==> InTable(s'.table, x)) &&
    (forall x :: x in s.items && s.items[x].pos == 0 ==> x in s'.items && s'.items[x].onMatch == s.items[x].onMatch) &&
    forall x :: x in s.items && s.items[x].gid != s.items[sid].gid ==> x in s'.items && s'.items[x] == s.items[x]
  }

  ghost predicate IsGroup(items: map<Sid, Item>, g: nat, m: seq<Sid>) {
    |m| > 0 && forall j :: 0 <= j < |m| ==> m[j] in items && items[m[j]].gid == g && items[m[j]].pos == j
  }

  /** `s` is `s0` after some matches: what was removed belongs to groups that
      have fired since, all else is as it was. */
  ghost predicate Progress(s0: State, s: State) {
    s.groups == s0.groups && s.queue == s0.queue && s.sent == s0.sent && s0.fired <= s.fired && s0.dead <= s.dead &&
    s.items.Keys == s0.items.Keys && Thinned(s0.table, s.table) &&
    (forall x :: x in s.items ==> SameTemplate(s0.items[x], s.items[x])) &&
    (forall g :: g in s.dead && g !in s0.dead ==> g in s.fired[|s0.fired|..]) &&
    forall x :: x in s.items ==> FiledAsBefore(s0, s, x)
  }

  ghost predicate FiledAsBefore(s0: State, s: State, x: Sid)
    requires x in s.items
  {
    (InTable(s.table, x) ==> InTable(s0.table, x)) &&
    (InTable(s0.table, x) && s.items[x].gid !in s.dead ==> InTable(s.table, x))
  }

  predicate SameTemplate(a: Item, b: Item) {
    a == b.(linked := a.linked, onMatch := a.onMatch, onTimeout := a.onTimeout)
  }

  lemma UnlinkedAlike(items: map<Sid, Item>, m: seq<Sid>)
    ensures Unlinked(items, m).Keys == items.Keys
    ensures forall x :: x in items ==> SameTemplate(items[x], Unlinked(items, m)[x])
  {
  }

  lemma TemplatesAlike(items: map<Sid, Item>)
    ensures forall x :: x in items ==> SameTemplate(items[x], items[x])
  {
  }

  lemma KilledProgress(s: State, s': State, g: nat, hit: bool)
    requires Ok(s) && g in s.groups && Killed(s, s', g, hit) && (g !in s.dead ==> hit)
    ensures Progress(s, s')
  {
    hide TableOk, QueueOk, BackOk, LogOk, LifeOk, Minus;
    assert MembersOk(s, g);
    forall x | x in s'.items ensures FiledAsBefore(s, s', x) {
      MinusTable(s.table, s'.table, Members(s.groups[g]), x);
    }
    if hit {
      assert s'.fired[|s.fired|..] == [g];
    }
  }

  /** A lone item leaves its set; only a dead group's items are without a link. */
  ghost predicate Detached(s: State, s': State, sid: Sid) {
    sid in s.items && s.items[sid].gid in s.dead && s.items[sid].gid in s.groups &&
    s' == s.(table := s'.table, fired := s'.fired, twice := s'.twice) && Minus(s.table, s'.table, {sid}) &&
    ((s'.fired == s.fired && s'.twice == s.twice) ||
     (s'.fired == s.fired + [s.items[sid].gid] && s'.twice == s.twice + {s.items[sid].gid} &&
      MayRun(s, s.items[sid].gid)))
  }

  lemma DetachedGroup(s: State, s': State, sid: Sid, g: nat)
    requires g in s.groups && MembersOk(s, g) && LifeOk(s, g) && Detached(s, s', sid)
    ensures MembersOk(s', g) && LifeOk(s', g)
  {
    MinusTable(s.table, s'.table, {sid}, s.groups[g][0]);
  }

  lemma DetachedTable(s: State, s': State, sid: Sid)
    requires TableOk(s) && Detached(s, s', sid)
    ensures TableOk(s')
  {
    forall h | h in s'.table ensures Ordered(s'.table[h]) && forall x :: x in s'.table[h] ==> ItemAt(s', h, x) {
      assert MinusAt(s.table, s'.table, {sid}, h);
      WithoutOrdered(s.table[h], {sid});
      forall x | x in s'.table[h] ensures ItemAt(s', h, x) { assert ItemAt(s, h, x); }
    }
  }

  lemma DetachedOk(s: State, s': State, sid: Sid)
    requires Ok(s) && Detached(s, s', sid)
    ensures Ok(s')
  {
    DetachedTable(s, s', sid);
    forall g | g in s'.groups ensures MembersOk(s', g) && LifeOk(s', g) { DetachedGroup(s, s', sid, g); }
    forall x | x in s'.items ensures IsMember(s', x) { assert IsMember(s, x); }
  }

  lemma DetachedProgress(s: State, s': State, sid: Sid)
    requires Detached(s, s', sid)
    ensures Progress(s, s')
  {
    forall x | x in s'.items ensures FiledAsBefore(s, s', x) {
      MinusTable(s.table, s'.table, {sid}, x);
    }
  }

  lemma NotThere(items: map<Sid, Item>, table: map<nat, seq<Sid>>, sid: Sid)
    requires sid in items && Homes(items, table)
    requires var it := items[sid];
             !it.filed || it.keyIdx >= |it.templ| || Hash(it.templ[it.keyIdx]) !in table ||
             sid !in table[Hash(it.templ[it.keyIdx])]
    ensures Minus(table, table, {sid}) && !InTable(table, sid)
  {
    forall h | h in table ensures Without(table[h], {sid}) == table[h] && sid !in table[h] {
      WithoutNone(table[h], {sid});
    }
  }

  /** The table with `sid` cut out of the one set that holds it, and with that
      set dropped when nothing is left in it. */
  lemma TableWithout(items: map<Sid, Item>, table: map<nat, seq<Sid>>, sid: Sid, h: nat)
    requires sid in items && Homes(items, table) && h in table && sid in table[h]
    ensures var rest := Without(table[h], {sid});
            Homes(items, table[h := rest]) && Minus(table, table[h := rest], {sid}) &&
            (rest == [] ==> Homes(items, table - {h}) && Minus(table, table - {h}, {sid}))
  {
    var rest := Without(table[h], {sid});
    OthersUntouched(items, table, sid, h);
    StillHomes(items, table, h, rest);
    hide Homes;
    var less := table[h := rest];
    forall k ensures MinusAt(table, less, {sid}, k) {}
    if rest == [] {
      forall k ensures MinusAt(table, table - {h}, {sid}, k) {}
    }
  }

  lemma StillHomes(items: map<Sid, Item>, table: map<nat, seq<Sid>>, h: nat, rest: seq<Sid>)
    requires Homes(items, table) && h in table && forall x :: x in rest ==> x in table[h]
    ensures Homes(items, table[h := rest]) && Homes(items, table - {h})
  {
  }

  lemma OthersUntouched(items: map<Sid, Item>, table: map<nat, seq<Sid>>, sid: Sid, h: nat)
    requires sid in items && Homes(items, table) && h in table && sid in table[h]
    ensures forall h' :: h' in table && h' != h ==> Without(table[h'], {sid}) == table[h']
  {
    forall h' | h' in table && h' != h ensures Without(table[h'], {sid}) == table[h'] {
      assert sid !in table[h'];
      WithoutNone(table[h'], {sid});
    }
  }

  lemma OkHomes(s: State)
    requires TableOk(s)
    ensures Homes(s.items, s.table)
  {
    forall h, x | h in s.table && x in s.table[h] ensures ItemAt(s, h, x) {}
  }

  lemma MinusNothing(t: map<nat, seq<Sid>>)
    ensures Minus(t, t, {})
  {
    forall h ensures MinusAt(t, t, {}, h) {
      if h in t { WithoutNone(t[h], {}); }
    }
  }

  lemma UnlinkedMore(items: map<Sid, Item>, m: seq<Sid>, i: nat)
    requires i < |m| && (forall j :: 0 <= j < |m| ==> m[j] in items && items[m[j]].pos == j)
    ensures m[i] !in m[..i]
    ensures var it := items[m[i]].(linked := false);
            Unlinked(items, m[..i + 1]) == Unlinked(items, m[..i])[
              m[i] := if i > 0 then it.(onMatch := false, onTimeout := false) else it]
  {
    assert m[..i + 1] == m[..i] + [m[i]];
    assert forall j :: 0 <= j < i ==> m[..i][j] == m[j];
  }

  // ----- a group fires once -----

  /** Whatever registrations, matches and timeouts have happened, a group that is
      safe to scan has had one of its handlers run at most once. */
  lemma GroupFiresAtMostOnce(s: State, g: nat)
    requires Ok(s) && g in s.groups && Safe(s.items, s.groups[g])
    ensures multiset(s.fired)[g] <= 1
  {
    assert MembersOk(s, g) && LifeOk(s, g);
  }

  /** No group ever fires more than twice, and twice exactly when some event reached
      its first member after another one (see `Swept`). */
  lemma GroupFiresAtMostTwice(s: State, g: nat)
    requires Ok(s) && g in s.groups
    ensures multiset(s.fired)[g] <= 2 && (multiset(s.fired)[g] == 2 <==> g in s.twice)
  {
    assert MembersOk(s, g) && LifeOk(s, g);
  }

  /** File the next template queued, one of the single field `w`. */
  method FileQueued(d: Matcher, ghost w: string)
    requires d.Valid() && d.queue != [] && d.queue[0] in d.items && d.items[d.queue[0]].templ == [w] && w != WILDCARD
    modifies d`items, d`table, d`queue, d`armed
    ensures d.Valid() && d.queue == old(d.queue)[1..]
    ensures var x := old(d.queue)[0];
            d.items == old(d.items)[x := old(d.items)[x].(filed := true, keyIdx := 0)] &&
            d.table == Filed(old(d.table), w, x)
  {
    hide Ok, Hash, Insert;
    assert [w][0] != WILDCARD;
    var rc, k := d.RegisterNext(false);
  }

  /** Queue and file the next member of a group, a template of the one field `w`. */
  method FileNext(d: Matcher, g: nat, ghost w: string)
    requires d.Valid() && d.queue == [] && g in d.groups && g in d.sent && d.sent[g] < |d.groups[g]|
    requires var x := d.groups[g][d.sent[g]]; x in d.items && d.items[x].templ == [w] && w != WILDCARD
    modifies d`items, d`table, d`queue, d`sent, d`armed
    ensures d.Valid() && d.queue == [] && d.sent == old(d.sent)[g := old(d.sent)[g] + 1]
    ensures var x := d.groups[g][old(d.sent)[g]];
            d.items == old(d.items)[x := old(d.items)[x].(linked := true, filed := true, keyIdx := 0)] &&
            d.table == Filed(old(d.table), w, x)
  {
    hide Ok, Hash, Insert;
    d.SendNext(g);
    assert d.queue[0] == d.groups[g][old(d.sent)[g]];
    FileQueued(d, w);
  }

  method PairCreated() returns (d: Matcher, g: nat)
    ensures fresh(d) && d.Valid() && d.table == map[] && d.queue == [] && d.dead == {}
    ensures g in d.groups && d.groups[g] == [1017, 1018] && g in d.sent && d.sent[g] == 0
    ensures 1017 in d.items && d.items[1017] == NewItem(g, 0, false, ["a"])
    ensures 1018 in d.items && d.items[1018] == NewItem(g, 1, false, ["a"])
  {
    hide Ok;
    d := new Matcher();
    g := d.CreateGroup([["a"], ["a"]], false, [915, 0]);
    assert SidAt(102, [915, 0], 1) == 1018;
    assert d.groups[g] == [1017, 1018];
  }

  /** A read of two equal templates, which draws ids 1017 and 1018: the set lists
      them by buckets 508 and 0. */
  method ReadOfTwo() returns (d: Matcher, g: nat)
    ensures fresh(d) && d.Valid() && g in d.groups && g !in d.dead && PairFiled(d.View(), g)
  {
    hide Ok, Hash, Insert, Drawn;
    d, g := PairCreated();
    FileNext(d, g, "a");
    FileNext(d, g, "a");
    InsertPair();
  }

  lemma InsertPair()
    ensures Insert([], 1017) == [1017] && Insert([1017], 1018) == [1018, 1017]
  {
  }

  ghost predicate PairFiled(s: State, g: nat) {
    Hash("a") in s.table && s.table[Hash("a")] == [1018, 1017] && 1017 in s.items && 1018 in s.items &&
    s.items[1017].templ == ["a"] && s.items[1017].keyIdx == 0 && s.items[1017].gid == g && s.items[1017].pos == 0 &&
    s.items[1018].templ == ["a"] && s.items[1018].keyIdx == 0 && s.items[1018].gid == g &&
    !s.items[1017].consume && !s.items[1018].consume
  }

  lemma PairIsReachedTwice(s: State, g: nat)
    requires PairFiled(s, g)
    ensures ReachedTwice(s, ["a"], 0, 0, 1, g)
  {
    assert MetBy(s, ["a"], 0, 0, g);
    forall b: nat, r: nat ensures !Consumer(s, ["a"], b, r) {}
    assert ReachedBy(s, ["a"], 0, 1, g);
  }

  /** The one matching write then runs the read's handler twice. */
  method ReadFiresTwice() returns (d: Matcher, g: nat)
    ensures fresh(d) && Ok(d.View()) && multiset(d.fired)[g] == 2
  {
    hide Ok, Progress, ReachedTwice, ReachedBy, PairFiled;
    d, g := ReadOfTwo();
    ghost var s := d.View();
    PairIsReachedTwice(s, g);
    var stopped := d.Process(["a"]);
    assert Swept(s, d.View(), ["a"], 1, g);
  }

  // ----- a write of another field with the same hash -----

  /** The only template filed is item `x` of group `g`, of the one field `w`. */
  ghost predicate OneFiled(s: State, g: nat, x: Sid, w: string) {
    s.table == map[Hash(w) := [x]] && x in s.items && s.items[x].gid == g && s.items[x].pos == 0 &&
    s.items[x].templ == [w] && s.items[x].keyIdx == 0 && s.groups.Keys == {g} && g !in s.dead && s.fired == []
  }

  lemma OneFieldMet(s: State, g: nat, x: Sid, w: string, v: string, at: nat, q: nat)
    requires OneFiled(s, g, x, w)
    ensures Met(s, [v], at, q) <==> at == 0 && q == 0 && Hash(v) == Hash(w)
  {
    hide Hash;
  }

  lemma OneFieldSwept(s: State, s': State, g: nat, x: Sid, w: string, v: string)
    requires Ok(s) && Ok(s') && OneFiled(s, g, x, w) && Progress(s, s') && Outcome(s, s', [v])
    ensures s'.fired == if Hash(v) == Hash(w) then [g] else []
  {
    hide Hash, Ok;
    forall at: nat, q: nat ensures Met(s, [v], at, q) <==> at == 0 && q == 0 && Hash(v) == Hash(w) {
      OneFieldMet(s, g, x, w, v, at, q);
    }
    hide Met, Progress;
    assert Swept(s, s', [v], 1, g);
    if Hash(v) == Hash(w) {
      assert ReachedBy(s, [v], 0, 0, g);
    }
    forall at: nat, i: nat, j: nat ensures !ReachedTwice(s, [v], at, i, j, g) {}
    OnlyGroup(s, s', g);
    AllOf(s'.fired, g);
  }

  lemma OnlyGroup(s: State, s': State, g: nat)
    requires Ok(s') && Progress(s, s') && s.groups.Keys == {g}
    ensures forall h :: h in s'.fired ==> h == g
    ensures multiset(s'.fired)[g] <= 2 && (multiset(s'.fired)[g] == 0 <==> g !in s'.fired)
  {
    GroupFiresAtMostTwice(s', g);
  }

  lemma {:induction false} AllOf(fired: seq<nat>, g: nat)
    requires forall h :: h in fired ==> h == g
    ensures |fired| == multiset(fired)[g] && (fired != [] ==> fired[0] == g)
    decreases |fired|
  {
    if fired != [] {
      assert fired[0] in fired;
      forall h | h in fired[1..] ensures h == g { assert h in fired; }
      AllOf(fired[1..], g);
      assert fired == [fired[0]] + fired[1..];
      assert multiset(fired) == multiset{fired[0]} + multiset(fired[1..]);
    }
  }

  /** A get waits for the one field `w`, and `v` is written: the get is woken if and only
      if the two fields have the same hash. */
  method WriteForOne(w: string, v: string, consume: bool) returns (d: Matcher, g: nat)
    requires w != WILDCARD
    ensures fresh(d) && Ok(d.View()) && d.fired == if Hash(v) == Hash(w) then [g] else []
  {
    hide Ok, Progress, Outcome, Hash, Insert;
    d := new Matcher();
    g := d.CreateGroup([[w]], consume, [0]);
    FileNext(d, g, w);
    InsertFirst(d.groups[g][0]);
    ghost var s := d.View();
    assert OneFiled(s, g, d.groups[g][0], w);
    var stopped := d.Process([v]);
    OneFieldSwept(s, d.View(), g, s.groups[g][0], w, v);
  }

  lemma InsertFirst(x: Sid)
    ensures Insert([], x) == [x]
  {
  }

  lemma HashesOfThree()
    ensures Hash("abc") == 92058 && Hash("axy") == 94874 && Hash("a") == 97 && Hash("eovm") == 97
  {
    hide *;
    HashLaw([], 'a');
    HashLaw(['a'], 'b');
    HashLaw(['a', 'b'], 'c');
    HashLaw(['a'], 'x');
    HashLaw(['a', 'x'], 'y');
    HashLaw([], 'e');
    HashLaw(['e'], 'o');
    HashLaw(['e', 'o'], 'v');
    HashLaw(['e', 'o', 'v'], 'm');
    assert [] + ['a'] == ['a'] && [] + ['e'] == ['e'];
    assert ['a'] + ['b'] == ['a', 'b'] && ['a', 'b'] + ['c'] == "abc";
    assert ['a'] + ['x'] == ['a', 'x'] && ['a', 'x'] + ['y'] == "axy";
    assert ['e'] + ['o'] == ['e', 'o'] && ['e', 'o'] + ['v'] == ['e', 'o', 'v'] && ['e', 'o', 'v'] + ['m'] == "eovm";
  }

  /** A write of "axy" passes a get that waits for "abc"; one of "eovm" wakes, and a take
      swallows it, a get that waits for "a". */
  method SameHashWakes() returns (other: Matcher, same: Matcher, g: nat)
    ensures fresh(other) && other.fired == [] && fresh(same) && same.fired == [g]
  {
    hide Hash, Ok;
    HashesOfThree();
    var passed;
    other, passed := WriteForOne("abc", "axy", true);
    same, g := WriteForOne("a", "eovm", true);
  }

  // ----- events that wake nobody -----

  ghost predicate LiveMet(s: State, fields: seq<string>, at: nat, q: nat) {
    Met(s, fields, at, q) && s.items[Entry(s, fields, at, q)].gid !in s.dead
  }

  /** The first consuming match is a leftover: filed after its group was removed, it
      has no handler, yet it stops the scan before any live match. */
  ghost predicate Swallowed(s: State, fields: seq<string>) {
    exists b: nat, r: nat :: Consumer(s, fields, b, r) && Reached(s, fields, b, r) && Leftover(s, fields, b, r) &&
      forall at: nat, q: nat :: LiveMet(s, fields, at, q) ==> Sooner(b, r, at, q)
  }

  ghost predicate Leftover(s: State, fields: seq<string>, at: nat, q: nat) {
    Met(s, fields, at, q) && s.items[Entry(s, fields, at, q)].gid in s.dead
  }

  lemma FirstConsumer(s: State, fields: seq<string>, b: nat, r: nat) returns (b': nat, r': nat)
    requires Consumer(s, fields, b, r)
    ensures Consumer(s, fields, b', r') && Reached(s, fields, b', r') && !Sooner(b, r, b', r')
    decreases b, r
  {
    if c: nat, q: nat :| Consumer(s, fields, c, q) && Sooner(c, q, b, r) {
      b', r' := FirstConsumer(s, fields, c, q);
    } else {
      b', r' := b, r;
    }
  }

  /** No live match is reached if and only if there is none, or a leftover comes first. */
  lemma NoneReachedIff(s: State, fields: seq<string>)
    ensures (forall at: nat, q: nat :: LiveMet(s, fields, at, q) ==> !Reached(s, fields, at, q)) <==>
            (forall at: nat, q: nat :: !LiveMet(s, fields, at, q)) || Swallowed(s, fields)
  {
    if at: nat, q: nat :| LiveMet(s, fields, at, q) {
      if forall at: nat, q: nat :: LiveMet(s, fields, at, q) ==> !Reached(s, fields, at, q) {
        var c: nat, p: nat :| Consumer(s, fields, c, p) && Sooner(c, p, at, q);
        var b, r := FirstConsumer(s, fields, c, p);
        assert Leftover(s, fields, b, r);
        forall a: nat, k: nat | LiveMet(s, fields, a, k) ensures Sooner(b, r, a, k) {
          var d: nat, l: nat :| Consumer(s, fields, d, l) && Sooner(d, l, a, k);
          assert !Sooner(d, l, b, r);
        }
        assert Swallowed(s, fields);
      }
    }
  }

  /** An event wakes nobody if and only if no live template matches, or a leftover of
      a removed group swallows it. */
  lemma WakesNobodyIff(s: State, s': State, fields: seq<string>)
    requires Ok(s) && Ok(s') && Progress(s, s') && Outcome(s, s', fields)
    ensures s'.fired == s.fired <==> (forall at: nat, q: nat :: !LiveMet(s, fields, at, q)) || Swallowed(s, fields)
  {
    NoneReachedIff(s, fields);
    if at: nat, q: nat :| LiveMet(s, fields, at, q) && Reached(s, fields, at, q) {
      var g := s.items[Entry(s, fields, at, q)].gid;
      ReachedFires(s, s', fields, at, q, g);
    } else {
      NothingFires(s, s', fields);
    }
  }

  lemma ReachedFires(s: State, s': State, fields: seq<string>, at: nat, q: nat, g: nat)
    requires Ok(s) && Ok(s') && Progress(s, s') && Outcome(s, s', fields) && ReachedBy(s, fields, at, q, g) &&
             g !in s.dead
    ensures g in s'.fired[|s.fired|..] && s'.fired != s.fired
  {
    assert IsMember(s, Entry(s, fields, at, q));
    assert Swept(s, s', fields, |fields|, g);
    assert at < |fields|;
  }

  lemma NothingFires(s: State, s': State, fields: seq<string>)
    requires Ok(s) && Ok(s') && Progress(s, s') && Outcome(s, s', fields)
    requires forall at: nat, q: nat :: LiveMet(s, fields, at, q) ==> !Reached(s, fields, at, q)
    ensures s'.fired == s.fired
  {
    if |s'.fired| > |s.fired| {
      var g := s'.fired[|s.fired|];
      assert g in s'.fired && g in s.groups;
      FiredMeansReached(s, s', fields, g);
      hide Ok, Progress, Swept;
      LogCount(s.fired, s'.fired, g);
    }
  }

  lemma LogCount(a: seq<nat>, b: seq<nat>, g: nat)
    requires a <= b && |a| < |b| && b[|a|] == g
    ensures multiset(b)[g] > multiset(a)[g]
  {
    assert b == a + b[|a|..] && g in b[|a|..];
    assert multiset(b) == multiset(a) + multiset(b[|a|..]);
  }

  /** A group that has fired since was live, and one of its matches reached. */
  lemma FiredMeansReached(s: State, s': State, fields: seq<string>, g: nat)
    requires Ok(s) && Outcome(s, s', fields) && g in s.groups
    ensures multiset(s'.fired)[g] > multiset(s.fired)[g] ==>
              g !in s.dead && g in s'.dead && exists at: nat, q: nat :: ReachedBy(s, fields, at, q, g)
  {
    assert Swept(s, s', fields, |fields|, g) && MembersOk(s, g) && LifeOk(s, g);
    if at: nat, q: nat :| at < |fields| && ReachedBy(s, fields, at, q, g) {}
  }

  method TakeCreated() returns (d: Matcher)
    ensures fresh(d) && d.Valid() && d.nextSid == 104 && d.table == map[] && d.queue == [] && d.dead == {}
    ensures d.groups == map[101 := [102, 103]] && d.sent == map[101 := 0]
    ensures 102 in d.items && d.items[102] == NewItem(101, 0, true, ["a"])
    ensures 103 in d.items && d.items[103] == NewItem(101, 1, true, ["b"])
  {
    hide Ok;
    d := new Matcher();
    var take := d.CreateGroup([["a"], ["b"]], true, [0, 0]);
    assert SidAt(102, [0, 0], 1) == 103 && SidAt(102, [0, 0], 2) == 104;
    assert d.groups[take] == [102, 103];
  }

  /** A take of two templates: both are queued, the first is filed. */
  method TakeOfTwo() returns (d: Matcher)
    ensures fresh(d) && d.Valid() && d.nextSid == 104 && d.queue == [103] && d.dead == {}
    ensures d.table == map[Hash("a") := [102]] && d.groups == map[101 := [102, 103]]
    ensures 102 in d.items && d.items[102].gid == 101 && d.items[102].templ == ["a"] && d.items[102].keyIdx == 0
    ensures 103 in d.items && d.items[103] == NewItem(101, 1, true, ["b"]).(linked := true)
  {
    hide Ok, Hash, Drawn;
    d := TakeCreated();
    d.SendNext(101);
    d.SendNext(101);
    assert d.queue == [102, 103];
    FileQueued(d, "a");
    assert Insert([], 102) == [102];
  }

  /** The take is answered before its second template is filed. */
  method TakeAnsweredEarly() returns (d: Matcher)
    ensures fresh(d) && d.Valid() && d.nextSid == 104 && d.queue == [103] && Hash("b") !in d.table
    ensures 101 in d.dead && 103 in d.items && d.items[103].gid == 101 && d.items[103].consume
    ensures d.items[103].templ == ["b"]
  {
    hide Ok, Progress, Outcome, Hash;
    d := TakeOfTwo();
    ghost var s := d.View();
    var stopped := d.Process(["a"]);
    HashOfLetter('a');
    HashOfLetter('b');
    AnsweredEarly(s, d.View(), 101);
  }

  lemma OnlyOneReached(s: State, take: nat)
    requires s.table == map[Hash("a") := [102]]
    requires 102 in s.items && s.items[102].gid == take && s.items[102].templ == ["a"] && s.items[102].keyIdx == 0
    ensures ReachedBy(s, ["a"], 0, 0, take)
  {
    hide Hash;
    assert Met(s, ["a"], 0, 0);
    forall b: nat, r: nat ensures Consumer(s, ["a"], b, r) ==> !Sooner(b, r, 0, 0) {}
  }

  lemma AnsweredEarly(s: State, s': State, take: nat)
    requires Ok(s) && Progress(s, s') && Outcome(s, s', ["a"]) && s.table == map[Hash("a") := [102]] &&
             Hash("a") != Hash("b")
    requires take in s.groups && take !in s.dead && 102 in s.items && s.items[102].gid == take
    requires s.items[102].templ == ["a"] && s.items[102].keyIdx == 0 && 103 in s.items
    ensures take in s'.dead && Hash("b") !in s'.table && s'.items.Keys == s.items.Keys && s'.groups == s.groups
    ensures s'.queue == s.queue && s'.sent == s.sent && SameTemplate(s.items[103], s'.items[103])
  {
    hide Hash, Ok;
    OnlyOneReached(s, take);
    assert Swept(s, s', ["a"], 1, take);
    hide Swept, ReachedBy;
    var gone :| Minus(s.table, s'.table, gone);
    assert MinusAt(s.table, s'.table, gone, Hash("b"));
  }

  /** The leftover case arises: once filed, that second template keeps a write from
      the read that waits for it. */
  method LeftoverSwallowsWrite() returns (d: Matcher, reader: Sid, ghost before: State)
    ensures fresh(d) && Ok(before) && Ok(d.View())
    ensures InTable(before.table, reader) && reader in before.items && before.items[reader].gid !in before.dead
    ensures PropIndex.TupleMatches(before.items[reader].templ, ["b"]) && Found(before, reader, ["b"])
    ensures Swallowed(before, ["b"]) && d.fired == before.fired && Outcome(before, d.View(), ["b"])
  {
    hide Ok, Progress, Hash, Swallowed, Found, Outcome;
    d := TakeAnsweredEarly();
    FileQueued(d, "b");
    FileReader(d);
    reader, before := 105, d.View();
    SecondIsSwallowed(before, 103, 105);
    var stopped := d.Process(["b"]);
    WakesNobodyIff(before, d.View(), ["b"]);
  }

  /** A read of one template is registered behind the leftover. */
  method FileReader(d: Matcher)
    requires d.Valid() && d.nextSid == 104 && d.queue == [] && Hash("b") in d.table &&
             d.table[Hash("b")] == Insert([], 103)
    requires 103 in d.items
    modifies d
    ensures d.Valid() && Hash("b") in d.table && d.table[Hash("b")] == [103, 105] && d.dead == old(d.dead)
    ensures 103 in d.items && d.items[103] == old(d.items)[103]
    ensures 105 in d.items && d.items[105].templ == ["b"] && d.items[105].keyIdx == 0 && d.items[105].gid !in d.dead
  {
    hide Ok, Hash, Insert;
    FreshIsLive(d.View(), d.nextSid);
    var g := d.CreateGroup([["b"]], false, [0]);
    assert d.groups[g] == [105] && d.items[105] == NewItem(g, 0, false, ["b"]);
    FileNext(d, g, "b");
    InsertBehind();
  }

  lemma FreshIsLive(s: State, next: Sid)
    requires Ok(s) && Drawn(s, next)
    ensures next !in s.dead
  {
  }

  lemma InsertBehind()
    ensures Insert([], 103) == [103] && Insert([103], 105) == [103, 105]
  {
    assert [103][1..] == [];
    assert Insert([103], 105) == [103] + Insert([], 105);
  }

  lemma SecondIsSwallowed(s: State, x: Sid, y: Sid)
    requires Hash("b") in s.table && s.table[Hash("b")] == [x, y] && x in s.items && y in s.items
    requires s.items[x].templ == ["b"] && s.items[x].keyIdx == 0 && s.items[x].consume && s.items[x].gid in s.dead
    requires s.items[y].templ == ["b"] && s.items[y].keyIdx == 0
    ensures Swallowed(s, ["b"]) && Found(s, y, ["b"]) && InTable(s.table, y)
  {
    assert Consumer(s, ["b"], 0, 0) && Leftover(s, ["b"], 0, 0) && Met(s, ["b"], 0, 1);
    assert Reached(s, ["b"], 0, 0);
    assert y in s.table[Hash("b")];
  }

  // ----- no waiter is missed -----

  /** Some place of the scan finds template `x`. */
  ghost predicate Found(s: State, x: Sid, fields: seq<string>) {
    exists at: nat, q: nat :: Met(s, fields, at, q) && Entry(s, fields, at, q) == x
  }

  lemma TupleIsPlaced(templ: seq<string>, fields: seq<string>)
    requires PropIndex.TupleMatches(templ, fields)
    ensures Placed(templ, fields, seq(|templ|, i => i))
  {
  }

  predicate Elsewhere(a: seq<string>, k: nat, v: string) {
    exists j :: 0 <= j < |a| && j != k && a[j] == v
  }

  predicate Repeats(a: seq<string>, v: string) {
    exists i, j :: 0 <= i < j < |a| && a[i] == v && a[j] == v
  }

  /** When the scan finds a map template that the store matches and that is filed
      under its field `k`: that field stands once in the template or more than once
      in the object; or another field of the object has the same hash, and is no
      field of the template or stands more than once in the object. */
  predicate MapFindable(templ: seq<string>, k: nat, fields: seq<string>)
    requires k < |templ|
  {
    (Elsewhere(templ, k, templ[k]) ==> Repeats(fields, templ[k])) ||
    exists at :: 0 <= at < |fields| && fields[at] != templ[k] && Hash(fields[at]) == Hash(templ[k]) &&
                 (fields[at] in templ ==> Repeats(fields, fields[at]))
  }

  lemma FieldOccurs(templ: seq<string>, fields: seq<string>, j: nat)
    requires PropIndex.MapMatches(templ, fields) && |templ| % 2 == 0 && j < |templ|
    ensures templ[j] != WILDCARD && templ[j] in fields
  {
    var i := j / 2;
    assert PropIndex.HasPair(fields, templ[2*i], templ[2*i+1]);
    var p :| 0 <= p < |fields| / 2 && fields[2*p] == templ[2*i] && fields[2*p+1] == templ[2*i+1];
    assert fields[2*p] in fields && fields[2*p+1] in fields;
    assert j == 2*i || j == 2*i+1;
  }

  /** The scan's test at one place: all that can be missing is a second copy of
      the field that led there. */
  lemma MapTestIff(templ: seq<string>, k: nat, fields: seq<string>, at: nat)
    requires PropIndex.MapMatches(templ, fields) && |templ| % 2 == 0 && k < |templ| && at < |fields|
    ensures MatchesAt(templ, k, fields, at) <==> (Elsewhere(templ, k, fields[at]) ==> Repeats(fields, fields[at]))
  {
    var v := fields[at];
    forall j | 0 <= j < |templ| && j != k
      ensures FieldMatches(templ[j], fields, at) <==> (templ[j] == v ==> Repeats(fields, v))
    {
      FieldOccurs(templ, fields, j);
      var p :| 0 <= p < |fields| && fields[p] == templ[j];
      if templ[j] != v {
        assert MatchesField(templ[j], fields, at, p);
      } else if Repeats(fields, v) {
        var i, l :| 0 <= i < l < |fields| && fields[i] == v && fields[l] == v;
        assert MatchesField(templ[j], fields, at, if i == at then l else i);
      }
    }
  }

  /** A filed template that the store matches to the written object is found by the
      scan if and only if it is a tuple, or `MapFindable` holds. */
  lemma StoreMatchIsFound(s: State, x: Sid, isTuple: bool, fields: seq<string>)
    requires Ok(s) && InTable(s.table, x) && x in s.items && s.items[x].keyIdx < |s.items[x].templ|
    requires if isTuple then PropIndex.TupleMatches(s.items[x].templ, fields)
             else PropIndex.MapMatches(s.items[x].templ, fields) && |s.items[x].templ| % 2 == 0
    ensures Found(s, x, fields) <==> isTuple || MapFindable(s.items[x].templ, s.items[x].keyIdx, fields)
  {
    var templ, k := s.items[x].templ, s.items[x].keyIdx;
    var h :| h in s.table && x in s.table[h];
    assert ItemAt(s, h, x);
    var q :| 0 <= q < |s.table[h]| && s.table[h][q] == x;
    if isTuple {
      TupleIsPlaced(templ, fields);
      PlacedMatches(templ, fields, seq(|templ|, i => i), k);
      assert Met(s, fields, k, q);
    } else {
      MapFoundIff(templ, k, fields);
      if at :| 0 <= at < |fields| && FindsAt(templ, k, fields, at) {
        assert Met(s, fields, at, q);
      }
      if at: nat, r: nat :| Met(s, fields, at, r) && Entry(s, fields, at, r) == x {
        assert x in s.table[Hash(fields[at])] && ItemAt(s, Hash(fields[at]), x);
        assert FindsAt(templ, k, fields, at);
      }
    }
  }

  predicate FindsAt(templ: seq<string>, k: nat, fields: seq<string>, at: nat)
    requires k < |templ| && at < |fields|
  {
    Hash(fields[at]) == Hash(templ[k]) && MatchesAt(templ, k, fields, at)
  }

  lemma MapFoundIff(templ: seq<string>, k: nat, fields: seq<string>)
    requires PropIndex.MapMatches(templ, fields) && |templ| % 2 == 0 && k < |templ|
    ensures (exists at :: 0 <= at < |fields| && FindsAt(templ, k, fields, at)) <==> MapFindable(templ, k, fields)
  {
    FieldOccurs(templ, fields, k);
    var w :| 0 <= w < |fields| && fields[w] == templ[k];
    MapTestIff(templ, k, fields, w);
    forall at | 0 <= at < |fields| && Hash(fields[at]) == Hash(templ[k])
      ensures FindsAt(templ, k, fields, at) <==> (Elsewhere(templ, k, fields[at]) ==> Repeats(fields, fields[at]))
      ensures fields[at] != templ[k] ==> (Elsewhere(templ, k, fields[at]) <==> fields[at] in templ)
    {
      MapTestIff(templ, k, fields, at);
    }
    assert FindsAt(templ, k, fields, w) <==> (Elsewhere(templ, k, templ[k]) ==> Repeats(fields, templ[k]));
  }

  predicate PairsDistinct(templ: seq<string>) {
    forall i, j :: 0 <= i < j < |templ| / 2 ==> templ[2*i] != templ[2*j] || templ[2*i+1] != templ[2*j+1]
  }

  /** A template without a repeated pair is always found. */
  lemma DistinctPairsAreFound(templ: seq<string>, k: nat, fields: seq<string>)
    requires PropIndex.MapMatches(templ, fields) && |templ| % 2 == 0 && k < |templ| && PairsDistinct(templ)
    ensures MapFindable(templ, k, fields)
  {
    var v := templ[k];
    if j :| 0 <= j < |templ| && j != k && templ[j] == v {
      var p := PairPlace(templ, fields, k / 2);
      var q := PairPlace(templ, fields, j / 2);
      var a, b := 2 * p + k % 2, 2 * q + j % 2;
      assert k == 2 * (k / 2) + k % 2 && j == 2 * (j / 2) + j % 2;
      assert fields[a] == v && fields[b] == v;
      if k / 2 != j / 2 {
        assert p != q;
      }
      assert a != b;
    }
  }

  /** Where the object has pair `i` of the template. */
  lemma PairPlace(templ: seq<string>, fields: seq<string>, i: nat) returns (p: nat)
    requires PropIndex.MapMatches(templ, fields) && i < |templ| / 2
    ensures p < |fields| / 2 && fields[2*p] == templ[2*i] && fields[2*p+1] == templ[2*i+1]
  {
    assert PropIndex.HasPair(fields, templ[2*i], templ[2*i+1]);
    p :| 0 <= p < |fields| / 2 && fields[2*p] == templ[2*i] && fields[2*p+1] == templ[2*i+1];
  }

  /** One that repeats a pair may be missed however it is filed, or be found when
      it is filed under another field. */
  lemma RepeatedPairs()
    ensures var templ, fields := ["a", "b", "a", "b"], ["a", "b"];
            PropIndex.MapMatches(templ, fields) && forall k :: 0 <= k < |templ| ==> !MapFindable(templ, k, fields)
    ensures var templ, fields := ["a", "b", "a", "b", "c", "d"], ["a", "b", "c", "d"];
            PropIndex.MapMatches(templ, fields) && !PairsDistinct(templ) && MapFindable(templ, 4, fields)
  {
    RepeatedPairIsMissed();
    RepeatedPairIsFound();
  }

  lemma RepeatedPairIsMissed()
    ensures var templ, fields := ["a", "b", "a", "b"], ["a", "b"];
            PropIndex.MapMatches(templ, fields) && forall k :: 0 <= k < |templ| ==> !MapFindable(templ, k, fields)
  {
    var t, ab := ["a", "b", "a", "b"], ["a", "b"];
    assert ab[2*0] == "a" && ab[2*0+1] == "b" && PropIndex.HasPair(ab, "a", "b");
    HashOfLetter('a');
    HashOfLetter('b');
    hide Hash;
    forall k | 0 <= k < |t| ensures !MapFindable(t, k, ab) {
      assert t[(k + 2) % 4] == t[k];
      assert Elsewhere(t, k, t[k]) && !Repeats(ab, t[k]);
    }
  }

  lemma RepeatedPairIsFound()
    ensures var templ, fields := ["a", "b", "a", "b", "c", "d"], ["a", "b", "c", "d"];
            PropIndex.MapMatches(templ, fields) && !PairsDistinct(templ) && MapFindable(templ, 4, fields)
  {
    hide Hash;
    var u, abcd := ["a", "b", "a", "b", "c", "d"], ["a", "b", "c", "d"];
    assert abcd[2*0] == "a" && abcd[2*0+1] == "b" && PropIndex.HasPair(abcd, "a", "b");
    assert abcd[2*1] == "c" && abcd[2*1+1] == "d" && PropIndex.HasPair(abcd, "c", "d");
    assert u[2*0] == u[2*1] && u[2*0+1] == u[2*1+1];
    assert !Elsewhere(u, 4, "c");
  }

  lemma HashOfLetter(c: char)
    requires c as int < 99000
    ensures Hash([c]) == c as int
  {
    assert [c][1..] == [] && (127 * 0 + c as int) % 99000 == c as int;
    assert HashFrom(c as int, []) == c as int;
  }
}

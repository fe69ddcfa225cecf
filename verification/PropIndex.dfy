/**
 The attribute index: the key strings that `_set_props` derives from a record
 and that a query derives from a template, and when the join over them agrees
 with comparing record and template directly.
 */
module PropIndex {
  import opened Space
  import opened Decimal

  const SEP := "~+"

  /** `s` has no "~+" in it. */
  predicate NoSep(s: string) {
    forall i :: 0 <= i < |s| - 1 ==> !(s[i] == '~' && s[i + 1] == '+')
  }

  predicate NoSeps(attrs: seq<string>) {
    forall i :: 0 <= i < |attrs| ==> NoSep(attrs[i])
  }

  function MapKey(k: string, v: string): (r: string) { k + SEP + v }

  function TupleKey(a: string, pos: nat, size: nat): (r: string) {
    a + SEP + Numeral(pos) + SEP + Numeral(size)
  }

  /** The keys `_set_tuple_props` and `_set_map_props` file a record under. */
  function RecordKeys(isTuple: bool, attrs: seq<string>): (r: set<string>) {
    if isTuple then set i | 0 <= i < |attrs| && attrs[i] != WILDCARD :: TupleKey(attrs[i], i, |attrs|)
    else set i | 0 <= i < |attrs| / 2 && attrs[2*i] != WILDCARD && attrs[2*i+1] != WILDCARD ::
           MapKey(attrs[2*i], attrs[2*i+1])
  }

  /** The keys a query looks up; only tuple templates know a wildcard. */
  function TemplateKeys(isTuple: bool, t: seq<string>): (r: set<string>) {
    if isTuple then set i | 0 <= i < |t| && t[i] != WILDCARD :: TupleKey(t[i], i, |t|)
    else set i | 0 <= i < |t| / 2 :: MapKey(t[2*i], t[2*i+1])
  }

  // ----- naive matching -----

  predicate TupleMatches(t: seq<string>, attrs: seq<string>) {
    |attrs| == |t| && forall i :: 0 <= i < |t| ==> t[i] == WILDCARD || attrs[i] == t[i]
  }

  predicate HasPair(attrs: seq<string>, k: string, v: string) {
    exists j :: 0 <= j < |attrs| / 2 && attrs[2*j] == k && attrs[2*j+1] == v
  }

  predicate MapMatches(t: seq<string>, attrs: seq<string>) {
    forall i :: 0 <= i < |t| / 2 ==> t[2*i] != WILDCARD && t[2*i+1] != WILDCARD && HasPair(attrs, t[2*i], t[2*i+1])
  }

  predicate Matches(isTuple: bool, t: seq<string>, h: Holder) {
    h.isTuple == isTuple && if isTuple then TupleMatches(t, h.data.attrs) else MapMatches(t, h.data.attrs)
  }

  // ----- when keys identify what they were made from -----

  lemma OnlySep(k: string, v: string, p: nat)
    requires NoSep(k) && NoSep(v) && p != |k| && p + 1 < |MapKey(k, v)|
    ensures !(MapKey(k, v)[p] == '~' && MapKey(k, v)[p + 1] == '+')
  {
    var s := MapKey(k, v);
    if p + 1 < |k| {
      assert s[p] == k[p] && s[p + 1] == k[p + 1];
    } else if p >= |k| + 2 {
      assert s[p] == v[p - |k| - 2] && s[p + 1] == v[p - |k| - 1];
    }
  }

  lemma SplitAgrees(k: string, v: string, k': string, v': string)
    requires NoSep(k) && NoSep(v) && MapKey(k, v) == MapKey(k', v')
    ensures k == k' && v == v'
  {
    var s := MapKey(k', v');
    assert s[|k'|] == '~' && s[|k'| + 1] == '+';
    if |k'| != |k| {
      OnlySep(k, v, |k'|);
      assert false;
    }
    assert k == s[..|k|] == k';
    assert v == s[|k| + 2..] == v';
  }

  lemma SplitAt(s: string) returns (x: string, y: string)
    requires !NoSep(s)
    ensures s == x + SEP + y
  {
    var i :| 0 <= i < |s| - 1 && s[i] == '~' && s[i + 1] == '+';
    x, y := s[..i], s[i + 2..];
  }

  ghost predicate KeyIdentifiesPair(k: string, v: string) {
    forall k', v' :: MapKey(k', v') == MapKey(k, v) ==> k' == k && v' == v
  }

  /** A map key identifies its pair exactly when neither half holds "~+". */
  lemma MapKeyIdentifies(k: string, v: string)
    ensures KeyIdentifiesPair(k, v) <==> NoSep(k) && NoSep(v)
  {
    if NoSep(k) && NoSep(v) {
      forall k', v' | MapKey(k', v') == MapKey(k, v) ensures k' == k && v' == v {
        SplitAgrees(k, v, k', v');
      }
    } else if !NoSep(k) {
      var x, y := SplitAt(k);
      assert MapKey(x, y + SEP + v) == MapKey(k, v);
    } else {
      var x, y := SplitAt(v);
      assert MapKey(k + SEP + x, y) == MapKey(k, v);
    }
  }

  /** A tuple key identifies field, position and size, whatever the field holds. */
  lemma TupleKeyIdentifies(a: string, i: nat, n: nat, a': string, i': nat, n': nat)
    requires TupleKey(a, i, n) == TupleKey(a', i', n')
    ensures a == a' && i == i' && n == n'
  {
    var u, u' := a + SEP + Numeral(i), a' + SEP + Numeral(i');
    LastSepAgrees(u, Numeral(n), u', Numeral(n'));
    LastSepAgrees(a, Numeral(i), a', Numeral(i'));
    NumeralInjective(i, i');
    NumeralInjective(n, n');
  }

  lemma LastSepBound(u: string, d: string, u': string, d': string)
    requires u + SEP + d == u' + SEP + d'
    requires forall i :: 0 <= i < |d| ==> IsDigit(d[i])
    ensures |u'| <= |u|
  {
    var s := u + SEP + d;
    forall p | |u| + 1 < p < |s| ensures s[p] != '+' {
      assert s[p] == d[p - |u| - 2];
    }
    assert (u' + SEP + d')[|u'| + 1] == '+';
  }

  lemma LastSepAgrees(u: string, d: string, u': string, d': string)
    requires u + SEP + d == u' + SEP + d'
    requires forall i :: 0 <= i < |d| ==> IsDigit(d[i])
    requires forall i :: 0 <= i < |d'| ==> IsDigit(d'[i])
    ensures u == u' && d == d'
  {
    LastSepBound(u, d, u', d');
    LastSepBound(u', d', u, d);
    var s := u + SEP + d;
    assert u == s[..|u|] == u';
    assert d == s[|u| + 2..] == d';
  }

  lemma TupleKeyIsNoPair(a: string, i: nat, n: nat, k: string, v: string)
    requires NoSep(k) && NoSep(v)
    ensures TupleKey(a, i, n) != MapKey(k, v)
  {
    var rest := Numeral(i) + SEP + Numeral(n);
    assert TupleKey(a, i, n) == MapKey(a, rest);
    assert rest[|Numeral(i)|] == '~' && rest[|Numeral(i)| + 1] == '+';
    assert !NoSep(rest);
    if TupleKey(a, i, n) == MapKey(k, v) {
      SplitAgrees(k, v, a, rest);
      assert false;
    }
  }

  // ----- the join agrees with naive matching -----

  /** The join takes record `h` for a match exactly when it is one. */
  ghost predicate JoinAgrees(isTuple: bool, t: seq<string>, h: Holder) {
    TemplateKeys(isTuple, t) <= RecordKeys(h.isTuple, h.data.attrs) <==> Matches(isTuple, t, h)
  }

  /** The attributes to keep "~+" out of: those of a map template, and those of a map
      that a tuple template is compared with. */
  predicate SafeKeys(isTuple: bool, t: seq<string>, h: Holder) {
    if isTuple then h.isTuple || NoSeps(h.data.attrs) else NoSeps(t)
  }

  lemma TupleKeyFound(t: seq<string>, h: Holder, i: nat)
    requires SafeKeys(true, t, h) && i < |t| && t[i] != WILDCARD
    ensures TupleKey(t[i], i, |t|) in RecordKeys(h.isTuple, h.data.attrs) <==>
            h.isTuple && |h.data.attrs| == |t| && h.data.attrs[i] == t[i]
  {
    var attrs := h.data.attrs;
    var key := TupleKey(t[i], i, |t|);
    if h.isTuple {
      forall j | 0 <= j < |attrs| && TupleKey(attrs[j], j, |attrs|) == key
        ensures j == i && |attrs| == |t| && attrs[j] == t[i]
      {
        TupleKeyIdentifies(attrs[j], j, |attrs|, t[i], i, |t|);
      }
    } else {
      forall j | 0 <= j < |attrs| / 2 ensures MapKey(attrs[2*j], attrs[2*j+1]) != key {
        TupleKeyIsNoPair(t[i], i, |t|, attrs[2*j], attrs[2*j+1]);
      }
    }
  }

  lemma TupleJoin(t: seq<string>, h: Holder)
    requires SafeKeys(true, t, h) && TemplateKeys(true, t) != {}
    ensures JoinAgrees(true, t, h)
  {
    var keys := RecordKeys(h.isTuple, h.data.attrs);
    forall i | 0 <= i < |t| && t[i] != WILDCARD
      ensures TupleKey(t[i], i, |t|) in keys <==> h.isTuple && |h.data.attrs| == |t| && h.data.attrs[i] == t[i]
    {
      TupleKeyFound(t, h, i);
    }
    hide TupleKey, RecordKeys;
    assert TemplateKeys(true, t) <= keys <==>
           forall i :: 0 <= i < |t| && t[i] != WILDCARD ==> TupleKey(t[i], i, |t|) in keys;
    assert exists i :: 0 <= i < |t| && t[i] != WILDCARD;
  }

  // ----- map templates: the ways a key can be cut in two -----

  /** Cutting `key` at a "~+" at `p` leaves two halves a record can be filed under. */
  predicate CutsAt(key: string, p: nat) {
    p + 2 <= |key| && key[p] == '~' && key[p + 1] == '+' && key[..p] != WILDCARD && key[p + 2..] != WILDCARD
  }

  /** Some record can carry the key of the pair. */
  predicate Carriable(k: string, v: string) { Cuttable(MapKey(k, v)) }

  predicate Cuttable(key: string) { exists p :: 0 <= p < |key| && CutsAt(key, p) }

  /** A record without the pair can carry its key. */
  predicate Ambiguous(k: string, v: string) {
    exists p :: 0 <= p < |MapKey(k, v)| && p != |k| && CutsAt(MapKey(k, v), p)
  }

  lemma CutIsPair(key: string, k: string, v: string)
    ensures key == MapKey(k, v) && k != WILDCARD && v != WILDCARD ==>
              |k| < |key| && CutsAt(key, |k|) && key[..|k|] == k && key[|k| + 2..] == v
  {
    if key == MapKey(k, v) {
      assert key[..|k|] == k && key[|k| + 2..] == v;
    }
  }

  lemma CutMakesKey(key: string, p: nat)
    requires CutsAt(key, p)
    ensures MapKey(key[..p], key[p + 2..]) == key
  {
  }

  lemma PlainIsUnambiguous(k: string, v: string)
    requires NoSep(k) && NoSep(v)
    ensures !Ambiguous(k, v)
  {
    forall p: nat | p < |MapKey(k, v)| && p != |k| ensures !CutsAt(MapKey(k, v), p) {
      if p + 1 < |MapKey(k, v)| {
        OnlySep(k, v, p);
      }
    }
  }

  /** A tuple key can be cut in two places, so a pair with such a key is ambiguous. */
  lemma TupleKeyIsAmbiguous(a: string, i: nat, n: nat, k: string, v: string)
    requires a != WILDCARD && TupleKey(a, i, n) == MapKey(k, v)
    ensures Ambiguous(k, v)
  {
    var key, u := MapKey(k, v), a + SEP + Numeral(i);
    var rest := Numeral(i) + SEP + Numeral(n);
    assert key == MapKey(a, rest) && key == MapKey(u, Numeral(n));
    assert |u| > 1 && |rest| > 1 && IsDigit(Numeral(n)[0]);
    CutIsPair(key, a, rest);
    CutIsPair(key, u, Numeral(n));
    assert |a| != |u|;
  }

  /** A key a record carries is that of one of its own pairs, unless it is ambiguous. */
  lemma CarriedIsPair(k: string, v: string, h: Holder)
    requires MapKey(k, v) in RecordKeys(h.isTuple, h.data.attrs)
    ensures Carriable(k, v)
    ensures !Ambiguous(k, v) ==> !h.isTuple && k != WILDCARD && v != WILDCARD && HasPair(h.data.attrs, k, v)
  {
    var attrs, key := h.data.attrs, MapKey(k, v);
    if h.isTuple {
      var i :| 0 <= i < |attrs| && attrs[i] != WILDCARD && TupleKey(attrs[i], i, |attrs|) == key;
      TupleKeyIsAmbiguous(attrs[i], i, |attrs|, k, v);
    } else {
      var j :| 0 <= j < |attrs| / 2 && attrs[2*j] != WILDCARD && attrs[2*j+1] != WILDCARD &&
               MapKey(attrs[2*j], attrs[2*j+1]) == key;
      var a, b := attrs[2*j], attrs[2*j+1];
      CutIsPair(key, a, b);
      assert key[..|k|] == k && key[|k| + 2..] == v;
    }
  }

  lemma PairIsCarried(k: string, v: string, h: Holder)
    requires !h.isTuple && k != WILDCARD && v != WILDCARD && HasPair(h.data.attrs, k, v)
    ensures MapKey(k, v) in RecordKeys(h.isTuple, h.data.attrs) && Carriable(k, v)
  {
    var j :| 0 <= j < |h.data.attrs| / 2 && h.data.attrs[2*j] == k && h.data.attrs[2*j+1] == v;
    CutIsPair(MapKey(k, v), k, v);
  }

  /** The keys of a map template, pair by pair. */
  lemma MapKeysHeld(t: seq<string>, keys: set<string>)
    ensures TemplateKeys(false, t) <= keys <==> forall i :: 0 <= i < |t| / 2 ==> MapKey(t[2*i], t[2*i+1]) in keys
  {
    hide MapKey;
    forall i | 0 <= i < |t| / 2 ensures MapKey(t[2*i], t[2*i+1]) in TemplateKeys(false, t) {}
  }

  /** A map with that pair, free of wildcards. */
  predicate Holds(h: Holder, k: string, v: string) {
    !h.isTuple && k != WILDCARD && v != WILDCARD && HasPair(h.data.attrs, k, v)
  }

  lemma CarriedIff(k: string, v: string, h: Holder)
    requires !Ambiguous(k, v)
    ensures MapKey(k, v) in RecordKeys(h.isTuple, h.data.attrs) <==> Holds(h, k, v)
  {
    if MapKey(k, v) in RecordKeys(h.isTuple, h.data.attrs) {
      CarriedIsPair(k, v, h);
    } else if Holds(h, k, v) {
      PairIsCarried(k, v, h);
    }
  }

  lemma MapJoin(t: seq<string>, h: Holder)
    requires |t| / 2 > 0 && forall i :: 0 <= i < |t| / 2 ==> !Ambiguous(t[2*i], t[2*i+1])
    ensures JoinAgrees(false, t, h)
  {
    hide MapKey, RecordKeys, TemplateKeys, Ambiguous, HasPair;
    var keys := RecordKeys(h.isTuple, h.data.attrs);
    forall i | 0 <= i < |t| / 2 ensures MapKey(t[2*i], t[2*i+1]) in keys <==> Holds(h, t[2*i], t[2*i+1]) {
      CarriedIff(t[2*i], t[2*i+1], h);
    }
    MapKeysHeld(t, keys);
    assert Holds(h, t[2*0], t[2*0+1]) ==> !h.isTuple;
  }

  /** A pair no record can carry: the join and the match are both empty. */
  lemma NothingCarries(t: seq<string>, i: nat, h: Holder)
    requires i < |t| / 2 && !Carriable(t[2*i], t[2*i+1])
    ensures JoinAgrees(false, t, h)
  {
    var keys := RecordKeys(h.isTuple, h.data.attrs);
    MapKeysHeld(t, keys);
    if MapKey(t[2*i], t[2*i+1]) in keys {
      CarriedIsPair(t[2*i], t[2*i+1], h);
    }
    if Matches(false, t, h) {
      PairIsCarried(t[2*i], t[2*i+1], h);
    }
  }

  /** Otherwise an ambiguous pair has a record that the join wrongly takes for a match. */
  lemma AmbiguousMisleads(t: seq<string>, i: nat) returns (h: Holder)
    requires i < |t| / 2 && Ambiguous(t[2*i], t[2*i+1])
    requires forall j :: 0 <= j < |t| / 2 ==> Carriable(t[2*j], t[2*j+1])
    ensures !JoinAgrees(false, t, h)
  {
    hide MapKey, CutsAt, Cuttable, JoinAgrees, Halves, PairMade;
    var keys := PairKeys(t);
    var p :| 0 <= p < |keys[i]| && p != |t[2*i]| && CutsAt(keys[i], p);
    forall j | 0 <= j < |keys| ensures Cuttable(keys[j]) {
      assert Carriable(t[2*j], t[2*j+1]);
    }
    var cuts := Cuts(keys, keys[i], p);
    var attrs := Halves(keys, cuts);
    h := Holder(Unlocked, false, 1, 0, FOREVER, DataObject(attrs, []));
    forall j | 0 <= j < |keys| ensures PairMade(attrs, keys, cuts, j) {
      HalvesAt(keys, cuts, j);
    }
    Misled(t, i, h, cuts);
  }

  function PairKeys(t: seq<string>): (keys: seq<string>)
    ensures |keys| == |t| / 2 && forall j :: 0 <= j < |keys| ==> keys[j] == MapKey(t[2*j], t[2*j+1])
  {
    seq(|t| / 2, j requires 0 <= j < |t| / 2 => MapKey(t[2*j], t[2*j+1]))
  }

  /** Pair `j` of `attrs` is key `j`, cut in two. */
  predicate PairMade(attrs: seq<string>, keys: seq<string>, cuts: seq<nat>, j: nat) {
    j < |keys| == |cuts| && |attrs| == 2 * |keys| &&
    var a, b := attrs[2*j], attrs[2*j+1];
    MapKey(a, b) == keys[j] && |a| == cuts[j] && a != WILDCARD && b != WILDCARD
  }

  function Half(key: string, p: nat, first: bool): (r: string) {
    if !CutsAt(key, p) then [] else if first then key[..p] else key[p + 2..]
  }

  /** The halves of all keys, in order. */
  function Halves(keys: seq<string>, cuts: seq<nat>): (r: seq<string>)
    requires |cuts| == |keys|
    ensures |r| == 2 * |keys|
  {
    seq(2 * |keys|, j requires 0 <= j < 2 * |keys| =>
      Half(keys[j / 2], cuts[j / 2], j % 2 == 0))
  }

  lemma HalvesAt(keys: seq<string>, cuts: seq<nat>, j: nat)
    requires |cuts| == |keys| && (forall j :: 0 <= j < |keys| ==> CutsAt(keys[j], cuts[j])) && j < |keys|
    ensures PairMade(Halves(keys, cuts), keys, cuts, j)
  {
    assert 2*j/2 == j && (2*j+1)/2 == j && CutsAt(keys[j], cuts[j]);
    CutMakesKey(keys[j], cuts[j]);
  }

  /** A place to cut each key, the same place for each key equal to `key`. */
  lemma Cuts(keys: seq<string>, key: string, p: nat) returns (cuts: seq<nat>)
    requires CutsAt(key, p) && forall j :: 0 <= j < |keys| ==> Cuttable(keys[j])
    ensures |cuts| == |keys|
    ensures forall j :: 0 <= j < |keys| ==> CutsAt(keys[j], cuts[j]) && (keys[j] == key ==> cuts[j] == p)
  {
    cuts := [];
    for n := 0 to |keys|
      invariant |cuts| == n && forall j :: 0 <= j < n ==> CutsAt(keys[j], cuts[j]) && (keys[j] == key ==> cuts[j] == p)
    {
      var q: nat :| q < |keys[n]| && CutsAt(keys[n], q);
      cuts := cuts + [if keys[n] == key then p else q];
    }
  }

  lemma Misled(t: seq<string>, i: nat, h: Holder, cuts: seq<nat>)
    requires i < |t| / 2 == |cuts| && !h.isTuple
    requires forall j :: 0 <= j < |cuts| ==> PairMade(h.data.attrs, PairKeys(t), cuts, j)
    requires forall j :: 0 <= j < |cuts| && PairKeys(t)[j] == PairKeys(t)[i] ==> cuts[j] != |t[2*i]|
    ensures !JoinAgrees(false, t, h)
  {
    var attrs, keys := h.data.attrs, PairKeys(t);
    assert PairMade(attrs, keys, cuts, i);
    forall j | 0 <= j < |keys| ensures keys[j] in RecordKeys(false, attrs) {
      assert PairMade(attrs, keys, cuts, j);
    }
    MapKeysHeld(t, RecordKeys(false, attrs));
    forall j | 0 <= j < |attrs| / 2 ensures attrs[2*j] != t[2*i] || attrs[2*j+1] != t[2*i+1] {
      assert PairMade(attrs, keys, cuts, j);
      if keys[j] == keys[i] {
        assert |attrs[2*j]| != |t[2*i]|;
      }
    }
    assert !HasPair(attrs, t[2*i], t[2*i+1]);
  }

  /** For a map template the join agrees with matching on every record if and only if
      none of its pairs is ambiguous, or one of them no record can carry. */
  lemma MapJoinAgreesIff(t: seq<string>)
    requires |t| / 2 > 0
    ensures (forall h :: JoinAgrees(false, t, h)) <==>
            (forall i :: 0 <= i < |t| / 2 ==> !Ambiguous(t[2*i], t[2*i+1])) ||
            (exists i :: 0 <= i < |t| / 2 && !Carriable(t[2*i], t[2*i+1]))
  {
    if i :| 0 <= i < |t| / 2 && !Carriable(t[2*i], t[2*i+1]) {
      forall h ensures JoinAgrees(false, t, h) { NothingCarries(t, i, h); }
    } else if i :| 0 <= i < |t| / 2 && Ambiguous(t[2*i], t[2*i+1]) {
      var h := AmbiguousMisleads(t, i);
    } else {
      forall h ensures JoinAgrees(false, t, h) { MapJoin(t, h); }
    }
  }

  /** A record carries every key of the template exactly when it matches. */
  lemma KeysAgreeWithMatching(isTuple: bool, t: seq<string>, h: Holder)
    requires SafeKeys(isTuple, t, h) && TemplateKeys(isTuple, t) != {}
    ensures TemplateKeys(isTuple, t) <= RecordKeys(h.isTuple, h.data.attrs) <==> Matches(isTuple, t, h)
  {
    if isTuple {
      TupleJoin(t, h);
    } else {
      forall i | 0 <= i < |t| / 2 ensures !Ambiguous(t[2*i], t[2*i+1]) {
        PlainIsUnambiguous(t[2*i], t[2*i+1]);
      }
      MapJoin(t, h);
    }
  }

  /** A tuple template, whatever it holds, has a map that the join wrongly takes for a match. */
  lemma TupleTemplatesMislead(t: seq<string>) returns (h: Holder)
    requires TemplateKeys(true, t) != {}
    ensures !JoinAgrees(true, t, h)
  {
    hide Place, TupleKey, MapKey;
    h := Holder(Unlocked, false, 1, 0, FOREVER, DataObject(WithPlaces(t), []));
    forall i | 0 <= i < |t| && t[i] != WILDCARD ensures TupleKey(t[i], i, |t|) in RecordKeys(false, h.data.attrs) {
      WithPlacesAt(t, i);
      PlaceKey(t[i], i, |t|);
    }
  }

  /** Each field paired with its place. */
  function WithPlaces(t: seq<string>): (r: seq<string>) {
    seq(2 * |t|, j requires 0 <= j < 2 * |t| => if j % 2 == 0 then t[j / 2] else Place(j / 2, |t|))
  }

  lemma WithPlacesAt(t: seq<string>, i: nat)
    requires i < |t|
    ensures WithPlaces(t)[2*i] == t[i] && WithPlaces(t)[2*i+1] == Place(i, |t|)
  {
    assert 2*i/2 == i && (2*i+1)/2 == i;
  }

  /** Position and size as a tuple key has them. */
  function Place(i: nat, n: nat): (r: string)
    ensures |r| > 1
  {
    Numeral(i) + SEP + Numeral(n)
  }

  lemma PlaceKey(a: string, i: nat, n: nat)
    ensures TupleKey(a, i, n) == MapKey(a, Place(i, n)) && Place(i, n) != WILDCARD
  {
  }

  /** Without that freedom the join goes wrong: two maps that share no pair
      answer to one key, and so do a map and a tuple. */
  lemma SeparatorBreaksMatching()
    ensures var t := ["a", "b~+c"];
            var h := Holder(Unlocked, false, 1, 0, FOREVER, DataObject(["a~+b", "c"], []));
            TemplateKeys(false, t) <= RecordKeys(h.isTuple, h.data.attrs) && !Matches(false, t, h)
    ensures var t := ["x", "_"];
            var h := Holder(Unlocked, false, 1, 0, FOREVER, DataObject(["x", "0~+2"], []));
            TemplateKeys(true, t) <= RecordKeys(h.isTuple, h.data.attrs) && !Matches(true, t, h)
  {
    var attrs := ["a~+b", "c"];
    assert MapKey(attrs[2*0], attrs[2*0+1]) == MapKey("a", "b~+c");
    assert MapKey("a", "b~+c") in RecordKeys(false, attrs);
    var attrs' := ["x", "0~+2"];
    assert Numeral(0) == "0" && Numeral(2) == "2";
    assert TupleKey("x", 0, 2) == MapKey(attrs'[2*0], attrs'[2*0+1]);
    assert MapKey("x", "0~+2") in RecordKeys(false, attrs');
    assert attrs[2*0] == "a~+b" && |attrs[0]| == 4 && |"a"| == 1;
  }
}

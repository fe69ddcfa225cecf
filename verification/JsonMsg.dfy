/**
 Put commands as JSON messages (corelib/json_msg_factory.c): what one side
 serializes, the other side creates again, attachment included.
 */
module JsonMsg {
  import opened CJson
  import Base64

  /** cid, tid and dur of 0 stand for "not given". */
  datatype PutMsg = PutMsg(cid: int, tid: int, dur: int, isTuple: bool, attrs: seq<string>, bytes: seq<bv8>)

  /** `Elsewhere` stands for the message kinds other than put. */
  datatype Created = Message(msg: PutMsg) | Refused(rc: int) | Elsewhere

  // ----- bytes in strings -----

  function ToChar(b: bv8): (c: char)
    ensures c as int < 256
  {
    b as int as char
  }

  function FromChar(c: char): (b: bv8) { if c as int < 256 then c as int as bv8 else 0 }

  lemma CharRoundTrip(b: bv8)
    ensures FromChar(ToChar(b)) == b
  {
  }

  function ToText(b: seq<bv8>): (s: string)
    ensures |s| == |b| && forall i :: 0 <= i < |b| ==> s[i] == ToChar(b[i])
  {
    seq(|b|, i requires 0 <= i < |b| => ToChar(b[i]))
  }

  function FromText(s: string): (b: seq<bv8>)
    ensures |b| == |s| && forall i :: 0 <= i < |b| ==> b[i] == FromChar(s[i])
  {
    seq(|s|, i requires 0 <= i < |s| => FromChar(s[i]))
  }

  lemma TextRoundTrip(b: seq<bv8>)
    ensures FromText(ToText(b)) == b
  {
    forall i | 0 <= i < |b| ensures FromChar(ToChar(b[i])) == b[i] { CharRoundTrip(b[i]); }
  }

  lemma EncodedIsClean(b: seq<bv8>)
    ensures Clean(ToText(Base64.Encoded(b)))
  {
    Base64.BodyRoundTrip(b);
    var s := Base64.Encoded(b);
    forall i | 0 <= i < |s| ensures !IsControl(ToChar(s[i])) {
      assert s[i] == Base64.PAD || Base64.IsAlphabet(s[i]);
      VisibleChar(s[i]);
    }
  }

  lemma VisibleChar(c: bv8)
    requires c == Base64.PAD || Base64.IsAlphabet(c)
    ensures !IsControl(ToChar(c))
  {
    assert c >= 43;
  }

  // ----- serialize -----

  function NumberField(name: string, n: int): (r: seq<Member>) {
    if n == 0 then [] else [Member(name, Number(n))]
  }

  function Strings(attrs: seq<string>): (r: seq<Json>)
    ensures |r| == |attrs| && forall i :: 0 <= i < |r| ==> r[i] == String(attrs[i])
  {
    seq(|attrs|, i requires 0 <= i < |attrs| => String(attrs[i]))
  }

  function Pairs(attrs: seq<string>): (r: seq<Member>)
    ensures |r| == |attrs| / 2 && forall i :: 0 <= i < |r| ==> r[i] == Member(attrs[2*i], String(attrs[2*i+1]))
  {
    seq(|attrs| / 2, i requires 0 <= i < |attrs| / 2 => Member(attrs[2*i], String(attrs[2*i+1])))
  }

  function BytesField(bytes: seq<bv8>): (r: seq<Member>) {
    if bytes == [] then [] else [Member("bytes", String(ToText(Base64.Encoded(bytes))))]
  }

  function ValuesField(m: PutMsg): (r: seq<Member>) {
    [Member("values", if m.isTuple then Array(Strings(m.attrs)) else Object(Pairs(m.attrs)))]
  }

  function Head(): (r: seq<Member>) { [Member("t", String("cmd")), Member("n", String("put"))] }

  /** The tree of a put command. */
  function PutTree(m: PutMsg): (r: Json)
    ensures r.Object?
  {
    Object(Head() + NumberField("cid", m.cid) + NumberField("tid", m.tid) + NumberField("dur", m.dur) +
           BytesField(m.bytes) + ValuesField(m))
  }

  /** _put_command_serialize */
  method SerializePut(m: PutMsg) returns (tree: Json)
    requires !m.isTuple ==> |m.attrs| % 2 == 0
    ensures tree == PutTree(m)
  {
    var root := [Member("t", String("cmd")), Member("n", String("put"))];
    if m.cid != 0 { root := root + [Member("cid", Number(m.cid))]; }
    if m.tid != 0 { root := root + [Member("tid", Number(m.tid))]; }
    if m.dur != 0 { root := root + [Member("dur", Number(m.dur))]; }
    if |m.bytes| > 0 {
      var dest := new bv8[(|m.bytes| + 2) / 3 * 4 + 1];
      var n := Base64.Encode(dest, m.bytes);
      root := root + [Member("bytes", String(ToText(dest[..n])))];
    }
    assert root == Head() + NumberField("cid", m.cid) + NumberField("tid", m.tid) + NumberField("dur", m.dur) +
                   BytesField(m.bytes);
    var values := SerializeValues(m);
    tree := Object(root + [Member("values", values)]);
  }

  method SerializeValues(m: PutMsg) returns (values: Json)
    requires !m.isTuple ==> |m.attrs| % 2 == 0
    ensures ValuesField(m) == [Member("values", values)]
  {
    if m.isTuple {
      var items := [];
      for i := 0 to |m.attrs|
        invariant items == Strings(m.attrs)[..i]
      {
        items := items + [String(m.attrs[i])];
      }
      assert items == Strings(m.attrs);
      values := Array(items);
    } else {
      var members := [];
      var i := 0;
      while i < |m.attrs| / 2
        invariant 0 <= i <= |m.attrs| / 2 && members == Pairs(m.attrs)[..i]
      {
        members := members + [Member(m.attrs[2*i], String(m.attrs[2*i+1]))];
        i := i + 1;
      }
      assert members == Pairs(m.attrs);
      values := Object(members);
    }
  }

  // ----- create -----

  function Lower(c: char): (r: char) { if 'A' <= c <= 'Z' then c + 32 as char else c }

  predicate SameName(a: string, b: string) {
    |a| == |b| && forall i :: 0 <= i < |a| ==> Lower(a[i]) == Lower(b[i])
  }

  /** cJSON_GetObjectItem: the first member of that name, whatever its case. */
  function Find(members: seq<Member>, name: string): (r: seq<Json>)
    ensures |r| <= 1
  {
    if members == [] then []
    else if SameName(members[0].name, name) then [members[0].value]
    else Find(members[1..], name)
  }

  /** The attribute an array or object element contributes: strings, and integers in decimal. */
  function AttrOf(j: Json): (r: seq<string>)
    ensures |r| <= 1
  {
    match j
    case String(s) => [s]
    case Number(n) => [PrintNumber(n)]
    case _ => []
  }

  function AttrsOfItems(items: seq<Json>): (r: Parsed<seq<string>>) {
    if items == [] then Read([], [])
    else
      var first, rest := AttrOf(items[0]), AttrsOfItems(items[1..]);
      if first == [] || rest.Fail? then Fail else Read(first + rest.value, [])
  }

  function AttrsOfMembers(members: seq<Member>): (r: Parsed<seq<string>>) {
    if members == [] then Read([], [])
    else
      var first, rest := AttrOf(members[0].value), AttrsOfMembers(members[1..]);
      if first == [] || rest.Fail? then Fail else Read([members[0].name] + first + rest.value, [])
  }

  /** A number field of the message, 0 when it is not there. */
  function NumberOf(found: seq<Json>): (r: Parsed<int>)
    requires |found| <= 1
  {
    if found == [] then Read(0, []) else if found[0].Number? then Read(found[0].n, []) else Fail
  }

  /** The attachment: refused when it is no string or decodes to nothing. */
  function BytesOf(found: seq<Json>): (r: Parsed<seq<bv8>>)
    requires |found| <= 1
  {
    if found == [] then Read([], [])
    else if !found[0].String? then Fail
    else
      var text := FromText(found[0].s);
      if !Base64.Decodable(text) || Base64.Decoded(text) == [] then Fail else Read(Base64.Decoded(text), [])
  }

  /** _put_command_create, from the members of the root. */
  function CreatePut(root: seq<Member>): (r: Created) {
    var cid, tid, dur := NumberOf(Find(root, "cid")), NumberOf(Find(root, "tid")), NumberOf(Find(root, "dur"));
    var bytes, values := BytesOf(Find(root, "bytes")), Find(root, "values");
    if cid.Fail? then Refused(-8)
    else if tid.Fail? then Refused(-9)
    else if dur.Fail? then Refused(-10)
    else if bytes.Fail? then Refused(if Find(root, "bytes")[0].String? then -13 else -11)
    else if values == [] then Message(PutMsg(cid.value, tid.value, dur.value, false, [], bytes.value))
    else
      match values[0]
      case Array(items) =>
        var attrs := AttrsOfItems(items);
        if attrs.Fail? then Refused(-20)
        else Message(PutMsg(cid.value, tid.value, dur.value, true, attrs.value, bytes.value))
      case Object(members) =>
        var attrs := AttrsOfMembers(members);
        if attrs.Fail? then Refused(-20)
        else Message(PutMsg(cid.value, tid.value, dur.value, false, attrs.value, bytes.value))
      case _ => Refused(-14)
  }

  /** _command_create */
  function CreateCommand(root: seq<Member>): (r: Created) {
    var name := Find(root, "n");
    if name == [] then Refused(-74)
    else if !name[0].String? then Refused(-75)
    else if name[0].s == "put" then CreatePut(root)
    else if name[0].s in ["connect", "get", "start", "ulease", "utxn", "disconnect"] then Elsewhere
    else Refused(-76)
  }

  /** json_msg_create */
  function CreateMsg(text: string): (r: Created) {
    var tree := Parse(text);
    if tree.Fail? then Refused(-84)
    else
      var root := if tree.value.Object? then tree.value.members else [];
      var kind := Find(root, "t");
      if kind == [] then Refused(-80)
      else if !kind[0].String? then Refused(-81)
      else if kind[0].s == "cmd" then CreateCommand(root)
      else if kind[0].s in ["res", "err"] then Elsewhere
      else Refused(-82)
  }

  // ----- round trip -----

  lemma {:induction false} ItemsBack(attrs: seq<string>)
    ensures AttrsOfItems(Strings(attrs)) == Read(attrs, [])
    decreases |attrs|
  {
    if attrs != [] {
      assert Strings(attrs)[1..] == Strings(attrs[1..]);
      ItemsBack(attrs[1..]);
      assert attrs == [attrs[0]] + attrs[1..];
    }
  }

  lemma {:induction false} MembersBack(attrs: seq<string>)
    requires |attrs| % 2 == 0
    ensures AttrsOfMembers(Pairs(attrs)) == Read(attrs, [])
    decreases |attrs|
  {
    if attrs != [] {
      var rest := attrs[2..];
      forall i | 0 <= i < |rest| / 2 ensures Pairs(attrs)[1..][i] == Pairs(rest)[i] {
        assert Pairs(attrs)[i + 1] == Member(attrs[2*(i+1)], String(attrs[2*(i+1)+1]));
        assert rest[2*i] == attrs[2*i+2] && rest[2*i+1] == attrs[2*i+3];
      }
      assert Pairs(attrs)[1..] == Pairs(rest);
      MembersBack(rest);
      assert Pairs(attrs)[0] == Member(attrs[2*0], String(attrs[2*0+1]));
      assert attrs == [attrs[0]] + [attrs[1]] + rest;
    }
  }

  /** What a search finds in two lists one after the other. */
  lemma {:induction false} FindConcat(a: seq<Member>, b: seq<Member>, name: string)
    ensures Find(a + b, name) == if Find(a, name) != [] then Find(a, name) else Find(b, name)
    decreases |a|
  {
    if a == [] {
      assert a + b == b;
    } else {
      assert (a + b)[1..] == a[1..] + b;
      FindConcat(a[1..], b, name);
    }
  }

  lemma FindOne(m: Member, name: string)
    ensures Find([m], name) == if SameName(m.name, name) then [m.value] else []
  {
    assert [m][1..] == [];
  }

  predicate IsField(name: string) { name in ["cid", "tid", "dur", "bytes", "values"] }

  lemma FieldNames(a: string, b: string)
    requires (IsField(a) || a == "t" || a == "n") && IsField(b)
    ensures SameName(a, b) <==> a == b
  {
    assert SameName(a, b) ==> |a| == |b| && Lower(a[0]) == Lower(b[0]);
  }

  lemma FindInHead(name: string)
    requires IsField(name)
    ensures Find(Head(), name) == []
  {
    var a, b := Member("t", String("cmd")), Member("n", String("put"));
    assert Head() == [a] + [b];
    FindConcat([a], [b], name);
    FindOne(a, name);
    FindOne(b, name);
    FieldNames("t", name);
    FieldNames("n", name);
  }

  lemma FindInNumber(field: string, n: int, name: string)
    requires IsField(name) && IsField(field)
    ensures Find(NumberField(field, n), name) == if field == name && n != 0 then [Number(n)] else []
  {
    if n != 0 {
      FindOne(Member(field, Number(n)), name);
      FieldNames(field, name);
    }
  }

  lemma FindInRest(m: PutMsg, name: string)
    requires IsField(name)
    ensures Find(BytesField(m.bytes), name) ==
            if name == "bytes" && m.bytes != [] then [BytesField(m.bytes)[0].value] else []
    ensures Find(ValuesField(m), name) == if name == "values" then [ValuesField(m)[0].value] else []
  {
    if m.bytes != [] {
      FindOne(BytesField(m.bytes)[0], name);
      FieldNames("bytes", name);
    }
    FindOne(ValuesField(m)[0], name);
    FieldNames("values", name);
  }

  lemma FindInTree(m: PutMsg, name: string)
    requires IsField(name)
    ensures Find(PutTree(m).members, name) ==
            if name == "cid" then (if m.cid == 0 then [] else [Number(m.cid)])
            else if name == "tid" then (if m.tid == 0 then [] else [Number(m.tid)])
            else if name == "dur" then (if m.dur == 0 then [] else [Number(m.dur)])
            else if name == "bytes" then (if m.bytes == [] then [] else [BytesField(m.bytes)[0].value])
            else [ValuesField(m)[0].value]
  {
    var h, c, t, d := Head(), NumberField("cid", m.cid), NumberField("tid", m.tid), NumberField("dur", m.dur);
    var b, v := BytesField(m.bytes), ValuesField(m);
    FindInHead(name);
    FindInNumber("cid", m.cid, name);
    FindInNumber("tid", m.tid, name);
    FindInNumber("dur", m.dur, name);
    FindInRest(m, name);
    FindConcat(h, c, name);
    FindConcat(h + c, t, name);
    FindConcat(h + c + t, d, name);
    FindConcat(h + c + t + d, b, name);
    FindConcat(h + c + t + d + b, v, name);
  }

  lemma BytesBack(bytes: seq<bv8>)
    ensures BytesOf(if bytes == [] then [] else [BytesField(bytes)[0].value]) == Read(bytes, [])
  {
    TextRoundTrip(Base64.Encoded(bytes));
    Base64.RoundTrip(bytes);
  }

  /** The tree of a put command is created back into the command. */
  lemma TreeRoundTrip(m: PutMsg)
    requires !m.isTuple ==> |m.attrs| % 2 == 0
    ensures CreatePut(PutTree(m).members) == Message(m)
  {
    hide PutTree, Find, SameName, AttrsOfItems, AttrsOfMembers, BytesOf;
    FindInTree(m, "cid");
    FindInTree(m, "tid");
    FindInTree(m, "dur");
    FindInTree(m, "bytes");
    FindInTree(m, "values");
    BytesBack(m.bytes);
    if m.isTuple { ItemsBack(m.attrs); } else { MembersBack(m.attrs); }
  }

  /** Numbers fit a JSON integer, attributes are clean, map attributes paired. */
  predicate Sendable(m: PutMsg) {
    IsInt32(m.cid) && IsInt32(m.tid) && IsInt32(m.dur) && (!m.isTuple ==> |m.attrs| % 2 == 0) &&
    forall i :: 0 <= i < |m.attrs| ==> Clean(m.attrs[i])
  }

  lemma TreeIsPrintable(m: PutMsg)
    requires Sendable(m)
    ensures Printable(PutTree(m))
  {
    EncodedIsClean(m.bytes);
    var ms := PutTree(m).members;
    forall i | 0 <= i < |ms| ensures Clean(ms[i].name) && Printable(ms[i].value) {
      assert ms[i] in ms;
      FieldIsPrintable(m, ms[i]);
    }
  }

  lemma FieldIsPrintable(m: PutMsg, f: Member)
    requires Sendable(m) && f in PutTree(m).members && Clean(ToText(Base64.Encoded(m.bytes)))
    ensures Clean(f.name) && Printable(f.value)
  {
    hide PutTree, Base64.Encoded, ToText, Printable, Strings, Pairs;
    FieldCases(m, f);
    PlainIsPrintable(f);
    if f in ValuesField(m) {
      ValuesPrintable(m);
    }
  }

  /** Strings and integers. */
  lemma PlainIsPrintable(f: Member)
    ensures f.value.String? && Clean(f.value.s) ==> Printable(f.value)
    ensures f.value.Number? && IsInt32(f.value.n) ==> Printable(f.value)
    ensures Clean("t") && Clean("cmd") && Clean("n") && Clean("put") && Clean("cid") && Clean("tid") && Clean("dur")
    ensures Clean("bytes") && Clean("values")
  {
  }

  lemma FieldCases(m: PutMsg, f: Member)
    requires f in PutTree(m).members
    ensures f in Head() || f in NumberField("cid", m.cid) || f in NumberField("tid", m.tid) ||
            f in NumberField("dur", m.dur) || f in BytesField(m.bytes) || f in ValuesField(m)
  {
    hide NumberField, BytesField, ValuesField, Head;
  }

  lemma ValuesPrintable(m: PutMsg)
    requires Sendable(m)
    ensures Printable(ValuesField(m)[0].value)
  {
    hide Clean;
    if m.isTuple {
      assert forall i :: 0 <= i < |m.attrs| ==> Printable(Strings(m.attrs)[i]);
    }
  }

  function Upper(s: string): (r: string) {
    seq(|s|, i requires 0 <= i < |s| => if 'a' <= s[i] <= 'z' then s[i] - 32 as char else s[i])
  }

  function UpperNames(members: seq<Member>): (r: seq<Member>) {
    seq(|members|, i requires 0 <= i < |members| => members[i].(name := Upper(members[i].name)))
  }

  /** Members are found whatever the case their names are written in. */
  lemma {:induction false} CaseIsIgnored(members: seq<Member>, name: string)
    ensures Find(UpperNames(members), name) == Find(members, name)
    decreases |members|
  {
    if members != [] {
      assert UpperNames(members)[1..] == UpperNames(members[1..]);
      CaseIsIgnored(members[1..], name);
    }
  }

  // ----- which messages are accepted -----

  predicate IsAttr(j: Json) { j.String? || j.Number? }

  lemma {:induction false} ItemsAccepted(items: seq<Json>)
    ensures AttrsOfItems(items).Read? <==> forall i :: 0 <= i < |items| ==> IsAttr(items[i])
    decreases |items|
  {
    if items != [] {
      ItemsAccepted(items[1..]);
      assert forall i :: 0 < i < |items| ==> items[i] == items[1..][i - 1];
    }
  }

  lemma {:induction false} MembersAccepted(members: seq<Member>)
    ensures AttrsOfMembers(members).Read? <==> forall i :: 0 <= i < |members| ==> IsAttr(members[i].value)
    decreases |members|
  {
    if members != [] {
      MembersAccepted(members[1..]);
      assert forall i :: 0 < i < |members| ==> members[i] == members[1..][i - 1];
    }
  }

  ghost predicate NumberIfThere(root: seq<Member>, name: string) {
    Find(root, name) == [] || Find(root, name)[0].Number?
  }

  /** A put is created if and only if its numbers are numbers, its attachment is a string
      that decodes to something, and its values are strings and integers. */
  lemma CreatedIff(root: seq<Member>)
    ensures var bytes, values := Find(root, "bytes"), Find(root, "values");
            CreatePut(root).Message? <==>
              NumberIfThere(root, "cid") && NumberIfThere(root, "tid") && NumberIfThere(root, "dur") &&
              (bytes == [] || (bytes[0].String? && Base64.Decodable(FromText(bytes[0].s)) &&
                               Base64.Decoded(FromText(bytes[0].s)) != [])) &&
              (values == [] ||
               match values[0]
               case Array(items) => forall i :: 0 <= i < |items| ==> IsAttr(items[i])
               case Object(members) => forall i :: 0 <= i < |members| ==> IsAttr(members[i].value)
               case _ => false)
  {
    hide Find, IsAttr, AttrsOfItems, AttrsOfMembers, Base64.Decodable, Base64.Decoded;
    var values := Find(root, "values");
    if values != [] && values[0].Array? {
      ItemsAccepted(values[0].items);
    }
    if values != [] && values[0].Object? {
      MembersAccepted(values[0].members);
    }
  }

  /** The first two members say what the message is. */
  lemma FindInFront(m: PutMsg)
    ensures Find(PutTree(m).members, "t") == [String("cmd")] && Find(PutTree(m).members, "n") == [String("put")]
  {
    var a, b := Member("t", String("cmd")), Member("n", String("put"));
    var rest := NumberField("cid", m.cid) + NumberField("tid", m.tid) + NumberField("dur", m.dur) +
                BytesField(m.bytes) + ValuesField(m);
    assert PutTree(m).members == [a] + ([b] + rest);
    FindConcat([a], [b] + rest, "t");
    FindConcat([a], [b] + rest, "n");
    FindConcat([b], rest, "n");
    FindOne(a, "t");
    FindOne(a, "n");
    FindOne(b, "n");
    assert Lower("t"[0]) != Lower("n"[0]);
  }

  /** A put command survives the wire: serialize, print, parse, tell its kind, create. */
  lemma PutSurvives(m: PutMsg, fmt: bool, rest: string)
    requires Sendable(m)
    ensures CreateMsg(Print(PutTree(m), fmt) + rest) == Message(m)
    ensures Parse(Print(PutTree(m), fmt) + rest) == Read(PutTree(m), rest)
  {
    hide CreatePut, PutTree, Parse, Print, Find, Printable;
    TreeIsPrintable(m);
    CJson.RoundTrip(PutTree(m), fmt, rest);
    TreeRoundTrip(m);
    FindInFront(m);
  }

  /** A put of the empty tuple, character by character. */
  lemma PutText()
    ensures Print(PutTree(PutMsg(0, 0, 0, true, [], [])), false) ==
            "{" + ("\"t\"" + ":" + "\"cmd\"" + ("," + ("\"n\"" + ":" + "\"put\"" +
            ("," + ("\"values\"" + ":" + "[]" + ""))))) + "}"
  {
    hide *;
    var a, b, c := Member("t", String("cmd")), Member("n", String("put")), Member("values", Array([]));
    EmptyPut();
    PlainQuotes();
    PrintedParts(c, []);
    PrintedParts(b, [c]);
    PrintedParts(a, [b, c]);
    assert [a] + [b, c] == [a, b, c] && [b] + [c] == [b, c] && [c] + [] == [c];
  }

  lemma EmptyPut()
    ensures PutTree(PutMsg(0, 0, 0, true, [], [])) ==
            Object([Member("t", String("cmd")), Member("n", String("put")), Member("values", Array([]))])
    ensures PrintValue(Array([]), 1, false) == "[]"
  {
    assert Strings([]) == [] && PrintItems([], 2, false) == [];
  }

  lemma {:induction false} PrintedParts(m: Member, rest: seq<Member>)
    ensures PrintMembers([m] + rest, 1, false) == Quote(m.name) + ":" + PrintValue(m.value, 1, false) +
              if rest == [] then "" else "," + PrintMembers(rest, 1, false)
    ensures m.value.String? ==> PrintValue(m.value, 1, false) == Quote(m.value.s)
    ensures Print(Object([m] + rest), false) == "{" + PrintMembers([m] + rest, 1, false) + "}"
  {
    hide Quote, PrintItems, PrintNumber, Tabs, EscapeAll;
    assert ([m] + rest)[1..] == rest;
  }

  lemma PlainQuotes()
    ensures Quote("t") == "\"t\"" && Quote("cmd") == "\"cmd\"" && Quote("n") == "\"n\"" && Quote("put") == "\"put\""
    ensures Quote("values") == "\"values\""
  {
    hide Quote, EscapeAll;
    PlainQuote("t");
    PlainQuote("cmd");
    PlainQuote("n");
    PlainQuote("put");
    PlainQuote("values");
  }
}

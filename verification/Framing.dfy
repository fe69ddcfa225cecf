/**
 Message framing: messages are JSON texts ended by two newlines
 (corelib/JsonNet.c), found again by `oe_memmem` (corelib/oec_values.c).
 */
module Framing {
  import opened CJson

  // ----- oe_memmem -----

  function IndexOf(s: string, c: char): (i: nat)
    ensures i <= |s| && (i < |s| ==> s[i] == c) && forall k :: 0 <= k < i ==> s[k] != c
  {
    if s == [] || s[0] == c then 0 else 1 + IndexOf(s[1..], c)
  }

  /** The position found, or -1.  After a mismatch a whole needle is skipped. */
  function Memmem(hay: string, needle: string): (pos: int)
    ensures -1 <= pos
    ensures pos >= 0 ==> pos + |needle| <= |hay|
    decreases |hay|
  {
    if hay == [] || needle == [] then -1
    else
      var i := IndexOf(hay, needle[0]);
      if i + |needle| > |hay| then -1
      else if hay[i..i + |needle|] == needle then i
      else
        var j := i + |needle|;
        var r := Memmem(hay[j..], needle);
        if r < 0 then -1 else j + r
  }

  predicate OccursAt(hay: string, needle: string, k: nat) {
    k + |needle| <= |hay| && hay[k..k + |needle|] == needle
  }

  /** `pos` is where a search for the first occurrence must end. */
  predicate IsFirst(hay: string, needle: string, pos: int) {
    if pos < 0 then forall k: nat :: k <= |hay| ==> !OccursAt(hay, needle, k)
    else OccursAt(hay, needle, pos) && forall k: nat :: k < pos ==> !OccursAt(hay, needle, k)
  }

  /** One character, or one character twice. */
  predicate Searchable(needle: string) {
    |needle| == 1 || (|needle| == 2 && needle[0] == needle[1])
  }

  lemma BeforeFirstChar(hay: string, needle: string, k: nat)
    requires needle != [] && k < IndexOf(hay, needle[0])
    ensures !OccursAt(hay, needle, k)
  {
    if k + |needle| <= |hay| {
      assert hay[k..k + |needle|][0] == hay[k];
    }
  }

  lemma {:induction false} MemmemFinds(hay: string, needle: string)
    requires Searchable(needle)
    ensures IsFirst(hay, needle, Memmem(hay, needle))
    decreases |hay|
  {
    hide OccursAt, Searchable, Memmem, IndexOf, IsFirst;
    if hay == [] {
      NothingInNothing(needle);
    } else {
      NeedleIsThere(needle);
      var i := IndexOf(hay, needle[0]);
      forall k: nat | k < i ensures !OccursAt(hay, needle, k) { BeforeFirstChar(hay, needle, k); }
      if i + |needle| > |hay| || hay[i..i + |needle|] == needle {
        MemmemEnds(hay, needle, i);
        FirstCharDecides(hay, needle, i);
      } else {
        MemmemGoesOn(hay, needle, i);
        Mismatch(hay, needle, i);
        MemmemFinds(hay[i + 2..], needle);
        FirstLater(hay, needle, i + 2, Memmem(hay[i + 2..], needle));
      }
    }
  }

  lemma {:induction false} MemmemEnds(hay: string, needle: string, i: nat)
    requires hay != [] && needle != [] && i == IndexOf(hay, needle[0])
    requires i + |needle| > |hay| || hay[i..i + |needle|] == needle
    ensures Memmem(hay, needle) == if i + |needle| > |hay| then -1 else i
  {
    hide IndexOf;
  }

  lemma {:induction false} MemmemGoesOn(hay: string, needle: string, i: nat)
    requires hay != [] && needle != [] && i == IndexOf(hay, needle[0])
    requires i + |needle| <= |hay| && hay[i..i + |needle|] != needle
    ensures var r := Memmem(hay[i + |needle|..], needle);
            Memmem(hay, needle) == if r < 0 then -1 else i + |needle| + r
  {
    hide IndexOf;
  }

  lemma NeedleIsThere(needle: string)
    requires Searchable(needle)
    ensures needle != []
  {
  }

  lemma NothingInNothing(needle: string)
    requires Searchable(needle)
    ensures IsFirst([], needle, Memmem([], needle))
  {
  }

  /** Where the first character stands the needle stands, or there is no room for it. */
  lemma FirstCharDecides(hay: string, needle: string, i: nat)
    requires needle != [] && i == IndexOf(hay, needle[0]) && forall k: nat :: k < i ==> !OccursAt(hay, needle, k)
    requires i + |needle| > |hay| || hay[i..i + |needle|] == needle
    ensures IsFirst(hay, needle, if i + |needle| > |hay| then -1 else i)
  {
  }

  lemma FirstLater(hay: string, needle: string, j: nat, r: int)
    requires j <= |hay| && forall k: nat :: k < j ==> !OccursAt(hay, needle, k)
    requires forall k: nat :: j <= k ==> (OccursAt(hay, needle, k) <==> OccursAt(hay[j..], needle, k - j))
    requires IsFirst(hay[j..], needle, r)
    ensures IsFirst(hay, needle, if r < 0 then -1 else j + r)
  {
    hide OccursAt;
  }

  /** After a mismatch at `i` nothing can begin before `i + 2`. */
  lemma Mismatch(hay: string, needle: string, i: nat)
    requires Searchable(needle) && i + |needle| <= |hay| && hay[i] == needle[0] && hay[i..i + |needle|] != needle
    ensures |needle| == 2 && !OccursAt(hay, needle, i) && !OccursAt(hay, needle, i + 1)
    ensures forall k: nat :: i + 2 <= k ==> (OccursAt(hay, needle, k) <==> OccursAt(hay[i + 2..], needle, k - (i + 2)))
  {
    assert hay[i..i + |needle|][0] == needle[0];
    assert hay[i + 1] != needle[1];
    if i + 3 <= |hay| {
      assert hay[i + 1..i + 3][0] == hay[i + 1];
    }
    var j := i + 2;
    forall k: nat | j <= k ensures OccursAt(hay, needle, k) <==> OccursAt(hay[j..], needle, k - j) {
      if k + 2 <= |hay| { assert hay[k..k + 2] == hay[j..][k - j..k - j + 2]; }
    }
  }

  lemma SkipsTooFar(front: string, needle: string)
    requires 0 < |front| < |needle| && front[0] == needle[0] && (front + needle)[..|needle|] != needle
    ensures !IsFirst(front + needle, needle, Memmem(front + needle, needle))
  {
    var hay := front + needle;
    assert hay[0] == needle[0] && IndexOf(hay, needle[0]) == 0;
    assert hay[0..|needle|] == hay[..|needle|];
    var rest := hay[|needle|..];
    assert |rest| < |needle|;
    assert Memmem(rest, needle) == -1;
    assert hay[|front|..|front| + |needle|] == needle;
    assert OccursAt(hay, needle, |front|);
  }

  /** For every other needle there is a haystack that holds it and is searched
      in vain. */
  lemma MemmemMisses(needle: string) returns (hay: string)
    requires needle != [] && !Searchable(needle)
    ensures !IsFirst(hay, needle, Memmem(hay, needle))
  {
    var front;
    if i :| 0 < i < |needle| && needle[i] != needle[i - 1] {
      front := [needle[0]];
      assert (front + needle)[..|needle|][i] == needle[i - 1];
    } else {
      front := [needle[0], if needle[0] == 'a' then 'b' else 'a'];
      assert needle[1] == needle[1 - 1];
      assert (front + needle)[..|needle|][1] == front[1];
    }
    SkipsTooFar(front, needle);
    hay := front + needle;
  }

  /** `oe_memmem` is a search for the first occurrence exactly for these needles. */
  lemma MemmemIsSearchIff(needle: string)
    requires needle != []
    ensures (forall hay :: IsFirst(hay, needle, Memmem(hay, needle))) <==> Searchable(needle)
  {
    if Searchable(needle) {
      forall hay ensures IsFirst(hay, needle, Memmem(hay, needle)) { MemmemFinds(hay, needle); }
    } else {
      var hay := MemmemMisses(needle);
    }
  }

  // ----- texts without an empty line -----

  const END := "\n\n"

  /** No two newlines in a row. */
  predicate NoBlank(s: string) {
    forall i :: 0 <= i < |s| - 1 ==> !(s[i] == '\n' && s[i + 1] == '\n')
  }

  lemma NoBlankConcat(a: string, b: string)
    requires NoBlank(a) && NoBlank(b) && (a == [] || b == [] || a[|a| - 1] != '\n' || b[0] != '\n')
    ensures NoBlank(a + b)
  {
  }

  /** Neither begins nor ends with a newline, nor holds an empty line. */
  predicate Tight(s: string) {
    NoBlank(s) && s != [] && s[0] != '\n' && s[|s| - 1] != '\n'
  }

  lemma TightConcat(a: string, b: string)
    requires Tight(a) && Tight(b)
    ensures Tight(a + b)
  {
  }

  lemma PlainTight(s: string)
    requires s != [] && '\n' !in s
    ensures Tight(s)
  {
    assert s[0] in s && s[|s| - 1] in s;
    forall i | 0 <= i < |s| ensures s[i] != '\n' { assert s[i] in s; }
  }

  lemma {:induction false} PrintedTight(j: Json, depth: nat, fmt: bool)
    ensures Tight(PrintValue(j, depth, fmt))
    decreases j, 1
  {
    FirstChar(j, depth, fmt);
    match j
    case Number(n) => PlainTight(PrintNumber(n));
    case String(s) => PlainTight(Quote(s));
    case Array(items) =>
      ItemsTight(items, depth + 1, fmt);
      if items == [] {
        PlainTight("[]");
        assert PrintValue(j, depth, fmt) == "[]";
      } else {
        TightConcat("[", PrintItems(items, depth + 1, fmt));
        TightConcat("[" + PrintItems(items, depth + 1, fmt), "]");
      }
    case Object(members) =>
      MembersOpen(members, depth + 1, fmt);
      ObjectTight(PrintMembers(members, depth + 1, fmt), depth, fmt);
    case _ => PlainTight(PrintValue(j, depth, fmt));
  }

  lemma {:induction false} ItemsJoined(items: seq<Json>, depth: nat, fmt: bool)
    requires |items| > 1
    ensures PrintItems(items, depth, fmt) ==
            PrintValue(items[0], depth, fmt) + (if fmt then ", " else ",") + PrintItems(items[1..], depth, fmt)
  {
    hide PrintValue;
    assert "," + When(fmt, " ") == if fmt then ", " else ",";
  }

  lemma {:induction false} ItemsTight(items: seq<Json>, depth: nat, fmt: bool)
    ensures items != [] ==> Tight(PrintItems(items, depth, fmt))
    decreases items, 0
  {
    hide PrintValue, Tight;
    if items != [] {
      var head := PrintValue(items[0], depth, fmt);
      PrintedTight(items[0], depth, fmt);
      if |items| > 1 {
        ItemsTight(items[1..], depth, fmt);
        var comma := if fmt then ", " else ",";
        PlainTight(comma);
        TightConcat(head, comma);
        TightConcat(head + comma, PrintItems(items[1..], depth, fmt));
        ItemsJoined(items, depth, fmt);
      }
    }
  }

  /** May end with a newline, as the lines of an object do, but not begin with one. */
  predicate Lines(s: string) {
    NoBlank(s) && (s != [] ==> s[0] != '\n')
  }

  lemma LinesConcat(a: string, b: string)
    requires Lines(a) && Lines(b)
    ensures Lines(a + b)
  {
  }

  lemma ObjectTight(lines: string, depth: nat, fmt: bool)
    requires Lines(lines)
    ensures Tight("{" + When(fmt, "\n") + lines + When(fmt, Tabs(depth)) + "}")
  {
    var open := "{" + When(fmt, "\n");
    LinesConcat(open, lines);
    LinesConcat(open + lines, When(fmt, Tabs(depth)));
    LinesConcat(open + lines + When(fmt, Tabs(depth)), "}");
  }

  lemma {:induction false} MembersOpen(members: seq<Member>, depth: nat, fmt: bool)
    requires depth > 0
    ensures Lines(PrintMembers(members, depth, fmt))
    decreases members, 0
  {
    if members != [] {
      var m := members[0];
      MembersOpen(members[1..], depth, fmt);
      PrintedTight(m.value, depth, fmt);
      PlainTight(Quote(m.name));
      var a := When(fmt, Tabs(depth)) + Quote(m.name);
      LinesConcat(When(fmt, Tabs(depth)), Quote(m.name));
      LinesConcat(a, ":");
      LinesConcat(a + ":", When(fmt, "\t"));
      var b := a + ":" + When(fmt, "\t");
      LinesConcat(b, PrintValue(m.value, depth, fmt));
      MemberEnd(b + PrintValue(m.value, depth, fmt), |members| > 1, fmt);
      LinesConcat(b + PrintValue(m.value, depth, fmt) + When(|members| > 1, ",") + When(fmt, "\n"),
                  PrintMembers(members[1..], depth, fmt));
    }
  }

  lemma MemberEnd(s: string, more: bool, fmt: bool)
    requires Lines(s) && s != [] && s[|s| - 1] != '\n'
    ensures Lines(s + When(more, ",") + When(fmt, "\n"))
  {
    LinesConcat(s, When(more, ","));
    NoBlankConcat(s + When(more, ","), When(fmt, "\n"));
  }

  // ----- reading what was written -----

  lemma EndOfMessage(m: string, rest: string)
    requires m != [] && NoBlank(m) && m[|m| - 1] != '\n'
    ensures Memmem(m + END + rest, END) == |m|
  {
    var hay := m + END + rest;
    MemmemFinds(hay, END);
    assert OccursAt(hay, END, |m|) by { assert hay[|m|..|m| + 2] == END; }
    forall k: nat | k < |m| ensures !OccursAt(hay, END, k) {
      assert hay[k] == m[k];
      assert k + 1 < |m| ==> hay[k + 1] == m[k + 1];
      if k + 2 <= |hay| { assert hay[k..k + 2][0] == hay[k] && hay[k..k + 2][1] == hay[k + 1]; }
    }
  }

  function WriteAll(texts: seq<string>): (s: string) {
    if texts == [] then [] else texts[0] + END + WriteAll(texts[1..])
  }

  /** One connection's input buffer. */
  class Conn {
    var input: string

    constructor (input: string)
      ensures this.input == input
    {
      this.input := input;
    }

    /** JsonNet_read_msg up to the parser: nothing is taken until a whole message is there. */
    method ReadFrame() returns (got: bool, frame: string)
      modifies this
      ensures got <==> Memmem(old(input), END) >= 0
      ensures got ==> frame == old(input)[..Memmem(old(input), END) + 2]
      ensures got ==> input == old(input)[Memmem(old(input), END) + 2..]
      ensures !got ==> input == old(input)
    {
      var pos := Memmem(input, END);
      if pos < 0 { return false, []; }
      frame := input[..pos + 2];
      input := input[pos + 2..];
      got := true;
    }

    /** Reading until only a partial message is left. */
    method ReadAll(ghost texts: seq<string>, ghost tail: string) returns (frames: seq<string>)
      requires input == WriteAll(texts) + tail && Memmem(tail, END) < 0
      requires forall i :: 0 <= i < |texts| ==> Tight(texts[i])
      modifies this
      ensures |frames| == |texts| && (forall i :: 0 <= i < |texts| ==> frames[i] == texts[i] + END) && input == tail
    {
      hide WriteAll, Memmem, Tight;
      frames := [];
      assert texts[0..] == texts;
      var more := true;
      while more
        invariant |frames| <= |texts| && input == WriteAll(texts[|frames|..]) + tail
        invariant forall i :: 0 <= i < |frames| ==> frames[i] == texts[i] + END
        invariant !more ==> |frames| == |texts|
        decreases |texts| - |frames|, more
      {
        NextFrame(texts, |frames|, tail);
        var frame;
        more, frame := ReadFrame();
        if more {
          frames := frames + [frame];
        }
      }
      NextFrame(texts, |texts|, tail);
    }
  }

  /** The first message of what is left, and what is left after it. */
  lemma NextFrame(texts: seq<string>, n: nat, tail: string)
    requires n <= |texts| && forall i :: 0 <= i < |texts| ==> Tight(texts[i])
    ensures var input := WriteAll(texts[n..]) + tail;
            if n == |texts| then input == tail
            else Memmem(input, END) == |texts[n]| && |texts[n]| + 2 <= |input| &&
                 input[..|texts[n]| + 2] == texts[n] + END && input[|texts[n]| + 2..] == WriteAll(texts[n + 1..]) + tail
  {
    if n < |texts| {
      var left, rest := texts[n..], WriteAll(texts[n + 1..]) + tail;
      assert left[1..] == texts[n + 1..];
      assert WriteAll(left) + tail == texts[n] + END + rest;
      hide Memmem, Tight, WriteAll;
      EndOfMessage(texts[n], rest);
    }
  }

  function Printed(trees: seq<Json>): (r: seq<string>)
    ensures |r| == |trees| && forall i :: 0 <= i < |r| ==> r[i] == Print(trees[i], true)
  {
    seq(|trees|, i requires 0 <= i < |trees| => Print(trees[i], true))
  }

  /** Framing is unambiguous: a stream of printed trees, and any part of a next
      message, is read back as exactly those trees in order. */
  method ReadTrees(stream: string, ghost trees: seq<Json>, ghost tail: string) returns (read: seq<Json>)
    requires stream == WriteAll(Printed(trees)) + tail && Memmem(tail, END) < 0
    requires forall i :: 0 <= i < |trees| ==> Printable(trees[i])
    ensures read == trees
  {
    hide Parse, PrintValue, Memmem, Tight, Printable;
    ghost var texts := Printed(trees);
    forall i | 0 <= i < |texts| ensures Tight(texts[i]) { PrintedTight(trees[i], 0, true); }
    var conn := new Conn(stream);
    var frames := conn.ReadAll(texts, tail);
    read := [];
    for i := 0 to |frames|
      invariant read == trees[..i]
    {
      CJson.RoundTrip(trees[i], true, END);
      var r := Parse(frames[i]);
      read := read + [r.value];
      assert trees[..i + 1] == trees[..i] + [trees[i]];
    }
  }
}

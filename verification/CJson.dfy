/**
 The JSON reader and writer of corelib/cJSON.c (sections 3 to 7 of RFC 8259, for
 integers and without \u escapes): what is printed is read back.
 */
module CJson {
  import opened Decimal

  datatype Json =
    | Null | False | True
    | Number(n: int)
    | String(s: string)
    | Array(items: seq<Json>)
    | Object(members: seq<Member>)

  datatype Member = Member(name: string, value: Json)

  datatype Parsed<T> = Fail | Read(value: T, rest: string)

  const QUOTE := '\"'
  const BACKSLASH := '\\'
  const BS := 8 as char
  const FF := 12 as char

  // ----- strings -----

  predicate IsControl(c: char) { c as int <= 31 }

  /** The control characters that have an escape of their own. */
  predicate HasEscape(c: char) { c == BS || c == FF || c == '\n' || c == '\r' || c == '\t' }

  /** One character as print_string_ptr writes it; other control characters vanish. */
  function Escape(c: char): (r: string)
    ensures |r| <= 2 && forall i :: 0 <= i < |r| ==> !IsControl(r[i])
  {
    if !IsControl(c) && c != QUOTE && c != BACKSLASH then [c]
    else if c == BACKSLASH then [BACKSLASH, BACKSLASH]
    else if c == QUOTE then [BACKSLASH, QUOTE]
    else if c == BS then [BACKSLASH, 'b']
    else if c == FF then [BACKSLASH, 'f']
    else if c == '\n' then [BACKSLASH, 'n']
    else if c == '\r' then [BACKSLASH, 'r']
    else if c == '\t' then [BACKSLASH, 't']
    else []
  }

  function EscapeAll(s: string): (r: string)
    ensures forall i :: 0 <= i < |r| ==> !IsControl(r[i])
  {
    if s == [] then [] else Escape(s[0]) + EscapeAll(s[1..])
  }

  function Quote(s: string): (r: string)
    ensures |r| >= 2 && r[0] == QUOTE && r[|r| - 1] == QUOTE
    ensures forall i :: 0 <= i < |r| ==> !IsControl(r[i])
  {
    [QUOTE] + EscapeAll(s) + [QUOTE]
  }

  /** Plain text is written between quotation marks as it stands. */
  lemma {:induction false} PlainQuote(s: string)
    requires forall i :: 0 <= i < |s| ==> ' ' < s[i] && s[i] != '\"' && s[i] != '\\'
    ensures EscapeAll(s) == s && Quote(s) == "\"" + s + "\""
    decreases |s|
  {
    if s != [] {
      PlainQuote(s[1..]);
      assert Escape(s[0]) == [s[0]] && s == [s[0]] + s[1..];
    }
  }

  /** The escapes, written out. */
  lemma EscapesAre()
    ensures Escape('\"') == "\\\"" && Escape('\\') == "\\\\"
    ensures Escape(8 as char) == "\\b" && Escape(12 as char) == "\\f"
    ensures Escape('\n') == "\\n" && Escape('\r') == "\\r" && Escape('\t') == "\\t" && Escape(1 as char) == ""
  {
  }

  function Unescape(c: char): (r: char) {
    if c == 'b' then BS
    else if c == 'f' then FF
    else if c == 'n' then '\n'
    else if c == 'r' then '\r'
    else if c == 't' then '\t'
    else c
  }

  /** parse_string after the opening quote: it stops at a quote or at a control
      character; `\\u` and a backslash at the end are not part of the model. */
  function ParseChars(s: string): (r: Parsed<string>)
    ensures r.Read? ==> |r.rest| <= |s|
    decreases |s|
  {
    if s == [] || IsControl(s[0]) then Read([], s)
    else if s[0] == QUOTE then Read([], s[1..])
    else if s[0] != BACKSLASH then
      var r := ParseChars(s[1..]);
      if r.Fail? then Fail else Read([s[0]] + r.value, r.rest)
    else if |s| == 1 || s[1] == 'u' then Fail
    else
      var r := ParseChars(s[2..]);
      if r.Fail? then Fail else Read([Unescape(s[1])] + r.value, r.rest)
  }

  function ParseString(s: string): (r: Parsed<string>)
    ensures r.Read? ==> |r.rest| < |s|
  {
    if s == [] || s[0] != QUOTE then Fail else ParseChars(s[1..])
  }

  /** Free of control characters without an escape. */
  predicate Clean(s: string) {
    forall i :: 0 <= i < |s| ==> !IsControl(s[i]) || HasEscape(s[i])
  }

  lemma EscapeRead(c: char, rest: string)
    requires !IsControl(c) || HasEscape(c)
    ensures ParseChars(Escape(c) + rest) ==
            var r := ParseChars(rest); if r.Fail? then Fail else Read([c] + r.value, r.rest)
  {
    hide ParseChars;
    if |Escape(c)| == 1 {
      PlainRead(c, rest);
    } else {
      EscapedRead(Escape(c)[1], rest);
    }
  }

  /** Where reading stops, and where it fails. */
  lemma CharsEnd(s: string)
    ensures s == [] || IsControl(s[0]) ==> ParseChars(s) == Read([], s)
    ensures s != [] && s[0] == QUOTE ==> ParseChars(s) == Read([], s[1..])
    ensures s != [] && s[0] == BACKSLASH && (|s| == 1 || s[1] == 'u') ==> ParseChars(s) == Fail
  {
  }

  lemma PlainRead(c: char, rest: string)
    requires !IsControl(c) && c != QUOTE && c != BACKSLASH
    ensures ParseChars([c] + rest) ==
            var r := ParseChars(rest); if r.Fail? then Fail else Read([c] + r.value, r.rest)
  {
    assert ([c] + rest)[1..] == rest;
  }

  lemma EscapedRead(c: char, rest: string)
    requires c != 'u'
    ensures ParseChars([BACKSLASH, c] + rest) ==
            var r := ParseChars(rest); if r.Fail? then Fail else Read([Unescape(c)] + r.value, r.rest)
  {
    assert ([BACKSLASH, c] + rest)[2..] == rest;
  }

  lemma {:induction false} CharsRoundTrip(s: string, rest: string)
    requires Clean(s)
    ensures ParseChars(EscapeAll(s) + [QUOTE] + rest) == Read(s, rest)
    decreases |s|
  {
    if s == [] {
      assert EscapeAll(s) + [QUOTE] + rest == [QUOTE] + rest;
      assert ([QUOTE] + rest)[1..] == rest;
    } else {
      CharsRoundTrip(s[1..], rest);
      var tail := EscapeAll(s[1..]) + [QUOTE] + rest;
      assert EscapeAll(s) + [QUOTE] + rest == Escape(s[0]) + tail;
      EscapeRead(s[0], tail);
      assert s == [s[0]] + s[1..];
    }
  }

  lemma StringRoundTrip(s: string, rest: string)
    requires Clean(s)
    ensures ParseString(Quote(s) + rest) == Read(s, rest)
  {
    CharsRoundTrip(s, rest);
    assert (Quote(s) + rest)[1..] == EscapeAll(s) + [QUOTE] + rest;
  }

  // ----- numbers -----

  predicate IsInt32(n: int) { -0x8000_0000 <= n < 0x8000_0000 }

  function PrintNumber(n: int): (r: string)
    ensures |r| > 0 && (r[0] == '-' || IsDigit(r[0])) && IsDigit(r[|r| - 1])
    ensures forall i :: 0 <= i < |r| ==> r[i] == '-' || IsDigit(r[i])
  {
    if n < 0 then ['-'] + Numeral(-n) else Numeral(n)
  }

  /** The digits a text begins with. */
  function DigitRun(s: string): (d: string)
    ensures |d| <= |s| && d == s[..|d|] && forall i :: 0 <= i < |d| ==> IsDigit(d[i])
    ensures |d| == |s| || !IsDigit(s[|d|])
  {
    if s == [] || !IsDigit(s[0]) then [] else [s[0]] + DigitRun(s[1..])
  }

  /** A number is over: no further digit, fraction or exponent. */
  predicate NumberEnds(s: string) {
    s == [] || (!IsDigit(s[0]) && s[0] != '.' && s[0] != 'e' && s[0] != 'E')
  }

  /** parse_number's integer part; fractions and exponents are not part of the model. */
  function ParseDigits(s: string, sign: int): (r: Parsed<int>)
    ensures r.Read? ==> |r.rest| <= |s|
  {
    var t := if s != [] && s[0] == '0' then s[1..] else s;
    var d := if t != [] && '1' <= t[0] <= '9' then DigitRun(t) else [];
    var rest := t[|d|..];
    if rest != [] && (rest[0] == '.' || rest[0] == 'e' || rest[0] == 'E') then Fail
    else Read(sign * Accumulate(0, d), rest)
  }

  function ParseNumber(s: string): (r: Parsed<int>)
    requires s != [] && (s[0] == '-' || IsDigit(s[0]))
    ensures r.Read? ==> |r.rest| < |s|
  {
    if s[0] == '-' then ParseDigits(s[1..], -1)
    else
      assert s[0] == '0' || DigitRun(s) != [];
      ParseDigits(s, 1)
  }

  lemma {:induction false} DigitRunStops(d: string, rest: string)
    requires (forall i :: 0 <= i < |d| ==> IsDigit(d[i])) && (rest == [] || !IsDigit(rest[0]))
    ensures DigitRun(d + rest) == d
    decreases |d|
  {
    if d == [] {
      assert d + rest == rest;
    } else {
      assert (d + rest)[1..] == d[1..] + rest;
      DigitRunStops(d[1..], rest);
    }
  }

  lemma DigitsRoundTrip(n: nat, sign: int, rest: string)
    requires NumberEnds(rest)
    ensures ParseDigits(Numeral(n) + rest, sign) == Read(sign * n, rest)
  {
    var s := Numeral(n) + rest;
    if n == 0 {
      assert s[1..] == rest && rest[0..] == rest;
    } else {
      DigitRunStops(Numeral(n), rest);
      NumeralValue(n);
      assert s[|Numeral(n)|..] == rest;
    }
  }

  lemma Tail(c: char, s: string)
    ensures ([c] + s)[0] == c && ([c] + s)[1..] == s
  {
  }

  lemma NumberRoundTrip(n: int, rest: string)
    requires NumberEnds(rest)
    ensures ParseNumber(PrintNumber(n) + rest) == Read(n, rest)
  {
    hide ParseDigits, Accumulate, DigitRun, Numeral;
    if n < 0 {
      DigitsRoundTrip(-n, -1, rest);
      Assoc(['-'], Numeral(-n), rest);
      Tail('-', Numeral(-n) + rest);
    } else {
      DigitsRoundTrip(n, 1, rest);
    }
  }

  // ----- white space -----

  predicate IsSpace(c: char) { c as int <= 32 }

  function Skip(s: string): (r: string)
    ensures |r| <= |s| && (r != [] ==> !IsSpace(r[0]))
  {
    if s == [] || !IsSpace(s[0]) then s else Skip(s[1..])
  }

  lemma {:induction false} SkipSpace(w: string, s: string)
    requires forall i :: 0 <= i < |w| ==> IsSpace(w[i])
    ensures Skip(w + s) == Skip(s)
    decreases |w|
  {
    if w == [] {
      assert w + s == s;
    } else {
      assert (w + s)[1..] == w[1..] + s;
      SkipSpace(w[1..], s);
    }
  }

  // ----- printing -----

  function Tabs(n: nat): (r: string)
    ensures |r| == n && forall i :: 0 <= i < n ==> r[i] == '\t'
  {
    seq(n, _ => '\t')
  }

  function When(fmt: bool, s: string): (r: string) { if fmt then s else [] }

  /** print_value; a nested object is indented by its depth. */
  function PrintValue(j: Json, depth: nat, fmt: bool): (r: string)
    decreases j
  {
    match j
    case Null => "null"
    case False => "false"
    case True => "true"
    case Number(n) => PrintNumber(n)
    case String(s) => Quote(s)
    case Array(items) => "[" + PrintItems(items, depth + 1, fmt) + "]"
    case Object(members) =>
      "{" + When(fmt, "\n") + PrintMembers(members, depth + 1, fmt) + When(fmt, Tabs(depth)) + "}"
  }

  function PrintItems(items: seq<Json>, depth: nat, fmt: bool): (r: string)
    decreases items
  {
    if items == [] then []
    else if |items| == 1 then PrintValue(items[0], depth, fmt)
    else PrintValue(items[0], depth, fmt) + "," + When(fmt, " ") + PrintItems(items[1..], depth, fmt)
  }

  function PrintMembers(members: seq<Member>, depth: nat, fmt: bool): (r: string)
    decreases members
  {
    if members == [] then []
    else
      When(fmt, Tabs(depth)) + Quote(members[0].name) + ":" + When(fmt, "\t") +
      PrintValue(members[0].value, depth, fmt) + When(|members| > 1, ",") + When(fmt, "\n") +
      PrintMembers(members[1..], depth, fmt)
  }

  // ----- parsing -----

  /** parse_value */
  function ParseValue(s: string): (r: Parsed<Json>)
    ensures r.Read? ==> |r.rest| < |s|
    decreases |s|, 1
  {
    if "null" <= s then Read(Null, s[4..])
    else if "false" <= s then Read(False, s[5..])
    else if "true" <= s then Read(True, s[4..])
    else if s == [] then Fail
    else if s[0] == QUOTE then
      var r := ParseString(s);
      if r.Fail? then Fail else Read(String(r.value), r.rest)
    else if s[0] == '-' || IsDigit(s[0]) then
      var r := ParseNumber(s);
      if r.Fail? then Fail else Read(Number(r.value), r.rest)
    else if s[0] == '[' then ParseArray(s)
    else if s[0] == '{' then ParseObject(s)
    else Fail
  }

  /** parse_array */
  function ParseArray(s: string): (r: Parsed<Json>)
    requires s != []
    ensures r.Read? ==> |r.rest| < |s|
    decreases |s|, 0
  {
    var t := Skip(s[1..]);
    if t != [] && t[0] == ']' then Read(Array([]), t[1..])
    else
      var r := ParseItems(t);
      if r.Fail? || r.rest == [] || r.rest[0] != ']' then Fail else Read(Array(r.value), r.rest[1..])
  }

  /** parse_object */
  function ParseObject(s: string): (r: Parsed<Json>)
    requires s != []
    ensures r.Read? ==> |r.rest| < |s|
    decreases |s|, 0
  {
    var t := Skip(s[1..]);
    if t != [] && t[0] == '}' then Read(Object([]), t[1..])
    else
      var r := ParseMembers(t);
      if r.Fail? || r.rest == [] || r.rest[0] != '}' then Fail else Read(Object(r.value), r.rest[1..])
  }

  /** parse_array's loop: elements as long as commas follow. */
  function ParseItems(s: string): (r: Parsed<seq<Json>>)
    ensures r.Read? ==> |r.rest| < |s|
    decreases |s|, 2
  {
    var v := ParseValue(Skip(s));
    if v.Fail? then Fail
    else
      var t := Skip(v.rest);
      if t == [] || t[0] != ',' then Read([v.value], t)
      else
        var r := ParseItems(t[1..]);
        if r.Fail? then Fail else Read([v.value] + r.value, r.rest)
  }

  /** parse_object's loop. */
  function ParseMembers(s: string): (r: Parsed<seq<Member>>)
    ensures r.Read? ==> |r.rest| < |s|
    decreases |s|, 2
  {
    var name := ParseString(Skip(s));
    if name.Fail? then Fail
    else
      var t := Skip(name.rest);
      if t == [] || t[0] != ':' then Fail
      else
        var v := ParseValue(Skip(t[1..]));
        if v.Fail? then Fail
        else
          var u := Skip(v.rest);
          if u == [] || u[0] != ',' then Read([Member(name.value, v.value)], u)
          else
            var r := ParseMembers(u[1..]);
            if r.Fail? then Fail else Read([Member(name.value, v.value)] + r.value, r.rest)
  }

  /** cJSON_Parse: what follows the first value is ignored. */
  function Parse(s: string): (r: Parsed<Json>) { ParseValue(Skip(s)) }

  /** cJSON_Print and cJSON_PrintUnformatted */
  function Print(j: Json, fmt: bool): (r: string) { PrintValue(j, 0, fmt) }

  // ----- round trip -----

  /** Trees of 32-bit integers and clean strings. */
  predicate Printable(j: Json)
    decreases j
  {
    match j
    case Number(n) => IsInt32(n)
    case String(s) => Clean(s)
    case Array(items) => forall i :: 0 <= i < |items| ==> Printable(items[i])
    case Object(members) => forall i :: 0 <= i < |members| ==> Clean(members[i].name) && Printable(members[i].value)
    case _ => true
  }

  lemma FirstChar(j: Json, depth: nat, fmt: bool)
    ensures var r := PrintValue(j, depth, fmt);
            |r| > 0 && !IsSpace(r[0]) && r[0] != ']' && r[0] != '}' && r[0] != ',' && !IsSpace(r[|r| - 1])
    ensures var c := PrintValue(j, depth, fmt)[0];
            (c == QUOTE <==> j.String?) && (c == '[' <==> j.Array?) && (c == '{' <==> j.Object?) &&
            (c == '-' || IsDigit(c) <==> j.Number?) && (c == 'n' <==> j.Null?) && (c == 'f' <==> j.False?) &&
            (c == 't' <==> j.True?)
  {
  }

  lemma Assoc(a: string, b: string, c: string)
    ensures (a + b) + c == a + (b + c)
  {
  }

  lemma Dispatch(s: string)
    requires s != [] && s[0] != 'n' && s[0] != 'f' && s[0] != 't'
    ensures s[0] == '[' ==> ParseValue(s) == ParseArray(s)
    ensures s[0] == '{' ==> ParseValue(s) == ParseObject(s)
    ensures s[0] == QUOTE && ParseString(s).Read? ==>
              ParseValue(s) == Read(String(ParseString(s).value), ParseString(s).rest)
    ensures (s[0] == '-' || IsDigit(s[0])) && ParseNumber(s).Read? ==>
              ParseValue(s) == Read(Number(ParseNumber(s).value), ParseNumber(s).rest)
  {
    assert !("null" <= s) && !("false" <= s) && !("true" <= s);
  }

  lemma LiteralRoundTrip(j: Json, rest: string)
    requires j.Null? || j.False? || j.True?
    ensures ParseValue(PrintValue(j, 0, false) + rest) == Read(j, rest)
  {
    var text := PrintValue(j, 0, false);
    var s := text + rest;
    assert text <= s && s[|text|..] == rest && s[0] == text[0];
  }

  lemma {:induction false} ValueRoundTrip(j: Json, depth: nat, fmt: bool, rest: string)
    requires Printable(j) && (j.Number? ==> NumberEnds(rest))
    ensures ParseValue(PrintValue(j, depth, fmt) + rest) == Read(j, rest)
    decreases j, 2
  {
    hide ParseValue, ParseArray, ParseObject, ParseString, ParseNumber, Quote, PrintNumber;
    var text := PrintValue(j, depth, fmt);
    FirstChar(j, depth, fmt);
    if j.Null? || j.False? || j.True? {
      LiteralRoundTrip(j, rest);
    } else {
      assert (text + rest)[0] == text[0];
      Dispatch(text + rest);
      match j {
        case Number(n) => NumberRoundTrip(n, rest);
        case String(str) => StringRoundTrip(str, rest);
        case Array(items) => ArrayRoundTrip(items, depth, fmt, rest);
        case Object(members) => ObjectRoundTrip(members, depth, fmt, rest);
      }
    }
  }

  lemma {:induction false} ArrayRoundTrip(items: seq<Json>, depth: nat, fmt: bool, rest: string)
    requires forall i :: 0 <= i < |items| ==> Printable(items[i])
    ensures ParseArray(PrintValue(Array(items), depth, fmt) + rest) == Read(Array(items), rest)
    decreases items, 1
  {
    hide ParseItems;
    var s := PrintValue(Array(items), depth, fmt) + rest;
    var t := PrintItems(items, depth + 1, fmt) + ("]" + rest);
    assert s[1..] == t;
    assert ("]" + rest)[1..] == rest;
    if items == [] {
      assert t == "]" + rest;
    } else {
      FirstItemChar(items, depth + 1, fmt);
      ItemsRoundTrip(items, depth + 1, fmt, rest);
      assert Skip(t) == t;
    }
  }

  lemma FirstItemChar(items: seq<Json>, depth: nat, fmt: bool)
    requires items != []
    ensures var r := PrintItems(items, depth, fmt); |r| > 0 && !IsSpace(r[0]) && r[0] != ']'
  {
    FirstChar(items[0], depth, fmt);
  }

  /** One element read, and what parse_array's loop does next. */
  lemma ItemRead(s: string, j: Json, after: string)
    requires s != [] && !IsSpace(s[0]) && ParseValue(s) == Read(j, after) && after != [] && !IsSpace(after[0])
    ensures after[0] != ',' ==> ParseItems(s) == Read([j], after)
    ensures after[0] == ',' && ParseItems(after[1..]).Read? ==>
              ParseItems(s) == Read([j] + ParseItems(after[1..]).value, ParseItems(after[1..]).rest)
  {
  }

  lemma ItemsAfterSpace(w: string, s: string)
    requires forall i :: 0 <= i < |w| ==> IsSpace(w[i])
    ensures ParseItems(w + s) == ParseItems(s)
  {
    SkipSpace(w, s);
  }

  lemma SpaceIsSpace(fmt: bool)
    ensures forall i :: 0 <= i < |When(fmt, " ")| ==> IsSpace(When(fmt, " ")[i])
  {
  }

  /** The first item of a printed list and what follows it. */
  lemma {:induction false} ItemsText(items: seq<Json>, depth: nat, fmt: bool, close: string)
    requires items != []
    ensures PrintItems(items, depth, fmt) + close ==
            PrintValue(items[0], depth, fmt) +
            if |items| == 1 then close else "," + (When(fmt, " ") + (PrintItems(items[1..], depth, fmt) + close))
  {
    hide PrintValue, When;
  }

  lemma {:induction false} ItemsRoundTrip(items: seq<Json>, depth: nat, fmt: bool, rest: string)
    requires items != [] && forall i :: 0 <= i < |items| ==> Printable(items[i])
    ensures ParseItems(PrintItems(items, depth, fmt) + ("]" + rest)) == Read(items, "]" + rest)
    decreases items, 0
  {
    hide ParseItems, ParseValue, PrintItems, PrintValue, Printable, When;
    var close := "]" + rest;
    var head := PrintValue(items[0], depth, fmt);
    FirstChar(items[0], depth, fmt);
    ItemsText(items, depth, fmt, close);
    if |items| == 1 {
      ValueRoundTrip(items[0], depth, fmt, close);
      ItemRead(head + close, items[0], close);
      assert items == [items[0]];
    } else {
      var tail := PrintItems(items[1..], depth, fmt);
      var after := "," + (When(fmt, " ") + (tail + close));
      ValueRoundTrip(items[0], depth, fmt, after);
      ItemRead(head + after, items[0], after);
      Tail(',', When(fmt, " ") + (tail + close));
      SpaceIsSpace(fmt);
      ItemsAfterSpace(When(fmt, " "), tail + close);
      ItemsRoundTrip(items[1..], depth, fmt, rest);
      assert items == [items[0]] + items[1..];
    }
  }

  predicate PrintableMembers(members: seq<Member>) {
    forall i :: 0 <= i < |members| ==> Clean(members[i].name) && Printable(members[i].value)
  }

  lemma {:induction false} ObjectRoundTrip(members: seq<Member>, depth: nat, fmt: bool, rest: string)
    requires PrintableMembers(members)
    ensures ParseObject(PrintValue(Object(members), depth, fmt) + rest) == Read(Object(members), rest)
    decreases members, 1
  {
    hide ParseMembers, PrintMembers;
    var text := PrintMembers(members, depth + 1, fmt);
    var close := When(fmt, Tabs(depth)) + ("}" + rest);
    var s := PrintValue(Object(members), depth, fmt) + rest;
    ObjectText(members, depth, fmt, rest);
    SkipSpace(When(fmt, "\n"), text + close);
    SkipSpace(When(fmt, Tabs(depth)), "}" + rest);
    assert Skip("}" + rest) == "}" + rest && ("}" + rest)[1..] == rest;
    if members == [] {
      NoMembers(depth + 1, fmt);
      assert text + close == close;
    } else {
      MembersRoundTrip(members, depth + 1, fmt, close, rest);
      MembersStart(members, depth + 1, fmt, close);
    }
  }

  lemma NoMembers(depth: nat, fmt: bool)
    ensures PrintMembers([], depth, fmt) == []
  {
  }

  lemma ObjectText(members: seq<Member>, depth: nat, fmt: bool, rest: string)
    ensures var s := PrintValue(Object(members), depth, fmt) + rest;
            s[0] == '{' && s[1..] == When(fmt, "\n") + (PrintMembers(members, depth + 1, fmt) +
                                                        (When(fmt, Tabs(depth)) + ("}" + rest)))
  {
    hide PrintMembers;
  }

  lemma MembersStart(members: seq<Member>, depth: nat, fmt: bool, close: string)
    requires members != []
    ensures var s := PrintMembers(members, depth, fmt) + close;
            Skip(s) != [] && Skip(s)[0] == QUOTE && ParseMembers(Skip(s)) == ParseMembers(s)
  {
    hide ParseMembers, PrintMembers, Skip, Quote;
    var s := PrintMembers(members, depth, fmt) + close;
    var w := When(fmt, Tabs(depth));
    MembersAfterTabs(members, depth, fmt);
    assert s == w + s[|w|..];
    SkipSpace(w, s[|w|..]);
    SkipStops(s[|w|..]);
    MembersSkip(s);
  }

  lemma SkipStops(s: string)
    requires s != [] && !IsSpace(s[0])
    ensures Skip(s) == s
  {
  }

  lemma MembersSkip(s: string)
    ensures ParseMembers(Skip(s)) == ParseMembers(s)
  {
    SkipTwice(s);
  }

  lemma {:induction false} SkipTwice(s: string)
    ensures Skip(Skip(s)) == Skip(s)
    decreases |s|
  {
    if s != [] && IsSpace(s[0]) {
      SkipTwice(s[1..]);
    }
  }

  /** After the indentation comes the quote of the first name. */
  lemma MembersAfterTabs(members: seq<Member>, depth: nat, fmt: bool)
    requires members != []
    ensures var s, w := PrintMembers(members, depth, fmt), When(fmt, Tabs(depth));
            |s| > |w| && s[..|w|] == w && s[|w|] == QUOTE
  {
    assert Quote(members[0].name)[0] == QUOTE;
  }

  lemma Assoc8(a: string, b: string, c: string, d: string, e: string, f: string, g: string, h: string, x: string)
    ensures a + b + c + d + e + f + g + h + x == a + (b + (c + (d + (e + (f + (g + (h + x)))))))
  {
    Assoc(a + b + c + d + e + f + g, h, x);
    Assoc(a + b + c + d + e + f, g, h + x);
    Assoc(a + b + c + d + e, f, g + (h + x));
    Assoc(a + b + c + d, e, f + (g + (h + x)));
    Assoc(a + b + c, d, e + (f + (g + (h + x))));
    Assoc(a + b, c, d + (e + (f + (g + (h + x)))));
    Assoc(a, b, c + (d + (e + (f + (g + (h + x))))));
  }

  /** One member and what comes after it. */
  lemma MemberText(members: seq<Member>, depth: nat, fmt: bool, close: string)
    requires members != []
    ensures PrintMembers(members, depth, fmt) + close ==
            When(fmt, Tabs(depth)) + (Quote(members[0].name) + (":" + (When(fmt, "\t") +
              (PrintValue(members[0].value, depth, fmt) + AfterMember(members, depth, fmt, close)))))
  {
    hide Quote, PrintValue, Tabs;
    Assoc8(When(fmt, Tabs(depth)), Quote(members[0].name), ":", When(fmt, "\t"),
           PrintValue(members[0].value, depth, fmt), When(|members| > 1, ","), When(fmt, "\n"),
           PrintMembers(members[1..], depth, fmt), close);
  }

  function AfterMember(members: seq<Member>, depth: nat, fmt: bool, close: string): (r: string)
    requires members != []
  {
    When(|members| > 1, ",") + (When(fmt, "\n") + (PrintMembers(members[1..], depth, fmt) + close))
  }

  lemma AfterMemberFacts(members: seq<Member>, depth: nat, fmt: bool, close: string, rest: string)
    requires members != [] && Skip(close) == "}" + rest
    ensures var after := AfterMember(members, depth, fmt, close);
            NumberEnds(after) && (|members| == 1 ==> Skip(after) == "}" + rest) &&
            (|members| > 1 ==> Skip(after) == after)
  {
    if |members| == 1 {
      assert PrintMembers(members[1..], depth, fmt) + close == close;
      SkipSpace(When(fmt, "\n"), close);
      var after := When(fmt, "\n") + close;
      assert [] + after == after;
      SkipStart(after);
    }
  }

  lemma SkipStart(s: string)
    requires Skip(s) != [] && Skip(s)[0] == '}'
    ensures NumberEnds(s)
  {
  }

  /** One member read, and what parse_object's loop does next. */
  lemma MemberRead(s: string, name: string, colon: string, j: Json, after: string)
    requires ParseString(Skip(s)) == Read(name, colon) && colon != [] && colon[0] == ':'
    requires ParseValue(Skip(colon[1..])) == Read(j, after)
    ensures var u := Skip(after);
            ParseMembers(s) == if u == [] || u[0] != ',' then Read([Member(name, j)], u)
                               else var r := ParseMembers(u[1..]);
                                    if r.Fail? then Fail else Read([Member(name, j)] + r.value, r.rest)
  {
    hide ParseString, ParseValue;
    assert Skip(colon) == colon;
  }

  lemma {:induction false} MembersRoundTrip(members: seq<Member>, depth: nat, fmt: bool, close: string, rest: string)
    requires members != [] && PrintableMembers(members) && Skip(close) == "}" + rest
    ensures ParseMembers(PrintMembers(members, depth, fmt) + close) == Read(members, "}" + rest)
    decreases members, 0
  {
    hide ParseMembers, ParseString, ParseValue, PrintMembers, PrintValue, Quote;
    var s := PrintMembers(members, depth, fmt) + close;
    var name, value := members[0].name, members[0].value;
    var after := AfterMember(members, depth, fmt, close);
    var text := PrintValue(value, depth, fmt) + after;
    var colon := ":" + (When(fmt, "\t") + text);
    MemberText(members, depth, fmt, close);
    SkipSpace(When(fmt, Tabs(depth)), Quote(name) + colon);
    assert Skip(s) == Quote(name) + colon;
    StringRoundTrip(name, colon);
    assert colon[1..] == When(fmt, "\t") + text;
    SkipSpace(When(fmt, "\t"), text);
    FirstChar(value, depth, fmt);
    AfterMemberFacts(members, depth, fmt, close, rest);
    ValueRoundTrip(value, depth, fmt, after);
    MemberRead(s, name, colon, value, after);
    assert members == [Member(name, value)] + members[1..];
    if |members| == 1 {
      assert members == [Member(name, value)];
    } else {
      var more := PrintMembers(members[1..], depth, fmt) + close;
      assert after[1..] == When(fmt, "\n") + more;
      MembersRoundTrip(members[1..], depth, fmt, close, rest);
      MembersAfterSpace(When(fmt, "\n"), more);
    }
  }

  lemma MembersAfterSpace(w: string, s: string)
    requires forall i :: 0 <= i < |w| ==> IsSpace(w[i])
    ensures ParseMembers(w + s) == ParseMembers(s)
  {
    SkipSpace(w, s);
  }

  /** Parsing the printed form of any printable tree gives the tree back,
      formatted or not, whatever follows it. */
  lemma RoundTrip(j: Json, fmt: bool, rest: string)
    requires Printable(j) && (j.Number? ==> NumberEnds(rest))
    ensures Parse(Print(j, fmt) + rest) == Read(j, rest)
  {
    hide ParseValue, PrintValue;
    FirstChar(j, 0, fmt);
    ValueRoundTrip(j, 0, fmt, rest);
  }

  /** What can be sent: every 32-bit integer, and text whose only control characters are
      backspace, tab, newline, form feed and carriage return. */
  lemma PrintableIff(n: int, s: string)
    ensures Printable(Number(n)) <==> -2147483648 <= n <= 2147483647
    ensures Printable(String(s)) <==>
            forall i :: 0 <= i < |s| ==> s[i] as int >= 32 || s[i] as int in [8, 9, 10, 12, 13]
  {
    hide EscapeAll;
    forall i | 0 <= i < |s|
      ensures !IsControl(s[i]) || HasEscape(s[i]) <==> s[i] as int >= 32 || s[i] as int in [8, 9, 10, 12, 13]
    {
      assert s[i] as int as char == s[i];
    }
  }

  // ----- the loops over characters -----

  /** One turn of print_string_ptr's loop. */
  method PrintChar(before: string, c: char) returns (out: string)
    ensures out == before + Escape(c)
  {
    out := before;
    if !IsControl(c) && c != QUOTE && c != BACKSLASH {
      out := out + [c];
    } else {
      out := out + [BACKSLASH];
      match c {
        case '\\' => out := out + [BACKSLASH];
        case '\"' => out := out + [QUOTE];
        case '\n' => out := out + ['n'];
        case '\r' => out := out + ['r'];
        case '\t' => out := out + ['t'];
        case c =>
          out := if c == BS then out + ['b'] else if c == FF then out + ['f'] else out[..|out| - 1];
      }
    }
  }

  /** print_string_ptr */
  method PrintStringPtr(str: string) returns (out: string)
    ensures out == Quote(str)
  {
    hide Escape;
    out := [QUOTE];
    var ptr := 0;
    while ptr < |str|
      invariant 0 <= ptr <= |str| && out + EscapeAll(str[ptr..]) == [QUOTE] + EscapeAll(str)
    {
      assert str[ptr..][1..] == str[ptr + 1..];
      Assoc(out, Escape(str[ptr]), EscapeAll(str[ptr + 1..]));
      out := PrintChar(out, str[ptr]);
      ptr := ptr + 1;
    }
    out := out + [QUOTE];
  }

  /** parse_string's copying loop, from just after the opening quote at `at`. */
  method ParseStringPtr(s: string, at: nat) returns (ok: bool, out: string, ptr: nat)
    requires at < |s| && s[at] == QUOTE
    ensures ok <==> ParseString(s[at..]).Read?
    ensures ok ==> ptr <= |s| && ParseString(s[at..]) == Read(out, s[ptr..])
  {
    hide ParseChars, Unescape, IsControl;
    ptr, out := at + 1, [];
    ghost var whole := ParseChars(s[at + 1..]);
    assert s[at..][1..] == s[at + 1..] && (whole.Read? ==> [] + whole.value == whole.value);
    while ptr < |s| && s[ptr] != QUOTE && !IsControl(s[ptr])
      invariant at < ptr <= |s|
      invariant Resumes(whole, out, ParseChars(s[ptr..]))
    {
      if s[ptr] != BACKSLASH {
        assert s[ptr..] == [s[ptr]] + s[ptr + 1..];
        PlainRead(s[ptr], s[ptr + 1..]);
        ResumesOn(whole, out, s[ptr], ParseChars(s[ptr + 1..]));
        out, ptr := out + [s[ptr]], ptr + 1;
      } else {
        CharsEnd(s[ptr..]);
        if ptr + 1 == |s| || s[ptr + 1] == 'u' { return false, out, ptr; }
        assert s[ptr..] == [BACKSLASH, s[ptr + 1]] + s[ptr + 2..];
        EscapedRead(s[ptr + 1], s[ptr + 2..]);
        ResumesOn(whole, out, Unescape(s[ptr + 1]), ParseChars(s[ptr + 2..]));
        out, ptr := out + [Unescape(s[ptr + 1])], ptr + 2;
      }
    }
    ok := true;
    assert out + [] == out;
    CharsEnd(s[ptr..]);
    if ptr < |s| && s[ptr] == QUOTE {
      assert s[ptr..][1..] == s[ptr + 1..];
      ptr := ptr + 1;
    }
  }

  /** `out` has been read already, `left` is the outcome for the rest. */
  predicate Resumes(whole: Parsed<string>, out: string, left: Parsed<string>) {
    if left.Fail? then whole.Fail? else whole == Read(out + left.value, left.rest)
  }

  lemma ResumesOn(whole: Parsed<string>, out: string, c: char, left: Parsed<string>)
    requires left.Read? ==> Resumes(whole, out, Read([c] + left.value, left.rest))
    requires left.Fail? ==> whole.Fail?
    ensures Resumes(whole, out + [c], left)
  {
    if left.Read? {
      Assoc(out, [c], left.value);
    }
  }

  /** parse_number's digit loop. */
  method ReadDigits(s: string) returns (n: nat, ptr: nat)
    ensures ptr == |DigitRun(s)| && n == Accumulate(0, DigitRun(s))
  {
    n, ptr := 0, 0;
    while ptr < |s| && IsDigit(s[ptr])
      invariant 0 <= ptr <= |s| && DigitRun(s) == s[..ptr] + DigitRun(s[ptr..])
      invariant Accumulate(0, DigitRun(s)) == Accumulate(n, DigitRun(s[ptr..]))
    {
      var d := DigitRun(s[ptr..]);
      assert s[ptr..][1..] == s[ptr + 1..] && d == [s[ptr]] + DigitRun(s[ptr + 1..]);
      assert d[1..] == DigitRun(s[ptr + 1..]);
      n, ptr := n * 10 + DigitValue(s[ptr]), ptr + 1;
    }
  }
}

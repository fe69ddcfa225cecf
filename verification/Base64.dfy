/**
 The base64 codec of corelib/modp_b64.c (section 4 of RFC 4648), in its
 little-endian form.  The lookup tables are given by the formulas that
 corelib/modp_b64_gen.c fills them with.
 */
module Base64 {

  type Byte = bv8

  const PAD: Byte := 61
  const BADCHAR: bv32 := 0x01FFFFFF

  /** b64chars[i] */
  function Alphabet(i: Byte): (c: Byte)
    requires i < 64
    ensures IsAlphabet(c) && Index(c) == i && c != PAD && c != 0
  {
    if i < 26 then i + 65
    else if i < 52 then i + 71
    else if i < 62 then i - 4
    else if i == 62 then 43
    else 47
  }

  predicate IsAlphabet(c: Byte) {
    65 <= c <= 90 || 97 <= c <= 122 || 48 <= c <= 57 || c == 43 || c == 47
  }

  function Index(c: Byte): (i: Byte)
    requires IsAlphabet(c)
    ensures i < 64
  {
    if 65 <= c <= 90 then c - 65
    else if 97 <= c <= 122 then c - 71
    else if 48 <= c <= 57 then c + 4
    else if c == 43 then 62
    else 63
  }

  // ----- the tables -----

  function E0(t: Byte): (c: Byte) { Alphabet((t >> 2) & 0x3F) }
  function E1(t: Byte): (c: Byte) { Alphabet(t & 0x3F) }
  function E2(t: Byte): (c: Byte) { Alphabet(t & 0x3F) }

  function D0(c: Byte): (x: bv32) { if IsAlphabet(c) then (Index(c) as bv32) << 2 else BADCHAR }

  function D1(c: Byte): (x: bv32) {
    if IsAlphabet(c) then
      var i := Index(c) as bv32;
      ((i & 0x30) >> 4) | ((i & 0x0F) << 12)
    else BADCHAR
  }

  function D2(c: Byte): (x: bv32) {
    if IsAlphabet(c) then
      var i := Index(c) as bv32;
      ((i & 0x03) << 22) | ((i & 0x3C) << 6)
    else BADCHAR
  }

  function D3(c: Byte): (x: bv32) { if IsAlphabet(c) then (Index(c) as bv32) << 16 else BADCHAR }

  /** Byte `k` of a little-endian word. */
  function ByteOf(x: bv32, k: nat): (b: Byte)
    requires k < 4
  {
    if k == 0 then (x & 0xFF) as bv8
    else if k == 1 then ((x >> 8) & 0xFF) as bv8
    else if k == 2 then ((x >> 16) & 0xFF) as bv8
    else ((x >> 24) & 0xFF) as bv8
  }

  // ----- one group -----

  function Quad(a: Byte, b: Byte, c: Byte): (q: seq<Byte>)
    ensures |q| == 4
  {
    [E0(a), E1(((a & 0x03) << 4) | ((b >> 4) & 0x0F)), E1(((b & 0x0F) << 2) | ((c >> 6) & 0x03)), E2(c)]
  }

  function Triple(a: Byte, b: Byte): (q: seq<Byte>)
    ensures |q| == 3
  {
    [E0(a), E1(((a & 0x03) << 4) | ((b >> 4) & 0x0F)), E2((b & 0x0F) << 2)]
  }

  function Pair(a: Byte): (q: seq<Byte>)
    ensures |q| == 2
  {
    [E0(a), E1((a & 0x03) << 4)]
  }

  function Word(p: Byte, q: Byte, r: Byte, s: Byte): (x: bv32) { D0(p) | D1(q) | D2(r) | D3(s) }

  lemma TableValues(c: Byte)
    ensures IsAlphabet(c) ==> D0(c) < 0x1000000 && D1(c) < 0x1000000 && D2(c) < 0x1000000 && D3(c) < 0x1000000
    ensures !IsAlphabet(c) ==> D0(c) == BADCHAR && D1(c) == BADCHAR && D2(c) == BADCHAR && D3(c) == BADCHAR
  {
  }

  lemma OrBad(x: bv32, y: bv32)
    requires (x < 0x1000000 || x == BADCHAR) && (y < 0x1000000 || y == BADCHAR)
    ensures x | y == BADCHAR <==> x == BADCHAR || y == BADCHAR
    ensures x | y < 0x1000000 || x | y == BADCHAR
  {
  }

  /** A word is bad exactly when one of its characters is foreign. */
  lemma WordBad(p: Byte, q: Byte, r: Byte, s: Byte)
    ensures Word(p, q, r, s) >= BADCHAR <==> !(IsAlphabet(p) && IsAlphabet(q) && IsAlphabet(r) && IsAlphabet(s))
    ensures D0(p) | D1(q) | D2(r) >= BADCHAR <==> !(IsAlphabet(p) && IsAlphabet(q) && IsAlphabet(r))
    ensures D0(p) | D1(q) >= BADCHAR <==> !(IsAlphabet(p) && IsAlphabet(q))
  {
    TableValues(p);
    TableValues(q);
    TableValues(r);
    TableValues(s);
    OrBad(D0(p), D1(q));
    OrBad(D0(p) | D1(q), D2(r));
    OrBad(D0(p) | D1(q) | D2(r), D3(s));
  }

  function Bytes(x: bv32, n: nat): (r: seq<Byte>)
    requires n <= 3
    ensures |r| == n
  {
    [ByteOf(x, 0), ByteOf(x, 1), ByteOf(x, 2)][..n]
  }

  /** Up to three bytes as characters, without padding. */
  function EncodeGroup(g: seq<Byte>): (q: seq<Byte>)
    requires |g| <= 3
    ensures |q| == if |g| == 0 then 0 else |g| + 1
  {
    if |g| == 0 then []
    else if |g| == 1 then Pair(g[0])
    else if |g| == 2 then Triple(g[0], g[1])
    else Quad(g[0], g[1], g[2])
  }

  predicate GroupSize(n: nat) { n <= 4 && n != 1 }

  /** The word a group of characters makes. */
  function GroupWord(q: seq<Byte>): (x: bv32)
    requires GroupSize(|q|)
  {
    if |q| == 0 then 0
    else if |q| == 2 then D0(q[0]) | D1(q[1])
    else if |q| == 3 then D0(q[0]) | D1(q[1]) | D2(q[2])
    else Word(q[0], q[1], q[2], q[3])
  }

  /** Up to four characters as bytes. */
  function DecodeGroup(q: seq<Byte>): (g: seq<Byte>)
    requires GroupSize(|q|)
    ensures |g| == if |q| == 0 then 0 else |q| - 1
  {
    if |q| == 0 then [] else Bytes(GroupWord(q), |q| - 1)
  }

  predicate AllAlphabet(s: seq<Byte>) {
    forall i :: 0 <= i < |s| ==> IsAlphabet(s[i])
  }

  lemma GroupRoundTrip(g: seq<Byte>)
    requires |g| <= 3
    ensures DecodeGroup(EncodeGroup(g)) == g
  {
    hide DecodeGroup, Pair, Triple, Quad;
    if |g| == 3 {
      QuadRoundTrip(g[0], g[1], g[2]);
    } else if |g| == 2 {
      TripleRoundTrip(g[0], g[1]);
    } else if |g| == 1 {
      PairRoundTrip(g[0]);
    }
  }

  lemma QuadRoundTrip(a: Byte, b: Byte, c: Byte)
    ensures DecodeGroup(Quad(a, b, c)) == [a, b, c]
  {
  }

  lemma TripleRoundTrip(a: Byte, b: Byte)
    ensures DecodeGroup(Triple(a, b)) == [a, b]
  {
  }

  lemma PairRoundTrip(a: Byte)
    ensures DecodeGroup(Pair(a)) == [a]
  {
  }

  lemma GroupInAlphabet(g: seq<Byte>)
    requires |g| <= 3
    ensures AllAlphabet(EncodeGroup(g)) && PAD !in EncodeGroup(g)
  {
  }

  lemma GroupBad(q: seq<Byte>)
    requires GroupSize(|q|)
    ensures GroupWord(q) >= BADCHAR <==> !AllAlphabet(q)
  {
    if |q| == 4 {
      WordBad(q[0], q[1], q[2], q[3]);
    } else if |q| == 3 {
      WordBad(q[0], q[1], q[2], 0);
    } else if |q| == 2 {
      WordBad(q[0], q[1], 0, 0);
    }
  }

  // ----- the encoding and the decoding, as functions -----

  /** The encoding without padding. */
  function EncodeBody(b: seq<Byte>): (s: seq<Byte>)
    ensures |s| == |b| / 3 * 4 + (if |b| % 3 == 0 then 0 else |b| % 3 + 1)
    decreases |b|
  {
    if |b| <= 3 then EncodeGroup(b) else EncodeGroup(b[..3]) + EncodeBody(b[3..])
  }

  function Padding(n: nat): (s: seq<Byte>) {
    if n % 3 == 0 then [] else if n % 3 == 1 then [PAD, PAD] else [PAD]
  }

  function Encoded(b: seq<Byte>): (s: seq<Byte>)
    ensures |s| == (|b| + 2) / 3 * 4
  {
    EncodeBody(b) + Padding(|b|)
  }

  /** The length of a text of whole groups, once at most two pads are dropped. */
  function Unpadded(s: seq<Byte>): (n: nat)
    requires |s| >= 4
    ensures |s| - 2 <= n <= |s|
  {
    if s[|s| - 1] != PAD then |s| else if s[|s| - 2] != PAD then |s| - 1 else |s| - 2
  }

  function DecodeBody(s: seq<Byte>): (b: seq<Byte>)
    requires |s| % 4 != 1
    decreases |s|
  {
    if |s| <= 4 then DecodeGroup(s) else DecodeGroup(s[..4]) + DecodeBody(s[4..])
  }

  /** What decode accepts: whole groups, at most two pads and those at the end,
      and otherwise only characters of the alphabet. */
  predicate Decodable(s: seq<Byte>) {
    |s| == 0 || (|s| % 4 == 0 && AllAlphabet(s[..Unpadded(s)]))
  }

  function Decoded(s: seq<Byte>): (b: seq<Byte>)
    requires Decodable(s)
  {
    if |s| == 0 then [] else DecodeBody(s[..Unpadded(s)])
  }

  /** The alphabet starts at "A", goes on at "a" and "0", ends in "+" and "/", and is
      consecutive between. */
  lemma AlphabetLaw(i: Byte)
    requires i < 61 && i != 25 && i != 51
    ensures Alphabet(0) == 65 && Alphabet(26) == 97 && Alphabet(52) == 48 && Alphabet(62) == 43 && Alphabet(63) == 47
    ensures Alphabet(i + 1) == Alphabet(i) + 1
  {
    assert i + 1 < 62;
  }

  /** The texts of "f", "fo" and "foo", from the test vectors of section 10 of RFC 4648. */
  lemma Examples()
    ensures Encoded([102]) == [90, 103, 61, 61]
    ensures Encoded([102, 111]) == [90, 109, 56, 61]
    ensures Encoded([102, 111, 111]) == [90, 109, 57, 118]
  {
    assert E0(102) == 90 && E1((102 & 0x03) << 4) == 103;
  }

  // ----- round trip -----

  lemma {:induction false} SmallBody(b: seq<Byte>)
    requires |b| <= 3
    ensures EncodeBody(b) == EncodeGroup(b) && |EncodeGroup(b)| <= 4 && |EncodeGroup(b)| % 4 != 1
    ensures DecodeBody(EncodeGroup(b)) == DecodeGroup(EncodeGroup(b))
  {
    hide Quad, Triple, Pair, DecodeGroup;
  }

  lemma {:induction false} LargeBody(b: seq<Byte>)
    requires |b| > 3
    ensures EncodeBody(b) == EncodeGroup(b[..3]) + EncodeBody(b[3..]) && |EncodeGroup(b[..3])| == 4 &&
            EncodeBody(b[3..]) != []
  {
    hide Quad, Triple, Pair;
  }

  lemma {:induction false} DecodedAppend(x: seq<Byte>, y: seq<Byte>)
    requires |x| == 4 && |y| > 0 && |y| % 4 != 1
    ensures DecodeBody(x + y) == DecodeGroup(x) + DecodeBody(y)
  {
    hide DecodeGroup;
    assert (x + y)[..4] == x && (x + y)[4..] == y;
  }

  lemma AlphabetAppend(x: seq<Byte>, y: seq<Byte>)
    requires AllAlphabet(x) && AllAlphabet(y) && PAD !in x && PAD !in y
    ensures AllAlphabet(x + y) && PAD !in x + y
  {
    hide IsAlphabet;
  }

  lemma {:induction false} BodyRoundTrip(b: seq<Byte>)
    ensures |EncodeBody(b)| % 4 != 1 && DecodeBody(EncodeBody(b)) == b
    ensures AllAlphabet(EncodeBody(b)) && PAD !in EncodeBody(b)
    decreases |b|
  {
    hide EncodeGroup, DecodeGroup, EncodeBody, DecodeBody, AllAlphabet, IsAlphabet;
    if |b| <= 3 {
      SmallBody(b);
      GroupRoundTrip(b);
      GroupInAlphabet(b);
    } else {
      LargeBody(b);
      BodyRoundTrip(b[3..]);
      GroupRoundTrip(b[..3]);
      GroupInAlphabet(b[..3]);
      DecodedAppend(EncodeGroup(b[..3]), EncodeBody(b[3..]));
      AlphabetAppend(EncodeGroup(b[..3]), EncodeBody(b[3..]));
      assert b == b[..3] + b[3..];
    }
  }

  /** The encoding is whole groups, one at least unless there is nothing to encode. */
  lemma EncodedShape(b: seq<Byte>)
    ensures Encoded(b) == EncodeBody(b) + Padding(|b|) && |Encoded(b)| % 4 == 0
    ensures b == [] <==> Encoded(b) == []
    ensures b != [] ==> |Encoded(b)| >= 4 && EncodeBody(b) != []
  {
    hide EncodeBody, Padding;
  }

  /** decode(encode(b)) == b, for every byte string. */
  lemma RoundTrip(b: seq<Byte>)
    ensures Decodable(Encoded(b)) && Decoded(Encoded(b)) == b
  {
    hide Encoded, EncodeBody, DecodeBody, AllAlphabet, Padding, Unpadded;
    EncodedShape(b);
    BodyRoundTrip(b);
    if b != [] {
      UnpaddedBody(EncodeBody(b), |b|);
    }
  }

  lemma UnpaddedBody(body: seq<Byte>, n: nat)
    requires body != [] && PAD !in body && |body + Padding(n)| >= 4
    ensures Unpadded(body + Padding(n)) == |body| && (body + Padding(n))[..|body|] == body
  {
    var s := body + Padding(n);
    assert s[|body| - 1] == body[|body| - 1] && body[|body| - 1] in body;
  }

  // ----- the code -----

  /** One turn of modp_b64_encode's loop, or its switch. */
  method PutGroup(dest: array<Byte>, p: nat, g: seq<Byte>)
    requires 1 <= |g| <= 3 && p + 4 <= dest.Length
    modifies dest
    ensures dest[..p + 4] == old(dest[..p]) + EncodeGroup(g) + Padding(|g|)
  {
    if |g| == 3 {
      dest[p] := E0(g[0]);
      dest[p + 1] := E1(((g[0] & 0x03) << 4) | ((g[1] >> 4) & 0x0F));
      dest[p + 2] := E1(((g[1] & 0x0F) << 2) | ((g[2] >> 6) & 0x03));
      dest[p + 3] := E2(g[2]);
    } else if |g| == 1 {
      dest[p], dest[p + 1], dest[p + 2], dest[p + 3] := E0(g[0]), E1((g[0] & 0x03) << 4), PAD, PAD;
    } else {
      dest[p], dest[p + 1] := E0(g[0]), E1(((g[0] & 0x03) << 4) | ((g[1] >> 4) & 0x0F));
      dest[p + 2], dest[p + 3] := E2((g[1] & 0x0F) << 2), PAD;
    }
  }

  /** modp_b64_encode */
  method Encode(dest: array<Byte>, str: seq<Byte>) returns (n: nat)
    requires dest.Length >= (|str| + 2) / 3 * 4 + 1
    modifies dest
    ensures n == |Encoded(str)| < dest.Length && dest[..n] == Encoded(str) && dest[n] == 0
  {
    hide EncodeGroup, EncodeBody;
    var i, p := 0, 0;
    ghost var c := 0;
    while i < |str| - 2
      invariant i == 3 * c && p == 4 * c && i <= |str|
      invariant dest[..p] + EncodeBody(str[i..]) == EncodeBody(str)
    {
      PutGroup(dest, p, str[i..i + 3]);
      assert str[i..][..3] == str[i..i + 3] && str[i..][3..] == str[i + 3..];
      NextEncoded(str[i..]);
      p, i, c := p + 4, i + 3, c + 1;
    }
    LastEncoded(str[i..]);
    if i < |str| {
      PutGroup(dest, p, str[i..]);
      assert dest[..p + 4] == EncodeBody(str) + Padding(|str|);
      p := p + 4;
    }
    assert dest[..p] == Encoded(str);
    dest[p] := 0;
    n := p;
  }

  lemma LastEncoded(b: seq<Byte>)
    ensures |b| < 3 ==> EncodeBody(b) == EncodeGroup(b) && (b == [] ==> EncodeBody(b) == [])
  {
    hide Quad, E0, E1, E2;
  }

  lemma NextEncoded(b: seq<Byte>)
    requires |b| >= 3
    ensures EncodeBody(b) == EncodeGroup(b[..3]) + EncodeBody(b[3..])
  {
    hide Quad, E0, E1, E2;
    assert |b| == 3 ==> b[..3] == b;
  }

  /** A 32-bit store: four bytes, of which the next store will overwrite the last. */
  method StoreWord(dest: array<Byte>, p: nat, x: bv32)
    requires p + 4 <= dest.Length
    modifies dest
    ensures dest[..p + 3] == old(dest[..p]) + Bytes(x, 3)
  {
    dest[p], dest[p + 1], dest[p + 2], dest[p + 3] := ByteOf(x, 0), ByteOf(x, 1), ByteOf(x, 2), ByteOf(x, 3);
  }

  /** The closing byte stores. */
  method StoreBytes(dest: array<Byte>, p: nat, x: bv32, n: nat)
    requires 1 <= n <= 3 && p + n <= dest.Length
    modifies dest
    ensures dest[..p + n] == old(dest[..p]) + Bytes(x, n)
  {
    dest[p] := ByteOf(x, 0);
    if n > 1 { dest[p + 1] := ByteOf(x, 1); }
    if n > 2 { dest[p + 2] := ByteOf(x, 2); }
  }

  lemma {:induction false} DecodeBodySplit(s: seq<Byte>, c: nat)
    requires |s| % 4 != 1 && 4 * c <= |s|
    ensures DecodeBody(s) == DecodeBody(s[..4 * c]) + DecodeBody(s[4 * c..])
    decreases c
  {
    hide DecodeGroup;
    if c == 0 {
      assert s[..0] == [] && s[0..] == s;
    } else if |s| == 4 {
      assert s[..4] == s && s[4..] == [];
    } else {
      var i := 4 * c;
      var head, rest := s[..i], s[4..];
      DecodeBodySplit(rest, c - 1);
      assert head[..4] == s[..4] && head[4..] == rest[..i - 4] && rest[i - 4..] == s[i..];
      HeadDecoded(head);
    }
  }

  lemma HeadDecoded(s: seq<Byte>)
    requires |s| % 4 == 0 && |s| >= 4
    ensures DecodeBody(s) == DecodeGroup(s[..4]) + DecodeBody(s[4..])
  {
    hide Bytes, GroupWord;
    assert |s| == 4 ==> s[..4] == s;
  }

  /** modp_b64_decode's loop over the whole groups before the last. */
  method DecodeChunks(dest: array<Byte>, src: seq<Byte>, chunks: nat, ghost len: nat) returns (ok: bool)
    requires 4 * chunks <= len <= |src| && dest.Length > 3 * chunks
    modifies dest
    ensures ok ==> AllAlphabet(src[..4 * chunks]) && dest[..3 * chunks] == DecodeBody(src[..4 * chunks])
    ensures !ok ==> !AllAlphabet(src[..len])
  {
    hide DecodeGroup, GroupWord, Bytes, IsAlphabet, DecodeBody;
    NoneDecoded(src);
    for i := 0 to chunks
      invariant AllAlphabet(src[..4 * i]) && dest[..3 * i] == DecodeBody(src[..4 * i])
    {
      var q := src[4 * i..4 * i + 4];
      var x := GroupWord(q);
      GroupBad(q);
      NextDecoded(src, i, 4 * i + 4, len);
      if x >= BADCHAR { return false; }
      StoreWord(dest, 3 * i, x);
    }
    ok := true;
  }

  /** modp_b64_decode */
  method Decode(dest: array<Byte>, src: seq<Byte>) returns (n: int)
    requires dest.Length >= |src| / 4 * 3 + 2
    modifies dest
    ensures n == -1 <==> !Decodable(src)
    ensures n != -1 ==> 0 <= n <= dest.Length && dest[..n] == Decoded(src)
  {
    hide DecodeGroup, GroupWord, Bytes, IsAlphabet, DecodeBody, AllAlphabet;
    if |src| == 0 { return 0; }
    if |src| < 4 || |src| % 4 != 0 { return -1; }
    var len := |src|;
    if src[len - 1] == PAD {
      len := len - 1;
      if src[len - 1] == PAD {
        len := len - 1;
      }
    }
    assert len == Unpadded(src);
    var leftover := len % 4;
    var chunks := if leftover == 0 then len / 4 - 1 else len / 4;
    assert |src| == 4 * chunks + 4;
    var ok := DecodeChunks(dest, src, chunks, len);
    if !ok { return -1; }
    var q := src[4 * chunks..len];
    var x := GroupWord(q);
    GroupBad(q);
    NextDecoded(src, chunks, len, len);
    if x >= BADCHAR { return -1; }
    StoreBytes(dest, 3 * chunks, x, |q| - 1);
    n := 3 * chunks + |q| - 1;
  }

  lemma NoneDecoded(src: seq<Byte>)
    ensures DecodeBody(src[..0]) == [] && AllAlphabet(src[..0])
  {
  }

  lemma NextDecoded(src: seq<Byte>, c: nat, j: nat, len: nat)
    requires 4 * c + 2 <= j <= 4 * c + 4 && j <= len <= |src| && AllAlphabet(src[..4 * c])
    ensures DecodeBody(src[..j]) == DecodeBody(src[..4 * c]) + Bytes(GroupWord(src[4 * c..j]), j - 4 * c - 1)
    ensures AllAlphabet(src[4 * c..j]) <==> AllAlphabet(src[..j])
    ensures !AllAlphabet(src[4 * c..j]) ==> !AllAlphabet(src[..len])
  {
    hide GroupWord, Bytes, IsAlphabet;
    var s, i := src[..j], 4 * c;
    DecodeBodySplit(s, c);
    assert s[..i] == src[..i] && s[i..] == src[i..j];
    assert forall k :: i <= k < j ==> s[k] == src[i..j][k - i];
    assert forall k :: 0 <= k < i ==> s[k] == src[..i][k];
    if !AllAlphabet(src[i..j]) {
      var k :| 0 <= k < j - i && !IsAlphabet(src[i..j][k]);
      assert src[..len][i + k] == src[i..j][k] && s[i + k] == src[i..j][k];
    }
  }
}

/**
 The stored form of a record (corelib/OeStoreHolder.c): marshalling into a
 buffer, reading it back, and the peeks at fixed offsets through which the index
 callbacks see it.
 */
module HolderCodec {
  import opened Space

  const NUL := '\0'

  // Sizes of the fields on a little-endian machine with 64-bit ids and times.
  const INT := 4
  const LONG := 8
  const STRUCT := 48
  const LID_POS := 5
  const TID_POS := 13
  const EXP_POS := 21
  const HEADER := 37

  // ----- little-endian words -----

  function Range(w: nat): (r: nat)
    ensures r > 0
  {
    if w == 0 then 1 else 256 * Range(w - 1)
  }

  /** The low `w` bytes of `n`. */
  function Word(n: nat, w: nat): (s: string)
    ensures |s| == w
  {
    if w == 0 then [] else [(n % 256) as char] + Word(n / 256, w - 1)
  }

  function Value(s: string): (n: nat) {
    if s == [] then 0 else s[0] as int + 256 * Value(s[1..])
  }

  lemma {:induction false} WordRoundTrip(n: nat, w: nat)
    requires n < Range(w)
    ensures Value(Word(n, w)) == n
    decreases w
  {
    if w > 0 {
      WordRoundTrip(n / 256, w - 1);
      assert Word(n, w)[1..] == Word(n / 256, w - 1);
    }
  }

  /** Two's complement in 64 bits. */
  function Unsigned(t: Time): (n: int) { if t < 0 then t + Range(LONG) else t }

  function Signed(n: nat): (t: Time) { if n >= Range(LONG) / 2 then n - Range(LONG) else n }

  // ----- the stored form -----

  function LockCode(lock: Lock): (n: nat) {
    match lock case Unlocked => 0 case WriteLock => 1 case TakeLock => 2
  }

  function LockOf(n: nat): (lock: Lock) {
    if n == 0 then Unlocked else if n == 1 then WriteLock else TakeLock
  }

  /** The record holds C values: ids and times of 64 bits, attributes that are C
      strings, counts that fit an int. */
  predicate Fits(h: Holder) {
    h.leaseId < Range(LONG) && h.txnId < Range(LONG) &&
    -(Range(LONG) / 2) <= h.expire < Range(LONG) / 2 &&
    |h.data.bytes| < Range(INT) / 2 && |h.data.attrs| < Range(INT) / 2 &&
    forall i :: 0 <= i < |h.data.attrs| ==> NUL !in h.data.attrs[i]
  }

  function Header(h: Holder): (s: string)
    requires Fits(h)
    ensures |s| == HEADER
  {
    Word(LockCode(h.lock), INT) + [if h.isTuple then 1 as char else NUL] + Word(h.leaseId, LONG) +
    Word(h.txnId, LONG) + Word(Unsigned(h.expire), LONG) + Word(|h.data.bytes|, INT) + Word(|h.data.attrs|, INT)
  }

  function AttrBytes(attrs: seq<string>): (s: string) {
    if attrs == [] then [] else AttrBytes(attrs[..|attrs| - 1]) + attrs[|attrs| - 1] + [NUL]
  }

  function Chars(bytes: seq<bv8>): (s: string)
    ensures |s| == |bytes|
  {
    seq(|bytes|, i requires 0 <= i < |bytes| => bytes[i] as char)
  }

  function Stored(h: Holder): (s: string)
    requires Fits(h)
  {
    Header(h) + AttrBytes(h.data.attrs) + Chars(h.data.bytes)
  }

  /** The fields of the stored form: the lowest byte comes first, "for ever" is all ones,
      and attributes end in a NUL. */
  lemma StoredBytes()
    ensures Word(258, 4) == [2 as char, 1 as char, NUL, NUL]
    ensures LockCode(TakeLock) == 2 && LockCode(WriteLock) == 1 && LockCode(Unlocked) == 0
    ensures Unsigned(-1) == 0xffff_ffff_ffff_ffff && Range(LONG) == 0x1_0000_0000_0000_0000
    ensures AttrBytes(["a", "b"]) == ['a', 0 as char, 'b', 0 as char]
  {
    assert Range(8) == 256 * Range(7) && Range(7) == 256 * Range(6) && Range(6) == 256 * Range(5);
    assert Range(5) == 256 * Range(4) && Range(4) == 0x1_0000_0000;
    assert Word(258, 4) == [2 as char] + Word(1, 3) && Word(1, 3) == [1 as char] + Word(0, 2);
    assert Word(0, 2) == [NUL] + Word(0, 1) && Word(0, 1) == [NUL] + Word(0, 0);
    assert ["a", "b"][..1] == ["a"] && ["a"][..0] == [];
    assert AttrBytes(["a"]) == AttrBytes([]) + "a" + [NUL];
  }

  /** `s` occurs in `buffer` at `pos`. */
  predicate At(buffer: string, pos: nat, s: string) {
    pos + |s| <= |buffer| && buffer[pos..pos + |s|] == s
  }

  // ----- reading words out of a buffer -----

  function WordAt(buffer: string, pos: nat, w: nat): (n: nat)
    requires pos + w <= |buffer|
  {
    Value(buffer[pos..pos + w])
  }

  /** OeStoreHolder_peek_lease_id */
  function PeekLeaseId(buffer: string): (id: Id)
    requires |buffer| >= HEADER
  {
    WordAt(buffer, LID_POS, LONG)
  }

  /** OeStoreHolder_peek_txn_id */
  function PeekTxnId(buffer: string): (id: Id)
    requires |buffer| >= HEADER
  {
    WordAt(buffer, TID_POS, LONG)
  }

  /** OeStoreHolder_peek_lease_exp_time */
  function PeekExpire(buffer: string): (t: Time)
    requires |buffer| >= HEADER
  {
    Signed(WordAt(buffer, EXP_POS, LONG))
  }

  lemma HeaderParts(h: Holder, buffer: string)
    requires Fits(h) && Header(h) <= buffer
    ensures At(buffer, 0, Word(LockCode(h.lock), INT))
    ensures buffer[INT] == if h.isTuple then 1 as char else NUL
    ensures At(buffer, LID_POS, Word(h.leaseId, LONG))
    ensures At(buffer, TID_POS, Word(h.txnId, LONG))
    ensures At(buffer, EXP_POS, Word(Unsigned(h.expire), LONG))
    ensures At(buffer, EXP_POS + LONG, Word(|h.data.bytes|, INT))
    ensures At(buffer, EXP_POS + LONG + INT, Word(|h.data.attrs|, INT))
  {
    hide Word;
    SevenParts(buffer, Word(LockCode(h.lock), INT), if h.isTuple then 1 as char else NUL, Word(h.leaseId, LONG),
               Word(h.txnId, LONG), Word(Unsigned(h.expire), LONG), Word(|h.data.bytes|, INT),
               Word(|h.data.attrs|, INT));
  }

  /** Where parts of the header's sizes lie when they stand one behind the other. */
  lemma SevenParts(buffer: string, a: string, b: char, c: string, d: string, e: string, f: string, g: string)
    requires |a| == |f| == |g| == INT && |c| == |d| == |e| == LONG && a + [b] + c + d + e + f + g <= buffer
    ensures At(buffer, 0, a) && buffer[INT] == b && At(buffer, LID_POS, c) && At(buffer, TID_POS, d)
    ensures At(buffer, EXP_POS, e) && At(buffer, EXP_POS + LONG, f) && At(buffer, EXP_POS + LONG + INT, g)
  {
    var all := a + [b] + c + d + e + f + g;
    WholeAt(buffer, all);
    hide At;
    PartAt(buffer, 0, all, [], a);
    PartAt(buffer, 0, all, a + [b], c);
    PartAt(buffer, 0, all, a + [b] + c, d);
    PartAt(buffer, 0, all, a + [b] + c + d, e);
    PartAt(buffer, 0, all, a + [b] + c + d + e, f);
    PartAt(buffer, 0, all, a + [b] + c + d + e + f, g);
  }

  lemma WholeAt(buffer: string, all: string)
    requires all <= buffer
    ensures At(buffer, 0, all) && forall i :: 0 <= i < |all| ==> buffer[i] == all[i]
  {
  }

  lemma Ranges()
    ensures Range(INT) == 0x1_0000_0000 && Range(LONG) == 0x1_0000_0000_0000_0000
  {
    assert Range(4) == 256 * 256 * 256 * 256;
    assert Range(8) == 256 * 256 * 256 * 256 * Range(4);
  }

  /** The index callbacks, which see only bytes, see the record's own fields. */
  lemma PeeksSeeTheHolder(h: Holder, rest: string)
    requires Fits(h)
    ensures var buffer := Stored(h) + rest;
            |buffer| >= HEADER && PeekLeaseId(buffer) == h.leaseId &&
            PeekTxnId(buffer) == h.txnId && PeekExpire(buffer) == h.expire
  {
    Ranges();
    var buffer := Stored(h) + rest;
    assert Header(h) <= buffer;
    HeaderParts(h, buffer);
    WordRoundTrip(h.leaseId, LONG);
    WordRoundTrip(h.txnId, LONG);
    WordRoundTrip(Unsigned(h.expire), LONG);
  }

  // ----- marshalling -----

  lemma {:induction false} AttrBytesAppend(attrs: seq<string>, i: nat)
    requires i < |attrs|
    ensures AttrBytes(attrs[..i + 1]) == AttrBytes(attrs[..i]) + attrs[i] + [NUL]
  {
    assert attrs[..i + 1][..i] == attrs[..i];
  }

  /** memcpy into the buffer at `pos`. */
  method Copy(buffer: array<char>, pos: nat, s: string)
    requires pos + |s| <= buffer.Length
    modifies buffer
    ensures buffer[..pos + |s|] == old(buffer[..pos]) + s
  {
    for k := 0 to |s|
      invariant buffer[..pos + k] == old(buffer[..pos]) + s[..k]
    {
      buffer[pos + k] := s[k];
      assert buffer[..pos + k + 1] == buffer[..pos + k] + [s[k]];
    }
  }

  /** OeStoreHolder_marshal: the stored form, in a buffer that is never overrun. */
  method Marshal(h: Holder) returns (buffer: array<char>, len: nat)
    requires Fits(h)
    ensures fresh(buffer) && len <= buffer.Length && buffer[..len] == Stored(h)
    ensures buffer.Length == 49 + |AttrBytes(h.data.attrs)| + |h.data.bytes|
  {
    hide Header, Chars, AttrBytes;
    var nbytes := |h.data.bytes|;
    var size := AttrsSize(h.data.attrs);
    size := STRUCT + size + nbytes + 1;
    buffer := new char[size](_ => NUL);
    len := MarshalHeader(h, buffer);
    len := MarshalAttrs(h.data.attrs, buffer);
    if nbytes > 0 {
      Copy(buffer, len, Chars(h.data.bytes));
      len := len + nbytes;
    }
  }

  /** The bytes the attributes need, terminators included. */
  method AttrsSize(attrs: seq<string>) returns (size: nat)
    ensures size == |AttrBytes(attrs)|
  {
    size := 0;
    for i := 0 to |attrs|
      invariant size == |AttrBytes(attrs[..i])|
    {
      AttrBytesAppend(attrs, i);
      size := size + |attrs[i]| + 1;
    }
    assert attrs[..|attrs|] == attrs;
  }

  /** The attributes, each with its terminator, after the header. */
  method MarshalAttrs(attrs: seq<string>, buffer: array<char>) returns (len: nat)
    requires HEADER + |AttrBytes(attrs)| <= buffer.Length
    modifies buffer
    ensures len == HEADER + |AttrBytes(attrs)| && buffer[..len] == old(buffer[..HEADER]) + AttrBytes(attrs)
  {
    len := HEADER;
    for i := 0 to |attrs|
      invariant len == HEADER + |AttrBytes(attrs[..i])| <= buffer.Length
      invariant buffer[..len] == old(buffer[..HEADER]) + AttrBytes(attrs[..i])
    {
      AttrBytesAppend(attrs, i);
      AttrPrefix(attrs, i + 1);
      Copy(buffer, len, attrs[i] + [NUL]);
      len := len + |attrs[i]| + 1;
    }
    assert attrs[..|attrs|] == attrs;
  }

  method MarshalHeader(h: Holder, buffer: array<char>) returns (len: nat)
    requires Fits(h) && HEADER <= buffer.Length
    modifies buffer
    ensures len == HEADER && buffer[..len] == Header(h)
  {
    Copy(buffer, 0, Word(LockCode(h.lock), INT));
    Copy(buffer, INT, [if h.isTuple then 1 as char else NUL]);
    Copy(buffer, LID_POS, Word(h.leaseId, LONG));
    Copy(buffer, TID_POS, Word(h.txnId, LONG));
    Copy(buffer, EXP_POS, Word(Unsigned(h.expire), LONG));
    Copy(buffer, EXP_POS + LONG, Word(|h.data.bytes|, INT));
    Copy(buffer, EXP_POS + LONG + INT, Word(|h.data.attrs|, INT));
    len := HEADER;
  }

  // ----- unmarshalling -----

  /** The C string at `pos`. */
  method StringAt(buffer: array<char>, pos: nat, ghost s: string) returns (r: string)
    requires NUL !in s && At(buffer[..], pos, s + [NUL])
    ensures r == s
  {
    assert forall k :: 0 <= k <= |s| ==> buffer[pos + k] == (s + [NUL])[k] by {
      forall k | 0 <= k <= |s| ensures buffer[pos + k] == (s + [NUL])[k] {
        assert buffer[..][pos..pos + |s| + 1][k] == buffer[pos + k];
      }
    }
    var n := 0;
    while buffer[pos + n] != NUL
      invariant n <= |s|
      decreases |s| - n
    {
      n := n + 1;
    }
    r := buffer[pos..pos + n];
    assert r == (s + [NUL])[..|s|];
  }

  function Bytes(s: string): (b: seq<bv8>)
    requires forall i :: 0 <= i < |s| ==> s[i] < 256 as char
  {
    seq(|s|, i requires 0 <= i < |s| => s[i] as bv8)
  }

  lemma CharsRoundTrip(b: seq<bv8>)
    ensures forall i :: 0 <= i < |b| ==> Chars(b)[i] < 256 as char
    ensures Bytes(Chars(b)) == b
  {
  }

  lemma AttrAt(buffer: string, pos: nat, attrs: seq<string>, i: nat)
    requires i < |attrs| && At(buffer, pos, AttrBytes(attrs))
    ensures At(buffer, pos + |AttrBytes(attrs[..i])|, attrs[i] + [NUL])
  {
    hide AttrBytes, At;
    AttrBytesAppend(attrs, i);
    AttrPrefix(attrs, i + 1);
    var all, before := AttrBytes(attrs), AttrBytes(attrs[..i]);
    var more := before + (attrs[i] + [NUL]);
    assert more == AttrBytes(attrs[..i + 1]);
    PartAt(buffer, pos, all, before, attrs[i] + [NUL]);
  }

  /** A part of what stands at `pos` stands there too. */
  lemma PartAt(buffer: string, pos: nat, all: string, before: string, part: string)
    requires At(buffer, pos, all) && before + part <= all
    ensures At(buffer, pos + |before|, part)
  {
    forall k | 0 <= k < |part| ensures pos + |before| + k < |buffer| && buffer[pos + |before| + k] == part[k] {
      assert (before + part)[|before| + k] == part[k];
      assert buffer[pos..pos + |all|][|before| + k] == all[|before| + k];
    }
  }

  lemma {:induction false} AttrPrefix(attrs: seq<string>, i: nat)
    requires i <= |attrs|
    ensures AttrBytes(attrs[..i]) <= AttrBytes(attrs)
    decreases |attrs| - i
  {
    if i < |attrs| {
      AttrBytesAppend(attrs, i);
      AttrPrefix(attrs, i + 1);
    } else {
      assert attrs[..i] == attrs;
    }
  }

  /** `_unmarshal` gives back any record whose stored form the buffer starts with. */
  method Unmarshal(buffer: array<char>, ghost h: Holder) returns (r: Holder)
    requires Fits(h) && Stored(h) <= buffer[..]
    ensures r == h
  {
    hide Header, Chars, AttrBytes, Bytes, Fits;
    StoredParts(h, buffer[..]);
    var nbytes, nprops;
    r, nbytes, nprops := ReadHeader(buffer, h);
    var attrs, pos := ReadAttrs(buffer, nprops, h.data.attrs);
    CharsRoundTrip(h.data.bytes);
    r := r.(data := DataObject(attrs, Bytes(buffer[pos..pos + nbytes])));
  }

  /** Where the three parts of a stored record lie. */
  lemma StoredParts(h: Holder, all: string)
    requires Fits(h) && Stored(h) <= all
    ensures Header(h) <= all && At(all, HEADER, AttrBytes(h.data.attrs))
    ensures At(all, HEADER + |AttrBytes(h.data.attrs)|, Chars(h.data.bytes))
    ensures forall i :: 0 <= i < |h.data.attrs| ==> NUL !in h.data.attrs[i]
  {
    hide Header, Chars, AttrBytes;
    assert all[..|Stored(h)|] == Stored(h);
  }

  /** The fields before the attributes, and the two counts. */
  method ReadHeader(buffer: array<char>, ghost h: Holder) returns (r: Holder, nbytes: nat, nprops: nat)
    requires Fits(h) && Header(h) <= buffer[..]
    ensures r == h.(data := DataObject([], [])) && nbytes == |h.data.bytes| && nprops == |h.data.attrs|
  {
    Ranges();
    HeaderParts(h, buffer[..]);
    hide Header, Word, Value;
    WordRoundTrip(LockCode(h.lock), INT);
    WordRoundTrip(h.leaseId, LONG);
    WordRoundTrip(h.txnId, LONG);
    WordRoundTrip(Unsigned(h.expire), LONG);
    WordRoundTrip(|h.data.bytes|, INT);
    WordRoundTrip(|h.data.attrs|, INT);
    var lock := LockOf(Value(buffer[0..INT]));
    var isTuple := buffer[INT] != NUL;
    var leaseId := Value(buffer[LID_POS..LID_POS + LONG]);
    var txnId := Value(buffer[TID_POS..TID_POS + LONG]);
    var expire := Signed(Value(buffer[EXP_POS..EXP_POS + LONG]));
    nbytes := Value(buffer[EXP_POS + LONG..EXP_POS + LONG + INT]);
    nprops := Value(buffer[EXP_POS + LONG + INT..HEADER]);
    r := Holder(lock, isTuple, leaseId, txnId, expire, DataObject([], []));
  }

  method ReadAttrs(buffer: array<char>, n: nat, ghost expected: seq<string>) returns (attrs: seq<string>, pos: nat)
    requires n == |expected| && forall i :: 0 <= i < n ==> NUL !in expected[i]
    requires At(buffer[..], HEADER, AttrBytes(expected))
    ensures attrs == expected && pos == HEADER + |AttrBytes(expected)|
  {
    attrs, pos := [], HEADER;
    for i := 0 to n
      invariant attrs == expected[..i] && pos == HEADER + |AttrBytes(expected[..i])|
    {
      AttrAt(buffer[..], HEADER, expected, i);
      var prop := StringAt(buffer, pos, expected[i]);
      AttrBytesAppend(expected, i);
      attrs := attrs + [prop];
      pos := pos + |prop| + 1;
    }
  }

  /** Marshalling loses nothing. */
  method MarshalRoundTrip(h: Holder) returns (r: Holder)
    requires Fits(h)
    ensures r == h
  {
    var buffer, len := Marshal(h);
    assert Stored(h) <= buffer[..] by { assert buffer[..len] <= buffer[..]; }
    r := Unmarshal(buffer, h);
  }
}

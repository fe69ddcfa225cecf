/**
 corelib/arena.c: an arena allocator whose chunks carry, at their start, a saved
 copy of the arena's record, and a per-thread list of free chunks.

 Memory is a map of machine words, so that a record and a block that overlap do
 disturb each other.  malloc is a parameter: a region that overlaps no chunk in use.
 */
module Arena {

  type Addr = nat

  const NULL: Addr := 0

  const THRESHOLD := 10

  const EXTRA := 10240

  /** `word` is the size of a pointer and `unit` that of `union align`, a multiple
      of it, hence also that of `union header`. */
  datatype Geometry = Geometry(word: nat, unit: nat)

  predicate Possible(g: Geometry) { g.word > 0 && g.unit > 0 && g.unit % g.word == 0 }

  /** A saved record of three words fits in front of a chunk's first block. */
  predicate HeaderFits(g: Geometry) { Possible(g) && 3 * g.word <= g.unit }

  type Memory = map<Addr, nat>

  datatype Record = Record(prev: Addr, avail: Addr, limit: Addr)

  const NOTHING := Record(NULL, NULL, NULL)

  datatype Heap = Heap(mem: Memory, free: Addr, nfree: int, arenas: map<nat, Record>)

  function Load(m: Memory, p: Addr): (v: nat) { if p in m then m[p] else 0 }

  function LoadRecord(g: Geometry, m: Memory, c: Addr): (r: Record) {
    Record(Load(m, c), Load(m, c + g.word), Load(m, c + 2 * g.word))
  }

  function StoreRecord(g: Geometry, m: Memory, c: Addr, r: Record): (m': Memory) {
    m[c := r.prev][c + g.word := r.avail][c + 2 * g.word := r.limit]
  }

  /** The size a request is rounded up to. */
  function Rounded(g: Geometry, n: nat): (r: nat)
    requires Possible(g)
  {
    (n + g.unit - 1) / g.unit * g.unit
  }

  function Least(a: int, b: int): (m: int) { if a < b then a else b }

  function MallocSize(g: Geometry, n: nat): (m: nat) { g.unit + n + EXTRA }

  // ----- the steps of the code -----

  /** Take the first chunk off the free list. */
  function Popped(h: Heap): (r: Heap) {
    h.(free := Load(h.mem, h.free), nfree := h.nfree - 1)
  }

  /** Make `c` the top chunk of `a`, saving the arena's record in it. */
  function Adopted(g: Geometry, h: Heap, a: nat, c: Addr, limit: Addr): (r: Heap)
    requires a in h.arenas
  {
    h.(mem := StoreRecord(g, h.mem, c, h.arenas[a]), arenas := h.arenas[a := Record(c, c + g.unit, limit)])
  }

  /** Hand out `n` bytes of the top chunk. */
  function Bumped(h: Heap, a: nat, n: nat): (r: Heap)
    requires a in h.arenas
  {
    h.(arenas := h.arenas[a := h.arenas[a].(avail := h.arenas[a].avail + n)])
  }

  /** Restore the record saved in the top chunk of `a`. */
  function Dropped(g: Geometry, h: Heap, a: nat): (r: Heap)
    requires a in h.arenas
  {
    h.(arenas := h.arenas[a := LoadRecord(g, h.mem, h.arenas[a].prev)])
  }

  /** Put `c` on the free list. */
  function Pooled(g: Geometry, h: Heap, c: Addr, limit: Addr): (r: Heap) {
    h.(mem := h.mem[c := h.free][c + 2 * g.word := limit], free := c, nfree := h.nfree + 1)
  }

  /** The client writes a word. */
  function Written(h: Heap, p: Addr, v: nat): (r: Heap) { h.(mem := h.mem[p := v]) }

  // ----- what the memory means -----

  /** A chunk is on the free list, in an arena, or in the hands of the code. */
  datatype Place = Free(i: nat) | In(a: nat, i: nat) | Loose

  /** A block handed out by arena `a`, from its chunk number `i`. */
  datatype Block = Block(a: nat, i: nat, at: Addr, len: nat)

  /** `ends` maps every chunk malloc holds to its end, `places` to where it is; the
      lists run from the bottom up, so that their last element is the top. */
  datatype Shape = Shape(ends: map<Addr, Addr>, places: map<Addr, Place>, pool: seq<Addr>,
                         chunks: map<nat, seq<Addr>>, live: set<Block>)

  /** `p` is a multiple of the alignment unit. */
  ghost predicate Aligned(g: Geometry, p: nat) { exists k: nat :: Multiple(g, k) == p }

  function Multiple(g: Geometry, k: nat): (p: nat) { k * g.unit }

  ghost predicate Apart(c: Addr, end: Addr, d: Addr, end': Addr) { end <= d || end' <= c }

  ghost predicate Extents(g: Geometry, ends: map<Addr, Addr>) {
    (forall c :: c in ends ==> c != NULL && Aligned(g, c) && c + g.unit <= ends[c]) &&
    (forall c, d :: c in ends && d in ends && c != d ==> Apart(c, ends[c], d, ends[d]))
  }

  /** No chunk is in two lists, or twice in one; none is lost. */
  ghost predicate PlacesOk(s: Shape) {
    s.places.Keys == s.ends.Keys &&
    (forall i :: 0 <= i < |s.pool| ==> s.pool[i] in s.places && s.places[s.pool[i]] == Free(i)) &&
    (forall a, i :: a in s.chunks && 0 <= i < |s.chunks[a]| ==>
       s.chunks[a][i] in s.places && s.places[s.chunks[a][i]] == In(a, i)) &&
    (forall c :: c in s.places ==> Placed(s, c))
  }

  ghost predicate Placed(s: Shape, c: Addr)
    requires c in s.places
  {
    match s.places[c]
    case Free(i) => i < |s.pool| && s.pool[i] == c
    case In(a, i) => a in s.chunks && i < |s.chunks[a]| && s.chunks[a][i] == c
    case Loose => true
  }

  function Top(cs: seq<Addr>): (c: Addr) { if cs == [] then NULL else cs[|cs| - 1] }

  /** A free chunk points to the next and keeps its own end. */
  ghost predicate PoolLink(g: Geometry, m: Memory, pool: seq<Addr>, ends: map<Addr, Addr>, i: nat) {
    i < |pool| && pool[i] in ends &&
    Load(m, pool[i]) == Top(pool[..i]) && Load(m, pool[i] + 2 * g.word) == ends[pool[i]]
  }

  ghost predicate PoolOk(g: Geometry, h: Heap, s: Shape) {
    h.free == Top(s.pool) && h.nfree == |s.pool| <= THRESHOLD &&
    forall i :: 0 <= i < |s.pool| ==> PoolLink(g, h.mem, s.pool, s.ends, i)
  }

  /** The record that was, or is, the arena's own while chunk `i` is the top. */
  function RecordOf(g: Geometry, m: Memory, top: Record, cs: seq<Addr>, i: int): (r: Record)
    requires -1 <= i < |cs|
  {
    if i + 1 == |cs| then top else LoadRecord(g, m, cs[i + 1])
  }

  ghost predicate RecordOk(g: Geometry, r: Record, c: Addr, end: Addr) {
    r.prev == c && r.limit == end && c + g.unit <= r.avail <= end && Aligned(g, r.avail)
  }

  ghost predicate ChunkOk(g: Geometry, m: Memory, top: Record, cs: seq<Addr>, ends: map<Addr, Addr>, i: nat) {
    i < |cs| && cs[i] in ends && RecordOk(g, RecordOf(g, m, top, cs, i), cs[i], ends[cs[i]])
  }

  ghost predicate ArenaOk(g: Geometry, m: Memory, top: Record, cs: seq<Addr>, ends: map<Addr, Addr>) {
    RecordOf(g, m, top, cs, -1) == NOTHING &&
    forall i :: 0 <= i < |cs| ==> ChunkOk(g, m, top, cs, ends, i)
  }

  ghost predicate ArenasOk(g: Geometry, h: Heap, s: Shape) {
    s.chunks.Keys == h.arenas.Keys &&
    forall a :: a in h.arenas ==> ArenaOk(g, h.mem, h.arenas[a], s.chunks[a], s.ends)
  }

  ghost predicate BlockOk(g: Geometry, h: Heap, s: Shape, b: Block) {
    b.a in h.arenas && b.a in s.chunks && b.i < |s.chunks[b.a]| &&
    Aligned(g, b.at) && b.len > 0 && s.chunks[b.a][b.i] + g.unit <= b.at &&
    b.at + b.len <= RecordOf(g, h.mem, h.arenas[b.a], s.chunks[b.a], b.i).avail
  }

  ghost predicate Disjoint(b: Block, c: Block) { Apart(b.at, b.at + b.len, c.at, c.at + c.len) }

  /** Blocks in use are aligned, inside the used part of their chunk, and disjoint. */
  ghost predicate LiveOk(g: Geometry, h: Heap, s: Shape) {
    (forall b :: b in s.live ==> BlockOk(g, h, s, b)) &&
    (forall b, c :: b in s.live && c in s.live && b != c ==> Disjoint(b, c))
  }

  /** What holds between any two steps of the code. */
  ghost predicate Sound(g: Geometry, h: Heap, s: Shape) {
    HeaderFits(g) && Extents(g, s.ends) && PlacesOk(s) && PoolOk(g, h, s) && ArenasOk(g, h, s) && LiveOk(g, h, s)
  }

  /** What holds between calls: besides, every chunk is in an arena or on the free list. */
  ghost predicate Good(g: Geometry, h: Heap, s: Shape) {
    Sound(g, h, s) && Tidy(s)
  }

  ghost predicate Tidy(s: Shape) { forall c :: c in s.places ==> s.places[c] != Loose }

  // ----- frames: what a store into one record leaves alone -----

  /** Memory changed at most in the words of the record at `d`. */
  ghost predicate OnlyRecord(g: Geometry, m: Memory, m': Memory, d: Addr) {
    forall p :: p != d && p != d + g.word && p != d + 2 * g.word ==> Load(m', p) == Load(m, p)
  }

  lemma RecordKept(g: Geometry, ends: map<Addr, Addr>, m: Memory, m': Memory, d: Addr, c: Addr)
    requires HeaderFits(g) && Extents(g, ends) && d in ends && c in ends && c != d && OnlyRecord(g, m, m', d)
    ensures LoadRecord(g, m', c) == LoadRecord(g, m, c)
  {
    assert Apart(c, ends[c], d, ends[d]);
  }

  ghost predicate Inside(b: Block, p: Addr) { b.at <= p < b.at + b.len }

  /** The words of the blocks `live` are as they were. */
  ghost predicate Keeps(m: Memory, m': Memory, live: set<Block>) {
    forall b, p :: b in live && Inside(b, p) ==> Load(m', p) == Load(m, p)
  }

  lemma BlockBounds(g: Geometry, h: Heap, s: Shape, b: Block)
    requires Sound(g, h, s) && b in s.live
    ensures b.a in s.chunks && b.i < |s.chunks[b.a]|
    ensures var c := s.chunks[b.a][b.i]; c in s.ends && c + g.unit <= b.at && b.at + b.len <= s.ends[c]
  {
    assert BlockOk(g, h, s, b);
    assert ArenaOk(g, h.mem, h.arenas[b.a], s.chunks[b.a], s.ends);
    assert ChunkOk(g, h.mem, h.arenas[b.a], s.chunks[b.a], s.ends, b.i);
  }

  /** A record never reaches into a block. */
  lemma BlocksKept(g: Geometry, h: Heap, s: Shape, m': Memory, d: Addr)
    requires Sound(g, h, s) && d in s.ends && OnlyRecord(g, h.mem, m', d)
    ensures Keeps(h.mem, m', s.live)
  {
    forall b, p | b in s.live && Inside(b, p) ensures Load(m', p) == Load(h.mem, p) {
      BlockBounds(g, h, s, b);
      var c := s.chunks[b.a][b.i];
      assert c == d || Apart(c, s.ends[c], d, s.ends[d]);
    }
  }

  /** The records of every listed chunk survive a change to the record of a loose one. */
  lemma RecordsKept(g: Geometry, h: Heap, s: Shape, m': Memory, d: Addr)
    requires Sound(g, h, s) && d in s.ends && s.places[d] == Loose && OnlyRecord(g, h.mem, m', d)
    ensures forall c :: c in s.places && s.places[c] != Loose ==> LoadRecord(g, m', c) == LoadRecord(g, h.mem, c)
  {
    forall c | c in s.places && s.places[c] != Loose ensures LoadRecord(g, m', c) == LoadRecord(g, h.mem, c) {
      RecordKept(g, s.ends, h.mem, m', d, c);
    }
  }

  /** So all the arenas, the pool and the blocks stay as they are. */
  lemma SoundKept(g: Geometry, h: Heap, s: Shape, m': Memory, d: Addr)
    requires Sound(g, h, s) && d in s.ends && s.places[d] == Loose && OnlyRecord(g, h.mem, m', d)
    ensures Sound(g, h.(mem := m'), s) && Keeps(h.mem, m', s.live)
  {
    var h' := h.(mem := m');
    RecordsKept(g, h, s, m', d);
    BlocksKept(g, h, s, m', d);
    SameRecords(g, h, s, m');
  }

  lemma SameRecords(g: Geometry, h: Heap, s: Shape, m': Memory)
    requires Sound(g, h, s)
    requires forall c :: c in s.places && s.places[c] != Loose ==> LoadRecord(g, m', c) == LoadRecord(g, h.mem, c)
    ensures Sound(g, h.(mem := m'), s)
  {
    var h' := h.(mem := m');
    forall i | 0 <= i < |s.pool| ensures PoolLink(g, m', s.pool, s.ends, i) {
      assert PoolLink(g, h.mem, s.pool, s.ends, i) && s.places[s.pool[i]] == Free(i);
      assert LoadRecord(g, m', s.pool[i]) == LoadRecord(g, h.mem, s.pool[i]);
    }
    forall a, i | a in h.arenas && -1 <= i < |s.chunks[a]| ensures SameRecord(g, h, s, h', s, a, i) {
      if i + 1 < |s.chunks[a]| {
        assert s.places[s.chunks[a][i + 1]] == In(a, i + 1);
      }
    }
    ArenasFollow(g, h, s, h', s);
  }

  /** Record number `i` of arena `a` is the same before and after a step. */
  ghost predicate SameRecord(g: Geometry, h: Heap, s: Shape, h': Heap, s': Shape, a: nat, i: int) {
    a in h.arenas && a in h'.arenas && a in s.chunks && a in s'.chunks &&
    -1 <= i < |s.chunks[a]| && i < |s'.chunks[a]| && (i >= 0 ==> s'.chunks[a][i] == s.chunks[a][i]) &&
    RecordOf(g, h'.mem, h'.arenas[a], s'.chunks[a], i) == RecordOf(g, h.mem, h.arenas[a], s.chunks[a], i)
  }

  /** `t` has the ends that `s` has, where it has any. */
  ghost predicate SameEnds(s: Shape, t: Shape) {
    forall c :: c in s.ends && c in t.ends ==> t.ends[c] == s.ends[c]
  }

  lemma ArenaFollows(g: Geometry, h: Heap, s: Shape, h': Heap, s': Shape, a: nat)
    requires PlacesOk(s) && PlacesOk(s') && SameEnds(s, s') && ArenasOk(g, h, s) && a in h.arenas && a in h'.arenas
    requires a in s.chunks && a in s'.chunks && |s'.chunks[a]| <= |s.chunks[a]|
    requires forall i :: -1 <= i < |s'.chunks[a]| ==> SameRecord(g, h, s, h', s', a, i)
    ensures ArenaOk(g, h'.mem, h'.arenas[a], s'.chunks[a], s'.ends)
  {
    var cs, ds := s.chunks[a], s'.chunks[a];
    assert ArenaOk(g, h.mem, h.arenas[a], cs, s.ends);
    assert SameRecord(g, h, s, h', s', a, -1);
    forall i | 0 <= i < |ds| ensures ChunkOk(g, h'.mem, h'.arenas[a], ds, s'.ends, i) {
      assert ChunkOk(g, h.mem, h.arenas[a], cs, s.ends, i);
      assert SameRecord(g, h, s, h', s', a, i);
      assert ds[i] in s'.places;
    }
  }

  lemma LiveFollows(g: Geometry, h: Heap, s: Shape, h': Heap, s': Shape)
    requires LiveOk(g, h, s) && s'.live == s.live
    requires forall b :: b in s.live ==> SameRecord(g, h, s, h', s', b.a, b.i)
    ensures LiveOk(g, h', s')
  {
    forall b | b in s'.live ensures BlockOk(g, h', s', b) {
      assert BlockOk(g, h, s, b);
      assert SameRecord(g, h, s, h', s', b.a, b.i);
    }
  }

  /** Arenas and blocks whose records are all there are as they were. */
  lemma ArenasFollow(g: Geometry, h: Heap, s: Shape, h': Heap, s': Shape)
    requires PlacesOk(s) && PlacesOk(s') && SameEnds(s, s') && ArenasOk(g, h, s) && LiveOk(g, h, s)
    requires h'.arenas.Keys == h.arenas.Keys && s'.chunks.Keys == s.chunks.Keys && s'.live == s.live
    requires forall a :: a in h.arenas ==> |s'.chunks[a]| <= |s.chunks[a]|
    requires forall a, i :: a in h.arenas && -1 <= i < |s'.chunks[a]| ==> SameRecord(g, h, s, h', s', a, i)
    requires forall b :: b in s.live ==> b.i < |s'.chunks[b.a]|
    ensures ArenasOk(g, h', s') && LiveOk(g, h', s')
  {
    forall a | a in h'.arenas ensures ArenaOk(g, h'.mem, h'.arenas[a], s'.chunks[a], s'.ends) {
      ArenaFollows(g, h, s, h', s', a);
    }
    forall b | b in s.live ensures SameRecord(g, h, s, h', s', b.a, b.i) {
      assert BlockOk(g, h, s, b);
    }
    LiveFollows(g, h, s, h', s');
  }

  // ----- chunks change places -----

  ghost function PopShape(s: Shape): (t: Shape)
    requires s.pool != []
  {
    var k := |s.pool| - 1;
    s.(pool := s.pool[..k], places := s.places[s.pool[k] := Loose])
  }

  ghost function MallocShape(s: Shape, c: Addr, end: Addr): (t: Shape) {
    s.(ends := s.ends[c := end], places := s.places[c := Loose])
  }

  ghost function AdoptShape(s: Shape, a: nat, c: Addr): (t: Shape)
    requires a in s.chunks
  {
    s.(chunks := s.chunks[a := s.chunks[a] + [c]], places := s.places[c := In(a, |s.chunks[a]|)])
  }

  ghost function DropShape(s: Shape, a: nat): (t: Shape)
    requires a in s.chunks && s.chunks[a] != []
  {
    var k := |s.chunks[a]| - 1;
    s.(chunks := s.chunks[a := s.chunks[a][..k]], places := s.places[s.chunks[a][k] := Loose])
  }

  ghost function PoolShape(s: Shape, c: Addr): (t: Shape) {
    s.(pool := s.pool + [c], places := s.places[c := Free(|s.pool|)])
  }

  ghost function FreeShape(s: Shape, c: Addr): (t: Shape) {
    s.(ends := s.ends - {c}, places := s.places - {c})
  }

  lemma PopPlaces(s: Shape)
    requires PlacesOk(s) && s.pool != []
    ensures PlacesOk(PopShape(s))
  {
    var t := PopShape(s);
    forall d | d in t.places ensures Placed(t, d) {
      assert Placed(s, d);
    }
  }

  lemma MallocPlaces(s: Shape, c: Addr, end: Addr)
    requires PlacesOk(s) && c !in s.ends
    ensures PlacesOk(MallocShape(s, c, end))
  {
    var t := MallocShape(s, c, end);
    forall d | d in t.places ensures Placed(t, d) {
      assert d != c ==> Placed(s, d);
    }
  }

  lemma AdoptPlaces(s: Shape, a: nat, c: Addr)
    requires PlacesOk(s) && c in s.places && s.places[c] == Loose && a in s.chunks
    ensures PlacesOk(AdoptShape(s, a, c))
  {
    var t := AdoptShape(s, a, c);
    forall d | d in t.places ensures Placed(t, d) {
      assert Placed(s, d);
    }
  }

  lemma DropPlaces(s: Shape, a: nat)
    requires PlacesOk(s) && a in s.chunks && s.chunks[a] != []
    ensures PlacesOk(DropShape(s, a))
  {
    var t := DropShape(s, a);
    forall d | d in t.places ensures Placed(t, d) {
      assert Placed(s, d);
    }
  }

  lemma PoolPlaces(s: Shape, c: Addr)
    requires PlacesOk(s) && c in s.places && s.places[c] == Loose
    ensures PlacesOk(PoolShape(s, c))
  {
    var t := PoolShape(s, c);
    forall d | d in t.places ensures Placed(t, d) {
      assert Placed(s, d);
    }
  }

  lemma FreePlaces(s: Shape, c: Addr)
    requires PlacesOk(s) && c in s.places && s.places[c] == Loose
    ensures PlacesOk(FreeShape(s, c))
  {
    var t := FreeShape(s, c);
    forall d | d in t.places ensures Placed(t, d) {
      assert Placed(s, d);
    }
  }

  // ----- the steps keep the heap sound -----

  /** Arenas and blocks do not depend on the pool, nor on chunks that are not theirs. */
  lemma ArenasUnmoved(g: Geometry, h: Heap, s: Shape, h': Heap, s': Shape)
    requires PlacesOk(s) && PlacesOk(s') && SameEnds(s, s') && ArenasOk(g, h, s) && LiveOk(g, h, s)
    requires h'.mem == h.mem && h'.arenas == h.arenas && s'.chunks == s.chunks && s'.live == s.live
    ensures ArenasOk(g, h', s') && LiveOk(g, h', s')
  {
    forall b | b in s.live ensures b.i < |s'.chunks[b.a]| {
      assert BlockOk(g, h, s, b);
    }
    ArenasFollow(g, h, s, h', s');
  }

  lemma PoolUnmoved(g: Geometry, h: Heap, s: Shape, h': Heap, s': Shape)
    requires PlacesOk(s) && PlacesOk(s') && SameEnds(s, s') && PoolOk(g, h, s)
    requires h'.mem == h.mem && h'.free == h.free && h'.nfree == h.nfree && s'.pool == s.pool
    ensures PoolOk(g, h', s')
  {
    forall i | 0 <= i < |s'.pool| ensures PoolLink(g, h'.mem, s'.pool, s'.ends, i) {
      assert PoolLink(g, h.mem, s.pool, s.ends, i);
      assert s'.pool[i] in s'.places;
    }
  }

  lemma PopSound(g: Geometry, h: Heap, s: Shape)
    requires Sound(g, h, s) && h.free != NULL
    ensures s.pool != [] && h.free == Top(s.pool) && h.free in s.ends
    ensures Load(h.mem, h.free + 2 * g.word) == s.ends[h.free]
    ensures Sound(g, Popped(h), PopShape(s))
  {
    hide LiveOk, ArenasOk, Extents, PlacesOk;
    var t, k := PopShape(s), |s.pool| - 1;
    PopPlaces(s);
    ArenasUnmoved(g, h, s, Popped(h), t);
    assert PoolLink(g, h.mem, s.pool, s.ends, k);
    forall i | 0 <= i < k ensures PoolLink(g, h.mem, t.pool, t.ends, i) {
      assert PoolLink(g, h.mem, s.pool, s.ends, i);
      assert t.pool[..i] == s.pool[..i];
    }
  }

  /** A region malloc may hand out: aligned, and clear of every chunk in use. */
  ghost predicate Fresh(g: Geometry, ends: map<Addr, Addr>, region: Addr, size: nat) {
    region != NULL && Aligned(g, region) && region !in ends &&
    forall c :: c in ends ==> Apart(c, ends[c], region, region + size)
  }

  lemma MallocExtents(g: Geometry, ends: map<Addr, Addr>, c: Addr, size: nat)
    requires Extents(g, ends) && Fresh(g, ends, c, size) && g.unit <= size
    ensures Extents(g, ends[c := c + size])
  {
    var ends' := ends[c := c + size];
    forall d, e | d in ends' && e in ends' && d != e ensures Apart(d, ends'[d], e, ends'[e]) {
      if d == c {
        assert Apart(e, ends[e], c, c + size);
      } else if e == c {
        assert Apart(d, ends[d], c, c + size);
      }
    }
  }

  lemma MallocSound(g: Geometry, h: Heap, s: Shape, c: Addr, size: nat)
    requires Sound(g, h, s) && Fresh(g, s.ends, c, size) && g.unit <= size
    ensures Sound(g, h, MallocShape(s, c, c + size))
  {
    hide LiveOk, ArenasOk, PlacesOk, PoolOk, Extents;
    var t := MallocShape(s, c, c + size);
    MallocExtents(g, s.ends, c, size);
    MallocPlaces(s, c, c + size);
    ArenasUnmoved(g, h, s, h, t);
    PoolUnmoved(g, h, s, h, t);
  }

  lemma FreeSound(g: Geometry, h: Heap, s: Shape, c: Addr)
    requires Sound(g, h, s) && c in s.places && s.places[c] == Loose
    ensures Sound(g, h, FreeShape(s, c))
  {
    hide LiveOk, ArenasOk, PlacesOk, PoolOk;
    var t := FreeShape(s, c);
    FreePlaces(s, c);
    ArenasUnmoved(g, h, s, h, t);
    PoolUnmoved(g, h, s, h, t);
  }

  lemma PoolSound(g: Geometry, h: Heap, s: Shape, c: Addr)
    requires Sound(g, h, s) && c in s.ends && c in s.places && s.places[c] == Loose && h.nfree < THRESHOLD
    ensures Sound(g, Pooled(g, h, c, s.ends[c]), PoolShape(s, c))
    ensures Keeps(h.mem, Pooled(g, h, c, s.ends[c]).mem, s.live)
  {
    hide LiveOk, ArenasOk, PlacesOk, Keeps, PoolOk;
    var h', t := Pooled(g, h, c, s.ends[c]), PoolShape(s, c);
    var mid := h.(mem := h'.mem);
    SoundKept(g, h, s, h'.mem, c);
    PoolPlaces(s, c);
    ArenasUnmoved(g, mid, s, h', t);
    PooledPool(g, h, s, c);
  }

  lemma PooledPool(g: Geometry, h: Heap, s: Shape, c: Addr)
    requires g.word > 0 && c in s.ends && c != NULL && h.nfree < THRESHOLD
    requires PoolOk(g, h, s) && PoolOk(g, h.(mem := Pooled(g, h, c, s.ends[c]).mem), s)
    ensures PoolOk(g, Pooled(g, h, c, s.ends[c]), PoolShape(s, c))
  {
    var h', t := Pooled(g, h, c, s.ends[c]), PoolShape(s, c);
    forall i | 0 <= i < |t.pool| ensures PoolLink(g, h'.mem, t.pool, t.ends, i) {
      assert t.pool[..i] == s.pool[..i];
      if i < |s.pool| {
        assert PoolLink(g, h'.mem, s.pool, s.ends, i);
      } else {
        assert s.pool[..i] == s.pool;
      }
    }
  }

  lemma AdoptSound(g: Geometry, h: Heap, s: Shape, a: nat, c: Addr)
    requires Sound(g, h, s) && a in h.arenas && a in s.chunks && c in s.ends && c in s.places && s.places[c] == Loose
    ensures Sound(g, Adopted(g, h, a, c, s.ends[c]), AdoptShape(s, a, c))
    ensures Keeps(h.mem, Adopted(g, h, a, c, s.ends[c]).mem, s.live)
  {
    hide LiveOk, ArenasOk, PlacesOk, Keeps, PoolOk;
    var h', t := Adopted(g, h, a, c, s.ends[c]), AdoptShape(s, a, c);
    var mid := h.(mem := h'.mem);
    SoundKept(g, h, s, h'.mem, c);
    AdoptPlaces(s, a, c);
    PoolUnmoved(g, mid, s, h', t);
    assert LoadRecord(g, h'.mem, c) == h.arenas[a];
    AdoptedArenas(g, mid, s, a, c);
  }

  /** With the arena's record already saved in `c`. */
  lemma AdoptedArenas(g: Geometry, h: Heap, s: Shape, a: nat, c: Addr)
    requires Sound(g, h, s) && a in h.arenas && a in s.chunks && c in s.ends && c in s.places && s.places[c] == Loose
    requires LoadRecord(g, h.mem, c) == h.arenas[a] && PlacesOk(AdoptShape(s, a, c))
    ensures var h' := h.(arenas := h.arenas[a := Record(c, c + g.unit, s.ends[c])]);
            ArenasOk(g, h', AdoptShape(s, a, c)) && LiveOk(g, h', AdoptShape(s, a, c))
  {
    hide PlacesOk, PoolOk;
    var h', t := h.(arenas := h.arenas[a := Record(c, c + g.unit, s.ends[c])]), AdoptShape(s, a, c);
    forall b, i | b in h.arenas && -1 <= i < |s.chunks[b]| ensures SameRecord(g, h, s, h', t, b, i) {}
    forall b | b in h'.arenas ensures ArenaOk(g, h'.mem, h'.arenas[b], t.chunks[b], t.ends) {
      if b == a {
        AdopterOk(g, h, s, a, c);
      } else {
        ArenaFollows(g, h, s, h', t, b);
      }
    }
    forall b | b in s.live ensures SameRecord(g, h, s, h', t, b.a, b.i) {
      assert BlockOk(g, h, s, b);
    }
    LiveFollows(g, h, s, h', t);
  }

  lemma AdopterOk(g: Geometry, h: Heap, s: Shape, a: nat, c: Addr)
    requires g.unit > 0 && Extents(g, s.ends) && a in h.arenas && a in s.chunks && c in s.ends
    requires ArenaOk(g, h.mem, h.arenas[a], s.chunks[a], s.ends) && LoadRecord(g, h.mem, c) == h.arenas[a]
    ensures ArenaOk(g, h.mem, Record(c, c + g.unit, s.ends[c]), s.chunks[a] + [c], s.ends)
  {
    var cs, top := s.chunks[a], Record(c, c + g.unit, s.ends[c]);
    var ds := cs + [c];
    assert Multiple(g, 1) == g.unit;
    AlignedSum(g, c, g.unit);
    assert RecordOf(g, h.mem, top, ds, -1) == RecordOf(g, h.mem, h.arenas[a], cs, -1);
    forall i | 0 <= i < |ds| ensures ChunkOk(g, h.mem, top, ds, s.ends, i) {
      if i < |cs| {
        assert ChunkOk(g, h.mem, h.arenas[a], cs, s.ends, i);
      }
    }
  }

  lemma AlignedSum(g: Geometry, p: nat, n: nat)
    requires Aligned(g, p) && Aligned(g, n)
    ensures Aligned(g, p + n)
  {
    var q: nat :| Multiple(g, q) == p;
    var k: nat :| Multiple(g, k) == n;
    assert Multiple(g, q + k) == p + n;
  }

  lemma RoundedIsAligned(g: Geometry, n: nat)
    requires Possible(g)
    ensures Aligned(g, Rounded(g, n)) && n <= Rounded(g, n) < n + g.unit
  {
    assert Multiple(g, (n + g.unit - 1) / g.unit) == Rounded(g, n);
  }

  lemma DropSound(g: Geometry, h: Heap, s: Shape, a: nat)
    requires Sound(g, h, s) && a in h.arenas && h.arenas[a].prev != NULL
    requires forall b :: b in s.live ==> b.a != a
    ensures a in s.chunks && s.chunks[a] != [] && h.arenas[a].prev == Top(s.chunks[a]) && Top(s.chunks[a]) in s.ends
    ensures h.arenas[a].limit == s.ends[Top(s.chunks[a])]
    ensures Sound(g, Dropped(g, h, a), DropShape(s, a))
  {
    hide PlacesOk, PoolOk, Extents;
    var cs := s.chunks[a];
    assert ArenaOk(g, h.mem, h.arenas[a], cs, s.ends);
    var k := |cs| - 1;
    assert ChunkOk(g, h.mem, h.arenas[a], cs, s.ends, k);
    var h', t := Dropped(g, h, a), DropShape(s, a);
    DropPlaces(s, a);
    PoolUnmoved(g, h, s, h', t);
    forall b, i | b in h.arenas && -1 <= i < |t.chunks[b]| ensures SameRecord(g, h, s, h', t, b, i) {}
    forall b | b in s.live ensures b.i < |t.chunks[b.a]| {
      assert BlockOk(g, h, s, b);
    }
    ArenasFollow(g, h, s, h', t);
  }

  /** A block of `n` bytes cut from the top chunk. */
  lemma BumpSound(g: Geometry, h: Heap, s: Shape, a: nat, n: nat)
    requires Sound(g, h, s) && a in h.arenas && n > 0 && Aligned(g, n)
    requires n <= h.arenas[a].limit - h.arenas[a].avail
    ensures a in s.chunks && s.chunks[a] != []
    ensures var b := Block(a, |s.chunks[a]| - 1, h.arenas[a].avail, n);
            b !in s.live && Sound(g, Bumped(h, a, n), s.(live := s.live + {b}))
  {
    hide PlacesOk, PoolOk, Extents;
    var cs, top := s.chunks[a], h.arenas[a];
    assert ArenaOk(g, h.mem, top, cs, s.ends);
    var k := |cs| - 1;
    assert ChunkOk(g, h.mem, top, cs, s.ends, k);
    var b := Block(a, k, top.avail, n);
    var h', t := Bumped(h, a, n), s.(live := s.live + {b});
    assert PlacesOk(t) by { SamePlaces(s, t); }
    PoolUnmoved(g, h, s, h', t);
    BumpedArenas(g, h, s, a, n, t);
    BumpedLive(g, h, s, a, n, t);
  }

  lemma SamePlaces(s: Shape, t: Shape)
    requires PlacesOk(s) && s.places == t.places && s.ends == t.ends && s.pool == t.pool && s.chunks == t.chunks
    ensures PlacesOk(t)
  {
    forall c | c in t.places ensures Placed(t, c) {
      assert Placed(s, c);
    }
  }

  lemma BumpedArenas(g: Geometry, h: Heap, s: Shape, a: nat, n: nat, t: Shape)
    requires ArenasOk(g, h, s) && a in h.arenas && Aligned(g, n) && n <= h.arenas[a].limit - h.arenas[a].avail
    requires s.chunks[a] != [] && t.chunks == s.chunks && t.ends == s.ends
    ensures ArenasOk(g, Bumped(h, a, n), t)
  {
    var h' := Bumped(h, a, n);
    forall d | d in h'.arenas ensures ArenaOk(g, h'.mem, h'.arenas[d], t.chunks[d], t.ends) {
      var cs := s.chunks[d];
      assert ArenaOk(g, h.mem, h.arenas[d], cs, s.ends);
      assert RecordOf(g, h'.mem, h'.arenas[d], cs, -1) == RecordOf(g, h.mem, h.arenas[d], cs, -1);
      forall i | 0 <= i < |cs| ensures ChunkOk(g, h'.mem, h'.arenas[d], cs, s.ends, i) {
        assert ChunkOk(g, h.mem, h.arenas[d], cs, s.ends, i);
        if d == a && i + 1 == |cs| {
          AlignedSum(g, h.arenas[a].avail, n);
        }
      }
    }
  }

  lemma BumpedLive(g: Geometry, h: Heap, s: Shape, a: nat, n: nat, t: Shape)
    requires Sound(g, h, s) && a in h.arenas && n > 0 && n <= h.arenas[a].limit - h.arenas[a].avail
    requires a in s.chunks && s.chunks[a] != []
    requires t == s.(live := s.live + {Block(a, |s.chunks[a]| - 1, h.arenas[a].avail, n)})
    ensures Block(a, |s.chunks[a]| - 1, h.arenas[a].avail, n) !in s.live && LiveOk(g, Bumped(h, a, n), t)
  {
    hide PlacesOk, PoolOk, Extents, ArenasOk;
    var k := |s.chunks[a]| - 1;
    var b := Block(a, k, h.arenas[a].avail, n);
    var h' := Bumped(h, a, n);
    forall c | c in s.live ensures Disjoint(b, c) && BlockOk(g, h', t, c) {
      assert BlockOk(g, h, s, c);
      NewBlockIsApart(g, h, s, b, c);
    }
    assert BlockOk(g, h', t, b) by { TopChunk(g, h, s, a); }
  }

  lemma TopChunk(g: Geometry, h: Heap, s: Shape, a: nat)
    requires Sound(g, h, s) && a in h.arenas && s.chunks[a] != []
    ensures ChunkOk(g, h.mem, h.arenas[a], s.chunks[a], s.ends, |s.chunks[a]| - 1)
  {
    assert ArenaOk(g, h.mem, h.arenas[a], s.chunks[a], s.ends);
  }

  lemma NewBlockIsApart(g: Geometry, h: Heap, s: Shape, b: Block, c: Block)
    requires Sound(g, h, s) && c in s.live && b.a in h.arenas && b.len > 0
    requires b.i == |s.chunks[b.a]| - 1 && b.at == h.arenas[b.a].avail && b.at + b.len <= h.arenas[b.a].limit
    ensures Disjoint(b, c)
  {
    BlockBounds(g, h, s, c);
    assert BlockOk(g, h, s, c);
    assert ArenaOk(g, h.mem, h.arenas[b.a], s.chunks[b.a], s.ends);
    var mine, other := s.chunks[b.a][b.i], s.chunks[c.a][c.i];
    assert ChunkOk(g, h.mem, h.arenas[b.a], s.chunks[b.a], s.ends, b.i);
    if mine == other {
      assert s.places[mine] == In(b.a, b.i) && s.places[other] == In(c.a, c.i);
    } else {
      assert Apart(mine, s.ends[mine], other, s.ends[other]);
    }
  }

  /** The client writes into a block: no record is touched. */
  lemma WriteSound(g: Geometry, h: Heap, s: Shape, b: Block, p: Addr, v: nat)
    requires Sound(g, h, s) && b in s.live && Inside(b, p)
    ensures Sound(g, Written(h, p, v), s)
  {
    BlockBounds(g, h, s, b);
    var d := s.chunks[b.a][b.i];
    forall c | c in s.places ensures LoadRecord(g, h.mem[p := v], c) == LoadRecord(g, h.mem, c) {
      assert c == d || Apart(c, s.ends[c], d, s.ends[d]);
    }
    SameRecords(g, h, s, h.mem[p := v]);
  }

  lemma NewArenaSound(g: Geometry, h: Heap, s: Shape, a: nat)
    requires Sound(g, h, s) && a !in h.arenas
    ensures Sound(g, h.(arenas := h.arenas[a := NOTHING]), s.(chunks := s.chunks[a := []]))
  {
    var h', t := h.(arenas := h.arenas[a := NOTHING]), s.(chunks := s.chunks[a := []]);
    forall c | c in t.places ensures Placed(t, c) {
      assert Placed(s, c);
    }
    assert PlacesOk(t);
    PoolUnmoved(g, h, s, h', t);
    forall d | d in h'.arenas ensures ArenaOk(g, h'.mem, h'.arenas[d], t.chunks[d], t.ends) {
      if d != a {
        assert ArenaOk(g, h.mem, h.arenas[d], s.chunks[d], s.ends);
      }
    }
    forall b | b in t.live ensures BlockOk(g, h', t, b) {
      assert BlockOk(g, h, s, b);
    }
  }

  /** Giving up blocks. */
  lemma ForgetSound(g: Geometry, h: Heap, s: Shape, live: set<Block>)
    requires Good(g, h, s) && live <= s.live
    ensures Good(g, h, s.(live := live))
  {
    hide PlacesOk, PoolOk, Extents, ArenasOk;
    var t := s.(live := live);
    SamePlaces(s, t);
    PoolUnmoved(g, h, s, h, t);
    assert ArenasOk(g, h, t) by { SameArenas(g, h, s, t); }
    forall b | b in t.live ensures BlockOk(g, h, t, b) {
      assert BlockOk(g, h, s, b);
    }
  }

  lemma SameArenas(g: Geometry, h: Heap, s: Shape, t: Shape)
    requires ArenasOk(g, h, s) && t.chunks == s.chunks && t.ends == s.ends
    ensures ArenasOk(g, h, t)
  {
  }

  lemma KeepsOn(m: Memory, m': Memory, m'': Memory, live: set<Block>)
    requires Keeps(m, m', live) && Keeps(m', m'', live)
    ensures Keeps(m, m'', live)
  {
  }

  // ----- the allocator of one thread -----

  class Allocator {
    const g: Geometry
    var mem: Memory
    var freechunks: Addr
    var nfree: int
    var arenas: map<nat, Record>
    ghost var shape: Shape

    ghost function View(): (h: Heap)
      reads this
    {
      Heap(mem, freechunks, nfree, arenas)
    }

    ghost predicate Valid()
      reads this
    {
      Good(g, View(), shape)
    }

    constructor (g: Geometry)
      requires HeaderFits(g)
      ensures Valid() && this.g == g && View() == Heap(map[], NULL, 0, map[])
    {
      this.g := g;
      mem, freechunks, nfree, arenas := map[], NULL, 0, map[];
      shape := Shape(map[], map[], [], map[], {});
    }

    /** Arena_new */
    method New(a: nat)
      requires Valid() && a !in arenas
      modifies this`arenas, this`shape
      ensures Valid() && arenas == old(arenas)[a := NOTHING] && shape.live == old(shape.live)
    {
      NewArenaSound(g, View(), shape, a);
      arenas := arenas[a := NOTHING];
      shape := shape.(chunks := shape.chunks[a := []]);
    }

    /** A client's store of a word into a block it was given. */
    method Write(ghost b: Block, p: Addr, v: nat)
      requires Valid() && b in shape.live && Inside(b, p)
      modifies this`mem
      ensures Valid() && mem == old(mem)[p := v]
    {
      WriteSound(g, View(), shape, b, p, v);
      mem := mem[p := v];
    }

    ghost predicate Room(a: nat, n: nat)
      reads this
    {
      a in arenas && n <= arenas[a].limit - arenas[a].avail
    }

    /** `*ptr = *arena`, and `ptr` becomes the top chunk. */
    method Adopt(a: nat, ptr: Addr, limit: Addr)
      requires a in arenas && ptr in shape.places && shape.places[ptr] == Loose
      requires Sound(g, View(), shape) && ptr in shape.ends && shape.ends[ptr] == limit
      requires forall c :: c in shape.places && shape.places[c] == Loose ==> c == ptr
      modifies this`mem, this`arenas, this`shape
      ensures Valid() && arenas == old(arenas)[a := Record(ptr, ptr + g.unit, limit)]
      ensures shape.ends == old(shape.ends) && shape.pool == old(shape.pool) && shape.live == old(shape.live)
      ensures Keeps(old(mem), mem, shape.live)
    {
      hide Sound, Keeps;
      SoundFacts(g, View(), shape);
      AdoptSound(g, View(), shape, a, ptr);
      mem := StoreRecord(g, mem, ptr, arenas[a]);
      arenas := arenas[a := Record(ptr, ptr + g.unit, limit)];
      shape := AdoptShape(shape, a, ptr);
    }

    /** One turn of Arena_alloc's loop; `region` is what malloc would answer. */
    method Grow(a: nat, n: nat, region: Addr) returns (ok: bool)
      requires Valid() && a in arenas
      requires region != NULL ==> Fresh(g, shape.ends, region, MallocSize(g, n))
      modifies this
      ensures Valid() && arenas.Keys == old(arenas.Keys) && shape.live == old(shape.live)
      ensures Keeps(old(mem), mem, shape.live)
      ensures ok <==> old(freechunks) != NULL || region != NULL
      ensures !ok ==> View() == old(View())
      ensures old(freechunks) != NULL ==> shape.ends == old(shape.ends) && |shape.pool| == old(|shape.pool|) - 1
      ensures ok && old(freechunks) == NULL ==> Room(a, n) && shape.pool == old(shape.pool)
    {
      hide Sound, Tidy, Keeps;
      var ptr, limit := freechunks, 0;
      if ptr != NULL {
        limit := PopFree();
      } else {
        ptr := region;
        if ptr == NULL {
          KeepsItself(mem, shape.live);
          return false;
        }
        limit := ptr + MallocSize(g, n);
        Malloc(ptr, limit);
      }
      Adopt(a, ptr, limit);
      ok := true;
    }

    method PopFree() returns (limit: Addr)
      requires Valid() && freechunks != NULL
      modifies this`freechunks, this`nfree, this`shape
      ensures Sound(g, View(), shape)
      ensures var ptr := old(freechunks);
              ptr in shape.places && shape.places[ptr] == Loose && ptr in shape.ends && shape.ends[ptr] == limit &&
              forall c :: c in shape.places && shape.places[c] == Loose ==> c == ptr
      ensures shape.ends == old(shape.ends) && shape.live == old(shape.live) && |shape.pool| == old(|shape.pool|) - 1
    {
      hide Sound;
      PopSound(g, View(), shape);
      limit := Load(mem, freechunks + 2 * g.word);
      shape := PopShape(shape);
      freechunks := Load(mem, freechunks);
      nfree := nfree - 1;
    }

    ghost method Malloc(ptr: Addr, limit: Addr)
      requires Valid() && ptr + g.unit <= limit && Fresh(g, shape.ends, ptr, limit - ptr)
      modifies this`shape
      ensures Sound(g, View(), shape)
      ensures ptr in shape.places && shape.places[ptr] == Loose && ptr in shape.ends && shape.ends[ptr] == limit
      ensures forall c :: c in shape.places && shape.places[c] == Loose ==> c == ptr
      ensures shape.live == old(shape.live) && shape.pool == old(shape.pool)
    {
      hide Sound, Fresh;
      MallocSound(g, View(), shape, ptr, limit - ptr);
      shape := MallocShape(shape, ptr, limit);
    }

    /** Arena_alloc's loop: it ends even when the chunks it reuses are too small. */
    method MakeRoom(a: nat, n: nat, region: Addr) returns (ok: bool)
      requires Valid() && a in arenas
      requires region != NULL ==> Fresh(g, shape.ends, region, MallocSize(g, n))
      modifies this
      ensures Valid() && arenas.Keys == old(arenas.Keys) && shape.live == old(shape.live)
      ensures Keeps(old(mem), mem, shape.live)
      ensures if ok then Room(a, n) else region == NULL
    {
      hide Sound, Keeps, Tidy, Fresh;
      KeepsItself(mem, shape.live);
      while n > arenas[a].limit - arenas[a].avail
        invariant Valid() && arenas.Keys == old(arenas.Keys) && shape.live == old(shape.live)
        invariant Keeps(old(mem), mem, shape.live)
        invariant shape.ends == old(shape.ends) || Room(a, n)
        decreases |shape.pool|, !Room(a, n)
      {
        ghost var m := mem;
        SoundFacts(g, View(), shape);
        ok := Grow(a, n, region);
        KeepsOn(old(mem), m, mem, shape.live);
        if !ok {
          return;
        }
      }
      ok := true;
    }

    /** Arena_alloc: NULL stands for Arena_Failed, raised when malloc has nothing.
        Otherwise the block is new, aligned and clear of all others, and what the
        others hold is untouched. */
    method Alloc(a: nat, nbytes: nat, region: Addr) returns (r: Addr)
      requires Valid() && a in arenas && nbytes > 0
      requires region != NULL ==> Fresh(g, shape.ends, region, g.unit + Rounded(g, nbytes) + 10240)
      modifies this
      ensures Valid() && arenas.Keys == old(arenas.Keys) && Keeps(old(mem), mem, old(shape.live))
      ensures r == NULL ==> region == NULL && shape.live == old(shape.live)
      ensures r != NULL ==> Aligned(g, r)
      ensures r != NULL ==> exists i :: Handed(old(shape.live), shape.live, Block(a, i, r, Rounded(g, nbytes)))
    {
      hide Sound, Keeps, Tidy, Fresh, Aligned, Rounded, Handed;
      SoundFacts(g, View(), shape);
      RoundedIsAligned(g, nbytes);
      var n := Rounded(g, nbytes);
      var ok := MakeRoom(a, n, region);
      if !ok {
        return NULL;
      }
      ghost var b := Cut(a, n);
      arenas := arenas[a := arenas[a].(avail := arenas[a].avail + n)];
      r := arenas[a].avail - n;
      assert Handed(old(shape.live), shape.live, Block(a, b.i, r, n));
    }

    /** The ghost side of advancing `avail`. */
    ghost method Cut(a: nat, n: nat) returns (b: Block)
      requires Valid() && Room(a, n) && n > 0 && Aligned(g, n)
      modifies this`shape
      ensures Good(g, Bumped(View(), a, n), shape) && b == Block(a, b.i, arenas[a].avail, n)
      ensures Handed(old(shape.live), shape.live, b) && Aligned(g, b.at) && b.at != NULL
    {
      hide Sound;
      SoundFacts(g, View(), shape);
      BumpSound(g, View(), shape, a, n);
      b := Block(a, |shape.chunks[a]| - 1, arenas[a].avail, n);
      TopChunk(g, View(), shape, a);
      shape := shape.(live := shape.live + {b});
    }

    /** Arena_free: the arena is empty again, and every other one as it was. */
    method Free(a: nat)
      requires Valid() && a in arenas
      modifies this
      ensures Valid() && arenas == old(arenas)[a := NOTHING]
      ensures shape.live == set b | b in old(shape.live) && b.a != a
      ensures Keeps(old(mem), mem, shape.live)
      ensures a in old(shape.chunks) && nfree == Least(10, old(nfree + |shape.chunks[a]|))
    {
      hide Sound, Keeps, Tidy;
      ghost var live := set b | b in shape.live && b.a != a;
      ForgetSound(g, View(), shape, live);
      shape := shape.(live := live);
      ReleaseAll(a);
      assert arenas[a].limit == NULL;
      assert arenas[a].avail == NULL;
    }

    method ReleaseAll(a: nat)
      requires Valid() && a in arenas && forall b :: b in shape.live ==> b.a != a
      modifies this
      ensures Valid() && arenas == old(arenas)[a := NOTHING] && shape.live == old(shape.live)
      ensures Keeps(old(mem), mem, shape.live)
      ensures a in old(shape.chunks) && nfree == Least(10, old(nfree + |shape.chunks[a]|))
    {
      hide Sound, Keeps, Tidy;
      SoundFacts(g, View(), shape);
      KeepsItself(mem, shape.live);
      while arenas[a].prev != NULL
        invariant Valid() && a in arenas && a in shape.chunks && arenas == old(arenas)[a := arenas[a]]
        invariant shape.live == old(shape.live) && Keeps(old(mem), mem, shape.live) && a in old(shape.chunks)
        invariant Least(10, nfree + |shape.chunks[a]|) == Least(10, old(nfree + |shape.chunks[a]|)) && nfree <= 10
        decreases |shape.chunks[a]|
      {
        ghost var m := mem;
        Release(a);
        KeepsOn(old(mem), m, mem, shape.live);
      }
      EmptyArena(g, View(), shape, a);
      SoundFacts(g, View(), shape);
    }

    /** One turn of Arena_free's loop. */
    method Release(a: nat)
      requires Valid() && a in arenas && a in shape.chunks && arenas[a].prev != NULL
      requires forall b :: b in shape.live ==> b.a != a
      modifies this
      ensures Valid() && arenas == old(Dropped(g, View(), a)).arenas && shape.live == old(shape.live)
      ensures Keeps(old(mem), mem, shape.live)
      ensures a in shape.chunks && |shape.chunks[a]| == old(|shape.chunks[a]|) - 1
      ensures nfree == Least(10, old(nfree) + 1)
    {
      hide Sound, Keeps;
      SoundFacts(g, View(), shape);
      DropSound(g, View(), shape, a);
      var top := arenas[a];
      var tmp := LoadRecord(g, mem, top.prev);
      ghost var mid := Dropped(g, View(), a);
      shape := DropShape(shape, a);
      assert shape.places[top.prev] == Loose;
      if nfree < THRESHOLD {
        PoolSound(g, mid, shape, top.prev);
        mem := mem[top.prev := freechunks];
        freechunks := top.prev;
        nfree := nfree + 1;
        mem := mem[top.prev + 2 * g.word := top.limit];
        shape := PoolShape(shape, top.prev);
      } else {
        FreeSound(g, mid, shape, top.prev);
        KeepsItself(mem, shape.live);
        shape := FreeShape(shape, top.prev);
      }
      arenas := arenas[a := tmp];
    }
  }

  /** `b` is the one block that is new. */
  ghost predicate Handed(live: set<Block>, live': set<Block>, b: Block) {
    b !in live && live' == live + {b}
  }

  lemma KeepsItself(m: Memory, live: set<Block>)
    ensures Keeps(m, m, live)
  {
  }

  lemma SoundFacts(g: Geometry, h: Heap, s: Shape)
    requires Sound(g, h, s)
    ensures h.free == NULL <==> s.pool == []
    ensures h.nfree == |s.pool| <= THRESHOLD && Possible(g) && s.chunks.Keys == h.arenas.Keys
  {
    if s.pool != [] {
      assert PoolLink(g, h.mem, s.pool, s.ends, |s.pool| - 1);
    }
  }

  lemma EmptyArena(g: Geometry, h: Heap, s: Shape, a: nat)
    requires Sound(g, h, s) && a in h.arenas && h.arenas[a].prev == NULL
    ensures h.arenas[a] == NOTHING && a in s.chunks && s.chunks[a] == []
  {
    assert ArenaOk(g, h.mem, h.arenas[a], s.chunks[a], s.ends);
    if s.chunks[a] != [] {
      TopChunk(g, h, s, a);
      assert false;
    }
  }

  /** When a record does not fit in front of the first block (as with 8-byte
      pointers and a 16-byte `union align`), the first block of any new arena
      covers the saved limit: a client that stores a non-zero word there makes
      Arena_free end its loop with `limit` not NULL, against its closing assertion. */
  lemma ShallowHeaderBreaksFree(g: Geometry, a: nat, region: Addr, v: nat)
    requires Possible(g) && !HeaderFits(g) && v != 0
    ensures var n := Rounded(g, 3 * g.word);
            var start := Heap(map[], NULL, 0, map[a := NOTHING]);
            var grown := Adopted(g, start, a, region, region + MallocSize(g, n));
            var handed := Bumped(grown, a, n);
            var p := region + 2 * g.word;
            n <= grown.arenas[a].limit - grown.arenas[a].avail &&
            Inside(Block(a, 0, grown.arenas[a].avail, n), p) &&
            var freed := Dropped(g, Written(handed, p, v), a);
            freed.arenas[a].prev == NULL && freed.arenas[a].limit == v
  {
    RoundedIsAligned(g, 3 * g.word);
    Shallow(g);
  }

  lemma Shallow(g: Geometry)
    requires Possible(g) && !HeaderFits(g)
    ensures g.unit <= 2 * g.word
  {
    var k := g.unit / g.word;
    assert g.unit == k * g.word;
    MultiplesGrow(k, 3, g.word);
    MultiplesGrow(2, k, g.word);
  }

  lemma MultiplesGrow(k: nat, l: nat, word: nat)
    ensures k >= l ==> k * word >= l * word
  {
    if k >= l {
      assert k * word == l * word + (k - l) * word;
    }
  }
}

/**
 Arenas on the heap: what arena allocation expects of emalloc and efree is what the
 memory manager does.
 */
module ArenaMemory {
  import opened Basics
  import opened Bins
  import opened Chunks
  import opened Blocks
  import opened Ledger
  import opened Memory
  import opened Collector
  import opened Space
  import opened Heap
  import opened Allocator
  import opened Manager
  import Arenas

  /** The block that starts at address `a`. */
  function PtrOf(a: nat): Ptr {
    Ptr(a / CHUNK_SIZE, a % CHUNK_SIZE)
  }

  lemma SlotEight(r: RunMap, off: nat, b: nat)
    requires RunsOk(r) && SmallAt(r, off, b)
    ensures off % 8 == 0 && off < CHUNK_SIZE
  {
    BinFacts(b);
    var j :| IsSlot(HeadOf(r, off), b, j, off);
    Multiples(HeadOf(r, off) * PAGE_SIZE, j, BinSize(b));
  }

  lemma Multiples(a: nat, j: nat, size: nat)
    requires a % 8 == 0 && size % 8 == 0
    ensures (a + j * size) % 8 == 0
  {
    var k := size / 8;
    assert j * size == 8 * (j * k);
  }

  /** Where a block in a chunk lies. */
  lemma ChunkPlace(L: Layout, huge: seq<Huge>, p: Ptr, size: nat)
    requires LayoutOk(L) && LiveOk(L, huge, p, size) && p.off != 0
    ensures p.off % 8 == 0 && p.off < CHUNK_SIZE && p.off + size <= CHUNK_SIZE && p.seg in L
  {
    hide SmallAt, LargeAt, RunsOk, BinSize, Doomed;
    LiveInside(L, huge, p, size);
    if b: nat :| Small(L, p, b) && !Doomed(L, p, b) && size == BinSize(b) {
      SlotEight(L[p.seg], p.off, b);
    } else {
      var n: nat :| Large(L, p, n) && size == n * PAGE_SIZE;
      LargeFacts(L, p, n);
    }
  }

  lemma PlaceInChunk(p: Ptr, size: nat)
    requires p.seg < SEGMENTS && p.off % 8 == 0 && p.off < CHUNK_SIZE && p.off + size <= CHUNK_SIZE
    ensures Address(p) % 8 == 0 && Address(p) + size < SIZE_T && PtrOf(Address(p)) == p
  {
  }

  lemma PlaceOfMapping(p: Ptr, size: nat)
    requires p.off == 0 && p.seg + Span(size) <= SEGMENTS
    ensures Address(p) % 8 == 0 && Address(p) + size < SIZE_T && PtrOf(Address(p)) == p
  {
    assert size <= Span(size) * CHUNK_SIZE;
  }

  lemma MappingEnds(ring: seq<nat>, cached: seq<nat>, all: seq<Huge>, mapped: set<nat>, i: nat)
    requires SegmentsOk(ring, cached, all, mapped) && InRange(mapped) && i < |all|
    ensures all[i].seg + Span(all[i].size) <= SEGMENTS
  {
    hide Apart, Span, Segments;
    LastSegment(all[i].seg, all[i].size);
  }

  /** A live block is aligned, ends within the address space, and is found from its address. */
  lemma BlockPlace(h: State, v: View, p: Ptr)
    requires Heap.Valid(h, v) && p in v.live
    ensures Address(p) % 8 == 0 && Address(p) + v.live[p] < SIZE_T && PtrOf(Address(p)) == p
  {
    hide LinksOk, HugeLinked, RealTotal, Idle, Runs, CacheOk, FreeOk, Complete, HugeOk, LayoutOf, Segments, Apart,
         Small, Large, Doomed, Address, PtrOf, Span, RunsOk;
    assert LiveOk(LayoutIn(h, v), h.hugeList, p, v.live[p]);
    if p.off != 0 {
      ChunkPlace(LayoutIn(h, v), h.hugeList, p, v.live[p]);
      LayoutKeys(h.chunks, v.owners, h.ring);
      assert p.seg in Members(h.ring);
      PlaceInChunk(p, v.live[p]);
    } else {
      var i :| 0 <= i < |h.hugeList| && h.hugeList[i].seg == p.seg && h.hugeList[i].size == v.live[p];
      assert Mappings(h, v)[i] == h.hugeList[i];
      MappingEnds(h.ring, h.cached, Mappings(h, v), h.mapped, i);
      PlaceOfMapping(p, v.live[p]);
    }
  }

  /** Every arena of the chain is a block that some caller of the heap holds. */
  ghost predicate Backed(h: State, v: View, chain: seq<Arenas.Arena>) {
    forall i :: 0 <= i < |chain| ==> Holds(h, v, chain[i].base, chain[i].end)
  }

  /** A caller holds a block at `base` that reaches to `end`. */
  ghost predicate Holds(h: State, v: View, base: nat, end: nat) {
    var p := PtrOf(base);
    p in Users(h, v) && p in v.live && Address(p) == base && end <= base + v.live[p]
  }

  lemma StillBacked(h: State, v: View, h': State, v': View, gone: set<Ptr>, chain: seq<Arenas.Arena>)
    requires Backed(h, v, chain) && KeepsOthers(h, v, h', v', Users(h, v) - gone) && Users(h, v) - gone <= Users(h', v')
    requires forall i :: 0 <= i < |chain| ==> PtrOf(chain[i].base) !in gone
    ensures Backed(h', v', chain)
  {
    hide Users, PtrOf, Address, BlockKept;
    forall i | 0 <= i < |chain| ensures Holds(h', v', chain[i].base, chain[i].end) {
      assert Holds(h, v, chain[i].base, chain[i].end);
    }
  }

  /** Two different live blocks do not overlap, nor do what they hold. */
  lemma NewArena(h: State, v: View, p: Ptr, size: nat, chain: seq<Arenas.Arena>)
    requires Heap.Valid(h, v) && p in v.live && size <= v.live[p] && Backed(h, v, chain)
    requires forall i :: 0 <= i < |chain| ==> PtrOf(chain[i].base) != p
    ensures forall i :: 0 <= i < |chain| ==> Arenas.Disjoint(Address(p), Address(p) + size, chain[i])
  {
    hide Heap.Valid, Users, PtrOf, Address;
    LiveBlocksDisjoint(h, v);
    forall i | 0 <= i < |chain| ensures Arenas.Disjoint(Address(p), Address(p) + size, chain[i]) {
      assert Holds(h, v, chain[i].base, chain[i].end);
    }
  }

  /** emalloc for an arena, with all that arena allocation relies on. */
  method Emalloc(heap: MMHeap, chain: seq<Arenas.Arena>, size: Size) returns (ok: bool, base: nat)
    requires heap.Valid() && Backed(heap.state, heap.view, chain)
    modifies heap
    ensures ok ==> heap.Valid() && base % 8 == 0 && base + size < SIZE_T
    ensures ok ==> forall i :: 0 <= i < |chain| ==> Arenas.Disjoint(base, base + size, chain[i])
    ensures ok ==> Backed(heap.state, heap.view, chain)
    ensures ok ==> Holds(heap.state, heap.view, base, base + size) && heap.Held() == old(heap.Held()) + {PtrOf(base)}
    ensures ok ==> KeepsOthers(old(heap.state), old(heap.view), heap.state, heap.view, old(heap.Held()))
  {
    hide Heap.Valid, Users, Drift, BlockSize, KeepsOthers, Backed, Address, PtrOf;
    ghost var h, v := heap.state, heap.view;
    var r;
    ghost var mid, refused;
    r, mid, refused := heap.Alloc(size);
    ok, base := r.Ok?, 0;
    if ok {
      var p := r.ptr;
      base := Address(p);
      BlockPlace(heap.state, heap.view, p);
      UsersKept(h, v, heap.state, heap.view);
      StillBacked(h, v, heap.state, heap.view, {}, chain);
      NotYet(h, v, p, chain);
      NewArena(heap.state, heap.view, p, size, chain);
    }
  }

  lemma UsersKept(h: State, v: View, h': State, v': View)
    requires KeepsOthers(h, v, h', v', v.live.Keys)
    ensures KeepsOthers(h, v, h', v', Users(h, v)) && KeepsOthers(h, v, h', v', Users(h, v) - {})
  {
    hide BlockKept, IsNode;
  }

  lemma NotYet(h: State, v: View, p: Ptr, chain: seq<Arenas.Arena>)
    requires Backed(h, v, chain) && p !in v.live
    ensures forall i :: 0 <= i < |chain| ==> PtrOf(chain[i].base) != p
  {
    hide Users, PtrOf, Address;
    forall i | 0 <= i < |chain| ensures PtrOf(chain[i].base) != p {
      assert Holds(h, v, chain[i].base, chain[i].end);
    }
  }

  /** efree of the newest arena: the other arenas stay where they are. */
  method Efree(heap: MMHeap, chain: seq<Arenas.Arena>)
    requires heap.Valid() && chain != [] && Arenas.ChainOk(chain) && Backed(heap.state, heap.view, chain)
    modifies heap
    ensures heap.Valid() && Backed(heap.state, heap.view, chain[1..])
    ensures heap.Held() == old(heap.Held()) - {PtrOf(chain[0].base)}
    ensures KeepsOthers(old(heap.state), old(heap.view), heap.state, heap.view, heap.Held())
  {
    hide Heap.Valid, Users, Drift, KeepsOthers, Address, PtrOf;
    ghost var h, v := heap.state, heap.view;
    var p := PtrOf(chain[0].base);
    assert Holds(h, v, chain[0].base, chain[0].end);
    heap.Free(At(p));
    OtherBlocks(h, v, chain);
    StillBacked(h, v, heap.state, heap.view, {p}, chain[1..]);
  }

  /** Arenas that do not overlap are different blocks. */
  lemma OtherBlocks(h: State, v: View, chain: seq<Arenas.Arena>)
    requires chain != [] && Arenas.ChainOk(chain) && Backed(h, v, chain)
    ensures Backed(h, v, chain[1..])
    ensures forall i :: 0 <= i < |chain[1..]| ==> PtrOf(chain[1..][i].base) !in {PtrOf(chain[0].base)}
  {
    hide Users, PtrOf, Address;
    var rest := chain[1..];
    forall i | 0 <= i < |rest|
      ensures Holds(h, v, rest[i].base, rest[i].end) && PtrOf(rest[i].base) != PtrOf(chain[0].base)
    {
      assert rest[i] == chain[i + 1] && Holds(h, v, chain[i + 1].base, chain[i + 1].end)
             && Holds(h, v, chain[0].base, chain[0].end);
      assert Arenas.ArenaOk(chain[0]) && Arenas.ArenaOk(chain[i + 1]);
      assert Arenas.Disjoint(chain[0].base, chain[0].end, chain[i + 1]);
    }
  }

  /** A piece of an arena overlaps no block of the heap but the arena's own. */
  lemma PieceApart(h: State, v: View, chain: seq<Arenas.Arena>, pieces: seq<Arenas.Piece>, k: nat, q: Ptr)
    requires Heap.Valid(h, v) && Arenas.ChainOk(chain) && Arenas.PiecesOk(chain, pieces) && Backed(h, v, chain)
    requires k < |pieces| && q in v.live && forall i :: 0 <= i < |chain| ==> PtrOf(chain[i].base) != q
    ensures pieces[k].start + pieces[k].size <= Address(q) || Address(q) + v.live[q] <= pieces[k].start
  {
    hide Heap.Valid, Users, PtrOf, Address;
    assert Arenas.Lies(pieces[k], chain);
    var i :| 0 <= i < |chain| && Arenas.Inside(pieces[k], chain[i]);
    assert Holds(h, v, chain[i].base, chain[i].end) && Arenas.ArenaOk(chain[i]);
    LiveBlocksDisjoint(h, v);
  }
}

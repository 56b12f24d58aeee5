/**
 The heap as its callers see it: an object that hands out blocks, takes them
 back and resizes them, and what its invariant means for them.
 */
module Manager {
  import opened Basics
  import opened Bitset
  import opened PageSearch
  import opened PageInfo
  import opened Bins
  import opened Chunks
  import opened Blocks
  import opened Ledger
  import opened Memory
  import opened Collector
  import opened Space
  import opened Heap
  import opened Allocator
  import opened Realloc
  import opened Lifecycle

  // ------------------------------------------------------ what the invariant says

  /** No two live blocks share a byte. */
  lemma LiveBlocksDisjoint(h: State, v: View)
    requires Valid(h, v)
    ensures forall p, q :: p in v.live && q in v.live && p != q ==>
              Address(p) + v.live[p] <= Address(q) || Address(q) + v.live[q] <= Address(p)
  {
    hide LinksOk, HugeLinked, InRange, SpaceOk, LayoutOf, Balanced, Idle, RealTotal, Address, Apart;
    SpaceApart(h, v);
    forall p, q | p in v.live && q in v.live && p != q
      ensures Address(p) + v.live[p] <= Address(q) || Address(q) + v.live[q] <= Address(p)
    {
      LiveDisjoint(LayoutIn(h, v), h.freeSlot, h.hugeList, v.live, p, q);
    }
  }

  /** Each free list holds exactly the slots of its bin that are not live, each once. */
  lemma FreeListsExact(h: State, v: View, b: nat)
    requires Valid(h, v) && b < BINS
    ensures LayoutOk(LayoutIn(h, v)) && |h.freeSlot| == BINS && NoDup(h.freeSlot[b])
    ensures forall p :: p in h.freeSlot[b] <==> Small(LayoutIn(h, v), p, b) && p !in v.live
  {
    hide LinksOk, HugeLinked, InRange, SpaceOk, LayoutOf, RealTotal, SmallAt, LiveOk, HugeOk, BinElements;
    LayoutFacts(h, v);
    var L := LayoutIn(h, v);
    assert FreeListOk(L, h.freeSlot[b], b, v.live);
    forall p ensures p in h.freeSlot[b] <==> Small(L, p, b) && p !in v.live {
      if p in h.freeSlot[b] {
        var i :| 0 <= i < |h.freeSlot[b]| && h.freeSlot[b][i] == p;
        assert Small(L, h.freeSlot[b][i], b);
      }
      if Small(L, p, b) {
        IdleNotDoomed(L, p, b);
      }
    }
  }

  /**
   Nothing pins the main chunk of a heap that has handed out no page of it, for
   example a new one: a collection at that moment deletes the main chunk.
   */
  lemma NewHeapUnpinned(h: State, v: View)
    requires Valid(h, v) && v.live == map[] && h.ring != [] && h.ring[0] in v.owners && v.owners[h.ring[0]] == NoRuns()
    ensures LayoutOk(LayoutIn(h, v)) && h.ring[0] in LayoutIn(h, v) && Unpinned(LayoutIn(h, v), v.live, h.ring[0])
  {
    hide LinksOk, HugeLinked, InRange, SpaceOk, LayoutOf, RealTotal, Balanced, Idle, RunsOk;
    LayoutFacts(h, v);
    LayoutEntry(h, v, h.ring[0]);
  }

  /** Following the links in memory from the head of a free list gives exactly that list, and ends. */
  lemma ChainsInMemory(h: State, v: View, b: nat, n: nat)
    requires Valid(h, v) && b < BINS && |h.freeSlot| == BINS && |h.freeSlot[b]| <= n
    ensures Chain(h.mem, AddressAt(h.freeSlot[b], 0), n) == Addresses(h.freeSlot[b])
  {
    hide SpaceOk, LayoutOf, Balanced, Idle, RealTotal, ListLinked, Address, Chain, Addresses, AddressAt, Small;
    FreeListsExact(h, v, b);
    forall p | p in h.freeSlot[b] ensures 0 < Address(p) < SIZE_T {
      SlotAddress(h, v, p, b);
    }
    ChainReads(h.mem, h.freeSlot[b], n);
  }

  /** A mapping beside the main chunk: its address and its size are words. */
  lemma MappingInRange(ring: seq<nat>, cached: seq<nat>, all: seq<Huge>, mapped: set<nat>, i: nat)
    requires SegmentsOk(ring, cached, all, mapped) && InRange(mapped) && ring != [] && i < |all|
    ensures all[i].size < SIZE_T && Address(Ptr(all[i].seg, 0)) < SIZE_T
  {
    hide Segments;
    var x := all[i];
    var last := x.seg + Span(x.size) - 1;
    assert last in mapped by { LastSegment(x.seg, x.size); }
    assert ring[0] in Members(ring) && ring[0] in Members(ring) + Members(cached);
    assert ring[0] in mapped;
    assert !(x.seg <= ring[0] < x.seg + Span(x.size));
  }

  lemma LastSegment(seg: nat, size: nat)
    requires 0 < size
    ensures 1 <= Span(size) && seg + Span(size) - 1 in Segments(seg, size)
  {
    assert Within(seg + Span(size) - 1, seg, size);
  }

  lemma HugeReadable(h: State, v: View, i: nat)
    requires Valid(h, v) && i < |h.hugeList|
    ensures Readable(h.hugeList[i])
  {
    hide LinksOk, HugeLinked, InRange, LayoutOf, RealTotal, FreeOk, Complete, LiveOk, Small, Idle, Runs, SegmentsOk,
         CacheOk, Address;
    LayoutFacts(h, v);
    LastChunk(h, v);
    SlotAddress(h, v, h.hugeList[i].node, NODE_BIN);
    assert Mappings(h, v)[i] == h.hugeList[i];
    MappingInRange(h.ring, h.cached, Mappings(h, v), h.mapped, i);
  }

  /** Walking the list of huge blocks in memory meets exactly the huge blocks, with their sizes, and ends. */
  lemma HugeListInMemory(h: State, v: View, n: nat)
    requires Valid(h, v) && |h.hugeList| <= n
    ensures ReadHuge(h.mem, NodeAt(h.hugeList, 0), n) == Records(h.hugeList)
  {
    hide Placed, Balanced, Counted, Idle, LinksOk, HugeLinked, InRange, LayoutIn, Readable, ReadHuge, Records, NodeAt;
    forall i | 0 <= i < |h.hugeList| ensures Readable(h.hugeList[i]) {
      HugeReadable(h, v, i);
    }
    HugeReads(h.mem, h.hugeList, n);
  }

  /** In every chunk in use `free_pages` is the number of free pages and no run starts at or above `free_tail`. */
  lemma ChunkFacts(h: State, v: View, s: nat)
    requires Valid(h, v) && s in h.ring
    ensures s in h.chunks && s in v.owners && |h.chunks[s].freeMap| == 8 && |v.owners[s]| == PAGES
    ensures h.chunks[s].freePages == CountFree(Used(h.chunks[s]))
    ensures forall p :: h.chunks[s].freeTail <= p < PAGES ==> v.owners[s][p] != p
    ensures forall p :: 0 <= p < PAGES ==> (Used(h.chunks[s])[p] <==> v.owners[s][p] >= 0)
  {
    hide LinksOk, HugeLinked, InRange, CacheOk, SegmentsOk, LayoutOf, RealTotal, Balanced, Idle, CountFree, Pages;
    assert Runs(h.chunks[s], v.owners[s]);
  }

  lemma StoreValid(h: State, v: View, p: Ptr, k: nat, h': State)
    requires Valid(h, v) && p in Users(h, v) && p in v.live && k < v.live[p] && h' == h.(mem := h'.mem)
    requires OnlyWithin(h.mem, h'.mem, Address(p) + k, 1)
    ensures Valid(h', v) && BytesKept(h.mem, h'.mem, v.live - {p})
  {
    hide SpaceOk, LayoutOf, Balanced, Idle, RealTotal, LinksOk, HugeLinked, InRange, Address, BytesKept, OnlyWithin;
    SpaceApart(h, v);
    WriteInside(LayoutIn(h, v), h.freeSlot, h.hugeList, v.live, p, Address(p) + k, 1, h.mem, h'.mem);
    HugeKeptBut(LayoutIn(h, v), h.freeSlot, h.hugeList, v.live, h.mem, h'.mem, p);
  }

  /** What callers see of a failed request: nothing. */
  lemma NothingChanged(h: State, v: View, h': State, v': View, lost: int)
    requires NoBlock(h, v, h', v', lost)
    ensures Heap.Valid(h', v') && SameHeap(h, h') && Drift(h', v') == Drift(h, v) + lost && KeepsLimit(h, h')
    ensures Tidy(h, v, h', v') && KeepsCompact(h, v, h', v') && (h.size <= h.peak ==> h'.peak == Max(h.peak, h'.size))
    ensures Users(h', v') == Users(h, v) && KeepsOthers(h, v, h', v', Users(h, v))
  {
    hide Heap.Valid, IsNode, Sum, BlockKept;
  }

  lemma LossGrows(size: nat, mappings: nat)
    ensures 0 <= LostCount(size, mappings)
  {
  }

  lemma BlockMoved(h: State, v: View, h': State, v': View, p: Ptr, q: Ptr, size: nat, kept: nat)
    requires Reallocated(h, v, h', v', p, q, size, kept)
    ensures Heap.Valid(h', v') && SameHeap(h, h') && KeepsCompact(h, v, h', v')
  {
    hide Heap.Valid, Users, Drift, KeepsOthers;
  }

  lemma BlockMade(h: State, v: View, h': State, v': View, p: Ptr, bytes: nat)
    requires NewBlock(h, v, h', v', p, bytes)
    ensures Heap.Valid(h', v') && SameHeap(h, h') && KeepsCompact(h, v, h', v')
  {
    hide Heap.Valid, Users, Drift, KeepsOthers;
  }

  // ------------------------------------------------------------ the memory limit

  lemma {:induction false} NoneFree(free: seq<seq<Ptr>>)
    requires forall b :: 0 <= b < |free| ==> free[b] == []
    ensures TotalFree(free) == 0
  {
    if free != [] {
      NoneFree(free[1..]);
    }
  }

  /** A run of all pages behind the header leaves no page. */
  lemma NoPageLeft(c: Chunk, owner: seq<int>, page: nat)
    requires Runs(c, owner) && 1 <= page && page + PAGES - 1 <= PAGES && owner[page] == page
             && c.map_[page] == Lrun(PAGES - 1)
    ensures !HasRoom(Used(c), 1)
  {
    hide CountFree, Pages;
    forall p | 0 <= p < PAGES ensures owner[p] >= 0 {
      assert PageOk(c.map_, owner, page) && PageOk(c.map_, owner, p);
    }
    forall s | 0 <= s && s + 1 <= |Used(c)| ensures !RangeFree(Used(c), s, 1) {
      assert Used(c)[s];
    }
  }

  /** The one chunk of the heap is full. */
  lemma FullHeap(h: State, v: View, p: Ptr)
    requires Valid(h, v) && LayoutOk(LayoutIn(h, v)) && Large(LayoutIn(h, v), p, PAGES - 1) && |h.ring| == 1
             && h.cached == []
    ensures NeedsChunk(h, 1)
  {
    hide Heap.Valid, LayoutIn, Large, Runs, HasRoom, Used;
    LargeChunk(h, v, p, PAGES - 1);
    NoPageLeft(h.chunks[p.seg], v.owners[p.seg], p.off / PAGE_SIZE);
    assert h.ring[0] == p.seg;
  }

  lemma EmptyRoom(h: State, v: View)
    requires |h.ring| == 1 && h.ring[0] in h.chunks && Runs(h.chunks[h.ring[0]], NoRuns())
    ensures FirstRoom(h, PAGES - 1, 0)
  {
    hide Runs, NoRuns, RangeFree;
    EmptyRange(h.chunks[h.ring[0]], PAGES - 1);
    assert RoomIn(h, h.ring[0], PAGES - 1) by { UsedLength(h.chunks[h.ring[0]]); }
  }

  lemma UsedLength(c: Chunk)
    requires Runs(c, NoRuns())
    ensures |Used(c)| == PAGES
  {
    hide CountFree, Pages;
  }

  /**
   A run that exceeds the limit of three chunks: all pages of the first chunk,
   then a block of two chunks, whose list element takes a chunk of its own.  From
   then on the checks let through nearly any size.
   */
  method ExceedLimit(mapped: set<nat>) returns (r: Outcome, h: State, ghost v: View)
    requires InRange(mapped)
    ensures r.Ok? ==> Heap.Valid(h, v) && !h.overflow && h.limit < h.realSize && SIZE_T - CHUNK_SIZE <= Headroom(h)
  {
    hide Heap.Valid, Runs, NoRuns, BytesKept, Large, LayoutIn, FirstRoom, NeedsChunk, TotalFree, RoomIn;
    var ok;
    r := Bailout;
    ok, h, v := Init(mapped);
    if !ok {
      return;
    }
    ok, h := SetMemoryLimit(h, 3 * CHUNK_SIZE, v);
    EmptyRoom(h, v);
    var h1;
    ghost var v1, node, mid, refused;
    r, h1, v1, refused := AllocPages(h, PAGES - 1, v);
    if r.Ok? {
      ViewLayout(h1, v1);
      FullHeap(h1, v1, r.ptr);
      NoneFree(h1.freeSlot);
      AlignedHuge();
      r, h, v, node, mid, refused := AllocHuge(h1, 2 * CHUNK_SIZE, v1);
      if r.Ok? {
        HeadroomExact(h1);
        LimitGone(h);
      }
    }
  }

  lemma ViewLayout(h: State, v: View)
    requires Heap.Valid(h, v)
    ensures LayoutOk(LayoutIn(h, v))
  {
    hide LinksOk, HugeLinked, InRange, SpaceOk, LayoutOf, Balanced, Idle, RealTotal;
    LayoutFacts(h, v);
  }

  lemma AlignedHuge()
    ensures AlignHuge(2 * CHUNK_SIZE) == 2 * CHUNK_SIZE && BinPages(NODE_BIN) == 1
  {
  }

  // -------------------------------------------------------------------- the heap

  /** A pointer that may be NULL. */
  datatype MaybePtr = Null | At(ptr: Ptr)

  class MMHeap {
    var state: State
    ghost var view: View

    /**
     The invariant of every operation; `peak` is never below `size`, and no empty chunk
     but the main one is in use.
     */
    ghost predicate Valid()
      reads this
    {
      Heap.Valid(state, view) && state.size <= state.peak && Compact(state, view)
    }

    /** The blocks in the hands of callers. */
    ghost function Held(): set<Ptr>
      reads this
    {
      Users(state, view)
    }

    constructor (h: State, ghost v: View)
      requires Heap.Valid(h, v) && h.size <= h.peak && Compact(h, v)
      ensures Valid() && state == h && view == v
    {
      state, view := h, v;
    }

    /** A heap for a process that has the segments `mapped` in use. */
    static method Start(mapped: set<nat>) returns (heap: MMHeap?)
      requires InRange(mapped)
      ensures heap != null ==> fresh(heap) && heap.Valid() && heap.Held() == {} && heap.state.size == 0
      ensures heap != null ==> heap.view.live == map[] && Drift(heap.state, heap.view) == 0 && Limited(heap.state)
      ensures heap != null ==> heap.state.freeSlot == NoSlots() && |heap.state.ring| == 1
      ensures heap != null ==> TallyOf(heap.state) == Tally(1, 0, (0, 0)) && heap.state.avgChunksCount == 1.0
    {
      hide Heap.Valid;
      heap := null;
      var ok, h;
      ghost var v;
      ok, h, v := Init(mapped);
      if ok {
        heap := new MMHeap(h, v);
      }
    }

    /**
     `refused` says whether the system has refused a mapping on the way, `mid` in which
     heap a huge block was mapped.
     */
    method Alloc(size: nat) returns (r: Outcome, ghost mid: State, ghost refused: bool)
      requires Valid() && size < SIZE_T
      modifies this
      ensures r.Ok? ==> Valid() && NewBlock(old(state), old(view), state, view, r.ptr, BlockSize(size))
      ensures r.Ok? ==> size <= BlockSize(size) && LimitKept(old(state), size, state)
      ensures r.Ok? && MAX_LARGE_SIZE < size && Limited(old(state)) && !old(state.overflow) ==>
                LimitExact(old(state), AlignHuge(size), mid, refused, state)
      ensures r.Ok? && MAX_SMALL_SIZE < size <= MAX_LARGE_SIZE ==> NoMoreSlots(old(state), state)
      ensures Served(old(state), size) && !refused ==> r.Ok?
      ensures r.Bailout? ==> GaveUp(size, state, view) && Tidy(old(state), old(view), state, view)
      ensures r.Bailout? ==> state.peak == Max(old(state.peak), state.size)
      ensures r.Bailout? ==> Valid() && Held() == old(Held())
      ensures r.Bailout? ==> KeepsOthers(old(state), old(view), state, view, old(Held()))
      ensures r.Bailout? ==>
                Drift(state, view) == old(Drift(state, view)) + LostCount(size, |view.pending| - |old(view.pending)|)
      ensures r.Bailout? ==> KeepsLimit(old(state), state)
      ensures r.MainLost? ==> old(state.ring) != [] && Loose(old(view.live), old(state.ring[0]))
    {
      hide Heap.Valid, Users, Drift, BlockSize, KeepsOthers, LostCount, NewBlock, NoBlock, Loose, LimitKept,
           KeepsLimit, LimitExact, NoMoreSlots, FirstOfRun, AlignHuge, Served, Compact, Settled, Tidy;
      ghost var h, v := state, view;
      r, state, view, mid, refused := AllocHeap(state, size, view);
      if r.Bailout? {
        NothingChanged(h, v, state, view, LostCount(size, |view.pending| - |v.pending|));
      } else if r.Ok? {
        BlockMade(h, v, state, view, r.ptr, BlockSize(size));
      }
    }

    /** A caller writes one byte of its block: the heap and all other blocks stay as they are. */
    method Store(p: Ptr, k: nat, b: Byte)
      requires Valid() && p in Held() && p in view.live && k < view.live[p]
      modifies this
      ensures Valid() && view == old(view) && state == old(state).(mem := state.mem)
      ensures ByteAt(state.mem, p, k) == b && OnlyWithin(old(state.mem), state.mem, Address(p) + k, 1)
      ensures KeepsOthers(old(state), old(view), state, view, Held() - {p})
    {
      hide Heap.Valid, IsNode, Sum, Address;
      ghost var h := state;
      var at := Address(p) + k;
      var mem := state.mem;
      state := state.(mem := (a: nat) => if a == at then b else mem(a));
      StoreValid(h, view, p, k, state);
      UsersLive(state, view);
      forall q | q in Held() - {p} ensures q in view.live && BlockKept(h.mem, state.mem, q, view.live[q]) {
        assert q in view.live - {p};
      }
    }

    /** Release of a block; NULL is ignored. */
    method Free(p: MaybePtr)
      requires Valid() && (p.At? ==> p.ptr in Held())
      modifies this
      ensures Valid() && state.peak == old(state.peak) && Drift(state, view) == old(Drift(state, view))
              && KeepsLimit(old(state), state) && SamePeaks(old(state), state) && DeletedSince(old(state), state)
      ensures p.At? && p.ptr in old(view.live) ==> Released(old(state), p.ptr, old(view.live)[p.ptr], state)
      ensures p.Null? ==> state == old(state) && view == old(view)
      ensures p.At? ==> Held() == old(Held()) - {p.ptr} && p.ptr !in view.live
      ensures p.At? ==> KeepsOthers(old(state), old(view), state, view, Held())
    {
      hide Heap.Valid, IsNode, Sum, BlockKept, Users, Compact, DeletedSince;
      NoneDeleted(state);
      if p.At? {
        state, view := FreeHeap(state, p.ptr, view);
      }
    }

    method Size(p: Ptr) returns (size: nat)
      requires Valid() && p in view.live
      ensures size == view.live[p]
    {
      size := SizeOf(state, p, view);
    }

    /**
     Reallocation of a block, or allocation for NULL.  A huge block whose new size
     wraps around, and a copy beyond the new block, are the two ways it goes wrong.
     */
    method Realloc(p: MaybePtr, size: nat, useCopySize: bool, copySize: nat)
      returns (r: Outcome, overrun: bool, ghost move: Moving)
      requires Valid() && size < SIZE_T && (!useCopySize ==> copySize == size)
      requires p.At? ==> p.ptr in Held() && p.ptr in view.live
      modifies this
      ensures p.Null? && r.Ok? ==> Valid() && NewBlock(old(state), old(view), state, view, r.ptr, BlockSize(size))
      ensures p.Null? && r.Ok? ==> size <= BlockSize(size) && LimitKept(old(state), size, state)
      ensures p.Null? && r.Ok? && MAX_LARGE_SIZE < size && Limited(old(state)) && !old(state.overflow) ==>
                LimitExact(old(state), AlignHuge(size), move.mid, move.refused, state)
      ensures p.At? && r.Ok? && !overrun && r.ptr != p.ptr ==>
                MoveLimit(old(state), p.ptr, old(view.live)[p.ptr], size, move, state)
      ensures p.At? && r.Ok? ==> (overrun <==> Overruns(p.ptr, old(view.live)[p.ptr], size, copySize))
      ensures p.At? && r.Ok? && !(p.ptr.off == 0 && Wraps(size)) && !overrun ==>
                && Valid()
                && Reallocated(old(state), old(view), state, view, p.ptr, r.ptr, size,
                    Promised(old(view.live)[p.ptr], size, copySize))
      ensures p.At? && r.Ok? && !(p.ptr.off == 0 && Wraps(size)) && !overrun ==>
                PeakAfter(old(state), p.ptr, old(view.live)[p.ptr], size, r.ptr, state)
      ensures p.At? && p.ptr.off != 0 && r.Ok? ==>
                (r.ptr == p.ptr <==> Stays(old(state), p.ptr, old(view.live)[p.ptr], size))
      ensures p.At? && p.ptr.off != 0 && Stays(old(state), p.ptr, old(view.live)[p.ptr], size) ==> r.Ok?
      ensures p.At? && p.ptr.off == 0 && MAX_LARGE_SIZE < size && AlignHuge(size) <= old(view.live)[p.ptr] ==>
                r == Ok(p.ptr)
      ensures p.At? && p.ptr.off == 0 && !move.stuck && MAX_LARGE_SIZE < size ==>
                AlignHuge(size) - old(view.live)[p.ptr] <= Headroom(old(state)) ==> r == Ok(p.ptr)
      ensures p.At? && p.ptr.off == 0 && !move.stuck && MAX_LARGE_SIZE < size && r.Ok? ==> r == Ok(p.ptr)
      ensures p.At? && p.ptr.off == 0 && !move.stuck && MAX_LARGE_SIZE < size && r.Bailout? ==>
                !state.overflow && Headroom(state) < AlignHuge(size) - old(view.live)[p.ptr]
      ensures Served(old(state), size) && !move.refused ==> r.Ok?
      ensures r.Bailout? ==> GaveUp(size, state, view) && Tidy(old(state), old(view), state, view)
      ensures r.Bailout? ==> state.peak == Max(old(state.peak), state.size)
      ensures r.Bailout? ==> Valid() && Held() == old(Held())
      ensures r.Bailout? ==> KeepsOthers(old(state), old(view), state, view, old(Held()))
      ensures p.At? && r.Ok? && overrun ==>
                Overwritten(old(state), old(view), state, view, p.ptr, r.ptr, Min(old(view.live)[p.ptr], copySize),
                    size)
      ensures r.Bailout? ==> old(Drift(state, view)) <= Drift(state, view) && KeepsLimit(old(state), state)
      ensures r.MainLost? ==> old(state.ring) != [] && Loose(old(view.live), old(state.ring[0]))
      ensures p.At? && p.ptr.off == 0 && Wraps(size) ==> r == Ok(p.ptr) && view.live == old(view.live)[p.ptr := 0]
    {
      hide Heap.Valid, Users, Drift, BlockSize, KeepsOthers, LostCount, NewBlock, NoBlock, Loose, LimitKept,
           KeepsLimit, Reallocated, Overwritten, Overruns, Promised, Wraps, MoveLimit, LimitExact, AlignHuge, Served,
           Stays, PeakAfter, Settled, Compact, Headroom, Tidy;
      ghost var h, v := state, view;
      ghost var mid, refused;
      overrun := false;
      match p {
        case Null =>
          r, state, view, mid, refused := AllocHeap(state, size, view);
          move := Moving(mid, state, refused, false);
          if r.Bailout? {
            NothingChanged(h, v, state, view, LostCount(size, |view.pending| - |v.pending|));
            LossGrows(size, |view.pending| - |v.pending|);
          } else if r.Ok? {
            BlockMade(h, v, state, view, r.ptr, BlockSize(size));
          }
        case At(q) =>
          r, overrun, state, view, move := ReallocBlock(state, q, size, useCopySize, copySize, view);
          if r.Bailout? {
            NothingChanged(h, v, state, view, Drift(state, view) - Drift(h, v));
          } else if r.Ok? && !(q.off == 0 && Wraps(size)) && !overrun {
            BlockMoved(h, v, state, view, q, r.ptr, size, Promised(v.live[q], size, copySize));
          }
      }
    }

    /** The number of bytes of the runs collected; the main chunk is lost exactly when nothing pins it. */
    method Collect() returns (lost: bool, collected: nat)
      requires Valid()
      modifies this
      ensures old(state.ring) != [] && LayoutOk(old(LayoutIn(state, view)))
      ensures lost <==> Unpinned(old(LayoutIn(state, view)), old(view.live), old(state.ring[0]))
      ensures !lost ==> Valid() && Held() == old(Held()) && KeepsOthers(old(state), old(view), state, view, old(Held()))
      ensures !lost ==> Drift(state, view) == old(Drift(state, view)) && state.peak == old(state.peak)
      ensures !lost ==> KeepsLimit(old(state), state) && Settled(state, view) && SamePeaks(old(state), state)
      ensures !lost ==> DeletedSince(old(state), state) && (collected == 0 <==> old(Settled(state, view)))
      ensures !lost ==> forall s :: s in state.ring <==>
                s in old(state.ring) && s in old(LayoutIn(state, view))
                && (s == old(state.ring[0]) || !Unpinned(old(LayoutIn(state, view)), old(view.live), s))
      ensures !lost ==> forall b :: 0 <= b < BINS && b < |state.freeSlot| && b < |old(state.freeSlot)| ==>
                state.freeSlot[b]
                == Survivors(old(LayoutIn(state, view)), old(state.freeSlot)[b], old(state.freeSlot)[b], b)
      ensures !lost ==>
                collected == PAGE_SIZE * (old(BusyPages(state.chunks, state.ring)) - BusyPages(state.chunks,
                    state.ring))
    {
      hide LinksOk, HugeLinked, InRange, SpaceOk, LayoutOf, Balanced, RealTotal, Survivors, Idle, Small, RunsOk,
           Collectable, Unpinned, IsNode, Sum, BlockKept, Compact, Settled;
      LayoutFacts(state, view);
      ghost var h, v := state, view;
      state, view, lost, collected := Gc(state, view);
      KeptRefl(h.mem, v.live);
    }

    method SetLimit(limit: nat) returns (ok: bool)
      requires Valid()
      modifies this
      ensures Valid() && view == old(view) && Held() == old(Held()) && state.mem == old(state.mem)
      ensures ok <==> RealTotal(|old(state.ring)|, old(state.hugeList)) <= limit
      ensures ok ==> state.realSize <= limit && (old(state.realSize) <= limit || limit < state.realSize + CHUNK_SIZE)
      ensures state.limit == if old(state.realSize) <= limit then limit else old(state.limit)
      ensures limit < SIZE_T ==> KeepsLimit(old(state), state)
    {
      hide Heap.Valid, RealTotal;
      ghost var h := state;
      ok, state := SetMemoryLimit(state, limit, view);
    }

    /** The end of a request. */
    method Finish()
      requires Valid()
      modifies this
      ensures Valid() && Held() == {} && state.size == 0 && state.peak == 0 && state.hugeList == []
      ensures view.live == map[] && Drift(state, view) == 0 && KeepsLimit(old(state), state)
      ensures old(state.ring) != [] && state.ring == [old(state.ring[0])] && state.freeSlot == NoSlots()
      ensures state.avgChunksCount == (old(state.avgChunksCount) + old(state.peakChunksCount) as real) / 2.0
      ensures exists left :: (forall s :: s in left <==> s in old(state.mapped) && !InHuge(old(state.hugeList), s))
                             && Trimmed(Reversed(old(state.ring)[1..]) + old(state.cached), state.cached,
                                        state.avgChunksCount, left, state.mapped)
      ensures TallyOf(state) == Tally(1, |state.cached|, (0, 0)) && state.peakChunksCount == 1
      ensures state.realPeak == state.realSize == (1 + |state.cached|) * CHUNK_SIZE
    {
      hide Heap.Valid, Trimmed, InHuge;
      state, view := Shutdown(state, view);
    }
  }

  // ------------------------------------------------------------- a copy too long

  lemma EightIsBinZero(b: nat)
    requires b < BINS && BinSize(b) == BinSize(0)
    ensures b == 0 && BinSize(0) == 8 && BinElements(0) == 512 && SizeToBin(8) == 0 && BlockSize(8) == 8
  {
  }

  /** Behind the first slot of a run of bin 0 comes another. */
  lemma SecondSlot(r: RunMap, off: nat)
    requires RunsOk(r) && SmallAt(r, off, 0) && off % PAGE_SIZE == 0
    ensures SmallAt(r, off + 8, 0)
  {
    EightIsBinZero(0);
    var g := HeadOf(r, off);
    var j :| IsSlot(g, 0, j, off);
    assert off == g * PAGE_SIZE;
    assert IsSlot(g, 0, 1, off + 8);
  }

  lemma SlotAligned(r: RunMap, off: nat)
    requires RunsOk(r) && SmallAt(r, off, 0)
    ensures off % 8 == 0
  {
    EightIsBinZero(0);
    var j :| IsSlot(HeadOf(r, off), 0, j, off);
  }

  /** A block of eight bytes in a chunk is a slot of bin 0. */
  lemma EightBytes(L: Layout, huge: seq<Huge>, q: Ptr)
    requires LayoutOk(L) && LiveOk(L, huge, q, 8) && q.off != 0
    ensures Small(L, q, 0)
  {
    hide SmallAt, LargeAt, RunsOk, Doomed;
    EightIsBinZero(0);
    var b: nat :| Small(L, q, b) && !Doomed(L, q, b) && BinSize(b) == 8;
    EightIsBinZero(b);
  }

  /** The link in a free slot of bin 0 begins with a multiple of eight. */
  lemma LinkByte(h: State, v: View, q: Ptr, mem: Bytes)
    requires Heap.Valid(h, v) && |h.freeSlot| == BINS && q in h.freeSlot[0] && LinksOk(mem, h.freeSlot)
    ensures ByteAt(mem, q, 0) % 8 == 0
  {
    hide Heap.Valid, LayoutIn, SmallAt, RunsOk, ByteAt, Address, Link, ByteOf;
    FreeListsExact(h, v, 0);
    var list, L := h.freeSlot[0], LayoutIn(h, v);
    var i :| 0 <= i < |list| && list[i] == q;
    assert ListLinked(mem, list);
    assert Link(mem, list[i], NextOf(list, i));
    if i + 1 < |list| {
      assert list[i + 1] in list && Small(L, list[i + 1], 0);
      SlotAligned(L[list[i + 1].seg], list[i + 1].off);
      AddressAligned(list[i + 1]);
    }
    LowByte(mem, q, NextOf(list, i));
  }

  lemma AddressAligned(p: Ptr)
    requires p.off % 8 == 0
    ensures Address(p) % 8 == 0
  {
  }

  lemma LowByte(mem: Bytes, q: Ptr, next: nat)
    requires Link(mem, q, next) && next % 8 == 0
    ensures ByteAt(mem, q, 0) % 8 == 0
  {
    hide ByteAt;
    assert ByteAt(mem, q, 0) == ByteOf(next, 0);
  }

  /** The slot behind a new slot of bin 0 is free when no block of eight bytes was there before. */
  lemma NextIsFree(h: State, v: View, q: Ptr)
    requires Heap.Valid(h, v) && q in v.live && v.live[q] == 8 && 0 < q.off && q.off % PAGE_SIZE == 0
    requires forall x :: x in Users(h, v) && x in v.live && x != q ==> v.live[x] != 8
    ensures |h.freeSlot| == BINS && Ptr(q.seg, q.off + 8) in h.freeSlot[0]
  {
    hide LinksOk, HugeLinked, InRange, SpaceOk, LayoutOf, RealTotal, Idle, SmallAt, FreeOk, Complete, HugeOk, RunsOk,
         Doomed;
    var L, x := LayoutIn(h, v), Ptr(q.seg, q.off + 8);
    FreeListsExact(h, v, 0);
    assert LiveOk(L, h.hugeList, q, v.live[q]);
    EightBytes(L, h.hugeList, q);
    SecondSlot(L[q.seg], q.off);
    assert Small(L, x, 0);
    EightIsBinZero(0);
    if x in v.live {
      LiveSize(L, h.freeSlot, h.hugeList, v.live, x, 0);
      NotNode(L, h.freeSlot, h.hugeList, v.live, x);
    }
  }

  /** A copy of the two pages of `p` over a new run of bin 0 destroys the link of its second slot. */
  lemma LinkDestroyed(h: State, v: View, h': State, v': View, p: Ptr, q: Ptr, n: nat)
    requires Overwritten(h, v, h', v', p, q, n, 8) && |h.freeSlot| == BINS && h.freeSlot[0] == [] && 16 <= n
    requires Users(h, v) == {p} && p in v.live && v.live[p] != 8 && ByteAt(h.mem, p, 8) % 8 != 0
    ensures forall w :: !Heap.Valid(h', w)
  {
    hide Heap.Valid, KeepsOthers, Copy, BlockSize, Drift, Address, Users, ByteAt;
    EightIsBinZero(0);
    var mem: Bytes :| CopiedOver(h, v, mem, h', v', p, q, n, BlockSize(8));
    var h1 := h'.(mem := mem);
    OthersSize(h, v, h1, v', p);
    NextIsFree(h1, v', q);
    var x := Ptr(q.seg, q.off + 8);
    assert ByteAt(h'.mem, x, 0) == ByteAt(h'.mem, q, 8) by { NextByte(h'.mem, q); }
    forall w ensures !Heap.Valid(h', w) {
      if Heap.Valid(h', w) {
        LinksOf(h', w);
        LinkByte(h1, v', x, h'.mem);
      }
    }
  }

  lemma OthersSize(h: State, v: View, h': State, v': View, p: Ptr)
    requires KeepsOthers(h, v, h', v', v.live.Keys) && p in v.live
    ensures p in v'.live && v'.live[p] == v.live[p]
  {
    hide BlockKept;
  }

  lemma NextByte(mem: Bytes, q: Ptr)
    ensures ByteAt(mem, Ptr(q.seg, q.off + 8), 0) == ByteAt(mem, q, 8)
  {
  }

  lemma LinksOf(h: State, v: View)
    requires Heap.Valid(h, v)
    ensures LinksOk(h.mem, h.freeSlot)
  {
    hide HugeLinked, InRange, SpaceOk, LayoutOf, Balanced, Idle, RealTotal, LinksOk;
  }

  /**
   A run in which a copy is too long: a block of two pages is made into one of eight bytes,
   with both pages to be copied.  What is left is no heap, whatever blocks one takes it to have.
   */
  method OverrunRun(mapped: set<nat>) returns (heap: MMHeap?, r: Outcome, overrun: bool)
    requires InRange(mapped)
    ensures heap != null && r.Ok? ==> overrun && forall v :: !Heap.Valid(heap.state, v)
  {
    hide Heap.Valid, Users, KeepsOthers, Drift, BlockSize, SameBytes, Overwritten, LimitKept, LimitExact, MoveLimit;
    r, overrun := Bailout, false;
    heap := MMHeap.Start(mapped);
    if heap == null {
      return;
    }
    ghost var mid, refused, move;
    r, mid, refused := heap.Alloc(2 * PAGE_SIZE);
    if !r.Ok? {
      return;
    }
    var p := r.ptr;
    TwoPages();
    ghost var h0 := heap.state;
    heap.Store(p, 8, 1);
    ghost var h, v := heap.state, heap.view;
    SameView(h0, h, v);
    r, overrun, move := heap.Realloc(At(p), 8, true, 2 * PAGE_SIZE);
    if r.Ok? {
      LinkDestroyed(h, v, heap.state, heap.view, p, r.ptr, 2 * PAGE_SIZE);
    }
  }

  lemma TwoPages()
    ensures BlockSize(2 * PAGE_SIZE) == 2 * PAGE_SIZE && BlockSize(8) == 8
            && Min(2 * PAGE_SIZE, 2 * PAGE_SIZE) == 2 * PAGE_SIZE
  {
    EightIsBinZero(0);
  }
}

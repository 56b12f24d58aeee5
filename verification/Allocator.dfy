/**
 Small, large and huge blocks: allocation, release and size, and what `size`
 and `peak` count.
 */
module Allocator {
  import opened Basics
  import opened Bitset
  import opened Bins
  import opened PageInfo
  import opened Chunks
  import opened Blocks
  import opened Ledger
  import opened Memory
  import opened Collector
  import opened Space
  import opened Heap

  // -------------------------------------------------------------- small blocks

  /** What every allocation from the chunks leaves as it was. */
  ghost predicate SameRest(h: State, h': State) {
    && h'.hugeList == h.hugeList && h'.limit == h.limit && h'.overflow == h.overflow && KeepsLimit(h, h')
    && h.ring != [] && h'.ring != [] && h'.ring[0] == h.ring[0]
  }

  /** A block of `size` bytes has been handed out at `p` and accounted for. */
  ghost predicate Allocated(h: State, v: View, h': State, v': View, p: Ptr, size: nat) {
    && Valid(h', v') && SameRest(h, h')
    && p !in v.live && v'.live == v.live[p := size] && v'.pending == v.pending
    && h'.size == h.size + size && h'.peak == Max(h.peak, h'.size)
    && BytesKept(h.mem, h'.mem, v.live) && KeepsCompact(h, v, h', v') && PeaksSeen(h, h')
  }

  /** What the `k`-th slot on the list of a new run links to: the slot after it, or NULL. */
  ghost function SlotNext(p: Ptr, b: nat, k: nat): nat
    requires b < BINS
  {
    if k + 2 < BinElements(b) then Address(p) + (k + 2) * BinSize(b) else 0
  }

  /** The free list of a new run and its links in memory. */
  method ThreadSlots(p: Ptr, b: nat, mem: Bytes) returns (list: seq<Ptr>, mem': Bytes)
    requires b < BINS && p.off % PAGE_SIZE == 0
    ensures SlotList(list, p.seg, p.off / PAGE_SIZE, b) && ListLinked(mem', list)
    ensures OnlyWithin(mem, mem', Address(p), BinPages(b) * PAGE_SIZE)
  {
    hide BinSize, BinElements, BinPages, ByteOf, Link, WriteLink, SlotNext;
    BinFacts(b);
    list, mem' := [], mem;
    var j := 1;
    while j < BinElements(b)
      invariant 1 <= j <= BinElements(b) && |list| == j - 1
      invariant forall k :: 0 <= k < |list| ==> list[k].seg == p.seg && IsSlot(p.off / PAGE_SIZE, b, k + 1, list[k].off)
      invariant forall k :: 0 <= k < |list| ==> Link(mem', list[k], SlotNext(p, b, k))
      invariant OnlyWithin(mem, mem', Address(p), BinPages(b) * PAGE_SIZE)
    {
      var q := Ptr(p.seg, p.off + j * BinSize(b));
      var next := if j + 1 < BinElements(b) then Address(q) + BinSize(b) else 0;
      assert next == SlotNext(p, b, j - 1) by { SlotNextIs(p, b, j, q); }
      assert IsSlot(p.off / PAGE_SIZE, b, j, q.off);
      SlotInRun(p.off / PAGE_SIZE, b, j, q.off);
      WriteLinkAt(mem', q, next);
      ghost var before := mem';
      mem' := WriteLink(mem', q, next);
      forall k | 0 <= k < |list| ensures Link(mem', list[k], SlotNext(p, b, k)) {
        SlotsApart(p.off / PAGE_SIZE, b, k + 1, j, list[k].off, q.off);
        WordKept(before, mem', list[k], Address(q), WORD);
        LinkKept(before, mem', list[k], SlotNext(p, b, k));
      }
      list := list + [q];
      j := j + 1;
    }
    forall k | 0 <= k < |list| ensures Link(mem', list[k], NextOf(list, k)) {
      assert k + 1 < |list| ==> IsSlot(p.off / PAGE_SIZE, b, k + 2, list[k + 1].off);
      NextIs(p, b, list, k);
    }
  }

  lemma SlotNextIs(p: Ptr, b: nat, j: nat, q: Ptr)
    requires b < BINS && 1 <= j && q == Ptr(p.seg, p.off + j * BinSize(b))
    ensures SlotNext(p, b, j - 1) == if j + 1 < BinElements(b) then Address(q) + BinSize(b) else 0
  {
    hide BinSize, BinElements;
    assert (j + 1) * BinSize(b) == j * BinSize(b) + BinSize(b);
  }

  lemma NextIs(p: Ptr, b: nat, list: seq<Ptr>, k: nat)
    requires b < BINS && p.off % PAGE_SIZE == 0 && |list| == BinElements(b) - 1 && k < |list|
    requires k + 1 < |list| ==> list[k + 1].seg == p.seg && IsSlot(p.off / PAGE_SIZE, b, k + 2, list[k + 1].off)
    ensures NextOf(list, k) == SlotNext(p, b, k)
  {
    hide BinSize, BinElements;
  }

  lemma SplitIdle(L: Layout, s: nat, page: nat, b: nat, r: RunMap)
    requires LayoutOk(L) && Idle(L) && s in L && RunsOk(r) && page < PAGES && b < BINS && r.owner == L[s].owner
    requires SplitMap(L[s].map_, r.map_, page, b)
    ensures LayoutOk(L[s := r]) && Idle(L[s := r])
  {
    hide BinPages;
    forall h, c: nat | SmallHead(r, h, c) ensures r.map_[h].counter == 0 {
      assert h != page ==> SmallHead(L[s], h, c);
    }
  }

  /** A large run is turned into slots: the page map and the free list of zend_mm_alloc_small_slow. */
  method SplitBlock(h: State, p: Ptr, b: nat, ghost v: View) returns (h': State)
    requires Valid(h, v) && LayoutOk(LayoutIn(h, v)) && b < BINS && |h.freeSlot| == BINS && h.freeSlot[b] == []
    requires Large(LayoutIn(h, v), p, BinPages(b)) && p in v.live && v.live[p] == BinPages(b) * PAGE_SIZE
    ensures Valid(h', v.(live := v.live[p := BinSize(b)]))
    ensures h' == h.(chunks := h'.chunks, freeSlot := h'.freeSlot, mem := h'.mem)
    ensures BytesKept(h.mem, h'.mem, v.live - {p})
    ensures LayoutOk(LayoutIn(h', v)) && Small(LayoutIn(h', v), p, b)
  {
    hide LinksOk, HugeLinked, InRange, SpaceOk, LayoutOf, Balanced, Idle, RealTotal, Small, Large, BinPages, BinSize,
         SlotList, Runs, Address, BytesKept, SplitMap, Pages;
    ghost var L := LayoutIn(h, v);
    LargeFacts(L, p, BinPages(b));
    LargeInRing(h, v, p, BinPages(b));
    LayoutEntry(h, v, p.seg);
    var page := p.off / PAGE_SIZE;
    var c := SplitPages(h.chunks[p.seg], page, b, v.owners[p.seg]);
    var list, mem := ThreadSlots(p, b, h.mem);
    h' := h.(chunks := h.chunks[p.seg := c], freeSlot := h.freeSlot[b := list], mem := mem);
    assert v.owners[p.seg := v.owners[p.seg]] == v.owners;
    StoreChunk(h, v, p.seg, c, v.owners[p.seg], h.(chunks := h'.chunks), v);
    RunsRunMap(c, v.owners[p.seg]);
    SplitLedger(L, h.freeSlot, h.hugeList, v.live, p, b, RunMap(c.map_, v.owners[p.seg]), list);
    SplitIdle(L, p.seg, page, b, RunMap(c.map_, v.owners[p.seg]));
    SpaceApart(h, v);
    SplitLinks(L, h.freeSlot, h.hugeList, v.live, p, BinPages(b) * PAGE_SIZE, b, list, h.mem, mem);
    NotNode(L, h.freeSlot, h.hugeList, v.live, p);
    HugeKeptBut(L, h.freeSlot, h.hugeList, v.live, h.mem, mem, p);
  }

  /** zend_mm_alloc_small_slow. */
  method AllocSmallSlow(h: State, b: nat, ghost v: View)
    returns (r: Outcome, h': State, ghost v': View, ghost refused: bool)
    requires Valid(h, v) && b < BINS && |h.freeSlot| == BINS && h.freeSlot[b] == []
    ensures r.Ok? ==> Valid(h', v') && SameRest(h, h') && h'.size == h.size && h'.peak == h.peak
                      && r.ptr !in v.live && v'.live == v.live[r.ptr := BinSize(b)] && v'.pending == v.pending
                      && BytesKept(h.mem, h'.mem, v.live) && Small(LayoutIn(h', v'), r.ptr, b)
                      && 0 < r.ptr.off && r.ptr.off % PAGE_SIZE == 0
                      && KeepsCompact(h, v, h', v') && PeaksSeen(h, h')
    ensures CanServe(h, BinPages(b)) && !refused ==> r.Ok?
    ensures r.Ok? ==> h'.realSize <= h.realSize + CHUNK_SIZE && (refused ==> 0 < TotalFree(h.freeSlot))
    ensures r.Ok? && !NeedsChunk(h, BinPages(b)) ==> h'.realSize == h.realSize
    ensures r.Ok? && NeedsChunk(h, BinPages(b)) && CHUNK_SIZE <= Headroom(h) && !refused ==>
              h'.realSize == h.realSize + CHUNK_SIZE
    ensures r.Bailout? ==> Valid(h', v') && SameBlocks(h, v, h', v') && PeaksSeen(h, h') && Settled(h', v')
    ensures r.Bailout? && !refused && Compact(h, v) ==> !h'.overflow && Headroom(h') < CHUNK_SIZE
    ensures r.MainLost? ==> h.ring != [] && Loose(v.live, h.ring[0])
  {
    hide LinksOk, HugeLinked, InRange, SpaceOk, LayoutOf, Balanced, Idle, RealTotal, Small, Large, BinPages, BinSize,
         BytesKept, FirstRoom, BestPlace, NeedsChunk, Headroom, TotalFree, Compact, Settled;
    BinFacts(b);
    var h1;
    ghost var v1;
    r, h1, v1, refused := AllocPages(h, BinPages(b), v);
    if !r.Ok? {
      return r, h1, v1, refused;
    }
    LayoutFacts(h1, v1);
    LargeFacts(LayoutIn(h1, v1), r.ptr, BinPages(b));
    h' := SplitBlock(h1, r.ptr, b, v1);
    v' := v1.(live := v1.live[r.ptr := BinSize(b)]);
    assert v1.live - {r.ptr} == v.live;
    assert v'.live == v.live[r.ptr := BinSize(b)];
    SameRing(h1, v1, h', v');
    SameRing(h1, v1, h1, v1.(live := v.live));
    KeptTrans(h.mem, h1.mem, h'.mem, v.live);
  }

  lemma SameRing(h: State, v: View, h': State, v': View)
    requires h'.ring == h.ring && v'.owners == v.owners
    ensures Compact(h', v') == Compact(h, v)
  {
  }

  lemma LargeInRing(h: State, v: View, p: Ptr, n: nat)
    requires Placed(h, v) && LayoutOk(LayoutIn(h, v)) && Large(LayoutIn(h, v), p, n)
    ensures p.seg in h.ring
  {
    hide LinksOk, HugeLinked, InRange, Runs, CacheOk, SegmentsOk, LayoutOf, LargeAt;
    LayoutKeys(h.chunks, v.owners, h.ring);
    assert p.seg in Members(h.ring);
  }

  lemma SlotAddress(h: State, v: View, p: Ptr, b: nat)
    requires Valid(h, v) && LayoutOk(LayoutIn(h, v)) && Small(LayoutIn(h, v), p, b)
    ensures 0 < Address(p) < SIZE_T
  {
    hide LayoutOf, Balanced, Idle, RealTotal, LinksOk, HugeLinked, SmallAt, Runs, CacheOk, Apart, Segments, RunsOk,
         BinSize;
    LayoutKeys(h.chunks, v.owners, h.ring);
    assert p.seg in Members(h.ring);
    assert p.seg < SEGMENTS;
    OneBin(LayoutIn(h, v), p, b, b);
    BinFacts(b);
    SmallBlock(LayoutIn(h, v)[p.seg], p.off, b);
    SmallInside(LayoutIn(h, v)[p.seg], p.off, BinSize(b));
  }

  /** The head of a free list reads in memory as the address of the element behind it. */
  lemma HeadReads(h: State, v: View, b: nat)
    requires Valid(h, v) && b < BINS && |h.freeSlot| == BINS && h.freeSlot[b] != []
    ensures AddressAt(h.freeSlot[b][1..], 0) == ReadLink(h.mem, Address(h.freeSlot[b][0]))
  {
    hide SpaceOk, LayoutOf, Idle, RealTotal, Address, Small, ReadLink, Link, LiveOk, Complete, HugeOk, Doomed;
    LayoutFacts(h, v);
    var list := h.freeSlot[b];
    assert FreeListOk(LayoutIn(h, v), list, b, v.live);
    if |list| > 1 {
      assert Small(LayoutIn(h, v), list[1], b);
      SlotAddress(h, v, list[1], b);
    }
    PopLinks(h.mem, h.freeSlot, b);
    LinkReads(h.mem, list[0], AddressAt(list[1..], 0));
  }

  /** A slot of bin `b` takes a new run, and the run a new chunk. */
  ghost predicate SlotNeedsChunk(h: State, b: nat)
    requires b < BINS
  {
    |h.freeSlot| == BINS && h.freeSlot[b] == [] && NeedsChunk(h, BinPages(b))
  }

  /** A slot of bin `b` can be had. */
  ghost predicate SlotServed(h: State, b: nat)
    requires b < BINS
  {
    !SlotNeedsChunk(h, b) || CHUNK_SIZE <= Headroom(h)
  }

  lemma SameRoom(h: State, h': State, n: nat)
    requires h'.ring == h.ring && h'.cached == h.cached && h'.chunks == h.chunks
    ensures NeedsChunk(h', n) == NeedsChunk(h, n)
    ensures h'.limit == h.limit && h'.realSize == h.realSize ==> CanServe(h', n) == CanServe(h, n)
  {
    hide Used;
    forall k: nat ensures FirstRoom(h', n, k) == FirstRoom(h, n, k) {}
  }

  /** zend_mm_alloc_small.  The size is accounted for before the run is there, so a failure leaves it counted. */
  method AllocSmall(h: State, b: nat, ghost v: View)
    returns (r: Outcome, h': State, ghost v': View, ghost refused: bool)
    requires Valid(h, v) && b < BINS
    ensures r.Ok? ==> Allocated(h, v, h', v', r.ptr, BinSize(b)) && Small(LayoutIn(h', v'), r.ptr, b)
    ensures SlotServed(h, b) && !refused ==> r.Ok?
    ensures r.Ok? ==> h'.realSize <= h.realSize + CHUNK_SIZE && (refused ==> 0 < TotalFree(h.freeSlot))
    ensures r.Ok? && !SlotNeedsChunk(h, b) ==> h'.realSize == h.realSize
    ensures r.Ok? && SlotNeedsChunk(h, b) && CHUNK_SIZE <= Headroom(h) && !refused ==>
              h'.realSize == h.realSize + CHUNK_SIZE
    ensures r.Ok? && |h.freeSlot| == BINS && h.freeSlot[b] == [] ==> 0 < r.ptr.off && r.ptr.off % PAGE_SIZE == 0
    ensures |h.freeSlot| == BINS && h.freeSlot[b] != [] ==>
      && r == Ok(h.freeSlot[b][0]) && h'.freeSlot == h.freeSlot[b := h.freeSlot[b][1..]]
      && AddressAt(h'.freeSlot[b], 0) == ReadLink(h.mem, Address(r.ptr))
    ensures r.Bailout? ==> Valid(h', v') && SameRest(h, h') && v' == v.(owners := v'.owners)
                           && BytesKept(h.mem, h'.mem, v.live)
                           && h'.size == h.size + BinSize(b) && h'.peak == Max(h.peak, h'.size)
                           && KeepsCompact(h, v, h', v') && PeaksSeen(h, h') && Settled(h', v')
    ensures r.Bailout? && !refused && Compact(h, v) ==> !h'.overflow && Headroom(h') < CHUNK_SIZE
    ensures r.MainLost? ==> h.ring != [] && Loose(v.live, h.ring[0])
  {
    hide ReadLink, AddressAt, LinksOk, HugeLinked, InRange, SpaceOk, LayoutOf, Balanced, Idle, RealTotal, Small,
         BinSize, BinPages, NeedsChunk, TotalFree, Compact, Settled;
    FreeLists(h, v);
    LastChunk(h, v);
    LayoutFacts(h, v);
    var size := h.size + BinSize(b);
    var h1 := h.(size := size, peak := Max(h.peak, size));
    if h.freeSlot[b] != [] {
      var p := h.freeSlot[b][0];
      PopSlot(LayoutIn(h, v), h.freeSlot, h.hugeList, v.live, b);
      PopLinks(h.mem, h.freeSlot, b);
      HeadReads(h, v, b);
      KeptRefl(h.mem, v.live);
      h' := h1.(freeSlot := h.freeSlot[b := h.freeSlot[b][1..]]);
      v' := v.(live := v.live[p := BinSize(b)]);
      r, refused := Ok(p), false;
      SameRing(h, v, h', v');
    } else {
      SameRoom(h, h1, BinPages(b));
      SameRing(h, v, h1, v);
      r, h', v', refused := AllocSmallSlow(h1, b, v);
    }
  }

  /** zend_mm_free_small. */
  method FreeSmall(h: State, p: Ptr, b: nat, ghost v: View) returns (h': State, ghost v': View)
    requires Linked(h, v) && b < BINS && p in v.live && Small(LayoutIn(h, v), p, b) && !IsNode(h.hugeList, p)
    ensures Linked(h', v') && SameRest(h, h') && v' == v.(live := v.live - {p})
    ensures h' == h.(size := h.size - BinSize(b), freeSlot := h'.freeSlot, mem := h'.mem)
            && LayoutIn(h', v') == LayoutIn(h, v)
    ensures BytesKept(h.mem, h'.mem, v'.live)
  {
    hide LinksOk, HugeLinked, InRange, SpaceOk, LayoutOf, Balanced, Idle, RealTotal, Small, BinSize, Address, ByteOf;
    FreeLists(h, v);
    LastChunk(h, v);
    PushSlot(LayoutIn(h, v), h.freeSlot, h.hugeList, v.live, b, p);
    var next := AddressAt(h.freeSlot[b], 0);
    h' := h.(size := h.size - BinSize(b), freeSlot := h.freeSlot[b := [p] + h.freeSlot[b]],
        mem := WriteLink(h.mem, p, next));
    v' := v.(live := v.live - {p});
    SpaceApart(h, v);
    LiveSize(LayoutIn(h, v), h.freeSlot, h.hugeList, v.live, p, b);
    PushLinks(LayoutIn(h, v), h.freeSlot, h.hugeList, v.live, b, p, h.mem, h'.mem);
    HugeKeptBut(LayoutIn(h, v), h.freeSlot, h.hugeList, v.live, h.mem, h'.mem, p);
  }

  lemma LiveSize(L: Layout, free: seq<seq<Ptr>>, huge: seq<Huge>, live: map<Ptr, nat>, p: Ptr, b: nat)
    requires Balanced(L, free, huge, live) && p in live && Small(L, p, b)
    ensures live[p] == BinSize(b) && 8 <= live[p]
  {
    hide SmallAt, BinSize, FreeOk, Complete, HugeOk;
    assert LiveOk(L, huge, p, live[p]);
    NotDoomed(L, huge, p, live[p], b);
    BinFacts(b);
  }

  // -------------------------------------------------------------- large blocks

  /** ZEND_MM_SIZE_TO_NUM for pages. */
  function PagesFor(size: nat): nat {
    (size + PAGE_SIZE - 1) / PAGE_SIZE
  }

  /** No free list has grown. */
  ghost predicate NoMoreSlots(h: State, h': State) {
    && |h'.freeSlot| == |h.freeSlot| == BINS
    && forall b :: 0 <= b < BINS ==> |h'.freeSlot[b]| <= |h.freeSlot[b]|
  }

  /** zend_mm_alloc_large. */
  method AllocLarge(h: State, size: nat, ghost v: View)
    returns (r: Outcome, h': State, ghost v': View, ghost refused: bool)
    requires Valid(h, v) && MAX_SMALL_SIZE < size <= MAX_LARGE_SIZE
    ensures r.Ok? ==> Allocated(h, v, h', v', r.ptr, PagesFor(size) * PAGE_SIZE)
                      && Large(LayoutIn(h', v'), r.ptr, PagesFor(size)) && size <= PagesFor(size) * PAGE_SIZE
    ensures r.Ok? ==> NoMoreSlots(h, h')
    ensures (exists k: nat :: FirstRoom(h, PagesFor(size), k)) ==>
              r.Ok? && BestPlace(h, PagesFor(size), r.ptr, h'.ring) && h'.mapped == h.mapped
    ensures CanServe(h, PagesFor(size)) && !refused ==> r.Ok?
    ensures r.Bailout? ==> Valid(h', v') && SameBlocks(h, v, h', v') && PeaksSeen(h, h') && Settled(h', v')
    ensures r.Bailout? && !refused && Compact(h, v) ==> !h'.overflow && Headroom(h') < CHUNK_SIZE
    ensures r.MainLost? ==> h.ring != [] && Loose(v.live, h.ring[0])
  {
    hide LinksOk, HugeLinked, InRange, SpaceOk, LayoutOf, Balanced, Idle, RealTotal, Large, FirstRoom, BestPlace,
         NeedsChunk, Headroom, Compact, Settled, TotalFree;
    var n := PagesFor(size);
    r, h', v', refused := AllocPages(h, n, v);
    if r.Ok? {
      SameRing(h', v', h', v'.(live := v.live));
      LayoutFacts(h', v');
      var total := h'.size + n * PAGE_SIZE;
      ghost var h1 := h';
      h' := h'.(size := total, peak := Max(h'.peak, total));
      SameRing(h1, v', h', v');
    }
  }

  lemma DropIdle(L: Layout, s: nat, page: nat, n: nat, r: RunMap)
    requires LayoutOk(L) && Idle(L) && s in L && RunsOk(r) && page < PAGES && page + n <= PAGES
    requires r == RunMap(L[s].map_[page := Frun], Filled(L[s].owner, page, n, -1))
    ensures LayoutOk(L[s := r]) && Idle(L[s := r])
  {
    forall h, b: nat | SmallHead(r, h, b) ensures r.map_[h].counter == 0 {
      assert SmallHead(L[s], h, b);
    }
  }

  /** The ledger after the pages of a large block have gone back. */
  lemma DroppedValid(h: State, v: View, p: Ptr, n: nat, c: Chunk, owner: seq<int>, h': State, v': View)
    requires Valid(h, v) && p in v.live && LayoutOk(LayoutIn(h, v)) && Large(LayoutIn(h, v), p, n)
    requires p.seg in h.ring && p.seg in h.chunks && p.seg in v.owners && |v.owners[p.seg]| == PAGES
             && |h.chunks[p.seg].map_| == PAGES
    requires p.off / PAGE_SIZE + n <= PAGES && p.off / PAGE_SIZE < PAGES && Runs(c, owner)
    requires c.map_ == h.chunks[p.seg].map_[p.off / PAGE_SIZE := Frun]
             && owner == Filled(v.owners[p.seg], p.off / PAGE_SIZE, n, -1)
    requires h' == h.(size := h'.size, chunks := h.chunks[p.seg := c])
    requires v' == v.(owners := v.owners[p.seg := owner], live := v.live - {p})
    ensures Valid(h', v')
  {
    hide LinksOk, HugeLinked, InRange, SpaceOk, LayoutOf, Balanced, Idle, RealTotal, Large, Runs, Filled;
    var L := LayoutIn(h, v);
    LayoutEntry(h, v, p.seg);
    StoreChunk(h, v, p.seg, c, owner, h.(chunks := h'.chunks), v.(owners := v'.owners));
    DropRun(L, h.freeSlot, h.hugeList, v.live, p, n, RunMap(c.map_, owner));
    RunsRunMap(c, owner);
    DropIdle(L, p.seg, p.off / PAGE_SIZE, n, RunMap(c.map_, owner));
  }

  lemma DeletedValid(h: State, v: View, s: nat, h': State, v': View)
    requires Valid(h, v) && Inv(h', v') && LayoutIn(h', v') == LayoutIn(h, v) - {s}
    ensures Valid(h', v')
  {
    hide LinksOk, HugeLinked, InRange, SpaceOk, LayoutOf, Balanced, Idle, RealTotal;
    LayoutFacts(h, v);
    LeaveIdle(LayoutIn(h, v), s);
  }

  /** zend_mm_free_large: the pages go back, and with the last of them the chunk, unless it is the main one. */
  method FreeLarge(h: State, p: Ptr, n: nat, ghost v: View) returns (h': State, ghost v': View)
    requires Valid(h, v) && p in v.live && LayoutOk(LayoutIn(h, v)) && Large(LayoutIn(h, v), p, n)
    ensures Valid(h', v') && SameRest(h, h') && v'.live == v.live - {p} && v'.pending == v.pending
    ensures h'.size == h.size - n * PAGE_SIZE && h'.peak == h.peak && h'.mem == h.mem && h'.freeSlot == h.freeSlot
    ensures h'.realSize == h.realSize || h'.realSize == h.realSize - CHUNK_SIZE
    ensures KeepsCompact(h, v, h', v') && SamePeaks(h, h') && p.seg in v.owners && |v.owners[p.seg]| == PAGES
    ensures p.off / PAGE_SIZE + n <= PAGES
    ensures h'.ring == if p.seg != h.ring[0] && Filled(v.owners[p.seg], p.off / PAGE_SIZE, n, -1) == NoRuns()
                       then Unlink(h.ring, p.seg) else h.ring
    ensures DeletedSince(h, h')
  {
    hide DeletedSince, DelayDeletion, Deleted;
    hide Valid, LayoutIn, Large, Runs, Filled, NoRuns, Unlink, Compact, CompactBut;
    LargeChunk(h, v, p, n);
    InvOf(h, v);
    NoneDeleted(h);
    var s, page := p.seg, p.off / PAGE_SIZE;
    var c, owner := DropPages(h.chunks[s], page, n, v.owners[s]);
    h' := h.(size := h.size - n * PAGE_SIZE, chunks := h.chunks[s := c]);
    v' := v.(owners := v.owners[s := owner], live := v.live - {p});
    DroppedValid(h, v, p, n, c, owner, h', v');
    EmptyChunk(c, owner);
    CompactDropped(h, v, s, owner, h', v');
    SameDeleted(h, h, h');
    if s != h'.ring[0] && c.freePages == PAGES - FIRST_PAGE {
      ghost var h1, v1 := h', v';
      InvOf(h1, v1);
      h', v' := DeleteChunk(h', s, v');
      UnlinkHead(h1, v1, s);
      OneMoreDeleted(h, h1, h');
      DeletedValid(h1, v1, s, h', v');
    }
  }

  lemma InvOf(h: State, v: View)
    requires Valid(h, v)
    ensures Inv(h, v) && h.ring != [] && NoDup(h.ring)
  {
    hide LinksOk, HugeLinked, InRange, SpaceOk, LayoutOf, Balanced, Idle, RealTotal;
    LastChunk(h, v);
    RingNoDup(h, v);
  }

  lemma LargeChunk(h: State, v: View, p: Ptr, n: nat)
    requires Valid(h, v) && LayoutOk(LayoutIn(h, v)) && Large(LayoutIn(h, v), p, n)
    ensures p.seg in h.ring && p.seg in h.chunks && p.seg in v.owners && Runs(h.chunks[p.seg], v.owners[p.seg])
    ensures |h.chunks[p.seg].map_| == PAGES && |v.owners[p.seg]| == PAGES && |h.chunks[p.seg].freeMap| == 8
    ensures var page := p.off / PAGE_SIZE;
            && 1 <= page < PAGES && 1 <= n && page + n <= PAGES && v.owners[p.seg][page] == page
            && h.chunks[p.seg].map_[page] == Lrun(n)
  {
    hide LinksOk, HugeLinked, InRange, SpaceOk, LayoutOf, Balanced, Idle, RealTotal, Runs, RunsOk, Large;
    LargeFacts(LayoutIn(h, v), p, n);
    LargeInRing(h, v, p, n);
    LayoutEntry(h, v, p.seg);
  }

  lemma CompactDropped(h: State, v: View, s: nat, owner: seq<int>, h': State, v': View)
    requires h'.ring == h.ring && v'.owners == v.owners[s := owner]
    ensures Compact(h, v) ==> CompactBut(h', v', s)
    ensures Compact(h, v) && (owner != NoRuns() || (h.ring != [] && s == h.ring[0] && NoDup(h.ring))) ==>
              Compact(h', v')
  {
    hide NoRuns;
  }

  lemma LeaveIdle(L: Layout, s: nat)
    requires LayoutOk(L) && Idle(L)
    ensures LayoutOk(L - {s}) && Idle(L - {s})
  {
  }

  // ------------------------------------------------------- looking up a block

  /** The page map entry of a block says what it is: this is all that freeing and sizing look at. */
  lemma InfoOf(h: State, v: View, p: Ptr)
    requires Valid(h, v) && p in v.live && p.off != 0
    ensures LayoutOk(LayoutIn(h, v)) && p.seg in h.chunks && |h.chunks[p.seg].map_| == PAGES
            && p.off / PAGE_SIZE < PAGES
    ensures var info := h.chunks[p.seg].map_[p.off / PAGE_SIZE];
            if info.Srun? || info.Nrun? then
              info.bin < BINS && Small(LayoutIn(h, v), p, info.bin) && v.live[p] == BinSize(info.bin)
            else
              info.Lrun? && Large(LayoutIn(h, v), p, info.pages) && v.live[p] == info.pages * PAGE_SIZE
  {
    hide LinksOk, HugeLinked, InRange, SpaceOk, LayoutOf, Idle, RealTotal, BinSize, SmallAt, LargeAt, FreeOk,
         Complete, HugeOk, Runs, RunsOk;
    LayoutFacts(h, v);
    var L := LayoutIn(h, v);
    assert LiveOk(L, h.hugeList, p, v.live[p]);
    LiveInside(L, h.hugeList, p, v.live[p]);
    SegRing(h, v, p.seg);
    LayoutEntry(h, v, p.seg);
    if b: nat :| Small(L, p, b) && !Doomed(L, p, b) && v.live[p] == BinSize(b) {
      SmallInfo(L[p.seg], p.off, b);
    } else {
      var n: nat :| Large(L, p, n) && v.live[p] == n * PAGE_SIZE;
      LargeFacts(L, p, n);
    }
  }

  lemma SegRing(h: State, v: View, s: nat)
    requires Placed(h, v) && s in LayoutIn(h, v)
    ensures s in h.ring
  {
    hide LinksOk, HugeLinked, InRange, Runs, CacheOk, SegmentsOk, LayoutOf;
    LayoutKeys(h.chunks, v.owners, h.ring);
    assert s in Members(h.ring);
  }

  lemma SmallInfo(r: RunMap, off: nat, b: nat)
    requires RunsOk(r) && SmallAt(r, off, b)
    ensures off / PAGE_SIZE < PAGES
    ensures var info := r.map_[off / PAGE_SIZE]; (info.Srun? || info.Nrun?) && info.bin == b
  {
    hide SlotOf, BinPages;
    assert PageOk(r.map_, r.owner, off / PAGE_SIZE);
  }

  // --------------------------------------------------------------- huge blocks

  /** ZEND_MM_ALIGNED_SIZE_EX with a 4096-byte page, in size_t arithmetic. */
  function AlignHuge(size: nat): nat {
    (size + PAGE_SIZE - 1) % SIZE_T / PAGE_SIZE * PAGE_SIZE
  }

  lemma SumCons(x: Huge, huge: seq<Huge>)
    ensures SumHuge([x] + huge) == x.size + SumHuge(huge)
  {
    assert ([x] + huge)[1..] == huge;
  }

  lemma {:induction false} SumSplit(huge: seq<Huge>, i: nat)
    requires i < |huge|
    ensures SumHuge(huge) == huge[i].size + SumHuge(huge[..i] + huge[i + 1..])
  {
    if i == 0 {
      assert huge[..0] + huge[1..] == huge[1..];
    } else {
      SumSplit(huge[1..], i - 1);
      var rest := huge[..i] + huge[i + 1..];
      assert rest[1..] == huge[1..][..i - 1] + huge[1..][i..];
    }
  }

  lemma SumUpdate(huge: seq<Huge>, i: nat, size: nat)
    requires i < |huge|
    ensures SumHuge(huge[i := huge[i].(size := size)]) == SumHuge(huge) - huge[i].size + size
  {
    var huge' := huge[i := huge[i].(size := size)];
    SumSplit(huge, i);
    SumSplit(huge', i);
    assert huge'[..i] + huge'[i + 1..] == huge[..i] + huge[i + 1..];
  }

  /** A new mapping is no block yet. */
  lemma SameBlocksMapped(h: State, v: View, h': State, v': View, mapped: set<nat>)
    requires SameBlocks(h, v, h', v')
    ensures SameBlocks(h, v, h'.(mapped := mapped), v'.(pending := v.pending)) && v'.pending == v.pending
    ensures h'.limit == h.limit && h'.overflow == h.overflow && v'.live == v.live
    ensures h'.ring != [] ==> h.ring != [] && h'.ring[0] == h.ring[0]
  {
    hide BytesKept, Compact, Limited;
    SameRing(h', v', h'.(mapped := mapped), v'.(pending := v.pending));
    SameLimit(h', h'.(mapped := mapped));
  }

  lemma SameLimit(h: State, h': State)
    requires h'.limit == h.limit && h'.overflow == h.overflow && h'.realSize == h.realSize
    ensures Limited(h') == Limited(h)
  {
  }

  /** The mapping for a huge block: the limit, the collections and the system. */
  method MapHuge(h: State, bytes: nat, ghost v: View)
    returns (status: Status, h': State, ghost v': View, seg: nat, ghost refused: bool, ghost again: bool)
    requires Valid(h, v) && 0 < bytes
    ensures status.Lost? ==> h.ring != [] && Loose(v.live, h.ring[0])
    ensures bytes <= Headroom(h) && !refused ==> status.Done?
    ensures status.Failed? ==> Valid(h', v') && SameBlocks(h, v, h', v') && SamePeaks(h, h') && Settled(h', v')
    ensures status.Failed? && !refused && Compact(h, v) ==> !h'.overflow && Headroom(h') < bytes
    ensures status.Failed? && bytes <= Headroom(h) && Compact(h, v) ==> again || Settled(h, v)
    ensures status.Done? ==> Valid(h', v') && SamePeaks(h, h') && SameBlocks(h, v, h', v'.(pending := v.pending))
                             && v'.pending == [Huge(Ptr(0, 0), seg, bytes)] + v.pending
    ensures status.Done? && Limited(h) ==> Limited(h'.(realSize := h'.realSize + bytes))
    ensures status.Done? && bytes <= Headroom(h) && !refused ==> h' == h.(mapped := h'.mapped)
    ensures status.Done? ==> h'.realSize <= h.realSize && TotalFree(h'.freeSlot) <= TotalFree(h.freeSlot)
    ensures status.Done? && refused ==> 0 < TotalFree(h.freeSlot)
  {
    hide Valid, Segments, InRange, Headroom, TotalFree, Compact, Settled, SameBlocks;
    SameBlocksRefl(h, v);
    h', v', seg, refused, again := h, v, 0, false, false;
    if bytes > Headroom(h') {
      var lost, collected;
      h', v', lost, collected := Collect(h', v');
      if lost {
        return Lost, h', v', 0, refused, again;
      }
      SameBlocksMapped(h, v, h', v', h'.mapped);
      if !(collected > 0 && bytes <= Headroom(h')) && !h'.overflow {
        SameHeadroom(h, h');
        return Failed, h', v', 0, refused, again;
      }
    }
    HeadroomFits(h', v', bytes);
    ghost var h1, v1 := h', v';
    var mapped;
    status, h', v', seg, mapped, refused, again := MapOrCollect(h', bytes, v');
    if status.Lost? {
      return Lost, h', v', 0, refused, again;
    }
    SameBlocksTrans(h, v, h1, v1, h', v');
    if status.Failed? {
      return Failed, h', v', 0, refused, again;
    }
    PendValid(h', v', seg, bytes);
    SameBlocksMapped(h, v, h', v', mapped);
    h' := h'.(mapped := mapped);
    v' := v'.(pending := [Huge(Ptr(0, 0), seg, bytes)] + v'.pending);
    status := Done;
  }

  lemma PendValid(h: State, v: View, seg: nat, bytes: nat)
    requires Valid(h, v) && h.mapped !! Segments(seg, bytes) && 0 < bytes && InRange(h.mapped + Segments(seg, bytes))
    ensures Valid(h.(mapped := h.mapped + Segments(seg, bytes)),
              v.(pending := [Huge(Ptr(0, 0), seg, bytes)] + v.pending))
  {
    hide LinksOk, HugeLinked, InRange, RingOk, CacheOk, SegmentsOk, LayoutOf, Balanced, Idle, RealTotal, Segments;
    AddMapping(h.ring, h.cached, h.hugeList, v.pending, h.mapped, Huge(Ptr(0, 0), seg, bytes));
  }

  /** The pending mapping gets its list element. */
  lemma ListHuge(h: State, v: View, x: Huge, h': State, v': View)
    requires Valid(h, v) && LayoutOk(LayoutIn(h, v)) && v.pending != []
    requires x.seg == v.pending[0].seg && x.size == v.pending[0].size
    requires x.node in v.live && Small(LayoutIn(h, v), x.node, NODE_BIN) && !IsNode(h.hugeList, x.node)
    requires h'.hugeList == [x] + h.hugeList && h'.mem == WriteElement(h.mem, x, NodeAt(h.hugeList, 0))
    requires h' == h.(hugeList := h'.hugeList, realSize := h.realSize + x.size, mem := h'.mem,
               realPeak := h'.realPeak, size := h'.size, peak := h'.peak) && h'.realPeak == Max(h.realPeak, h'.realSize)
    requires v' == v.(live := v.live[Ptr(x.seg, 0) := x.size], pending := v.pending[1..])
    ensures Ptr(x.seg, 0) !in v.live && Valid(h', v') && BytesKept(h.mem, h'.mem, v.live - {x.node})
  {
    hide LinksOk, HugeLinked, InRange, RingOk, CacheOk, LayoutOf, Idle, Balanced, Small, BytesKept, WriteElement,
         IsNode, Apart;
    PendingNotLive(h, v);
    LiveSize(LayoutIn(h, v), h.freeSlot, h.hugeList, v.live, x.node, NODE_BIN);
    SpaceApart(h, v);
    PushElement(LayoutIn(h, v), h.freeSlot, h.hugeList, v.live, x, h.mem, h'.mem);
    var all, all' := Mappings(h, v), Mappings(h', v');
    var i := |h.hugeList|;
    assert all[i] == v.pending[0] && all'[0] == x;
    assert all'[..0] + all'[1..] == all[..i] + all[i + 1..];
    assert SegmentsOk(h.ring, h.cached, all', h.mapped) by {
      hide *;
      MoveMapping(h.ring, h.cached, all, i, h.mapped, all', 0);
    }
    AddHuge(LayoutIn(h, v), h.freeSlot, h.hugeList, v.live, x);
    SumCons(x, h.hugeList);
  }

  lemma PendingNotLive(h: State, v: View)
    requires Placed(h, v) && Balanced(LayoutIn(h, v), h.freeSlot, h.hugeList, v.live) && v.pending != []
    ensures Ptr(v.pending[0].seg, 0) !in v.live
  {
    hide LinksOk, HugeLinked, InRange, RingOk, CacheOk, LayoutOf, FreeOk, Complete, Small, Large;
    var p := Ptr(v.pending[0].seg, 0);
    var all, j := Mappings(h, v), |h.hugeList|;
    assert all[j] == v.pending[0];
    forall i | 0 <= i < |h.hugeList| ensures h.hugeList[i].seg != p.seg {
      assert all[i] == h.hugeList[i];
    }
    assert p in v.live ==> LiveOk(LayoutIn(h, v), h.hugeList, p, v.live[p]);
  }

  /** A huge block of `size` bytes and its list element have been handed out and accounted for. */
  ghost predicate AllocatedHuge(h: State, v: View, h': State, v': View, p: Ptr, node: Ptr, size: nat) {
    && Valid(h', v') && h.ring != [] && h'.ring != [] && h'.ring[0] == h.ring[0]
    && h'.limit == h.limit && h'.overflow == h.overflow
    && h'.hugeList == [Huge(node, p.seg, size)] + h.hugeList && p.off == 0
    && p !in v.live && node !in v.live && node != p
    && v'.live == v.live[node := BinSize(NODE_BIN)][p := size] && v'.pending == v.pending
    && h'.size == h.size + BinSize(NODE_BIN) + size && h'.peak == Max(h.peak, h'.size)
    && BytesKept(h.mem, h'.mem, v.live) && KeepsCompact(h, v, h', v') && PeaksSeen(h, h')
  }

  lemma FreshNode(h: State, v: View, node: Ptr)
    requires Balanced(LayoutIn(h, v), h.freeSlot, h.hugeList, v.live) && node !in v.live
    ensures !IsNode(h.hugeList, node)
  {
    hide FreeOk, Complete, LiveOk, Small;
  }

  lemma NodeFacts(h: State, v: View, h': State, v': View, node: Ptr)
    requires Valid(h, v) && Valid(h', v') && node !in v.live
    ensures !IsNode(h.hugeList, node) && LayoutOk(LayoutIn(h', v'))
  {
    hide LinksOk, HugeLinked, InRange, SpaceOk, LayoutOf, Balanced, Idle, RealTotal, IsNode;
    FreshNode(h, v, node);
    LayoutFacts(h', v');
  }

  /**
   zend_mm_add_huge_block, with the accounting behind it: a list element for the
   mapping, filled in and put at the head.
   */
  method AddHugeBlock(h: State, seg: nat, bytes: nat, ghost v: View)
    returns (r: Outcome, h': State, ghost v': View, ghost node: Ptr, ghost refused: bool)
    requires Valid(h, v) && v.pending != [] && v.pending[0].seg == seg && v.pending[0].size == bytes
    ensures r.Ok? ==> r.ptr == Ptr(seg, 0)
                      && AllocatedHuge(h, v.(pending := v.pending[1..]), h', v', r.ptr, node, bytes)
    ensures r.Bailout? ==> Valid(h', v') && SameRest(h, h') && v'.live == v.live && v'.pending == v.pending
                           && BytesKept(h.mem, h'.mem, v.live)
                           && h'.size == h.size + BinSize(NODE_BIN) && h'.peak == Max(h.peak, h'.size)
                           && KeepsCompact(h, v, h', v') && PeaksSeen(h, h') && Settled(h', v')
    ensures SlotServed(h, NODE_BIN) && !refused ==> r.Ok?
    ensures r.Ok? ==> h'.limit == h.limit && h'.overflow == h.overflow && (refused ==> 0 < TotalFree(h.freeSlot))
    ensures r.Ok? ==> NodeTaken(h, bytes, refused, h')
    ensures r.MainLost? ==> h.ring != [] && Loose(v.live, h.ring[0])
  {
    hide BytesKept, Valid, Small, BinSize, IsNode, LayoutIn, WriteElement, Loose, SlotNeedsChunk, SlotServed,
         Headroom, TotalFree, Compact, Settled;
    NodeBin();
    var h1;
    ghost var v1;
    r, h1, v1, refused := AllocSmall(h, SizeToBin(NODE_SIZE), v);
    node := if r.Ok? then r.ptr else Ptr(0, 0);
    if !r.Ok? {
      return r, h1, v1, node, refused;
    }
    var x := Huge(r.ptr, seg, bytes);
    var realTotal, total := h1.realSize + bytes, h1.size + bytes;
    h' := h1.(hugeList := [x] + h1.hugeList, mem := WriteElement(h1.mem, x, NodeAt(h1.hugeList, 0)),
              realSize := realTotal, realPeak := Max(h1.realPeak, realTotal), size := total,
                  peak := Max(h1.peak, total));
    v' := v1.(live := v1.live[Ptr(seg, 0) := bytes], pending := v1.pending[1..]);
    NodeFacts(h, v, h1, v1, r.ptr);
    ListHuge(h1, v1, x, h', v');
    assert v1.live - {node} == v.live;
    SameRing(h1, v1, h', v');
    SameRing(h, v, h, v.(pending := v.pending[1..]));
    KeptTrans(h.mem, h1.mem, h'.mem, v.live);
    r := Ok(Ptr(seg, 0));
  }

  /** What a huge block and its list element add to `real_size`. */
  ghost predicate NodeTaken(h: State, bytes: nat, refused: bool, h': State) {
    && h'.realSize <= h.realSize + bytes + CHUNK_SIZE
    && (!SlotNeedsChunk(h, NODE_BIN) ==> h'.realSize == h.realSize + bytes)
    && (SlotNeedsChunk(h, NODE_BIN) && CHUNK_SIZE <= Headroom(h) && !refused ==>
          h'.realSize == h.realSize + bytes + CHUNK_SIZE)
  }

  /** The limit is exceeded by at most one chunk, if at all. */
  ghost predicate NearLimit(h: State, h': State) {
    Limited(h) ==> h'.overflow || h'.realSize <= h'.limit + CHUNK_SIZE
  }

  /** The list element of a huge block of `bytes` bytes needs a chunk, and the limit has no room for both. */
  ghost predicate NodeExceeds(h: State, bytes: nat) {
    SlotNeedsChunk(h, NODE_BIN) && h.limit < h.realSize + bytes + CHUNK_SIZE
  }

  lemma SameNode(h: State, h': State, bytes: nat)
    requires h' == h.(mapped := h'.mapped)
    ensures NodeExceeds(h', bytes) == NodeExceeds(h, bytes)
  {
    hide NeedsChunk;
    SameRoom(h, h', BinPages(NODE_BIN));
  }

  /**
   Adding the element exceeds the limit, which has room for the block, exactly when
   the element needs a chunk that does not fit beside it.
   */
  lemma NodeLimit(h: State, v: View, bytes: nat, refused: bool, h': State)
    requires Valid(h, v) && NodeTaken(h, bytes, refused, h') && CHUNK_SIZE <= bytes && h'.limit == h.limit
    requires h.realSize + bytes <= h.limit < SIZE_T
    ensures h'.realSize <= h'.limit + CHUNK_SIZE
    ensures h'.limit < h'.realSize ==> NodeExceeds(h, bytes)
    ensures NodeExceeds(h, bytes) && !refused ==> h'.limit < h'.realSize
  {
    hide LinksOk, HugeLinked, InRange, SpaceOk, LayoutOf, Balanced, Idle, Headroom, SlotNeedsChunk;
    HeadroomExact(h);
  }

  lemma HugeBytes(size: nat)
    requires MAX_LARGE_SIZE < size <= AlignHuge(size)
    ensures CHUNK_SIZE <= AlignHuge(size)
  {
  }

  /** The exact condition for exceeding the limit; `mid` is the heap in which the block was mapped. */
  ghost predicate LimitExact(h: State, bytes: nat, mid: State, refused: bool, h': State) {
    && (h'.limit < h'.realSize ==> NodeExceeds(mid, bytes))
    && (!refused ==> (h'.limit < h'.realSize <==> NodeExceeds(mid, bytes)))
    && (!refused && bytes <= Headroom(h) ==> (h'.limit < h'.realSize <==> NodeExceeds(h, bytes)))
  }

  /** The same of `h` and of what is left of it after a collection that a fitting block does not need. */
  lemma LimitExactAfter(h: State, h1: State, bytes: nat, mid: State, refused: bool, h': State)
    requires LimitExact(h1, bytes, mid, refused, h') && (bytes <= Headroom(h) ==> h1 == h)
    ensures LimitExact(h, bytes, mid, refused, h')
  {
    hide NodeExceeds, Headroom;
  }

  /** `mid` is `h` after at most collections, and with a mapping more. */
  ghost predicate MappedIn(h: State, v: View, mid: State) {
    exists w: View :: Valid(mid, w) && SameBlocks(h, v, mid, w.(pending := v.pending))
  }

  lemma HugeLimits(h: State, mid: State, v: View, bytes: nat, refused: bool, h': State)
    requires Valid(mid, v) && mid.realSize <= h.realSize && CHUNK_SIZE <= bytes
    requires mid.limit == h'.limit == h.limit && mid.overflow == h'.overflow == h.overflow
    requires Limited(h) ==> Limited(mid.(realSize := mid.realSize + bytes))
    requires bytes <= Headroom(h) && !refused ==> mid == h.(mapped := mid.mapped)
    requires NodeTaken(mid, bytes, refused, h')
    ensures NearLimit(h, h')
    ensures Limited(h) && !h.overflow ==> LimitExact(h, bytes, mid, refused, h')
    ensures Limited(h) && !h.overflow && h.realSize + bytes + CHUNK_SIZE <= h.limit ==> Limited(h')
  {
    hide Valid, NodeExceeds, NodeTaken, Headroom;
    if Limited(h) && !h.overflow {
      NodeLimit(mid, v, bytes, refused, h');
      if bytes <= Headroom(h) && !refused {
        SameNode(h, mid, bytes);
      }
      NodeFits(mid, bytes);
    }
  }

  lemma NodeFits(h: State, bytes: nat)
    ensures h.realSize + bytes + CHUNK_SIZE <= h.limit ==> !NodeExceeds(h, bytes)
  {
  }

  /**
   zend_mm_alloc_huge.  When the system refuses no mapping, the limit is exceeded exactly
   when the list element needs a chunk of its own and block and chunk do not both fit.  A
   refusal starts a collection, which may make room.
   */
  method AllocHuge(h: State, size: nat, ghost v: View)
    returns (r: Outcome, h': State, ghost v': View, ghost node: Ptr, ghost mid: State, ghost refused: bool)
    requires Valid(h, v) && MAX_LARGE_SIZE < size < SIZE_T
    ensures r.Ok? ==> AllocatedHuge(h, v, h', v', r.ptr, node, AlignHuge(size)) && size <= AlignHuge(size)
    ensures r.Bailout? ==> Valid(h', v') && SameRest(h, h') && v'.live == v.live && BytesKept(h.mem, h'.mem, v.live)
    ensures r.Bailout? ==> |v.pending| <= |v'.pending|
                           && h'.size == h.size + (|v'.pending| - |v.pending|) * BinSize(NODE_BIN)
    ensures r.Bailout? && h.size <= h.peak ==> h'.peak == Max(h.peak, h'.size)
    ensures r.Bailout? ==> KeepsCompact(h, v, h', v') && PeaksSeen(h, h')
    ensures r.Bailout? ==> AlignHuge(size) < size || Settled(h', v')
    ensures size <= AlignHuge(size) <= Headroom(h) && !refused ==> r.Ok?
    ensures r.Ok? ==> NearLimit(h, h') && (refused ==> 0 < TotalFree(h.freeSlot))
    ensures r.Ok? ==> MappedIn(h, v, mid)
    ensures r.Ok? && Limited(h) && !h.overflow ==> LimitExact(h, AlignHuge(size), mid, refused, h') && !h'.overflow
    ensures r.Ok? && Limited(h) && !h.overflow && h.realSize + AlignHuge(size) + CHUNK_SIZE <= h.limit ==> Limited(h')
    ensures r.MainLost? ==> h.ring != [] && Loose(v.live, h.ring[0])
  {
    hide BytesKept, Valid, BinSize, AlignHuge, AllocatedHuge, Loose, LimitExact, NodeTaken, NearLimit, Headroom,
         TotalFree, Compact, Settled, SlotNeedsChunk, SameBlocks;
    node, mid, refused := Ptr(0, 0), h, false;
    SameBlocksRefl(h, v);
    var bytes := AlignHuge(size);
    if bytes < size {
      HugeFails(h, v, h, v, v);
      return Bailout, h, v, node, mid, refused;
    }
    HugeBytes(size);
    var status, h1, seg;
    ghost var v1, again;
    status, h1, v1, seg, refused, again := MapHuge(h, bytes, v);
    mid := h1;
    if status.Lost? {
      return MainLost, h1, v1, node, mid, refused;
    }
    if status.Failed? {
      SameBlocksMapped(h, v, h1, v1, h1.mapped);
      HugeFails(h, v, h1, v1, v1);
      return Bailout, h1, v1, node, mid, refused;
    }
    HugeFails(h, v, h1, v1, v1.(pending := v.pending));
    SameHeadroom(h, h1);
    r, h', v', node, again := AddHugeBlock(h1, seg, bytes, v1);
    refused := refused || again;
    if r.Ok? {
      MoreRefused(h1, bytes, again, refused, h');
      HugeLimits(h, h1, v1, bytes, refused, h');
      assert v1.pending[1..] == v.pending;
      HugeAfter(h, v, h1, v1.(pending := v.pending), h', v', r.ptr, node, bytes);
    } else if r.Bailout? {
      KeptTrans(h.mem, h1.mem, h'.mem, v.live);
    }
  }

  /** What a heap with the same blocks has in common with `h`; `w` differs from `v'` in what is pending. */
  lemma HugeFails(h: State, v: View, h': State, v': View, w: View)
    requires Valid(h', v') && SamePeaks(h, h') && SameBlocks(h, v, h', w) && w == v'.(pending := v.pending)
    ensures SameRest(h, h') && v'.live == v.live && BytesKept(h.mem, h'.mem, v.live) && h'.size == h.size
    ensures h'.peak == h.peak && KeepsCompact(h, v, h', v') && PeaksSeen(h, h')
  {
    hide BytesKept, Valid, Compact;
    SameRing(h', v', h', w);
    NothingSeen(h, h', v');
  }

  lemma MoreRefused(h: State, bytes: nat, again: bool, refused: bool, h': State)
    requires NodeTaken(h, bytes, again, h') && (again ==> refused)
    ensures NodeTaken(h, bytes, refused, h')
  {
    hide SlotNeedsChunk, Headroom;
  }

  lemma HugeAfter(h: State, v: View, h1: State, v1: View, h': State, v': View, p: Ptr, node: Ptr, bytes: nat)
    requires SameBlocks(h, v, h1, v1) && SamePeaks(h, h1) && AllocatedHuge(h1, v1, h', v', p, node, bytes)
    ensures AllocatedHuge(h, v, h', v', p, node, bytes)
  {
    hide BytesKept, Valid, BinSize, Compact;
    KeptTrans(h.mem, h1.mem, h'.mem, v.live);
  }

  lemma NodeBin()
    ensures SizeToBin(NODE_SIZE) == NODE_BIN
  {
  }

  /** The position of a block in the huge list, or its length. */
  method FindHuge(huge: seq<Huge>, seg: nat) returns (i: nat)
    ensures i <= |huge| && (i < |huge| ==> huge[i].seg == seg)
    ensures forall j :: 0 <= j < i ==> huge[j].seg != seg
  {
    i := 0;
    while i < |huge| && huge[i].seg != seg
      invariant 0 <= i <= |huge| && forall j :: 0 <= j < i ==> huge[j].seg != seg
    {
      i := i + 1;
    }
  }

  lemma LiveHuge(h: State, v: View, p: Ptr, i: nat)
    requires Balanced(LayoutIn(h, v), h.freeSlot, h.hugeList, v.live) && p in v.live && p.off == 0 && i <= |h.hugeList|
    requires i < |h.hugeList| ==> h.hugeList[i].seg == p.seg
    requires forall j :: 0 <= j < i ==> h.hugeList[j].seg != p.seg
    ensures i < |h.hugeList| && v.live[p] == h.hugeList[i].size
    ensures h.hugeList[i].node in v.live && Small(LayoutIn(h, v), h.hugeList[i].node, NODE_BIN)
            && h.hugeList[i].node != p
  {
    hide LiveOk, FreeOk, Complete, Small, Large, HugeOk, HugeAt, RunsOk;
    LiveListed(LayoutIn(h, v), h.hugeList, p, v.live[p]);
    ListedOnce(LayoutIn(h, v), h.hugeList, v.live, p.seg, v.live[p], i);
    NoBlockAtZero(LayoutIn(h, v), p.seg);
  }

  lemma LiveListed(L: Layout, huge: seq<Huge>, p: Ptr, size: nat)
    requires LayoutOk(L) && LiveOk(L, huge, p, size) && p.off == 0
    ensures HugeAt(huge, p.seg, size)
  {
    hide RunsOk, HugeAt;
  }

  lemma ListedOnce(L: Layout, huge: seq<Huge>, live: map<Ptr, nat>, seg: nat, size: nat, i: nat)
    requires LayoutOk(L) && HugeOk(L, huge, live) && HugeAt(huge, seg, size) && i <= |huge|
    requires i < |huge| ==> huge[i].seg == seg
    requires forall j :: 0 <= j < i ==> huge[j].seg != seg
    ensures i < |huge| && huge[i].size == size && huge[i].node in live && Small(L, huge[i].node, NODE_BIN)
  {
    hide RunsOk, Small;
  }

  /** The block leaves the list; its mapping is pending until it is given back. */
  lemma UnlistHuge(h: State, v: View, i: nat, h': State, v': View)
    requires Valid(h, v) && i < |h.hugeList|
    requires h' == h.(hugeList := h.hugeList[..i] + h.hugeList[i + 1..], mem := UnlinkElement(h.mem, h.hugeList, i))
    requires v' == v.(live := v.live - {Ptr(h.hugeList[i].seg, 0)}, pending := [h.hugeList[i]] + v.pending)
    ensures Linked(h', v') && !IsNode(h'.hugeList, h.hugeList[i].node)
    ensures forall q :: q in v.live && !IsNode(h.hugeList, q) ==> BlockKept(h.mem, h'.mem, q, v.live[q])
  {
    hide LinksOk, HugeLinked, InRange, RingOk, CacheOk, LayoutOf, Idle, Balanced, RealTotal, IsNode, BlockKept,
         UnlinkElement, Apart;
    SpaceApart(h, v);
    DropElement(LayoutIn(h, v), h.freeSlot, h.hugeList, v.live, i, h.mem, h'.mem);
    RemoveHuge(LayoutIn(h, v), h.freeSlot, h.hugeList, v.live, i);
    var all, all', j := Mappings(h, v), Mappings(h', v'), |h'.hugeList|;
    assert all[i] == h.hugeList[i] && all'[j] == h.hugeList[i];
    assert all'[..j] + all'[j + 1..] == all[..i] + all[i + 1..];
    assert SegmentsOk(h.ring, h.cached, all', h.mapped) by {
      hide *;
      MoveMapping(h.ring, h.cached, all, i, h.mapped, all', j);
    }
  }

  /** The pending mapping is given back to the system. */
  lemma UnmapHuge(h: State, v: View, h': State, v': View)
    requires Linked(h, v) && v.pending != []
    requires h' == h.(mapped := h.mapped - Segments(v.pending[0].seg, v.pending[0].size), realSize := h'.realSize,
              size := h'.size)
    requires v' == v.(pending := v.pending[1..])
    ensures Linked(h', v')
  {
    hide LinksOk, HugeLinked, RingOk, CacheOk, LayoutOf, Idle, Balanced, Segments;
    var all, i := Mappings(h, v), |h.hugeList|;
    assert all[i] == v.pending[0];
    assert Mappings(h', v') == all[..i] + all[i + 1..];
    assert SegmentsOk(h.ring, h.cached, Mappings(h', v'), h'.mapped) by {
      hide *;
      DropMapping(h.ring, h.cached, all, i, h.mapped);
    }
  }

  /** zend_mm_free_huge with zend_mm_del_huge_block. */
  method FreeHuge(h: State, p: Ptr, ghost v: View) returns (h': State, ghost v': View, ghost node: Ptr)
    requires Valid(h, v) && p in v.live && p.off == 0
    ensures node in v.live && IsNode(h.hugeList, node) && node != p
    ensures Valid(h', v') && v'.live == v.live - {p} - {node} && v'.pending == v.pending
    ensures h'.limit == h.limit && h'.overflow == h.overflow && h'.ring == h.ring && h'.peak == h.peak
    ensures v'.owners == v.owners && SamePeaks(h, h')
    ensures TallyOf(h') == TallyOf(h) && h'.avgChunksCount == h.avgChunksCount
    ensures h'.size == h.size - BinSize(NODE_BIN) - v.live[p] && h'.realSize == h.realSize - v.live[p]
    ensures forall q :: q in v'.live && !IsNode(h'.hugeList, q) ==> BlockKept(h.mem, h'.mem, q, v'.live[q])
    ensures forall q :: IsNode(h'.hugeList, q) ==> IsNode(h.hugeList, q)
    ensures forall q :: IsNode(h.hugeList, q) && q != node ==> IsNode(h'.hugeList, q)
  {
    hide LinksOk, HugeLinked, InRange, SpaceOk, LayoutOf, Balanced, Idle, Small, BinSize, RealTotal, Segments, IsNode,
         BlockKept, UnlinkElement;
    var i := FindHuge(h.hugeList, p.seg);
    LiveHuge(h, v, p, i);
    var x := h.hugeList[i];
    node := x.node;
    var h1 := h.(hugeList := h.hugeList[..i] + h.hugeList[i + 1..], mem := UnlinkElement(h.mem, h.hugeList, i));
    ghost var v1 := v.(live := v.live - {p}, pending := [x] + v.pending);
    UnlistHuge(h, v, i, h1, v1);
    OtherNodes(h.hugeList, i);
    var h2;
    ghost var v2;
    h2, v2 := FreeSmall(h1, x.node, NODE_BIN, v1);
    h' := h2.(mapped := h2.mapped - Segments(x.seg, x.size), realSize := h2.realSize - x.size,
        size := h2.size - x.size);
    v' := v2.(pending := v2.pending[1..]);
    UnmapHuge(h2, v2, h', v');
    assert v2.pending[1..] == v.pending;
    forall q | q in v'.live && !IsNode(h'.hugeList, q) ensures BlockKept(h.mem, h'.mem, q, v'.live[q]) {
      assert q in v2.live;
      KeptTwice(h.mem, h1.mem, h2.mem, q, v'.live[q]);
    }
    TotalWithout(|h.ring| + |h.cached|, h.hugeList, i);
  }

  lemma OtherNodes(huge: seq<Huge>, i: nat)
    requires i < |huge|
    ensures IsNode(huge, huge[i].node)
    ensures forall q :: IsNode(huge[..i] + huge[i + 1..], q) ==> IsNode(huge, q)
    ensures forall q :: IsNode(huge, q) && q != huge[i].node ==> IsNode(huge[..i] + huge[i + 1..], q)
  {
    var rest := huge[..i] + huge[i + 1..];
    forall q | IsNode(rest, q) ensures IsNode(huge, q) {
      var k :| 0 <= k < |rest| && rest[k].node == q;
      assert huge[if k < i then k else k + 1] == rest[k];
    }
    forall q | IsNode(huge, q) && q != huge[i].node ensures IsNode(rest, q) {
      var k :| 0 <= k < |huge| && huge[k].node == q;
      assert rest[if k < i then k else k - 1] == huge[k];
    }
  }

  lemma TotalWithout(count: nat, huge: seq<Huge>, i: nat)
    requires i < |huge|
    ensures RealTotal(count, huge[..i] + huge[i + 1..]) == RealTotal(count, huge) - huge[i].size
  {
    SumSplit(huge, i);
  }

  // ---------------------------------------------------------------- accounting

  /** The sizes of all blocks together. */
  ghost function Sum(live: map<Ptr, nat>): nat
    decreases |live|
  {
    if live == map[] then 0
    else var p :| p in live; live[p] + Sum(live - {p})
  }

  lemma {:induction false} SumRemove(live: map<Ptr, nat>, p: Ptr)
    requires p in live
    ensures Sum(live) == live[p] + Sum(live - {p})
    decreases |live|
  {
    var q :| q in live && Sum(live) == live[q] + Sum(live - {q});
    if q != p {
      SumRemove(live - {q}, p);
      SumRemove(live - {p}, q);
      assert live - {q} - {p} == live - {p} - {q};
    }
  }

  lemma SumAdd(live: map<Ptr, nat>, p: Ptr, size: nat)
    requires p !in live
    ensures Sum(live[p := size]) == Sum(live) + size
  {
    SumRemove(live[p := size], p);
    assert live[p := size] - {p} == live;
  }

  lemma SumChange(live: map<Ptr, nat>, p: Ptr, size: nat)
    requires p in live
    ensures Sum(live[p := size]) == Sum(live) - live[p] + size
  {
    SumRemove(live, p);
    SumRemove(live[p := size], p);
    assert live[p := size] - {p} == live - {p};
  }

  /** What the heap's `size` counts beyond the blocks there are. */
  ghost function Drift(h: State, v: View): int {
    h.size - Sum(v.live)
  }

  /** The blocks in the hands of callers: all but the elements of the huge list. */
  ghost function Users(h: State, v: View): set<Ptr> {
    set p | p in v.live && !IsNode(h.hugeList, p)
  }

  /** What every operation leaves to the callers that are not concerned. */
  ghost predicate KeepsOthers(h: State, v: View, h': State, v': View, others: set<Ptr>) {
    && (forall q :: q in others ==> q in v.live && q in v'.live && v'.live[q] == v.live[q])
    && (forall q :: q in others && q in v.live ==> BlockKept(h.mem, h'.mem, q, v.live[q]))
  }

  /** Configuration and identity that no operation on blocks changes. */
  ghost predicate SameHeap(h: State, h': State) {
    && h'.limit == h.limit && h'.overflow == h.overflow
    && h.ring != [] && h'.ring != [] && h'.ring[0] == h.ring[0]
    && (h.size <= h.peak ==> h'.size <= h'.peak)
  }

  // ------------------------------------------------------- allocate and free

  lemma UsersAfter(h: State, v: View, h': State, v': View, p: Ptr, size: nat)
    requires Balanced(LayoutIn(h, v), h.freeSlot, h.hugeList, v.live)
    requires p !in v.live && v'.live == v.live[p := size] && h'.hugeList == h.hugeList
    ensures Users(h', v') == Users(h, v) + {p}
  {
    hide FreeOk, Complete, LiveOk, Small, IsNode;
    FreshNode(h, v, p);
  }

  lemma UsersAfterHuge(h: State, v: View, h': State, v': View, p: Ptr, node: Ptr, size: nat)
    requires Balanced(LayoutIn(h, v), h.freeSlot, h.hugeList, v.live)
    requires Balanced(LayoutIn(h', v'), h'.freeSlot, h'.hugeList, v'.live)
    requires p !in v.live && node !in v.live && node != p && p.off == 0
    requires v'.live == v.live[node := BinSize(NODE_BIN)][p := size]
    requires h'.hugeList == [Huge(node, p.seg, size)] + h.hugeList
    ensures Users(h', v') == Users(h, v) + {p}
  {
    hide Balanced;
    FreshNode(h, v, p);
    FreshNode(h, v, node);
    var x := Huge(node, p.seg, size);
    forall q ensures IsNode(h'.hugeList, q) <==> IsNode(h.hugeList, q) || q == node {
      assert h'.hugeList[0] == x;
      if IsNode(h.hugeList, q) {
        var i :| 0 <= i < |h.hugeList| && h.hugeList[i].node == q;
        assert h'.hugeList[i + 1] == h.hugeList[i];
      }
      if IsNode(h'.hugeList, q) && q != node {
        var i :| 0 <= i < |h'.hugeList| && h'.hugeList[i].node == q;
        assert h'.hugeList[i] == h.hugeList[i - 1];
      }
    }
  }

  /**
   What a failed allocation leaves counted in `size`: a small block, or the list
   element of a huge block whose mapping was obtained and is now lost.
   */
  ghost function LostCount(size: nat, mappings: int): int {
    if size <= MAX_SMALL_SIZE then BlockSize(size) else mappings * BinSize(NODE_BIN)
  }

  /** The new block belongs to the caller; nobody else notices. */
  ghost predicate NewBlock(h: State, v: View, h': State, v': View, p: Ptr, bytes: nat) {
    && Valid(h', v') && SameHeap(h, h') && Drift(h', v') == Drift(h, v) && v'.pending == v.pending
    && p !in v.live && Users(h', v') == Users(h, v) + {p} && KeepsOthers(h, v, h', v', v.live.Keys)
    && p in v'.live && v'.live[p] == bytes && h'.peak == Max(h.peak, h'.size) && Tidy(h, v, h', v')
  }

  /** Empty chunks have not stayed in use, and the peaks are exact. */
  ghost predicate Tidy(h: State, v: View, h': State, v': View) {
    KeepsCompact(h, v, h', v') && PeaksSeen(h, h')
  }

  /** The blocks are as before; `size` counts `lost` bytes more than it should. */
  ghost predicate NoBlock(h: State, v: View, h': State, v': View, lost: int) {
    && Valid(h', v') && SameHeap(h, h') && v'.live == v.live && BytesKept(h.mem, h'.mem, v.live)
    && h'.hugeList == h.hugeList
    && Drift(h', v') == Drift(h, v) + lost && KeepsLimit(h, h') && Tidy(h, v, h', v')
    && (h.size <= h.peak ==> h'.peak == Max(h.peak, h'.size))
  }

  /** The limit is kept by blocks in chunks; a huge block may exceed it by up to one chunk, for its list element. */
  ghost predicate LimitKept(h: State, size: nat, h': State) {
    if size <= MAX_LARGE_SIZE then KeepsLimit(h, h') else NearLimit(h, h')
  }

  lemma Accounted(h: State, v: View, h': State, v': View, p: Ptr, bytes: nat)
    requires Valid(h, v) && Allocated(h, v, h', v', p, bytes)
    ensures NewBlock(h, v, h', v', p, bytes) && KeepsLimit(h, h') && h'.size == h.size + bytes
  {
    hide LinksOk, HugeLinked, InRange, SpaceOk, LayoutOf, Balanced, Idle, RealTotal, IsNode, Users, Sum, BlockKept,
         Compact;
    UsersAfter(h, v, h', v', p, bytes);
    SumAdd(v.live, p, bytes);
  }

  lemma AccountedHuge(h: State, v: View, h': State, v': View, p: Ptr, node: Ptr, bytes: nat)
    requires Valid(h, v) && AllocatedHuge(h, v, h', v', p, node, bytes)
    ensures NewBlock(h, v, h', v', p, bytes)
  {
    hide LinksOk, HugeLinked, InRange, SpaceOk, LayoutOf, Balanced, Idle, RealTotal, IsNode, Users, Sum, BlockKept,
         BinSize, Compact;
    UsersAfterHuge(h, v, h', v', p, node, bytes);
    SumAdd(v.live, node, BinSize(NODE_BIN));
    SumAdd(v.live[node := BinSize(NODE_BIN)], p, bytes);
  }

  /** A slot for `size` bytes that has taken a new run is the first of it. */
  ghost predicate FirstOfRun(h: State, size: nat, p: Ptr) {
    size <= MAX_SMALL_SIZE && |h.freeSlot| == BINS && SizeToBin(size) < BINS && h.freeSlot[SizeToBin(size)] == [] ==>
      0 < p.off && p.off % PAGE_SIZE == 0
  }

  /** A block of `size` bytes can be had: a slot, pages, or a mapping within the limit. */
  ghost predicate Served(h: State, size: nat) {
    if size <= MAX_SMALL_SIZE then SizeToBinTight(size); SlotServed(h, SizeToBin(size))
    else if size <= MAX_LARGE_SIZE then CanServe(h, PagesFor(size))
    else size <= AlignHuge(size) <= Headroom(h)
  }

  /** zend_mm_alloc_heap: any size, the smallest class that holds it. */
  method AllocHeap(h: State, size: nat, ghost v: View)
    returns (r: Outcome, h': State, ghost v': View, ghost mid: State, ghost refused: bool)
    requires Valid(h, v) && size < SIZE_T
    ensures r.Ok? ==> NewBlock(h, v, h', v', r.ptr, BlockSize(size)) && size <= BlockSize(size)
    ensures r.Ok? ==> LimitKept(h, size, h') && FirstOfRun(h, size, r.ptr)
    ensures r.Ok? && MAX_SMALL_SIZE < size <= MAX_LARGE_SIZE ==> NoMoreSlots(h, h')
    ensures r.Ok? && MAX_LARGE_SIZE < size && Limited(h) && !h.overflow ==>
              LimitExact(h, AlignHuge(size), mid, refused, h')
    ensures r.Ok? && MAX_LARGE_SIZE < size && refused ==> 0 < TotalFree(h.freeSlot)
    ensures r.Ok? && size <= MAX_LARGE_SIZE ==> h'.size == h.size + BlockSize(size)
    ensures Served(h, size) && !refused ==> r.Ok?
    ensures r.Bailout? ==> (MAX_LARGE_SIZE < size && AlignHuge(size) < size) || Settled(h', v')
    ensures r.Bailout? ==> NoBlock(h, v, h', v', LostCount(size, |v'.pending| - |v.pending|))
                           && |v.pending| <= |v'.pending|
    ensures r.MainLost? ==> h.ring != [] && Loose(v.live, h.ring[0])
  {
    hide Valid, Small, Large, BinSize, SizeToBin, PagesFor, AlignHuge, IsNode, Sum, Allocated, AllocatedHuge,
         NewBlock, NearLimit, LimitExact, SlotServed, CanServe, NoMoreSlots, TotalFree, Headroom, Compact, Settled,
         FirstRoom, BestPlace, SlotNeedsChunk;
    HasChunk(h, v);
    mid, refused := h, false;
    if size <= MAX_SMALL_SIZE {
      var b := SizeToBin(size);
      SizeToBinTight(size);
      BinFacts(b);
      r, h', v', refused := AllocSmall(h, b, v);
      if r.Ok? {
        Accounted(h, v, h', v', r.ptr, BinSize(b));
      }
    } else if size <= MAX_LARGE_SIZE {
      r, h', v', refused := AllocLarge(h, size, v);
      if r.Ok? {
        Accounted(h, v, h', v', r.ptr, PagesFor(size) * PAGE_SIZE);
      }
    } else {
      ghost var node;
      r, h', v', node, mid, refused := AllocHuge(h, size, v);
      if r.Ok? {
        AccountedHuge(h, v, h', v', r.ptr, node, AlignHuge(size));
      }
    }
  }

  lemma HasChunk(h: State, v: View)
    requires Valid(h, v)
    ensures h.ring != []
  {
    hide LinksOk, HugeLinked, InRange, SpaceOk, LayoutOf, Balanced, Idle, RealTotal;
    LastChunk(h, v);
  }

  /** The size of the block that a request for `size` bytes gets. */
  function BlockSize(size: nat): nat {
    if size <= MAX_SMALL_SIZE then SizeToBinTight(size); BinSize(SizeToBin(size))
    else if size <= MAX_LARGE_SIZE then PagesFor(size) * PAGE_SIZE
    else AlignHuge(size)
  }

  /** zend_mm_size. */
  method SizeOf(h: State, p: Ptr, ghost v: View) returns (size: nat)
    requires Valid(h, v) && p in v.live
    ensures size == v.live[p]
  {
    hide LinksOk, HugeLinked, InRange, SpaceOk, LayoutOf, Balanced, Idle, RealTotal, Small, Large, BinSize;
    if p.off == 0 {
      var i := FindHuge(h.hugeList, p.seg);
      LiveHuge(h, v, p, i);
      size := h.hugeList[i].size;
    } else {
      InfoOf(h, v, p);
      var info := h.chunks[p.seg].map_[p.off / PAGE_SIZE];
      if info.Srun? || info.Nrun? {
        size := BinSize(info.bin);
      } else {
        size := info.pages * PAGE_SIZE;
      }
    }
  }

  lemma UsersWithout(h: State, v: View, h': State, v': View, p: Ptr)
    requires h'.hugeList == h.hugeList && v'.live == v.live - {p}
    ensures Users(h', v') == Users(h, v) - {p}
  {
    hide IsNode;
  }

  /**
   What releasing a block of `bytes` bytes takes from `real_size`: a huge block itself,
   or at most the chunk of a large one.
   */
  ghost predicate Released(h: State, p: Ptr, bytes: nat, h': State) {
    if p.off == 0 then h'.realSize == h.realSize - bytes
    else h'.realSize == h.realSize || (MAX_SMALL_SIZE < bytes && h'.realSize == h.realSize - CHUNK_SIZE)
  }

  /** zend_mm_free_heap: the page map or the huge list decides how. */
  method FreeHeap(h: State, p: Ptr, ghost v: View) returns (h': State, ghost v': View)
    requires Valid(h, v) && p in Users(h, v)
    ensures Valid(h', v') && SameHeap(h, h') && Drift(h', v') == Drift(h, v) && v'.pending == v.pending
    ensures p !in v'.live && Users(h', v') == Users(h, v) - {p} && KeepsOthers(h, v, h', v', Users(h, v) - {p})
    ensures h'.peak == h.peak && p in v.live && Released(h, p, v.live[p], h')
    ensures KeepsCompact(h, v, h', v') && SamePeaks(h, h') && DeletedSince(h, h')
  {
    hide LinksOk, HugeLinked, InRange, SpaceOk, LayoutOf, Balanced, Idle, RealTotal, Small, Large, BinSize, IsNode,
         Sum, Address, Compact, Filled, NoRuns, Unlink, DeletedSince;
    NoneDeleted(h);
    LastChunk(h, v);
    SumRemove(v.live, p);
    if p.off == 0 {
      ghost var node;
      h', v', node := FreeHuge(h, p, v);
      SumRemove(v.live - {p}, node);
      NodeSize(h, v, node);
      UnlistUsers(h, v, h', v', p, node);
      SameRing(h, v, h', v');
      SameDeleted(h, h, h');
    } else {
      InfoOf(h, v, p);
      var info := h.chunks[p.seg].map_[p.off / PAGE_SIZE];
      if info.Srun? || info.Nrun? {
        h', v' := FreeSmall(h, p, info.bin, v);
        SameRing(h, v, h', v');
        SameDeleted(h, h, h');
      } else {
        LargePages(LayoutIn(h, v), p, info.pages);
        h', v' := FreeLarge(h, p, info.pages, v);
      }
      UsersWithout(h, v, h', v', p);
    }
  }

  lemma LargePages(L: Layout, p: Ptr, n: nat)
    requires LayoutOk(L) && Large(L, p, n)
    ensures MAX_SMALL_SIZE < n * PAGE_SIZE
  {
    hide Large, RunsOk;
    LargeFacts(L, p, n);
  }

  lemma NodeSize(h: State, v: View, node: Ptr)
    requires Balanced(LayoutIn(h, v), h.freeSlot, h.hugeList, v.live) && IsNode(h.hugeList, node)
    ensures node in v.live && v.live[node] == BinSize(NODE_BIN)
  {
    hide FreeOk, Complete, Small, BinSize, LiveOk;
    var i :| 0 <= i < |h.hugeList| && h.hugeList[i].node == node;
    assert LiveOk(LayoutIn(h, v), h.hugeList, node, v.live[node]);
    NotDoomed(LayoutIn(h, v), h.hugeList, node, v.live[node], NODE_BIN);
  }

  /** After a huge block and its element are gone, the other elements are the elements there were. */
  lemma UnlistUsers(h: State, v: View, h': State, v': View, p: Ptr, node: Ptr)
    requires v'.live == v.live - {p} - {node} && IsNode(h.hugeList, node)
    requires forall q :: IsNode(h'.hugeList, q) ==> IsNode(h.hugeList, q)
    requires forall q :: IsNode(h.hugeList, q) && q != node ==> IsNode(h'.hugeList, q)
    ensures Users(h', v') == Users(h, v) - {p}
  {
    hide IsNode;
  }
}

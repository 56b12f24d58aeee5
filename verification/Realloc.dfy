/**
 Reallocation: in place, to another bin, with fewer or more pages, by
 truncating or extending a mapping, and by allocating, copying and freeing.
 */
module Realloc {
  import opened Basics
  import opened Bitset
  import opened Bins
  import opened PageInfo
  import opened Chunks
  import opened Blocks
  import opened Ledger
  import opened Memory
  import opened Collector
  import opened Space
  import opened Heap
  import opened Allocator

  function Copy(mem: Bytes, dst: nat, src: nat, n: nat): Bytes {
    (a: nat) => if dst <= a < dst + n then mem(a - dst + src) else mem(a)
  }

  /** The first `n` bytes at `q` are what the first `n` bytes at `p` were. */
  ghost predicate SameBytes(mem: Bytes, p: Ptr, mem': Bytes, q: Ptr, n: nat) {
    forall k: nat :: k < n ==> ByteAt(mem', q, k) == ByteAt(mem, p, k)
  }

  /** `size` is exactly what the bin below that of a block of `bytes` bytes holds. */
  ghost predicate JustBelow(bytes: nat, size: nat) {
    exists b: nat :: 0 < b < BINS && bytes == BinSize(b) && size == BinSize(b - 1)
  }

  /** A block of `bytes` bytes gets the size class of `size`; only a slot just one bin too large may stay. */
  ghost predicate NewSize(bytes: nat, size: nat, stays: bool, bytes': nat) {
    bytes' == BlockSize(size) || (stays && bytes' == bytes && JustBelow(bytes, size))
  }

  /** The block at `p` is now the block at `q`: at least `size` bytes, the first `kept` of them as before. */
  ghost predicate Reallocated(h: State, v: View, h': State, v': View, p: Ptr, q: Ptr, size: nat, kept: nat) {
    && Valid(h', v') && SameHeap(h, h') && Drift(h', v') == Drift(h, v) && v'.pending == v.pending
    && Users(h', v') == Users(h, v) - {p} + {q} && LimitKept(h, size, h') && (q == p ==> KeepsLimit(h, h'))
    && q in v'.live && size <= v'.live[q] && (p in v.live ==> NewSize(v.live[p], size, q == p, v'.live[q]))
    && KeepsCompact(h, v, h', v') && (q == p ==> PeaksSeen(h, h'))
    && KeepsOthers(h, v, h', v', Users(h, v) - {p})
    && SameBytes(h.mem, p, h'.mem, q, kept)
  }

  /** A failed reallocation leaves every block and its bytes; the count of a failed allocation may stay. */
  ghost predicate Unchanged(h: State, v: View, h': State, v': View) {
    NoBlock(h, v, h', v', Drift(h', v') - Drift(h, v)) && Drift(h, v) <= Drift(h', v')
  }

  /** Writing the new block leaves the old one and all others. */
  lemma CopyKeeps(h: State, v: View, q: Ptr, src: nat, n: nat, h': State)
    requires Valid(h, v) && q in Users(h, v) && q in v.live && n <= v.live[q]
             && h' == h.(mem := Copy(h.mem, Address(q), src, n))
    ensures BytesKept(h.mem, h'.mem, v.live - {q}) && Valid(h', v)
  {
    hide LinksOk, HugeLinked, InRange, SpaceOk, LayoutOf, Balanced, Idle, RealTotal, Address, IsNode;
    SpaceApart(h, v);
    WriteInside(LayoutIn(h, v), h.freeSlot, h.hugeList, v.live, q, Address(q), n, h.mem, h'.mem);
    HugeKeptBut(LayoutIn(h, v), h.freeSlot, h.hugeList, v.live, h.mem, h'.mem, q);
  }

  /** The heap is as after allocating `q`, with memory `mem`, except for the `n` bytes copied from `p`. */
  ghost predicate CopiedOver(h: State, v: View, mem: Bytes, h': State, v': View, p: Ptr, q: Ptr, n: nat, bytes: nat) {
    NewBlock(h, v, h'.(mem := mem), v', q, bytes) && h'.mem == Copy(mem, Address(q), Address(p), n)
  }

  /** memcpy of `n` bytes into a block for `size` bytes that has fewer: the bytes behind it are overwritten too. */
  ghost predicate Overwritten(h: State, v: View, h': State, v': View, p: Ptr, q: Ptr, n: nat, size: nat) {
    && BlockSize(size) < n && SameBytes(h.mem, p, h'.mem, q, n) && FirstOfRun(h, size, q)
    && exists mem: Bytes :: CopiedOver(h, v, mem, h', v', p, q, n, BlockSize(size))
  }

  /**
   A move on its way: the heap in which a huge block was mapped, the heap before the old
   block is released, and whether the system has refused a mapping or to extend one.
   */
  datatype Moving = Moving(mid: State, top: State, refused: bool, stuck: bool)

  /** On the way the limit is exceeded exactly as by the allocation; then the old block of `bytes` bytes goes. */
  ghost predicate MoveLimit(h: State, p: Ptr, bytes: nat, size: nat, m: Moving, h': State) {
    && h'.limit == m.top.limit == h.limit && Released(m.top, p, bytes, h') && NearLimit(h, m.top)
    && PeaksSeen(h, m.top) && SamePeaks(m.top, h')
    && (MAX_LARGE_SIZE < size && Limited(h) && !h.overflow ==>
          !m.top.overflow && LimitExact(h, AlignHuge(size), m.mid, m.refused, m.top))
  }

  /**
   A small block moved to a huge one leaves the limit exceeded exactly when the new list element
   does, a large block when besides its chunk is not given back, and a block of a chunk or more never.
   */
  lemma MoveExact(h: State, p: Ptr, bytes: nat, size: nat, m: Moving, h': State)
    requires MoveLimit(h, p, bytes, size, m, h') && MAX_LARGE_SIZE < size && Limited(h) && !h.overflow && !m.refused
    ensures p.off != 0 ==>
              (h'.limit < h'.realSize <==> NodeExceeds(m.mid, AlignHuge(size)) && h'.realSize == m.top.realSize)
    ensures p.off != 0 && bytes <= MAX_SMALL_SIZE ==> (h'.limit < h'.realSize <==> NodeExceeds(m.mid, AlignHuge(size)))
    ensures p.off == 0 && CHUNK_SIZE <= bytes ==> h'.realSize <= h'.limit
  {
    hide NodeExceeds, AlignHuge, Headroom;
  }

  /** A request fails only when its size wraps around or when nothing is left to collect. */
  ghost predicate GaveUp(size: nat, h': State, v': View) {
    (MAX_LARGE_SIZE < size && AlignHuge(size) < size) || Settled(h', v')
  }

  /**
   Allocate, copy, free: zend_mm_realloc_slow, and the bin changes of
   zend_mm_realloc_heap.  A copy that does not fit the new block is where this ends.
   */
  method MoveBlock(h: State, p: Ptr, size: nat, copySize: nat, restorePeak: bool, ghost v: View)
    returns (r: Outcome, overrun: bool, h': State, ghost v': View, ghost move: Moving)
    requires Valid(h, v) && p in Users(h, v) && size < SIZE_T && p in v.live && copySize <= v.live[p]
    ensures r.Ok? ==> (overrun <==> copySize > BlockSize(size)) && size <= BlockSize(size)
    ensures r.Ok? && !overrun ==> Reallocated(h, v, h', v', p, r.ptr, size, copySize) && r.ptr != p
    ensures r.Ok? && overrun ==> Overwritten(h, v, h', v', p, r.ptr, copySize, size) && r.ptr != p
    ensures r.Ok? && !overrun ==> MoveLimit(h, p, v.live[p], size, move, h')
    ensures r.Ok? && !overrun ==> h'.peak == Max(h.peak, if restorePeak then h'.size else move.top.size)
    ensures r.Ok? && size <= MAX_LARGE_SIZE ==> move.top.size == h.size + BlockSize(size)
    ensures Served(h, size) && !move.refused ==> r.Ok?
    ensures r.Bailout? ==> Unchanged(h, v, h', v') && GaveUp(size, h', v')
    ensures r.MainLost? ==> h.ring != [] && Loose(v.live, h.ring[0])
  {
    hide Valid, Users, Sum, Address, BlockSize, BlockKept, SameBytes, BytesKept, LimitExact, NoMoreSlots, TotalFree,
         FirstOfRun, Copy, AlignHuge, Served, Settled, Compact, JustBelow;
    var h1;
    ghost var v1, mid, refused;
    overrun := false;
    UsersLive(h, v);
    r, h1, v1, mid, refused := AllocHeap(h, size, v);
    move := Moving(mid, h1, refused, false);
    if !r.Ok? {
      return r, overrun, h1, v1, move;
    }
    var q := r.ptr;
    UsersLive(h1, v1);
    var h2 := h1.(mem := Copy(h1.mem, Address(q), Address(p), copySize));
    overrun := copySize > BlockSize(size);
    if overrun {
      CopiedBytes(h.mem, h1.mem, h2.mem, p, q, copySize, v.live[p]);
      assert h2.(mem := h1.mem) == h1;
      assert CopiedOver(h, v, h1.mem, h2, v1, p, q, copySize, BlockSize(size));
      return r, overrun, h2, v1, move;
    }
    CopyKeeps(h1, v1, q, Address(p), copySize, h2);
    SameView(h1, h2, v1);
    SameRing(h1, v1, h2, v1);
    h', v' := FreeHeap(h2, p, v1);
    UsersLive(h', v');
    MovedBytes(h.mem, h1.mem, h2.mem, h'.mem, p, q, copySize, v.live[p], v1.live[q]);
    MovedOthers(h, v, h1, v1, h2, h', v', p, q);
    if restorePeak {
      ghost var h3 := h';
      h' := h'.(peak := Max(h.peak, h'.size));
      SameView(h3, h', v');
      SameRing(h3, v', h', v');
    }
    assert Users(h', v') == Users(h, v) - {p} + {q};
  }

  /** A live block right behind the new one loses its first byte to such a copy, unless the byte copied is the same. */
  lemma OverrunHits(h: State, v: View, h': State, v': View, p: Ptr, q: Ptr, n: nat, size: nat, x: Ptr)
    requires Overwritten(h, v, h', v', p, q, n, size) && x in v.live && 0 < v.live[x]
    requires Address(x) == Address(q) + BlockSize(size) && ByteAt(h.mem, x, 0) != ByteAt(h.mem, p, BlockSize(size))
    ensures !BytesKept(h.mem, h'.mem, v.live)
  {
    hide Address, BlockSize, CopiedOver, FirstOfRun;
    assert ByteAt(h'.mem, q, BlockSize(size)) == ByteAt(h.mem, p, BlockSize(size));
    assert h'.mem(Address(x)) != h.mem(Address(x));
    assert !BlockKept(h.mem, h'.mem, x, v.live[x]);
  }

  lemma UsersLive(h: State, v: View)
    ensures forall p :: p in Users(h, v) ==> p in v.live
  {
  }

  /** The peak is no part of the ledgers, nor is what blocks hold. */
  lemma SameView(h: State, h': State, v: View)
    requires h' == h.(mem := h'.mem, peak := h'.peak)
    ensures h'.mem == h.mem ==> Valid(h', v) == Valid(h, v)
    ensures Users(h', v) == Users(h, v) && Drift(h', v) == Drift(h, v)
  {
    hide LinksOk, HugeLinked, InRange, SpaceOk, LayoutOf, Balanced, Idle, RealTotal, IsNode, Sum;
  }

  lemma CopiedAt(mem: Bytes, dst: nat, src: nat, n: nat, k: nat)
    requires k < n
    ensures Copy(mem, dst, src, n)(dst + k) == mem(src + k)
  {
  }

  lemma KeptAt(mem: Bytes, mem': Bytes, p: Ptr, n: nat, k: nat)
    requires BlockKept(mem, mem', p, n) && k < n
    ensures ByteAt(mem', p, k) == ByteAt(mem, p, k)
  {
    hide Address;
  }

  lemma CopiedBytes(mem: Bytes, mem1: Bytes, mem2: Bytes, p: Ptr, q: Ptr, n: nat, from: nat)
    requires n <= from && BlockKept(mem, mem1, p, from) && mem2 == Copy(mem1, Address(q), Address(p), n)
    ensures SameBytes(mem, p, mem2, q, n)
  {
    hide Address, BlockKept, Copy;
    forall k: nat | k < n ensures ByteAt(mem2, q, k) == ByteAt(mem, p, k) {
      KeptAt(mem, mem1, p, from, k);
      CopiedAt(mem1, Address(q), Address(p), n, k);
    }
  }

  /** What a block holds travels with the copy. */
  lemma MovedBytes(mem: Bytes, mem1: Bytes, mem2: Bytes, mem': Bytes, p: Ptr, q: Ptr, n: nat, from: nat, to: nat)
    requires n <= from && n <= to && BlockKept(mem, mem1, p, from) && mem2 == Copy(mem1, Address(q), Address(p), n)
    requires BlockKept(mem2, mem', q, to)
    ensures SameBytes(mem, p, mem', q, n)
  {
    hide Address, BlockKept, Copy, ByteAt;
    CopiedBytes(mem, mem1, mem2, p, q, n, from);
    forall k: nat | k < n ensures ByteAt(mem', q, k) == ByteAt(mem, p, k) {
      KeptAt(mem2, mem', q, to, k);
    }
  }

  /** Bytes kept before and bytes kept after are bytes kept. */
  lemma SameBytesAfter(mem: Bytes, mem1: Bytes, mem': Bytes, p: Ptr, q: Ptr, n: nat, from: nat)
    requires BlockKept(mem, mem1, p, from) && n <= from && SameBytes(mem1, p, mem', q, n)
    ensures SameBytes(mem, p, mem', q, n)
  {
    hide BlockKept, ByteAt;
    forall k: nat | k < n ensures ByteAt(mem', q, k) == ByteAt(mem, p, k) {
      KeptAt(mem, mem1, p, from, k);
    }
  }

  lemma FewerBytes(h: State, v: View, h': State, v': View, p: Ptr, q: Ptr, size: nat, kept: nat, fewer: nat)
    requires Reallocated(h, v, h', v', p, q, size, kept) && fewer <= kept
    ensures Reallocated(h, v, h', v', p, q, size, fewer)
  {
    hide Valid, Users, KeepsOthers, Sum, ByteAt;
  }

  lemma KeptAfter(mem: Bytes, mem1: Bytes, mem2: Bytes, mem': Bytes, p: Ptr, n: nat)
    requires BlockKept(mem, mem1, p, n) && BlockKept(mem1, mem2, p, n) && BlockKept(mem2, mem', p, n)
    ensures BlockKept(mem, mem', p, n)
  {
    hide Address;
  }

  lemma MovedOthers(h: State, v: View, h1: State, v1: View, h2: State, h': State, v': View, p: Ptr, q: Ptr)
    requires p in v.live && q !in v.live && q in v1.live && p in Users(h, v)
    requires KeepsOthers(h, v, h1, v1, v.live.Keys) && BytesKept(h1.mem, h2.mem, v1.live - {q})
    requires Users(h2, v1) == Users(h, v) + {q} && KeepsOthers(h2, v1, h', v', Users(h2, v1) - {p})
    ensures KeepsOthers(h, v, h', v', Users(h, v) - {p})
  {
    hide Users, BlockKept;
    UsersLive(h, v);
    forall x | x in Users(h, v) - {p}
      ensures x in v.live && x in v'.live && v'.live[x] == v.live[x] && BlockKept(h.mem, h'.mem, x, v.live[x])
    {
      assert x in Users(h2, v1) - {p} && x in v.live.Keys && x in v1.live - {q};
      KeptAfter(h.mem, h1.mem, h2.mem, h'.mem, x, v.live[x]);
    }
  }

  // ------------------------------------------------------------------ in place

  /** A block that stays where it is keeps its bytes, and all other blocks keep theirs. */
  lemma InPlace(h: State, v: View, h': State, v': View, p: Ptr, bytes: nat, size: nat, kept: nat)
    requires Valid(h, v) && p in Users(h, v) && Valid(h', v') && SameHeap(h, h') && v'.pending == v.pending
             && KeepsLimit(h, h') && KeepsCompact(h, v, h', v') && PeaksSeen(h, h')
    requires v'.live == v.live[p := bytes] && size <= bytes && h'.mem == h.mem
    requires p in v.live && NewSize(v.live[p], size, true, bytes)
    requires forall q :: IsNode(h'.hugeList, q) <==> IsNode(h.hugeList, q)
    requires h'.size == h.size - v.live[p] + bytes
    ensures Reallocated(h, v, h', v', p, p, size, kept)
  {
    hide Valid, IsNode, Sum, SameHeap, Address, NewSize, Compact;
    SumChange(v.live, p, bytes);
    assert Users(h', v') == Users(h, v);
    assert Users(h, v) - {p} + {p} == Users(h, v);
  }

  /** The same when list elements have been written. */
  lemma HugeInPlace(h: State, v: View, h': State, v': View, p: Ptr, bytes: nat, size: nat, kept: nat)
    requires Valid(h, v) && p in Users(h, v) && Valid(h', v') && SameHeap(h, h') && v'.pending == v.pending
             && KeepsLimit(h, h') && KeepsCompact(h, v, h', v') && PeaksSeen(h, h')
    requires v'.live == v.live[p := bytes] && size <= bytes && kept <= v.live[p]
    requires p in v.live && NewSize(v.live[p], size, true, bytes)
    requires forall q :: q in v.live && !IsNode(h.hugeList, q) ==> BlockKept(h.mem, h'.mem, q, v.live[q])
    requires forall q :: IsNode(h'.hugeList, q) <==> IsNode(h.hugeList, q)
    requires h'.size == h.size - v.live[p] + bytes
    ensures Reallocated(h, v, h', v', p, p, size, kept)
  {
    hide Valid, IsNode, Sum, SameHeap, BlockKept, ByteAt, NewSize, Compact;
    SumChange(v.live, p, bytes);
    assert Users(h', v') == Users(h, v);
    assert Users(h, v) - {p} + {p} == Users(h, v);
    forall k: nat | k < kept ensures ByteAt(h'.mem, p, k) == ByteAt(h.mem, p, k) {
      KeptAt(h.mem, h'.mem, p, v.live[p], k);
    }
  }

  // -------------------------------------------------------------- large blocks

  lemma ResizeIdle(L: Layout, s: nat, page: nat, k: nat, r: RunMap)
    requires LayoutOk(L) && Idle(L) && s in L && RunsOk(r) && page < PAGES && r.map_ == L[s].map_[page := Lrun(k)]
    requires L[s].owner[page] == page && L[s].map_[page].Lrun?
    requires forall h :: 0 <= h < PAGES && r.owner[h] == h ==> h == page || L[s].owner[h] == h
    ensures LayoutOk(L[s := r]) && Idle(L[s := r])
  {
    forall h, b: nat | SmallHead(r, h, b) ensures r.map_[h].counter == 0 {
      assert SmallHead(L[s], h, b);
    }
  }

  /** The page map and the ledger after the run at `p` has got `k` pages instead of `n`. */
  lemma ResizeLarge(h: State, v: View, p: Ptr, n: nat, k: nat, c: Chunk, owner: seq<int>, h': State, v': View)
    requires Valid(h, v) && LayoutOk(LayoutIn(h, v)) && Large(LayoutIn(h, v), p, n) && k != n && 1 <= k
    requires p.seg in h.ring && p.seg in v.owners && p.seg in h.chunks && |h.chunks[p.seg].map_| == PAGES
             && |v.owners[p.seg]| == PAGES
    requires var page := p.off / PAGE_SIZE;
             && page + k <= PAGES && page + n <= PAGES && Runs(c, owner)
             && c.map_ == h.chunks[p.seg].map_[page := Lrun(k)]
             && (k < n ==> owner == Filled(v.owners[p.seg], page + k, n - k, -1))
             && (n < k ==> owner == Filled(v.owners[p.seg], page + n, k - n, page)
                           && forall q :: page + n <= q < page + k ==> v.owners[p.seg][q] == -1)
    requires h' == h.(chunks := h.chunks[p.seg := c], size := h'.size, peak := h'.peak)
    requires v' == v.(owners := v.owners[p.seg := owner], live := v.live[p := k * PAGE_SIZE])
    ensures Valid(h', v')
  {
    hide LinksOk, HugeLinked, InRange, SpaceOk, LayoutOf, Balanced, Idle, RealTotal, Runs, RunsOk, Large;
    var L := LayoutIn(h, v);
    LargeFacts(L, p, n);
    LayoutEntry(h, v, p.seg);
    StoreChunk(h, v, p.seg, c, owner, h.(chunks := h'.chunks), v.(owners := v'.owners));
    RunsRunMap(c, owner);
    ResizeRun(L, h.freeSlot, h.hugeList, v.live, p, n, k, RunMap(c.map_, owner));
    ResizeIdle(L, p.seg, p.off / PAGE_SIZE, k, RunMap(c.map_, owner));
  }

  lemma PagesForSize(size: nat, n: nat)
    ensures size <= PagesFor(size) * PAGE_SIZE && (PagesFor(size) <= n <==> size <= n * PAGE_SIZE)
    ensures size > 0 ==> PagesFor(size) >= 1
  {
  }

  /** The pages behind the run at `p` that it needs to grow from `n` to `k` pages exist and are free. */
  ghost predicate RoomBehind(h: State, p: Ptr, n: nat, k: nat) {
    && p.seg in h.chunks && |h.chunks[p.seg].freeMap| == 8 && n < k && p.off / PAGE_SIZE + k <= PAGES
    && RangeFree(Used(h.chunks[p.seg]), p.off / PAGE_SIZE + n, k - n)
  }

  /** Freeing the tail pages of a large block. */
  method ShrinkInPlace(h: State, p: Ptr, n: nat, k: nat, size: nat, ghost kept: nat, ghost v: View)
    returns (h': State, ghost v': View)
    requires Valid(h, v) && p in Users(h, v) && LayoutOk(LayoutIn(h, v)) && Large(LayoutIn(h, v), p, n)
    requires p in v.live && v.live[p] == n * PAGE_SIZE && 1 <= k < n && size <= k * PAGE_SIZE == BlockSize(size)
    ensures Reallocated(h, v, h', v', p, p, size, kept) && v'.live == v.live[p := k * PAGE_SIZE]
    ensures h'.peak == h.peak && h'.size <= h.size
  {
    hide Valid, Large, Runs, Reallocated, IsNode, Users, LayoutIn, Compact, BlockSize;
    LargeChunk(h, v, p, n);
    HasChunk(h, v);
    var s, page := p.seg, p.off / PAGE_SIZE;
    var c, owner := ShrinkPages(h.chunks[s], page, n, k, v.owners[s]);
    h' := h.(size := h.size - (n - k) * PAGE_SIZE, chunks := h.chunks[s := c]);
    v' := v.(owners := v.owners[s := owner], live := v.live[p := k * PAGE_SIZE]);
    ResizeLarge(h, v, p, n, k, c, owner, h', v');
    NothingSeen(h, h', v');
    CompactHead(h, v, s, owner, page, h', v');
    InPlace(h, v, h', v', p, k * PAGE_SIZE, size, kept);
  }

  /** A chunk in which a run starts at `page` is not empty. */
  lemma CompactHead(h: State, v: View, s: nat, owner: seq<int>, page: nat, h': State, v': View)
    requires h'.ring == h.ring && v'.owners == v.owners[s := owner]
    requires 1 <= page < PAGES && |owner| == PAGES && owner[page] == page
    ensures KeepsCompact(h, v, h', v')
  {
    assert owner != NoRuns() by { assert NoRuns()[page] == -1; }
  }

  /** Taking the pages behind a large block, if they are free. */
  method GrowInPlace(h: State, p: Ptr, n: nat, k: nat, size: nat, ghost kept: nat, ghost v: View)
    returns (done: bool, h': State, ghost v': View)
    requires Valid(h, v) && p in Users(h, v) && LayoutOk(LayoutIn(h, v)) && Large(LayoutIn(h, v), p, n)
    requires p in v.live && v.live[p] == n * PAGE_SIZE && n < k && size <= k * PAGE_SIZE == BlockSize(size)
    ensures h'.peak == if done then Max(h.peak, h'.size) else h.peak
    ensures done <==> RoomBehind(h, p, n, k)
    ensures done ==> Reallocated(h, v, h', v', p, p, size, kept) && v'.live == v.live[p := k * PAGE_SIZE]
    ensures !done ==> h' == h && v' == v
  {
    hide Valid, Large, Runs, Reallocated, IsNode, Users, LayoutIn, RangeFree, Compact, BlockSize;
    LargeChunk(h, v, p, n);
    HasChunk(h, v);
    var s, page := p.seg, p.off / PAGE_SIZE;
    var c;
    ghost var owner;
    done, c, owner := GrowPages(h.chunks[s], page, n, k, v.owners[s]);
    h', v' := h, v;
    if done {
      var total := h.size + (k * PAGE_SIZE - n * PAGE_SIZE);
      h' := h.(size := total, peak := Max(h.peak, total), chunks := h.chunks[s := c]);
      v' := v.(owners := v.owners[s := owner], live := v.live[p := k * PAGE_SIZE]);
      ResizeLarge(h, v, p, n, k, c, owner, h', v');
      NothingSeen(h, h', v');
      CompactHead(h, v, s, owner, page, h', v');
      InPlace(h, v, h', v', p, k * PAGE_SIZE, size, kept);
    }
  }

  /** Large blocks in zend_mm_realloc_heap: the same pages, fewer, or more where those behind are free. */
  method ResizeInPlace(h: State, p: Ptr, n: nat, size: nat, ghost kept: nat, ghost v: View)
    returns (done: bool, h': State, ghost v': View)
    requires Valid(h, v) && p in Users(h, v) && LayoutOk(LayoutIn(h, v)) && Large(LayoutIn(h, v), p, n)
    requires v.live[p] == n * PAGE_SIZE && MAX_SMALL_SIZE < size <= MAX_LARGE_SIZE
    ensures done <==> size <= v.live[p] || RoomBehind(h, p, n, PagesFor(size))
    ensures done ==> Reallocated(h, v, h', v', p, p, size, kept) && v'.live == v.live[p := PagesFor(size) * PAGE_SIZE]
    ensures !done ==> h' == h && v' == v
    ensures done && h.size <= h.peak ==> h'.peak == Max(h.peak, h'.size)
  {
    hide Valid, Large, Reallocated, IsNode, Users, LayoutIn, RoomBehind, PagesFor, Compact;
    UsersLive(h, v);
    HasChunk(h, v);
    PagesForSize(size, n);
    var k := PagesFor(size);
    done := true;
    if k == n {
      assert v.live[p := k * PAGE_SIZE] == v.live;
      NothingSeen(h, h, v);
      InPlace(h, v, h, v, p, k * PAGE_SIZE, size, kept);
      h', v' := h, v;
    } else if k < n {
      h', v' := ShrinkInPlace(h, p, n, k, size, kept, v);
    } else {
      done, h', v' := GrowInPlace(h, p, n, k, size, kept, v);
    }
  }

  // --------------------------------------------------------------- huge blocks

  /** Rounding `size` up to pages wraps around to 0 in size_t: zend_mm_realloc_huge has no check for it. */
  predicate Wraps(size: nat) {
    SIZE_T - PAGE_SIZE < size < SIZE_T
  }

  lemma AlignedSize(size: nat)
    requires size < SIZE_T
    ensures AlignHuge(size) == 0 <==> size == 0 || Wraps(size)
    ensures !Wraps(size) ==> size <= AlignHuge(size) < size + PAGE_SIZE && AlignHuge(size) % PAGE_SIZE == 0
  {
  }

  /** The sizes a block can have: those of the bins and whole pages. */
  ghost predicate BlockSizes(bytes: nat) {
    (exists b :: 0 <= b < BINS && bytes == BinSize(b)) || (0 < bytes && bytes % PAGE_SIZE == 0)
  }

  /** A request gets the smallest of these that is large enough. */
  lemma SmallestBlock(size: nat)
    requires size < SIZE_T && !Wraps(size)
    ensures BlockSizes(BlockSize(size)) && size <= BlockSize(size)
    ensures forall bytes: nat :: BlockSizes(bytes) && size <= bytes ==> BlockSize(size) <= bytes
  {
    hide BinSize, SizeToBin;
    if size <= MAX_SMALL_SIZE {
      SizeToBinTight(size);
      BinFacts(SizeToBin(size));
    } else {
      AlignedSize(size);
    }
    forall bytes: nat | BlockSizes(bytes) && size <= bytes ensures BlockSize(size) <= bytes {
      if b :| 0 <= b < BINS && bytes == BinSize(b) {
        SmallestBin(size, b);
      } else if MAX_SMALL_SIZE < size {
        WholePages(BlockSize(size), size, bytes);
      }
    }
  }

  lemma SmallestBin(size: nat, b: nat)
    requires b < BINS && size <= BinSize(b)
    ensures size <= MAX_SMALL_SIZE && BlockSize(size) <= BinSize(b)
  {
    hide BinSize, SizeToBin;
    BinFacts(b);
    SizeToBinTight(size);
    var least := SizeToBin(size);
    if b < least - 1 {
      BinSizeOrder(b, least - 1);
    } else if least < b {
      BinSizeOrder(least, b);
    }
  }

  /** Whole pages below another number of whole pages are so by a page. */
  lemma WholePages(least: nat, size: nat, bytes: nat)
    requires least % PAGE_SIZE == 0 && bytes % PAGE_SIZE == 0 && least < size + PAGE_SIZE && size <= bytes
    ensures least <= bytes
  {
  }

  /** zend_mm_chunk_extend: the system may map more right behind a mapping, where nothing is mapped. */
  method OsExtend(mapped: set<nat>, seg: nat, bytes: nat, more: nat) returns (ok: bool, mapped': set<nat>)
    ensures ok ==> mapped !! (Segments(seg, more) - Segments(seg, bytes)) && mapped' == mapped + Segments(seg, more)
    ensures ok && InRange(mapped) ==> InRange(mapped')
    ensures !ok ==> mapped' == mapped
  {
    ok, mapped' := false, mapped;
    if * {
      return;
    }
    if seg + Span(more) <= SEGMENTS && mapped !! (Segments(seg, more) - Segments(seg, bytes)) {
      ok, mapped' := true, mapped + Segments(seg, more);
    }
  }

  /** The state after the size of the `i`-th huge block has been changed and accounted for. */
  function Resized(h: State, i: nat, bytes: nat, mapped: set<nat>): State
    requires i < |h.hugeList|
  {
    var x := h.hugeList[i];
    h.(hugeList := h.hugeList[i := x.(size := bytes)], mem := WriteField(h.mem, x.node, 1, bytes), mapped := mapped,
       realSize := h.realSize - x.size + bytes, size := h.size - x.size + bytes)
  }

  lemma SameNodes(huge: seq<Huge>, i: nat, size: nat)
    requires i < |huge|
    ensures forall q :: IsNode(huge[i := huge[i].(size := size)], q) <==> IsNode(huge, q)
  {
    var huge' := huge[i := huge[i].(size := size)];
    assert forall k :: 0 <= k < |huge| ==> huge'[k].node == huge[k].node;
    forall q ensures IsNode(huge', q) <==> IsNode(huge, q) {
      if IsNode(huge, q) {
        var k :| 0 <= k < |huge| && huge[k].node == q;
        assert huge'[k].node == q;
      }
    }
  }

  /** Truncating or extending a mapping in place keeps the heap in order. */
  lemma ResizedValid(h: State, v: View, i: nat, bytes: nat, mapped: set<nat>, h': State, v': View)
    requires Valid(h, v) && i < |h.hugeList| && 0 < bytes
    requires bytes <= h.hugeList[i].size ==>
               mapped == h.mapped - (Segments(h.hugeList[i].seg, h.hugeList[i].size) - Segments(h.hugeList[i].seg,
                   bytes))
    requires bytes > h.hugeList[i].size ==>
               && h.mapped !! (Segments(h.hugeList[i].seg, bytes) - Segments(h.hugeList[i].seg, h.hugeList[i].size))
               && mapped == h.mapped + Segments(h.hugeList[i].seg, bytes)
    requires h' == Resized(h, i, bytes, mapped).(peak := h'.peak, realPeak := h'.realPeak)
    requires h'.realSize <= h'.realPeak && v' == v.(live := v.live[Ptr(h.hugeList[i].seg, 0) := bytes])
             && InRange(mapped)
    ensures Valid(h', v')
    ensures forall q :: q in v.live && !IsNode(h.hugeList, q) ==> BlockKept(h.mem, h'.mem, q, v.live[q])
  {
    hide LinksOk, HugeLinked, InRange, RingOk, CacheOk, LayoutOf, Idle, Balanced, Segments, WriteField, BlockKept,
         IsNode, Apart;
    SpaceApart(h, v);
    ResizeElement(LayoutIn(h, v), h.freeSlot, h.hugeList, v.live, i, bytes, h.mem, h'.mem);
    ResizeHuge(LayoutIn(h, v), h.freeSlot, h.hugeList, v.live, i, bytes);
    SumUpdate(h.hugeList, i, bytes);
    var all, all' := Mappings(h, v), Mappings(h', v');
    assert all[i] == h.hugeList[i];
    assert all' == all[i := all[i].(size := bytes)];
    assert SegmentsOk(h.ring, h.cached, all', h'.mapped) by {
      hide *;
      if bytes <= all[i].size {
        TruncateMapping(h.ring, h.cached, all, i, h.mapped, bytes);
      } else {
        ExtendMapping(h.ring, h.cached, all, i, h.mapped, bytes);
      }
    }
  }

  lemma ReallocAfter(h: State, v: View, h1: State, v1: View, h': State, v': View, p: Ptr, q: Ptr, size: nat, kept: nat)
    requires SameBlocks(h, v, h1, v1) && SamePeaks(h, h1) && p in v.live && kept <= v.live[p]
    ensures Users(h1, v1) == Users(h, v)
    ensures Valid(h1, v1) ==> Unchanged(h, v, h1, v1)
    ensures Reallocated(h1, v1, h', v', p, q, size, kept) ==> Reallocated(h, v, h', v', p, q, size, kept)
    ensures Unchanged(h1, v1, h', v') ==> Unchanged(h, v, h', v')
  {
    hide Valid, IsNode, Sum, SameBytes, BlockKept, Compact, NewSize;
    UsersLive(h, v);
    if Valid(h1, v1) {
      NothingSeen(h, h1, v1);
    }
    if Reallocated(h1, v1, h', v', p, q, size, kept) {
      assert BlockKept(h.mem, h1.mem, p, v.live[p]);
      SameBytesAfter(h.mem, h1.mem, h'.mem, p, q, kept, v.live[p]);
      forall x | x in Users(h, v) - {p} ensures BlockKept(h.mem, h'.mem, x, v.live[x]) {
        assert BlockKept(h.mem, h1.mem, x, v.live[x]) && BlockKept(h1.mem, h'.mem, x, v1.live[x]);
        KeptTwice(h.mem, h1.mem, h'.mem, x, v.live[x]);
      }
    }
    if Unchanged(h1, v1, h', v') {
      KeptTrans(h.mem, h1.mem, h'.mem, v.live);
    }
  }

  lemma PeakFacts(h: State, v: View)
    requires Valid(h, v)
    ensures h.realSize <= h.realPeak && h.ring != []
  {
    hide LinksOk, HugeLinked, InRange, SpaceOk, LayoutOf, Idle, RealTotal, Balanced;
    LastChunk(h, v);
  }

  lemma ListedHuge(h: State, v: View, p: Ptr, i: nat)
    requires Valid(h, v) && p in v.live && p.off == 0 && i <= |h.hugeList|
    requires i < |h.hugeList| ==> h.hugeList[i].seg == p.seg
    requires forall j :: 0 <= j < i ==> h.hugeList[j].seg != p.seg
    ensures i < |h.hugeList| && v.live[p] == h.hugeList[i].size && h.hugeList[i].seg == p.seg && p == Ptr(p.seg, 0)
    ensures 0 < v.live[p]
  {
    hide LinksOk, HugeLinked, InRange, RingOk, CacheOk, Apart, LayoutOf, Idle, RealTotal, Balanced, Small;
    assert i < |h.hugeList| ==> Mappings(h, v)[i] == h.hugeList[i];
    LiveHuge(h, v, p, i);
  }

  /** Making room within the limit for extending a huge block. */
  method RoomToExtend(h: State, bytes: nat, ghost v: View) returns (status: Status, h': State, ghost v': View)
    requires Valid(h, v)
    ensures status.Lost? ==> h.ring != [] && Loose(v.live, h.ring[0])
    ensures !status.Lost? ==> Valid(h', v') && SameBlocks(h, v, h', v') && SamePeaks(h, h')
    ensures status.Failed? ==> Settled(h', v')
    ensures status.Failed? && Compact(h, v) ==> !h'.overflow && Headroom(h') < bytes
    ensures bytes <= Headroom(h) ==> status.Done?
    ensures status.Done? ==> KeepsLimit(h', h'.(realSize := h'.realSize + bytes))
    ensures bytes <= Headroom(h) ==> h' == h && v' == v
  {
    hide Valid, Headroom, Compact, Settled;
    SameBlocksRefl(h, v);
    h', v' := h, v;
    if bytes > Headroom(h) {
      var lost, collected;
      h', v', lost, collected := Collect(h, v);
      if lost {
        return Lost, h', v';
      }
      if !(collected > 0 && bytes <= Headroom(h')) && !h'.overflow {
        SameHeadroom(h, h');
        return Failed, h', v';
      }
    }
    HeadroomFits(h', v', bytes);
    status := Done;
  }

  /**
   The slow copy takes more bytes than the new block has: a large block made
   small, or a huge one made small or large, with a copy size beyond the new block.
   */
  predicate Overruns(p: Ptr, bytes: nat, size: nat, copySize: nat) {
    && (if p.off == 0 then size <= MAX_LARGE_SIZE else size <= MAX_SMALL_SIZE < bytes)
    && Min(bytes, copySize) > BlockSize(size)
  }

  /** How many bytes reallocation promises to keep. */
  function Promised(bytes: nat, size: nat, copySize: nat): nat {
    Min(bytes, Min(size, copySize))
  }

  /**
   A mapping is kept, truncated or extended; `done` says that the block stays, and `stuck`
   that the system would not extend it.
   */
  method ResizeMapping(h: State, p: Ptr, i: nat, size: nat, ghost kept: nat, ghost v: View)
    returns (status: Status, done: bool, h': State, ghost v': View, ghost stuck: bool)
    requires Valid(h, v) && p in Users(h, v) && p in v.live && p.off == 0 && MAX_LARGE_SIZE < size < SIZE_T
    requires i < |h.hugeList| && h.hugeList[i].seg == p.seg && v.live[p] == h.hugeList[i].size && kept <= v.live[p]
             && 0 < v.live[p]
    ensures status.Lost? ==> h.ring != [] && Loose(v.live, h.ring[0]) && !done
    ensures status.Failed? ==> Unchanged(h, v, h', v') && Settled(h', v') && !done
    ensures status.Failed? && Compact(h, v) ==> !h'.overflow && Headroom(h') < AlignHuge(size) - v.live[p]
    ensures status.Done? && !stuck ==> done
    ensures done && !Wraps(size) ==> Reallocated(h, v, h', v', p, p, size, kept)
    ensures done && !Wraps(size) && h.size <= h.peak ==> h'.peak == Max(h.peak, h'.size)
    ensures AlignHuge(size) <= v.live[p] ==> done
    ensures Wraps(size) ==> v'.live == v.live[p := 0] && h'.size == h.size - v.live[p]
    ensures AlignHuge(size) - v.live[p] <= Headroom(h) ==> status.Done? && (!done ==> h' == h && v' == v)
    ensures status.Done? && !done ==> Valid(h', v') && SameBlocks(h, v, h', v') && SamePeaks(h, h') && !Wraps(size)
  {
    hide Valid, Users, Sum, IsNode, Reallocated, Unchanged, Segments, AlignHuge, BlockSize, InRange, BytesKept,
         WriteField, BlockKept, Headroom, Compact, Settled, JustBelow;
    HugeSizes(size);
    RangeOf(h, v);
    AlignedSize(size);
    PeakFacts(h, v);
    status, done, stuck := Done, true, false;
    var total, bytes := AlignHuge(size), h.hugeList[i].size;
    if total == bytes {
      assert v.live[p := bytes] == v.live;
      NothingSeen(h, h, v);
      InPlace(h, v, h, v, p, bytes, size, kept);
      return status, done, h, v, stuck;
    } else if total < bytes {
      h' := Resized(h, i, total, h.mapped - (Segments(p.seg, bytes) - Segments(p.seg, total)));
      v' := v.(live := v.live[p := total]);
      if total > 0 {
        RangeLess(h.mapped, h'.mapped);
        ResizedValid(h, v, i, total, h'.mapped, h', v');
        SameNodes(h.hugeList, i, total);
        NothingSeen(h, h', v');
        SameRing(h, v, h', v');
        HugeInPlace(h, v, h', v', p, total, size, kept);
      }
      return;
    }
    var h1;
    ghost var v1;
    status, h1, v1 := RoomToExtend(h, total - bytes, v);
    if status.Lost? {
      return status, false, h1, v1, stuck;
    }
    ReallocAfter(h, v, h1, v1, h1, v1, p, p, size, kept);
    if status.Failed? {
      return status, false, h1, v1, stuck;
    }
    RangeOf(h1, v1);
    var mapped;
    done, mapped := OsExtend(h1.mapped, p.seg, bytes, total);
    if !done {
      return status, false, h1, v1, true;
    }
    h' := Resized(h1, i, total, mapped);
    h' := h'.(realPeak := Max(h'.realPeak, h'.realSize), peak := Max(h'.peak, h'.size));
    v' := v1.(live := v1.live[p := total]);
    ResizedValid(h1, v1, i, total, mapped, h', v');
    SameNodes(h1.hugeList, i, total);
    ChunksSeen(h1, v1, h');
    SameRing(h1, v1, h', v');
    HugeInPlace(h1, v1, h', v', p, total, size, kept);
    ReallocAfter(h, v, h1, v1, h', v', p, p, size, kept);
  }

  /** zend_mm_realloc_huge. */
  method ReallocHuge(h: State, p: Ptr, size: nat, copySize: nat, ghost v: View)
    returns (r: Outcome, overrun: bool, h': State, ghost v': View, ghost move: Moving)
    requires Valid(h, v) && p in Users(h, v) && p in v.live && p.off == 0 && size < SIZE_T
    ensures r.Ok? ==> (overrun <==> Overruns(p, v.live[p], size, copySize))
    ensures r.Ok? && !Wraps(size) && !overrun ==>
              Reallocated(h, v, h', v', p, r.ptr, size, Promised(v.live[p], size, copySize))
    ensures r.Ok? && overrun ==> Overwritten(h, v, h', v', p, r.ptr, Min(v.live[p], copySize), size)
    ensures r.Ok? && !overrun && r.ptr != p ==> MoveLimit(h, p, v.live[p], size, move, h')
    ensures r.Ok? && !overrun && !Wraps(size) && h.size <= h.peak ==> h'.peak == Max(h.peak, h'.size)
    ensures MAX_LARGE_SIZE < size && AlignHuge(size) <= v.live[p] ==> r == Ok(p)
    ensures MAX_LARGE_SIZE < size && AlignHuge(size) - v.live[p] <= Headroom(h) && !move.stuck ==> r == Ok(p)
    ensures MAX_LARGE_SIZE < size && !move.stuck && r.Ok? ==> r.ptr == p
    ensures MAX_LARGE_SIZE < size && !move.stuck && r.Bailout? && Compact(h, v) ==>
              !h'.overflow && Headroom(h') < AlignHuge(size) - v.live[p]
    ensures r.Ok? && size <= MAX_LARGE_SIZE ==> r.ptr != p
    ensures Served(h, size) && !move.refused ==> r.Ok?
    ensures r.Bailout? ==> Unchanged(h, v, h', v') && GaveUp(size, h', v')
    ensures r.MainLost? ==> h.ring != [] && Loose(v.live, h.ring[0])
    ensures Wraps(size) ==> r == Ok(p) && v'.live == v.live[p := 0] && h'.size == h.size - v.live[p]
  {
    hide Valid, Users, Reallocated, Unchanged, AlignHuge, BlockSize, Overwritten, MoveLimit, Headroom, Compact,
         Settled, Served, BytesKept;
    UsersLive(h, v);
    var i := FindHuge(h.hugeList, p.seg);
    ListedHuge(h, v, p, i);
    var bytes := h.hugeList[i].size;
    ghost var kept := Promised(bytes, size, copySize);
    overrun, move := false, Moving(h, h, false, false);
    HugeSizes(size);
    AlignedSize(size);
    SameBlocksRefl(h, v);
    var h1 := h;
    ghost var v1 := v;
    if size > MAX_LARGE_SIZE {
      if Served(h, size) {
        ServedHuge(h, size);
      }
      var status, done;
      ghost var stuck;
      status, done, h1, v1, stuck := ResizeMapping(h, p, i, size, kept, v);
      if done {
        return Ok(p), false, h1, v1, move;
      } else if status.Lost? {
        return MainLost, false, h1, v1, move;
      } else if status.Failed? {
        return Bailout, false, h1, v1, move;
      }
    }
    ServedAfter(h, v, h1, v1, size, bytes);
    ReallocAfter(h, v, h1, v1, h1, v1, p, p, size, kept);
    r, overrun, h', v', move := MoveBlock(h1, p, size, Min(bytes, copySize), true, v1);
    if r.Ok? && !overrun {
      MoveLimitAfter(h, v, h1, v1, p, bytes, size, move, h');
      FewerBytes(h1, v1, h', v', p, r.ptr, size, Min(bytes, copySize), kept);
    }
    assert r.Ok? && overrun ==> size <= MAX_LARGE_SIZE;
    ReallocAfter(h, v, h1, v1, h', v', p, if r.Ok? then r.ptr else p, size, kept);
    move := move.(stuck := true);
  }

  /** The chunks are what they were, and the new `real_size` has been seen. */
  lemma ChunksSeen(h: State, v: View, h': State)
    requires Valid(h, v) && h'.realPeak == Max(h.realPeak, h'.realSize)
    requires h'.peakChunksCount == h.peakChunksCount && h'.chunksCount == h.chunksCount
    ensures PeaksSeen(h, h')
  {
    hide LinksOk, HugeLinked, InRange, SpaceOk, LayoutOf, Balanced, Idle, RealTotal;
  }

  lemma ServedHuge(h: State, size: nat)
    requires Served(h, size) && MAX_LARGE_SIZE < size
    ensures AlignHuge(size) <= Headroom(h)
  {
    hide AlignHuge, Headroom;
  }

  /** A request that could be served before room was made for extending a block can still be served. */
  lemma ServedAfter(h: State, v: View, h1: State, v1: View, size: nat, bytes: nat)
    requires SameBlocks(h, v, h1, v1) && (size <= MAX_LARGE_SIZE ==> h1 == h)
    requires MAX_LARGE_SIZE < size && AlignHuge(size) - bytes <= Headroom(h) ==> h1 == h
    ensures Served(h, size) ==> Served(h1, size)
  {
    hide AlignHuge, Headroom, SlotServed, CanServe, Compact;
  }


  lemma MoveLimitAfter(h: State, v: View, h1: State, v1: View, p: Ptr, bytes: nat, size: nat, m: Moving, h': State)
    requires MoveLimit(h1, p, bytes, size, m, h') && SameBlocks(h, v, h1, v1) && SamePeaks(h, h1)
    requires MAX_LARGE_SIZE < size && AlignHuge(size) - bytes <= Headroom(h) ==> h1 == h
    ensures MoveLimit(h, p, bytes, size, m.(stuck := true), h')
  {
    hide LimitExact, Released, AlignHuge, Headroom, Compact;
    if MAX_LARGE_SIZE < size && Limited(h) && !h.overflow {
      LimitExactAfter(h, h1, AlignHuge(size), m.mid, m.refused, m.top);
    }
  }

  lemma HugeSizes(size: nat)
    requires size < SIZE_T
    ensures size > MAX_LARGE_SIZE ==> BlockSize(size) == AlignHuge(size)
  {
  }

  // ----------------------------------------------------------------- any block

  /** The size of the block stays within its class: no smaller bin would do. */
  predicate StaysInBin(b: nat, size: nat)
    requires b < BINS
  {
    size <= BinSize(b) && !(b > 0 && size < BinSize(b - 1))
  }

  /** A block of `bytes` bytes in a chunk need not move to hold `size` bytes. */
  ghost predicate Stays(h: State, p: Ptr, bytes: nat, size: nat) {
    if bytes <= MAX_SMALL_SIZE then size <= bytes && (bytes == BlockSize(size) || JustBelow(bytes, size))
    else MAX_SMALL_SIZE < size <= MAX_LARGE_SIZE
         && (size <= bytes || RoomBehind(h, p, bytes / PAGE_SIZE, PagesFor(size)))
  }

  /** The peak is the largest size seen; a slot that is truncated is given back after the new one has been counted. */
  ghost predicate PeakAfter(h: State, p: Ptr, bytes: nat, size: nat, q: Ptr, h': State) {
    h.size <= h.peak ==>
      h'.peak == Max(h.peak, if q != p && p.off != 0 && bytes <= MAX_SMALL_SIZE && size <= bytes
                             then h.size + BlockSize(size) else h'.size)
  }

  /** A slot stays exactly when its bin is the one for `size`, or the one above that `size` fills. */
  lemma StaysExactly(b: nat, size: nat)
    requires b < BINS
    ensures StaysInBin(b, size) <==>
              size <= BinSize(b) && (BinSize(b) == BlockSize(size) || JustBelow(BinSize(b), size))
  {
    hide BinSize;
    BinFacts(b);
    if size <= BinSize(b) {
      SizeToBinTight(size);
      var c := SizeToBin(size);
      if StaysInBin(b, size) && c != b {
        BinOrder(c, b);
        assert c < b && size == BinSize(b - 1);
      }
      if JustBelow(BinSize(b), size) {
        var d: nat :| 0 < d < BINS && BinSize(b) == BinSize(d) && size == BinSize(d - 1);
        BinSizeInjective(b, d);
      }
      if BinSize(b) == BlockSize(size) {
        BinSizeInjective(b, c);
      }
    }
  }

  lemma {:induction false} BinOrder(c: nat, b: nat)
    requires c < BINS && b < BINS
    ensures c < b ==> BinSize(c) <= BinSize(b - 1) < BinSize(b)
    ensures b < c ==> BinSize(b) <= BinSize(c - 1) < BinSize(c)
    decreases if c < b then b - c else c - b
  {
    hide BinSize;
    BinFacts(b);
    BinFacts(c);
    if c + 1 < b {
      BinOrder(c, b - 1);
    } else if b + 1 < c {
      BinOrder(c - 1, b);
    }
  }

  /**
   zend_mm_realloc_heap of a block.  Through every path but two the first bytes
   are kept, as many as old block, new size and copy size allow: a huge block
   whose new size wraps around, and a copy that overruns the new block.
   */
  method ReallocBlock(h: State, p: Ptr, size: nat, useCopySize: bool, copySize: nat, ghost v: View)
    returns (r: Outcome, overrun: bool, h': State, ghost v': View, ghost move: Moving)
    requires Valid(h, v) && p in Users(h, v) && p in v.live && size < SIZE_T && (!useCopySize ==> copySize == size)
    ensures r.Ok? ==> (overrun <==> Overruns(p, v.live[p], size, copySize))
    ensures r.Ok? && !(p.off == 0 && Wraps(size)) && !overrun ==>
      Reallocated(h, v, h', v', p, r.ptr, size, Promised(v.live[p], size, copySize))
    ensures r.Ok? && overrun ==> Overwritten(h, v, h', v', p, r.ptr, Min(v.live[p], copySize), size)
    ensures r.Ok? && !overrun && r.ptr != p ==> MoveLimit(h, p, v.live[p], size, move, h')
    ensures r.Ok? && !overrun && !(p.off == 0 && Wraps(size)) ==> PeakAfter(h, p, v.live[p], size, r.ptr, h')
    ensures r.Ok? && p.off != 0 ==> (r.ptr == p <==> Stays(h, p, v.live[p], size))
    ensures p.off != 0 && Stays(h, p, v.live[p], size) ==> r.Ok?
    ensures p.off == 0 && MAX_LARGE_SIZE < size && AlignHuge(size) <= v.live[p] ==> r == Ok(p)
    ensures p.off == 0 && MAX_LARGE_SIZE < size && AlignHuge(size) - v.live[p] <= Headroom(h) && !move.stuck ==>
              r == Ok(p)
    ensures p.off == 0 && MAX_LARGE_SIZE < size && !move.stuck && r.Ok? ==> r.ptr == p
    ensures p.off == 0 && MAX_LARGE_SIZE < size && !move.stuck && r.Bailout? && Compact(h, v) ==>
              !h'.overflow && Headroom(h') < AlignHuge(size) - v.live[p]
    ensures p.off == 0 && size <= MAX_LARGE_SIZE && r.Ok? ==> r.ptr != p
    ensures Served(h, size) && !move.refused ==> r.Ok?
    ensures r.Bailout? ==> Unchanged(h, v, h', v') && GaveUp(size, h', v')
    ensures r.MainLost? ==> h.ring != [] && Loose(v.live, h.ring[0])
    ensures p.off == 0 && Wraps(size) ==> r == Ok(p) && v'.live == v.live[p := 0] && h'.size == h.size - v.live[p]
  {
    hide Valid, Users, Sum, IsNode, Reallocated, Unchanged, Small, Large, BinSize, SizeToBin, BlockSize, Overwritten,
         MoveLimit, JustBelow, RoomBehind, Served, GaveUp, AlignHuge, Headroom;
    move := Moving(h, h, false, false);
    PeakFacts(h, v);
    if p.off == 0 {
      r, overrun, h', v', move := ReallocHuge(h, p, size, copySize, v);
      return;
    }
    InfoOf(h, v, p);
    var info := h.chunks[p.seg].map_[p.off / PAGE_SIZE];
    ghost var kept := Promised(v.live[p], size, copySize);
    if info.Srun? || info.Nrun? {
      r, overrun, h', v', move := ReallocSmall(h, p, info.bin, size, useCopySize, copySize, v);
      return;
    }
    var bytes := info.pages * PAGE_SIZE;
    LargeIsLarge(h, v, p, info.pages);
    if MAX_SMALL_SIZE < size <= MAX_LARGE_SIZE {
      var done;
      done, h', v' := ResizeInPlace(h, p, info.pages, size, kept, v);
      if done {
        return Ok(p), false, h', v', move;
      }
    }
    r, overrun, h', v', move := MoveBlock(h, p, size, Min(bytes, copySize), true, v);
    if r.Ok? && !overrun {
      FewerBytes(h, v, h', v', p, r.ptr, size, Min(bytes, copySize), kept);
    }
  }

  lemma LargeIsLarge(h: State, v: View, p: Ptr, n: nat)
    requires Valid(h, v) && LayoutOk(LayoutIn(h, v)) && Large(LayoutIn(h, v), p, n)
    ensures MAX_SMALL_SIZE < n * PAGE_SIZE <= MAX_LARGE_SIZE
  {
    hide Valid, LayoutIn, Large;
    LargeChunk(h, v, p, n);
  }

  /** The small blocks of zend_mm_realloc_heap: in place, to a smaller bin, to a larger bin, or by the slow path. */
  method ReallocSmall(h: State, p: Ptr, b: nat, size: nat, useCopySize: bool, copySize: nat, ghost v: View)
    returns (r: Outcome, overrun: bool, h': State, ghost v': View, ghost move: Moving)
    requires Valid(h, v) && p in Users(h, v) && p in v.live && size < SIZE_T && (!useCopySize ==> copySize == size)
    requires b < BINS && v.live[p] == BinSize(b) && p.off != 0
    ensures r.Ok? ==> !overrun && v.live[p] <= MAX_SMALL_SIZE
    ensures r.Ok? ==> Reallocated(h, v, h', v', p, r.ptr, size, Promised(v.live[p], size, copySize))
    ensures r.Ok? && !overrun && r.ptr != p ==> MoveLimit(h, p, v.live[p], size, move, h')
    ensures r.Ok? ==> PeakAfter(h, p, v.live[p], size, r.ptr, h')
    ensures v.live[p] <= MAX_SMALL_SIZE && (r.Ok? ==> (r.ptr == p <==> Stays(h, p, v.live[p], size)))
    ensures Stays(h, p, v.live[p], size) ==> r.Ok?
    ensures Served(h, size) && !move.refused ==> r.Ok?
    ensures r.Bailout? ==> Unchanged(h, v, h', v') && GaveUp(size, h', v')
    ensures r.MainLost? ==> h.ring != [] && Loose(v.live, h.ring[0])
  {
    hide Valid, Users, Sum, IsNode, Reallocated, Unchanged, BinSize, BlockSize, Overwritten, MoveLimit, JustBelow,
         Served, GaveUp, Compact;
    move := Moving(h, h, false, false);
    PeakFacts(h, v);
    BinFacts(b);
    StaysExactly(b, size);
    var bytes := BinSize(b);
    ghost var kept := Promised(bytes, size, copySize);
    var n, restorePeak := Min(bytes, copySize), true;
    if StaysInBin(b, size) {
      assert v.live[p := bytes] == v.live;
      NothingSeen(h, h, v);
      InPlace(h, v, h, v, p, bytes, size, kept);
      return Ok(p), false, h, v, move;
    } else if size <= bytes {
      n, restorePeak := if useCopySize then Min(size, copySize) else size, false;
    } else if size <= MAX_SMALL_SIZE {
      n := if useCopySize then Min(bytes, copySize) else bytes;
    }
    r, overrun, h', v', move := MoveBlock(h, p, size, n, restorePeak, v);
    if r.Ok? {
      FewerBytes(h, v, h', v', p, r.ptr, size, n, kept);
    }
  }
}

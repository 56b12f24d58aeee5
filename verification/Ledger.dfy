/**
 The ledger of a heap: every block of every chunk, and every huge block, is
 either in the hands of a caller (`live`, with its size) or on the free list
 of its bin, never both.  The lemmas follow the ledger through each change the
 allocator makes.
 */
module Ledger {
  import opened Bitset
  import opened Bins
  import opened PageInfo
  import opened Chunks
  import opened Blocks

  /** An address: the number of a chunk-aligned segment and an offset into it. */
  datatype Ptr = Ptr(seg: nat, off: nat)

  /** An element of the huge list; `node` is the small block that holds the element itself. */
  datatype Huge = Huge(node: Ptr, seg: nat, size: nat)

  /** The run structure of the chunks in use. */
  type Layout = map<nat, RunMap>

  /** sizeof(zend_mm_huge_list) is three words, so its elements live in bin 2. */
  const NODE_BIN: nat := 2

  ghost predicate LayoutOk(L: Layout) {
    forall s :: s in L ==> RunsOk(L[s])
  }

  ghost predicate Small(L: Layout, p: Ptr, b: nat)
    requires LayoutOk(L)
  {
    b < BINS && p.seg in L && SmallAt(L[p.seg], p.off, b)
  }

  ghost predicate Large(L: Layout, p: Ptr, n: nat)
    requires LayoutOk(L)
  {
    p.seg in L && LargeAt(L[p.seg], p.off, n)
  }

  /** During a collection: the counter of the block's run says that all its slots are free. */
  ghost predicate Doomed(L: Layout, p: Ptr, b: nat)
    requires LayoutOk(L) && b < BINS
  {
    p.seg in L && CounterOf(L[p.seg], p.off) == BinElements(b)
  }

  ghost predicate HugeAt(huge: seq<Huge>, seg: nat, size: nat) {
    exists i :: 0 <= i < |huge| && huge[i].seg == seg && huge[i].size == size
  }

  /** `size` is the size of the block at `p`. */
  ghost predicate LiveOk(L: Layout, huge: seq<Huge>, p: Ptr, size: nat)
    requires LayoutOk(L)
  {
    if p.off == 0 then HugeAt(huge, p.seg, size)
    else
      || (exists b: nat :: Small(L, p, b) && !Doomed(L, p, b) && size == BinSize(b))
      || (exists n: nat :: Large(L, p, n) && size == n * PAGE_SIZE)
  }

  ghost predicate NoDup<T>(s: seq<T>) {
    forall i, j :: 0 <= i < j < |s| ==> s[i] != s[j]
  }

  ghost predicate FreeListOk(L: Layout, list: seq<Ptr>, b: nat, live: map<Ptr, nat>)
    requires LayoutOk(L) && b < BINS
  {
    && NoDup(list)
    && forall i :: 0 <= i < |list| ==> Small(L, list[i], b) && !Doomed(L, list[i], b) && list[i] !in live
  }

  ghost predicate FreeOk(L: Layout, free: seq<seq<Ptr>>, live: map<Ptr, nat>)
    requires LayoutOk(L)
  {
    |free| == BINS && forall b :: 0 <= b < BINS ==> FreeListOk(L, free[b], b, live)
  }

  /** No block is lost. */
  ghost predicate Complete(L: Layout, free: seq<seq<Ptr>>, live: map<Ptr, nat>)
    requires LayoutOk(L) && |free| == BINS
  {
    && (forall p, b: nat :: Small(L, p, b) ==> p in live || p in free[b] || Doomed(L, p, b))
    && (forall p, n: nat :: Large(L, p, n) ==> p in live)
  }

  ghost predicate HugeOk(L: Layout, huge: seq<Huge>, live: map<Ptr, nat>)
    requires LayoutOk(L)
  {
    && (forall i :: 0 <= i < |huge| ==>
          && Ptr(huge[i].seg, 0) in live
          && huge[i].node in live && Small(L, huge[i].node, NODE_BIN))
    && (forall i, j :: 0 <= i < j < |huge| ==> huge[i].seg != huge[j].seg && huge[i].node != huge[j].node)
  }

  ghost predicate Balanced(L: Layout, free: seq<seq<Ptr>>, huge: seq<Huge>, live: map<Ptr, nat>) {
    && LayoutOk(L) && |free| == BINS
    && (forall p :: p in live ==> LiveOk(L, huge, p, live[p]))
    && FreeOk(L, free, live)
    && Complete(L, free, live)
    && HugeOk(L, huge, live)
  }

  ghost predicate IsNode(huge: seq<Huge>, p: Ptr) {
    exists i :: 0 <= i < |huge| && huge[i].node == p
  }

  lemma OneBin(L: Layout, p: Ptr, b: nat, c: nat)
    requires LayoutOk(L) && Small(L, p, b) && Small(L, p, c)
    ensures b == c && p.off != 0
    ensures forall n: nat :: !Large(L, p, n)
  {
    var r := L[p.seg];
    assert PageOk(r.map_, r.owner, 0);
  }

  // ------------------------------------------------------------- small blocks

  /** The first slot of a free list is handed out. */
  lemma PopSlot(L: Layout, free: seq<seq<Ptr>>, huge: seq<Huge>, live: map<Ptr, nat>, b: nat)
    requires Balanced(L, free, huge, live) && b < BINS && free[b] != []
    ensures free[b][0] !in live && Small(L, free[b][0], b)
    ensures Balanced(L, free[b := free[b][1..]], huge, live[free[b][0] := BinSize(b)])
  {
    hide SmallAt, LargeAt, BinSize, BinElements, CounterOf, RunsOk;
    var p := free[b][0];
    var free', live' := free[b := free[b][1..]], live[p := BinSize(b)];
    assert FreeListOk(L, free[b], b, live);
    OneBin(L, p, b, b);
    forall c | 0 <= c < BINS ensures FreeListOk(L, free'[c], c, live') {
      assert FreeListOk(L, free[c], c, live);
      forall i | 0 <= i < |free'[c]| ensures free'[c][i] != p {
        if c == b {
          assert free'[c][i] == free[b][i + 1];
        } else if free[c][i] == p {
          OneBin(L, p, b, c);
        }
      }
    }
    forall q, c: nat | Small(L, q, c) ensures q in live' || q in free'[c] || Doomed(L, q, c) {
      assert q in free[c] ==> q in free'[c] || q == p;
    }
    forall q | q in live' ensures LiveOk(L, huge, q, live'[q]) {
      assert q != p ==> LiveOk(L, huge, q, live[q]);
    }
  }

  lemma NotDoomed(L: Layout, huge: seq<Huge>, p: Ptr, size: nat, b: nat)
    requires LayoutOk(L) && LiveOk(L, huge, p, size) && Small(L, p, b)
    ensures !Doomed(L, p, b) && size == BinSize(b)
  {
    hide SmallAt, LargeAt, BinSize, BinElements, CounterOf, RunsOk;
    OneBin(L, p, b, b);
    var c: nat :| Small(L, p, c) && !Doomed(L, p, c) && size == BinSize(c);
    OneBin(L, p, b, c);
  }

  lemma PushFree(L: Layout, free: seq<seq<Ptr>>, live: map<Ptr, nat>, b: nat, p: Ptr)
    requires LayoutOk(L) && FreeOk(L, free, live) && p in live && b < BINS && Small(L, p, b) && !Doomed(L, p, b)
    ensures FreeOk(L, free[b := [p] + free[b]], live - {p})
  {
    hide Small, Doomed;
    var free', live' := free[b := [p] + free[b]], live - {p};
    forall c | 0 <= c < BINS ensures FreeListOk(L, free'[c], c, live') {
      assert FreeListOk(L, free[c], c, live);
      if c == b {
        forall i | 0 <= i < |free'[b]|
          ensures Small(L, free'[b][i], b) && !Doomed(L, free'[b][i], b) && free'[b][i] !in live'
          ensures i > 0 ==> free'[b][i] == free[b][i - 1] && free'[b][i] != p
        {
        }
      }
    }
  }

  lemma PushComplete(L: Layout, free: seq<seq<Ptr>>, live: map<Ptr, nat>, b: nat, p: Ptr)
    requires LayoutOk(L) && |free| == BINS && Complete(L, free, live) && Small(L, p, b)
    ensures Complete(L, free[b := [p] + free[b]], live - {p})
  {
    hide SmallAt, LargeAt, RunsOk, Doomed;
    var free', live' := free[b := [p] + free[b]], live - {p};
    OneBin(L, p, b, b);
    forall q, c: nat | Small(L, q, c) ensures q in live' || q in free'[c] || Doomed(L, q, c) {
      if q == p {
        OneBin(L, p, b, c);
        assert free'[b][0] == p;
      } else if q in free[c] && c == b {
        var i :| 0 <= i < |free[b]| && free[b][i] == q;
        assert free'[b][i + 1] == q;
      }
    }
  }

  /** A live slot goes back to the head of its bin's free list. */
  lemma PushSlot(L: Layout, free: seq<seq<Ptr>>, huge: seq<Huge>, live: map<Ptr, nat>, b: nat, p: Ptr)
    requires Balanced(L, free, huge, live) && p in live && Small(L, p, b) && !IsNode(huge, p)
    ensures Balanced(L, free[b := [p] + free[b]], huge, live - {p})
  {
    hide SmallAt, LargeAt, BinSize, BinElements, RunsOk, Doomed, Complete, FreeOk;
    OneBin(L, p, b, b);
    NotDoomed(L, huge, p, live[p], b);
    PushFree(L, free, live, b, p);
    PushComplete(L, free, live, b, p);
  }

  // --------------------------------------------------------------------- runs

  /** Two layouts with the same small blocks in the same state. */
  ghost predicate SameSmalls(L: Layout, L': Layout)
    requires LayoutOk(L) && LayoutOk(L')
  {
    && (forall p, b: nat :: Small(L', p, b) <==> Small(L, p, b))
    && (forall p, b: nat :: Small(L, p, b) ==> (Doomed(L', p, b) <==> Doomed(L, p, b)))
  }

  lemma SmallsOfRunMap(L: Layout, s: nat, r': RunMap)
    requires LayoutOk(L) && s in L && RunsOk(r') && SameSmall(L[s], r')
    ensures LayoutOk(L[s := r']) && SameSmalls(L, L[s := r'])
  {
    hide SmallAt, LargeAt, RunsOk, BinElements;
    var L' := L[s := r'];
    forall p, b: nat
      ensures Small(L', p, b) <==> Small(L, p, b)
      ensures Small(L, p, b) ==> (Doomed(L', p, b) <==> Doomed(L, p, b))
    {
    }
  }

  /** With the same small blocks, the large ones decide. */
  lemma SwapLarge(L: Layout, L': Layout, free: seq<seq<Ptr>>, huge: seq<Huge>, live: map<Ptr, nat>, p: Ptr, size: nat)
    requires Balanced(L, free, huge, live) && LayoutOk(L') && SameSmalls(L, L') && p.off != 0
    requires forall b: nat :: !Small(L, p, b)
    requires forall q, n: nat :: q != p ==> (Large(L', q, n) <==> Large(L, q, n))
    ensures (exists n: nat :: Large(L', p, n) && size == n * PAGE_SIZE) ==> Balanced(L', free, huge, live[p := size])
    ensures (forall n: nat :: !Large(L', p, n)) ==> Balanced(L', free, huge, live - {p})
  {
    hide SmallAt, LargeAt, RunsOk, BinSize, BinElements;
    forall q | q in live && q != p ensures LiveOk(L', huge, q, live[q]) {
      assert LiveOk(L, huge, q, live[q]);
      if q.off != 0 {
        if b: nat :| Small(L, q, b) && !Doomed(L, q, b) && live[q] == BinSize(b) {
          assert Small(L', q, b) && !Doomed(L', q, b);
        } else {
          var n: nat :| Large(L, q, n) && live[q] == n * PAGE_SIZE;
          assert Large(L', q, n);
        }
      }
    }
    assert forall b :: 0 <= b < BINS ==> p !in free[b] by {
      forall b | 0 <= b < BINS ensures p !in free[b] {
        assert FreeListOk(L, free[b], b, live);
      }
    }
    forall live': map<Ptr, nat> | live' - {p} == live - {p}
      ensures FreeOk(L', free, live')
    {
      forall b | 0 <= b < BINS ensures FreeListOk(L', free[b], b, live') {
        SwapFreeList(L, L', free[b], b, live, live', p);
      }
    }
    if exists n: nat :: Large(L', p, n) && size == n * PAGE_SIZE {
      var live' := live[p := size];
      assert live' - {p} == live - {p};
      SwapRest(L, L', free, huge, live, live', p);
    }
    if forall n: nat :: !Large(L', p, n) {
      var live' := live - {p};
      assert live' - {p} == live - {p};
      SwapRest(L, L', free, huge, live, live', p);
    }
  }

  lemma SwapFreeList(L: Layout, L': Layout, list: seq<Ptr>, b: nat, live: map<Ptr, nat>, live': map<Ptr, nat>, p: Ptr)
    requires LayoutOk(L) && LayoutOk(L') && SameSmalls(L, L') && b < BINS && FreeListOk(L, list, b, live)
    requires live' - {p} == live - {p} && p !in list
    ensures FreeListOk(L', list, b, live')
  {
    hide Small, Doomed;
    forall i | 0 <= i < |list| ensures Small(L', list[i], b) && !Doomed(L', list[i], b) && list[i] !in live' {
      var q := list[i];
      assert q in live' <==> q in live' - {p};
    }
  }

  lemma SwapRest(L: Layout, L': Layout, free: seq<seq<Ptr>>, huge: seq<Huge>, live: map<Ptr, nat>, live': map<Ptr, nat>,
                 p: Ptr)
    requires Balanced(L, free, huge, live) && LayoutOk(L') && SameSmalls(L, L') && p.off != 0
    requires forall b: nat :: !Small(L, p, b)
    requires forall q, n: nat :: q != p ==> (Large(L', q, n) <==> Large(L, q, n))
    requires forall n: nat :: Large(L', p, n) ==> p in live'
    requires live' - {p} == live - {p}
    ensures Complete(L', free, live') && HugeOk(L', huge, live')
  {
    hide SmallAt, LargeAt, RunsOk, Doomed;
    forall q | q != p ensures q in live' <==> q in live {
      assert q in live' <==> q in live' - {p};
      assert q in live <==> q in live - {p};
    }
  }

  /** A new large run in chunk `s`. */
  lemma TakeRun(L: Layout, free: seq<seq<Ptr>>, huge: seq<Huge>, live: map<Ptr, nat>, s: nat, page: nat, n: nat,
                r': RunMap)
    requires Balanced(L, free, huge, live) && s in L && 1 <= page && 1 <= n && page + n <= PAGES
    requires forall p :: page <= p < page + n ==> L[s].owner[p] == -1
    requires r' == RunMap(L[s].map_[page := Lrun(n)], Filled(L[s].owner, page, n, page))
    ensures Ptr(s, page * PAGE_SIZE) !in live
    ensures Balanced(L[s := r'], free, huge, live[Ptr(s, page * PAGE_SIZE) := n * PAGE_SIZE])
    ensures Large(L[s := r'], Ptr(s, page * PAGE_SIZE), n)
  {
    hide SmallAt, LargeAt, BinSize, BinElements;
    var p := Ptr(s, page * PAGE_SIZE);
    AddRunBlocks(L[s], page, n, r');
    SmallsOfRunMap(L, s, r');
    NothingAt(L[s], page);
    if p in live {
      assert LiveOk(L, huge, p, live[p]);
    }
    assert Large(L[s := r'], p, n);
    SwapLarge(L, L[s := r'], free, huge, live, p, n * PAGE_SIZE);
  }

  lemma NothingAt(r: RunMap, page: nat)
    requires RunsOk(r) && page < PAGES && r.owner[page] == -1
    ensures forall b: nat :: !SmallAt(r, page * PAGE_SIZE, b)
    ensures forall n: nat :: !LargeAt(r, page * PAGE_SIZE, n)
  {
    hide SlotOf;
  }

  lemma LargeFacts(L: Layout, p: Ptr, n: nat)
    requires LayoutOk(L) && Large(L, p, n)
    ensures var page := p.off / PAGE_SIZE;
            1 <= page < PAGES && p.off == page * PAGE_SIZE && L[p.seg].owner[page] == page
            && L[p.seg].map_[page] == Lrun(n) && 1 <= n && page + n <= PAGES
    ensures forall b: nat :: !Small(L, p, b)
    ensures p.off != 0
  {
    HeadFacts(L[p.seg], p.off / PAGE_SIZE);
  }

  /** A large run is freed. */
  lemma DropRun(L: Layout, free: seq<seq<Ptr>>, huge: seq<Huge>, live: map<Ptr, nat>, p: Ptr, n: nat, r': RunMap)
    requires Balanced(L, free, huge, live) && Large(L, p, n)
    requires p.off / PAGE_SIZE + n <= PAGES
    requires r' == RunMap(L[p.seg].map_[p.off / PAGE_SIZE := Frun], Filled(L[p.seg].owner, p.off / PAGE_SIZE, n, -1))
    ensures Balanced(L[p.seg := r'], free, huge, live - {p})
  {
    hide SmallAt, LargeAt, BinSize, BinElements;
    LargeFacts(L, p, n);
    var page := p.off / PAGE_SIZE;
    RemoveRunBlocks(L[p.seg], page, n, r');
    NoSlotsInLarge(L[p.seg], page, n);
    assert SameSmall(L[p.seg], r');
    SmallsOfRunMap(L, p.seg, r');
    SwapLarge(L, L[p.seg := r'], free, huge, live, p, 0);
  }

  lemma NoSlotsInLarge(r: RunMap, page: nat, n: nat)
    requires RunsOk(r) && LargeHead(r, page, n)
    ensures forall off, b: nat :: SmallAt(r, off, b) ==> HeadOf(r, off) != page
  {
    hide SlotOf;
  }

  /** A large run is resized in place. */
  lemma ResizeRun(L: Layout, free: seq<seq<Ptr>>, huge: seq<Huge>, live: map<Ptr, nat>, p: Ptr, n: nat, k: nat,
                  r': RunMap)
    requires Balanced(L, free, huge, live) && Large(L, p, n) && k != n && 1 <= k && p.off / PAGE_SIZE + k <= PAGES
    requires p.off / PAGE_SIZE + n <= PAGES
    requires var page, r := p.off / PAGE_SIZE, L[p.seg];
             && r'.map_ == r.map_[page := Lrun(k)]
             && (k < n ==> r'.owner == Filled(r.owner, page + k, n - k, -1))
             && (n < k ==> r'.owner == Filled(r.owner, page + n, k - n, page)
                           && forall q :: page + n <= q < page + k ==> r.owner[q] == -1)
    ensures Balanced(L[p.seg := r'], free, huge, live[p := k * PAGE_SIZE])
    ensures Large(L[p.seg := r'], p, k)
  {
    hide SmallAt, LargeAt, BinSize, BinElements;
    LargeFacts(L, p, n);
    ResizeRunBlocks(L[p.seg], p.off / PAGE_SIZE, n, k, r');
    SmallsOfRunMap(L, p.seg, r');
    assert Large(L[p.seg := r'], p, k);
    SwapLarge(L, L[p.seg := r'], free, huge, live, p, k * PAGE_SIZE);
  }

  // ---------------------------------------------------------- new small runs

  /** The slots 1 to the last of the run at `page`, in address order. */
  ghost predicate SlotList(list: seq<Ptr>, s: nat, page: nat, b: nat)
    requires b < BINS
  {
    && |list| == BinElements(b) - 1
    && forall k :: 0 <= k < |list| ==> list[k].seg == s && IsSlot(page, b, k + 1, list[k].off)
  }

  lemma SlotListNoDup(list: seq<Ptr>, s: nat, page: nat, b: nat)
    requires b < BINS && SlotList(list, s, page, b)
    ensures NoDup(list)
  {
    hide IsSlot, BinElements;
    forall i, j | 0 <= i < j < |list| ensures list[i] != list[j] {
      SlotsApart(page, b, i + 1, j + 1, list[i].off, list[j].off);
    }
  }

  /** What a run of slots at `page` means for the blocks of the layout. */
  ghost predicate SplitFacts(L: Layout, L': Layout, p: Ptr, page: nat, b: nat)
    requires LayoutOk(L) && LayoutOk(L') && b < BINS
  {
    && (forall q, c: nat :: Small(L', q, c) <==> Small(L, q, c) || (c == b && q.seg == p.seg && SlotOf(page, b, q.off)))
    && (forall q, c: nat :: Small(L, q, c) ==> (Doomed(L', q, c) <==> Doomed(L, q, c)))
    && (forall q: Ptr :: q.seg == p.seg && SlotOf(page, b, q.off) ==>
        !Doomed(L', q, b) && forall c: nat :: !Small(L, q, c))
    && (forall q, n: nat :: Large(L', q, n) <==> Large(L, q, n) && q != p)
    && (forall q: Ptr, n: nat :: q.seg == p.seg && SlotOf(page, b, q.off) && q != p ==> !Large(L, q, n))
  }

  lemma SplitLayout(L: Layout, p: Ptr, b: nat, r': RunMap)
    requires LayoutOk(L) && b < BINS && Large(L, p, BinPages(b))
    requires r'.owner == L[p.seg].owner && SplitMap(L[p.seg].map_, r'.map_, p.off / PAGE_SIZE, b)
    ensures LayoutOk(L[p.seg := r']) && SplitFacts(L, L[p.seg := r'], p, p.off / PAGE_SIZE, b)
  {
    hide SmallAt, LargeAt, BinSize, BinElements, BinPages, SlotOf, SplitMap;
    LargeFacts(L, p, BinPages(b));
    var page, r, L' := p.off / PAGE_SIZE, L[p.seg], L[p.seg := r'];
    SplitRunBlocks(r, page, b, r');
    BinFacts(b);
    forall q: Ptr | q.seg == p.seg && SlotOf(page, b, q.off)
      ensures forall c: nat :: !Small(L, q, c)
      ensures forall n: nat :: Large(L, q, n) ==> q == p
    {
      assert HeadOf(r', q.off) == page;
      HeadIsLarge(r, q.off, page, BinPages(b));
    }
  }

  lemma HeadIsLarge(r: RunMap, off: nat, page: nat, n: nat)
    requires RunsOk(r) && LargeHead(r, page, n) && HeadOf(r, off) == page
    ensures forall c: nat :: !SmallAt(r, off, c)
    ensures forall k: nat :: LargeAt(r, off, k) ==> off == page * PAGE_SIZE
  {
    hide SlotOf;
  }

  lemma SplitFree(L: Layout, L': Layout, free: seq<seq<Ptr>>, huge: seq<Huge>, live: map<Ptr, nat>, p: Ptr, b: nat,
                  list: seq<Ptr>)
    requires Balanced(L, free, huge, live) && LayoutOk(L') && b < BINS && free[b] == []
    requires p.off % PAGE_SIZE == 0 && p.off != 0 && SplitFacts(L, L', p, p.off / PAGE_SIZE, b)
    requires SlotList(list, p.seg, p.off / PAGE_SIZE, b)
    ensures FreeOk(L', free[b := list], live[p := BinSize(b)])
    ensures Complete(L', free[b := list], live[p := BinSize(b)])
  {
    hide Small, Large, Doomed, LiveOk, BinSize, BinElements, IsSlot;
    var page, free', live' := p.off / PAGE_SIZE, free[b := list], live[p := BinSize(b)];
    SlotListNoDup(list, p.seg, page, b);
    assert SlotOf(page, b, p.off) by { assert IsSlot(page, b, 0, p.off) by { FirstSlot(page, b, p.off); } }
    forall k | 0 <= k < |list|
      ensures Small(L', list[k], b) && !Doomed(L', list[k], b) && list[k] !in live'
    {
      assert SlotOf(page, b, list[k].off);
      assert IsSlot(page, b, 0, p.off) by { FirstSlot(page, b, p.off); }
      SlotsApart(page, b, 0, k + 1, p.off, list[k].off);
      NotLive(L, huge, live, list[k]);
    }
    forall c | 0 <= c < BINS ensures FreeListOk(L', free'[c], c, live') {
      assert FreeListOk(L, free[c], c, live);
      if c != b {
        forall i | 0 <= i < |free[c]| ensures free[c][i] != p {
          assert Small(L, free[c][i], c);
        }
      }
    }
    forall q, c: nat | Small(L', q, c) ensures c < BINS && (q in live' || q in free'[c] || Doomed(L', q, c)) {
      if Small(L, q, c) {
        SmallBin(L, q, c);
        assert q in live || q in free[c] || Doomed(L, q, c);
      } else {
        var j :| IsSlot(page, b, j, q.off);
        SlotInList(list, p, page, b, q, j);
      }
    }
  }

  lemma SlotInList(list: seq<Ptr>, p: Ptr, page: nat, b: nat, q: Ptr, j: int)
    requires b < BINS && SlotList(list, p.seg, page, b) && p.off == page * PAGE_SIZE
    requires q.seg == p.seg && IsSlot(page, b, j, q.off)
    ensures q == p || q in list
  {
    hide BinSize, BinElements;
    if j > 0 {
      assert list[j - 1].off == q.off;
      assert list[j - 1] == q;
    }
  }

  lemma FirstSlot(page: nat, b: nat, off: int)
    requires b < BINS && off == page * PAGE_SIZE
    ensures IsSlot(page, b, 0, off)
  {
    BinFacts(b);
  }

  lemma NotLive(L: Layout, huge: seq<Huge>, live: map<Ptr, nat>, q: Ptr)
    requires LayoutOk(L) && q.off != 0
    requires forall p :: p in live ==> LiveOk(L, huge, p, live[p])
    requires forall b: nat :: !Small(L, q, b)
    requires forall n: nat :: !Large(L, q, n)
    ensures q !in live
  {
    hide Small, Large, Doomed;
    assert q in live ==> LiveOk(L, huge, q, live[q]);
  }

  /** A large run becomes a run of slots: the first is handed out, the others are listed. */
  lemma SplitLedger(L: Layout, free: seq<seq<Ptr>>, huge: seq<Huge>, live: map<Ptr, nat>, p: Ptr, b: nat, r': RunMap,
                    list: seq<Ptr>)
    requires Balanced(L, free, huge, live) && b < BINS && Large(L, p, BinPages(b)) && free[b] == []
    requires r'.owner == L[p.seg].owner && SplitMap(L[p.seg].map_, r'.map_, p.off / PAGE_SIZE, b)
    requires SlotList(list, p.seg, p.off / PAGE_SIZE, b)
    ensures Balanced(L[p.seg := r'], free[b := list], huge, live[p := BinSize(b)])
    ensures Small(L[p.seg := r'], p, b)
  {
    hide Small, Large, Doomed, BinSize, BinElements, BinPages, IsSlot, FreeOk, Complete, SplitMap;
    LargeFacts(L, p, BinPages(b));
    SplitLayout(L, p, b, r');
    var page, L', live' := p.off / PAGE_SIZE, L[p.seg := r'], live[p := BinSize(b)];
    SplitFree(L, L', free, huge, live, p, b, list);
    FirstSlot(page, b, p.off);
    assert SlotOf(page, b, p.off);
    assert Small(L', p, b) && !Doomed(L', p, b);
    forall q | q in live' ensures LiveOk(L', huge, q, live'[q]) {
      if q != p {
        assert LiveOk(L, huge, q, live[q]);
        SplitLive(L, L', huge, p, page, b, q, live[q]);
      }
    }
  }

  lemma SplitLive(L: Layout, L': Layout, huge: seq<Huge>, p: Ptr, page: nat, b: nat, q: Ptr, size: nat)
    requires LayoutOk(L) && LayoutOk(L') && b < BINS && SplitFacts(L, L', p, page, b)
    requires LiveOk(L, huge, q, size) && q != p
    ensures LiveOk(L', huge, q, size)
  {
    hide SmallAt, LargeAt, RunsOk, Doomed, BinSize;
    if q.off != 0 {
      if c: nat :| Small(L, q, c) && !Doomed(L, q, c) && size == BinSize(c) {
        assert Small(L', q, c) && !Doomed(L', q, c);
      } else {
        var n: nat :| Large(L, q, n) && size == n * PAGE_SIZE;
        assert Large(L', q, n);
      }
    }
  }

  lemma SmallBin(L: Layout, p: Ptr, b: nat)
    requires LayoutOk(L) && Small(L, p, b)
    ensures b < BINS
  {
  }

  // ------------------------------------------------------------------- chunks

  lemma NoBlocks(r: RunMap)
    requires RunsOk(r) && r.owner == NoRuns()
    ensures forall off, b: nat :: !SmallAt(r, off, b)
    ensures forall off, n: nat :: !LargeAt(r, off, n)
  {
    hide SlotOf;
  }

  /** An empty chunk joins. */
  lemma AddChunk(L: Layout, free: seq<seq<Ptr>>, huge: seq<Huge>, live: map<Ptr, nat>, s: nat, r: RunMap)
    requires Balanced(L, free, huge, live) && s !in L && RunsOk(r) && r.owner == NoRuns()
    ensures Balanced(L[s := r], free, huge, live)
  {
    hide SmallAt, LargeAt, RunsOk, BinSize, BinElements;
    NoBlocks(r);
    SameLedger(L, L[s := r], free, huge, live);
  }

  /** A chunk without blocks leaves. */
  lemma RemoveChunk(L: Layout, free: seq<seq<Ptr>>, huge: seq<Huge>, live: map<Ptr, nat>, s: nat)
    requires Balanced(L, free, huge, live) && s in L && L[s].owner == NoRuns()
    ensures Balanced(L - {s}, free, huge, live)
  {
    hide SmallAt, LargeAt, RunsOk, BinSize, BinElements;
    NoBlocks(L[s]);
    SameLedger(L, L - {s}, free, huge, live);
  }

  lemma SameLedger(L: Layout, L': Layout, free: seq<seq<Ptr>>, huge: seq<Huge>, live: map<Ptr, nat>)
    requires Balanced(L, free, huge, live) && LayoutOk(L') && SameSmalls(L, L')
    requires forall q, n: nat :: Large(L', q, n) <==> Large(L, q, n)
    ensures Balanced(L', free, huge, live)
  {
    hide SmallAt, LargeAt, RunsOk, BinSize, BinElements;
    forall q | q in live ensures LiveOk(L', huge, q, live[q]) {
      assert LiveOk(L, huge, q, live[q]);
      SameLive(L, L', huge, q, live[q]);
    }
    forall b | 0 <= b < BINS ensures FreeListOk(L', free[b], b, live) {
      assert FreeListOk(L, free[b], b, live);
    }
  }

  lemma SameLive(L: Layout, L': Layout, huge: seq<Huge>, q: Ptr, size: nat)
    requires LayoutOk(L) && LayoutOk(L') && SameSmalls(L, L')
    requires forall n: nat :: Large(L', q, n) <==> Large(L, q, n)
    requires LiveOk(L, huge, q, size)
    ensures LiveOk(L', huge, q, size)
  {
    hide SmallAt, LargeAt, RunsOk, Doomed, BinSize;
    if q.off != 0 {
      if c: nat :| Small(L, q, c) && !Doomed(L, q, c) && size == BinSize(c) {
        assert Small(L', q, c) && !Doomed(L', q, c);
      } else {
        var n: nat :| Large(L, q, n) && size == n * PAGE_SIZE;
        assert Large(L', q, n);
      }
    }
  }

  // -------------------------------------------------------------- huge blocks

  lemma NoBlockAtZero(L: Layout, s: nat)
    requires LayoutOk(L)
    ensures forall b: nat :: !Small(L, Ptr(s, 0), b)
    ensures forall n: nat :: !Large(L, Ptr(s, 0), n)
  {
    hide SlotOf;
  }

  /** A change at a segment's first byte concerns huge blocks only. */
  lemma ZeroStep(L: Layout, free: seq<seq<Ptr>>, huge: seq<Huge>, live: map<Ptr, nat>, p: Ptr, live': map<Ptr, nat>)
    requires Balanced(L, free, huge, live) && p.off == 0
    requires forall q :: q != p ==> (q in live' <==> q in live) && (q in live ==> live'[q] == live[q])
    ensures FreeOk(L, free, live') && Complete(L, free, live')
    ensures forall q, huge' :: q in live' && q.off != 0 ==> LiveOk(L, huge', q, live'[q])
    ensures forall q :: q in live' && q.off == 0 && q != p ==> HugeAt(huge, q.seg, live'[q])
    ensures forall i :: 0 <= i < |huge| ==> huge[i].node in live' && huge[i].node != p
  {
    hide Small, Large, Doomed, BinSize, HugeAt;
    NoBlockAtZero(L, p.seg);
    forall b | 0 <= b < BINS ensures FreeListOk(L, free[b], b, live') {
      assert FreeListOk(L, free[b], b, live);
    }
    forall q | q in live' && q != p ensures LiveOk(L, huge, q, live'[q]) {
      assert LiveOk(L, huge, q, live[q]);
    }
  }

  /** A huge block joins the list; its element has been allocated before. */
  lemma AddHuge(L: Layout, free: seq<seq<Ptr>>, huge: seq<Huge>, live: map<Ptr, nat>, h: Huge)
    requires Balanced(L, free, huge, live)
    requires h.node in live && Small(L, h.node, NODE_BIN) && !IsNode(huge, h.node) && Ptr(h.seg, 0) !in live
    ensures Balanced(L, free, [h] + huge, live[Ptr(h.seg, 0) := h.size])
  {
    hide Small, Large, Doomed, BinSize, FreeOk, Complete, LiveOk;
    var p := Ptr(h.seg, 0);
    var huge', live' := [h] + huge, live[p := h.size];
    NoBlockAtZero(L, h.seg);
    ZeroStep(L, free, huge, live, p, live');
    forall i | 0 <= i < |huge'|
      ensures i > 0 ==> huge'[i] == huge[i - 1]
      ensures i == 0 ==> huge'[i] == h
      ensures i > 0 ==> huge'[i].node != h.node && huge'[i].seg != h.seg
    {
      assert i > 0 ==> Ptr(huge[i - 1].seg, 0) in live;
    }
    forall q | q in live' ensures LiveOk(L, huge', q, live'[q]) {
      if q == p {
        assert huge'[0] == h;
        ZeroLive(L, huge', q, h.size);
      } else if q.off == 0 {
        var i :| 0 <= i < |huge| && huge[i].seg == q.seg && huge[i].size == live'[q];
        assert huge'[i + 1] == huge[i];
        ZeroLive(L, huge', q, live'[q]);
      }
    }
  }

  lemma ZeroLive(L: Layout, huge: seq<Huge>, p: Ptr, size: nat)
    requires LayoutOk(L) && p.off == 0 && HugeAt(huge, p.seg, size)
    ensures LiveOk(L, huge, p, size)
  {
  }

  /** `huge'` is `huge` without its element at `i`. */
  ghost predicate WithoutAt(huge: seq<Huge>, i: nat, huge': seq<Huge>) {
    && i < |huge| == |huge'| + 1
    && forall j :: 0 <= j < |huge'| ==> huge'[j] == huge[if j < i then j else j + 1]
  }

  lemma HugeWithout(huge: seq<Huge>, i: nat, huge': seq<Huge>, seg: nat, size: nat)
    requires WithoutAt(huge, i, huge') && HugeAt(huge, seg, size) && seg != huge[i].seg
    ensures HugeAt(huge', seg, size)
  {
    var k :| 0 <= k < |huge| && huge[k].seg == seg && huge[k].size == size;
    var j := if k < i then k else k - 1;
    assert huge'[j] == huge[k];
  }

  lemma ListWithout(L: Layout, huge: seq<Huge>, live: map<Ptr, nat>, i: nat, huge': seq<Huge>)
    requires LayoutOk(L) && HugeOk(L, huge, live) && WithoutAt(huge, i, huge')
    requires forall j :: 0 <= j < |huge| ==> huge[j].node != Ptr(huge[i].seg, 0)
    ensures HugeOk(L, huge', live - {Ptr(huge[i].seg, 0)}) && !IsNode(huge', huge[i].node)
  {
    hide Small, RunsOk;
  }

  /** A huge block leaves the list; its element becomes an ordinary block. */
  lemma RemoveHuge(L: Layout, free: seq<seq<Ptr>>, huge: seq<Huge>, live: map<Ptr, nat>, i: nat)
    requires Balanced(L, free, huge, live) && i < |huge|
    ensures Balanced(L, free, huge[..i] + huge[i + 1..], live - {Ptr(huge[i].seg, 0)})
    ensures !IsNode(huge[..i] + huge[i + 1..], huge[i].node)
    ensures huge[i].node != Ptr(huge[i].seg, 0)
  {
    hide FreeOk, Complete, LiveOk, HugeOk, HugeAt, RunsOk, IsNode;
    var p := Ptr(huge[i].seg, 0);
    var huge', live' := huge[..i] + huge[i + 1..], live - {p};
    ZeroStep(L, free, huge, live, p, live');
    ListWithout(L, huge, live, i, huge');
    forall q | q in live' ensures LiveOk(L, huge', q, live'[q]) {
      if q.off == 0 {
        HugeWithout(huge, i, huge', q.seg, live'[q]);
        ZeroLive(L, huge', q, live'[q]);
      }
    }
  }

  /** A huge block changes its size in place. */
  lemma ResizeHuge(L: Layout, free: seq<seq<Ptr>>, huge: seq<Huge>, live: map<Ptr, nat>, i: nat, size: nat)
    requires Balanced(L, free, huge, live) && i < |huge|
    ensures Balanced(L, free, huge[i := huge[i].(size := size)], live[Ptr(huge[i].seg, 0) := size])
  {
    hide Small, Large, Doomed, BinSize, FreeOk, Complete, LiveOk;
    var p := Ptr(huge[i].seg, 0);
    var huge', live' := huge[i := huge[i].(size := size)], live[p := size];
    ZeroStep(L, free, huge, live, p, live');
    forall q | q in live' ensures LiveOk(L, huge', q, live'[q]) {
      if q == p {
        assert huge'[i].seg == q.seg;
        ZeroLive(L, huge', q, size);
      } else if q.off == 0 {
        var k :| 0 <= k < |huge| && huge[k].seg == q.seg && huge[k].size == live'[q];
        assert huge'[k] == huge[k];
        ZeroLive(L, huge', q, live'[q]);
      }
    }
  }

  // ------------------------------------------------------------- disjointness

  /** The number of segments a mapping of `size` bytes touches. */
  function Span(size: nat): nat {
    (size + CHUNK_SIZE - 1) / CHUNK_SIZE
  }

  function Address(p: Ptr): nat {
    p.seg * CHUNK_SIZE + p.off
  }

  /** Chunks and huge blocks do not share segments. */
  ghost predicate Apart(segs: set<nat>, huge: seq<Huge>) {
    && (forall i, s :: 0 <= i < |huge| && s in segs ==> !(huge[i].seg <= s < huge[i].seg + Span(huge[i].size)))
    && (forall i, j :: 0 <= i < |huge| && 0 <= j < |huge| && i != j ==>
          huge[i].seg + Span(huge[i].size) <= huge[j].seg || huge[j].seg + Span(huge[j].size) <= huge[i].seg)
  }

  lemma LiveInside(L: Layout, huge: seq<Huge>, p: Ptr, size: nat)
    requires LayoutOk(L) && LiveOk(L, huge, p, size) && p.off != 0
    ensures p.seg in L && BlockAt(L[p.seg], p.off, size) && p.off + size <= CHUNK_SIZE
  {
    hide SmallAt, LargeAt, BinSize, BinElements, BinPages;
    if b: nat :| Small(L, p, b) && !Doomed(L, p, b) && size == BinSize(b) {
      assert SmallAt(L[p.seg], p.off, b);
    } else {
      var n: nat :| Large(L, p, n) && size == n * PAGE_SIZE;
      assert LargeAt(L[p.seg], p.off, n);
    }
    BlockInRun(L[p.seg], p.off, size);
    HeadFacts(L[p.seg], HeadOf(L[p.seg], p.off));
  }

  /** Live blocks never overlap. */
  lemma LiveDisjoint(L: Layout, free: seq<seq<Ptr>>, huge: seq<Huge>, live: map<Ptr, nat>, p: Ptr, q: Ptr)
    requires Balanced(L, free, huge, live) && Apart(L.Keys, huge)
    requires p in live && q in live && p != q
    ensures Address(p) + live[p] <= Address(q) || Address(q) + live[q] <= Address(p)
  {
    hide Small, Large, Doomed, BlockAt, FreeOk, Complete, HugeOk;
    assert LiveOk(L, huge, p, live[p]);
    assert LiveOk(L, huge, q, live[q]);
    if p.off != 0 {
      LiveInside(L, huge, p, live[p]);
    }
    if q.off != 0 {
      LiveInside(L, huge, q, live[q]);
    }
    if p.off != 0 && q.off != 0 {
      if p.seg == q.seg {
        BlocksDisjoint(L[p.seg], p.off, live[p], q.off, live[q]);
      }
    } else if p.off != 0 {
      var i :| 0 <= i < |huge| && huge[i].seg == q.seg && huge[i].size == live[q];
    } else if q.off != 0 {
      var i :| 0 <= i < |huge| && huge[i].seg == p.seg && huge[i].size == live[p];
    } else {
      var i :| 0 <= i < |huge| && huge[i].seg == p.seg && huge[i].size == live[p];
      var j :| 0 <= j < |huge| && huge[j].seg == q.seg && huge[j].size == live[q];
      assert i != j;
    }
  }
}

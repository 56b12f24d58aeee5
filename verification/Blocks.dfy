/**
 Blocks: what a chunk's page map lets the allocator hand out, namely the slots
 of small runs and the large runs themselves.  The lemmas say what each change
 of the run structure does to them.
 */
module Blocks {
  import opened Bitset
  import opened Bins
  import opened PageInfo
  import opened Chunks

  /** The run structure of one chunk. */
  datatype RunMap = RunMap(map_: seq<Info>, owner: seq<int>)

  ghost predicate RunsOk(r: RunMap) {
    PagesOk(r.map_, r.owner)
  }

  ghost predicate IsSlot(h: nat, b: nat, j: int, off: int)
    requires b < BINS
  {
    0 <= j < BinElements(b) && off == h * PAGE_SIZE + j * BinSize(b)
  }

  /** Page `h` starts a small run of bin `b`. */
  ghost predicate SmallHead(r: RunMap, h: int, b: nat)
    requires RunsOk(r)
  {
    0 <= h < PAGES && r.owner[h] == h && r.map_[h].Srun? && r.map_[h].bin == b
  }

  ghost predicate LargeHead(r: RunMap, h: int, n: nat)
    requires RunsOk(r)
  {
    1 <= h < PAGES && r.owner[h] == h && r.map_[h] == Lrun(n)
  }

  /** The run that offset `off` lies in, or -1. */
  ghost function HeadOf(r: RunMap, off: int): int
    requires RunsOk(r)
  {
    if 0 <= off < CHUNK_SIZE then r.owner[off / PAGE_SIZE] else -1
  }

  ghost predicate SlotOf(h: nat, b: nat, off: int)
    requires b < BINS
  {
    exists j :: IsSlot(h, b, j, off)
  }

  /** There is a small block of bin `b` at `off`. */
  ghost predicate SmallAt(r: RunMap, off: int, b: nat)
    requires RunsOk(r)
  {
    b < BINS && var h := HeadOf(r, off); SmallHead(r, h, b) && SlotOf(h, b, off)
  }

  /** There is a large block of `n` pages at `off`. */
  ghost predicate LargeAt(r: RunMap, off: int, n: nat)
    requires RunsOk(r)
  {
    off % PAGE_SIZE == 0 && LargeHead(r, off / PAGE_SIZE, n)
  }

  // ------------------------------------------------------------------- slots

  lemma MulOrder(i: int, j: int, k: nat)
    requires i <= j
    ensures i * k <= j * k
  {
  }

  /** A slot lies within the pages of its run. */
  lemma SlotInRun(h: nat, b: nat, j: int, off: int)
    requires b < BINS && IsSlot(h, b, j, off)
    ensures h * PAGE_SIZE <= off && off + BinSize(b) <= (h + BinPages(b)) * PAGE_SIZE
    ensures h <= off / PAGE_SIZE < h + BinPages(b)
  {
    hide BinSize, BinElements, BinPages;
    BinFacts(b);
    MulOrder(j + 1, BinElements(b), BinSize(b));
    MulOrder(0, j, BinSize(b));
    assert (j + 1) * BinSize(b) == j * BinSize(b) + BinSize(b);
  }

  /** Two slots of one run do not overlap. */
  lemma SlotsApart(h: nat, b: nat, i: int, j: int, off: int, off': int)
    requires b < BINS && IsSlot(h, b, i, off) && IsSlot(h, b, j, off')
    ensures i < j ==> off + BinSize(b) <= off'
    ensures i == j <==> off == off'
  {
    hide BinSize, BinElements;
    BinFacts(b);
    if i < j {
      MulOrder(i + 1, j, BinSize(b));
      assert (i + 1) * BinSize(b) == i * BinSize(b) + BinSize(b);
    } else if j < i {
      MulOrder(j + 1, i, BinSize(b));
      assert (j + 1) * BinSize(b) == j * BinSize(b) + BinSize(b);
    }
  }

  /** The slots of a small run are small blocks, and belong to that run. */
  lemma SlotIsBlock(r: RunMap, h: nat, b: nat, j: int, off: int)
    requires RunsOk(r) && b < BINS && SmallHead(r, h, b) && IsSlot(h, b, j, off)
    ensures SmallAt(r, off, b) && HeadOf(r, off) == h
    ensures 1 <= h
  {
    hide BinSize, BinElements, BinPages;
    SlotInRun(h, b, j, off);
    assert PageOk(r.map_, r.owner, h);
    assert r.owner[off / PAGE_SIZE] == h;
  }

  lemma HeadFacts(r: RunMap, h: nat)
    requires RunsOk(r) && h < PAGES && r.owner[h] == h
    ensures StartsRun(r.map_[h]) && h + RunLen(r.map_[h]) <= PAGES
    ensures forall p :: h <= p < h + RunLen(r.map_[h]) ==> r.owner[p] == h
  {
    assert PageOk(r.map_, r.owner, h);
  }

  // -------------------------------------------------------------- disjointness

  /** The bytes of the block at `off`, when there is one: `size` of them. */
  ghost predicate BlockAt(r: RunMap, off: int, size: nat)
    requires RunsOk(r)
  {
    || (exists b: nat :: SmallAt(r, off, b) && size == BinSize(b))
    || (exists n: nat :: LargeAt(r, off, n) && size == n * PAGE_SIZE)
  }

  lemma BlockInRun(r: RunMap, off: int, size: nat)
    requires RunsOk(r) && BlockAt(r, off, size)
    ensures 0 <= off < CHUNK_SIZE && 0 < size && 1 <= HeadOf(r, off) < PAGES
    ensures var h := HeadOf(r, off);
            r.owner[h] == h && h * PAGE_SIZE <= off && off + size <= (h + RunLen(r.map_[h])) * PAGE_SIZE
  {
    hide BinSize, BinElements, BinPages;
    if b: nat :| SmallAt(r, off, b) && size == BinSize(b) {
      var h := HeadOf(r, off);
      var j :| IsSlot(h, b, j, off);
      SlotInRun(h, b, j, off);
      BinFacts(b);
    } else {
      var n: nat :| LargeAt(r, off, n) && size == n * PAGE_SIZE;
      HeadFacts(r, off / PAGE_SIZE);
      assert PageOk(r.map_, r.owner, off / PAGE_SIZE);
    }
  }

  /** A block has one size, and blocks at different offsets do not overlap. */
  lemma BlocksDisjoint(r: RunMap, off: int, size: nat, off': int, size': nat)
    requires RunsOk(r) && BlockAt(r, off, size) && BlockAt(r, off', size')
    ensures off == off' ==> size == size'
    ensures off != off' ==> off + size <= off' || off' + size' <= off
  {
    hide BinSize, BinElements, BinPages;
    BlockInRun(r, off, size);
    BlockInRun(r, off', size');
    var h, h' := HeadOf(r, off), HeadOf(r, off');
    HeadFacts(r, h);
    HeadFacts(r, h');
    if h != h' {
      if h < h' {
        assert h + RunLen(r.map_[h]) <= h';
      } else {
        assert h' + RunLen(r.map_[h']) <= h;
      }
    } else if r.map_[h].Srun? {
      var b := r.map_[h].bin;
      assert SmallAt(r, off, b) && SmallAt(r, off', b);
      var i :| IsSlot(h, b, i, off);
      var j :| IsSlot(h, b, j, off');
      SlotsApart(h, b, i, j, off, off');
      SlotsApart(h, b, j, i, off', off);
    }
  }

  // ---------------------------------------------------- changes of the run map

  /** The counter of the run that the small block at `off` lies in. */
  ghost function CounterOf(r: RunMap, off: int): nat
    requires RunsOk(r)
  {
    var h := HeadOf(r, off);
    if 0 <= h < PAGES && r.map_[h].Srun? then r.map_[h].counter else 0
  }

  /** The same small blocks with the same counters. */
  ghost predicate SameSmall(r: RunMap, r': RunMap)
    requires RunsOk(r) && RunsOk(r')
  {
    && (forall off, b: nat :: SmallAt(r', off, b) <==> SmallAt(r, off, b))
    && (forall off, b: nat :: SmallAt(r, off, b) ==> CounterOf(r', off) == CounterOf(r, off))
  }

  lemma AddRunBlocks(r: RunMap, page: nat, n: nat, r': RunMap)
    requires RunsOk(r) && 1 <= page && 1 <= n && page + n <= PAGES
    requires forall p :: page <= p < page + n ==> r.owner[p] == -1
    requires r' == RunMap(r.map_[page := Lrun(n)], Filled(r.owner, page, n, page))
    ensures RunsOk(r') && SameSmall(r, r')
    ensures forall off, k: nat :: LargeAt(r', off, k) <==> LargeAt(r, off, k) || (off == page * PAGE_SIZE && k == n)
  {
    hide BinSize, BinElements, BinPages, SlotOf;
    AddRun(r.map_, r.owner, page, n);
  }

  lemma RemoveRunBlocks(r: RunMap, page: nat, n: nat, r': RunMap)
    requires RunsOk(r) && 1 <= page < PAGES && r.owner[page] == page && n == RunLen(r.map_[page])
    requires page + n <= PAGES && r' == RunMap(r.map_[page := Frun], Filled(r.owner, page, n, -1))
    ensures RunsOk(r')
    ensures forall off, b: nat :: SmallAt(r', off, b) <==> SmallAt(r, off, b) && HeadOf(r, off) != page
    ensures forall off, b: nat :: SmallAt(r', off, b) ==> CounterOf(r', off) == CounterOf(r, off)
    ensures forall off, k: nat :: LargeAt(r', off, k) <==> LargeAt(r, off, k) && off != page * PAGE_SIZE
  {
    hide BinSize, BinElements, BinPages, SlotOf;
    RemoveRun(r.map_, r.owner, page, n);
    HeadFacts(r, page);
  }

  lemma ResizeRunBlocks(r: RunMap, page: nat, n: nat, k: nat, r': RunMap)
    requires RunsOk(r) && LargeHead(r, page, n) && 1 <= k && page + k <= PAGES
    requires k < n ==> page + n <= PAGES && r' == RunMap(r.map_[page := Lrun(k)], Filled(r.owner, page + k, n - k, -1))
    requires n < k ==> forall p :: page + n <= p < page + k ==> r.owner[p] == -1
    requires n < k ==> r' == RunMap(r.map_[page := Lrun(k)], Filled(r.owner, page + n, k - n, page))
    requires n != k
    ensures RunsOk(r') && SameSmall(r, r')
    ensures forall off, m: nat :: LargeAt(r', off, m) <==>
              if off == page * PAGE_SIZE then m == k else LargeAt(r, off, m)
  {
    hide BinSize, BinElements, BinPages, SlotOf;
    HeadFacts(r, page);
    if k < n {
      ShrinkRun(r.map_, r.owner, page, n, k);
    } else {
      GrowRun(r.map_, r.owner, page, n, k);
    }
  }

  lemma SplitRunBlocks(r: RunMap, page: nat, b: nat, r': RunMap)
    requires RunsOk(r) && b < BINS && LargeHead(r, page, BinPages(b))
    requires r'.owner == r.owner && SplitMap(r.map_, r'.map_, page, b)
    ensures RunsOk(r')
    ensures forall off, c: nat :: SmallAt(r', off, c) <==> SmallAt(r, off, c) || (c == b && SlotOf(page, b, off))
    ensures forall off, c: nat :: SmallAt(r, off, c) ==> CounterOf(r', off) == CounterOf(r, off)
    ensures forall off :: SlotOf(page, b, off) ==> HeadOf(r', off) == page && CounterOf(r', off) == 0
    ensures forall off, k: nat :: LargeAt(r', off, k) <==> LargeAt(r, off, k) && off != page * PAGE_SIZE
  {
    hide BinSize, BinElements, BinPages;
    SplitRun(r.map_, r.owner, page, b, r'.map_);
    HeadFacts(r, page);
    forall off | SlotOf(page, b, off)
      ensures HeadOf(r', off) == page && SmallAt(r', off, b)
    {
      var j :| IsSlot(page, b, j, off);
      SlotIsBlock(r', page, b, j, off);
    }
  }

  lemma CountRunBlocks(r: RunMap, page: nat, counter: nat, r': RunMap)
    requires RunsOk(r) && page < PAGES && r.owner[page] == page && r.map_[page].Srun?
    requires r' == RunMap(r.map_[page := Srun(r.map_[page].bin, counter)], r.owner)
    ensures RunsOk(r')
    ensures forall off, b: nat :: SmallAt(r', off, b) <==> SmallAt(r, off, b)
    ensures forall off :: HeadOf(r', off) == HeadOf(r, off)
    ensures forall off :: CounterOf(r', off) == if HeadOf(r, off) == page then counter else CounterOf(r, off)
    ensures forall off, k: nat :: LargeAt(r', off, k) <==> LargeAt(r, off, k)
  {
    hide BinSize, BinElements, BinPages, SlotOf;
    CountRun(r.map_, r.owner, page, counter);
  }
}

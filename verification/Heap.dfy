/**
 The heap of zend_alloc.c below its public interface.  The heap structure is a
 record; a chunk header is a record in the table `chunks`, found by its segment
 number as the source finds it by masking a pointer.  A `View` is
 specification state: the run structure and the blocks in the hands of callers.
 */
module Heap {
  import opened Basics
  import opened Bitset
  import opened PageSearch
  import opened Bins
  import opened PageInfo
  import opened Chunks
  import opened Blocks
  import opened Ledger
  import opened Memory
  import opened Collector
  import opened Space

  datatype State = State(
    size: int,
    peak: int,
    realSize: int,
    realPeak: int,
    limit: nat,
    overflow: bool,
    freeSlot: seq<seq<Ptr>>,
    hugeList: seq<Huge>,
    ring: seq<nat>,               // the chunks in use in list order, the main chunk first
    cached: seq<nat>,
    chunks: map<nat, Chunk>,
    chunksCount: int,
    peakChunksCount: int,
    cachedChunksCount: int,
    avgChunksCount: real,
    lastDeleteBoundary: int,
    lastDeleteCount: int,
    mapped: set<nat>,             // the segments obtained from the operating system
    mem: Bytes)

  /** `pending` are mappings obtained for huge blocks that have not made it to the huge list. */
  datatype View = View(owners: map<nat, seq<int>>, live: map<Ptr, nat>, pending: seq<Huge>)

  function SumHuge(huge: seq<Huge>): nat {
    if huge == [] then 0 else huge[0].size + SumHuge(huge[1..])
  }

  /** What `real_size` should be: the chunks, in use or cached, and the huge blocks. */
  function RealTotal(count: nat, huge: seq<Huge>): nat {
    CHUNK_SIZE * count + SumHuge(huge)
  }

  lemma OneChunkLess(count: nat, huge: seq<Huge>)
    requires 0 < count
    ensures RealTotal(count, huge) == RealTotal(count - 1, huge) + CHUNK_SIZE
  {
  }

  ghost function LayoutIn(h: State, v: View): Layout {
    LayoutOf(h.chunks, v.owners, h.ring)
  }

  ghost function Mappings(h: State, v: View): seq<Huge> {
    h.hugeList + v.pending
  }

  ghost predicate Placed(h: State, v: View) {
    SpaceOk(h.chunks, v.owners, h.ring, h.cached, Mappings(h, v), h.mapped)
  }

  /** The chunk counters and `real_size` agree with the lists. */
  ghost predicate Counted(h: State) {
    && h.chunksCount == |h.ring| && h.cachedChunksCount == |h.cached|
    && h.realSize == RealTotal(|h.ring| + |h.cached|, h.hugeList)
    && h.realSize <= h.realPeak && h.chunksCount <= h.peakChunksCount
  }

  /** The number of segments the system gives; the last is none of them, so that the end of a block is an address. */
  const SEGMENTS: nat := SIZE_T / CHUNK_SIZE - 1

  ghost predicate InRange(mapped: set<nat>) {
    forall s :: s in mapped ==> s < SEGMENTS
  }

  lemma RangeLess(mapped: set<nat>, mapped': set<nat>)
    requires InRange(mapped) && mapped' <= mapped
    ensures InRange(mapped')
  {
  }

  /** The free lists and the list of huge blocks are chained up in memory. */
  ghost predicate Sound(h: State) {
    InRange(h.mapped) && LinksOk(h.mem, h.freeSlot) && HugeLinked(h.mem, h.hugeList)
  }

  /** The invariant of the heap while a collection may be under way. */
  ghost predicate Inv(h: State, v: View) {
    && Placed(h, v)
    && Balanced(LayoutIn(h, v), h.freeSlot, h.hugeList, v.live)
    && Counted(h) && Sound(h)
  }

  /** The invariant between operations. */
  ghost predicate Valid(h: State, v: View) {
    Inv(h, v) && Idle(LayoutIn(h, v))
  }

  /** The invariant but for the counters. */
  ghost predicate Linked(h: State, v: View) {
    && Placed(h, v)
    && Balanced(LayoutIn(h, v), h.freeSlot, h.hugeList, v.live)
    && Idle(LayoutIn(h, v)) && Sound(h)
  }

  lemma InLayout(h: State, v: View, s: nat)
    requires RingOk(h.chunks, v.owners, h.ring) && s in h.ring
    ensures s in LayoutIn(h, v) && s in h.chunks && s in v.owners && Runs(h.chunks[s], v.owners[s])
    ensures LayoutIn(h, v)[s] == RunMap(h.chunks[s].map_, v.owners[s])
    ensures |h.chunks[s].map_| == PAGES && |v.owners[s]| == PAGES
  {
    hide PagesOk, UsedOk, HeadsBelow, CountFree, Pages;
  }

  lemma ApartPrefix(segs: set<nat>, huge: seq<Huge>, more: seq<Huge>)
    requires Apart(segs, huge + more)
    ensures Apart(segs, huge)
  {
    var all := huge + more;
    assert forall i :: 0 <= i < |huge| ==> all[i] == huge[i];
  }

  lemma SpaceApart(h: State, v: View)
    requires Placed(h, v)
    ensures Apart(LayoutIn(h, v).Keys, h.hugeList)
  {
    hide Runs, CacheOk, LayoutOf, Apart, Segments;
    LayoutKeys(h.chunks, v.owners, h.ring);
    ApartFewer(Members(h.ring) + Members(h.cached), Members(h.ring), Mappings(h, v));
    ApartPrefix(Members(h.ring), h.hugeList, v.pending);
  }

  /** A pointer, an error that ends the request, or the loss of the main chunk to the collector. */
  datatype Outcome = Ok(ptr: Ptr) | Bailout | MainLost

  // -------------------------------------------------------- operating system

  /** A fresh chunk-aligned mapping, or failure. */
  method OsMap(mapped: set<nat>, bytes: nat) returns (ok: bool, seg: nat, mapped': set<nat>)
    ensures ok ==> mapped' == mapped + Segments(seg, bytes) && mapped !! Segments(seg, bytes)
    ensures ok && InRange(mapped) ==> InRange(mapped')
    ensures !ok ==> mapped' == mapped
  {
    ok, seg, mapped' := false, 0, mapped;
    if * {
      return;
    }
    var rest := mapped;
    while rest != {}
      invariant rest <= mapped
      invariant forall s :: s in mapped && s !in rest ==> s < seg
      decreases rest
    {
      var s :| s in rest;
      if s >= seg {
        seg := s + 1;
      }
      rest := rest - {s};
    }
    if seg + Span(bytes) <= SEGMENTS {
      ok := true;
      mapped' := mapped + Segments(seg, bytes);
    }
  }

  // ------------------------------------------------------------------ chunks

  /** What zend_mm_delete_chunk decides by: chunks in use and in the cache, and the history of deletions. */
  datatype Tally = Tally(chunks: int, cached: int, history: (int, int))

  function TallyOf(h: State): Tally {
    Tally(h.chunksCount, h.cachedChunksCount, (h.lastDeleteBoundary, h.lastDeleteCount))
  }

  /** Whether zend_mm_delete_chunk keeps the chunk for later, `count` chunks being left. */
  predicate Delayed(t: Tally, count: int, avg: real) {
    || (count + t.cached) as real < avg + 0.1
    || (count == t.history.0 && t.history.1 >= 4)
  }

  predicate DelayDeletion(h: State, count: int) {
    Delayed(TallyOf(h), count, h.avgChunksCount)
  }

  /** The tally after a chunk has been deleted. */
  function Deleted(t: Tally, avg: real): Tally {
    var count := t.chunks - 1;
    if Delayed(t, count, avg) then Tally(count, t.cached + 1, t.history)
    else Tally(count, t.cached, if t.cached == 0 then Noted(t.history, count) else t.history)
  }

  function {:tailrecursion false} DeletedTimes(t: Tally, avg: real, n: nat): Tally {
    if n == 0 then t else Deleted(DeletedTimes(t, avg, n - 1), avg)
  }

  /** All deletions since `h` have been decided one after the other. */
  ghost predicate DeletedSince(h: State, h': State) {
    && |h'.ring| <= |h.ring| && h'.avgChunksCount == h.avgChunksCount
    && TallyOf(h') == DeletedTimes(TallyOf(h), h.avgChunksCount, |h.ring| - |h'.ring|)
  }

  /** As long as no more chunks are in use and cached than on average, deleting chunks only moves them to the cache. */
  lemma {:induction false} DeletionsCached(t: Tally, avg: real, n: nat)
    requires n <= t.chunks && (t.chunks + t.cached) as real <= avg
    ensures DeletedTimes(t, avg, n) == Tally(t.chunks - n, t.cached + n, t.history)
  {
    if n > 0 {
      DeletionsCached(t, avg, n - 1);
    }
  }

  /** The history of deletions, as the number of chunks left and how often that number was reached again. */
  function Noted(history: (int, int), count: int): (int, int) {
    if count != history.0 then (count, 0) else (count, history.1 + 1)
  }

  function {:tailrecursion false} NotedTimes(history: (int, int), count: int, n: nat): (int, int) {
    if n == 0 then history else Noted(NotedTimes(history, count, n - 1), count)
  }

  /**
   After five deletions in a row that leave the same number of chunks, whatever was
   before, the next one is delayed.
   */
  lemma FiveDeletions(h: State, history: (int, int), count: int)
    requires history.0 != count && TallyOf(h).history == NotedTimes(history, count, 5)
    ensures DelayDeletion(h, count)
    ensures forall n: nat :: n < 5 ==> NotedTimes(history, count, n).0 != count || NotedTimes(history, count, n).1 < 4
  {
    assert NotedTimes(history, count, 0) == history;
    assert NotedTimes(history, count, 1) == (count, 0);
    assert NotedTimes(history, count, 2) == (count, 1);
    assert NotedTimes(history, count, 3) == (count, 2);
    assert NotedTimes(history, count, 4) == (count, 3);
  }

  /** A chunk is kept exactly while, rounded to tenths, no more chunks than on average are left, or to end a series. */
  lemma DelayedExactly(h: State, count: int)
    ensures DelayDeletion(h, count) <==>
              10.0 * ((count + h.cachedChunksCount) as real - h.avgChunksCount) < 1.0
              || (count == h.lastDeleteBoundary && 4 <= h.lastDeleteCount)
  {
  }

  /** No chunk but the main one, and perhaps `s`, is without runs. */
  ghost predicate CompactBut(h: State, v: View, s: nat) {
    forall i :: 0 < i < |h.ring| && h.ring[i] != s ==> h.ring[i] in v.owners && v.owners[h.ring[i]] != NoRuns()
  }

  /** No chunk but the main one is without runs: what is empty has been given back or is in the cache. */
  ghost predicate Compact(h: State, v: View) {
    forall i :: 0 < i < |h.ring| ==> h.ring[i] in v.owners && v.owners[h.ring[i]] != NoRuns()
  }

  ghost predicate KeepsCompact(h: State, v: View, h': State, v': View) {
    Compact(h, v) ==> Compact(h', v')
  }

  lemma CompactUnlink(h: State, v: View, s: nat)
    requires NoDup(h.ring) && h.ring != [] && s != h.ring[0]
    ensures CompactBut(h, v, s) ==>
              forall h': State :: h'.ring == Unlink(h.ring, s) ==> Compact(h', v.(owners := v.owners - {s}))
  {
    hide NoRuns, Unlink;
    UnlinkMembers(h.ring, s);
    var rest := Unlink(h.ring, s);
    if CompactBut(h, v, s) {
      forall i | 0 < i < |rest| ensures rest[i] in v.owners - {s} && v.owners[rest[i]] != NoRuns() {
        assert rest[i] in Members(rest);
        var j :| 0 <= j < |h.ring| && h.ring[j] == rest[i];
      }
    }
  }

  /** zend_mm_delete_chunk: an empty chunk goes to the cache, or to the system. */
  method DeleteChunk(h: State, s: nat, ghost v: View) returns (h': State, ghost v': View)
    requires Inv(h, v) && s in h.ring && s != h.ring[0] && v.owners[s] == NoRuns()
    ensures Inv(h', v') && v' == v.(owners := v.owners - {s}) && (CompactBut(h, v, s) ==> Compact(h', v'))
    ensures h'.ring == Unlink(h.ring, s) && LayoutIn(h', v') == LayoutIn(h, v) - {s}
    ensures s in h.chunks && (h.cached != [] ==> h.cached[0] in h.chunks) && h'.mapped <= h.mapped
    ensures h'.realSize == if DelayDeletion(h, h.chunksCount - 1) then h.realSize else h.realSize - CHUNK_SIZE
    ensures forall x :: x in h'.chunks ==> x in h.chunks && h'.chunks[x] == h.chunks[x]
    ensures TallyOf(h') == Deleted(TallyOf(h), h.avgChunksCount)
    ensures if DelayDeletion(h, h.chunksCount - 1) then h'.cached == [s] + h.cached && h'.mapped == h.mapped
            else if h.cached == [] || h.chunks[s].num > h.chunks[h.cached[0]].num then
              h'.cached == h.cached && h'.mapped == h.mapped - {s}
            else h'.cached == [s] + h.cached[1..] && h'.mapped == h.mapped - {h.cached[0]}
    ensures h' == h.(ring := h'.ring, cached := h'.cached, chunks := h'.chunks, chunksCount := h'.chunksCount,
                     cachedChunksCount := h'.cachedChunksCount, realSize := h'.realSize,
                     lastDeleteBoundary := h'.lastDeleteBoundary, lastDeleteCount := h'.lastDeleteCount,
                     mapped := h'.mapped)
  {
    hide LinksOk, HugeLinked, BytesKept, RingOk, CacheOk, SegmentsOk, Balanced, LayoutOf, Unlink, NoRuns, RealTotal;
    RetireChunk(h.chunks, v.owners, h.ring, h.cached, Mappings(h, v), h.mapped, s);
    RingNoDup(h, v);
    CompactUnlink(h, v, s);
    InLayout(h, v, s);
    RemoveChunk(LayoutIn(h, v), h.freeSlot, h.hugeList, v.live, s);
    OneChunkLess(|h.ring| + |h.cached|, h.hugeList);
    v' := v.(owners := v.owners - {s});
    h' := h.(ring := Unlink(h.ring, s), chunksCount := h.chunksCount - 1);
    if DelayDeletion(h', h'.chunksCount) {
      h' := h'.(cachedChunksCount := h'.cachedChunksCount + 1, cached := [s] + h'.cached);
      return;
    }
    h' := h'.(realSize := h'.realSize - CHUNK_SIZE);
    if h'.cached == [] {
      if h'.chunksCount != h'.lastDeleteBoundary {
        h' := h'.(lastDeleteBoundary := h'.chunksCount, lastDeleteCount := 0);
      } else {
        h' := h'.(lastDeleteCount := h'.lastDeleteCount + 1);
      }
    }
    if h'.cached == [] || h'.chunks[s].num > h'.chunks[h'.cached[0]].num {
      h' := h'.(chunks := h'.chunks - {s}, mapped := h'.mapped - {s});
    } else {
      var victim := h'.cached[0];
      h' := h'.(chunks := h'.chunks - {victim}, mapped := h'.mapped - {victim}, cached := [s] + h'.cached[1..]);
    }
  }

  // -------------------------------------------------------------- collection

  /** Finding the head of a small block's run through the page map. */
  lemma LocateRun(L0: Layout, r: RunMap, p: Ptr, b: nat)
    requires LayoutOk(L0) && Small(L0, p, b) && SameRunMap(L0[p.seg], r)
    ensures p.off / PAGE_SIZE < PAGES
    ensures var page := p.off / PAGE_SIZE;
            var head := if r.map_[page].Nrun? then page - r.map_[page].offset else page;
            && 0 <= head && InRun(L0, p, p.seg, head) && SmallHead(L0[p.seg], head, b)
            && r.map_[head].Srun? && r.map_[head].bin == b
  {
    hide SlotOf, BinPages;
    var r0 := L0[p.seg];
    SmallSlot(r0, p.off, b);
    var page, h := p.off / PAGE_SIZE, HeadOf(r0, p.off);
    assert PageOk(r0.map_, r0.owner, page);
    assert r.map_[page] == r0.map_[page] || r.map_[page].Srun?;
    assert r.map_[h].Srun?;
  }

  lemma SegInRing(h: State, v: View, L0: Layout, p: Ptr, b: nat)
    requires RingOk(h.chunks, v.owners, h.ring) && LayoutOk(L0) && SameRuns(L0, LayoutIn(h, v)) && Small(L0, p, b)
    ensures p.seg in h.ring && SameRunMap(L0[p.seg], LayoutIn(h, v)[p.seg])
  {
    hide LinksOk, HugeLinked, InRange, BytesKept, Runs, SameRunMap, SmallAt;
    LayoutKeys(h.chunks, v.owners, h.ring);
    assert p.seg in Members(h.ring);
  }

  /** A new page map with the same runs keeps the chunk in order. */
  lemma RecountChunk(h: State, v: View, s: nat, head: nat, counter: nat)
    requires Placed(h, v) && s in h.ring
    requires head < PAGES && v.owners[s][head] == head && h.chunks[s].map_[head].Srun?
    ensures var c := h.chunks[s];
            var h' := h.(chunks := h.chunks[s := c.(map_ := c.map_[head := Srun(c.map_[head].bin, counter)])]);
            && Placed(h', v)
            && LayoutIn(h', v) == LayoutIn(h, v)[s := RunMap(h'.chunks[s].map_, v.owners[s])]
  {
    hide LinksOk, HugeLinked, InRange, BytesKept, SegmentsOk, CountFree, Pages, LayoutOf, PagesOk;
    var c := h.chunks[s];
    var c' := c.(map_ := c.map_[head := Srun(c.map_[head].bin, counter)]);
    CountRun(c.map_, v.owners[s], head, counter);
    assert Runs(c', v.owners[s]);
    UpdateChunk(h.chunks, v.owners, h.ring, s, c', v.owners[s]);
    assert v.owners[s := v.owners[s]] == v.owners;
    NotCached(h.ring, h.cached, Mappings(h, v), h.mapped, s);
    UpdateCache(h.chunks, h.cached, s, c');
  }

  /** One element of the free list of bin `b` is counted. */
  method CountSlot(h: State, b: nat, k: nat, ghost v: View, ghost L0: Layout) returns (h': State, full: bool)
    requires Placed(h, v) && b < BINS && |h.freeSlot| == BINS && k < |h.freeSlot[b]|
    requires LayoutOk(L0) && FreeListOk(L0, h.freeSlot[b], b, v.live)
             && TalliedBin(L0, LayoutIn(h, v), h.freeSlot[b][..k], b)
    ensures h' == h.(chunks := h'.chunks) && Placed(h', v)
    ensures TalliedBin(L0, LayoutIn(h', v), h.freeSlot[b][..k + 1], b)
    ensures forall c: nat, list :: c != b && TalliedBin(L0, LayoutIn(h, v), list, c) ==>
              TalliedBin(L0, LayoutIn(h', v), list, c)
    ensures forall s, g ::
              s in L0 && SmallHead(L0[s], g, b) && CountIn(L0, h.freeSlot[b][..k + 1], s, g) == BinElements(b) ==>
              full || CountIn(L0, h.freeSlot[b][..k], s, g) == BinElements(b)
  {
    hide LinksOk, HugeLinked, InRange, BytesKept, RingOk, CacheOk, SegmentsOk, LayoutOf, Runs, SameRunMap, SmallAt,
         CountIn, BinElements, RunsOk, TalliedBin, InRun, SmallHead;
    var list := h.freeSlot[b];
    var p := list[k];
    ghost var L := LayoutIn(h, v);
    assert Small(L0, p, b);
    assert SameRuns(L0, L) by { TalliedSame(L0, L, list[..k], b); }
    SegInRing(h, v, L0, p, b);
    InLayout(h, v, p.seg);
    LocateRun(L0, L[p.seg], p, b);
    var c := h.chunks[p.seg];
    var page := p.off / PAGE_SIZE;
    var info := c.map_[page];
    if info.Nrun? {
      page := page - info.offset;
      info := c.map_[page];
    }
    var freeCounter := info.counter + 1;
    full := freeCounter == BinElements(b);
    h' := h.(chunks := h.chunks[p.seg := c.(map_ := c.map_[page := SrunEx(b, freeCounter)])]);
    SameOwner(L0[p.seg], L[p.seg], page, b);
    RecountChunk(h, v, p.seg, page, freeCounter % 512);
    ghost var r' := RunMap(h'.chunks[p.seg].map_, v.owners[p.seg]);
    TallyStep(L0, L, list, k, b, p.seg, page, r');
    forall c: nat, l | c != b && TalliedBin(L0, L, l, c) ensures TalliedBin(L0, LayoutIn(h', v), l, c) {
      TallyOther(L0, L, l, c, b, p.seg, page, r');
    }
    forall s, g | s in L0 && SmallHead(L0[s], g, b) && CountIn(L0, list[..k + 1], s, g) == BinElements(b)
      ensures full || CountIn(L0, list[..k], s, g) == BinElements(b)
    {
      FullStep(L0, L, list, k, b, p.seg, page, s, g);
    }
  }

  /** The count of a run reaches the number of its slots only when its counter steps there. */
  lemma FullStep(L0: Layout, L: Layout, list: seq<Ptr>, k: nat, b: nat, seg: nat, page: nat, s: nat, g: int)
    requires LayoutOk(L0) && b < BINS && k < |list| && TalliedBin(L0, L, list[..k], b)
    requires InRun(L0, list[k], seg, page) && seg in L0 && SmallHead(L0[seg], page, b)
    requires s in L0 && SmallHead(L0[s], g, b) && CountIn(L0, list[..k + 1], s, g) == BinElements(b)
    ensures L[seg].map_[page].Srun?
    ensures CountIn(L0, list[..k], s, g) == BinElements(b) || L[seg].map_[page].counter + 1 == BinElements(b)
  {
    hide CountIn, BinElements, RunsOk;
    assert SameRunMap(L0[seg], L[seg]);
    CountStep(L0, list, k, s, g);
    BinFacts(b);
  }

  lemma SameOwner(r0: RunMap, r: RunMap, page: int, b: nat)
    requires RunsOk(r0) && SameRunMap(r0, r) && SmallHead(r0, page, b)
    ensures r.owner[page] == page && 0 <= page < PAGES
  {
  }

  /** The first pass over a free list: every element is counted at its run. */
  method CountBin(h: State, b: nat, ghost v: View, ghost L0: Layout) returns (h': State, hasFree: bool)
    requires Placed(h, v) && b < BINS && |h.freeSlot| == BINS
    requires LayoutOk(L0) && FreeListOk(L0, h.freeSlot[b], b, v.live) && TalliedBin(L0, LayoutIn(h, v), [], b)
    ensures h' == h.(chunks := h'.chunks) && Placed(h', v)
    ensures TalliedBin(L0, LayoutIn(h', v), h.freeSlot[b], b)
    ensures forall c: nat, list :: c != b && TalliedBin(L0, LayoutIn(h, v), list, c) ==>
              TalliedBin(L0, LayoutIn(h', v), list, c)
    ensures forall s, g :: s in L0 && SmallHead(L0[s], g, b) && CountIn(L0, h.freeSlot[b], s, g) == BinElements(b) ==>
              hasFree
  {
    hide Placed, LayoutIn, TalliedBin, SmallHead, CountIn, BinElements, RunsOk;
    var list := h.freeSlot[b];
    h', hasFree := h, false;
    var k := 0;
    assert list[..0] == [];
    forall s, g ensures CountIn(L0, list[..0], s, g) == 0 { CountNone(L0, s, g); }
    BinFacts(b);
    while k < |list|
      invariant 0 <= k <= |list| && h' == h.(chunks := h'.chunks) && Placed(h', v)
      invariant TalliedBin(L0, LayoutIn(h', v), list[..k], b)
      invariant forall c: nat, l :: c != b && TalliedBin(L0, LayoutIn(h, v), l, c) ==>
                TalliedBin(L0, LayoutIn(h', v), l, c)
      invariant forall s, g :: s in L0 && SmallHead(L0[s], g, b) && CountIn(L0, list[..k], s, g) == BinElements(b) ==>
                hasFree
    {
      var full;
      h', full := CountSlot(h', b, k, v, L0);
      hasFree := hasFree || full;
      k := k + 1;
    }
    assert list[..k] == list;
  }

  lemma TalliedSame(L0: Layout, L: Layout, list: seq<Ptr>, b: nat)
    requires LayoutOk(L0) && TalliedBin(L0, L, list, b)
    ensures SameRuns(L0, L)
  {
  }

  lemma CountNone(L0: Layout, s: nat, g: int)
    requires LayoutOk(L0)
    ensures CountIn(L0, [], s, g) == 0
  {
  }

  /** Each list holds slots of its bin. */
  ghost predicate SlotsIn(L: Layout, free: seq<seq<Ptr>>)
    requires LayoutOk(L)
  {
    forall c, i :: 0 <= c < |free| && 0 <= i < |free[c]| ==> Small(L, free[c][i], c)
  }

  lemma SlotsInBalanced(L: Layout, free: seq<seq<Ptr>>, huge: seq<Huge>, live: map<Ptr, nat>)
    requires Balanced(L, free, huge, live)
    ensures SlotsIn(L, free)
  {
    hide Small, Doomed, LiveOk, Complete, HugeOk;
    forall c, i | 0 <= c < |free| && 0 <= i < |free[c]| ensures Small(L, free[c][i], c) {
      assert FreeListOk(L, free[c], c, live);
    }
  }

  lemma SlotsInSurvivors(L: Layout, free: seq<seq<Ptr>>, b: nat)
    requires LayoutOk(L) && SlotsIn(L, free) && b < BINS && b < |free|
    ensures SlotsIn(L, free[b := Survivors(L, free[b], free[b], b)])
  {
    hide Small, Survivors, Collectable;
    SurvivorsMembers(L, free[b], free[b], b);
    var kept := Survivors(L, free[b], free[b], b);
    forall i | 0 <= i < |kept| ensures Small(L, kept[i], b) {
      assert kept[i] in free[b];
      var j :| 0 <= j < |free[b]| && free[b][j] == kept[i];
    }
  }

  /** The second pass: the slots of full runs leave the list, the others keep their order. */
  method FilterBin(h: State, b: nat, ghost v: View, ghost L0: Layout, ghost free0: seq<seq<Ptr>>) returns (h': State)
    requires Placed(h, v) && b < BINS && |h.freeSlot| == BINS
    requires LayoutOk(L0) && FreeListOk(L0, h.freeSlot[b], b, v.live)
             && TalliedBin(L0, LayoutIn(h, v), h.freeSlot[b], b)
    requires Balanced(L0, free0, h.hugeList, v.live) && Apart(L0.Keys, h.hugeList) && LinksOk(h.mem, h.freeSlot)
    requires SlotsIn(L0, h.freeSlot)
    ensures h' == h.(freeSlot := h.freeSlot[b := Survivors(L0, h.freeSlot[b], h.freeSlot[b], b)], mem := h'.mem)
    ensures LinksOk(h'.mem, h'.freeSlot) && BytesKept(h.mem, h'.mem, v.live)
  {
    hide LinksOk, HugeLinked, InRange, BytesKept, RingOk, CacheOk, SegmentsOk, LayoutOf, Runs, SameRunMap, SmallAt,
         BinElements, RunsOk, TalliedBin, InRun, SmallHead, Survivors, Collectable, SameRuns, Doomed, Balanced,
         SlotsIn, Apart, Relinked, ListLinked, Small, AddressAt, WriteLink;
    var list := h.freeSlot[b];
    var kept: seq<Ptr> := [];
    var mem := h.mem;
    KeptRefl(mem, v.live);
    FilterStart(mem, list) by { OneList(mem, h.freeSlot, b); }
    ghost var L := LayoutIn(h, v);
    TalliedSame(L0, L, list, b);
    SameRunsBlocks(L0, L);
    OneList(mem, h.freeSlot, b);
    assert list[..0] == [];
    SurvivorsStep(L0, list, list, 0, b);
    var k := 0;
    while k < |list|
      invariant 0 <= k <= |list| && kept == Survivors(L0, list, list[..k], b)
      invariant Relinked(mem, list, kept, k) && BytesKept(h.mem, mem, v.live) && OthersLinked(mem, h.freeSlot, b)
    {
      var p := list[k];
      assert Small(L0, p, b);
      SegInRing(h, v, L0, p, b);
      InLayout(h, v, p.seg);
      LocateRun(L0, L[p.seg], p, b);
      var c := h.chunks[p.seg];
      var page := p.off / PAGE_SIZE;
      var info := c.map_[page];
      if info.Nrun? {
        page := page - info.offset;
        info := c.map_[page];
      }
      DoomedIsCollectable(L0, L, list, b, v.live, p);
      CounterThere(L0, L, p, b, page);
      SurvivorsStep(L0, list, list, k, b);
      if info.counter != BinElements(b) {
        FilterKeep(mem, list, kept, k);
        kept := kept + [p];
      } else if kept == [] {
        FilterDropFirst(mem, list, k);
      } else {
        ghost var before := mem;
        mem := WriteLink(mem, kept[|kept| - 1], AddressAt(list, k + 1));
        SurvivorsMembers(L0, list, list[..k], b);
        assert NoDup(list[..k]);
        DropLink(L0, free0, h.hugeList, v.live, h.freeSlot, b, kept, k, before, mem);
        KeptTrans(h.mem, before, mem, v.live);
      }
      k := k + 1;
    }
    assert list[..k] == list;
    h' := h.(freeSlot := h.freeSlot[b := kept], mem := mem);
    FilterEnd(mem, list, kept);
    AllLists(mem, h.freeSlot, b, kept);
  }

  /** The lists of all bins but `b` are linked. */
  ghost predicate OthersLinked(mem: Bytes, free: seq<seq<Ptr>>, b: nat) {
    forall c :: 0 <= c < |free| && c != b ==> ListLinked(mem, free[c])
  }

  lemma OneList(mem: Bytes, free: seq<seq<Ptr>>, b: nat)
    requires LinksOk(mem, free) && b < |free|
    ensures ListLinked(mem, free[b]) && OthersLinked(mem, free, b)
  {
    hide ListLinked;
  }

  lemma AllLists(mem: Bytes, free: seq<seq<Ptr>>, b: nat, list: seq<Ptr>)
    requires b < |free| && OthersLinked(mem, free, b) && ListLinked(mem, list)
    ensures LinksOk(mem, free[b := list])
  {
    hide ListLinked;
  }

  /** Taking a slot out of the list of bin `b` rewrites one link, and no other list or live block notices. */
  lemma DropLink(L0: Layout, free0: seq<seq<Ptr>>, huge: seq<Huge>, live: map<Ptr, nat>, free: seq<seq<Ptr>>, b: nat,
                 kept: seq<Ptr>, k: nat, mem: Bytes, mem': Bytes)
    requires Balanced(L0, free0, huge, live) && Apart(L0.Keys, huge) && |free| == BINS && b < BINS
             && FreeListOk(L0, free[b], b, live)
    requires SlotsIn(L0, free)
    requires k < |free[b]| && kept != [] && NoDup(kept) && forall p :: p in kept ==> p in free[b][..k]
    requires Relinked(mem, free[b], kept, k) && OthersLinked(mem, free, b)
    requires mem' == WriteLink(mem, kept[|kept| - 1], AddressAt(free[b], k + 1))
    ensures Relinked(mem', free[b], kept, k + 1) && OthersLinked(mem', free, b) && BytesKept(mem, mem', live)
  {
    hide Small, Doomed, Balanced, Apart, Relinked, ListLinked, BytesKept, WriteLink, AddressAt, Address, OnlyWithin;
    BalancedLayout(L0, free0, huge, live);
    var p := kept[|kept| - 1];
    assert p in free[b][..k];
    var i :| 0 <= i < k && free[b][i] == p;
    assert Small(L0, free[b][i], b) && free[b][i] !in live;
    FilterDrop(L0, mem, mem', free[b], kept, k, b) by {
      forall q | q in free[b] ensures Small(L0, q, b) {
        var j :| 0 <= j < |free[b]| && free[b][j] == q;
      }
    }
    WriteLinkAt(mem, p, AddressAt(free[b], k + 1));
    WriteFree(L0, free0, huge, live, p, b, mem, mem');
    forall c | 0 <= c < |free| && c != b ensures ListLinked(mem', free[c]) {
      WriteFreeList(L0, p, b, free[c], c, mem, mem');
    }
  }

  lemma BalancedLayout(L: Layout, free: seq<seq<Ptr>>, huge: seq<Huge>, live: map<Ptr, nat>)
    requires Balanced(L, free, huge, live)
    ensures LayoutOk(L)
  {
  }

  lemma SurvivorsStep(L0: Layout, all: seq<Ptr>, list: seq<Ptr>, k: nat, b: nat)
    requires LayoutOk(L0) && b < BINS && k <= |list|
    ensures k < |list| ==> Survivors(L0, all, list[..k + 1], b) ==
                           Survivors(L0, all, list[..k], b) + if Collectable(L0, all, list[k], b) then [] else [list[k]]
    ensures Survivors(L0, all, [], b) == []
  {
    hide Collectable, RunsOk;
    if k < |list| {
      assert list[..k + 1][..k] == list[..k];
    }
  }

  lemma CounterThere(L0: Layout, L: Layout, p: Ptr, b: nat, head: nat)
    requires LayoutOk(L0) && LayoutOk(L) && SameRuns(L0, L) && Small(L0, p, b) && InRun(L0, p, p.seg, head)
             && head < PAGES
    requires L[p.seg].map_[head].Srun?
    ensures Doomed(L, p, b) <==> L[p.seg].map_[head].counter == BinElements(b)
  {
    hide SmallAt;
    assert SameRunMap(L0[p.seg], L[p.seg]);
  }

  /** Both passes over all bins. */
  method CountAndFilter(h: State, ghost v: View) returns (h': State)
    requires Valid(h, v)
    ensures h' == h.(chunks := h'.chunks, freeSlot := h'.freeSlot, mem := h'.mem) && Inv(h', v)
            && BytesKept(h.mem, h'.mem, v.live)
    ensures SameRuns(LayoutIn(h, v), LayoutIn(h', v))
    ensures forall b :: 0 <= b < BINS ==> TalliedBin(LayoutIn(h, v), LayoutIn(h', v), h.freeSlot[b], b)
    ensures forall b :: 0 <= b < BINS ==> h'.freeSlot[b] == Survivors(LayoutIn(h, v), h.freeSlot[b], h.freeSlot[b], b)
  {
    hide LinksOk, HugeLinked, InRange, BytesKept, SpaceOk, LayoutOf, TalliedBin, SmallHead, CountIn, BinElements,
         RunsOk, Survivors, Collectable, FreeListOk, RealTotal, SameRuns, Idle, Complete, LiveOk, HugeOk, Small,
         SlotsIn, Apart;
    ghost var L0 := LayoutIn(h, v);
    h' := h;
    SlotsInBalanced(L0, h.freeSlot, h.hugeList, v.live);
    SpaceApart(h, v);
    KeptRefl(h.mem, v.live);
    forall c: nat ensures TalliedBin(L0, L0, [], c) { TallyStart(L0, c); }
    assert forall b :: 0 <= b < BINS ==> FreeListOk(L0, h.freeSlot[b], b, v.live);
    var b := 0;
    while b < BINS
      invariant 0 <= b <= BINS && h' == h.(chunks := h'.chunks, freeSlot := h'.freeSlot, mem := h'.mem) && Placed(h', v)
      invariant |h'.freeSlot| == BINS && SlotsIn(L0, h'.freeSlot) && Sound(h') && BytesKept(h.mem, h'.mem, v.live)
      invariant forall c :: 0 <= c < b ==> h'.freeSlot[c] == Survivors(L0, h.freeSlot[c], h.freeSlot[c], c)
      invariant forall c :: b <= c < BINS ==> h'.freeSlot[c] == h.freeSlot[c]
      invariant forall c :: 0 <= c < b ==> TalliedBin(L0, LayoutIn(h', v), h.freeSlot[c], c)
      invariant forall c :: b <= c < BINS ==> TalliedBin(L0, LayoutIn(h', v), [], c)
    {
      var hasFree;
      h', hasFree := CountBin(h', b, v, L0);
      if hasFree {
        SlotsInSurvivors(L0, h'.freeSlot, b);
        ghost var before := h'.mem;
        h' := FilterBin(h', b, v, L0, h.freeSlot);
        HugeKept(L0, h.freeSlot, h.hugeList, v.live, before, h'.mem);
        KeptTrans(h.mem, before, h'.mem, v.live);
      } else {
        NothingFull(L0, h.freeSlot[b], b, v.live);
      }
      b := b + 1;
    }
    assert TalliedBin(L0, LayoutIn(h', v), h.freeSlot[0], 0);
    TalliedSame(L0, LayoutIn(h', v), h.freeSlot[0], 0);
    SameRunsBlocks(L0, LayoutIn(h', v));
    TalliedLedger(L0, LayoutIn(h', v), h.freeSlot, h'.freeSlot, h.hugeList, v.live);
  }

  lemma NothingFull(L0: Layout, list: seq<Ptr>, b: nat, live: map<Ptr, nat>)
    requires LayoutOk(L0) && b < BINS && FreeListOk(L0, list, b, live)
    requires forall s, g :: s in L0 && SmallHead(L0[s], g, b) ==> CountIn(L0, list, s, g) != BinElements(b)
    ensures Survivors(L0, list, list, b) == list
  {
    hide RunsOk, SmallAt, BinElements, CountIn, AllListed;
    forall p | p in list ensures !Collectable(L0, list, p, b) {
      var i :| 0 <= i < |list| && list[i] == p;
      assert Small(L0, list[i], b);
      SmallSlot(L0[p.seg], p.off, b);
      CountFull(L0, list, p.seg, HeadOf(L0[p.seg], p.off), b, live);
    }
    SurvivorsAll(L0, list, list, b);
  }

  /** A chunk of the ring is stored back with a new run structure. */
  lemma StoreChunk(h: State, v: View, s: nat, c: Chunk, owner: seq<int>, h': State, v': View)
    requires Placed(h, v) && s in h.ring && Runs(c, owner)
    requires h' == h.(chunks := h.chunks[s := c]) && v' == v.(owners := v.owners[s := owner])
    ensures Placed(h', v')
    ensures LayoutIn(h', v') == LayoutIn(h, v)[s := RunMap(c.map_, owner)]
  {
    hide LinksOk, HugeLinked, InRange, BytesKept, SegmentsOk, Runs, LayoutOf, RingOk, CacheOk;
    UpdateChunk(h.chunks, v.owners, h.ring, s, c, owner);
    NotCached(h.ring, h.cached, Mappings(h, v), h.mapped, s);
    UpdateCache(h.chunks, h.cached, s, c);
  }

  ghost predicate IdleChunk(r: RunMap)
    requires RunsOk(r)
  {
    IdleBelow(r, PAGES)
  }

  /** The sweep of the ring stands before its `k`-th chunk; `L` is the layout it started from. */
  ghost predicate SweepingRing(h: State, v: View, L: Layout, k: nat) {
    && Inv(h, v) && k <= |h.ring|
    && (forall i :: 0 <= i < k ==> h.ring[i] in LayoutIn(h, v) && IdleChunk(LayoutIn(h, v)[h.ring[i]]))
    && (forall i :: k <= i < |h.ring| ==> h.ring[i] in L && h.ring[i] in LayoutIn(h, v)
                                          && LayoutIn(h, v)[h.ring[i]] == L[h.ring[i]])
  }

  lemma SweptChunk(h: State, v: View, L: Layout, k: nat, c: Chunk, owner: seq<int>, h': State, v': View)
    requires SweepingRing(h, v, L, k) && k < |h.ring| && Runs(c, owner)
    requires h' == h.(chunks := h.chunks[h.ring[k] := c]) && v' == v.(owners := v.owners[h.ring[k] := owner])
    requires Balanced(LayoutIn(h, v)[h.ring[k] := RunMap(c.map_, owner)], h.freeSlot, h.hugeList, v.live)
    requires IdleBelow(RunMap(c.map_, owner), PAGES)
    ensures SweepingRing(h', v', L, k + 1)
  {
    hide LinksOk, HugeLinked, InRange, BytesKept, SegmentsOk, Runs, LayoutOf, CacheOk, Balanced, RealTotal, IdleBelow,
         RunsOk;
    var s := h.ring[k];
    StoreChunk(h, v, s, c, owner, h', v');
    forall i | 0 <= i < |h.ring| && i != k ensures h.ring[i] != s {}
  }

  lemma DroppedChunk(h: State, v: View, L: Layout, k: nat, h': State, v': View)
    requires SweepingRing(h, v, L, k + 1) && k < |h.ring| && Inv(h', v')
    requires h'.ring == Unlink(h.ring, h.ring[k]) && LayoutIn(h', v') == LayoutIn(h, v) - {h.ring[k]}
    ensures SweepingRing(h', v', L, k)
  {
    hide LinksOk, HugeLinked, InRange, BytesKept, SegmentsOk, Runs, LayoutOf, CacheOk, Balanced, RealTotal, IdleChunk,
         RunsOk, Unlink;
    UnlinkAt(h.ring, k);
    forall i | 0 <= i < |h'.ring| ensures h'.ring[i] == h.ring[if i < k then i else i + 1] && h'.ring[i] != h.ring[k] {}
  }

  /** The pages in use in the chunks of the ring, headers aside. */
  function BusyPages(chunks: map<nat, Chunk>, ring: seq<nat>): int {
    if ring == [] then 0
    else
      var busy := if ring[0] in chunks then PAGES - FIRST_PAGE - chunks[ring[0]].freePages else 0;
      busy + BusyPages(chunks, ring[1..])
  }

  lemma {:induction false} BusySame(chunks: map<nat, Chunk>, chunks': map<nat, Chunk>, ring: seq<nat>)
    requires forall s :: s in ring ==> s in chunks && s in chunks' && chunks'[s].freePages == chunks[s].freePages
    ensures BusyPages(chunks', ring) == BusyPages(chunks, ring)
  {
    if ring != [] {
      BusySame(chunks, chunks', ring[1..]);
    }
  }

  lemma {:induction false} BusySplit(chunks: map<nat, Chunk>, ring: seq<nat>, k: nat)
    requires k < |ring| && ring[k] in chunks
    ensures BusyPages(chunks, ring)
         == BusyPages(chunks, ring[..k] + ring[k + 1..]) + (PAGES - FIRST_PAGE - chunks[ring[k]].freePages)
  {
    var rest := ring[..k] + ring[k + 1..];
    if k == 0 {
      assert rest == ring[1..];
    } else {
      BusySplit(chunks, ring[1..], k - 1);
      assert rest[1..] == ring[1..][..k - 1] + ring[1..][k..];
    }
  }

  /** One chunk of the ring has got more free pages. */
  lemma BusyUpdate(h: State, v: View, k: nat, c: Chunk)
    requires Placed(h, v) && k < |h.ring|
    ensures h.ring[k] in h.chunks
    ensures BusyPages(h.chunks[h.ring[k] := c], h.ring)
              == BusyPages(h.chunks, h.ring) + h.chunks[h.ring[k]].freePages - c.freePages
  {
    hide LinksOk, HugeLinked, InRange, BytesKept, Runs, CacheOk, SegmentsOk, BusyPages;
    var s, rest := h.ring[k], h.ring[..k] + h.ring[k + 1..];
    BusySplit(h.chunks, h.ring, k);
    BusySplit(h.chunks[s := c], h.ring, k);
    forall x | x in rest ensures x in h.ring && x != s {}
    BusySame(h.chunks, h.chunks[s := c], rest);
  }

  /** An empty chunk has left the ring. */
  lemma BusyUnlink(h: State, v: View, k: nat, h': State, v': View)
    requires Placed(h, v) && Placed(h', v') && k < |h.ring| && h.ring[k] in h.chunks
             && h'.ring == Unlink(h.ring, h.ring[k])
    requires h.chunks[h.ring[k]].freePages == PAGES - FIRST_PAGE
    requires forall x :: x in h'.chunks ==> x in h.chunks && h'.chunks[x] == h.chunks[x]
    ensures BusyPages(h'.chunks, h'.ring) == BusyPages(h.chunks, h.ring)
  {
    hide LinksOk, HugeLinked, InRange, BytesKept, Runs, CacheOk, SegmentsOk, BusyPages, Unlink;
    UnlinkAt(h.ring, k);
    BusySplit(h.chunks, h.ring, k);
    BusySame(h.chunks, h'.chunks, h'.ring);
  }

  /** The number of free pages follows from the runs. */
  lemma FreePagesOfRuns(c: Chunk, c': Chunk, owner: seq<int>)
    requires Runs(c, owner) && Runs(c', owner)
    ensures c.freePages == c'.freePages
  {
    hide CountFree, Pages, PagesOk;
    assert Used(c) == Used(c');
  }

  lemma BusyOfRuns(h: State, h': State, v: View)
    requires Placed(h, v) && Placed(h', v) && h'.ring == h.ring
    ensures BusyPages(h'.chunks, h'.ring) == BusyPages(h.chunks, h.ring)
  {
    hide LinksOk, HugeLinked, InRange, BytesKept, Runs, CacheOk, SegmentsOk, BusyPages;
    forall s | s in h.ring ensures s in h.chunks && s in h'.chunks && h'.chunks[s].freePages == h.chunks[s].freePages {
      FreePagesOfRuns(h.chunks[s], h'.chunks[s], v.owners[s]);
    }
    BusySame(h.chunks, h'.chunks, h.ring);
  }

  /**
   The first `k` chunks of the ring have lost exactly their full runs and have others; the
   chunks of `ring` that are no longer there had no others.
   */
  ghost predicate SweptSoFar(h: State, v: View, L: Layout, ring: seq<nat>, k: nat)
    requires LayoutOk(L)
  {
    && k <= |h.ring|
    && (forall i :: 0 <= i < k ==> h.ring[i] in L && h.ring[i] in v.owners && v.owners[h.ring[i]] != NoRuns()
                                   && Emptied(L[h.ring[i]], v.owners[h.ring[i]], 0, PAGES))
    && (forall s :: s in ring && s !in h.ring ==> s in L && Emptied(L[s], NoRuns(), 0, PAGES))
    && (forall s :: s in h.ring ==> s in ring)
  }

  lemma SweptMore(h: State, v: View, L: Layout, ring: seq<nat>, k: nat, owner: seq<int>, h': State, v': View)
    requires LayoutOk(L) && SweptSoFar(h, v, L, ring, k) && k < |h.ring| && NoDup(h.ring) && h.ring[k] in L
    requires h'.ring == h.ring && v'.owners == v.owners[h.ring[k] := owner] && Emptied(L[h.ring[k]], owner, 0, PAGES)
    ensures SweptSoFar(h', v', L, ring, k)
    ensures owner != NoRuns() ==> SweptSoFar(h', v', L, ring, k + 1)
  {
    hide Emptied, NoRuns, RunsOk;
    forall i | 0 <= i < k ensures h.ring[i] != h.ring[k] {}
  }

  lemma SweptLess(h: State, v: View, L: Layout, ring: seq<nat>, k: nat, h': State, v': View)
    requires LayoutOk(L) && SweptSoFar(h, v, L, ring, k) && k < |h.ring| && NoDup(h.ring)
    requires h.ring[k] in L && Emptied(L[h.ring[k]], NoRuns(), 0, PAGES)
    requires h'.ring == Unlink(h.ring, h.ring[k]) && v'.owners == v.owners - {h.ring[k]}
    ensures SweptSoFar(h', v', L, ring, k)
  {
    hide Emptied, NoRuns, RunsOk, Unlink;
    var s := h.ring[k];
    UnlinkAt(h.ring, k);
    UnlinkMembers(h.ring, s);
    forall i | 0 <= i < k ensures h'.ring[i] == h.ring[i] && h.ring[i] != s {}
    forall x ensures x in h'.ring <==> x in h.ring && x != s {
      assert x in Members(h'.ring) <==> x in Members(h.ring) - {s};
    }
  }

  /** A chunk from which the sweep has taken nothing, and which is empty, was so before. */
  lemma EmptyBefore(h: State, v: View, c: Chunk, s: nat)
    requires Placed(h, v) && s in h.ring && s in h.chunks
    requires c.freePages == h.chunks[s].freePages == PAGES - FIRST_PAGE
    ensures s in v.owners && v.owners[s] == NoRuns()
  {
    hide LinksOk, HugeLinked, InRange, SpaceOk, LayoutOf, Runs, NoRuns;
    LayoutEntry(h, v, s);
    EmptyChunk(h.chunks[s], v.owners[s]);
  }

  /** The last loop of zend_mm_gc, over the chunks of the ring. */
  method SweepRing(h: State, ghost v: View)
    returns (h': State, ghost v': View, lost: bool, collected: nat, ghost mainOwner: seq<int>)
    requires Inv(h, v)
    ensures h' == h.(ring := h'.ring, cached := h'.cached, chunks := h'.chunks, chunksCount := h'.chunksCount,
                     cachedChunksCount := h'.cachedChunksCount, realSize := h'.realSize,
                     lastDeleteBoundary := h'.lastDeleteBoundary, lastDeleteCount := h'.lastDeleteCount,
                     mapped := h'.mapped)
    ensures h'.mapped <= h.mapped && v' == v.(owners := v'.owners) && h'.realSize <= h.realSize
    ensures !lost ==> BusyPages(h'.chunks, h'.ring) + collected == BusyPages(h.chunks, h.ring)
    ensures h.ring[0] in LayoutIn(h, v) && Emptied(LayoutIn(h, v)[h.ring[0]], mainOwner, 0, PAGES)
    ensures lost <==> mainOwner == NoRuns()
    ensures !lost ==> Valid(h', v') && h'.ring[0] == h.ring[0]
    ensures !lost ==> LayoutOk(LayoutIn(h, v)) && SweptSoFar(h', v', LayoutIn(h, v), h.ring, |h'.ring|)
    ensures collected == 0 && Compact(h, v) ==> h'.ring == h.ring && h'.realSize == h.realSize
    ensures DeletedSince(h, h')
    ensures collected > 0 ==> exists s, p: nat :: s in LayoutIn(h, v) && p < PAGES && FullRun(LayoutIn(h, v)[s], p)
  {
    hide LinksOk, HugeLinked, InRange, BytesKept, SegmentsOk, Runs, LayoutOf, CacheOk, Balanced, RealTotal, IdleChunk,
         RunsOk, Unlink, SweepingRing, FullRun, Emptied, NoRuns, BusyPages;
    hide Compact, SweptSoFar, DeletedSince, DelayDeletion, Deleted, DeletedTimes;
    NoneDeleted(h);
    h', v', lost, collected, mainOwner := h, v, false, 0, [];
    ghost var L := LayoutIn(h, v);
    SweepRingStart(h, v);
    SweptNothing(h, v, L);
    var k := 0;
    while k < |h'.ring|
      invariant 0 <= k <= |h'.ring| && SweepingRing(h', v', L, k) && LayoutOk(L) && Inv(h', v')
      invariant h' == h.(ring := h'.ring, cached := h'.cached, chunks := h'.chunks, chunksCount := h'.chunksCount,
                         cachedChunksCount := h'.cachedChunksCount, realSize := h'.realSize,
                         lastDeleteBoundary := h'.lastDeleteBoundary, lastDeleteCount := h'.lastDeleteCount,
                         mapped := h'.mapped)
      invariant h'.mapped <= h.mapped && v' == v.(owners := v'.owners) && h'.ring[0] == h.ring[0] && h.ring[0] in L
      invariant h'.realSize <= h.realSize && BusyPages(h'.chunks, h'.ring) + collected == BusyPages(h.chunks, h.ring)
      invariant k == 0 ==> h' == h && v' == v
      invariant k > 0 ==> Emptied(L[h.ring[0]], mainOwner, 0, PAGES) && mainOwner != NoRuns()
      invariant SweptSoFar(h', v', L, h.ring, k)
      invariant collected == 0 && Compact(h, v) ==> h'.ring == h.ring && h'.realSize == h.realSize
      invariant DeletedSince(h, h')
      invariant collected > 0 ==> exists s, p: nat :: s in L && p < PAGES && FullRun(L[s], p)
      decreases |h'.ring| - k
    {
      var s := h'.ring[k];
      InLayout(h', v', s);
      SweepNext(h', v', L, k);
      var c, owner, n := Sweep(h'.chunks[s], v'.owners[s], s, LayoutIn(h', v'), h'.freeSlot, h'.hugeList, v'.live);
      ghost var h1, v1 := h'.(chunks := h'.chunks[s := c]), v'.(owners := v'.owners[s := owner]);
      SweptChunk(h', v', L, k, c, owner, h1, v1);
      SweptInv(h1, v1, L, k + 1);
      EmptyChunk(c, owner);
      BusyUpdate(h', v', k, c);
      RingNoDup(h', v');
      SweptMore(h', v', L, h.ring, k, owner, h1, v1);
      SameDeleted(h, h', h1);
      if collected + n == 0 && c.freePages == PAGES - FIRST_PAGE {
        EmptyBefore(h', v', c, s);
        NotCompact(h, v, h', v', L, k);
      }
      h', v' := h'.(chunks := h'.chunks[s := c]), v1;
      collected := collected + n;
      if k == 0 {
        mainOwner := owner;
      }
      if c.freePages == PAGES - FIRST_PAGE {
        if k == 0 {
          lost := true;
          return;
        }
        assert s != h'.ring[0] by { RingNoDup(h', v'); }
        h', v' := DeleteChunk(h', s, v');
        UnlinkHead(h1, v1, s);
        OneMoreDeleted(h, h1, h');
        DroppedChunk(h1, v1, L, k, h', v');
        BusyUnlink(h1, v1, k, h', v');
        SweptLess(h1, v1, L, h.ring, k, h', v');
      } else {
        k := k + 1;
      }
    }
    SweepRingDone(h', v', L);
  }

  lemma NoneDeleted(h: State)
    ensures DeletedSince(h, h)
  {
  }

  lemma SameDeleted(h: State, h1: State, h': State)
    requires DeletedSince(h, h1) && h'.ring == h1.ring && TallyOf(h') == TallyOf(h1)
             && h'.avgChunksCount == h1.avgChunksCount
    ensures DeletedSince(h, h')
  {
    hide DeletedTimes;
  }

  lemma OneMoreDeleted(h: State, h1: State, h': State)
    requires DeletedSince(h, h1) && |h'.ring| == |h1.ring| - 1 && h'.avgChunksCount == h1.avgChunksCount
    requires TallyOf(h') == Deleted(TallyOf(h1), h1.avgChunksCount)
    ensures DeletedSince(h, h')
  {
    hide Deleted;
  }

  lemma SweptNothing(h: State, v: View, L: Layout)
    requires LayoutOk(L)
    ensures SweptSoFar(h, v, L, h.ring, 0)
  {
  }

  /** A chunk behind the first that was empty before the sweep. */
  lemma NotCompact(h: State, v: View, h': State, v': View, L: Layout, k: nat)
    requires Placed(h, v) && L == LayoutIn(h, v) && SweepingRing(h', v', L, k) && k < |h'.ring|
             && h'.ring[0] == h.ring[0]
    requires h'.ring[k] in v'.owners && v'.owners[h'.ring[k]] == NoRuns()
    ensures k > 0 && h'.ring == h.ring ==> !Compact(h, v)
  {
    hide LinksOk, HugeLinked, InRange, BytesKept, SegmentsOk, Runs, LayoutOf, CacheOk, Balanced, RealTotal, IdleChunk,
         RunsOk, NoRuns;
    var s := h'.ring[k];
    InLayout(h', v', s);
    if h'.ring == h.ring {
      InLayout(h, v, s);
      assert L[s].owner == v.owners[s];
    }
  }

  lemma SweepRingStart(h: State, v: View)
    requires Inv(h, v)
    ensures SweepingRing(h, v, LayoutIn(h, v), 0) && LayoutOk(LayoutIn(h, v)) && h.ring[0] in LayoutIn(h, v)
  {
    hide LinksOk, HugeLinked, InRange, BytesKept, SegmentsOk, Runs, LayoutOf, CacheOk, Balanced, RealTotal, IdleChunk,
         RunsOk;
    LayoutKeys(h.chunks, v.owners, h.ring);
    forall i | 0 <= i < |h.ring| ensures h.ring[i] in Members(h.ring) {}
  }

  lemma SweepNext(h: State, v: View, L: Layout, k: nat)
    requires SweepingRing(h, v, L, k) && k < |h.ring|
    ensures h.ring[k] in L && h.ring[k] in LayoutIn(h, v) && LayoutIn(h, v)[h.ring[k]] == L[h.ring[k]]
  {
    hide Inv, IdleChunk;
  }

  lemma SweptInv(h: State, v: View, L: Layout, k: nat)
    requires SweepingRing(h, v, L, k)
    ensures Inv(h, v)
  {
    hide Inv, IdleChunk;
  }

  lemma RingNoDup(h: State, v: View)
    requires Placed(h, v)
    ensures NoDup(h.ring)
  {
    hide LinksOk, HugeLinked, InRange, BytesKept, Runs, CacheOk, SegmentsOk;
  }

  lemma UnlinkHead(h: State, v: View, s: nat)
    requires Placed(h, v) && s in h.ring && s != h.ring[0]
    ensures Unlink(h.ring, s) != [] && Unlink(h.ring, s)[0] == h.ring[0] && |Unlink(h.ring, s)| == |h.ring| - 1
  {
    hide LinksOk, HugeLinked, InRange, BytesKept, Runs, CacheOk, SegmentsOk, Unlink;
    UnlinkMembers(h.ring, s);
  }

  lemma SweepRingDone(h: State, v: View, L: Layout)
    requires SweepingRing(h, v, L, |h.ring|)
    ensures Valid(h, v)
  {
    hide LinksOk, HugeLinked, InRange, BytesKept, SegmentsOk, Runs, LayoutOf, CacheOk, Balanced, RealTotal, PageOk;
    LayoutKeys(h.chunks, v.owners, h.ring);
    forall s, g, b: nat | s in LayoutIn(h, v) && SmallHead(LayoutIn(h, v)[s], g, b)
      ensures LayoutIn(h, v)[s].map_[g].counter == 0
    {
      assert s in Members(h.ring);
      var i :| 0 <= i < |h.ring| && h.ring[i] == s;
      assert IdleChunk(LayoutIn(h, v)[h.ring[i]]);
    }
  }

  /**
   zend_mm_gc.  The collector removes exactly the runs all of whose slots are on
   their free list, except those of bin 0, and takes exactly their slots off the
   lists.  It deletes the main chunk exactly when nothing pins that chunk.
   */
  method Gc(h: State, ghost v: View) returns (h': State, ghost v': View, lost: bool, collected: nat)
    requires Valid(h, v)
    ensures h' == h.(freeSlot := h'.freeSlot, mem := h'.mem, ring := h'.ring, cached := h'.cached, chunks := h'.chunks,
                     chunksCount := h'.chunksCount, cachedChunksCount := h'.cachedChunksCount, realSize := h'.realSize,
                     lastDeleteBoundary := h'.lastDeleteBoundary, lastDeleteCount := h'.lastDeleteCount,
                     mapped := h'.mapped)
    ensures h'.mapped <= h.mapped && v' == v.(owners := v'.owners) && h'.realSize <= h.realSize
    ensures BytesKept(h.mem, h'.mem, v.live)
    ensures !lost ==> collected == PAGE_SIZE * (BusyPages(h.chunks, h.ring) - BusyPages(h'.chunks, h'.ring))
    ensures h.ring[0] in LayoutIn(h, v) && (lost <==> Unpinned(LayoutIn(h, v), v.live, h.ring[0]))
    ensures !lost ==> Valid(h', v') && h'.ring[0] == h.ring[0]
    ensures !lost ==> forall b :: 0 <= b < BINS ==>
              h'.freeSlot[b] == Survivors(LayoutIn(h, v), h.freeSlot[b], h.freeSlot[b], b)
    ensures !lost ==> forall p, b: nat :: b < BINS ==>
              (Small(LayoutIn(h', v'), p, b) <==>
               Small(LayoutIn(h, v), p, b) && !Collectable(LayoutIn(h, v), h.freeSlot[b], p, b))
    ensures !lost && collected > 0 ==> TotalFree(h'.freeSlot) < TotalFree(h.freeSlot)
    ensures !lost ==> forall s :: s in h'.ring <==>
              s in h.ring && s in LayoutIn(h, v) && (s == h.ring[0] || !Unpinned(LayoutIn(h, v), v.live, s))
    ensures !lost ==> Compact(h', v') && Settled(h', v') && DeletedSince(h, h')
    ensures collected == 0 && Compact(h, v) ==> h'.ring == h.ring && h'.realSize == h.realSize
    ensures !lost && Compact(h, v) ==> (collected == 0 <==> Settled(h, v))
  {
    hide LinksOk, HugeLinked, InRange, BytesKept, SpaceOk, LayoutOf, Balanced, RealTotal, TalliedBin, SameRuns,
         Survivors, Collectable, FullRun, NoneFull, Emptied, NoRuns, Idle, RunsOk, Unpinned, Small, BusyPages,
         SweptSoFar,
         Compact, Settled, DeletedTimes;
    ghost var L0 := LayoutIn(h, v);
    var h1 := CountAndFilter(h, v);
    BusyOfRuns(h, h1, v);
    ghost var L1 := LayoutIn(h1, v);
    var pages: nat;
    ghost var mainOwner;
    h', v', lost, pages, mainOwner := SweepRing(h1, v);
    collected := pages * PAGE_SIZE;
    LayoutFacts(h, v);
    LayoutFacts(h1, v);
    SweepEmpties(L0, L1, h.freeSlot, h1.freeSlot, h.hugeList, v.live, h.ring[0], mainOwner);
    FreeLists(h, v);
    SameCompact(h, h1, v);
    if !lost {
      LayoutFacts(h', v');
      FreeLists(h', v');
      forall s
        ensures s in h'.ring <==> s in h.ring && s in L0 && (s == h.ring[0] || !Unpinned(L0, v.live, s))
      {
        RemainingChunk(h, h1, v, h', v', s);
      }
      SweptCompact(h', v', L1, h.ring);
      forall p, b: nat | b < BINS
        ensures Small(LayoutIn(h', v'), p, b) <==> Small(L0, p, b) && !Collectable(L0, h.freeSlot[b], p, b)
      {
        CollectedBlocks(L0, LayoutIn(h', v'), h.freeSlot, h'.freeSlot, h.hugeList, v.live, p, b);
      }
      SettledAfter(h, v, L1, h', v');
      if collected > 0 {
        ghost var s, p: nat :| s in L1 && p < PAGES && FullRun(L1[s], p);
        ghost var q, b := FullRunCollectable(L0, L1, h.freeSlot, h.hugeList, v.live, s, p);
        SurvivorsFewer(L0, h.freeSlot[b], h.freeSlot[b], b, q);
        FewerFree(h.freeSlot, h'.freeSlot, b);
        NotSettled(h, v, q, b);
      } else if Compact(h, v) {
        NoneGivenBack(h, v, L1, h', v');
        SettledBefore(h, v, L1);
      }
    }
  }

  /** No run but those of bin 0 has all its slots on the free list: there is nothing to collect. */
  ghost predicate Settled(h: State, v: View) {
    && LayoutOk(LayoutIn(h, v)) && |h.freeSlot| == BINS
    && forall p, b: nat :: b < BINS && Small(LayoutIn(h, v), p, b) ==>
         !Collectable(LayoutIn(h, v), h.freeSlot[b], p, b)
  }

  lemma SameCompact(h: State, h': State, v: View)
    requires h'.ring == h.ring
    ensures Compact(h', v) == Compact(h, v)
  {
  }

  lemma SweptCompact(h: State, v: View, L: Layout, ring: seq<nat>)
    requires LayoutOk(L) && SweptSoFar(h, v, L, ring, |h.ring|)
    ensures Compact(h, v)
  {
    hide Emptied, NoRuns, RunsOk;
  }

  /** A chunk remains exactly when something pins it. */
  lemma RemainingChunk(h: State, h1: State, v: View, h': State, v': View, s: nat)
    requires Valid(h, v) && LayoutOk(LayoutIn(h, v)) && Inv(h1, v) && h1.hugeList == h.hugeList && h1.ring == h.ring
    requires |h.freeSlot| == BINS && SameRuns(LayoutIn(h, v), LayoutIn(h1, v)) && h.ring != []
    requires forall b :: 0 <= b < BINS ==> TalliedBin(LayoutIn(h, v), LayoutIn(h1, v), h.freeSlot[b], b)
    requires LayoutOk(LayoutIn(h1, v)) && SweptSoFar(h', v', LayoutIn(h1, v), h.ring, |h'.ring|)
    requires h'.ring != [] && h'.ring[0] == h.ring[0]
    ensures s in h'.ring <==>
              s in h.ring && s in LayoutIn(h, v) && (s == h.ring[0] || !Unpinned(LayoutIn(h, v), v.live, s))
  {
    hide LinksOk, HugeLinked, InRange, SpaceOk, LayoutOf, Balanced, RealTotal, TalliedBin, SameRunMap, Emptied,
         NoRuns, Idle, RunsOk, Unpinned;
    var L0, L1 := LayoutIn(h, v), LayoutIn(h1, v);
    if s in h.ring {
      LayoutEntry(h, v, s);
      var owner := if s in h'.ring then v'.owners[s] else NoRuns();
      assert s in L1 && Emptied(L1[s], owner, 0, PAGES) && (s in h'.ring ==> owner != NoRuns()) by {
        if s in h'.ring {
          var i :| 0 <= i < |h'.ring| && h'.ring[i] == s;
        }
      }
      SweepEmpties(L0, L1, h.freeSlot, h1.freeSlot, h.hugeList, v.live, s, owner);
    }
  }

  /** The head of a small block that is still there is what it was. */
  lemma SameHead(h: State, v: View, L0: Layout, L1: Layout, h': State, v': View, p: Ptr, b: nat)
    requires Placed(h', v') && LayoutOk(LayoutIn(h', v')) && LayoutOk(L0) && LayoutOk(L1) && SameRuns(L0, L1)
    requires SweptSoFar(h', v', L1, h.ring, |h'.ring|) && Small(LayoutIn(h', v'), p, b)
    ensures p.seg in L0 && HeadOf(L0[p.seg], p.off) == HeadOf(LayoutIn(h', v')[p.seg], p.off)
  {
    hide LinksOk, HugeLinked, InRange, BytesKept, SegmentsOk, Runs, LayoutOf, CacheOk, RunsOk, SlotOf;
    LayoutKeys(h'.chunks, v'.owners, h'.ring);
    assert p.seg in Members(h'.ring);
    var i :| 0 <= i < |h'.ring| && h'.ring[i] == p.seg;
    InLayout(h', v', p.seg);
    assert SameRunMap(L0[p.seg], L1[p.seg]);
  }

  lemma SettledAfter(h: State, v: View, L1: Layout, h': State, v': View)
    requires Valid(h, v) && LayoutOk(LayoutIn(h, v)) && |h.freeSlot| == BINS && LayoutOk(L1)
             && SameRuns(LayoutIn(h, v), L1)
    requires Valid(h', v') && LayoutOk(LayoutIn(h', v')) && |h'.freeSlot| == BINS
    requires SweptSoFar(h', v', L1, h.ring, |h'.ring|)
    requires forall b :: 0 <= b < BINS ==> h'.freeSlot[b] == Survivors(LayoutIn(h, v), h.freeSlot[b], h.freeSlot[b], b)
    requires forall p, b: nat :: b < BINS ==>
              (Small(LayoutIn(h', v'), p, b) <==>
               Small(LayoutIn(h, v), p, b) && !Collectable(LayoutIn(h, v), h.freeSlot[b], p, b))
    ensures Settled(h', v')
  {
    hide LinksOk, HugeLinked, InRange, SpaceOk, LayoutOf, Balanced, RealTotal, Idle, RunsOk, Small, SweptSoFar,
         SameRuns, Survivors, HeadOf, SlotOf;
    var L0, L := LayoutIn(h, v), LayoutIn(h', v');
    forall p, b: nat | b < BINS && Small(L, p, b) ensures !Collectable(L, h'.freeSlot[b], p, b) {
      SameHead(h, v, L0, L1, h', v', p, b);
      SurvivorsMembers(L0, h.freeSlot[b], h.freeSlot[b], b);
      assert !Collectable(L0, h.freeSlot[b], p, b);
    }
  }

  /** As many pages in use as before, and in no chunk more, are as many in every chunk. */
  lemma {:induction false} BusyTerms(chunks: map<nat, Chunk>, chunks': map<nat, Chunk>, ring: seq<nat>)
    requires forall s :: s in ring ==> s in chunks && s in chunks' && chunks[s].freePages <= chunks'[s].freePages
    ensures BusyPages(chunks', ring) <= BusyPages(chunks, ring)
    ensures BusyPages(chunks', ring) == BusyPages(chunks, ring) ==>
              forall s :: s in ring ==> chunks[s].freePages == chunks'[s].freePages
  {
    if ring != [] {
      BusyTerms(chunks, chunks', ring[1..]);
      assert ring == [ring[0]] + ring[1..];
    }
  }

  ghost predicate NoneFull(ring: seq<nat>, L: Layout)
    requires LayoutOk(L)
  {
    forall s, p: nat :: s in ring && s in L && p < PAGES ==> !FullRun(L[s], p)
  }

  /** A sweep that gives back no page has met no full run. */
  lemma NoneGivenBack(h: State, v: View, L1: Layout, h': State, v': View)
    requires Placed(h, v) && Placed(h', v') && h'.ring == h.ring && LayoutOk(L1)
    requires LayoutOk(LayoutIn(h, v)) && SameRuns(LayoutIn(h, v), L1) && SweptSoFar(h', v', L1, h.ring, |h'.ring|)
    requires BusyPages(h'.chunks, h'.ring) == BusyPages(h.chunks, h.ring)
    ensures NoneFull(h.ring, L1)
  {
    hide LinksOk, HugeLinked, InRange, BytesKept, SegmentsOk, Runs, LayoutOf, CacheOk, RunsOk, BusyPages, FullRun,
         Emptied, NoRuns;
    forall s | s in h.ring
      ensures s in L1 && s in h.chunks && s in h'.chunks && h.chunks[s].freePages <= h'.chunks[s].freePages
      ensures h.chunks[s].freePages == h'.chunks[s].freePages ==> forall p: nat :: p < PAGES ==> !FullRun(L1[s], p)
    {
      InLayout(h, v, s);
      InLayout(h', v', s);
      assert SameRunMap(LayoutIn(h, v)[s], L1[s]);
      EmptiedFree(h.chunks[s], v.owners[s], L1[s], h'.chunks[s], v'.owners[s]);
    }
    BusyTerms(h.chunks, h'.chunks, h.ring);
  }

  /** Without a full run there was nothing to collect. */
  lemma SettledBefore(h: State, v: View, L1: Layout)
    requires Valid(h, v) && LayoutOk(LayoutIn(h, v)) && |h.freeSlot| == BINS && LayoutOk(L1)
    requires SameRuns(LayoutIn(h, v), L1)
    requires forall b :: 0 <= b < BINS ==> TalliedBin(LayoutIn(h, v), L1, h.freeSlot[b], b)
    requires NoneFull(h.ring, L1)
    ensures Settled(h, v)
  {
    hide LinksOk, HugeLinked, InRange, BytesKept, SegmentsOk, Runs, LayoutOf, CacheOk, RunsOk, Balanced, RealTotal,
         Idle, SmallAt, Collectable, FullRun, TalliedBin, SameRuns;
    LayoutKeys(h.chunks, v.owners, h.ring);
    forall p, b: nat | b < BINS && Small(LayoutIn(h, v), p, b)
      ensures !Collectable(LayoutIn(h, v), h.freeSlot[b], p, b)
    {
      assert p.seg in Members(h.ring);
      if Collectable(LayoutIn(h, v), h.freeSlot[b], p, b) {
        CollectableFull(LayoutIn(h, v), L1, h.freeSlot, h.hugeList, v.live, p, b);
      }
    }
  }

  lemma NotSettled(h: State, v: View, q: Ptr, b: nat)
    requires Valid(h, v) && LayoutOk(LayoutIn(h, v)) && |h.freeSlot| == BINS && b < BINS && q in h.freeSlot[b]
    requires Collectable(LayoutIn(h, v), h.freeSlot[b], q, b)
    ensures !Settled(h, v)
  {
    hide LinksOk, HugeLinked, InRange, SpaceOk, LayoutOf, RealTotal, Idle, RunsOk, SmallAt, Collectable, LiveOk;
    assert FreeListOk(LayoutIn(h, v), h.freeSlot[b], b, v.live);
  }

  lemma LayoutFacts(h: State, v: View)
    requires Placed(h, v)
    ensures LayoutOk(LayoutIn(h, v)) && h.ring != [] && h.ring[0] in LayoutIn(h, v)
  {
    hide LinksOk, HugeLinked, InRange, BytesKept, SegmentsOk, Runs, LayoutOf, CacheOk, RunsOk;
    LayoutKeys(h.chunks, v.owners, h.ring);
    assert h.ring[0] in Members(h.ring);
  }

  lemma FreeLists(h: State, v: View)
    requires Balanced(LayoutIn(h, v), h.freeSlot, h.hugeList, v.live)
    ensures |h.freeSlot| == BINS
  {
  }

  // ------------------------------------------------------------- page search

  /** Chunk `s` has `n` free pages in a row. */
  ghost predicate RoomIn(h: State, s: nat, n: nat) {
    s in h.chunks && HasRoom(Used(h.chunks[s]), n)
  }

  /** Only `free_tail` of some chunks has changed. */
  ghost predicate TailsMoved(h: State, h': State, v: View) {
    && h' == h.(chunks := h'.chunks) && Placed(h', v) && LayoutIn(h', v) == LayoutIn(h, v)
    && (forall s :: s in h.chunks ==> s in h'.chunks && h'.chunks[s] == h.chunks[s].(freeTail := h'.chunks[s].freeTail))
  }

  lemma TailStep(h: State, h1: State, v: View, s: nat, c: Chunk, h2: State)
    requires Placed(h, v) && TailsMoved(h, h1, v) && s in h1.ring && s in h1.chunks && s in v.owners
    requires Runs(c, v.owners[s]) && c == h1.chunks[s].(freeTail := c.freeTail)
             && h2 == h1.(chunks := h1.chunks[s := c])
    ensures TailsMoved(h, h2, v)
  {
    hide LinksOk, HugeLinked, InRange, BytesKept, SpaceOk, Runs, LayoutOf;
    assert v.owners[s := v.owners[s]] == v.owners;
    StoreChunk(h1, v, s, c, v.owners[s], h2, v);
    LayoutEntry(h1, v, s);
    assert LayoutIn(h1, v)[s := RunMap(c.map_, v.owners[s])] == LayoutIn(h1, v);
  }

  lemma LayoutEntry(h: State, v: View, s: nat)
    requires Placed(h, v) && s in h.ring
    ensures s in LayoutIn(h, v) && s in h.chunks && s in v.owners && Runs(h.chunks[s], v.owners[s])
    ensures LayoutIn(h, v)[s] == RunMap(h.chunks[s].map_, v.owners[s])
    ensures |h.chunks[s].map_| == PAGES && |v.owners[s]| == PAGES && |h.chunks[s].freeMap| == 8
    ensures h.chunks[s].freePages == CountFree(Used(h.chunks[s]))
  {
    hide PagesOk, UsedOk, HeadsBelow, CountFree, Pages, SegmentsOk, CacheOk;
  }

  /** The walk along the ring: the first chunk with room, and in it the best fit. */
  method SearchRing(h: State, n: nat, ghost v: View)
    returns (found: bool, k: nat, page: nat, h': State, ghost gapEnd: int)
    requires Placed(h, v) && 1 <= n
    ensures TailsMoved(h, h', v) && k <= |h.ring|
    ensures forall i :: 0 <= i < k ==> !RoomIn(h, h.ring[i], n)
    ensures !found ==> k == |h.ring|
    ensures found ==> k < |h.ring| && RoomIn(h, h.ring[k], n) && BestFit(Used(h.chunks[h.ring[k]]), n, page, gapEnd)
    ensures found ==> var c := h'.chunks[h.ring[k]];
                      1 <= page < c.freeTail && page + n <= PAGES && RangeFree(Used(c), page, n)
  {
    hide LinksOk, HugeLinked, InRange, BytesKept, SpaceOk, LayoutOf, Runs, HasRoom, BestFit, RangeFree, CountFree,
         Pages;
    found, k, page, h', gapEnd := false, 0, 0, h, 0;
    while k < |h.ring|
      invariant 0 <= k <= |h.ring| && TailsMoved(h, h', v)
      invariant forall i :: 0 <= i < k ==> !RoomIn(h, h.ring[i], n)
    {
      var s := h.ring[k];
      LayoutEntry(h', v, s);
      LayoutEntry(h, v, s);
      var c := h'.chunks[s];
      assert Used(c) == Used(h.chunks[s]);
      if c.freePages < n {
        TooFewPages(Used(c), n);
      } else {
        var here, c';
        here, page, c', gapEnd := FindPages(c, n, v.owners[s]);
        ghost var h1 := h';
        h' := h'.(chunks := h'.chunks[s := c']);
        TailStep(h, h1, v, s, c', h');
        assert Used(c') == Used(c);
        if here {
          found := true;
          return;
        }
      }
      k := k + 1;
    }
  }

  // -------------------------------------------------------------- new chunks

  datatype Status = Done | Failed | Lost

  /** `limit - real_size` in the source's unsigned arithmetic. */
  function Headroom(h: State): nat {
    (h.limit - h.realSize) % SIZE_T
  }

  /** The memory limit is respected. */
  predicate Limited(h: State) {
    !h.overflow ==> h.realSize <= h.limit < SIZE_T
  }

  /** The step from `h` to `h'` does not break the limit. */
  ghost predicate KeepsLimit(h: State, h': State) {
    Limited(h) ==> Limited(h')
  }

  /**
   Once the limit has been exceeded the difference wraps around, and what the checks
   compare with is nearly all of size_t.
   */
  lemma LimitGone(h: State)
    requires h.limit < h.realSize <= h.limit + SIZE_T
    ensures Headroom(h) == SIZE_T - (h.realSize - h.limit)
  {
  }

  lemma HeadroomExact(h: State)
    requires 0 <= h.realSize <= h.limit < SIZE_T
    ensures Headroom(h) == h.limit - h.realSize
  {
  }

  lemma HeadroomFits(h: State, v: View, bytes: nat)
    requires Valid(h, v) && (h.overflow || bytes <= Headroom(h))
    ensures Limited(h) ==> Limited(h.(realSize := h.realSize + bytes))
  {
    hide LinksOk, HugeLinked, InRange, BytesKept, SpaceOk, LayoutOf, Balanced, Idle, Headroom;
    if Limited(h) && !h.overflow {
      HeadroomExact(h);
    }
  }

  /** No block of chunk `s` is live: without this no collection deletes it. */
  ghost predicate Loose(live: map<Ptr, nat>, s: nat) {
    forall p :: p in live && p.seg == s ==> p.off == 0
  }

  /** What neither collections nor new chunks change. */
  ghost predicate SameBlocks(h: State, v: View, h': State, v': View) {
    Undisturbed(h, v, h', v') && KeepsLimit(h, h') && KeepsCompact(h, v, h', v')
  }

  /** The peaks are the largest values seen, `h'` being the highest point since `h`. */
  ghost predicate PeaksSeen(h: State, h': State) {
    && h'.realPeak == Max(h.realPeak, h'.realSize)
    && h'.peakChunksCount == Max(h.peakChunksCount, h'.chunksCount)
  }

  ghost predicate SamePeaks(h: State, h': State) {
    h'.realPeak == h.realPeak && h'.peakChunksCount == h.peakChunksCount
  }

  lemma NothingSeen(h: State, h': State, v': View)
    requires Valid(h', v') && SamePeaks(h, h')
    ensures PeaksSeen(h, h')
  {
    hide LinksOk, HugeLinked, InRange, SpaceOk, LayoutOf, Balanced, Idle, RealTotal;
  }

  ghost predicate Undisturbed(h: State, v: View, h': State, v': View) {
    && h' == h.(freeSlot := h'.freeSlot, mem := h'.mem, ring := h'.ring, cached := h'.cached, chunks := h'.chunks,
                chunksCount := h'.chunksCount, peakChunksCount := h'.peakChunksCount,
                cachedChunksCount := h'.cachedChunksCount, realSize := h'.realSize, realPeak := h'.realPeak,
                lastDeleteBoundary := h'.lastDeleteBoundary, lastDeleteCount := h'.lastDeleteCount, mapped := h'.mapped)
    && v' == v.(owners := v'.owners)
    && h.ring != [] && h'.ring != [] && h'.ring[0] == h.ring[0]
    && |h'.freeSlot| == |h.freeSlot| == BINS
    && (forall b :: 0 <= b < BINS ==> |h'.freeSlot[b]| <= |h.freeSlot[b]|)
    && BytesKept(h.mem, h'.mem, v.live)
  }

  lemma UndisturbedTrans(h0: State, v0: View, h1: State, v1: View, h2: State, v2: View)
    requires Undisturbed(h0, v0, h1, v1) && Undisturbed(h1, v1, h2, v2)
    ensures Undisturbed(h0, v0, h2, v2)
  {
    hide BytesKept;
    KeptTrans(h0.mem, h1.mem, h2.mem, v0.live);
  }

  lemma SameBlocksTrans(h0: State, v0: View, h1: State, v1: View, h2: State, v2: View)
    requires SameBlocks(h0, v0, h1, v1) && SameBlocks(h1, v1, h2, v2)
    ensures SameBlocks(h0, v0, h2, v2)
  {
    hide BytesKept;
    KeptTrans(h0.mem, h1.mem, h2.mem, v0.live);
  }

  /** A collection in the course of an allocation. */
  method Collect(h: State, ghost v: View) returns (h': State, ghost v': View, lost: bool, collected: nat)
    requires Valid(h, v)
    ensures lost ==> h.ring != [] && Loose(v.live, h.ring[0])
    ensures !lost ==> Valid(h', v') && SameBlocks(h, v, h', v') && h'.realSize <= h.realSize && SamePeaks(h, h')
    ensures !lost && collected > 0 ==> TotalFree(h'.freeSlot) < TotalFree(h.freeSlot)
    ensures !lost ==> Compact(h', v') && Settled(h', v')
    ensures !lost && collected == 0 && Compact(h, v) ==> h'.realSize == h.realSize
    ensures !lost ==> TotalFree(h'.freeSlot) <= TotalFree(h.freeSlot)
    ensures !lost && Compact(h, v) ==> (collected == 0 <==> Settled(h, v))
  {
    hide LinksOk, HugeLinked, InRange, BytesKept, SpaceOk, LayoutOf, Balanced, RealTotal, Survivors, Idle, Small,
         RunsOk, SmallHead, Collectable, TotalFree, Compact, Settled, BusyPages;
    h', v', lost, collected := Gc(h, v);
    LayoutFacts(h, v);
    FreeLists(h, v);
    if !lost {
      LayoutFacts(h', v');
      FreeLists(h', v');
      NoMoreFree(h.freeSlot, h'.freeSlot);
    }
  }

  /** The chunk `s`, initialised and empty, has joined the end of the ring. */
  ghost predicate Joined(h: State, v: View, s: nat) {
    && h.ring != [] && h.ring[|h.ring| - 1] == s && |h.ring| > 1
    && s in h.chunks && s in v.owners && v.owners[s] == NoRuns() && h.chunks[s].freeTail == FIRST_PAGE
  }

  lemma JoinIdle(L: Layout, s: nat, r: RunMap)
    requires LayoutOk(L) && Idle(L) && RunsOk(r) && r.owner == NoRuns()
    ensures LayoutOk(L[s := r]) && Idle(L[s := r])
  {
    forall h, b: nat ensures !SmallHead(r, h, b) {}
  }

  /** The number zend_mm_chunk_init gives: one more than that of the last chunk. */
  function NextNum(h: State): nat
    requires h.ring != [] && h.ring[|h.ring| - 1] in h.chunks
  {
    h.chunks[h.ring[|h.ring| - 1]].num + 1
  }

  lemma LastChunk(h: State, v: View)
    requires Placed(h, v)
    ensures h.ring != [] && h.ring[|h.ring| - 1] in h.chunks
  {
    hide LinksOk, HugeLinked, InRange, BytesKept, Runs, CacheOk, SegmentsOk;
  }

  /** Chunk `s` of `h'` is numbered one above the last chunk of `h`. */
  ghost predicate NumberedNext(h: State, h': State, s: nat) {
    && s in h'.chunks && h.ring != [] && h.ring[|h.ring| - 1] in h.chunks
    && h'.chunks[s].num == h.chunks[h.ring[|h.ring| - 1]].num + 1
  }

  /** The ledger does not notice an empty chunk at the end of the ring. */
  lemma JoinValid(h: State, v: View, s: nat, c: Chunk, h': State, v': View)
    requires Valid(h, v) && s !in h.ring && Runs(c, NoRuns())
    requires h'.chunks == h.chunks[s := c] && h'.ring == h.ring + [s]
    requires v' == v.(owners := v.owners[s := NoRuns()])
    ensures LayoutOk(LayoutIn(h', v')) && Idle(LayoutIn(h', v'))
    ensures Balanced(LayoutIn(h', v'), h.freeSlot, h.hugeList, v.live)
  {
    hide LinksOk, HugeLinked, InRange, BytesKept, SegmentsOk, CacheOk, LayoutOf, Balanced, Idle, NoRuns, RealTotal,
         CountFree, Pages, UsedOk, HeadsBelow, PagesOk;
    LayoutKeys(h.chunks, v.owners, h.ring);
    JoinRing(h.chunks, v.owners, h.ring, s, c);
    assert s !in Members(h.ring);
    AddChunk(LayoutIn(h, v), h.freeSlot, h.hugeList, v.live, s, RunMap(c.map_, NoRuns()));
    JoinIdle(LayoutIn(h, v), s, RunMap(c.map_, NoRuns()));
  }

  method TakeCached(h: State, ghost v: View) returns (h': State, ghost v': View, s: nat)
    requires Valid(h, v) && h.cached != []
    ensures Valid(h', v') && Undisturbed(h, v, h', v') && Joined(h', v', s) && h'.freeSlot == h.freeSlot
    ensures h'.mapped == h.mapped && h'.realSize == h.realSize && h'.ring == h.ring + [s] && PeaksSeen(h, h')
    ensures v'.owners == v.owners[s := NoRuns()] && NumberedNext(h, h', s)
  {
    hide LinksOk, HugeLinked, InRange, BytesKept, RingOk, CacheOk, SegmentsOk, LayoutOf, Balanced, Idle, NoRuns,
         RealTotal, Blank, Runs;
    s := h.cached[0];
    LastChunk(h, v);
    KeptRefl(h.mem, v.live);
    FreeLists(h, v);
    var num := NextNum(h);
    JoinFromCache(h.chunks, v.owners, h.ring, h.cached, Mappings(h, v), h.mapped, num);
    BlankSized(h.chunks[s]);
    InitEmpty(h.chunks[s], num);
    h' := h.(cachedChunksCount := h.cachedChunksCount - 1, cached := h.cached[1..], chunksCount := h.chunksCount + 1,
             peakChunksCount := Max(h.peakChunksCount, h.chunksCount + 1),
             chunks := h.chunks[s := InitChunk(h.chunks[s], num)], ring := h.ring + [s]);
    v' := v.(owners := v.owners[s := NoRuns()]);
    JoinValid(h, v, s, h'.chunks[s], h', v');
  }

  /** A chunk just mapped joins; `h` is the heap before the mapping. */
  method TakeMapped(h: State, s: nat, ghost v: View) returns (h': State, ghost v': View)
    requires Valid(h, v) && h.mapped !! Segments(s, CHUNK_SIZE) && InRange(h.mapped + Segments(s, CHUNK_SIZE))
    ensures Valid(h', v') && Undisturbed(h, v, h', v') && Joined(h', v', s) && h'.freeSlot == h.freeSlot
    ensures h'.mapped == h.mapped + Segments(s, CHUNK_SIZE) && h'.realSize == h.realSize + CHUNK_SIZE
    ensures h'.ring == h.ring + [s] && v'.owners == v.owners[s := NoRuns()] && PeaksSeen(h, h')
    ensures NumberedNext(h, h', s)
  {
    hide LinksOk, HugeLinked, InRange, BytesKept, RingOk, CacheOk, SegmentsOk, LayoutOf, Balanced, Idle, NoRuns,
         RealTotal, Blank, Runs, Segments, FreshChunk;
    LastChunk(h, v);
    KeptRefl(h.mem, v.live);
    FreeLists(h, v);
    var num := NextNum(h);
    JoinFromSystem(h.chunks, v.owners, h.ring, h.cached, Mappings(h, v), h.mapped, s, num);
    FreshBlank();
    BlankSized(FreshChunk());
    InitEmpty(FreshChunk(), num);
    OneChunkLess(|h.ring| + |h.cached| + 1, h.hugeList);
    var total := h.realSize + CHUNK_SIZE;
    h' := h.(realSize := total, realPeak := Max(h.realPeak, total),
             mapped := h.mapped + Segments(s, CHUNK_SIZE), chunksCount := h.chunksCount + 1,
             peakChunksCount := Max(h.peakChunksCount, h.chunksCount + 1),
             chunks := h.chunks[s := InitChunk(FreshChunk(), num)], ring := h.ring + [s]);
    v' := v.(owners := v.owners[s := NoRuns()]);
    JoinValid(h, v, s, h'.chunks[s], h', v');
  }

  /** Neither the ring nor the cache can give `n` pages. */
  ghost predicate NeedsChunk(h: State, n: nat) {
    h.cached == [] && forall k: nat :: !FirstRoom(h, n, k)
  }

  /**
   The system maps `bytes` bytes; when it refuses, it is asked `again` if a collection
   frees anything.
   */
  method MapOrCollect(h: State, bytes: nat, ghost v: View)
    returns (status: Status, h': State, ghost v': View, seg: nat, mapped: set<nat>, ghost refused: bool,
             ghost again: bool)
    requires Valid(h, v) && 0 < bytes
    ensures status.Lost? ==> h.ring != [] && Loose(v.live, h.ring[0])
    ensures !status.Lost? ==> Valid(h', v') && SameBlocks(h, v, h', v') && SamePeaks(h, h')
    ensures !status.Lost? ==> h'.realSize <= h.realSize && TotalFree(h'.freeSlot) <= TotalFree(h.freeSlot)
    ensures status.Failed? ==> Settled(h', v') && (!again && Compact(h, v) ==> Settled(h, v))
    ensures status.Done? ==> h'.mapped !! Segments(seg, bytes) && mapped == h'.mapped + Segments(seg, bytes)
                             && InRange(mapped)
    ensures status.Done? && refused ==> 0 < TotalFree(h.freeSlot)
    ensures !refused ==> status.Done? && h' == h && v' == v
  {
    hide Valid, Segments, InRange, BytesKept, TotalFree, Compact, Settled;
    SameBlocksRefl(h, v);
    RangeOf(h, v);
    h', v', refused, again := h, v, false, false;
    var ok;
    ok, seg, mapped := OsMap(h.mapped, bytes);
    if !ok {
      refused := true;
      var lost, collected;
      h', v', lost, collected := Collect(h, v);
      if lost {
        return Lost, h', v', 0, mapped, refused, again;
      }
      RangeOf(h', v');
      if collected > 0 {
        ok, seg, mapped := OsMap(h'.mapped, bytes);
        again := !ok;
      }
      if !ok {
        return Failed, h', v', 0, mapped, refused, again;
      }
    }
    status := Done;
  }

  /**
   The label get_chunk of zend_mm_alloc_pages.  `refused` says whether the system has
   refused a mapping, and `again` whether it did so after a collection; only with free
   slots can the allocation still succeed then.
   */
  method GetChunk(h: State, ghost v: View)
    returns (status: Status, h': State, ghost v': View, s: nat, ghost refused: bool, ghost again: bool)
    requires Valid(h, v)
    ensures status.Lost? ==> h.ring != [] && Loose(v.live, h.ring[0])
    ensures (h.cached != [] || CHUNK_SIZE <= Headroom(h)) && !refused ==> status.Done?
    ensures status.Failed? ==> Valid(h', v') && SameBlocks(h, v, h', v') && PeaksSeen(h, h') && Settled(h', v')
    ensures status.Failed? && !refused && Compact(h, v) ==> !h'.overflow && Headroom(h') < CHUNK_SIZE
    ensures status.Failed? && CHUNK_SIZE <= Headroom(h) && Compact(h, v) ==> again || Settled(h, v)
    ensures status.Done? ==> Valid(h', v') && Undisturbed(h, v, h', v') && KeepsLimit(h, h') && PeaksSeen(h, h')
    ensures status.Done? ==> h'.realSize <= h.realSize + CHUNK_SIZE && (Compact(h, v) ==> CompactBut(h', v', s))
    ensures status.Done? ==> Joined(h', v', s) && (refused ==> 0 < TotalFree(h.freeSlot))
    ensures status.Done? && h.cached != [] ==> h'.realSize == h.realSize
    ensures status.Done? && h.cached == [] && CHUNK_SIZE <= Headroom(h) && !refused ==>
              h'.realSize == h.realSize + CHUNK_SIZE
    ensures status.Done? && !refused && (h.cached != [] || CHUNK_SIZE <= Headroom(h)) ==> h'.ring == h.ring + [s]
    ensures status.Done? && !refused && (h.cached != [] || CHUNK_SIZE <= Headroom(h)) ==> NumberedNext(h, h', s)
  {
    hide Valid, Joined, NumberedNext, Segments, InRange, BytesKept, Headroom, TotalFree, Compact,
         CompactBut, Settled, NoRuns;
    SameBlocksRefl(h, v);
    h', v', s, refused, again := h, v, 0, false, false;
    while h'.cached == []
      invariant Valid(h', v') && SameBlocks(h, v, h', v') && h'.realSize <= h.realSize && !refused && SamePeaks(h, h')
      invariant TotalFree(h'.freeSlot) <= TotalFree(h.freeSlot)
      invariant h.cached != [] || CHUNK_SIZE <= Headroom(h) ==> h' == h && v' == v
      decreases TotalFree(h'.freeSlot)
    {
      if CHUNK_SIZE > Headroom(h') {
        ghost var h1, v1 := h', v';
        var lost, collected;
        h', v', lost, collected := Collect(h', v');
        if lost {
          return Lost, h', v', 0, refused, again;
        }
        SameBlocksTrans(h, v, h1, v1, h', v');
        if collected > 0 {
          continue;
        } else if !h'.overflow {
          NothingSeen(h, h', v');
          SameHeadroom(h1, h');
          return Failed, h', v', 0, refused, again;
        }
      }
      ghost var h0, v0 := h', v';
      HeadroomFits(h', v', CHUNK_SIZE);
      var mapping, seg, mapped;
      mapping, h', v', seg, mapped, refused, again := MapOrCollect(h', CHUNK_SIZE, v');
      if mapping.Lost? {
        return Lost, h', v', 0, refused, again;
      }
      SameBlocksTrans(h, v, h0, v0, h', v');
      if mapping.Failed? {
        NothingSeen(h, h', v');
        return Failed, h', v', 0, refused, again;
      }
      ghost var h1, v1 := h', v';
      h', v' := TakeMapped(h', seg, v');
      UndisturbedTrans(h, v, h1, v1, h', v');
      CompactJoined(h1, v1, h', v', seg);
      return Done, h', v', seg, refused, again;
    }
    ghost var h1, v1 := h', v';
    h', v', s := TakeCached(h', v');
    UndisturbedTrans(h, v, h1, v1, h', v');
    CompactJoined(h1, v1, h', v', s);
    status := Done;
  }

  lemma SameHeadroom(h: State, h': State)
    ensures h'.limit == h.limit && h'.realSize == h.realSize ==> Headroom(h') == Headroom(h)
  {
  }

  lemma CompactJoined(h: State, v: View, h': State, v': View, s: nat)
    requires h'.ring == h.ring + [s] && v'.owners == v.owners[s := NoRuns()]
    ensures Compact(h, v) ==> CompactBut(h', v', s)
  {
    hide NoRuns;
  }

  lemma RangeOf(h: State, v: View)
    requires Valid(h, v)
    ensures InRange(h.mapped)
  {
    hide SpaceOk, Balanced, LayoutOf, LinksOk, HugeLinked, RealTotal;
  }

  lemma SameBlocksRefl(h: State, v: View)
    requires Valid(h, v)
    ensures SameBlocks(h, v, h, v)
  {
    hide LinksOk, HugeLinked, InRange, BytesKept, SpaceOk, Balanced, LayoutOf;
    LastChunk(h, v);
    KeptRefl(h.mem, v.live);
    FreeLists(h, v);
  }

  // --------------------------------------------------------------- large runs

  /** Like SameBlocks, with a block of `size` bytes at `p` handed out. */
  ghost predicate HandedOut(h: State, v: View, h': State, v': View, p: Ptr, size: nat) {
    && SameBlocks(h, v, h', v'.(live := v.live))
    && p !in v.live && v'.live == v.live[p := size]
  }

  lemma HandedOutAfter(h0: State, v0: View, h1: State, v1: View, h2: State, v2: View, p: Ptr, size: nat)
    requires SameBlocks(h0, v0, h1, v1) && HandedOut(h1, v1, h2, v2, p, size)
    ensures HandedOut(h0, v0, h2, v2, p, size)
  {
  }

  /** The same for a chunk that has joined empty and has got a run now. */
  lemma HandedOutNew(h0: State, v0: View, h1: State, v1: View, h2: State, v2: View, p: Ptr, size: nat)
    requires Undisturbed(h0, v0, h1, v1) && KeepsLimit(h0, h1) && HandedOut(h1, v1, h2, v2, p, size)
    requires KeepsCompact(h0, v0, h2, v2)
    ensures HandedOut(h0, v0, h2, v2, p, size)
  {
    hide Compact;
    UndisturbedTrans(h0, v0, h1, v1, h2, v2.(live := v1.live));
    SameOwners(h2, v2, v2.(live := v0.live));
  }

  lemma SameOwners(h: State, v: View, v': View)
    requires v'.owners == v.owners
    ensures Compact(h, v') == Compact(h, v)
  {
  }

  lemma TakeIdle(L: Layout, s: nat, page: nat, n: nat, r: RunMap)
    requires LayoutOk(L) && Idle(L) && s in L && RunsOk(r) && page < PAGES && page + n <= PAGES
    requires r == RunMap(L[s].map_[page := Lrun(n)], Filled(L[s].owner, page, n, page))
    requires forall p :: page <= p < page + n ==> L[s].owner[p] == -1
    ensures LayoutOk(L[s := r]) && Idle(L[s := r])
  {
    forall h, b: nat | SmallHead(r, h, b) ensures r.map_[h].counter == 0 {
      assert h != page;
      assert SmallHead(L[s], h, b);
    }
  }

  /** The label found of zend_mm_alloc_pages. */
  method FinishPages(h: State, s: nat, page: nat, n: nat, move: bool, ghost v: View) returns (h': State, ghost v': View)
    requires Valid(h, v) && s in h.ring && s in h.chunks && (move ==> s != h.ring[0])
    requires 1 <= page <= h.chunks[s].freeTail && 1 <= n && page + n <= PAGES && RangeFree(Used(h.chunks[s]), page, n)
    ensures Valid(h', v') && HandedOut(h, v, h', v', Ptr(s, page * PAGE_SIZE), n * PAGE_SIZE)
    ensures Large(LayoutIn(h', v'), Ptr(s, page * PAGE_SIZE), n)
    ensures h' == h.(chunks := h'.chunks, ring := if move then MovedUp(h.ring, s) else h.ring)
    ensures CompactBut(h, v, s) ==> Compact(h', v')
  {
    hide LinksOk, HugeLinked, InRange, BytesKept, SegmentsOk, CacheOk, LayoutOf, Balanced, Idle, RealTotal, Runs,
         Unlink, RangeFree, Filled, Pages, Compact, CompactBut;
    LayoutEntry(h, v, s);
    LayoutFacts(h, v);
    KeptRefl(h.mem, v.live);
    FreeLists(h, v);
    var h1 := h;
    if move {
      h1 := h.(ring := MovedUp(h.ring, s));
      MoveToHead(h.ring, s, h1.ring);
      Reorder(h.chunks, v.owners, h.ring, h1.ring);
      ReorderSegments(h.ring, h1.ring, h.cached, Mappings(h, v), h.mapped);
    }
    assert Placed(h1, v) && s in h1.ring && LayoutIn(h1, v) == LayoutIn(h, v) by {
      assert (s in Members(h.ring)) <==> (s in Members(h1.ring));
    }
    var c, owner := TakePages(h1.chunks[s], page, n, v.owners[s]);
    h' := h1.(chunks := h1.chunks[s := c]);
    v' := v.(owners := v.owners[s := owner], live := v.live[Ptr(s, page * PAGE_SIZE) := n * PAGE_SIZE]);
    StoreChunk(h1, v, s, c, owner, h', v.(owners := v.owners[s := owner]));
    TakeRun(LayoutIn(h, v), h.freeSlot, h.hugeList, v.live, s, page, n, RunMap(c.map_, owner));
    RunsRunMap(c, owner);
    TakeIdle(LayoutIn(h, v), s, page, n, RunMap(c.map_, owner));
    RingNoDup(h, v);
    RingNoDup(h1, v);
    CompactTaken(h, v, s, owner, page, h', v');
    SameOwners(h', v', v'.(live := v.live));
  }

  /** A chunk moves to the place behind the main one. */
  function MovedUp(ring: seq<nat>, s: nat): seq<nat>
    requires ring != []
  {
    [ring[0], s] + Unlink(ring[1..], s)
  }

  /** The chunk at `k` comes second, and the chunks between the main one and it fall back by one. */
  lemma MovedUpOrder(ring: seq<nat>, k: nat)
    requires NoDup(ring) && 0 < k < |ring|
    ensures |MovedUp(ring, ring[k])| == |ring|
    ensures forall i :: 0 <= i < |ring| ==>
              MovedUp(ring, ring[k])[i]
              == if i == 0 then ring[0] else if i == 1 then ring[k] else if i <= k then ring[i - 1] else ring[i]
  {
    var rest := ring[1..];
    assert rest[k - 1] == ring[k];
    UnlinkAt(rest, k - 1);
  }

  lemma CompactTaken(h: State, v: View, s: nat, owner: seq<int>, page: nat, h': State, v': View)
    requires NoDup(h.ring) && NoDup(h'.ring) && h.ring != [] && h'.ring != [] && h'.ring[0] == h.ring[0]
    requires Members(h'.ring) == Members(h.ring) && v'.owners == v.owners[s := owner]
    requires 1 <= page < PAGES && |owner| == PAGES && owner[page] == page
    ensures CompactBut(h, v, s) ==> Compact(h', v')
    ensures Compact(h, v) ==> Compact(h', v')
  {
    assert owner != NoRuns() by { assert NoRuns()[page] == -1; }
    forall i | 0 < i < |h'.ring| ensures exists j :: 0 < j < |h.ring| && h.ring[j] == h'.ring[i] {
      assert h'.ring[i] in Members(h'.ring);
      var j :| 0 <= j < |h.ring| && h.ring[j] == h'.ring[i];
    }
  }

  lemma RunsRunMap(c: Chunk, owner: seq<int>)
    requires Runs(c, owner)
    ensures RunsOk(RunMap(c.map_, owner))
  {
    hide CountFree, Pages;
  }

  lemma ReorderSegments(ring: seq<nat>, ring': seq<nat>, cached: seq<nat>, huge: seq<Huge>, mapped: set<nat>)
    requires SegmentsOk(ring, cached, huge, mapped) && Members(ring') == Members(ring)
    ensures SegmentsOk(ring', cached, huge, mapped)
  {
    hide Apart, Segments, Members;
  }

  /**
   The pages at `p` are the best fit of the first chunk of the ring that has room, and that
   chunk has moved up if the search had to go past two others for a few pages.
   */
  ghost predicate BestPlace(h: State, n: nat, p: Ptr, ring: seq<nat>) {
    exists k, e :: 0 <= k < |h.ring| && FirstRoom(h, n, k) && p.seg == h.ring[k]
                   && BestFit(Used(h.chunks[p.seg]), n, p.off / PAGE_SIZE, e)
                   && ring == if k > 2 && n < 8 then MovedUp(h.ring, p.seg) else h.ring
  }

  /**
   The pages at `p` are the first of a chunk new in the ring, at its end or moved up if the
   search went past two others besides the main chunk for a few pages.
   */
  ghost predicate NewPlace(h: State, n: nat, p: Ptr, ring: seq<nat>) {
    && h.ring != [] && p.off == FIRST_PAGE * PAGE_SIZE
    && ring == if |h.ring| > 3 && n < 8 then MovedUp(h.ring + [p.seg], p.seg) else h.ring + [p.seg]
  }

  /** Pages can be had: from the ring, from the cache, or from the system within the limit. */
  ghost predicate CanServe(h: State, n: nat) {
    !NeedsChunk(h, n) || CHUNK_SIZE <= Headroom(h)
  }

  ghost predicate FirstRoom(h: State, n: nat, k: nat) {
    k < |h.ring| && RoomIn(h, h.ring[k], n) && forall i :: 0 <= i < k ==> !RoomIn(h, h.ring[i], n)
  }

  lemma TailsOnly(h: State, h': State, v: View)
    requires Valid(h, v) && TailsMoved(h, h', v)
    ensures Valid(h', v) && SameBlocks(h, v, h', v)
  {
    hide LinksOk, HugeLinked, InRange, BytesKept, SpaceOk, LayoutOf, Balanced, Idle, RealTotal;
    SameBlocksRefl(h, v);
  }

  lemma OneFirst(h: State, n: nat, k: nat)
    requires FirstRoom(h, n, k)
    ensures FirstRoom(h, n, 0) ==> k == 0
    ensures !NeedsChunk(h, n)
  {
    hide RoomIn;
  }

  /** Pages from the chunks of the ring. */
  method RingPages(h: State, n: nat, ghost v: View) returns (found: bool, p: Ptr, h': State, ghost v': View)
    requires Valid(h, v) && 1 <= n < PAGES
    ensures found ==> Valid(h', v') && HandedOut(h, v, h', v', p, n * PAGE_SIZE) && Large(LayoutIn(h', v'), p, n)
    ensures found ==> BestPlace(h, n, p, h'.ring) && !NeedsChunk(h, n) && h'.mapped == h.mapped
    ensures found ==> h'.realSize == h.realSize && PeaksSeen(h, h')
    ensures found && FirstRoom(h, n, 0) ==> h' == h.(chunks := h'.chunks)
    ensures !found ==> (forall k: nat :: !FirstRoom(h, n, k)) && h' == h.(chunks := h'.chunks)
    ensures !found ==> Valid(h', v) && v' == v && SameBlocks(h, v, h', v)
  {
    hide LinksOk, HugeLinked, InRange, BytesKept, SpaceOk, LayoutOf, Balanced, Idle, RealTotal, BestFit, RangeFree,
         Large, RoomIn, Used, Headroom, NeedsChunk;
    SameBlocksRefl(h, v);
    var k, page, h1;
    ghost var gapEnd;
    found, k, page, h1, gapEnd := SearchRing(h, n, v);
    TailsOnly(h, h1, v);
    if !found {
      return false, Ptr(0, 0), h1, v;
    }
    OneFirst(h, n, k);
    var s := h1.ring[k];
    p := Ptr(s, page * PAGE_SIZE);
    LayoutEntry(h1, v, s);
    RingDistinct(h1, v, k);
    h', v' := FinishPages(h1, s, page, n, k > 2 && n < 8, v);
    HandedOutAfter(h, v, h1, v, h', v', p, n * PAGE_SIZE);
    NothingSeen(h, h', v');
    assert p.off / PAGE_SIZE == page;
  }

  /** Pages from a chunk taken from the cache or from the system, the search having walked over `steps` chunks. */
  method NewPages(h: State, n: nat, steps: nat, ghost v: View)
    returns (r: Outcome, h': State, ghost v': View, ghost refused: bool)
    requires Valid(h, v) && 1 <= n < PAGES
    ensures r.Ok? ==> Valid(h', v') && HandedOut(h, v, h', v', r.ptr, n * PAGE_SIZE)
                      && Large(LayoutIn(h', v'), r.ptr, n)
    ensures r.Bailout? ==> Valid(h', v') && SameBlocks(h, v, h', v') && PeaksSeen(h, h')
    ensures r.Bailout? ==> Settled(h', v') && (!refused && Compact(h, v) ==> !h'.overflow && Headroom(h') < CHUNK_SIZE)
    ensures (h.cached != [] || CHUNK_SIZE <= Headroom(h)) && !refused ==>
              r.Ok? && h.ring != []
              && h'.ring == if steps > 2 && n < 8 then MovedUp(h.ring + [r.ptr.seg], r.ptr.seg)
                            else h.ring + [r.ptr.seg]
    ensures r.Ok? ==> r.ptr.off == FIRST_PAGE * PAGE_SIZE && PeaksSeen(h, h')
    ensures r.Ok? ==> h'.realSize <= h.realSize + CHUNK_SIZE && (refused ==> 0 < TotalFree(h.freeSlot))
    ensures r.Ok? && h.cached != [] ==> h'.realSize == h.realSize
    ensures r.Ok? && h.cached == [] && CHUNK_SIZE <= Headroom(h) && !refused ==> h'.realSize == h.realSize + CHUNK_SIZE
    ensures r.MainLost? ==> h.ring != [] && Loose(v.live, h.ring[0])
  {
    hide LinksOk, HugeLinked, InRange, BytesKept, SpaceOk, LayoutOf, Balanced, Idle, RealTotal, RangeFree, NoRuns,
         Large, Used, Headroom, TotalFree, Compact, CompactBut, Settled, Unlink, MovedUp;
    LastChunk(h, v);
    var status, h1, s;
    ghost var v1;
    ghost var again;
    status, h1, v1, s, refused, again := GetChunk(h, v);
    if status.Lost? {
      return MainLost, h1, v1, refused;
    } else if status.Failed? {
      return Bailout, h1, v1, refused;
    }
    LayoutEntry(h1, v1, s);
    EmptyRange(h1.chunks[s], n);
    RingDistinct(h1, v1, |h1.ring| - 1);
    h', v' := FinishPages(h1, s, FIRST_PAGE, n, steps > 2 && n < 8, v1);
    HandedOutNew(h, v, h1, v1, h', v', Ptr(s, FIRST_PAGE * PAGE_SIZE), n * PAGE_SIZE);
    r := Ok(Ptr(s, FIRST_PAGE * PAGE_SIZE));
  }

  lemma PlaceHasRoom(h: State, n: nat, p: Ptr, ring: seq<nat>)
    requires BestPlace(h, n, p, ring)
    ensures exists k: nat :: FirstRoom(h, n, k)
  {
    hide RoomIn, BestFit, Used, MovedUp;
  }

  /** zend_mm_alloc_pages. */
  method AllocPages(h: State, n: nat, ghost v: View)
    returns (r: Outcome, h': State, ghost v': View, ghost refused: bool)
    requires Valid(h, v) && 1 <= n < PAGES
    ensures r.Ok? ==> Valid(h', v') && HandedOut(h, v, h', v', r.ptr, n * PAGE_SIZE)
                      && Large(LayoutIn(h', v'), r.ptr, n)
    ensures (exists k: nat :: FirstRoom(h, n, k)) ==> r.Ok? && BestPlace(h, n, r.ptr, h'.ring) && h'.mapped == h.mapped
    ensures CanServe(h, n) && !refused ==> r.Ok?
    ensures r.Bailout? ==> Valid(h', v') && SameBlocks(h, v, h', v') && PeaksSeen(h, h')
    ensures r.Bailout? ==> Settled(h', v') && (!refused && Compact(h, v) ==> !h'.overflow && Headroom(h') < CHUNK_SIZE)
    ensures r.Ok? ==> PeaksSeen(h, h')
    ensures r.Ok? ==> h'.realSize <= h.realSize + CHUNK_SIZE && (refused ==> 0 < TotalFree(h.freeSlot))
    ensures r.Ok? && !NeedsChunk(h, n) ==> h'.realSize == h.realSize
    ensures r.Ok? && NeedsChunk(h, n) && CHUNK_SIZE <= Headroom(h) && !refused ==>
              h'.realSize == h.realSize + CHUNK_SIZE
    ensures (forall k: nat :: !FirstRoom(h, n, k)) && (h.cached != [] || CHUNK_SIZE <= Headroom(h)) && !refused ==>
              r.Ok? && NewPlace(h, n, r.ptr, h'.ring)
    ensures FirstRoom(h, n, 0) ==> h' == h.(chunks := h'.chunks)
    ensures r.MainLost? ==> h.ring != [] && Loose(v.live, h.ring[0])
  {
    hide Valid, BytesKept, Large, FirstRoom, BestPlace, HandedOut, LayoutIn, TotalFree, Compact, Settled, MovedUp;
    var found, p, h1;
    ghost var v1;
    found, p, h1, v1 := RingPages(h, n, v);
    if found {
      PlaceHasRoom(h, n, p, h1.ring);
      return Ok(p), h1, v1, false;
    }
    r, h', v', refused := NewPages(h1, n, |h.ring| - 1, v);
    if r.Ok? {
      HandedOutAfter(h, v, h1, v, h', v', r.ptr, n * PAGE_SIZE);
    } else if r.Bailout? {
      SameBlocksTrans(h, v, h1, v, h', v');
    }
  }

  lemma RingDistinct(h: State, v: View, k: nat)
    requires Placed(h, v) && k < |h.ring|
    ensures k > 0 ==> h.ring[k] != h.ring[0]
  {
    hide LinksOk, HugeLinked, InRange, BytesKept, Runs, CacheOk, SegmentsOk;
  }

  lemma EmptyRange(c: Chunk, n: nat)
    requires Runs(c, NoRuns()) && n < PAGES
    ensures RangeFree(Used(c), FIRST_PAGE, n)
  {
    hide CountFree, Pages;
  }
}

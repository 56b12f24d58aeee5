/**
 The beginning and the end of a request's heap, and the memory limit.
 */
module Lifecycle {
  import opened Basics
  import opened Bins
  import opened Chunks
  import opened Blocks
  import opened Ledger
  import opened Memory
  import opened Collector
  import opened Space
  import opened Heap

  // ---------------------------------------------------------------- empty heap

  function NoSlots(): (free: seq<seq<Ptr>>)
    ensures |free| == BINS && forall b :: 0 <= b < BINS ==> free[b] == []
  {
    seq(BINS, b => [])
  }

  lemma NothingBalanced()
    ensures Balanced(map[], NoSlots(), [], map[]) && Idle(map[])
  {
  }

  /** One initialised chunk and no block. */
  lemma OneChunk(main: nat, c: Chunk, chunks: map<nat, Chunk>)
    requires Runs(c, NoRuns()) && main in chunks && chunks[main] == c
    ensures RingOk(chunks, map[main := NoRuns()], [main])
    ensures var L := LayoutOf(chunks, map[main := NoRuns()], [main]);
            Balanced(L, NoSlots(), [], map[]) && Idle(L)
  {
    hide LinksOk, HugeLinked, InRange, Runs, NoRuns, NoSlots, Balanced, Idle;
    var r := RunMap(c.map_, NoRuns());
    RunsRunMap(c, NoRuns());
    NothingBalanced();
    AddChunk(map[], NoSlots(), [], map[], main, r);
    JoinIdle(map[], main, r);
    assert LayoutOf(chunks, map[main := NoRuns()], [main]) == map[][main := r];
  }

  /** zend_mm_init: a heap without blocks, or none if the system gives no memory. */
  method Init(mapped: set<nat>) returns (ok: bool, h: State, ghost v: View)
    requires InRange(mapped)
    ensures ok ==> Valid(h, v) && v.live == map[] && v.pending == [] && h.hugeList == []
    ensures ok ==> h.size == 0 && h.peak == 0 && h.realSize == CHUNK_SIZE && !h.overflow && h.limit == SIZE_T / 2 - 1
    ensures ok ==> |h.ring| == 1 && h.ring[0] in v.owners && v.owners[h.ring[0]] == NoRuns() && h.ring[0] in h.chunks
    ensures ok ==> h.ring[0] !in mapped && h.mapped == mapped + {h.ring[0]}
    ensures ok ==> TallyOf(h) == Tally(1, 0, (0, 0)) && h.avgChunksCount == 1.0
    ensures ok ==> h.realPeak == CHUNK_SIZE && h.peakChunksCount == 1 && h.chunks[h.ring[0]].num == 0
    ensures ok ==> Runs(h.chunks[h.ring[0]], NoRuns()) && h.cached == [] && h.freeSlot == NoSlots()
  {
    hide Valid, InRange, Runs, NoRuns, NoSlots, Blank, FreshChunk;
    var main, mapped';
    ok, main, mapped' := OsMap(mapped, CHUNK_SIZE);
    FreshBlank();
    BlankSized(FreshChunk());
    InitEmpty(FreshChunk(), 0);
    assert Segments(main, CHUNK_SIZE) == {main};
    var chunks := map[main := InitChunk(FreshChunk(), 0)];
    h := State(size := 0, peak := 0, realSize := CHUNK_SIZE, realPeak := CHUNK_SIZE, limit := SIZE_T / 2 - 1,
               overflow := false, freeSlot := NoSlots(), hugeList := [], ring := [main], cached := [],
               chunks := chunks, chunksCount := 1,
               peakChunksCount := 1, cachedChunksCount := 0, avgChunksCount := 1.0, lastDeleteBoundary := 0,
               lastDeleteCount := 0, mapped := mapped', mem := a => 0);
    v := View(map[main := NoRuns()], map[], []);
    if ok {
      assert SegmentsOk([main] + [], [], [], mapped');
      Restarted(h, v);
    }
  }

  // -------------------------------------------------------------- memory limit

  /** The head of the cache goes back to the system. */
  lemma ReleaseSegment(ring: seq<nat>, cached: seq<nat>, huge: seq<Huge>, mapped: set<nat>)
    requires SegmentsOk(ring, cached, huge, mapped) && NoDup(cached) && cached != []
    ensures SegmentsOk(ring, cached[1..], huge, mapped - {cached[0]}) && NoDup(cached[1..]) && cached[0] !in ring
  {
    hide Apart, Segments;
    var s, rest := cached[0], cached[1..];
    assert cached == [s] + rest;
    assert s in Members(cached) && s !in rest;
    assert Members(cached) == Members(rest) + {s};
    ApartFewer(Members(ring) + Members(cached), Members(ring) + Members(rest), huge);
    assert SegmentsOk(ring, rest, huge, mapped);
    DropSegment(ring, rest, huge, mapped, s, Members(ring) + Members(cached));
    NotCached(ring, cached, huge, mapped, s);
  }

  function WithoutCached(h: State): State
    requires h.cached != []
  {
    var s := h.cached[0];
    h.(cached := h.cached[1..], cachedChunksCount := h.cachedChunksCount - 1, realSize := h.realSize - CHUNK_SIZE,
       chunks := h.chunks - {s}, mapped := h.mapped - {s})
  }

  lemma ReleaseValid(h: State, v: View)
    requires Valid(h, v) && h.cached != []
    ensures Valid(WithoutCached(h), v)
  {
    hide LinksOk, HugeLinked, Runs, Blank, LayoutOf, SegmentsOk, Balanced, Idle, RealTotal;
    var s := h.cached[0];
    ReleaseSegment(h.ring, h.cached, Mappings(h, v), h.mapped);
    assert CacheOk(h.chunks, h.cached[1..]);
    assert h.cached == [s] + h.cached[1..];
    assert s !in h.cached[1..];
    ForgetChunk(h.chunks, v.owners, h.ring, h.cached[1..], s);
    OneChunkLess(|h.ring| + |h.cached|, h.hugeList);
  }

  lemma TotalSplit(h: State, v: View)
    requires Valid(h, v)
    ensures h.realSize == RealTotal(|h.ring|, h.hugeList) + |h.cached| * CHUNK_SIZE
    ensures h.cachedChunksCount == |h.cached|
  {
    hide LinksOk, HugeLinked, InRange, SpaceOk, LayoutOf, Balanced, Idle;
  }

  /**
   zend_set_memory_limit.  It succeeds exactly when what is in use fits; then
   just enough of the cache is given back, and the loop never finds it empty.
   Success through that loop leaves the old limit in place.
   */
  method SetMemoryLimit(h: State, limit: nat, ghost v: View) returns (ok: bool, h': State)
    requires Valid(h, v)
    ensures ok <==> RealTotal(|h.ring|, h.hugeList) <= limit
    ensures !ok ==> h' == h
    ensures ok ==> Valid(h', v) && h'.realSize <= limit
    ensures h.realSize <= limit ==> h' == h.(limit := limit)
    ensures ok && limit < h.realSize ==> limit < h'.realSize + CHUNK_SIZE && h'.limit == h.limit
    ensures h' == h.(cached := h'.cached, cachedChunksCount := h'.cachedChunksCount, realSize := h'.realSize,
                     chunks := h'.chunks, mapped := h'.mapped, limit := h'.limit)
    ensures |h'.cached| <= |h.cached| && h'.cached == h.cached[|h.cached| - |h'.cached|..]
  {
    hide Valid, RealTotal;
    TotalSplit(h, v);
    h' := h;
    if limit < h.realSize {
      if limit >= h.realSize - h.cachedChunksCount * CHUNK_SIZE {
        h' := WithoutCached(h);
        ReleaseValid(h, v);
        TotalSplit(h', v);
        while limit < h'.realSize
          invariant Valid(h', v) && h'.hugeList == h.hugeList && h'.ring == h.ring && limit < h'.realSize + CHUNK_SIZE
          invariant h' == h.(cached := h'.cached, cachedChunksCount := h'.cachedChunksCount, realSize := h'.realSize,
                             chunks := h'.chunks, mapped := h'.mapped)
          invariant |h'.cached| <= |h.cached| && h'.cached == h.cached[|h.cached| - |h'.cached|..]
          decreases |h'.cached|
        {
          TotalSplit(h', v);
          ReleaseValid(h', v);
          h' := WithoutCached(h');
        }
        return true, h';
      }
      return false, h';
    }
    h' := h'.(limit := limit);
    LimitValid(h, v, limit);
    ok := true;
  }

  lemma LimitValid(h: State, v: View, limit: nat)
    ensures Valid(h.(limit := limit), v) == Valid(h, v)
  {
    hide LinksOk, HugeLinked, InRange, SpaceOk, LayoutOf, Balanced, Idle, RealTotal;
  }

  // ------------------------------------------------------------------ shutdown

  /** Shutdown under way: `rest` are the chunks still to be parked, `maps` the mappings still there. */
  ghost predicate Parting(main: nat, rest: seq<nat>, cached: seq<nat>, maps: seq<Huge>, mapped: set<nat>) {
    NoDup([main] + rest) && NoDup(cached) && SegmentsOk([main] + rest, cached, maps, mapped)
  }

  lemma DropFirst(main: nat, rest: seq<nat>, cached: seq<nat>, huge: seq<Huge>, pending: seq<Huge>, mapped: set<nat>)
    requires Parting(main, rest, cached, huge + pending, mapped) && huge != []
    ensures Parting(main, rest, cached, huge[1..] + pending, mapped - Segments(huge[0].seg, huge[0].size))
  {
    hide LinksOk, HugeLinked, InRange, SegmentsOk, Segments;
    var all := huge + pending;
    assert all[0] == huge[0];
    assert huge[1..] + pending == all[..0] + all[1..];
    DropMapping([main] + rest, cached, all, 0, mapped);
  }

  lemma ParkFirst(main: nat, rest: seq<nat>, cached: seq<nat>, maps: seq<Huge>, mapped: set<nat>)
    requires Parting(main, rest, cached, maps, mapped) && rest != []
    ensures Parting(main, rest[1..], [rest[0]] + cached, maps, mapped)
  {
    hide LinksOk, HugeLinked, InRange, SegmentsOk;
    var ring, s := [main] + rest, rest[0];
    assert ring[1] == s && ring[0] == main;
    RetireSegments(ring, cached, maps, mapped, s);
    assert ring[1..] == rest;
    assert Unlink(ring, s) == [main] + rest[1..];
    NotCached(ring, cached, maps, mapped, s);
    NoDupCons(s, cached);
    UnlinkMembers(ring, s);
  }

  lemma TrimFirst(main: nat, cached: seq<nat>, maps: seq<Huge>, mapped: set<nat>)
    requires Parting(main, [], cached, maps, mapped) && cached != []
    ensures Parting(main, [], cached[1..], maps, mapped - {cached[0]})
  {
    hide LinksOk, HugeLinked, InRange, SegmentsOk;
    ReleaseSegment([main] + [], cached, maps, mapped);
  }

  /** Segment `s` belongs to one of the huge blocks. */
  ghost predicate InHuge(huge: seq<Huge>, s: nat) {
    exists i :: 0 <= i < |huge| && s in Segments(huge[i].seg, huge[i].size)
  }

  lemma InHugeNext(huge: seq<Huge>, i: nat)
    requires i < |huge|
    ensures forall s :: InHuge(huge[..i + 1], s) <==> InHuge(huge[..i], s) || s in Segments(huge[i].seg, huge[i].size)
  {
    hide Segments;
    var few, more := huge[..i], huge[..i + 1];
    assert more[i] == huge[i] && forall j :: 0 <= j < i ==> more[j] == few[j];
    forall s ensures InHuge(more, s) <==> InHuge(few, s) || s in Segments(huge[i].seg, huge[i].size) {
      if j :| 0 <= j < |few| && s in Segments(few[j].seg, few[j].size) {
        assert s in Segments(more[j].seg, more[j].size);
      }
      if j :| 0 <= j < |more| && s in Segments(more[j].seg, more[j].size) {
        assert j < i ==> s in Segments(few[j].seg, few[j].size);
      }
    }
  }

  lemma NotInHuge(s: nat)
    ensures !InHuge([], s)
  {
  }

  /** Giving back the huge blocks. */
  method UnmapAll(huge: seq<Huge>, mapped: set<nat>, ghost main: nat, ghost rest: seq<nat>, ghost cached: seq<nat>,
                  ghost pending: seq<Huge>)
    returns (mapped': set<nat>)
    requires Parting(main, rest, cached, huge + pending, mapped)
    ensures Parting(main, rest, cached, pending, mapped') && mapped' <= mapped
    ensures forall s :: s in mapped' <==> s in mapped && !InHuge(huge, s)
  {
    hide Parting, Segments, InHuge;
    mapped' := mapped;
    var i := 0;
    assert huge[0..] == huge;
    forall s ensures !InHuge(huge[..0], s) { NotInHuge(s); }
    assert huge[..0] == [];
    while i < |huge|
      invariant 0 <= i <= |huge| && Parting(main, rest, cached, huge[i..] + pending, mapped')
      invariant forall s :: s in mapped' <==> s in mapped && !InHuge(huge[..i], s)
    {
      InHugeNext(huge, i);
      DropFirst(main, rest, cached, huge[i..], pending, mapped');
      assert huge[i..][1..] == huge[i + 1..];
      mapped' := mapped' - Segments(huge[i].seg, huge[i].size);
      i := i + 1;
    }
    assert huge[i..] + pending == pending;
    assert huge[..i] == huge;
  }

  /** Moving all chunks but the main one to the cache, the last to the front. */
  method ParkAll(ring: seq<nat>, cached: seq<nat>, ghost maps: seq<Huge>, ghost mapped: set<nat>)
    returns (cached': seq<nat>)
    requires ring != [] && Parting(ring[0], ring[1..], cached, maps, mapped)
    ensures Parting(ring[0], [], cached', maps, mapped) && cached' == Reversed(ring[1..]) + cached
  {
    hide Parting;
    cached' := cached;
    var i := 1;
    while i < |ring|
      invariant 1 <= i <= |ring| && Parting(ring[0], ring[i..], cached', maps, mapped)
      invariant Reversed(ring[i..]) + cached' == Reversed(ring[1..]) + cached
    {
      ParkFirst(ring[0], ring[i..], cached', maps, mapped);
      assert ring[i..][1..] == ring[i + 1..];
      cached' := [ring[i]] + cached';
      i := i + 1;
    }
    assert ring[i..] == [];
  }

  /** Just enough chunks at the head of the cache have been given back to keep to the average. */
  ghost predicate Trimmed(all: seq<nat>, cached: seq<nat>, avg: real, mapped: set<nat>, mapped': set<nat>) {
    && |cached| <= |all| && cached == all[|all| - |cached|..]
    && (forall s :: s in mapped' <==> s in mapped && s !in all[..|all| - |cached|])
    && (cached == [] || |cached| as real + 0.9 <= avg)
    && (|cached| < |all| ==> (|cached| + 1) as real + 0.9 > avg)
  }

  /** Freeing cached chunks to keep the average count. */
  method TrimCache(cached: seq<nat>, avg: real, mapped: set<nat>, ghost main: nat, ghost maps: seq<Huge>)
    returns (cached': seq<nat>, mapped': set<nat>)
    requires Parting(main, [], cached, maps, mapped)
    ensures Parting(main, [], cached', maps, mapped') && mapped' <= mapped
    ensures Trimmed(cached, cached', avg, mapped, mapped')
  {
    hide Parting;
    cached', mapped' := cached, mapped;
    while |cached'| as real + 0.9 > avg && cached' != []
      invariant Parting(main, [], cached', maps, mapped')
      invariant |cached'| <= |cached| && cached' == cached[|cached| - |cached'|..]
      invariant |cached'| < |cached| ==> (|cached'| + 1) as real + 0.9 > avg
      invariant forall s :: s in mapped' <==> s in mapped && s !in cached[..|cached| - |cached'|]
    {
      assert cached[..|cached| - |cached'| + 1] == cached[..|cached| - |cached'|] + [cached'[0]];
      TrimFirst(main, cached', maps, mapped');
      mapped' := mapped' - {cached'[0]};
      cached' := cached'[1..];
    }
  }

  /** Wiping the headers of the chunks left in the cache; the headers of the other chunks are gone. */
  method WipeCache(cached: seq<nat>) returns (chunks: map<nat, Chunk>)
    ensures chunks.Keys == Members(cached) && forall s :: s in cached ==> s in chunks && chunks[s] == FreshChunk()
  {
    hide FreshChunk;
    chunks := map[];
    var i := 0;
    while i < |cached|
      invariant 0 <= i <= |cached| && chunks.Keys == Members(cached[..i])
      invariant forall s :: s in cached[..i] ==> chunks[s] == FreshChunk()
    {
      assert cached[..i + 1] == cached[..i] + [cached[i]];
      chunks := chunks[cached[i] := FreshChunk()];
      i := i + 1;
    }
    assert cached[..i] == cached;
  }

  lemma StartParting(h: State, v: View)
    requires Valid(h, v)
    ensures h.ring != [] && Parting(h.ring[0], h.ring[1..], h.cached, h.hugeList + v.pending, h.mapped)
  {
    hide LinksOk, HugeLinked, InRange, Runs, Balanced, Idle, LayoutOf, Blank, SegmentsOk, RealTotal;
    assert [h.ring[0]] + h.ring[1..] == h.ring;
  }

  /** The main chunk as new and a cache of wiped chunks make a heap. */
  lemma Restarted(h: State, v: View)
    requires h.freeSlot == NoSlots() && h.hugeList == [] && h.chunksCount == 1 <= h.peakChunksCount
             && h.cachedChunksCount == |h.cached|
    requires h.realSize == h.realPeak == (|h.cached| + 1) * CHUNK_SIZE
    requires |h.ring| == 1 && Parting(h.ring[0], [], h.cached, v.pending, h.mapped) && InRange(h.mapped)
    requires v.owners == map[h.ring[0] := NoRuns()] && v.live == map[]
    requires h.chunks.Keys == Members(h.cached) + {h.ring[0]} && Runs(h.chunks[h.ring[0]], NoRuns())
    requires forall s :: s in h.cached && s != h.ring[0] ==> s in h.chunks && h.chunks[s] == FreshChunk()
    ensures Valid(h, v) && h.ring[0] !in h.cached
  {
    hide LinksOk, HugeLinked, InRange, Runs, NoRuns, Balanced, Idle, LayoutOf, Blank, FreshChunk, NoSlots, SegmentsOk;
    var main := h.ring[0];
    NoLinks(h.mem, NoSlots());
    FreshBlank();
    OneChunk(main, h.chunks[main], h.chunks);
    assert h.ring == [main] + [];
    assert h.ring == [main];
    NotCached(h.ring, h.cached, v.pending, h.mapped, main);
    assert Mappings(h, v) == v.pending;
  }

  /**
   zend_mm_shutdown at the end of a request: all blocks are gone, the main chunk
   is as new, and the chunks kept are wiped, so that taking them from the cache
   later gives empty ones.
   */
  method Shutdown(h: State, ghost v: View) returns (h': State, ghost v': View)
    requires Valid(h, v)
    ensures Valid(h', v') && v'.live == map[] && v'.pending == v.pending
    ensures h'.size == 0 && h'.peak == 0 && h'.hugeList == [] && h'.freeSlot == NoSlots()
    ensures h.ring != [] && h'.ring == [h.ring[0]] && h'.limit == h.limit && h'.overflow == h.overflow
    ensures h'.avgChunksCount == (h.avgChunksCount + h.peakChunksCount as real) / 2.0
    ensures exists left :: (forall s :: s in left <==> s in h.mapped && !InHuge(h.hugeList, s))
                           && Trimmed(Reversed(h.ring[1..]) + h.cached, h'.cached, h'.avgChunksCount, left, h'.mapped)
    ensures forall s :: s in h'.cached ==> s in h'.chunks && h'.chunks[s] == FreshChunk()
    ensures h'.ring[0] in h'.chunks && h'.chunks[h'.ring[0]] == InitChunk(FreshChunk(), 0)
    ensures TallyOf(h') == Tally(1, |h'.cached|, (0, 0)) && h'.peakChunksCount == 1
    ensures h'.realPeak == h'.realSize == (1 + |h'.cached|) * CHUNK_SIZE && h'.realSize <= h.realSize
  {
    hide Valid, Parting, Trimmed, InHuge, Runs, NoRuns, Blank, FreshChunk, NoSlots, Segments, Reversed, Members;
    StartParting(h, v);
    RangeOf(h, v);
    var main := h.ring[0];
    var mapped := UnmapAll(h.hugeList, h.mapped, main, h.ring[1..], h.cached, v.pending);
    var all := ParkAll(h.ring, h.cached, v.pending, mapped);
    var avg := (h.avgChunksCount + h.peakChunksCount as real) / 2.0;
    var cached, kept := TrimCache(all, avg, mapped, main, v.pending);
    var chunks := WipeCache(cached);
    FreshBlank();
    BlankSized(FreshChunk());
    InitEmpty(FreshChunk(), 0);
    chunks := chunks[main := InitChunk(FreshChunk(), 0)];
    var total := (|cached| + 1) * CHUNK_SIZE;
    h' := h.(size := 0, peak := 0, freeSlot := NoSlots(), hugeList := [], ring := [main], cached := cached,
             chunks := chunks, mapped := kept, chunksCount := 1, peakChunksCount := 1, cachedChunksCount := |cached|,
             avgChunksCount := avg, realSize := total, realPeak := total, lastDeleteBoundary := 0,
             lastDeleteCount := 0);
    v' := View(map[main := NoRuns()], map[], v.pending);
    RangeLess(h.mapped, kept);
    Restarted(h', v');
    TrimmedFewer(all, cached, avg, mapped, kept);
    ChunksOnly(h, v, |cached| + 1);
  }

  lemma TrimmedFewer(all: seq<nat>, cached: seq<nat>, avg: real, mapped: set<nat>, mapped': set<nat>)
    requires Trimmed(all, cached, avg, mapped, mapped')
    ensures |cached| <= |all|
  {
  }

  /** The chunks alone are no more than `real_size`. */
  lemma ChunksOnly(h: State, v: View, count: nat)
    requires Valid(h, v) && count <= |h.ring| + |h.cached|
    ensures count * CHUNK_SIZE <= h.realSize
  {
    hide LinksOk, HugeLinked, InRange, SpaceOk, LayoutOf, Balanced, Idle;
  }

  /** Giving back every cached chunk. */
  method UnmapCached(cached: seq<nat>, mapped: set<nat>) returns (mapped': set<nat>)
    ensures forall s :: s in mapped' <==> s in mapped && s !in cached
  {
    mapped' := mapped;
    var i := 0;
    while i < |cached|
      invariant 0 <= i <= |cached| && forall s :: s in mapped' <==> s in mapped && s !in cached[..i]
    {
      assert cached[..i + 1] == cached[..i] + [cached[i]];
      mapped' := mapped' - {cached[i]};
      i := i + 1;
    }
    assert cached[..i] == cached;
  }

  /** zend_mm_shutdown at the end of the process: every segment of the heap is given back, and no other. */
  method ShutdownFull(h: State, ghost v: View) returns (mapped: set<nat>)
    requires Valid(h, v)
    ensures forall s :: s in mapped <==> s in h.mapped && !InHuge(h.hugeList, s) && s !in h.ring && s !in h.cached
  {
    hide Valid, Parting, InHuge, Reversed;
    StartParting(h, v);
    mapped := UnmapAll(h.hugeList, h.mapped, h.ring[0], h.ring[1..], h.cached, v.pending);
    var cached := ParkAll(h.ring, h.cached, v.pending, mapped);
    mapped := UnmapCached(cached, mapped);
    mapped := mapped - {h.ring[0]};
    ReversedHas(h.ring[1..]);
    assert h.ring == [h.ring[0]] + h.ring[1..];
  }

  lemma {:induction false} ReversedHas(s: seq<nat>)
    ensures forall x :: x in Reversed(s) <==> x in s
  {
    if s != [] {
      ReversedHas(s[1..]);
      assert s == [s[0]] + s[1..];
    }
  }
}

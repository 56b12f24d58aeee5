/**
 The counting argument behind zend_mm_gc: a run whose counter reaches the
 number of its slots has all of them on the free list.
 */
module Collector {
  import opened Bitset
  import opened Bins
  import opened PageInfo
  import opened Chunks
  import opened Blocks
  import opened Ledger

  /** `p` is a slot of the run that starts at page `h` of chunk `s`. */
  ghost predicate InRun(L: Layout, p: Ptr, s: nat, h: int)
    requires LayoutOk(L)
  {
    p.seg == s && s in L && HeadOf(L[s], p.off) == h
  }

  ghost function CountIn(L: Layout, list: seq<Ptr>, s: nat, h: int): (n: nat)
    requires LayoutOk(L)
    ensures n <= |list|
  {
    if list == [] then 0
    else CountIn(L, list[..|list| - 1], s, h) + if InRun(L, list[|list| - 1], s, h) then 1 else 0
  }

  ghost function ListedIn(L: Layout, list: seq<Ptr>, s: nat, h: int): set<Ptr>
    requires LayoutOk(L)
  {
    set p | p in list && InRun(L, p, s, h)
  }

  /** Counting a list without repeats is counting its elements. */
  lemma {:induction false} CountIsCard(L: Layout, list: seq<Ptr>, s: nat, h: int)
    requires LayoutOk(L) && NoDup(list)
    ensures CountIn(L, list, s, h) == |ListedIn(L, list, s, h)|
  {
    hide InRun, RunsOk;
    if list == [] {
      assert ListedIn(L, list, s, h) == {};
    } else {
      var n := |list| - 1;
      var init, last := list[..n], list[n];
      CountIsCard(L, init, s, h);
      assert last !in init;
      assert forall p :: p in list <==> p in init || p == last;
      if InRun(L, last, s, h) {
        assert ListedIn(L, list, s, h) == ListedIn(L, init, s, h) + {last};
      } else {
        assert ListedIn(L, list, s, h) == ListedIn(L, init, s, h);
      }
    }
  }

  /** The first `n` slots of a run. */
  ghost function Slots(s: nat, h: nat, b: nat, n: nat): set<Ptr>
    requires b < BINS && n <= BinElements(b)
  {
    if n == 0 then {} else Slots(s, h, b, n - 1) + {SlotPtr(s, h, b, n - 1)}
  }

  ghost function SlotPtr(s: nat, h: nat, b: nat, j: nat): Ptr
    requires b < BINS
  {
    Ptr(s, h * PAGE_SIZE + j * BinSize(b))
  }

  lemma SlotPtrIs(s: nat, h: nat, b: nat, j: nat, p: Ptr)
    requires b < BINS && j < BinElements(b)
    ensures p.seg == s && IsSlot(h, b, j, p.off) <==> p == SlotPtr(s, h, b, j)
  {
  }

  lemma {:induction false} SlotsMembers(s: nat, h: nat, b: nat, n: nat)
    requires b < BINS && n <= BinElements(b)
    ensures |Slots(s, h, b, n)| == n
    ensures forall p :: p in Slots(s, h, b, n) <==> p.seg == s && exists j :: 0 <= j < n && IsSlot(h, b, j, p.off)
  {
    hide BinSize, BinElements, IsSlot, SlotPtr;
    if n > 0 {
      SlotsMembers(s, h, b, n - 1);
      var last := SlotPtr(s, h, b, n - 1);
      SlotPtrIs(s, h, b, n - 1, last);
      if last in Slots(s, h, b, n - 1) {
        var j :| 0 <= j < n - 1 && IsSlot(h, b, j, last.off);
        SlotsApart(h, b, j, n - 1, last.off, last.off);
      }
      forall p
        ensures p in Slots(s, h, b, n) <==> p.seg == s && exists j :: 0 <= j < n && IsSlot(h, b, j, p.off)
      {
        SlotPtrIs(s, h, b, n - 1, p);
        assert p in Slots(s, h, b, n) <==> p in Slots(s, h, b, n - 1) || p == last;
      }
    }
  }

  lemma {:induction false} SubsetCard<T>(a: set<T>, b: set<T>)
    requires a <= b
    ensures |a| <= |b|
    ensures |a| == |b| ==> a == b
  {
    if a != b {
      var x :| x in b && x !in a;
      SubsetCard(a, b - {x});
    }
  }

  /** All slots of the run are on the list. */
  ghost predicate AllListed(list: seq<Ptr>, s: nat, h: nat, b: nat)
    requires b < BINS
  {
    forall p: Ptr :: p.seg == s && SlotOf(h, b, p.off) ==> p in list
  }

  /** The pigeonhole step: the count reaches the number of slots exactly when all are listed. */
  lemma CountFull(L: Layout, list: seq<Ptr>, s: nat, h: nat, b: nat, live: map<Ptr, nat>)
    requires LayoutOk(L) && b < BINS && s in L && SmallHead(L[s], h, b) && FreeListOk(L, list, b, live)
    ensures CountIn(L, list, s, h) <= BinElements(b)
    ensures CountIn(L, list, s, h) == BinElements(b) <==> AllListed(list, s, h, b)
  {
    hide BinSize, BinElements, BinPages, CountIn, Slots, SmallAt, IsSlot;
    var n := BinElements(b);
    CountIsCard(L, list, s, h);
    SlotsMembers(s, h, b, n);
    var all, listed := Slots(s, h, b, n), ListedIn(L, list, s, h);
    assert listed <= all by {
      forall p | p in listed ensures p in all {
        var i :| 0 <= i < |list| && list[i] == p;
        assert Small(L, list[i], b);
        SmallSlot(L[s], p.off, b);
        var j :| IsSlot(h, b, j, p.off);
        SlotIndex(h, b, j, p.off);
      }
    }
    SubsetCard(listed, all);
    if AllListed(list, s, h, b) {
      forall p | p in all ensures p in listed {
        var j :| 0 <= j < n && IsSlot(h, b, j, p.off);
        assert SlotOf(h, b, p.off);
        SlotIsBlock(L[s], h, b, j, p.off);
      }
      assert listed == all;
    }
    if listed == all {
      forall p: Ptr | p.seg == s && SlotOf(h, b, p.off) ensures p in list {
        var j :| IsSlot(h, b, j, p.off);
        SlotIndex(h, b, j, p.off);
        assert p in all;
      }
    }
  }

  lemma SlotIndex(h: nat, b: nat, j: int, off: int)
    requires b < BINS && IsSlot(h, b, j, off)
    ensures 0 <= j < BinElements(b)
  {
  }

  lemma SmallSlot(r: RunMap, off: int, b: nat)
    requires RunsOk(r) && SmallAt(r, off, b)
    ensures b < BINS && HeadOf(r, off) >= 0 && SlotOf(HeadOf(r, off), b, off) && SmallHead(r, HeadOf(r, off), b)
  {
  }

  // ------------------------------------------------------------------ tallies

  /** The same runs, up to the counters of small ones. */
  ghost predicate SameRuns(L0: Layout, L: Layout)
    requires LayoutOk(L0)
  {
    && L.Keys == L0.Keys
    && forall s :: s in L0 ==> SameRunMap(L0[s], L[s])
  }

  ghost predicate SameRunMap(r0: RunMap, r: RunMap)
    requires RunsOk(r0)
  {
    && r.owner == r0.owner && |r.map_| == PAGES
    && forall p :: 0 <= p < PAGES ==>
         r.map_[p] == r0.map_[p] || (r.map_[p].Srun? && r0.map_[p].Srun? && r.map_[p].bin == r0.map_[p].bin)
  }

  lemma SameRunBlocks(r0: RunMap, r: RunMap)
    requires RunsOk(r0) && SameRunMap(r0, r)
    ensures RunsOk(r)
    ensures forall off :: HeadOf(r, off) == HeadOf(r0, off)
    ensures forall h, b: nat :: SmallHead(r, h, b) <==> SmallHead(r0, h, b)
    ensures forall off, b: nat :: SmallAt(r, off, b) <==> SmallAt(r0, off, b)
    ensures forall off, n: nat :: LargeAt(r, off, n) <==> LargeAt(r0, off, n)
  {
    hide SlotOf, BinPages;
    assert PagesOk(r.map_, r.owner) by {
      forall p | 0 <= p < PAGES ensures PageOk(r.map_, r.owner, p) {
        assert PageOk(r0.map_, r0.owner, p);
        if r0.owner[p] >= 0 {
          assert PageOk(r0.map_, r0.owner, r0.owner[p]);
        }
      }
    }
  }

  lemma SameRunsBlocks(L0: Layout, L: Layout)
    requires LayoutOk(L0) && SameRuns(L0, L)
    ensures LayoutOk(L)
    ensures forall p, b: nat :: Small(L, p, b) <==> Small(L0, p, b)
    ensures forall p, n: nat :: Large(L, p, n) <==> Large(L0, p, n)
  {
    hide SmallAt, LargeAt, RunsOk, SameRunMap;
    forall s | s in L0 ensures RunsOk(L[s]) {
      assert SameRunMap(L0[s], L[s]);
      SameRunBlocks(L0[s], L[s]);
    }
    forall p: Ptr, b: nat ensures Small(L, p, b) <==> Small(L0, p, b) {
      if p.seg in L0 {
        assert SameRunMap(L0[p.seg], L[p.seg]);
        SameRunBlocks(L0[p.seg], L[p.seg]);
      }
    }
    forall p: Ptr, n: nat ensures Large(L, p, n) <==> Large(L0, p, n) {
      if p.seg in L0 {
        assert SameRunMap(L0[p.seg], L[p.seg]);
        SameRunBlocks(L0[p.seg], L[p.seg]);
      }
    }
  }

  /** The counters of bin `b`'s runs are the counts of its list, as far as the nine bits go. */
  ghost predicate TalliedBin(L0: Layout, L: Layout, list: seq<Ptr>, b: nat)
    requires LayoutOk(L0)
  {
    && SameRuns(L0, L)
    && forall s, h :: s in L0 && SmallHead(L0[s], h, b) ==>
         L[s].map_[h].Srun? && L[s].map_[h].counter == CountIn(L0, list, s, h) % 512
  }

  /** All slots of the run of `p` are on the list, and the bin is not the one whose count does not fit. */
  ghost predicate Collectable(L0: Layout, list: seq<Ptr>, p: Ptr, b: nat)
    requires LayoutOk(L0) && b < BINS
  {
    0 < b && p.seg in L0 && HeadOf(L0[p.seg], p.off) >= 0 && AllListed(list, p.seg, HeadOf(L0[p.seg], p.off), b)
  }

  /** The counter says "full" exactly for the collectable runs; for bin 0 it never does. */
  lemma DoomedIsCollectable(L0: Layout, L: Layout, list: seq<Ptr>, b: nat, live: map<Ptr, nat>, p: Ptr)
    requires LayoutOk(L0) && LayoutOk(L) && b < BINS && TalliedBin(L0, L, list, b) && FreeListOk(L0, list, b, live)
    requires Small(L0, p, b)
    ensures Doomed(L, p, b) <==> Collectable(L0, list, p, b)
    ensures p in live ==> !Doomed(L, p, b)
  {
    hide BinSize, BinElements, BinPages, CountIn, AllListed, SameRunMap, FreeListOk, SmallAt, SlotOf;
    var s, r0, r := p.seg, L0[p.seg], L[p.seg];
    SmallSlot(r0, p.off, b);
    var h := HeadOf(r0, p.off);
    assert SameRunMap(r0, r);
    SameRunBlocks(r0, r);
    CountFull(L0, list, s, h, b, live);
    BinFacts(b);
    assert CounterOf(r, p.off) == r.map_[h].counter;
    if p in live {
      LiveNotListed(L0, list, b, live, p, h);
    }
  }

  lemma LiveNotListed(L0: Layout, list: seq<Ptr>, b: nat, live: map<Ptr, nat>, p: Ptr, h: nat)
    requires LayoutOk(L0) && b < BINS && FreeListOk(L0, list, b, live) && p in live && SlotOf(h, b, p.off)
    ensures !AllListed(list, p.seg, h, b)
  {
    hide Small, Doomed, SlotOf;
  }

  /** The elements of `list` that a collection keeps when `all` is the whole free list of bin `b`. */
  ghost function Survivors(L0: Layout, all: seq<Ptr>, list: seq<Ptr>, b: nat): (r: seq<Ptr>)
    requires LayoutOk(L0) && b < BINS
    ensures |r| <= |list|
  {
    if list == [] then []
    else
      var init, last := list[..|list| - 1], list[|list| - 1];
      Survivors(L0, all, init, b) + if Collectable(L0, all, last, b) then [] else [last]
  }

  lemma {:induction false} SurvivorsMembers(L0: Layout, all: seq<Ptr>, list: seq<Ptr>, b: nat)
    requires LayoutOk(L0) && b < BINS
    ensures forall p :: p in Survivors(L0, all, list, b) <==> p in list && !Collectable(L0, all, p, b)
    ensures NoDup(list) ==> NoDup(Survivors(L0, all, list, b))
  {
    hide Collectable, RunsOk;
    if list != [] {
      var init, last := list[..|list| - 1], list[|list| - 1];
      SurvivorsMembers(L0, all, init, b);
      assert forall p :: p in list <==> p in init || p == last;
      if NoDup(list) {
        assert last !in init;
      }
    }
  }

  lemma {:induction false} SurvivorsAll(L0: Layout, all: seq<Ptr>, list: seq<Ptr>, b: nat)
    requires LayoutOk(L0) && b < BINS
    requires forall p :: p in list ==> !Collectable(L0, all, p, b)
    ensures Survivors(L0, all, list, b) == list
  {
    hide Collectable, RunsOk;
    if list != [] {
      var init, last := list[..|list| - 1], list[|list| - 1];
      SurvivorsAll(L0, all, init, b);
      assert last in list && list == init + [last];
    }
  }

  lemma {:induction false} SurvivorsFewer(L0: Layout, all: seq<Ptr>, list: seq<Ptr>, b: nat, p: Ptr)
    requires LayoutOk(L0) && b < BINS && p in list && Collectable(L0, all, p, b)
    ensures |Survivors(L0, all, list, b)| < |list|
  {
    hide Collectable, RunsOk;
    var init, last := list[..|list| - 1], list[|list| - 1];
    if p != last {
      assert p in init;
      SurvivorsFewer(L0, all, init, b, p);
    }
  }

  /** No collection is under way: all counters are zero. */
  ghost predicate Idle(L: Layout)
    requires LayoutOk(L)
  {
    forall s, h, b: nat :: s in L && SmallHead(L[s], h, b) ==> L[s].map_[h].counter == 0
  }

  lemma IdleNotDoomed(L: Layout, p: Ptr, b: nat)
    requires LayoutOk(L) && Idle(L) && Small(L, p, b)
    ensures !Doomed(L, p, b)
  {
    hide BinSize, BinElements, SlotOf;
    BinFacts(b);
    SmallSlot(L[p.seg], p.off, b);
  }

  lemma SurvivorsOk(L0: Layout, L: Layout, list: seq<Ptr>, b: nat, live: map<Ptr, nat>)
    requires LayoutOk(L0) && LayoutOk(L) && b < BINS && FreeListOk(L0, list, b, live) && TalliedBin(L0, L, list, b)
    requires forall p :: Small(L, p, b) <==> Small(L0, p, b)
    ensures FreeListOk(L, Survivors(L0, list, list, b), b, live)
  {
    hide SmallAt, RunsOk, Doomed, Survivors, TalliedBin, Collectable;
    SurvivorsMembers(L0, list, list, b);
    var kept := Survivors(L0, list, list, b);
    forall i | 0 <= i < |kept| ensures Small(L, kept[i], b) && !Doomed(L, kept[i], b) && kept[i] !in live {
      assert kept[i] in kept;
      var k :| 0 <= k < |list| && list[k] == kept[i];
      DoomedIsCollectable(L0, L, list, b, live, kept[i]);
    }
  }

  lemma TalliedLive(L0: Layout, L: Layout, free0: seq<seq<Ptr>>, huge: seq<Huge>, live: map<Ptr, nat>, q: Ptr)
    requires Balanced(L0, free0, huge, live) && LayoutOk(L) && q in live
    requires forall p, b: nat :: Small(L, p, b) <==> Small(L0, p, b)
    requires forall p, n: nat :: Large(L, p, n) <==> Large(L0, p, n)
    requires forall b :: 0 <= b < BINS ==> TalliedBin(L0, L, free0[b], b)
    ensures LiveOk(L, huge, q, live[q])
  {
    hide SmallAt, LargeAt, RunsOk, BinSize, BinElements, TalliedBin, Doomed, FreeListOk;
    assert LiveOk(L0, huge, q, live[q]);
    if q.off != 0 {
      if b: nat :| Small(L0, q, b) && !Doomed(L0, q, b) && live[q] == BinSize(b) {
        assert FreeListOk(L0, free0[b], b, live);
        assert TalliedBin(L0, L, free0[b], b);
        DoomedIsCollectable(L0, L, free0[b], b, live, q);
        assert Small(L, q, b) && !Doomed(L, q, b);
      } else {
        var n: nat :| Large(L0, q, n) && live[q] == n * PAGE_SIZE;
        assert Large(L, q, n);
      }
    }
  }

  /** After counting and filtering all bins the ledger balances again, full runs set aside. */
  lemma TalliedLedger(L0: Layout, L: Layout, free0: seq<seq<Ptr>>, free: seq<seq<Ptr>>, huge: seq<Huge>,
                      live: map<Ptr, nat>)
    requires Balanced(L0, free0, huge, live) && Idle(L0) && LayoutOk(L) && SameRuns(L0, L) && |free| == BINS
    requires forall b :: 0 <= b < BINS ==> TalliedBin(L0, L, free0[b], b)
    requires forall b :: 0 <= b < BINS ==> free[b] == Survivors(L0, free0[b], free0[b], b)
    ensures Balanced(L, free, huge, live)
  {
    hide SmallAt, LargeAt, RunsOk, BinElements, Survivors, TalliedBin, Doomed, FreeListOk, LiveOk, SameRuns, Idle,
         Collectable;
    SameRunsBlocks(L0, L);
    forall b | 0 <= b < BINS ensures FreeListOk(L, free[b], b, live) {
      assert FreeListOk(L0, free0[b], b, live);
      SurvivorsOk(L0, L, free0[b], b, live);
    }
    forall q, b: nat | Small(L, q, b) ensures q in live || q in free[b] || Doomed(L, q, b) {
      assert Small(L0, q, b);
      assert FreeListOk(L0, free0[b], b, live);
      SurvivorsMembers(L0, free0[b], free0[b], b);
      DoomedIsCollectable(L0, L, free0[b], b, live, q);
      IdleNotDoomed(L0, q, b);
    }
    forall q | q in live ensures LiveOk(L, huge, q, live[q]) {
      TalliedLive(L0, L, free0, huge, live, q);
    }
  }

  /** Before anything has been counted. */
  lemma TallyStart(L0: Layout, b: nat)
    requires LayoutOk(L0) && Idle(L0)
    ensures TalliedBin(L0, L0, [], b)
  {
  }

  /** One element of the free list of bin `b` is counted at its run. */
  lemma TallyStep(L0: Layout, L: Layout, list: seq<Ptr>, k: nat, b: nat, s: nat, h: nat, r': RunMap)
    requires LayoutOk(L0) && b < BINS && k < |list| && TalliedBin(L0, L, list[..k], b)
    requires InRun(L0, list[k], s, h) && s in L0 && SmallHead(L0[s], h, b)
    requires L[s].map_[h].Srun?
    requires r' == RunMap(L[s].map_[h := SrunEx(b, L[s].map_[h].counter + 1)], L[s].owner)
    ensures TalliedBin(L0, L[s := r'], list[..k + 1], b)
  {
    hide CountIn, RunsOk, SmallAt, HeadOf;
    var L' := L[s := r'];
    assert SameRunMap(L0[s], L[s]);
    assert SameRunMap(L0[s], r');
    assert SameRuns(L0, L') by {
      forall t | t in L0 ensures SameRunMap(L0[t], L'[t]) {
        assert SameRunMap(L0[t], L[t]);
      }
    }
    forall t, g | t in L0 && SmallHead(L0[t], g, b)
      ensures L'[t].map_[g].Srun? && L'[t].map_[g].counter == CountIn(L0, list[..k + 1], t, g) % 512
    {
      CountStep(L0, list, k, t, g);
    }
  }

  lemma CountStep(L0: Layout, list: seq<Ptr>, k: nat, s: nat, h: int)
    requires LayoutOk(L0) && k < |list|
    ensures CountIn(L0, list[..k + 1], s, h) == CountIn(L0, list[..k], s, h) + if InRun(L0, list[k], s, h) then 1 else 0
  {
    hide InRun, RunsOk;
    assert list[..k + 1][..k] == list[..k];
  }

  /** Counting in one bin leaves the tallies of the others alone. */
  lemma TallyOther(L0: Layout, L: Layout, list: seq<Ptr>, c: nat, b: nat, s: nat, h: nat, r': RunMap)
    requires LayoutOk(L0) && b != c && TalliedBin(L0, L, list, c)
    requires s in L0 && SmallHead(L0[s], h, b) && L[s].map_[h].Srun?
    requires r' == RunMap(L[s].map_[h := SrunEx(b, L[s].map_[h].counter + 1)], L[s].owner)
    ensures TalliedBin(L0, L[s := r'], list, c)
  {
    hide CountIn, RunsOk;
    var L' := L[s := r'];
    assert SameRunMap(L0[s], L[s]);
    assert SameRunMap(L0[s], r');
    forall t | t in L0 ensures SameRunMap(L0[t], L'[t]) {
      assert SameRunMap(L0[t], L[t]);
    }
  }

  // -------------------------------------------------------------------- sweep

  /** A full run is given back: its slots were neither live nor listed any more. */
  lemma SweepRun(L: Layout, free: seq<seq<Ptr>>, huge: seq<Huge>, live: map<Ptr, nat>, s: nat, page: nat, b: nat,
                 n: nat, r': RunMap)
    requires Balanced(L, free, huge, live) && s in L && b < BINS && SmallHead(L[s], page, b)
    requires L[s].map_[page].counter == BinElements(b) && n == RunLen(L[s].map_[page]) && page + n <= PAGES
    requires r' == RunMap(L[s].map_[page := Frun], Filled(L[s].owner, page, n, -1))
    ensures Balanced(L[s := r'], free, huge, live)
  {
    hide SmallAt, LargeAt, BinSize, BinElements, BinPages, LiveOk, FreeListOk;
    var L' := L[s := r'];
    assert 1 <= page by { assert L[s].map_[0] == Lrun(FIRST_PAGE); }
    RemoveRunBlocks(L[s], page, n, r');
    forall q: Ptr, c: nat
      ensures Small(L', q, c) <==> Small(L, q, c) && !InRun(L, q, s, page)
      ensures Small(L', q, c) ==> (Doomed(L', q, c) <==> Doomed(L, q, c))
      ensures Small(L, q, c) && InRun(L, q, s, page) ==> Doomed(L, q, c)
    {
      if Small(L, q, c) && InRun(L, q, s, page) {
        SmallSlot(L[s], q.off, c);
      }
    }
    forall q: Ptr, k: nat ensures Large(L', q, k) <==> Large(L, q, k) {
      if q.seg == s && Large(L, q, k) {
        LargeFacts(L, q, k);
      }
    }
    SweptLedger(L, L', free, huge, live, s, page);
  }

  lemma SweptLedger(L: Layout, L': Layout, free: seq<seq<Ptr>>, huge: seq<Huge>, live: map<Ptr, nat>, s: nat, page: nat)
    requires Balanced(L, free, huge, live) && LayoutOk(L')
    requires forall q, c: nat :: Small(L', q, c) <==> Small(L, q, c) && !InRun(L, q, s, page)
    requires forall q, c: nat :: Small(L', q, c) ==> (Doomed(L', q, c) <==> Doomed(L, q, c))
    requires forall q, c: nat :: Small(L, q, c) && InRun(L, q, s, page) ==> Doomed(L, q, c)
    requires forall q, k: nat :: Large(L', q, k) <==> Large(L, q, k)
    ensures Balanced(L', free, huge, live)
  {
    hide SmallAt, LargeAt, RunsOk, BinElements, BinSize, Doomed, InRun;
    forall b | 0 <= b < BINS ensures FreeListOk(L', free[b], b, live) {
      assert FreeListOk(L, free[b], b, live);
    }
    forall q | q in live ensures LiveOk(L', huge, q, live[q]) {
      assert LiveOk(L, huge, q, live[q]);
      if q.off != 0 {
        if b: nat :| Small(L, q, b) && !Doomed(L, q, b) && live[q] == BinSize(b) {
          assert Small(L', q, b) && !Doomed(L', q, b);
        } else {
          var n: nat :| Large(L, q, n) && live[q] == n * PAGE_SIZE;
          assert Large(L', q, n);
        }
      }
    }
    forall i | 0 <= i < |huge| ensures Small(L', huge[i].node, NODE_BIN) {
      assert LiveOk(L, huge, huge[i].node, live[huge[i].node]);
      NotDoomed(L, huge, huge[i].node, live[huge[i].node], NODE_BIN);
    }
  }

  /** The counter of a run that is not full goes back to zero. */
  lemma ResetRun(L: Layout, free: seq<seq<Ptr>>, huge: seq<Huge>, live: map<Ptr, nat>, s: nat, page: nat, b: nat,
                 r': RunMap)
    requires Balanced(L, free, huge, live) && s in L && b < BINS && SmallHead(L[s], page, b)
    requires L[s].map_[page].counter != BinElements(b)
    requires r' == RunMap(L[s].map_[page := Srun(b, 0)], L[s].owner)
    ensures Balanced(L[s := r'], free, huge, live)
  {
    hide SmallAt, LargeAt, BinSize, BinElements, BinPages, LiveOk, FreeListOk;
    var L' := L[s := r'];
    BinFacts(b);
    CountRunBlocks(L[s], page, 0, r');
    forall q: Ptr, c: nat
      ensures Small(L', q, c) <==> Small(L, q, c)
      ensures Small(L, q, c) ==> (Doomed(L', q, c) <==> Doomed(L, q, c))
    {
      if Small(L, q, c) && q.seg == s && HeadOf(L[s], q.off) == page {
        SmallSlot(L[s], q.off, c);
      }
    }
    SameLedger(L, L', free, huge, live);
  }

  /** The run that owns page `p` is a small run whose counter says that all its slots are free. */
  ghost predicate FullRun(r: RunMap, p: nat)
    requires RunsOk(r) && p < PAGES
  {
    0 <= r.owner[p] < PAGES && var i := r.map_[r.owner[p]]; i.Srun? && i.bin < BINS && i.counter == BinElements(i.bin)
  }

  /** The owners after the full runs have been given back. */
  ghost predicate Emptied(r: RunMap, owner: seq<int>, from: nat, to: nat)
    requires RunsOk(r)
  {
    && |owner| == PAGES
    && forall p :: 0 <= p < PAGES ==> owner[p] == if from <= p < to && FullRun(r, p) then -1 else r.owner[p]
  }

  ghost predicate IdleBelow(r: RunMap, to: nat)
    requires RunsOk(r)
  {
    forall h :: 0 <= h < to && h < PAGES && r.owner[h] == h && r.map_[h].Srun? ==> r.map_[h].counter == 0
  }

  /** The sweep of one chunk stands at page `i`. */
  ghost predicate Sweeping(r0: RunMap, c: Chunk, owner: seq<int>, i: nat)
    requires RunsOk(r0)
  {
    && Runs(c, owner) && 1 <= i <= PAGES
    && Emptied(r0, owner, 0, i)
    && (forall p :: i <= p < PAGES ==> c.map_[p] == r0.map_[p])
    && (forall p :: i <= p < PAGES ==> r0.owner[p] < 0 || i <= r0.owner[p])
    && IdleBelow(RunMap(c.map_, owner), i)
  }

  lemma NextFree(r0: RunMap, c: Chunk, owner: seq<int>, i: nat)
    requires RunsOk(r0) && Sweeping(r0, c, owner, i) && i < PAGES && owner[i] < 0
    ensures Sweeping(r0, c, owner, i + 1)
  {
    hide Pages, CountFree, BinElements;
    assert PageOk(r0.map_, r0.owner, i);
    forall p | i + 1 <= p < PAGES ensures r0.owner[p] < 0 || i + 1 <= r0.owner[p] {
      assert PageOk(r0.map_, r0.owner, p);
    }
  }

  lemma RunAt(r0: RunMap, c: Chunk, owner: seq<int>, i: nat)
    requires RunsOk(r0) && Sweeping(r0, c, owner, i) && i < PAGES && owner[i] >= 0
    ensures owner[i] == i && r0.owner[i] == i && StartsRun(c.map_[i]) && c.map_[i] == r0.map_[i]
    ensures i + RunLen(c.map_[i]) <= PAGES && 1 <= RunLen(c.map_[i])
    ensures forall p :: i <= p < PAGES ==> (r0.owner[p] == i <==> p < i + RunLen(c.map_[i]))
  {
    hide Pages, CountFree, BinElements, BinPages;
    assert PageOk(r0.map_, r0.owner, i);
    assert PageOk(c.map_, owner, i);
    RunLenPositive(c.map_[i]);
    forall p | i <= p < PAGES ensures r0.owner[p] == i <==> p < i + RunLen(c.map_[i]) {
      assert PageOk(r0.map_, r0.owner, p);
    }
  }

  /** Past a run that stays: a large one, or a small one whose counter has been reset. */
  lemma NextRun(r0: RunMap, c: Chunk, owner: seq<int>, i: nat, c': Chunk)
    requires RunsOk(r0) && Sweeping(r0, c, owner, i) && i < PAGES && owner[i] >= 0 && !FullRun(r0, i)
    requires if c.map_[i].Srun? then c' == c.(map_ := c.map_[i := Srun(c.map_[i].bin, 0)]) else c' == c
    ensures i + RunLen(c.map_[i]) <= PAGES && Sweeping(r0, c', owner, i + RunLen(c.map_[i]))
  {
    hide Pages, CountFree, BinElements, BinPages;
    RunAt(r0, c, owner, i);
    if c.map_[i].Srun? {
      CountRun(c.map_, owner, i, 0);
    }
    var n := RunLen(c.map_[i]);
    forall p | 0 <= p < PAGES ensures owner[p] == if 0 <= p < i + n && FullRun(r0, p) then -1 else r0.owner[p] {
      assert i <= p < i + n ==> r0.owner[p] == i;
    }
    forall p | i + n <= p < PAGES ensures r0.owner[p] < 0 || i + n <= r0.owner[p] {
      assert PageOk(r0.map_, r0.owner, p);
      assert r0.owner[p] >= 0 ==> r0.owner[r0.owner[p]] == r0.owner[p];
      assert r0.owner[p] != i;
    }
    forall h | 0 <= h < i + n && owner[h] == h && c'.map_[h].Srun? ensures c'.map_[h].counter == 0 {
      if h > i {
        assert r0.owner[h] == i;
      }
    }
  }

  /** Past a full run, which has been given back. */
  lemma NextFull(r0: RunMap, c: Chunk, owner: seq<int>, i: nat, c': Chunk, owner': seq<int>)
    requires RunsOk(r0) && Sweeping(r0, c, owner, i) && i < PAGES && owner[i] >= 0 && FullRun(r0, i)
    requires i + RunLen(c.map_[i]) <= PAGES
    requires owner' == Filled(owner, i, RunLen(c.map_[i]), -1) && Runs(c', owner') && c'.map_ == c.map_[i := Frun]
    ensures Sweeping(r0, c', owner', i + RunLen(c.map_[i]))
  {
    hide Pages, CountFree, BinElements, BinPages;
    RunAt(r0, c, owner, i);
    var n := RunLen(c.map_[i]);
    forall p | 0 <= p < PAGES ensures owner'[p] == if 0 <= p < i + n && FullRun(r0, p) then -1 else r0.owner[p] {
      assert i <= p < i + n ==> r0.owner[p] == i;
    }
    forall p | i + n <= p < PAGES ensures r0.owner[p] < 0 || i + n <= r0.owner[p] {
      assert PageOk(r0.map_, r0.owner, p);
      assert r0.owner[p] >= 0 ==> r0.owner[r0.owner[p]] == r0.owner[p];
      assert r0.owner[p] != i;
    }
  }

  /** Beyond `free_tail` no run starts, so the sweep has seen them all. */
  lemma SweepDone(r0: RunMap, c: Chunk, owner: seq<int>, i: nat)
    requires RunsOk(r0) && Sweeping(r0, c, owner, i) && c.freeTail <= i
    ensures Emptied(r0, owner, 0, PAGES) && IdleBelow(RunMap(c.map_, owner), PAGES)
  {
    hide Pages, CountFree, BinElements, BinPages;
    forall h | i <= h < PAGES ensures r0.owner[h] != h {
      assert owner[h] == r0.owner[h];
    }
    forall p | i <= p < PAGES ensures r0.owner[p] < 0 {
      assert PageOk(r0.map_, r0.owner, p);
    }
  }

  lemma SweepStart(c: Chunk, owner: seq<int>)
    requires Runs(c, owner)
    ensures RunsOk(RunMap(c.map_, owner)) && Sweeping(RunMap(c.map_, owner), c, owner, 1)
  {
    hide Pages, CountFree, BinElements, BinPages;
    var r0 := RunMap(c.map_, owner);
    forall p | 1 <= p < PAGES ensures owner[p] < 0 || 1 <= owner[p] {
      assert PageOk(c.map_, owner, p);
    }
    assert !FullRun(r0, 0);
  }

  /** One chunk of the sweep of zend_mm_gc; `L` is the layout it belongs to. */
  method Sweep(c: Chunk, ghost owner: seq<int>, ghost s: nat, ghost L: Layout, ghost free: seq<seq<Ptr>>,
               ghost huge: seq<Huge>, ghost live: map<Ptr, nat>)
    returns (c': Chunk, ghost owner': seq<int>, collected: nat)
    requires Runs(c, owner) && s in L && L[s] == RunMap(c.map_, owner) && Balanced(L, free, huge, live)
    ensures Runs(c', owner') && Balanced(L[s := RunMap(c'.map_, owner')], free, huge, live)
    ensures Emptied(L[s], owner', 0, PAGES) && IdleBelow(RunMap(c'.map_, owner'), PAGES)
    ensures c'.freePages == c.freePages + collected && c'.num == c.num
    ensures collected > 0 ==> exists p: nat :: p < PAGES && FullRun(L[s], p)
  {
    hide Pages, PagesOk, HeadsBelow, CountFree, Balanced, Emptied, IdleBelow, BinElements, BinPages, BinSize, Idle;
    c', owner', collected := c, owner, 0;
    var i := 1;
    SweepStart(c, owner);
    assert L[s := L[s]] == L;
    ghost var r0 := L[s];
    while i < c'.freeTail
      invariant RunsOk(r0) && Sweeping(r0, c', owner', i)
      invariant Balanced(L[s := RunMap(c'.map_, owner')], free, huge, live)
      invariant c'.freePages == c.freePages + collected && c'.num == c.num
      invariant collected > 0 ==> exists p: nat :: p < PAGES && FullRun(r0, p)
      decreases PAGES - i
    {
      ghost var L' := L[s := RunMap(c'.map_, owner')];
      var used := PageUsed(c'.freeMap, i);
      if used {
        RunAt(r0, c', owner', i);
        var info := c'.map_[i];
        if info.Srun? {
          var n := BinPages(info.bin);
          if info.counter == BinElements(info.bin) {
            assert FullRun(r0, i);
            var next, nextOwner := DropPages(c', i, n, owner');
            SweepRun(L', free, huge, live, s, i, info.bin, n, RunMap(next.map_, nextOwner));
            NextFull(r0, c', owner', i, next, nextOwner);
            assert L'[s := RunMap(next.map_, nextOwner)] == L[s := RunMap(next.map_, nextOwner)];
            c', owner' := next, nextOwner;
            collected := collected + n;
          } else {
            var next := c'.(map_ := c'.map_[i := Srun(info.bin, 0)]);
            ResetRun(L', free, huge, live, s, i, info.bin, RunMap(next.map_, owner'));
            NextRun(r0, c', owner', i, next);
            assert L'[s := RunMap(next.map_, owner')] == L[s := RunMap(next.map_, owner')];
            c' := next;
          }
          i := i + n;
        } else {
          NextRun(r0, c', owner', i, c');
          i := i + info.pages;
        }
      } else {
        NextFree(r0, c', owner', i);
        i := i + 1;
      }
    }
    SweepDone(r0, c', owner', i);
  }

  // -------------------------------------------------------- the whole collection

  function TotalFree(free: seq<seq<Ptr>>): nat {
    if free == [] then 0 else |free[0]| + TotalFree(free[1..])
  }

  lemma {:induction false} FewerFree(free: seq<seq<Ptr>>, free': seq<seq<Ptr>>, b: nat)
    requires |free'| == |free| && b < |free| && |free'[b]| < |free[b]|
    requires forall c :: 0 <= c < |free| ==> |free'[c]| <= |free[c]|
    ensures TotalFree(free') < TotalFree(free)
  {
    if b > 0 {
      FewerFree(free[1..], free'[1..], b - 1);
    } else {
      NoMoreFree(free[1..], free'[1..]);
    }
  }

  lemma {:induction false} NoMoreFree(free: seq<seq<Ptr>>, free': seq<seq<Ptr>>)
    requires |free'| == |free|
    requires forall c :: 0 <= c < |free| ==> |free'[c]| <= |free[c]|
    ensures TotalFree(free') <= TotalFree(free)
  {
    if free != [] {
      NoMoreFree(free[1..], free'[1..]);
    }
  }

  /** A full run has a slot that the filter took off its free list. */
  lemma FullRunCollectable(L0: Layout, L: Layout, free0: seq<seq<Ptr>>, huge: seq<Huge>, live: map<Ptr, nat>, s: nat,
                           p: nat)
    returns (q: Ptr, b: nat)
    requires Balanced(L0, free0, huge, live) && Idle(L0) && LayoutOk(L) && SameRuns(L0, L)
    requires forall b :: 0 <= b < BINS ==> TalliedBin(L0, L, free0[b], b)
    requires s in L && p < PAGES && FullRun(L[s], p)
    ensures b < BINS && q in free0[b] && Collectable(L0, free0[b], q, b)
  {
    hide BinSize, BinElements, BinPages, SmallAt, TalliedBin, AllListed, LiveOk, SameRunMap;
    var r := L[s];
    var h := r.owner[p];
    b := r.map_[h].bin;
    assert PageOk(r.map_, r.owner, p);
    q := Ptr(s, h * PAGE_SIZE);
    FirstSlot(h, b, q.off);
    SlotIsBlock(r, h, b, 0, q.off);
    SameRunsBlocks(L0, L);
    assert Small(L, q, b);
    assert Doomed(L, q, b) by { assert CounterOf(r, q.off) == BinElements(b); }
    assert FreeListOk(L0, free0[b], b, live);
    DoomedIsCollectable(L0, L, free0[b], b, live, q);
    IdleNotDoomed(L0, q, b);
  }

  /** Conversely, the page of a collectable block belongs to a full run. */
  lemma CollectableFull(L0: Layout, L: Layout, free0: seq<seq<Ptr>>, huge: seq<Huge>, live: map<Ptr, nat>, p: Ptr,
                        b: nat)
    requires Balanced(L0, free0, huge, live) && LayoutOk(L) && SameRuns(L0, L) && b < BINS
    requires TalliedBin(L0, L, free0[b], b) && Small(L0, p, b) && Collectable(L0, free0[b], p, b)
    ensures p.seg in L && 0 <= p.off < CHUNK_SIZE && FullRun(L[p.seg], p.off / PAGE_SIZE)
  {
    hide BinSize, BinElements, BinPages, SlotOf, TalliedBin, AllListed, LiveOk, RunsOk;
    assert FreeListOk(L0, free0[b], b, live);
    DoomedIsCollectable(L0, L, free0[b], b, live, p);
    assert SameRunMap(L0[p.seg], L[p.seg]);
  }

  /** Giving back full runs frees pages, unless there is none. */
  lemma EmptiedFree(c: Chunk, owner: seq<int>, r: RunMap, c': Chunk, owner': seq<int>)
    requires Runs(c, owner) && Runs(c', owner') && RunsOk(r) && r.owner == owner && Emptied(r, owner', 0, PAGES)
    ensures c.freePages <= c'.freePages
    ensures c.freePages == c'.freePages ==> forall p: nat :: p < PAGES ==> !FullRun(r, p)
  {
    hide CountFree, Pages, PagesOk, RunsOk;
    FewerUsed(Used(c), Used(c'));
    if c.freePages == c'.freePages {
      forall p: nat | p < PAGES ensures !FullRun(r, p) {
        assert Used(c)[p] == Used(c')[p];
      }
    }
  }

  /** No block of chunk `s` is live and none of its runs belongs to bin 0. */
  ghost predicate Unpinned(L: Layout, live: map<Ptr, nat>, s: nat)
    requires LayoutOk(L) && s in L
  {
    && (forall p :: p in live && p.seg == s ==> p.off == 0)
    && (forall h :: !SmallHead(L[s], h, 0))
  }

  /** The sweep empties a chunk exactly when nothing pins it. */
  lemma SweepEmpties(L0: Layout, L: Layout, free0: seq<seq<Ptr>>, free: seq<seq<Ptr>>, huge: seq<Huge>,
                     live: map<Ptr, nat>,
                     s: nat, owner: seq<int>)
    requires Balanced(L0, free0, huge, live) && Idle(L0) && LayoutOk(L) && SameRuns(L0, L) && s in L
    requires forall b :: 0 <= b < BINS ==> TalliedBin(L0, L, free0[b], b)
    requires Balanced(L, free, huge, live)
    requires Emptied(L[s], owner, 0, PAGES)
    ensures owner == NoRuns() <==> Unpinned(L0, live, s)
  {
    hide BinSize, BinElements, BinPages, SmallAt, LargeAt, TalliedBin, LiveOk, SameRunMap, FreeOk, Complete;
    SameRunsBlocks(L0, L);
    if owner == NoRuns() {
      forall p | p in live && p.seg == s ensures p.off == 0 {
        if p.off != 0 {
          assert LiveOk(L, huge, p, live[p]);
          LivePins(L, huge, p, live[p], owner);
        }
      }
      forall h ensures !SmallHead(L0[s], h, 0) {
        if SmallHead(L0[s], h, 0) {
          assert TalliedBin(L0, L, free0[0], 0);
          BinZeroPins(L0, L, free0[0], s, h, owner);
        }
      }
    }
    if Unpinned(L0, live, s) {
      forall p | 1 <= p < PAGES ensures owner[p] == -1 {
        UnpinnedFull(L0, L, free0, huge, live, s, p);
      }
      assert L[s].map_[0] == Lrun(FIRST_PAGE) && L[s].owner[0] == 0;
    }
  }

  lemma LivePins(L: Layout, huge: seq<Huge>, p: Ptr, size: nat, owner: seq<int>)
    requires LayoutOk(L) && LiveOk(L, huge, p, size) && p.off != 0 && p.seg in L && Emptied(L[p.seg], owner, 0, PAGES)
    ensures owner != NoRuns()
  {
    hide BinSize, BinElements, BinPages, SlotOf;
    var r := L[p.seg];
    if b: nat :| Small(L, p, b) && !Doomed(L, p, b) && size == BinSize(b) {
      SmallSlot(r, p.off, b);
      var h := HeadOf(r, p.off);
      assert !FullRun(r, h);
      assert owner[h] == h;
    } else {
      var n: nat :| Large(L, p, n) && size == n * PAGE_SIZE;
      var h := p.off / PAGE_SIZE;
      assert !FullRun(r, h);
      assert owner[h] == h;
    }
  }

  lemma BinZeroPins(L0: Layout, L: Layout, list: seq<Ptr>, s: nat, h: int, owner: seq<int>)
    requires LayoutOk(L0) && LayoutOk(L) && TalliedBin(L0, L, list, 0) && s in L && s in L0 && SmallHead(L0[s], h, 0)
    requires Emptied(L[s], owner, 0, PAGES)
    ensures owner != NoRuns()
  {
    hide CountIn;
    assert SameRunMap(L0[s], L[s]);
    assert L[s].map_[h].counter < 512;
    assert !FullRun(L[s], h);
    assert owner[h] == h;
  }

  lemma UnpinnedNoLarge(L0: Layout, free0: seq<seq<Ptr>>, huge: seq<Huge>, live: map<Ptr, nat>, s: nat, h: nat)
    requires Balanced(L0, free0, huge, live) && s in L0 && Unpinned(L0, live, s)
    requires 1 <= h < PAGES && L0[s].owner[h] == h
    ensures !L0[s].map_[h].Lrun?
  {
    hide SmallAt, FreeOk, LiveOk;
    var q, info := Ptr(s, h * PAGE_SIZE), L0[s].map_[h];
    assert info.Lrun? && Large(L0, q, info.pages) ==> q in live;
  }

  lemma UnpinnedFull(L0: Layout, L: Layout, free0: seq<seq<Ptr>>, huge: seq<Huge>, live: map<Ptr, nat>, s: nat, p: nat)
    requires Balanced(L0, free0, huge, live) && Idle(L0) && LayoutOk(L) && SameRuns(L0, L) && s in L && 1 <= p < PAGES
    requires forall b :: 0 <= b < BINS ==> TalliedBin(L0, L, free0[b], b)
    requires Unpinned(L0, live, s)
    ensures L[s].owner[p] < 0 || FullRun(L[s], p)
    ensures -1 <= L[s].owner[p]
  {
    hide BinSize, BinElements, BinPages, SmallAt, TalliedBin, LiveOk, FreeListOk;
    var r0, r := L0[s], L[s];
    assert SameRunMap(r0, r);
    assert PageOk(r.map_, r.owner, p);
    SameRunsBlocks(L0, L);
    SameRunBlocks(r0, r);
    var h := r.owner[p];
    if h >= 0 {
      assert PageOk(r.map_, r.owner, h);
      assert h != 0;
      var q := Ptr(s, h * PAGE_SIZE);
      UnpinnedNoLarge(L0, free0, huge, live, s, h);
      if r.map_[h].Srun? {
        var b := r.map_[h].bin;
        assert SmallHead(r0, h, b) && b != 0;
        assert AllListed(free0[b], s, h, b) by {
          forall x: Ptr | x.seg == s && SlotOf(h, b, x.off) ensures x in free0[b] {
            var j :| IsSlot(h, b, j, x.off);
            SlotIsBlock(r0, h, b, j, x.off);
            IdleNotDoomed(L0, x, b);
            assert r0.owner[0] == 0;
          }
        }
        FirstSlot(h, b, q.off);
        SlotIsBlock(r0, h, b, 0, q.off);
        assert FreeListOk(L0, free0[b], b, live);
        DoomedIsCollectable(L0, L, free0[b], b, live, q);
        assert CounterOf(r, q.off) == r.map_[h].counter;
      }
    }
  }

  /** What a collection has done to the blocks, read off the two ledgers. */
  lemma CollectedBlocks(L0: Layout, L: Layout, free0: seq<seq<Ptr>>, free: seq<seq<Ptr>>, huge: seq<Huge>,
                        live: map<Ptr, nat>,
                        p: Ptr, b: nat)
    requires Balanced(L0, free0, huge, live) && Idle(L0) && Balanced(L, free, huge, live) && Idle(L) && b < BINS
    requires free[b] == Survivors(L0, free0[b], free0[b], b)
    ensures Small(L, p, b) <==> Small(L0, p, b) && !Collectable(L0, free0[b], p, b)
  {
    hide SmallAt, LargeAt, RunsOk, BinElements, BinPages, Survivors, Collectable, AllListed;
    SurvivorsMembers(L0, free0[b], free0[b], b);
    assert FreeListOk(L0, free0[b], b, live);
    assert FreeListOk(L, free[b], b, live);
    if Small(L, p, b) {
      IdleNotDoomed(L, p, b);
      if p in live {
        assert LiveOk(L, huge, p, live[p]) && LiveOk(L0, huge, p, live[p]);
        NotDoomed(L, huge, p, live[p], b);
        SameBin(L, L0, huge, p, b);
        LiveNotCollectable(L0, free0[b], live, p, b);
      }
    }
    if Small(L0, p, b) && !Collectable(L0, free0[b], p, b) {
      IdleNotDoomed(L0, p, b);
      if p in live {
        assert LiveOk(L, huge, p, live[p]) && LiveOk(L0, huge, p, live[p]);
        NotDoomed(L0, huge, p, live[p], b);
        SameBin(L0, L, huge, p, b);
      }
    }
  }

  lemma SameBin(L: Layout, L': Layout, huge: seq<Huge>, p: Ptr, b: nat)
    requires LayoutOk(L) && LayoutOk(L') && Small(L, p, b) && LiveOk(L', huge, p, BinSize(b))
    ensures Small(L', p, b)
  {
    hide SmallAt, LargeAt, RunsOk, BinElements, BinPages, BinSize;
    OneBin(L, p, b, b);
    BinFacts(b);
    if c: nat :| Small(L', p, c) && !Doomed(L', p, c) && BinSize(b) == BinSize(c) {
      BinSizeInjective(b, c);
    } else {
      var n: nat :| Large(L', p, n) && BinSize(b) == n * PAGE_SIZE;
      LargeFacts(L', p, n);
    }
  }

  lemma LiveNotCollectable(L0: Layout, list: seq<Ptr>, live: map<Ptr, nat>, p: Ptr, b: nat)
    requires LayoutOk(L0) && b < BINS && FreeListOk(L0, list, b, live) && p in live && Small(L0, p, b)
    ensures !Collectable(L0, list, p, b)
  {
    hide SlotOf, BinElements;
    SmallSlot(L0[p.seg], p.off, b);
    LiveNotListed(L0, list, b, live, p, HeadOf(L0[p.seg], p.off));
  }
}

/**
 Where the chunks of a heap are: the ring of chunks in use, the cache of
 chunks kept for later, and the segments the huge blocks occupy.
 */
module Space {
  import opened Bitset
  import opened Bins
  import opened Chunks
  import opened Blocks
  import opened Ledger

  ghost function LayoutOf(chunks: map<nat, Chunk>, owners: map<nat, seq<int>>, ring: seq<nat>): Layout {
    map s | s in ring && s in chunks && s in owners :: RunMap(chunks[s].map_, owners[s])
  }

  ghost predicate RingOk(chunks: map<nat, Chunk>, owners: map<nat, seq<int>>, ring: seq<nat>) {
    && ring != [] && NoDup(ring)
    && forall s :: s in ring ==> s in chunks && s in owners && Runs(chunks[s], owners[s])
  }

  ghost predicate CacheOk(chunks: map<nat, Chunk>, cached: seq<nat>) {
    && NoDup(cached)
    && forall s :: s in cached ==> s in chunks && Blank(chunks[s])
  }

  ghost function Members(s: seq<nat>): set<nat> {
    set x | x in s
  }

  predicate Within(s: nat, seg: nat, size: nat) {
    seg <= s < seg + Span(size)
  }

  function Segments(seg: nat, size: nat): set<nat> {
    set s: nat | s < seg + Span(size) && Within(s, seg, size)
  }

  /** Every segment of the heap is mapped and has one use. */
  ghost predicate SegmentsOk(ring: seq<nat>, cached: seq<nat>, huge: seq<Huge>, mapped: set<nat>) {
    && Members(ring) !! Members(cached)
    && Members(ring) <= mapped && Members(cached) <= mapped
    && (forall i :: 0 <= i < |huge| ==> Segments(huge[i].seg, huge[i].size) <= mapped && 0 < huge[i].size)
    && Apart(Members(ring) + Members(cached), huge)
  }

  ghost predicate SpaceOk(chunks: map<nat, Chunk>, owners: map<nat, seq<int>>, ring: seq<nat>, cached: seq<nat>,
                          huge: seq<Huge>, mapped: set<nat>) {
    RingOk(chunks, owners, ring) && CacheOk(chunks, cached) && SegmentsOk(ring, cached, huge, mapped)
  }

  /** The ring without chunk `s`. */
  function Unlink(ring: seq<nat>, s: nat): seq<nat> {
    if ring == [] then [] else if ring[0] == s then ring[1..] else [ring[0]] + Unlink(ring[1..], s)
  }

  lemma NoDupTail(ring: seq<nat>)
    requires NoDup(ring) && ring != []
    ensures NoDup(ring[1..]) && ring[0] !in ring[1..] && forall x :: x in ring <==> x == ring[0] || x in ring[1..]
  {
    assert ring == [ring[0]] + ring[1..];
  }

  lemma {:induction false} UnlinkHas(ring: seq<nat>, s: nat, x: nat)
    requires NoDup(ring)
    ensures x in Unlink(ring, s) <==> x in ring && x != s
  {
    if ring != [] {
      NoDupTail(ring);
      UnlinkHas(ring[1..], s, x);
    }
  }

  lemma {:induction false} UnlinkNoDup(ring: seq<nat>, s: nat)
    requires NoDup(ring)
    ensures NoDup(Unlink(ring, s)) && |Unlink(ring, s)| == |ring| - if s in ring then 1 else 0
  {
    if ring != [] {
      NoDupTail(ring);
      if ring[0] != s {
        UnlinkNoDup(ring[1..], s);
        UnlinkHas(ring[1..], s, ring[0]);
        NoDupCons(ring[0], Unlink(ring[1..], s));
      }
    }
  }

  lemma UnlinkMembers(ring: seq<nat>, s: nat)
    requires NoDup(ring)
    ensures NoDup(Unlink(ring, s)) && Members(Unlink(ring, s)) == Members(ring) - {s}
    ensures |Unlink(ring, s)| == |ring| - if s in ring then 1 else 0
    ensures ring != [] && ring[0] != s ==> Unlink(ring, s) != [] && Unlink(ring, s)[0] == ring[0]
  {
    UnlinkNoDup(ring, s);
    forall x ensures x in Members(Unlink(ring, s)) <==> x in Members(ring) - {s} {
      UnlinkHas(ring, s, x);
    }
  }

  // ----------------------------------------------------------- chunk updates

  lemma LayoutKeys(chunks: map<nat, Chunk>, owners: map<nat, seq<int>>, ring: seq<nat>)
    requires RingOk(chunks, owners, ring)
    ensures LayoutOf(chunks, owners, ring).Keys == Members(ring)
    ensures LayoutOk(LayoutOf(chunks, owners, ring))
    ensures forall s :: s in ring ==> LayoutOf(chunks, owners, ring)[s] == RunMap(chunks[s].map_, owners[s])
  {
    hide PagesOk, UsedOk, HeadsBelow, CountFree, Pages;
  }

  lemma UpdateChunk(chunks: map<nat, Chunk>, owners: map<nat, seq<int>>, ring: seq<nat>, s: nat, c: Chunk,
                    owner: seq<int>)
    requires RingOk(chunks, owners, ring) && s in ring && Runs(c, owner)
    ensures RingOk(chunks[s := c], owners[s := owner], ring)
    ensures LayoutOf(chunks[s := c], owners[s := owner], ring)
              == LayoutOf(chunks, owners, ring)[s := RunMap(c.map_, owner)]
  {
    hide Runs;
  }

  lemma UpdateCache(chunks: map<nat, Chunk>, cached: seq<nat>, s: nat, c: Chunk)
    requires CacheOk(chunks, cached) && s !in cached
    ensures CacheOk(chunks[s := c], cached)
  {
    hide Blank;
  }

  /** The order of the chunks does not matter to the layout. */
  lemma Reorder(chunks: map<nat, Chunk>, owners: map<nat, seq<int>>, ring: seq<nat>, ring': seq<nat>)
    requires RingOk(chunks, owners, ring) && NoDup(ring') && ring' != [] && Members(ring') == Members(ring)
    ensures RingOk(chunks, owners, ring') && LayoutOf(chunks, owners, ring') == LayoutOf(chunks, owners, ring)
  {
    hide Runs;
    assert forall s :: s in ring' <==> s in Members(ring');
    assert forall s :: s in ring <==> s in Members(ring);
  }

  lemma NoDupCons(x: nat, t: seq<nat>)
    requires NoDup(t) && x !in t
    ensures NoDup([x] + t) && forall y :: y in [x] + t <==> y == x || y in t
  {
  }

  lemma MoveToHead(ring: seq<nat>, s: nat, ring': seq<nat>)
    requires NoDup(ring) && ring != [] && s in ring && s != ring[0]
    requires ring' == [ring[0], s] + Unlink(ring[1..], s)
    ensures NoDup(ring') && Members(ring') == Members(ring) && |ring'| == |ring|
  {
    var rest := ring[1..];
    UnlinkMembers(rest, s);
    assert ring == [ring[0]] + rest;
    var cut := Unlink(rest, s);
    assert forall x :: x in cut <==> x in Members(cut);
    assert forall x :: x in rest <==> x in Members(rest);
    assert ring[0] !in rest;
    NoDupCons(s, cut);
    NoDupCons(ring[0], [s] + cut);
    assert ring' == [ring[0]] + ([s] + cut);
  }

  /** A chunk with no page in use but the header is blank and holds no run. */
  lemma EmptyChunk(c: Chunk, owner: seq<int>)
    requires Runs(c, owner)
    ensures c.freePages == PAGES - FIRST_PAGE <==> owner == NoRuns()
    ensures c.freePages == PAGES - FIRST_PAGE ==> Blank(c)
  {
    hide Pages, CountFree;
    CountOnlyFirst(Used(c));
    if c.freePages == PAGES - FIRST_PAGE {
      forall p | 1 <= p < PAGES ensures owner[p] == -1 {
        assert PageOk(c.map_, owner, p);
        assert !Used(c)[p];
      }
    }
    if owner == NoRuns() {
      forall p | 1 <= p < PAGES ensures !Used(c)[p] {}
    }
  }

  /** An empty chunk leaves the ring. */
  lemma LeaveRing(chunks: map<nat, Chunk>, owners: map<nat, seq<int>>, ring: seq<nat>, s: nat)
    requires RingOk(chunks, owners, ring) && s in ring && s != ring[0]
    ensures RingOk(chunks, owners - {s}, Unlink(ring, s))
    ensures LayoutOf(chunks, owners - {s}, Unlink(ring, s)) == LayoutOf(chunks, owners, ring) - {s}
    ensures Members(Unlink(ring, s)) == Members(ring) - {s}
  {
    hide Runs;
    UnlinkMembers(ring, s);
    var r' := Unlink(ring, s);
    assert forall x :: x in r' <==> x in Members(r');
    assert forall x :: x in ring <==> x in Members(ring);
  }

  /** An initialised chunk joins at the end of the ring. */
  lemma JoinRing(chunks: map<nat, Chunk>, owners: map<nat, seq<int>>, ring: seq<nat>, s: nat, c: Chunk)
    requires RingOk(chunks, owners, ring) && s !in ring && Runs(c, NoRuns())
    ensures RingOk(chunks[s := c], owners[s := NoRuns()], ring + [s])
    ensures LayoutOf(chunks[s := c], owners[s := NoRuns()], ring + [s])
            == LayoutOf(chunks, owners, ring)[s := RunMap(c.map_, NoRuns())]
    ensures Members(ring + [s]) == Members(ring) + {s}
  {
    hide Runs;
    var r' := ring + [s];
    assert forall x :: x in r' <==> x in ring || x == s;
  }

  lemma ApartFewer(segs: set<nat>, segs': set<nat>, huge: seq<Huge>)
    requires Apart(segs, huge) && segs' <= segs
    ensures Apart(segs', huge)
  {
  }

  lemma ApartMore(segs: set<nat>, huge: seq<Huge>, s: nat, mapped: set<nat>)
    requires Apart(segs, huge) && s !in mapped
    requires forall i :: 0 <= i < |huge| ==> Segments(huge[i].seg, huge[i].size) <= mapped
    ensures Apart(segs + {s}, huge)
  {
    forall i | 0 <= i < |huge| ensures !(huge[i].seg <= s < huge[i].seg + Span(huge[i].size)) {
      assert s !in Segments(huge[i].seg, huge[i].size);
      assert !Within(s, huge[i].seg, huge[i].size);
    }
  }

  lemma DropSegment(ring: seq<nat>, cached: seq<nat>, huge: seq<Huge>, mapped: set<nat>, s: nat, segs: set<nat>)
    requires SegmentsOk(ring, cached, huge, mapped) && s !in Members(ring) && s !in Members(cached)
    requires s in segs && Apart(segs, huge)
    ensures SegmentsOk(ring, cached, huge, mapped - {s})
  {
    hide Members, Span;
    forall i | 0 <= i < |huge| ensures Segments(huge[i].seg, huge[i].size) <= mapped - {s} {
      assert !Within(s, huge[i].seg, huge[i].size);
    }
  }

  /** The three places a deleted chunk can go: the cache, the system, or the cache in exchange for its head. */
  lemma RetireSegments(ring: seq<nat>, cached: seq<nat>, huge: seq<Huge>, mapped: set<nat>, s: nat)
    requires SegmentsOk(ring, cached, huge, mapped) && NoDup(ring) && NoDup(cached) && s in ring
    ensures SegmentsOk(Unlink(ring, s), [s] + cached, huge, mapped)
    ensures SegmentsOk(Unlink(ring, s), cached, huge, mapped - {s})
    ensures cached != [] ==> SegmentsOk(Unlink(ring, s), [s] + cached[1..], huge, mapped - {cached[0]})
  {
    hide Apart, Segments;
    UnlinkMembers(ring, s);
    assert s in Members(ring);
    var left, all := Unlink(ring, s), Members(ring) + Members(cached);
    assert Members([s] + cached) == Members(cached) + {s};
    ApartFewer(all, Members(left) + Members([s] + cached), huge);
    ApartFewer(all, Members(left) + Members(cached), huge);
    assert SegmentsOk(left, cached, huge, mapped);
    DropSegment(left, cached, huge, mapped, s, all);
    if cached != [] {
      var keep := [s] + cached[1..];
      assert cached == [cached[0]] + cached[1..];
      assert Members(keep) == Members(cached[1..]) + {s};
      assert Members(cached) == Members(cached[1..]) + {cached[0]};
      assert cached[0] !in cached[1..];
      assert cached[0] in Members(cached);
      ApartFewer(all, Members(left) + Members(keep), huge);
      assert SegmentsOk(left, keep, huge, mapped);
      DropSegment(left, keep, huge, mapped, cached[0], all);
    }
  }

  lemma CachePush(chunks: map<nat, Chunk>, cached: seq<nat>, s: nat)
    requires CacheOk(chunks, cached) && s in chunks && Blank(chunks[s]) && s !in cached
    ensures CacheOk(chunks, [s] + cached)
    ensures cached != [] ==> CacheOk(chunks - {cached[0]}, [s] + cached[1..])
  {
    hide Blank;
    NoDupCons(s, cached);
    if cached != [] {
      assert cached == [cached[0]] + cached[1..];
      NoDupCons(s, cached[1..]);
      assert cached[0] !in cached[1..];
    }
  }

  lemma ForgetChunk(chunks: map<nat, Chunk>, owners: map<nat, seq<int>>, ring: seq<nat>, cached: seq<nat>, s: nat)
    requires s !in ring
    ensures RingOk(chunks, owners, ring) ==> RingOk(chunks - {s}, owners, ring)
    ensures LayoutOf(chunks - {s}, owners, ring) == LayoutOf(chunks, owners, ring)
    ensures CacheOk(chunks, cached) && s !in cached ==> CacheOk(chunks - {s}, cached)
  {
    hide Runs, Blank;
  }

  lemma NotCached(ring: seq<nat>, cached: seq<nat>, huge: seq<Huge>, mapped: set<nat>, s: nat)
    requires SegmentsOk(ring, cached, huge, mapped)
    ensures s in ring ==> s !in cached
    ensures cached != [] ==> cached[0] !in ring
  {
    hide Apart, Segments;
    assert s in ring <==> s in Members(ring);
    assert s in cached <==> s in Members(cached);
    if cached != [] {
      assert cached[0] in Members(cached);
      assert cached[0] in ring <==> cached[0] in Members(ring);
    }
  }

  /** Deleting an empty chunk, whichever place it goes to, takes it out of the layout and nothing else. */
  lemma RetireChunk(chunks: map<nat, Chunk>, owners: map<nat, seq<int>>, ring: seq<nat>, cached: seq<nat>,
                    huge: seq<Huge>, mapped: set<nat>, s: nat)
    requires SpaceOk(chunks, owners, ring, cached, huge, mapped) && s in ring && s != ring[0] && owners[s] == NoRuns()
    ensures s in chunks && (cached != [] ==> cached[0] in chunks)
    ensures |Unlink(ring, s)| == |ring| - 1
    ensures var L := LayoutOf(chunks, owners, ring) - {s};
            var o, r := owners - {s}, Unlink(ring, s);
            && SpaceOk(chunks, o, r, [s] + cached, huge, mapped) && LayoutOf(chunks, o, r) == L
            && SpaceOk(chunks - {s}, o, r, cached, huge, mapped - {s}) && LayoutOf(chunks - {s}, o, r) == L
            && (cached != [] ==>
                  && SpaceOk(chunks - {cached[0]}, o, r, [s] + cached[1..], huge, mapped - {cached[0]})
                  && LayoutOf(chunks - {cached[0]}, o, r) == L)
  {
    hide Runs, Blank, SegmentsOk, LayoutOf, Unlink;
    EmptyChunk(chunks[s], owners[s]);
    LeaveRing(chunks, owners, ring, s);
    RetireSegments(ring, cached, huge, mapped, s);
    UnlinkMembers(ring, s);
    NotCached(ring, cached, huge, mapped, s);
    CachePush(chunks, cached, s);
    var r := Unlink(ring, s);
    assert s !in r by { assert s in r <==> s in Members(r); }
    ForgetChunk(chunks, owners - {s}, r, cached, s);
    if cached != [] {
      assert cached[0] in cached;
      assert cached[0] !in r by {
        assert cached[0] in r <==> cached[0] in Members(r); assert cached[0] in ring <==> cached[0] in Members(ring);
      }
      ForgetChunk(chunks, owners - {s}, r, cached, cached[0]);
    }
  }

  lemma {:induction false} UnlinkAt(ring: seq<nat>, k: nat)
    requires NoDup(ring) && k < |ring|
    ensures Unlink(ring, ring[k]) == ring[..k] + ring[k + 1..]
  {
    if k > 0 {
      UnlinkAt(ring[1..], k - 1);
      assert ring[1..][..k - 1] == ring[1..k] && ring[1..][k..] == ring[k + 1..];
      assert ring[..k] == [ring[0]] + ring[1..k];
    }
  }

  /** The head of the cache joins the ring. */
  lemma JoinFromCache(chunks: map<nat, Chunk>, owners: map<nat, seq<int>>, ring: seq<nat>, cached: seq<nat>,
                      huge: seq<Huge>, mapped: set<nat>, num: nat)
    requires SpaceOk(chunks, owners, ring, cached, huge, mapped) && cached != []
    ensures var s := cached[0];
            && s in chunks && s !in ring && Blank(chunks[s])
            && SpaceOk(chunks[s := InitChunk(chunks[s], num)], owners[s := NoRuns()], ring
                + [s], cached[1..], huge, mapped)
  {
    hide Runs, Blank, LayoutOf, Apart, Segments;
    var s := cached[0];
    assert s in cached;
    NotCached(ring, cached, huge, mapped, s);
    BlankSized(chunks[s]);
    InitEmpty(chunks[s], num);
    JoinRing(chunks, owners, ring, s, InitChunk(chunks[s], num));
    assert cached == [s] + cached[1..];
    assert s !in cached[1..];
    UpdateCache(chunks, cached[1..], s, InitChunk(chunks[s], num)) by { assert CacheOk(chunks, cached[1..]); }
    assert Members(cached) == Members(cached[1..]) + {s};
    assert Members(ring + [s]) + Members(cached[1..]) == Members(ring) + Members(cached);
  }

  lemma BlankSized(c: Chunk)
    requires Blank(c)
    ensures |c.freeMap| == 8 && |c.map_| == PAGES
  {
  }

  /** A chunk fresh from the system joins the ring. */
  lemma JoinFromSystem(chunks: map<nat, Chunk>, owners: map<nat, seq<int>>, ring: seq<nat>, cached: seq<nat>,
                       huge: seq<Huge>, mapped: set<nat>, s: nat, num: nat)
    requires SpaceOk(chunks, owners, ring, cached, huge, mapped) && mapped !! Segments(s, CHUNK_SIZE)
    ensures s !in ring && s !in mapped
    ensures SpaceOk(chunks[s := InitChunk(FreshChunk(), num)], owners[s := NoRuns()], ring + [s], cached, huge,
                    mapped + Segments(s, CHUNK_SIZE))
  {
    hide Runs, Blank, LayoutOf, Apart;
    assert Segments(s, CHUNK_SIZE) == {s};
    assert s !in Members(ring) && s !in Members(cached);
    FreshBlank();
    InitEmpty(FreshChunk(), num);
    JoinRing(chunks, owners, ring, s, InitChunk(FreshChunk(), num));
    UpdateCache(chunks, cached, s, InitChunk(FreshChunk(), num));
    ApartMore(Members(ring) + Members(cached), huge, s, mapped);
    assert Members(ring + [s]) + Members(cached) == Members(ring) + Members(cached) + {s};
  }

  // -------------------------------------------------------------- mappings

  lemma SegmentsShrink(seg: nat, size: nat, less: nat)
    requires less <= size
    ensures Segments(seg, less) <= Segments(seg, size) && Span(less) <= Span(size)
  {
  }

  /** A new mapping, outside everything mapped so far. */
  lemma NewMapping(ring: seq<nat>, cached: seq<nat>, all: seq<Huge>, mapped: set<nat>, x: Huge)
    requires SegmentsOk(ring, cached, all, mapped) && mapped !! Segments(x.seg, x.size) && 0 < x.size
    ensures SegmentsOk(ring, cached, [x] + all, mapped + Segments(x.seg, x.size))
  {
    hide Members, Span, Segments;
    var all', segs := [x] + all, Members(ring) + Members(cached);
    forall i | 0 <= i < |all| ensures all[i].seg + Span(all[i].size) <= x.seg || x.seg + Span(x.size) <= all[i].seg {
      MappingsApart(all[i], x, mapped);
    }
    forall s | s in segs ensures !(x.seg <= s < x.seg + Span(x.size)) {
      OutsideMapping(s, x, mapped);
    }
    forall i | 0 <= i < |all'|
      ensures Segments(all'[i].seg, all'[i].size) <= mapped + Segments(x.seg, x.size) && 0 < all'[i].size
    {
      assert i > 0 ==> all'[i] == all[i - 1];
    }
    forall i, s | 0 <= i < |all'| && s in segs ensures !(all'[i].seg <= s < all'[i].seg + Span(all'[i].size)) {
      assert i > 0 ==> all'[i] == all[i - 1];
    }
    forall i, j | 0 <= i < |all'| && 0 <= j < |all'| && i != j
      ensures all'[i].seg + Span(all'[i].size) <= all'[j].seg || all'[j].seg + Span(all'[j].size) <= all'[i].seg
    {
      assert i > 0 ==> all'[i] == all[i - 1];
      assert j > 0 ==> all'[j] == all[j - 1];
    }
  }

  lemma OutsideMapping(s: nat, x: Huge, mapped: set<nat>)
    requires s in mapped && mapped !! Segments(x.seg, x.size)
    ensures !(x.seg <= s < x.seg + Span(x.size))
  {
    hide Span;
    assert s !in Segments(x.seg, x.size);
    assert !Within(s, x.seg, x.size);
  }

  lemma AddMapping(ring: seq<nat>, cached: seq<nat>, a: seq<Huge>, b: seq<Huge>, mapped: set<nat>, x: Huge)
    requires SegmentsOk(ring, cached, a + b, mapped) && mapped !! Segments(x.seg, x.size) && 0 < x.size
    ensures SegmentsOk(ring, cached, a + ([x] + b), mapped + Segments(x.seg, x.size))
  {
    hide SegmentsOk, Segments;
    NewMapping(ring, cached, a + b, mapped, x);
    var all, all' := [x] + (a + b), a + ([x] + b);
    assert all[1..] == a + b && all'[..|a|] + all'[|a| + 1..] == a + b;
    MoveMapping(ring, cached, all, 0, mapped + Segments(x.seg, x.size), all', |a|);
  }

  lemma MappingsApart(y: Huge, x: Huge, mapped: set<nat>)
    requires Segments(y.seg, y.size) <= mapped && mapped !! Segments(x.seg, x.size) && 0 < x.size && 0 < y.size
    ensures y.seg + Span(y.size) <= x.seg || x.seg + Span(x.size) <= y.seg
  {
    if y.seg <= x.seg {
      assert Within(x.seg, x.seg, x.size);
      assert Within(x.seg, y.seg, y.size) ==> x.seg in Segments(y.seg, y.size);
      assert x.seg in Segments(x.seg, x.size);
    } else {
      assert Within(y.seg, y.seg, y.size);
      assert Within(y.seg, x.seg, x.size) ==> y.seg in Segments(x.seg, x.size);
      assert y.seg in Segments(y.seg, y.size);
    }
  }

  /** Each mapping of `all'` is one of `all`, at the place `at` says, and no two are the same one. */
  ghost predicate Rearranged(all: seq<Huge>, all': seq<Huge>, at: seq<nat>) {
    && |at| == |all'|
    && (forall k :: 0 <= k < |at| ==> at[k] < |all| && all'[k].seg == all[at[k]].seg && all'[k].size == all[at[k]].size)
    && (forall k, l :: 0 <= k < l < |at| ==> at[k] != at[l])
  }

  /** The order of the mappings and their list elements do not matter. */
  lemma RearrangedOk(ring: seq<nat>, cached: seq<nat>, all: seq<Huge>, mapped: set<nat>, all': seq<Huge>, at: seq<nat>)
    requires SegmentsOk(ring, cached, all, mapped) && Rearranged(all, all', at)
    ensures SegmentsOk(ring, cached, all', mapped)
  {
    hide Members, Span, Segments;
    var segs := Members(ring) + Members(cached);
    forall k, s | 0 <= k < |all'| && s in segs ensures !(all'[k].seg <= s < all'[k].seg + Span(all'[k].size)) {
      assert !(all[at[k]].seg <= s < all[at[k]].seg + Span(all[at[k]].size));
    }
    forall k, l | 0 <= k < |all'| && 0 <= l < |all'| && k != l
      ensures all'[k].seg + Span(all'[k].size) <= all'[l].seg || all'[l].seg + Span(all'[l].size) <= all'[k].seg
    {
      assert at[k] != at[l];
    }
  }

  /** One mapping moves from place `i` to place `j`. */
  lemma MoveMapping(ring: seq<nat>, cached: seq<nat>, all: seq<Huge>, i: nat, mapped: set<nat>, all': seq<Huge>, j: nat)
    requires SegmentsOk(ring, cached, all, mapped) && i < |all| && |all'| == |all| && j < |all'|
    requires all'[j].seg == all[i].seg && all'[j].size == all[i].size
    requires all'[..j] + all'[j + 1..] == all[..i] + all[i + 1..]
    ensures SegmentsOk(ring, cached, all', mapped)
  {
    hide SegmentsOk;
    var at := seq(|all|, k => if k == j then i else (var r := if k < j then k else k - 1; if r < i then r else r + 1));
    var rest := all[..i] + all[i + 1..];
    forall k | 0 <= k < |all'| && k != j ensures all'[k] == all[at[k]] {
      var r := if k < j then k else k - 1;
      assert (all'[..j] + all'[j + 1..])[r] == all'[k];
      assert rest[r] == all[at[k]];
    }
    RearrangedOk(ring, cached, all, mapped, all', at);
  }

  /** A mapping ends. */
  lemma DropMapping(ring: seq<nat>, cached: seq<nat>, all: seq<Huge>, i: nat, mapped: set<nat>)
    requires SegmentsOk(ring, cached, all, mapped) && i < |all|
    ensures SegmentsOk(ring, cached, all[..i] + all[i + 1..], mapped - Segments(all[i].seg, all[i].size))
  {
    hide Members, Span;
    var rest := all[..i] + all[i + 1..];
    forall k | 0 <= k < |rest| ensures rest[k] == all[if k < i then k else k + 1] {}
    var gone := Segments(all[i].seg, all[i].size);
    forall s | s in Members(ring) + Members(cached) ensures s !in gone {
      assert !Within(s, all[i].seg, all[i].size);
    }
    forall k | 0 <= k < |rest| ensures Segments(rest[k].seg, rest[k].size) !! gone {
      forall s | s in Segments(rest[k].seg, rest[k].size) ensures s !in gone {
        assert Within(s, rest[k].seg, rest[k].size);
        assert !Within(s, all[i].seg, all[i].size);
      }
    }
  }

  /** A mapping loses its tail. */
  lemma TruncateMapping(ring: seq<nat>, cached: seq<nat>, all: seq<Huge>, i: nat, mapped: set<nat>, size: nat)
    requires SegmentsOk(ring, cached, all, mapped) && i < |all| && 0 < size <= all[i].size
    ensures SegmentsOk(ring, cached, all[i := all[i].(size := size)],
                       mapped - (Segments(all[i].seg, all[i].size) - Segments(all[i].seg, size)))
  {
    hide Members;
    SegmentsShrink(all[i].seg, all[i].size, size);
    hide Span;
    var all', gone := all[i := all[i].(size := size)], Segments(all[i].seg, all[i].size);
    forall s | s in Members(ring) + Members(cached) ensures s !in gone {
      assert !Within(s, all[i].seg, all[i].size);
    }
    forall k | 0 <= k < |all| && k != i ensures Segments(all[k].seg, all[k].size) !! gone {
      forall s | s in Segments(all[k].seg, all[k].size) ensures s !in gone {
        assert Within(s, all[k].seg, all[k].size);
        assert !Within(s, all[i].seg, all[i].size);
      }
    }
  }

  /** A mapping grows in place, into segments that were not mapped. */
  lemma ExtendMapping(ring: seq<nat>, cached: seq<nat>, all: seq<Huge>, i: nat, mapped: set<nat>, size: nat)
    requires SegmentsOk(ring, cached, all, mapped) && i < |all| && all[i].size <= size
    requires mapped !! (Segments(all[i].seg, size) - Segments(all[i].seg, all[i].size))
    ensures SegmentsOk(ring, cached, all[i := all[i].(size := size)], mapped + Segments(all[i].seg, size))
  {
    hide Members;
    SegmentsShrink(all[i].seg, size, all[i].size);
    var x, y := all[i], all[i].(size := size);
    forall s | s in mapped && Within(s, y.seg, y.size) ensures Within(s, x.seg, x.size) {
      assert s in Segments(y.seg, y.size);
    }
    forall k | 0 <= k < |all| && k != i
      ensures all[k].seg + Span(all[k].size) <= y.seg || y.seg + Span(y.size) <= all[k].seg
    {
      if all[k].seg + Span(all[k].size) > x.seg {
        assert Within(all[k].seg, all[k].seg, all[k].size);
        assert all[k].seg in Segments(all[k].seg, all[k].size);
      }
    }
    forall s | s in Members(ring) + Members(cached) ensures !(y.seg <= s < y.seg + Span(y.size)) {
      assert s in mapped;
      assert !Within(s, x.seg, x.size);
      assert !Within(s, y.seg, y.size);
    }
  }
}

/**
 One chunk: 512 pages, a bitset of used pages, and a page map that describes
 the runs of pages in use.  `owner` is the specification's view of the same
 thing: for every page the first page of its run, or -1 for a free page.
 */
module Chunks {
  import opened Bitset
  import opened PageSearch
  import opened Bins
  import opened PageInfo

  datatype Chunk = Chunk(freeMap: seq<bv64>, map_: seq<Info>, freePages: int, freeTail: nat, num: nat)

  function Used(c: Chunk): (used: seq<bool>)
    ensures |used| == 64 * |c.freeMap|
  {
    Pages(c.freeMap)
  }

  function CountFree(used: seq<bool>): (n: nat)
    ensures n <= |used|
  {
    if used == [] then 0
    else CountFree(used[..|used| - 1]) + if used[|used| - 1] then 0 else 1
  }

  /** Where no more pages are used, no fewer are free, and as many only if the same are. */
  lemma {:induction false} FewerUsed(used: seq<bool>, used': seq<bool>)
    requires |used'| == |used| && forall p :: 0 <= p < |used| && used'[p] ==> used[p]
    ensures CountFree(used) <= CountFree(used')
    ensures CountFree(used) == CountFree(used') ==> used == used'
  {
    if used != [] {
      var last := |used| - 1;
      FewerUsed(used[..last], used'[..last]);
      assert used == used[..last] + [used[last]] && used' == used'[..last] + [used'[last]];
    }
  }

  /** The number of pages of the run that a page map entry starts. */
  function RunLen(info: Info): nat {
    match info
    case Lrun(n) => n
    case Srun(b, _) => if b < BINS then BinPages(b) else 0
    case _ => 0
  }

  predicate StartsRun(info: Info) {
    match info
    case Lrun(n) => 1 <= n
    case Srun(b, _) => b < BINS
    case _ => false
  }

  ghost predicate Sized(c: Chunk, owner: seq<int>) {
    |c.freeMap| == 8 && |c.map_| == PAGES && |owner| == PAGES
  }

  /** Page `p` belongs to the run `owner[p]` and the page map says so. */
  ghost predicate PageOk(map_: seq<Info>, owner: seq<int>, p: nat)
    requires |map_| == PAGES && |owner| == PAGES && p < PAGES
  {
    && -1 <= owner[p] <= p
    && (owner[p] >= 0 ==>
          var h := owner[p];
          && owner[h] == h
          && p < h + RunLen(map_[h])
          && (map_[h].Srun? && h < p ==> map_[p] == Nrun(map_[h].bin, p - h)))
    && (owner[p] == p ==>
          && StartsRun(map_[p])
          && p + RunLen(map_[p]) <= PAGES
          && forall k :: p <= k < p + RunLen(map_[p]) ==> owner[k] == p)
  }

  ghost predicate PagesOk(map_: seq<Info>, owner: seq<int>) {
    && |map_| == PAGES && |owner| == PAGES
    && owner[0] == 0 && map_[0] == Lrun(FIRST_PAGE)
    && forall p :: 0 <= p < PAGES ==> PageOk(map_, owner, p)
  }

  /** A page is used exactly when a run owns it. */
  ghost predicate UsedOk(used: seq<bool>, owner: seq<int>) {
    && |used| == |owner|
    && forall p :: 0 <= p < |used| ==> used[p] == (owner[p] >= 0)
  }

  /** No run starts at or above `free_tail`. */
  ghost predicate HeadsBelow(owner: seq<int>, freeTail: nat) {
    forall p :: 0 <= p < |owner| && owner[p] == p ==> p < freeTail
  }

  ghost predicate Runs(c: Chunk, owner: seq<int>) {
    && Sized(c, owner)
    && PagesOk(c.map_, owner)
    && UsedOk(Used(c), owner)
    && HeadsBelow(owner, c.freeTail)
    && c.freeTail <= PAGES
    && c.freePages == CountFree(Used(c))
  }

  // ------------------------------------------------------------ page counting

  lemma {:induction false} CountUpdate(used: seq<bool>, p: nat, v: bool)
    requires p < |used|
    ensures CountFree(used[p := v]) == CountFree(used) + (if used[p] then 1 else 0) - (if v then 1 else 0)
  {
    var n := |used| - 1;
    if p == n {
      assert used[p := v][..n] == used[..n];
    } else {
      CountUpdate(used[..n], p, v);
      assert used[p := v][..n] == used[..n][p := v];
    }
  }

  /** Filling a range that held only the opposite value moves the count by the range's length. */
  lemma {:induction false} CountFilled(used: seq<bool>, start: nat, len: nat, v: bool)
    requires start + len <= |used|
    requires forall p :: start <= p < start + len ==> used[p] == !v
    ensures CountFree(Filled(used, start, len, v)) == CountFree(used) + (if v then 0 else len) - (if v then len else 0)
  {
    if len == 0 {
      assert Filled(used, start, 0, v) == used;
    } else {
      CountFilled(used, start, len - 1, v);
      var f := Filled(used, start, len - 1, v);
      CountUpdate(f, start + len - 1, v);
      assert Filled(used, start, len, v) == f[start + len - 1 := v];
    }
  }

  lemma {:induction false} CountAll(used: seq<bool>)
    ensures CountFree(used) == |used| <==> forall p :: 0 <= p < |used| ==> !used[p]
  {
    if used != [] {
      var n := |used| - 1;
      CountAll(used[..n]);
      assert forall p :: 0 <= p < n ==> used[..n][p] == used[p];
    }
  }

  /** Only the first page is in use exactly when all the others are counted as free. */
  lemma CountOnlyFirst(used: seq<bool>)
    requires 0 < |used| && used[0]
    ensures CountFree(used) == |used| - 1 <==> forall p :: 1 <= p < |used| ==> !used[p]
    ensures CountFree(used) <= |used| - 1
  {
    CountUpdate(used, 0, false);
    var rest := used[0 := false];
    CountAll(rest);
    assert forall p :: 0 <= p < |used| ==> rest[p] == (p != 0 && used[p]);
  }

  // ------------------------------------------------------------- run changes

  /** What the page search needs of `free_tail` follows from the run structure. */
  lemma TailFromRuns(c: Chunk, owner: seq<int>)
    requires Runs(c, owner)
    ensures TailOk(Used(c), c.freeTail)
    ensures Used(c)[0]
  {
    hide Pages, CountFree;
    forall q, p | 0 <= q && c.freeTail - 1 <= q < p < |Used(c)| && !Used(c)[q]
      ensures !Used(c)[p]
    {
      assert PageOk(c.map_, owner, p);
      assert owner[p] >= 0 ==> PageOk(c.map_, owner, owner[p]);
    }
  }

  /** Pages `page` to `page + n`, all free, become the run that `info` starts. */
  lemma AddRun(map_: seq<Info>, owner: seq<int>, page: nat, n: nat)
    requires PagesOk(map_, owner) && 1 <= n && page + n <= PAGES
    requires forall p :: page <= p < page + n ==> owner[p] < 0
    ensures PagesOk(map_[page := Lrun(n)], Filled(owner, page, n, page))
  {
    var m, o := map_[page := Lrun(n)], Filled(owner, page, n, page);
    forall p | 0 <= p < PAGES ensures PageOk(m, o, p) {
      assert PageOk(map_, owner, p);
      if !(page <= p < page + n) && owner[p] >= 0 {
        var h := owner[p];
        assert PageOk(map_, owner, h);
        assert !(page <= h < page + n);
      }
      if !(page <= p < page + n) && owner[p] == p {
        forall k | p <= k < p + RunLen(map_[p]) ensures o[k] == p {
          assert owner[k] == p;
        }
      }
    }
  }

  /** The run at `page` is given back. */
  lemma RemoveRun(map_: seq<Info>, owner: seq<int>, page: nat, n: nat)
    requires PagesOk(map_, owner) && 1 <= page < PAGES && owner[page] == page && n == RunLen(map_[page])
    ensures page + n <= PAGES && PagesOk(map_[page := Frun], Filled(owner, page, n, -1))
    ensures forall p :: 0 <= p < PAGES ==> (owner[p] == page <==> page <= p < page + n)
  {
    assert PageOk(map_, owner, page);
    forall p | 0 <= p < PAGES ensures owner[p] == page <==> page <= p < page + n {
      assert PageOk(map_, owner, p);
    }
    var m, o := map_[page := Frun], Filled(owner, page, n, -1);
    forall p | 0 <= p < PAGES ensures PageOk(m, o, p) {
      assert PageOk(map_, owner, p);
      if !(page <= p < page + n) && owner[p] == p {
        forall k | p <= k < p + RunLen(map_[p]) ensures o[k] == p {
          assert owner[k] == p;
        }
      }
    }
  }

  /** A large run gives back its pages from the `keep`-th on. */
  lemma ShrinkRun(map_: seq<Info>, owner: seq<int>, page: nat, n: nat, keep: nat)
    requires PagesOk(map_, owner) && 1 <= page < PAGES && owner[page] == page
    requires map_[page] == Lrun(n) && 1 <= keep < n
    ensures page + n <= PAGES
    ensures PagesOk(map_[page := Lrun(keep)], Filled(owner, page + keep, n - keep, -1))
    ensures forall p :: page <= p < page + n ==> owner[p] == page
  {
    assert PageOk(map_, owner, page);
    var m, o := map_[page := Lrun(keep)], Filled(owner, page + keep, n - keep, -1);
    forall p | 0 <= p < PAGES ensures PageOk(m, o, p) {
      assert PageOk(map_, owner, p);
      if owner[p] == p {
        forall k | p <= k < p + RunLen(m[p]) ensures o[k] == p {
          assert owner[k] == p;
        }
      }
    }
  }

  /** A large run takes the free pages behind it. */
  lemma GrowRun(map_: seq<Info>, owner: seq<int>, page: nat, n: nat, more: nat)
    requires PagesOk(map_, owner) && 1 <= page < PAGES && owner[page] == page
    requires map_[page] == Lrun(n) && n < more && page + more <= PAGES
    requires forall p :: page + n <= p < page + more ==> owner[p] < 0
    ensures PagesOk(map_[page := Lrun(more)], Filled(owner, page + n, more - n, page))
  {
    var m, o := map_[page := Lrun(more)], Filled(owner, page + n, more - n, page);
    assert PageOk(map_, owner, page);
    forall p | 0 <= p < PAGES ensures PageOk(m, o, p) {
      assert PageOk(map_, owner, p);
      if !(page + n <= p < page + more) && owner[p] >= 0 {
        assert PageOk(map_, owner, owner[p]);
      }
      if owner[p] == p && p != page {
        forall k | p <= k < p + RunLen(map_[p]) ensures o[k] == p {
          assert owner[k] == p;
        }
      }
    }
  }

  /** `m` is the page map with the run at `page` marked as slots of bin `b`. */
  ghost predicate SplitMap(map_: seq<Info>, m: seq<Info>, page: nat, b: nat) {
    && |map_| == PAGES && |m| == PAGES && page < PAGES && b < BINS && m[page] == Srun(b, 0)
    && forall p :: 0 <= p < PAGES && p != page ==>
         m[p] == if page < p < page + BinPages(b) then Nrun(b, p - page) else map_[p]
  }

  /** The run at `page` becomes a run of slots of bin `b`. */
  lemma SplitRun(map_: seq<Info>, owner: seq<int>, page: nat, b: nat, m: seq<Info>)
    requires PagesOk(map_, owner) && 1 <= page < PAGES && owner[page] == page && b < BINS
    requires map_[page] == Lrun(BinPages(b)) && SplitMap(map_, m, page, b)
    ensures PagesOk(m, owner)
  {
    assert PageOk(map_, owner, page);
    forall p | 0 <= p < PAGES ensures PageOk(m, owner, p) {
      assert PageOk(map_, owner, p);
      if owner[p] >= 0 {
        assert PageOk(map_, owner, owner[p]);
      }
    }
  }

  /** The counter of a small run does not matter to the run structure. */
  lemma CountRun(map_: seq<Info>, owner: seq<int>, page: nat, counter: nat)
    requires PagesOk(map_, owner) && page < PAGES && owner[page] == page && map_[page].Srun?
    ensures PagesOk(map_[page := Srun(map_[page].bin, counter)], owner)
  {
    var m := map_[page := Srun(map_[page].bin, counter)];
    assert PageOk(map_, owner, page);
    forall p | 0 <= p < PAGES ensures PageOk(m, owner, p) {
      assert PageOk(map_, owner, p);
    }
  }

  /** A run starts right behind every gap. */
  lemma GapEndsAtRun(c: Chunk, owner: seq<int>, s: nat, e: nat)
    requires Runs(c, owner) && Gap(Used(c), s, e) && e < PAGES
    ensures owner[e] == e && e < c.freeTail
  {
    hide Pages, CountFree;
    assert PageOk(c.map_, owner, e);
    assert PageOk(c.map_, owner, owner[e]);
    assert !Used(c)[e - 1];
  }

  lemma GapInside(used: seq<bool>, n: nat, s: nat, e: int)
    requires 0 < |used| && (used[|used| - 1] || ExactInside(used, n)) && BestFit(used, n, s, e)
    ensures e < |used|
  {
    if ExactInside(used, n) {
      var s', e' :| Gap(used, s', e') && e' < |used| && e' - s' == n;
      assert Fits(used, n, s', e');
    }
  }

  /**
   The `free_tail` left by the search still has no run start at or above it,
   and the page found is below the `free_tail` that the allocation leaves.
   */
  lemma SearchTail(c: Chunk, owner: seq<int>, n: nat, found: bool, page: nat, newTail: nat, gapEnd: int)
    requires Runs(c, owner) && 1 <= n
    requires found ==> BestFit(Used(c), n, page, gapEnd)
    requires TailMoved(Used(c), n, c.freeTail, found, page, newTail)
    ensures newTail <= PAGES && HeadsBelow(owner, newTail)
    ensures found ==> 1 <= page && page + n <= PAGES && RangeFree(Used(c), page, n)
    ensures found ==> page < newTail
  {
    hide Pages, CountFree;
    var used := Used(c);
    TailFromRuns(c, owner);
    if used[PAGES - 1] || ExactInside(used, n) {
      if found {
        GapInside(used, n, page, gapEnd);
        GapEndsAtRun(c, owner, page, gapEnd);
      }
    } else {
      var t :| Gap(used, t, PAGES) && newTail == if found && page == t then t + n else t;
      if found && gapEnd < PAGES {
        assert page != t;
        assert t < PAGES && !used[t];
        assert page < t;
      }
    }
  }

  // ------------------------------------------------- the words behind a chunk

  /** Searches the bitset and stores the new `free_tail`. */
  method FindPages(c: Chunk, n: nat, ghost owner: seq<int>)
    returns (found: bool, page: nat, c': Chunk, ghost gapEnd: int)
    requires Runs(c, owner) && 1 <= n
    ensures found <==> HasRoom(Used(c), n)
    ensures found ==> BestFit(Used(c), n, page, gapEnd)
    ensures found ==> 1 <= page < c'.freeTail && page + n <= PAGES && RangeFree(Used(c), page, n)
    ensures c' == c.(freeTail := c'.freeTail) && Runs(c', owner)
  {
    hide Pages, PagesOk, UsedOk, HeadsBelow, CountFree, HasRoom, BestFit, TailMoved, RangeFree, TailOk;
    var words := new bv64[8](i requires 0 <= i < 8 => c.freeMap[i]);
    assert words[..] == c.freeMap;
    TailFromRuns(c, owner);
    var newTail;
    found, page, newTail, gapEnd := Search(words, c.freeTail, n);
    SearchTail(c, owner, n, found, page, newTail, gapEnd);
    c' := c.(freeTail := newTail);
  }

  method MarkUsed(freeMap: seq<bv64>, page: nat, n: nat) returns (freeMap': seq<bv64>)
    requires |freeMap| == 8 && 1 <= n && page + n <= PAGES
    ensures |freeMap'| == 8 && Pages(freeMap') == Filled(Pages(freeMap), page, n, true)
  {
    hide Pages, Filled;
    var words := new bv64[8](i requires 0 <= i < 8 => freeMap[i]);
    assert words[..] == freeMap;
    SetRange(words, page, n);
    freeMap' := words[..];
  }

  method MarkFree(freeMap: seq<bv64>, page: nat, n: nat) returns (freeMap': seq<bv64>)
    requires |freeMap| == 8 && 1 <= n && page + n <= PAGES
    ensures |freeMap'| == 8 && Pages(freeMap') == Filled(Pages(freeMap), page, n, false)
  {
    hide Pages, Filled;
    var words := new bv64[8](i requires 0 <= i < 8 => freeMap[i]);
    assert words[..] == freeMap;
    ResetRange(words, page, n);
    freeMap' := words[..];
  }

  method PagesFree(freeMap: seq<bv64>, page: nat, n: nat) returns (free: bool)
    requires |freeMap| == 8 && 1 <= n && page + n <= PAGES
    ensures free == RangeFree(Pages(freeMap), page, n)
  {
    hide Pages, RangeFree;
    var words := new bv64[8](i requires 0 <= i < 8 => freeMap[i]);
    assert words[..] == freeMap;
    free := IsFreeRange(words, page, n);
  }

  method PageUsed(freeMap: seq<bv64>, page: nat) returns (used: bool)
    requires |freeMap| == 8 && page < PAGES
    ensures used == Pages(freeMap)[page]
  {
    hide Pages;
    var words := new bv64[8](i requires 0 <= i < 8 => freeMap[i]);
    assert words[..] == freeMap;
    used := IsSet(words, page);
  }

  // --------------------------------------------------- allocation and release

  /** zend_mm_chunk_init and the header part of zend_mm_init: only word 0 and entry 0 are written. */
  function InitChunk(c: Chunk, num: nat): (c': Chunk)
    requires |c.freeMap| == 8 && |c.map_| == PAGES
  {
    Chunk(c.freeMap[0 := 1], c.map_[0 := Lrun(FIRST_PAGE)], PAGES - FIRST_PAGE, FIRST_PAGE, num)
  }

  /** All pages but the header are marked free: what a fresh mapping, a cached chunk and a wiped one have in common. */
  ghost predicate Blank(c: Chunk) {
    && |c.freeMap| == 8 && |c.map_| == PAGES
    && forall p :: 1 <= p < PAGES ==> !Used(c)[p]
  }

  ghost function NoRuns(): (owner: seq<int>)
    ensures |owner| == PAGES && owner[0] == 0 && forall p :: 1 <= p < PAGES ==> owner[p] == -1
  {
    seq(PAGES, p => if p == 0 then 0 else -1)
  }

  lemma FirstWord(words: seq<bv64>, words': seq<bv64>)
    requires |words| == 8 && forall p :: 1 <= p < PAGES ==> !Pages(words)[p]
    requires words' == words[0 := 1]
    ensures Pages(words')[0] && forall p :: 1 <= p < PAGES ==> !Pages(words')[p]
  {
    hide BitAt, Pos;
    FirstWordBits();
    assert Bit(1, 0);
    forall p | 1 <= p < PAGES ensures !Pages(words')[p] {
      if p / 64 == 0 {
        assert !Bit(1, p % 64);
      } else {
        assert !Pages(words)[p];
      }
    }
  }

  lemma FirstWordBits()
    ensures Bit(1, 0) && forall i :: 1 <= i < 64 ==> !Bit(1, i)
  {
    hide BitAt, Pos;
    MaskOne(1, 0) by { assert (1 as bv64) << Pos(0) == 1 by { PosInt(0); IntOrder(Pos(0), 0); } }
    assert Bit(1, 0) == (0 <= 0 <= 0);
  }

  /** Initialising a blank chunk gives an empty one, although seven of the eight words are left as they were. */
  lemma InitEmpty(c: Chunk, num: nat)
    requires Blank(c)
    ensures Runs(InitChunk(c, num), NoRuns()) && Blank(InitChunk(c, num))
  {
    hide Pages, CountFree;
    var c' := InitChunk(c, num);
    assert Used(c) == Pages(c.freeMap);
    FirstWord(c.freeMap, c'.freeMap);
    CountOnlyFirst(Used(c'));
    forall p | 0 <= p < PAGES ensures PageOk(c'.map_, NoRuns(), p) {}
  }

  /** The pages found become a large run: the end of zend_mm_alloc_pages. */
  method TakePages(c: Chunk, page: nat, n: nat, ghost owner: seq<int>) returns (c': Chunk, ghost owner': seq<int>)
    requires Runs(c, owner) && 1 <= page <= c.freeTail && 1 <= n && page + n <= PAGES
    requires RangeFree(Used(c), page, n)
    ensures owner' == Filled(owner, page, n, page) && Runs(c', owner')
    ensures forall p :: page <= p < page + n ==> owner[p] == -1
    ensures c'.map_ == c.map_[page := Lrun(n)] && c'.num == c.num
    ensures c'.freeTail == if page == c.freeTail then page + n else c.freeTail
  {
    hide Pages, CountFree;
    var freeMap := MarkUsed(c.freeMap, page, n);
    c' := Chunk(freeMap, c.map_[page := Lrun(n)], c.freePages - n,
                if page == c.freeTail then page + n else c.freeTail, c.num);
    owner' := Filled(owner, page, n, page);
    assert forall p :: page <= p < page + n ==> owner[p] == -1 by {
      forall p | page <= p < page + n ensures owner[p] == -1 {
        assert PageOk(c.map_, owner, p);
        assert !Used(c)[p];
      }
    }
    AddRun(c.map_, owner, page, n);
    CountFilled(Used(c), page, n, true);
  }

  /** The run at `page` is freed: zend_mm_free_pages_ex without the chunk deletion. */
  method DropPages(c: Chunk, page: nat, n: nat, ghost owner: seq<int>) returns (c': Chunk, ghost owner': seq<int>)
    requires Runs(c, owner) && 1 <= page < PAGES && owner[page] == page && n == RunLen(c.map_[page])
    ensures page + n <= PAGES && owner' == Filled(owner, page, n, -1) && Runs(c', owner')
    ensures c'.map_ == c.map_[page := Frun] && c'.num == c.num
    ensures c'.freeTail == if c.freeTail == page + n then page else c.freeTail
    ensures c'.freePages == c.freePages + n
  {
    hide Pages, CountFree;
    RemoveRun(c.map_, owner, page, n);
    assert 1 <= n by { assert PageOk(c.map_, owner, page); RunLenPositive(c.map_[page]); }
    var freeMap := MarkFree(c.freeMap, page, n);
    c' := Chunk(freeMap, c.map_[page := Frun], c.freePages + n,
                if c.freeTail == page + n then page else c.freeTail, c.num);
    owner' := Filled(owner, page, n, -1);
    assert forall p :: page <= p < page + n ==> Used(c)[p];
    CountFilled(Used(c), page, n, false);
  }

  lemma RunLenPositive(info: Info)
    requires StartsRun(info)
    ensures 1 <= RunLen(info)
  {
    if info.Srun? {
      BinFacts(info.bin);
    }
  }

  /** In-place reallocation of a large run to fewer pages. */
  method ShrinkPages(c: Chunk, page: nat, n: nat, keep: nat, ghost owner: seq<int>)
    returns (c': Chunk, ghost owner': seq<int>)
    requires Runs(c, owner) && 1 <= page < PAGES && owner[page] == page && c.map_[page] == Lrun(n) && 1 <= keep < n
    ensures page + n <= PAGES && owner' == Filled(owner, page + keep, n - keep, -1) && Runs(c', owner')
    ensures c'.map_ == c.map_[page := Lrun(keep)] && c'.num == c.num && c'.freeTail == c.freeTail
  {
    hide Pages, CountFree;
    ShrinkRun(c.map_, owner, page, n, keep);
    var freeMap := MarkFree(c.freeMap, page + keep, n - keep);
    c' := c.(freeMap := freeMap, map_ := c.map_[page := Lrun(keep)], freePages := c.freePages + (n - keep));
    owner' := Filled(owner, page + keep, n - keep, -1);
    CountFilled(Used(c), page + keep, n - keep, false);
  }

  /** In-place reallocation of a large run to more pages, when those behind it are free. */
  method GrowPages(c: Chunk, page: nat, n: nat, more: nat, ghost owner: seq<int>)
    returns (grown: bool, c': Chunk, ghost owner': seq<int>)
    requires Runs(c, owner) && 1 <= page < PAGES && owner[page] == page && c.map_[page] == Lrun(n) && n < more
    ensures grown <==> page + more <= PAGES && RangeFree(Used(c), page + n, more - n)
    ensures grown ==> owner' == Filled(owner, page + n, more - n, page) && Runs(c', owner')
    ensures grown ==> c'.map_ == c.map_[page := Lrun(more)] && c'.num == c.num && c'.freeTail == c.freeTail
    ensures grown ==> forall p :: page + n <= p < page + more ==> owner[p] == -1
    ensures !grown ==> c' == c && owner' == owner
  {
    hide Pages, CountFree;
    assert PageOk(c.map_, owner, page);
    grown, c', owner' := false, c, owner;
    if page + more <= PAGES {
      var free := PagesFree(c.freeMap, page + n, more - n);
      if free {
        assert forall p :: page + n <= p < page + more ==> owner[p] == -1 by {
          forall p | page + n <= p < page + more ensures owner[p] == -1 {
            assert PageOk(c.map_, owner, p);
            assert !Used(c)[p];
          }
        }
        var freeMap := MarkUsed(c.freeMap, page + n, more - n);
        c' := c.(freeMap := freeMap, map_ := c.map_[page := Lrun(more)], freePages := c.freePages - (more - n));
        owner' := Filled(owner, page + n, more - n, page);
        GrowRun(c.map_, owner, page, n, more);
        CountFilled(Used(c), page + n, more - n, true);
        grown := true;
      }
    }
  }

  /** The page map of a new small run: the first part of zend_mm_alloc_small_slow. */
  method SplitPages(c: Chunk, page: nat, b: nat, ghost owner: seq<int>) returns (c': Chunk)
    requires Runs(c, owner) && 1 <= page < PAGES && owner[page] == page && b < BINS && c.map_[page] == Lrun(BinPages(b))
    ensures Runs(c', owner) && c'.num == c.num && c'.freeTail == c.freeTail
    ensures SplitMap(c.map_, c'.map_, page, b)
  {
    hide Pages, CountFree;
    assert PageOk(c.map_, owner, page);
    var m := c.map_[page := Srun(b, 0)];
    if BinPages(b) > 1 {
      var i := 1;
      while i < BinPages(b)
        invariant 1 <= i <= BinPages(b) && |m| == PAGES && m[page] == Srun(b, 0)
        invariant forall p :: 0 <= p < PAGES && p != page ==>
                    m[p] == if page < p < page + i then Nrun(b, p - page) else c.map_[p]
      {
        m := m[page + i := Nrun(b, i)];
        i := i + 1;
      }
    }
    SplitRun(c.map_, owner, page, b, m);
    c' := c.(map_ := m);
  }

  /** A chunk with fewer free pages than wanted has no room for them. */
  lemma TooFewPages(used: seq<bool>, n: nat)
    requires CountFree(used) < n
    ensures !HasRoom(used, n)
  {
    if HasRoom(used, n) {
      var s: nat :| s + n <= |used| && RangeFree(used, s, n);
      CountFilled(used, s, n, true);
    }
  }

  /** The header of a chunk just obtained from the system: all zero. */
  function FreshChunk(): Chunk {
    Chunk(seq(8, i => 0), seq(PAGES, i => Frun), 0, 0, 0)
  }

  lemma FreshBlank()
    ensures Blank(FreshChunk()) && FreshChunk().freePages == FreshChunk().freeTail == FreshChunk().num == 0
  {
    hide Bit;
    ConstantWords();
    forall p | 1 <= p < PAGES ensures !Used(FreshChunk())[p] {
      assert FreshChunk().freeMap[p / 64] == 0;
    }
  }
}

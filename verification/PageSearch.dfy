/**
 The best-fit page search of zend_mm_alloc_pages.  The source walks the bitset
 a word at a time with `tmp &= tmp + 1` and `tmp |= tmp - 1`; the result is
 compared with a definition over gaps, the maximal runs of free pages.
 */
module PageSearch {
  import opened Bitset

  /** Pages `s` to `e` are a maximal run of free pages. */
  ghost predicate Gap(pages: seq<bool>, s: int, e: int) {
    && 0 <= s < e <= |pages|
    && (forall p :: s <= p < e ==> !pages[p])
    && (s == 0 || pages[s - 1])
    && (e == |pages| || pages[e])
  }

  ghost predicate Fits(pages: seq<bool>, n: nat, s: int, e: int) {
    Gap(pages, s, e) && n <= e - s
  }

  /** The shortest gap of at least `n` pages, and the first of those. */
  ghost predicate BestFit(pages: seq<bool>, n: nat, s: int, e: int) {
    && Fits(pages, n, s, e)
    && forall s', e' :: Fits(pages, n, s', e') ==> e - s < e' - s' || (e - s == e' - s' && s <= s')
  }

  /**
   What the search needs of `free_tail`: behind a free page that is not below
   `freeTail - 1` there is no used page.  Pages above `freeTail` may well be used.
   */
  ghost predicate TailOk(pages: seq<bool>, freeTail: nat) {
    forall q, p :: 0 <= q && freeTail - 1 <= q < p < |pages| && !pages[q] ==> !pages[p]
  }

  /** Some `n` consecutive pages are free. */
  ghost predicate HasRoom(pages: seq<bool>, n: nat) {
    exists s :: 0 <= s && s + n <= |pages| && RangeFree(pages, s, n)
  }

  /** The gap around a free page. */
  lemma GapAround(pages: seq<bool>, p: nat) returns (s: nat, e: nat)
    requires p < |pages| && !pages[p]
    ensures s <= p < e && Gap(pages, s, e)
  {
    s, e := p, p + 1;
    while s > 0 && !pages[s - 1]
      invariant 0 <= s <= p
      invariant forall q :: s <= q <= p ==> !pages[q]
    {
      s := s - 1;
    }
    while e < |pages| && !pages[e]
      invariant p < e <= |pages|
      invariant forall q :: s <= q < e ==> !pages[q]
    {
      e := e + 1;
    }
  }

  lemma RoomIsGap(pages: seq<bool>, n: nat)
    requires 1 <= n
    ensures HasRoom(pages, n) <==> exists s, e :: Fits(pages, n, s, e)
  {
    if HasRoom(pages, n) {
      var p: nat :| p + n <= |pages| && RangeFree(pages, p, n);
      var s, e := GapAround(pages, p);
      assert e >= p + n;
      assert Fits(pages, n, s, e);
    }
    if s: nat, e: nat :| Fits(pages, n, s, e) {
      assert RangeFree(pages, s, n);
    }
  }

  /** What the search knows after looking at every gap that ends at or before `pos`. */
  ghost predicate Seen(pages: seq<bool>, n: nat, pos: int, best: int, bestLen: int) {
    && (best > 0 ==> Gap(pages, best, best + bestLen) && n < bestLen && best + bestLen <= pos)
    && (best <= 0 ==> bestLen == |pages|)
    && (forall s, e :: Fits(pages, n, s, e) && e <= pos ==>
                         best > 0 && (bestLen < e - s || (bestLen == e - s && best <= s)))
  }

  /** Bits below the current position have been set in `tmp`; the others are the word's own. */
  ghost predicate WordFrom(tmp: bv64, pages: seq<bool>, i: nat, pos: nat) {
    && i + 64 <= |pages|
    && forall j :: 0 <= j < 64 ==> Bit(tmp, j) == (i + j < pos || pages[i + j])
  }

  /** Bits below `s` have been cleared in `tmp`; the others are the word's own. */
  ghost predicate WordAfter(tmp: bv64, pages: seq<bool>, i: nat, s: nat) {
    && i + 64 <= |pages|
    && forall j :: 0 <= j < 64 ==> Bit(tmp, j) == (s <= i + j && pages[i + j])
  }

  lemma WordOf(words: seq<bv64>, k: nat, pos: nat)
    requires k < |words|
    ensures pos <= 64 * k ==> WordFrom(words[k], Pages(words), 64 * k, pos)
    ensures pos <= 64 * k ==> WordAfter(words[k], Pages(words), 64 * k, pos)
  {
    hide Bit;
    forall j | 0 <= j < 64
      ensures Bit(words[k], j) == Pages(words)[64 * k + j]
    {
      assert (64 * k + j) / 64 == k && (64 * k + j) % 64 == j;
    }
  }

  lemma FullWord(tmp: bv64, pages: seq<bool>, i: nat, pos: nat)
    requires tmp == ALL_ONES && WordFrom(tmp, pages, i, pos)
    ensures forall p :: i <= p < i + 64 ==> p < pos || pages[p]
  {
    hide Bit;
    ConstantWords();
    forall p | i <= p < i + 64 ensures p < pos || pages[p] {
      assert Bit(tmp, p - i);
    }
  }

  lemma EmptyWord(tmp: bv64, pages: seq<bool>, i: nat, s: nat)
    requires tmp == 0 && WordAfter(tmp, pages, i, s)
    ensures forall p :: s <= p && i <= p < i + 64 ==> !pages[p]
  {
    hide Bit;
    ConstantWords();
    forall p | s <= p && i <= p < i + 64 ensures !pages[p] {
      assert !Bit(tmp, p - i);
    }
  }

  // The word steps of the walk, by name.

  function CountOnes(tmp: bv64): nat {
    TrailingOnes(tmp) as int
  }

  function CountZeros(tmp: bv64): nat {
    TrailingZeros(tmp) as int
  }

  function ClearOnes(tmp: bv64): bv64 {
    tmp & (tmp + 1)
  }

  function FillZeros(tmp: bv64): bv64 {
    tmp | (tmp - 1)
  }

  /** The first zero bit starts a gap; clearing the ones below it keeps the word from there on. */
  lemma FirstZero(tmp: bv64, cleared: bv64, n: nat, pages: seq<bool>, i: nat, pos: nat)
    requires tmp != ALL_ONES && n == CountOnes(tmp) && cleared == ClearOnes(tmp)
    requires WordFrom(tmp, pages, i, pos) && i <= pos
    ensures n < 64 && pos <= i + n && !pages[i + n]
    ensures forall p :: pos <= p < i + n ==> pages[p]
    ensures WordAfter(cleared, pages, i, i + n)
  {
    hide Bit, TrailingOnes;
    Nts(tmp, cleared, n);
    forall p | pos <= p < i + n ensures pages[p] {
      assert Bit(tmp, p - i);
    }
  }

  /** The first one bit ends the gap; filling the zeros below it marks them as seen. */
  lemma FirstOne(tmp: bv64, filled: bv64, n: nat, pages: seq<bool>, i: nat, s: nat)
    requires tmp != 0 && n == CountZeros(tmp) && filled == FillZeros(tmp)
    requires WordAfter(tmp, pages, i, s)
    ensures n < 64 && s <= i + n && pages[i + n]
    ensures forall p :: s <= p && i <= p < i + n ==> !pages[p]
    ensures WordFrom(filled, pages, i, i + n)
  {
    hide Bit, TrailingZeros;
    Ntz(tmp, filled, n);
    forall p | s <= p && i <= p < i + n ensures !pages[p] {
      assert !Bit(tmp, p - i);
    }
  }

  /** No gap starts between `pos` and the gap at `s`, so only that gap was added. */
  lemma NextGap(pages: seq<bool>, pos: nat, s: nat, e: nat, s': int, e': int)
    requires Gap(pages, s, e) && pos <= s
    requires forall p :: pos <= p < s ==> pages[p]
    requires pos == 0 || pages[pos - 1] || (pos < |pages| && pages[pos])
    requires Gap(pages, s', e') && pos < e' <= e
    ensures s' == s && e' == e
  {
    assert !pages[e' - 1];
    assert s > 0 ==> pages[s - 1];
    assert s' > 0 ==> pages[s' - 1];
    assert e' < |pages| ==> pages[e'];
  }

  /** A gap of exactly `n` pages that does not reach the end of the chunk. */
  ghost predicate ExactInside(pages: seq<bool>, n: nat) {
    exists s, e :: Gap(pages, s, e) && e < |pages| && e - s == n
  }

  /**
   The new `free_tail`: moved only when the search ran into the free tail of the
   chunk, and then to the tail's start or past the pages taken from it.
   */
  ghost predicate TailMoved(pages: seq<bool>, n: nat, freeTail: nat, found: bool, page: nat, newTail: nat)
    requires 0 < |pages|
  {
    if pages[|pages| - 1] || ExactInside(pages, n) then newTail == freeTail
    else exists t :: Gap(pages, t, |pages|) && newTail == if found && page == t then t + n else t
  }

  lemma SeenMore(pages: seq<bool>, n: nat, pos: nat, s: nat, e: nat, best: int, bestLen: int)
    requires Seen(pages, n, pos, best, bestLen)
    requires Gap(pages, s, e) && pos <= s && e - s != n
    requires forall p :: pos <= p < s ==> pages[p]
    requires pos == 0 || pages[pos - 1] || (pos < |pages| && pages[pos])
    ensures n < e - s < bestLen && 0 < s ==> Seen(pages, n, e, s, e - s)
    ensures !(n < e - s < bestLen) && e - s < |pages| ==> Seen(pages, n, e, best, bestLen)
  {
    forall s', e' | Fits(pages, n, s', e') && pos < e' <= e
      ensures s' == s && e' == e
    {
      NextGap(pages, pos, s, e, s', e');
    }
  }

  /** After the last gap, what was seen is the best fit. */
  lemma SeenAll(pages: seq<bool>, n: nat, pos: nat, best: int, bestLen: int)
    requires Seen(pages, n, pos, best, bestLen) && 1 <= n
    requires forall s, e :: Fits(pages, n, s, e) ==> e <= pos
    ensures best > 0 ==> BestFit(pages, n, best, best + bestLen)
    ensures HasRoom(pages, n) <==> best > 0
  {
    RoomIsGap(pages, n);
    if best > 0 {
      assert Fits(pages, n, best, best + bestLen);
    }
  }

  /** The search state between two gaps: everything up to `pos` has been looked at. */
  ghost predicate Scan(pages: seq<bool>, n: nat, pos: nat, best: int, bestLen: int) {
    && pos <= |pages|
    && (pos == 0 || pages[pos - 1] || (pos < |pages| && pages[pos]))
    && Seen(pages, n, pos, best, bestLen)
    && forall s, e :: Gap(pages, s, e) && e <= pos ==> e - s != n
  }

  lemma SkipUsed(pages: seq<bool>, n: nat, pos: nat, next: nat, best: int, bestLen: int)
    requires Scan(pages, n, pos, best, bestLen)
    requires pos < next <= |pages| && forall p :: pos <= p < next ==> pages[p]
    ensures Scan(pages, n, next, best, bestLen)
  {
    forall s, e | Gap(pages, s, e) && e <= next
      ensures e <= pos
    {
      assert !pages[e - 1];
    }
  }

  lemma GapStart(pages: seq<bool>, n: nat, pos: nat, s: nat, best: int, bestLen: int)
    requires Scan(pages, n, pos, best, bestLen) && pos <= s < |pages| && !pages[s] && pages[0]
    requires forall p :: pos <= p < s ==> pages[p]
    ensures 0 < s && pages[s - 1]
  {
  }

  /** The walk ran over a free page at or above `freeTail - 1`: the rest of the chunk is free. */
  lemma TailExit(pages: seq<bool>, freeTail: nat, s: nat, i: nat)
    requires TailOk(pages, freeTail) && s < i <= |pages|
    requires forall p :: s <= p < i ==> !pages[p]
    requires freeTail <= i || i == |pages|
    requires 0 < s && pages[s - 1]
    ensures Gap(pages, s, |pages|)
  {
    forall p | s <= p < |pages| ensures !pages[p] {
      assert !pages[i - 1];
    }
  }

  lemma NoExactInside(pages: seq<bool>, n: nat, pos: nat, s: nat, best: int, bestLen: int)
    requires Scan(pages, n, pos, best, bestLen)
    requires Gap(pages, s, |pages|) && pos <= s && forall p :: pos <= p < s ==> pages[p]
    ensures !ExactInside(pages, n) && !pages[|pages| - 1]
    ensures forall s', e' :: Gap(pages, s', e') ==> e' <= pos || (s' == s && e' == |pages|)
  {
    forall s', e' | Gap(pages, s', e') && e' > pos
      ensures s' == s && e' == |pages|
    {
      NextGap(pages, pos, s, |pages|, s', e');
    }
  }

  /** The gap at the end of the chunk wins when it fits and is shorter than the best so far. */
  lemma TailChoice(pages: seq<bool>, n: nat, pos: nat, s: nat, best: int, bestLen: int)
    requires Scan(pages, n, pos, best, bestLen) && 1 <= n && 0 < s
    requires Gap(pages, s, |pages|) && pos <= s && forall p :: pos <= p < s ==> pages[p]
    ensures n <= |pages| - s < bestLen ==> BestFit(pages, n, s, |pages|) && HasRoom(pages, n)
    ensures !(n <= |pages| - s < bestLen) && best > 0 ==> BestFit(pages, n, best, best + bestLen) && best < s
    ensures !(n <= |pages| - s < bestLen) ==> (HasRoom(pages, n) <==> best > 0)
  {
    NoExactInside(pages, n, pos, s, best, bestLen);
    RoomIsGap(pages, n);
    if n <= |pages| - s < bestLen {
      assert Fits(pages, n, s, |pages|);
    } else if best > 0 {
      assert Fits(pages, n, best, best + bestLen);
    }
  }

  lemma ExactFit(pages: seq<bool>, n: nat, pos: nat, s: nat, e: nat, best: int, bestLen: int)
    requires Scan(pages, n, pos, best, bestLen) && 1 <= n
    requires Gap(pages, s, e) && pos <= s && e - s == n && e < |pages|
    requires forall p :: pos <= p < s ==> pages[p]
    ensures BestFit(pages, n, s, e) && HasRoom(pages, n) && ExactInside(pages, n)
  {
    RoomIsGap(pages, n);
    assert Fits(pages, n, s, e);
    forall s', e' | Fits(pages, n, s', e')
      ensures e - s < e' - s' || (e - s == e' - s' && s <= s')
    {
      if pos < e' <= e {
        NextGap(pages, pos, s, e, s', e');
      }
    }
  }

  lemma NoTail(pages: seq<bool>, n: nat, best: int, bestLen: int)
    requires Scan(pages, n, |pages|, best, bestLen) && 0 < |pages| && pages[|pages| - 1] && 1 <= n
    ensures best > 0 ==> BestFit(pages, n, best, best + bestLen)
    ensures HasRoom(pages, n) <==> best > 0
  {
    SeenAll(pages, n, |pages|, best, bestLen);
  }

  /** The three ways out when the walk reaches the free tail. */
  lemma TailDone(pages: seq<bool>, n: nat, freeTail: nat, pos: nat, s: nat, i: nat, best: int, bestLen: int)
    requires Scan(pages, n, pos, best, bestLen) && 1 <= n
    requires TailOk(pages, freeTail) && pos <= s < i <= |pages| && (freeTail <= i || i == |pages|)
    requires 0 < s && pages[s - 1]
    requires forall p :: s <= p < i ==> !pages[p]
    requires forall p :: pos <= p < s ==> pages[p]
    ensures n <= |pages| - s < bestLen ==>
              BestFit(pages, n, s, |pages|) && HasRoom(pages, n) && TailMoved(pages, n, freeTail, true, s, s + n)
    ensures !(n <= |pages| - s < bestLen) && best > 0 ==>
              BestFit(pages, n, best, best + bestLen) && HasRoom(pages, n)
                  && TailMoved(pages, n, freeTail, true, best, s)
    ensures !(n <= |pages| - s < bestLen) && best <= 0 ==>
              !HasRoom(pages, n) && TailMoved(pages, n, freeTail, false, 0, s)
  {
    TailExit(pages, freeTail, s, i);
    NoExactInside(pages, n, pos, s, best, bestLen);
    TailChoice(pages, n, pos, s, best, bestLen);
  }

  /** What one complete gap adds to the walk. */
  lemma GapDone(pages: seq<bool>, n: nat, pos: nat, s: nat, e: nat, best: int, bestLen: int)
    requires Scan(pages, n, pos, best, bestLen) && 1 <= n
    requires Gap(pages, s, e) && 0 < s && pos <= s && e < |pages|
    requires forall p :: pos <= p < s ==> pages[p]
    ensures e - s == n ==> BestFit(pages, n, s, e) && HasRoom(pages, n) && ExactInside(pages, n)
    ensures n < e - s < bestLen ==> Scan(pages, n, e, s, e - s)
    ensures e - s != n && !(n < e - s < bestLen) ==> Scan(pages, n, e, best, bestLen)
  {
    if e - s == n {
      ExactFit(pages, n, pos, s, e, best, bestLen);
    } else {
      NextScan(pages, n, pos, s, e, best, bestLen);
    }
  }

  lemma TailStays(pages: seq<bool>, n: nat, freeTail: nat, found: bool, page: nat)
    requires 0 < |pages| && (pages[|pages| - 1] || ExactInside(pages, n))
    ensures TailMoved(pages, n, freeTail, found, page, freeTail)
  {
  }

  lemma Start(pages: seq<bool>, n: nat)
    requires |pages| == 512
    ensures Scan(pages, n, 0, -1, 512)
  {
  }

  lemma NextScan(pages: seq<bool>, n: nat, pos: nat, s: nat, e: nat, best: int, bestLen: int)
    requires Scan(pages, n, pos, best, bestLen)
    requires Gap(pages, s, e) && 0 < s && pos <= s && e - s != n && e < |pages|
    requires forall p :: pos <= p < s ==> pages[p]
    ensures n < e - s < bestLen ==> Scan(pages, n, e, s, e - s)
    ensures !(n < e - s < bestLen) ==> Scan(pages, n, e, best, bestLen)
  {
    SeenMore(pages, n, pos, s, e, best, bestLen);
    forall s', e' | Gap(pages, s', e') && pos < e' <= e
      ensures s' == s && e' == e
    {
      NextGap(pages, pos, s, e, s', e');
    }
  }

  /** The walk between two gaps, with `tmp` the current word. */
  ghost predicate Between(pages: seq<bool>, n: nat, tmp: bv64, i: int, pos: nat, best: int, bestLen: int) {
    && |pages| == 512 && pages[0]
    && 0 <= i < 512 && i % 64 == 0 && i <= pos < i + 64
    && WordFrom(tmp, pages, i, pos)
    && Scan(pages, n, pos, best, bestLen)
  }

  /** The walk inside the gap that starts at `s`. */
  ghost predicate Inside(pages: seq<bool>, n: nat, tmp: bv64, i: int, pos: nat, s: nat, best: int, bestLen: int) {
    && |pages| == 512
    && 0 <= i < 512 && i % 64 == 0 && pos <= s < 512 && 0 < s
    && Scan(pages, n, pos, best, bestLen)
    && pages[s - 1] && !pages[s]
    && (forall p :: pos <= p < s ==> pages[p])
    && (forall p :: s <= p < i ==> !pages[p])
    && WordAfter(tmp, pages, i, s)
    && s < i + 64
  }

  lemma Begin(words: seq<bv64>, n: nat)
    requires |words| == 8 && Pages(words)[0]
    ensures Between(Pages(words), n, words[0], 0, 0, -1, 512)
  {
    hide Bit, Pages;
    WordOf(words, 0, 0);
  }

  lemma WalkUsed(words: seq<bv64>, n: nat, i: nat, pos: nat, best: int, bestLen: int)
    requires |words| == 8 && Between(Pages(words), n, ALL_ONES, i, pos, best, bestLen) && 1 <= n
    ensures pos < i + 64
    ensures i + 64 < 512 ==> Between(Pages(words), n, words[i / 64 + 1], i + 64, i + 64, best, bestLen)
    ensures i + 64 == 512 ==>
              && (best > 0 ==> HasRoom(Pages(words), n) && BestFit(Pages(words), n, best, best + bestLen))
              && (best <= 0 ==> !HasRoom(Pages(words), n))
              && Pages(words)[511]
  {
    hide Bit, Pages;
    FullWord(ALL_ONES, Pages(words), i, pos);
    SkipUsed(Pages(words), n, pos, i + 64, best, bestLen);
    if i + 64 < 512 {
      WordOf(words, i / 64 + 1, i + 64);
    } else {
      NoTail(Pages(words), n, best, bestLen);
    }
  }

  lemma OpenGap(pages: seq<bool>, n: nat, tmp: bv64, i: nat, pos: nat, best: int, bestLen: int)
    requires Between(pages, n, tmp, i, pos, best, bestLen) && tmp != ALL_ONES
    ensures Inside(pages, n, ClearOnes(tmp), i, pos, i + CountOnes(tmp), best, bestLen)
  {
    hide Bit, CountOnes, ClearOnes;
    FirstZero(tmp, ClearOnes(tmp), CountOnes(tmp), pages, i, pos);
    GapStart(pages, n, pos, i + CountOnes(tmp), best, bestLen);
  }

  lemma WalkFree(words: seq<bv64>, n: nat, i: nat, pos: nat, s: nat, best: int, bestLen: int)
    requires |words| == 8 && Inside(Pages(words), n, 0, i, pos, s, best, bestLen)
    ensures i + 64 < 512 ==> Inside(Pages(words), n, words[i / 64 + 1], i + 64, pos, s, best, bestLen)
  {
    hide Bit, Pages;
    EmptyWord(0, Pages(words), i, s);
    if i + 64 < 512 {
      WordOf(words, i / 64 + 1, s);
    }
  }

  lemma ReachTail(pages: seq<bool>, n: nat, freeTail: nat, i: nat, pos: nat, s: nat, best: int, bestLen: int)
    requires Inside(pages, n, 0, i, pos, s, best, bestLen) && 1 <= n
    requires TailOk(pages, freeTail) && (i + 64 >= freeTail || i + 64 == 512)
    ensures |pages| == 512 && s < 512
    ensures n <= 512 - s < bestLen ==>
              BestFit(pages, n, s, 512) && HasRoom(pages, n) && TailMoved(pages, n, freeTail, true, s, s + n)
    ensures !(n <= 512 - s < bestLen) && best > 0 ==>
              BestFit(pages, n, best, best + bestLen) && HasRoom(pages, n)
                  && TailMoved(pages, n, freeTail, true, best, s)
    ensures !(n <= 512 - s < bestLen) && best <= 0 ==>
              !HasRoom(pages, n) && TailMoved(pages, n, freeTail, false, 0, s)
  {
    hide Bit, BestFit, HasRoom, TailMoved, TailOk;
    EmptyWord(0, pages, i, s);
    TailDone(pages, n, freeTail, pos, s, i + 64, best, bestLen);
  }

  lemma CloseGap(pages: seq<bool>, n: nat, tmp: bv64, i: nat, pos: nat, s: nat, best: int, bestLen: int)
    requires Inside(pages, n, tmp, i, pos, s, best, bestLen) && tmp != 0 && pages[0] && 1 <= n
    ensures var e := i + CountZeros(tmp);
            && pos < e < 512 && s < e
            && (e - s == n ==> BestFit(pages, n, s, e) && HasRoom(pages, n) && ExactInside(pages, n))
            && (n < e - s < bestLen ==> Between(pages, n, FillZeros(tmp), i, e, s, e - s))
            && (e - s != n && !(n < e - s < bestLen) ==> Between(pages, n, FillZeros(tmp), i, e, best, bestLen))
  {
    hide Bit, CountZeros, FillZeros;
    var e := i + CountZeros(tmp);
    FirstOne(tmp, FillZeros(tmp), CountZeros(tmp), pages, i, s);
    assert s != e;
    GapDone(pages, n, pos, s, e, best, bestLen);
  }

  method Search(words: array<bv64>, freeTail: nat, n: nat)
    returns (found: bool, page: nat, newTail: nat, ghost gapEnd: int)
    requires words.Length == 8 && 1 <= n
    requires Pages(words[..])[0] && TailOk(Pages(words[..]), freeTail)
    ensures found <==> HasRoom(Pages(words[..]), n)
    ensures found ==> BestFit(Pages(words[..]), n, page, gapEnd)
    ensures TailMoved(Pages(words[..]), n, freeTail, found, page, newTail)
  {
    hide *;
    ghost var pages := Pages(words[..]);
    ghost var pos := 0;
    var best, bestLen := -1, 512;
    var i := 0;
    var tmp := words[0];
    Begin(words[..], n);
    while true
      invariant 0 <= i < 512 && i % 64 == 0 && pos < 512
      invariant Between(pages, n, tmp, i, pos, best, bestLen)
      decreases 512 - pos
    {
      ghost var start := pos;
      while tmp == ALL_ONES
        invariant 0 <= i < 512 && i % 64 == 0 && start <= pos < 512
        invariant Between(pages, n, tmp, i, pos, best, bestLen)
        decreases 512 - i
      {
        WalkUsed(words[..], n, i, pos, best, bestLen);
        i := i + 64;
        if i == 512 {
          found := best > 0;
          page := if best > 0 then best else 0;
          TailStays(pages, n, freeTail, found, page);
          return found, page, freeTail, best + bestLen;
        }
        pos := i;
        tmp := words[i / 64];
      }
      OpenGap(pages, n, tmp, i, pos, best, bestLen);
      page := i + CountOnes(tmp);
      tmp := ClearOnes(tmp);
      while tmp == 0
        invariant 0 <= i < 512 && i % 64 == 0
        invariant Inside(pages, n, tmp, i, pos, page, best, bestLen)
        decreases 512 - i
      {
        if i + 64 >= freeTail || i + 64 == 512 {
          ReachTail(pages, n, freeTail, i, pos, page, best, bestLen);
          var len := 512 - page;
          if len >= n && len < bestLen {
            return true, page, page + n, 512;
          } else if best > 0 {
            return true, best, page, best + bestLen;
          } else {
            return false, 0, page, 0;
          }
        }
        WalkFree(words[..], n, i, pos, page, best, bestLen);
        i := i + 64;
        tmp := words[i / 64];
      }
      CloseGap(pages, n, tmp, i, pos, page, best, bestLen);
      var len := i + CountZeros(tmp) - page;
      pos := page + len;
      if len >= n {
        if len == n {
          TailStays(pages, n, freeTail, true, page);
          return true, page, freeTail, page + len;
        } else if len < bestLen {
          bestLen, best := len, page;
        }
      }
      tmp := FillZeros(tmp);
    }
  }
}

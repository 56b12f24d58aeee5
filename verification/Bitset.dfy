/**
 The page bitset of a chunk: words of 64 bits, one bit for each page, set when
 the page is in use.  The range operations work on whole words with shifts and
 masks; here they are related to the plain sequence of pages they stand for.
 */
module Bitset {

  const ALL_ONES: bv64 := 0xffff_ffff_ffff_ffff

  predicate BitAt(w: bv64, i: bv7)
    requires i < 64
  {
    (w >> i) & 1 == 1
  }

  /** A bit number as a shift amount. */
  function Pos(i: nat): (b: bv7)
    requires i < 64
    ensures b < 64
  {
    i as bv7
  }

  predicate Bit(w: bv64, i: nat)
    requires i < 64
  {
    BitAt(w, Pos(i))
  }

  /** The pages a sequence of words stands for, lowest bit of the first word first. */
  function Pages(words: seq<bv64>): (pages: seq<bool>)
    ensures |pages| == 64 * |words|
  {
    seq(64 * |words|, p requires 0 <= p < 64 * |words| => Bit(words[p / 64], p % 64))
  }

  /** Elements `start` to `start + len` all get the value `v`; the rest stay. */
  function Filled<T>(s: seq<T>, start: nat, len: nat, v: T): (r: seq<T>)
    requires start + len <= |s|
    ensures |r| == |s|
    ensures forall p :: 0 <= p < |s| ==> r[p] == if start <= p < start + len then v else s[p]
  {
    seq(|s|, p requires 0 <= p < |s| => if start <= p < start + len then v else s[p])
  }

  predicate RangeFree(pages: seq<bool>, start: nat, len: nat)
    requires start + len <= |pages|
  {
    forall p :: start <= p < start + len ==> !pages[p]
  }

  // ------------------------------------------------------- single-bit facts

  lemma IntOrder(a: bv7, b: bv7)
    ensures a <= b <==> (a as int) <= (b as int)
    ensures a == b <==> (a as int) == (b as int)
  {
  }

  lemma LowPosInt(i: nat)
    requires i < 32
    ensures Pos(i) as int == i
  {
    var b := i as bv7;
    assert b as int == i;
  }

  lemma HighPosInt(i: nat)
    requires 32 <= i < 64
    ensures Pos(i) as int == i
  {
    var b := i as bv7;
    assert b as int == i;
  }

  lemma PosInt(i: nat)
    requires i < 64
    ensures Pos(i) as int == i
  {
    hide Pos;
    if i < 32 {
      LowPosInt(i);
    } else {
      HighPosInt(i);
    }
  }

  lemma PosOrder(i: nat, j: nat)
    requires i < 64 && j < 64
    ensures Pos(i) <= Pos(j) <==> i <= j
    ensures Pos(i) == Pos(j) <==> i == j
  {
    hide Pos;
    PosInt(i);
    PosInt(j);
    IntOrder(Pos(i), Pos(j));
  }

  lemma PosMirror(i: nat)
    requires i < 64
    ensures Pos(63 - i) == 63 - Pos(i)
  {
    hide Pos;
    PosInt(i);
    PosInt(63 - i);
    Mirror(Pos(i), Pos(63 - i));
  }

  lemma Mirror(a: bv7, b: bv7)
    requires a <= 63 && b as int == 63 - a as int
    ensures b == 63 - a
  {
  }

  lemma OrAt(a: bv64, b: bv64, r: bv64, i: bv7)
    requires i < 64 && r == a | b
    ensures BitAt(r, i) == (BitAt(a, i) || BitAt(b, i))
  {
  }

  lemma AndAt(a: bv64, b: bv64, r: bv64, i: bv7)
    requires i < 64 && r == a & b
    ensures BitAt(r, i) == (BitAt(a, i) && BitAt(b, i))
  {
  }

  lemma WithoutAt(a: bv64, b: bv64, r: bv64, i: bv7)
    requires i < 64 && r == a & !b
    ensures BitAt(r, i) == (BitAt(a, i) && !BitAt(b, i))
  {
  }

  lemma OnesFromAt(m: bv64, bit: bv7, i: bv7)
    requires bit < 64 && i < 64 && m == ALL_ONES << bit
    ensures BitAt(m, i) == (bit <= i)
  {
  }

  /** The two spellings of the mask of all bits from `bit` up. */
  lemma OnesFromSpellings(bit: bv7)
    requires bit < 64
    ensures !(((1 as bv64) << bit) - 1) == ALL_ONES << bit
  {
  }

  lemma OnesToAt(m: bv64, shift: bv7, i: bv7, mirror: bv7)
    requires shift < 64 && i < 64 && mirror == 63 - i
    requires m == ALL_ONES >> shift
    ensures BitAt(m, i) == (shift <= mirror)
  {
  }

  lemma OneAt(m: bv64, bit: bv7, i: bv7)
    requires bit < 64 && i < 64 && m == (1 as bv64) << bit
    ensures BitAt(m, i) == (i == bit)
  {
  }

  lemma ConstantsAt(i: bv7)
    requires i < 64
    ensures BitAt(ALL_ONES, i) && !BitAt(0, i)
  {
  }

  lemma MaskedAt(w: bv64, n: bv7, i: bv7, masked: bv64)
    requires i < 64 && n < 64
    requires masked == w & (0xffff_ffff_ffff_ffff << n)
    ensures BitAt(masked, i) == (BitAt(w, i) && n <= i)
  {
  }

  lemma NotAt(a: bv64, r: bv64, i: bv7)
    requires i < 64 && r == !a
    ensures BitAt(r, i) == !BitAt(a, i)
  {
  }

  lemma PaddedAt(w: bv64, n: bv7, i: bv7, padded: bv64)
    requires i < 64 && n < 64
    requires padded == w | !(0xffff_ffff_ffff_ffff << n)
    ensures BitAt(padded, i) == (BitAt(w, i) || i < n)
  {
    hide BitAt;
    var m: bv64 := 0xffff_ffff_ffff_ffff << n;
    OnesFromAt(m, n, i);
    NotAt(m, !m, i);
    OrAt(w, !m, padded, i);
  }

  // ------------------------------------------------- trailing ones and zeros

  /** One halving of the portable counts: when the low `k` bits equal `low`, skip them. */
  function Skip(n: bv7, b: bv64, k: bv7, mask: bv64, low: bv64): (bv7, bv64)
    requires k <= 32
  {
    if b & mask == low then (n + k, b >> k) else (n, b)
  }

  /** The portable branch of zend_mm_bitset_nts. */
  function TrailingOnes(bitset: bv64): (n: bv7)
  {
    if bitset == ALL_ONES then 64
    else
      var (n, b) := Skip(0, bitset, 32, 0xffff_ffff, 0xffff_ffff);
      var (n, b) := Skip(n, b, 16, 0xffff, 0xffff);
      var (n, b) := Skip(n, b, 8, 0xff, 0xff);
      var (n, b) := Skip(n, b, 4, 0xf, 0xf);
      var (n, b) := Skip(n, b, 2, 0x3, 0x3);
      n + (if b & 1 == 1 then 1 else 0)
  }

  /** The portable branch of zend_ulong_ntz. */
  function TrailingZeros(num: bv64): (n: bv7)
  {
    if num == 0 then 64
    else
      var (n, b) := Skip(1, num, 32, 0xffff_ffff, 0);
      var (n, b) := Skip(n, b, 16, 0xffff, 0);
      var (n, b) := Skip(n, b, 8, 0xff, 0);
      var (n, b) := Skip(n, b, 4, 0xf, 0);
      var (n, b) := Skip(n, b, 2, 0x3, 0);
      n - (if b & 1 == 1 then 1 else 0)
  }

  /** Bit `n` is clear and all below it are set. */
  predicate OnesEnd(w: bv64, n: bv7) {
    n < 64 && w | (0xffff_ffff_ffff_ffff << n) == 0xffff_ffff_ffff_ffff && (w >> n) & 1 == 0
  }

  /** Bit `n` is set and all below it are clear. */
  predicate ZerosEnd(w: bv64, n: bv7) {
    n < 64 && w & (0xffff_ffff_ffff_ffff << n) == w && (w >> n) & 1 == 1
  }

  lemma OnesExact(w: bv64)
    requires w != ALL_ONES
    ensures OnesEnd(w, TrailingOnes(w))
  {
  }

  lemma ZerosExact(w: bv64)
    requires w != 0
    ensures ZerosEnd(w, TrailingZeros(w))
  {
  }

  lemma OnesBelowEnd(w: bv64, n: bv7, i: bv7)
    requires i < 64 && OnesEnd(w, n)
    ensures i < n ==> BitAt(w, i)
    ensures i == n ==> !BitAt(w, i)
  {
  }

  lemma ZerosBelowEnd(w: bv64, n: bv7, i: bv7)
    requires i < 64 && ZerosEnd(w, n)
    ensures i < n ==> !BitAt(w, i)
    ensures i == n ==> BitAt(w, i)
  {
  }

  lemma ClearTrick(w: bv64, n: bv7)
    requires OnesEnd(w, n)
    ensures w & (w + 1) == w & (0xffff_ffff_ffff_ffff << n)
  {
  }

  lemma FillTrick(w: bv64, n: bv7)
    requires ZerosEnd(w, n)
    ensures w | (w - 1) == w | !(0xffff_ffff_ffff_ffff << n)
  {
  }

  lemma ClearAt(w: bv64, n: bv7, i: bv7)
    requires i < 64 && OnesEnd(w, n)
    ensures BitAt(w & (w + 1), i) == (BitAt(w, i) && n <= i)
  {
    ClearTrick(w, n);
    MaskedAt(w, n, i, w & (w + 1));
  }

  lemma FillAt(w: bv64, n: bv7, i: bv7)
    requires i < 64 && ZerosEnd(w, n)
    ensures BitAt(w | (w - 1), i) == (BitAt(w, i) || i < n)
  {
    FillTrick(w, n);
    PaddedAt(w, n, i, w | (w - 1));
  }

  lemma OnesAt(w: bv64, cleared: bv64, n: bv7, i: bv7)
    requires w != ALL_ONES && n == TrailingOnes(w) && cleared == w & (w + 1) && i < 64
    ensures n < 64
    ensures i < n ==> BitAt(w, i)
    ensures i == n ==> !BitAt(w, i)
    ensures BitAt(cleared, i) == (BitAt(w, i) && n <= i)
  {
    hide TrailingOnes;
    OnesExact(w);
    OnesBelowEnd(w, n, i);
    ClearAt(w, n, i);
  }

  lemma ZerosAt(w: bv64, filled: bv64, n: bv7, i: bv7)
    requires w != 0 && n == TrailingZeros(w) && filled == w | (w - 1) && i < 64
    ensures n < 64
    ensures i < n ==> !BitAt(w, i)
    ensures i == n ==> BitAt(w, i)
    ensures BitAt(filled, i) == (BitAt(w, i) || i < n)
  {
    hide TrailingZeros;
    ZerosExact(w);
    ZerosBelowEnd(w, n, i);
    FillAt(w, n, i);
  }

  lemma OnesAtBit(w: bv64, cleared: bv64, n: nat, i: nat)
    requires w != ALL_ONES && n == TrailingOnes(w) as int && cleared == w & (w + 1) && i < 64
    ensures n < 64
    ensures i < n ==> Bit(w, i)
    ensures i == n ==> !Bit(w, i)
    ensures Bit(cleared, i) == (Bit(w, i) && n <= i)
  {
    hide BitAt, TrailingOnes, Pos, ALL_ONES;
    var b := TrailingOnes(w);
    PosInt(i);
    IntOrder(b, 63);
    IntOrder(b, Pos(i));
    OnesAt(w, cleared, b, Pos(i));
  }

  /** The trailing-ones count is exact, and `w & (w + 1)` clears exactly those ones. */
  lemma Nts(w: bv64, cleared: bv64, n: nat)
    requires w != ALL_ONES && n == TrailingOnes(w) as int && cleared == w & (w + 1)
    ensures n < 64 && !Bit(w, n)
    ensures forall i :: 0 <= i < n ==> Bit(w, i)
    ensures forall i :: 0 <= i < 64 ==> Bit(cleared, i) == (Bit(w, i) && n <= i)
  {
    hide Bit, TrailingOnes, ALL_ONES;
    OnesAtBit(w, cleared, n, 0);
    OnesAtBit(w, cleared, n, n);
    forall i | 0 <= i < 64
      ensures i < n ==> Bit(w, i)
      ensures Bit(cleared, i) == (Bit(w, i) && n <= i)
    {
      OnesAtBit(w, cleared, n, i);
    }
  }

  lemma ZerosAtBit(w: bv64, filled: bv64, n: nat, i: nat)
    requires w != 0 && n == TrailingZeros(w) as int && filled == w | (w - 1) && i < 64
    ensures n < 64
    ensures i < n ==> !Bit(w, i)
    ensures i == n ==> Bit(w, i)
    ensures Bit(filled, i) == (Bit(w, i) || i < n)
  {
    hide BitAt, TrailingZeros, Pos;
    var b := TrailingZeros(w);
    PosInt(i);
    IntOrder(b, 63);
    IntOrder(b, Pos(i));
    ZerosAt(w, filled, b, Pos(i));
  }

  /** The trailing-zeros count is exact, and `w | (w - 1)` fills exactly those zeros. */
  lemma Ntz(w: bv64, filled: bv64, n: nat)
    requires w != 0 && n == TrailingZeros(w) as int && filled == w | (w - 1)
    ensures n < 64 && Bit(w, n)
    ensures forall i :: 0 <= i < n ==> !Bit(w, i)
    ensures forall i :: 0 <= i < 64 ==> Bit(filled, i) == (Bit(w, i) || i < n)
  {
    hide Bit, TrailingZeros;
    ZerosAtBit(w, filled, n, 0);
    ZerosAtBit(w, filled, n, n);
    forall i | 0 <= i < 64
      ensures i < n ==> !Bit(w, i)
      ensures Bit(filled, i) == (Bit(w, i) || i < n)
    {
      ZerosAtBit(w, filled, n, i);
    }
  }

  lemma ConstantWords()
    ensures forall i :: 0 <= i < 64 ==> Bit(ALL_ONES, i)
    ensures forall i :: 0 <= i < 64 ==> !Bit(0, i)
  {
    hide BitAt, Pos;
    forall i | 0 <= i < 64
      ensures Bit(ALL_ONES, i) && !Bit(0, i)
    {
      ConstantsAt(Pos(i));
    }
  }

  /** A word is zero exactly when all its bits are clear. */
  lemma ZeroWord(w: bv64)
    ensures w == 0 <==> forall i :: 0 <= i < 64 ==> !Bit(w, i)
  {
    hide Bit, TrailingZeros;
    ConstantWords();
    if w != 0 {
      Ntz(w, w | (w - 1), TrailingZeros(w) as int);
    }
  }

  // ------------------------------------------------------------------- masks

  /** The mask has exactly the bits from `lo` to `hi`. */
  ghost predicate Mask(m: bv64, lo: nat, hi: nat) {
    forall i :: 0 <= i < 64 ==> Bit(m, i) == (lo <= i <= hi)
  }

  lemma MaskOne(m: bv64, bit: nat)
    requires bit < 64 && m == (1 as bv64) << Pos(bit)
    ensures Mask(m, bit, bit)
  {
    hide BitAt, Pos;
    forall i | 0 <= i < 64
      ensures Bit(m, i) == (bit <= i <= bit)
    {
      PosOrder(bit, i);
      OneAt(m, Pos(bit), Pos(i));
    }
  }

  lemma MaskFrom(m: bv64, bit: nat)
    requires bit < 64
    requires m == ALL_ONES << Pos(bit) || m == !(((1 as bv64) << Pos(bit)) - 1)
    ensures Mask(m, bit, 63)
  {
    hide BitAt, Pos;
    OnesFromSpellings(Pos(bit));
    forall i | 0 <= i < 64
      ensures Bit(m, i) == (bit <= i <= 63)
    {
      PosOrder(bit, i);
      OnesFromAt(m, Pos(bit), Pos(i));
    }
  }

  lemma MaskTo(m: bv64, end: nat)
    requires end < 64 && m == ALL_ONES >> Pos(63 - end)
    ensures Mask(m, 0, end)
  {
    hide BitAt, Pos;
    forall i | 0 <= i < 64
      ensures Bit(m, i) == (0 <= i <= end)
    {
      PosMirror(i);
      PosOrder(63 - end, 63 - i);
      OnesToAt(m, Pos(63 - end), Pos(i), Pos(63 - i));
    }
  }

  lemma MaskBoth(a: bv64, b: bv64, m: bv64, lo: nat, hi: nat)
    requires Mask(a, lo, 63) && Mask(b, 0, hi) && m == a & b
    ensures Mask(m, lo, hi)
  {
    hide BitAt, Pos;
    forall i | 0 <= i < 64
      ensures Bit(m, i) == (lo <= i <= hi)
    {
      assert Bit(a, i) == (lo <= i) && Bit(b, i) == (i <= hi);
      AndAt(a, b, m, Pos(i));
    }
  }

  lemma AddMask(w: bv64, m: bv64, lo: nat, hi: nat, r: bv64)
    requires Mask(m, lo, hi) && r == w | m
    ensures forall i :: 0 <= i < 64 ==> Bit(r, i) == (Bit(w, i) || lo <= i <= hi)
  {
    hide BitAt, Pos;
    forall i | 0 <= i < 64
      ensures Bit(r, i) == (Bit(w, i) || lo <= i <= hi)
    {
      assert Bit(m, i) == (lo <= i <= hi);
      OrAt(w, m, r, Pos(i));
    }
  }

  lemma RemoveMask(w: bv64, m: bv64, lo: nat, hi: nat, r: bv64)
    requires Mask(m, lo, hi) && r == w & !m
    ensures forall i :: 0 <= i < 64 ==> Bit(r, i) == (Bit(w, i) && !(lo <= i <= hi))
  {
    hide BitAt, Pos;
    forall i | 0 <= i < 64
      ensures Bit(r, i) == (Bit(w, i) && !(lo <= i <= hi))
    {
      assert Bit(m, i) == (lo <= i <= hi);
      WithoutAt(w, m, r, Pos(i));
    }
  }

  lemma TestMask(w: bv64, m: bv64, lo: nat, hi: nat, common: bv64)
    requires Mask(m, lo, hi) && common == w & m
    ensures common == 0 <==> forall i :: 0 <= i < 64 && lo <= i <= hi ==> !Bit(w, i)
  {
    hide BitAt, Pos;
    forall i | 0 <= i < 64
      ensures Bit(common, i) == (Bit(w, i) && lo <= i <= hi)
    {
      assert Bit(m, i) == (lo <= i <= hi);
      AndAt(w, m, common, Pos(i));
    }
    ZeroWord(common);
  }

  // -------------------------------------------------------- range operations

  /** Word `k` after the range has been filled with `v`. */
  ghost predicate WordFilled(before: bv64, after: bv64, k: nat, start: nat, len: nat, v: bool) {
    forall i :: 0 <= i < 64 ==> Bit(after, i) == if start <= 64 * k + i < start + len then v else Bit(before, i)
  }

  /** A word changed from bit `lo` to bit `hi`, which is where the range meets it. */
  lemma WordRange(before: bv64, after: bv64, k: nat, start: nat, len: nat, v: bool, lo: int, hi: int)
    requires forall i :: 0 <= i < 64 ==> Bit(after, i) == if lo <= i <= hi then v else Bit(before, i)
    requires 1 <= len && lo == (if k == start / 64 then start % 64 else 0) && start / 64 <= k <= (start + len - 1) / 64
    requires hi == if k == (start + len - 1) / 64 then (start + len - 1) % 64 else 63
    ensures WordFilled(before, after, k, start, len, v)
  {
    hide Bit;
  }

  lemma OtherWords(words: seq<bv64>, start: nat, len: nat, v: bool)
    requires 1 <= len
    ensures forall k :: 0 <= k < |words| && (k < start / 64 || (start + len - 1) / 64 < k) ==>
              WordFilled(words[k], words[k], k, start, len, v)
  {
    hide Bit;
  }

  lemma AllWordsFilled(before: seq<bv64>, after: seq<bv64>, start: nat, len: nat, v: bool)
    requires |before| == |after| && start + len <= 64 * |before|
    requires forall k :: 0 <= k < |before| ==> WordFilled(before[k], after[k], k, start, len, v)
    ensures Pages(after) == Filled(Pages(before), start, len, v)
  {
    hide Bit;
    forall p | 0 <= p < 64 * |before|
      ensures Pages(after)[p] == Filled(Pages(before), start, len, v)[p]
    {
      var k, i := p / 64, p % 64;
      assert WordFilled(before[k], after[k], k, start, len, v);
    }
  }

  ghost predicate WordFree(w: bv64, k: nat, start: nat, len: nat) {
    forall i :: 0 <= i < 64 && start <= 64 * k + i < start + len ==> !Bit(w, i)
  }

  lemma AllWordsFree(words: seq<bv64>, start: nat, len: nat)
    requires start + len <= 64 * |words|
    ensures RangeFree(Pages(words), start, len) <==>
            forall k :: 0 <= k < |words| ==> WordFree(words[k], k, start, len)
  {
    hide Bit;
    if RangeFree(Pages(words), start, len) {
      forall k | 0 <= k < |words| ensures WordFree(words[k], k, start, len) {
        forall i | 0 <= i < 64 && start <= 64 * k + i < start + len ensures !Bit(words[k], i) {
          assert (64 * k + i) / 64 == k && (64 * k + i) % 64 == i;
          assert !Pages(words)[64 * k + i];
        }
      }
    }
    if forall k :: 0 <= k < |words| ==> WordFree(words[k], k, start, len) {
      forall p | start <= p < start + len ensures !Pages(words)[p] {
        var k, i := p / 64, p % 64;
        assert WordFree(words[k], k, start, len);
      }
    }
  }

  method IsSet(bitset: array<bv64>, bit: nat) returns (set_: bool)
    requires bit < 64 * bitset.Length
    ensures set_ == Pages(bitset[..])[bit]
  {
    hide BitAt, Pos;
    var m := (1 as bv64) << Pos(bit % 64);
    var common := bitset[bit / 64] & m;
    set_ := common != 0;
    MaskOne(m, bit % 64);
    TestMask(bitset[bit / 64], m, bit % 64, bit % 64, common);
  }

  method SetBit(bitset: array<bv64>, bit: nat)
    requires bit < 64 * bitset.Length
    modifies bitset
    ensures Pages(bitset[..]) == Filled(old(Pages(bitset[..])), bit, 1, true)
  {
    hide Bit, Pos, Pages, Filled;
    var m := (1 as bv64) << Pos(bit % 64);
    var w := bitset[bit / 64];
    MaskOne(m, bit % 64);
    AddMask(w, m, bit % 64, bit % 64, w | m);
    bitset[bit / 64] := w | m;
    AllWordsFilled(old(bitset[..]), bitset[..], bit, 1, true);
  }

  method ResetBit(bitset: array<bv64>, bit: nat)
    requires bit < 64 * bitset.Length
    modifies bitset
    ensures Pages(bitset[..]) == Filled(old(Pages(bitset[..])), bit, 1, false)
  {
    hide Bit, Pos, Pages, Filled;
    var m := (1 as bv64) << Pos(bit % 64);
    var w := bitset[bit / 64];
    MaskOne(m, bit % 64);
    RemoveMask(w, m, bit % 64, bit % 64, w & !m);
    bitset[bit / 64] := w & !m;
    AllWordsFilled(old(bitset[..]), bitset[..], bit, 1, false);
  }

  // The pieces a range operation applies to one word.

  function SetFrom(w: bv64, bit: nat): (r: bv64)
    requires bit < 64
    ensures forall i :: 0 <= i < 64 ==> Bit(r, i) == (Bit(w, i) || bit <= i)
  {
    hide Bit, Pos;
    var tmp := ALL_ONES << Pos(bit);
    MaskFrom(tmp, bit);
    AddMask(w, tmp, bit, 63, w | tmp);
    w | tmp
  }

  function SetTo(w: bv64, end: nat): (r: bv64)
    requires end < 64
    ensures forall i :: 0 <= i < 64 ==> Bit(r, i) == (Bit(w, i) || i <= end)
  {
    hide Bit, Pos;
    var tmp := ALL_ONES >> Pos(63 - end);
    MaskTo(tmp, end);
    AddMask(w, tmp, 0, end, w | tmp);
    w | tmp
  }

  function SetBetween(w: bv64, bit: nat, end: nat): (r: bv64)
    requires bit < 64 && end < 64
    ensures forall i :: 0 <= i < 64 ==> Bit(r, i) == (Bit(w, i) || bit <= i <= end)
  {
    hide Bit, Pos;
    var tmp := Between(bit, end);
    AddMask(w, tmp, bit, end, w | tmp);
    w | tmp
  }

  function ResetFrom(w: bv64, bit: nat): (r: bv64)
    requires bit < 64
    ensures forall i :: 0 <= i < 64 ==> Bit(r, i) == (Bit(w, i) && i < bit)
  {
    hide Bit, Pos;
    var tmp := !(((1 as bv64) << Pos(bit)) - 1);
    MaskFrom(tmp, bit);
    RemoveMask(w, tmp, bit, 63, w & !tmp);
    w & !tmp
  }

  function ResetTo(w: bv64, end: nat): (r: bv64)
    requires end < 64
    ensures forall i :: 0 <= i < 64 ==> Bit(r, i) == (Bit(w, i) && end < i)
  {
    hide Bit, Pos;
    var tmp := ALL_ONES >> Pos(63 - end);
    MaskTo(tmp, end);
    RemoveMask(w, tmp, 0, end, w & !tmp);
    w & !tmp
  }

  function ResetBetween(w: bv64, bit: nat, end: nat): (r: bv64)
    requires bit < 64 && end < 64
    ensures forall i :: 0 <= i < 64 ==> Bit(r, i) == (Bit(w, i) && !(bit <= i <= end))
  {
    hide Bit, Pos;
    var tmp := Between(bit, end);
    RemoveMask(w, tmp, bit, end, w & !tmp);
    w & !tmp
  }

  predicate FreeFrom(w: bv64, bit: nat)
    requires bit < 64
    ensures FreeFrom(w, bit) <==> forall i :: bit <= i < 64 ==> !Bit(w, i)
  {
    hide Bit, Pos;
    var tmp := ALL_ONES << Pos(bit);
    MaskFrom(tmp, bit);
    TestMask(w, tmp, bit, 63, w & tmp);
    w & tmp == 0
  }

  predicate FreeTo(w: bv64, end: nat)
    requires end < 64
    ensures FreeTo(w, end) <==> forall i :: 0 <= i <= end ==> !Bit(w, i)
  {
    hide Bit, Pos;
    var tmp := ALL_ONES >> Pos(63 - end);
    MaskTo(tmp, end);
    TestMask(w, tmp, 0, end, w & tmp);
    w & tmp == 0
  }

  predicate FreeBetween(w: bv64, bit: nat, end: nat)
    requires bit < 64 && end < 64
    ensures FreeBetween(w, bit, end) <==> forall i :: bit <= i <= end ==> !Bit(w, i)
  {
    hide Bit, Pos;
    var tmp := Between(bit, end);
    TestMask(w, tmp, bit, end, w & tmp);
    w & tmp == 0
  }

  function Between(bit: nat, end: nat): (m: bv64)
    requires bit < 64 && end < 64
    ensures Mask(m, bit, end)
  {
    hide Bit, Pos;
    var from, upto := ALL_ONES << Pos(bit), ALL_ONES >> Pos(63 - end);
    MaskFrom(from, bit);
    MaskTo(upto, end);
    MaskBoth(from, upto, from & upto, bit, end);
    from & upto
  }

  // The range operations themselves.

  method SetRange(bitset: array<bv64>, start: nat, len: nat)
    requires 1 <= len && start + len <= 64 * bitset.Length
    modifies bitset
    ensures Pages(bitset[..]) == Filled(old(Pages(bitset[..])), start, len, true)
  {
    hide Bit, Pages, Filled, SetFrom, SetTo, SetBetween, WordFilled;
    if len == 1 {
      SetBit(bitset, start);
      return;
    }
    ghost var was := bitset[..];
    OtherWords(was, start, len, true);
    var pos := start / 64;
    var end := (start + len - 1) / 64;
    var last := (start + len - 1) % 64;
    if pos != end {
      bitset[pos] := SetFrom(bitset[pos], start % 64);
      WordRange(was[pos], bitset[pos], pos, start, len, true, start % 64, 63);
      pos := pos + 1;
      ConstantWords();
      while pos != end
        invariant start / 64 < pos <= end
        invariant forall k :: 0 <= k < pos ==> WordFilled(was[k], bitset[k], k, start, len, true)
        invariant forall k :: pos <= k < bitset.Length ==> bitset[k] == was[k]
      {
        bitset[pos] := ALL_ONES;
        WordRange(was[pos], bitset[pos], pos, start, len, true, 0, 63);
        pos := pos + 1;
      }
      bitset[pos] := SetTo(bitset[pos], last);
      WordRange(was[pos], bitset[pos], pos, start, len, true, 0, last);
    } else {
      bitset[pos] := SetBetween(bitset[pos], start % 64, last);
      WordRange(was[pos], bitset[pos], pos, start, len, true, start % 64, last);
    }
    AllWordsFilled(was, bitset[..], start, len, true);
  }

  method ResetRange(bitset: array<bv64>, start: nat, len: nat)
    requires 1 <= len && start + len <= 64 * bitset.Length
    modifies bitset
    ensures Pages(bitset[..]) == Filled(old(Pages(bitset[..])), start, len, false)
  {
    hide Bit, Pages, Filled, ResetFrom, ResetTo, ResetBetween, WordFilled;
    if len == 1 {
      ResetBit(bitset, start);
      return;
    }
    ghost var was := bitset[..];
    OtherWords(was, start, len, false);
    var pos := start / 64;
    var end := (start + len - 1) / 64;
    var last := (start + len - 1) % 64;
    if pos != end {
      bitset[pos] := ResetFrom(bitset[pos], start % 64);
      WordRange(was[pos], bitset[pos], pos, start, len, false, start % 64, 63);
      pos := pos + 1;
      ConstantWords();
      while pos != end
        invariant start / 64 < pos <= end
        invariant forall k :: 0 <= k < pos ==> WordFilled(was[k], bitset[k], k, start, len, false)
        invariant forall k :: pos <= k < bitset.Length ==> bitset[k] == was[k]
      {
        bitset[pos] := 0;
        WordRange(was[pos], bitset[pos], pos, start, len, false, 0, 63);
        pos := pos + 1;
      }
      bitset[pos] := ResetTo(bitset[pos], last);
      WordRange(was[pos], bitset[pos], pos, start, len, false, 0, last);
    } else {
      bitset[pos] := ResetBetween(bitset[pos], start % 64, last);
      WordRange(was[pos], bitset[pos], pos, start, len, false, start % 64, last);
    }
    AllWordsFilled(was, bitset[..], start, len, false);
  }

  method IsFreeRange(bitset: array<bv64>, start: nat, len: nat) returns (free: bool)
    requires 1 <= len && start + len <= 64 * bitset.Length
    ensures free == RangeFree(Pages(bitset[..]), start, len)
  {
    hide Bit, Pages, FreeFrom, FreeTo, FreeBetween;
    if len == 1 {
      var isSet := IsSet(bitset, start);
      return !isSet;
    }
    AllWordsFree(bitset[..], start, len);
    var pos := start / 64;
    var end := (start + len - 1) / 64;
    var last := (start + len - 1) % 64;
    if pos != end {
      if !FreeFrom(bitset[pos], start % 64) {
        assert !WordFree(bitset[pos], pos, start, len);
        return false;
      }
      pos := pos + 1;
      while pos != end
        invariant start / 64 < pos <= end
        invariant forall k :: 0 <= k < pos ==> WordFree(bitset[k], k, start, len)
      {
        ZeroWord(bitset[pos]);
        if bitset[pos] != 0 {
          assert !WordFree(bitset[pos], pos, start, len);
          return false;
        }
        pos := pos + 1;
      }
      free := FreeTo(bitset[pos], last);
    } else {
      free := FreeBetween(bitset[pos], start % 64, last);
    }
    assert free <==> WordFree(bitset[pos], pos, start, len);
  }
}

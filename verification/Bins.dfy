/**
 The size classes of small blocks and the bit arithmetic that picks one.
 */
module Bins {

  const PAGE_SIZE: nat := 4096
  const PAGES: nat := 512
  const FIRST_PAGE: nat := 1
  const CHUNK_SIZE: nat := 2097152
  const MAX_SMALL_SIZE: nat := 3072
  const MAX_LARGE_SIZE: nat := 2093056
  const BINS: nat := 30

  const BIN_DATA_SIZE: seq<nat> :=
    [8, 16, 24, 32, 40, 48, 56, 64, 80, 96, 112, 128, 160, 192, 224, 256, 320, 384, 448, 512,
     640, 768, 896, 1024, 1280, 1536, 1792, 2048, 2560, 3072]

  const BIN_ELEMENTS: seq<nat> :=
    [512, 256, 170, 128, 102, 85, 73, 64, 51, 42, 36, 32, 25, 21, 18, 16, 64, 32, 9, 8,
     32, 16, 9, 8, 16, 8, 16, 8, 8, 4]

  const BIN_PAGES: seq<nat> :=
    [1, 1, 1, 1, 1, 1, 1, 1, 1, 1, 1, 1, 1, 1, 1, 1, 5, 3, 1, 1, 5, 3, 2, 2, 5, 3, 7, 4, 5, 3]

  function BinSize(b: nat): nat
    requires b < BINS
  {
    BIN_DATA_SIZE[b]
  }

  function BinElements(b: nat): nat
    requires b < BINS
  {
    BIN_ELEMENTS[b]
  }

  function BinPages(b: nat): nat
    requires b < BINS
  {
    BIN_PAGES[b]
  }

  /** What the other modules need of the table; the slots of a run fit its pages. */
  lemma BinFacts(b: nat)
    requires b < BINS
    ensures 8 <= BinSize(b) <= MAX_SMALL_SIZE && BinSize(b) % 8 == 0
    ensures 4 <= BinElements(b) <= 512 && (BinElements(b) == 512 <==> b == 0)
    ensures 1 <= BinPages(b) <= 7
    ensures BinElements(b) * BinSize(b) <= BinPages(b) * PAGE_SIZE
    ensures 0 < b ==> BinSize(b - 1) < BinSize(b)
  {
    assert b == 0 || b == 1 || b == 2 || b == 3 || b == 4 || b == 5 || b == 6 || b == 7 || b == 8 || b == 9
        || b == 10 || b == 11 || b == 12 || b == 13 || b == 14 || b == 15 || b == 16 || b == 17 || b == 18 || b == 19
        || b == 20 || b == 21 || b == 22 || b == 23 || b == 24 || b == 25 || b == 26 || b == 27 || b == 28 || b == 29;
  }

  /** No further slot fits the pages of a run, and the largest slots are those of the largest small size. */
  lemma RunsFull(b: nat)
    requires b < BINS
    ensures BinPages(b) * PAGE_SIZE < (BinElements(b) + 1) * BinSize(b)
    ensures BinSize(0) == 8 && BinSize(BINS - 1) == MAX_SMALL_SIZE
  {
    assert b == 0 || b == 1 || b == 2 || b == 3 || b == 4 || b == 5 || b == 6 || b == 7 || b == 8 || b == 9
        || b == 10 || b == 11 || b == 12 || b == 13 || b == 14 || b == 15 || b == 16 || b == 17 || b == 18 || b == 19
        || b == 20 || b == 21 || b == 22 || b == 23 || b == 24 || b == 25 || b == 26 || b == 27 || b == 28 || b == 29;
  }

  lemma {:induction false} BinSizeOrder(b: nat, c: nat)
    requires b < c < BINS
    ensures BinSize(b) < BinSize(c)
    decreases c
  {
    hide BinSize;
    BinFacts(c);
    if b < c - 1 {
      BinSizeOrder(b, c - 1);
    }
  }

  lemma BinSizeInjective(b: nat, c: nat)
    requires b < BINS && c < BINS && BinSize(b) == BinSize(c)
    ensures b == c
  {
    hide BinSize;
    if b < c {
      BinSizeOrder(b, c);
    } else if c < b {
      BinSizeOrder(c, b);
    }
  }

  /** The portable branch of zend_mm_small_size_to_bit. */
  function SizeToBit(size: nat): (n: int) {
    var (n, s) := if size <= 0x00ff then (8, size * 256) else (16, size);
    var (n, s) := if s <= 0x0fff then (n - 4, s * 16) else (n, s);
    var (n, s) := if s <= 0x3fff then (n - 2, s * 4) else (n, s);
    if s <= 0x7fff then n - 1 else n
  }

  function Pow2(n: nat): (p: nat)
    ensures 1 <= p
  {
    if n == 0 then 1 else 2 * Pow2(n - 1)
  }

  /** zend_mm_small_size_to_bin; shifts by `t2` are written as division by a power of two. */
  function SizeToBin(size: nat): (b: nat)
    requires size <= MAX_SMALL_SIZE
  {
    if size <= 64 then (size - (if size == 0 then 0 else 1)) / 8
    else
      var t1 := size - 1;
      var t2 := SizeToBit(t1) - 3;
      HighBit(t1);
      t1 / Pow2(t2) + (t2 - 3) * 4
  }

  /** The position of the highest set bit, counted from one. */
  lemma HighBit(t: nat)
    requires 64 <= t < 4096
    ensures 7 <= SizeToBit(t) <= 12
    ensures SizeToBit(t) == if t < 128 then 7 else if t < 256 then 8 else if t < 512 then 9
                            else if t < 1024 then 10 else if t < 2048 then 11 else 12
  {
  }

  lemma Powers()
    ensures Pow2(4) == 16 && Pow2(5) == 32 && Pow2(6) == 64 && Pow2(7) == 128 && Pow2(8) == 256 && Pow2(9) == 512
  {
    assert Pow2(4) == 16;
    assert Pow2(7) == 128;
  }

  /** One of the six ranges above 64: `d` is the distance between its four sizes. */
  lemma BinInRange(size: nat, d: nat, base: nat)
    requires (d == 16 && base == 4) || (d == 32 && base == 8) || (d == 64 && base == 12)
          || (d == 128 && base == 16) || (d == 256 && base == 20) || (d == 512 && base == 24)
    requires 4 * d < size <= 8 * d && size <= MAX_SMALL_SIZE
    ensures (size - 1) / d + base < BINS
    ensures BinSize((size - 1) / d + base - 1) < size <= BinSize((size - 1) / d + base)
  {
    var q := (size - 1) / d;
    DivBounds(size - 1, d, 4, 7);
    assert q == 4 || q == 5 || q == 6 || q == 7;
  }

  lemma DivBounds(n: nat, d: nat, lo: nat, hi: nat)
    requires 0 < d && lo * d <= n < (hi + 1) * d
    ensures lo <= n / d <= hi
    ensures n / d * d <= n < n / d * d + d
  {
    var q := n / d;
    assert n == q * d + n % d;
    assert q < lo ==> (q + 1) * d <= lo * d;
    assert q > hi ==> q * d >= (hi + 1) * d;
  }

  lemma SizeToBinRange(size: nat)
    requires 64 < size <= MAX_SMALL_SIZE
    ensures SizeToBin(size) == if size <= 128 then (size - 1) / 16 + 4
                               else if size <= 256 then (size - 1) / 32 + 8
                               else if size <= 512 then (size - 1) / 64 + 12
                               else if size <= 1024 then (size - 1) / 128 + 16
                               else if size <= 2048 then (size - 1) / 256 + 20
                               else (size - 1) / 512 + 24
  {
    hide SizeToBit;
    HighBit(size - 1);
    Powers();
  }

  /** The chosen bin is the smallest whose slots hold `size` bytes. */
  lemma SizeToBinTight(size: nat)
    requires size <= MAX_SMALL_SIZE
    ensures SizeToBin(size) < BINS
    ensures size <= BinSize(SizeToBin(size))
    ensures 0 < SizeToBin(size) ==> BinSize(SizeToBin(size) - 1) < size
  {
    hide SizeToBin, BinSize;
    if size > 64 {
      SizeToBinRange(size);
      if size <= 128 {
        BinInRange(size, 16, 4);
      } else if size <= 256 {
        BinInRange(size, 32, 8);
      } else if size <= 512 {
        BinInRange(size, 64, 12);
      } else if size <= 1024 {
        BinInRange(size, 128, 16);
      } else if size <= 2048 {
        BinInRange(size, 256, 20);
      } else {
        BinInRange(size, 512, 24);
      }
    } else {
      SmallestBins(size);
    }
  }

  lemma SmallestBins(size: nat)
    requires size <= 64
    ensures SizeToBin(size) < BINS
    ensures size <= BinSize(SizeToBin(size))
    ensures 0 < SizeToBin(size) ==> BinSize(SizeToBin(size) - 1) < size
  {
    var q := SizeToBin(size);
    assert q == 0 || q == 1 || q == 2 || q == 3 || q == 4 || q == 5 || q == 6 || q == 7;
  }
}

/**
 The 32-bit page map entries.  The rest of the model uses the datatype; this
 module relates it to the packed words, including what the 9-bit counter
 field does to the one count that does not fit.
 */
module PageInfo {

  datatype Info =
    | Frun
    | Lrun(pages: nat)
    | Srun(bin: nat, counter: nat)
    | Nrun(bin: nat, offset: nat)

  const IS_LRUN: bv32 := 0x4000_0000
  const IS_SRUN: bv32 := 0x8000_0000

  /** A small number as a field of the packed word. */
  function Field(n: nat): bv32
    requires n < 1024
  {
    Narrow(n) as bv32
  }

  /** The ten-bit form of a number, by counting up. */
  function Narrow(n: nat): (b: bv10)
    requires n < 1024
    ensures b as int == n
  {
    if n == 0 then 0 else Increment(Narrow(n - 1)); Narrow(n - 1) + 1
  }

  lemma Increment(b: bv10)
    requires b as int < 1023
    ensures (b + 1) as int == b as int + 1
  {
  }

  function FieldValue(w: bv32): nat
    requires w < 1024
  {
    (w as bv10) as nat
  }

  function PackLrun(pages: bv32): bv32 {
    IS_LRUN | pages
  }

  function PackSrunEx(bin: bv32, count: bv32): bv32 {
    IS_SRUN | bin | (count << 16)
  }

  function PackNrun(bin: bv32, offset: bv32): bv32 {
    IS_SRUN | IS_LRUN | bin | (offset << 16)
  }

  function LrunPages(info: bv32): bv32 {
    info & 0x0000_03ff
  }

  function SrunBinNum(info: bv32): bv32 {
    info & 0x0000_001f
  }

  function SrunFreeCounter(info: bv32): bv32 {
    (info & 0x01ff_0000) >> 16
  }

  /** What the readers of the page map make of a packed word. */
  function Decode(info: bv32): Info {
    if info & IS_SRUN != 0 then
      if info & IS_LRUN != 0 then Nrun(FieldValue(SrunBinNum(info)), FieldValue(SrunFreeCounter(info)))
      else Srun(FieldValue(SrunBinNum(info)), FieldValue(SrunFreeCounter(info)))
    else if info & IS_LRUN != 0 then Lrun(FieldValue(LrunPages(info)))
    else Frun
  }

  /** SRUN_EX as the readers see it: a count of 512 loses its top bit and reads as zero. */
  function SrunEx(bin: nat, count: nat): Info {
    Srun(bin, count % 512)
  }

  lemma Widen(b: bv10)
    ensures (b as bv32) < 1024 && (b as bv32) as bv10 == b
  {
  }

  lemma WidenOrder(a: bv10, b: bv10)
    ensures (a as bv32) <= (b as bv32) <==> (a as int) <= (b as int)
  {
  }

  lemma FieldRound(n: nat)
    requires n < 1024
    ensures Field(n) < 1024 && FieldValue(Field(n)) == n
  {
    hide Narrow;
    Widen(Narrow(n));
  }

  lemma LrunBits(pages: bv32)
    requires pages < 1024
    ensures PackLrun(pages) & IS_SRUN == 0 && PackLrun(pages) & IS_LRUN != 0
    ensures LrunPages(PackLrun(pages)) == pages
  {
  }

  lemma SrunBits(bin: bv32, count: bv32)
    requires bin < 32 && count <= 512
    ensures PackSrunEx(bin, count) & IS_SRUN != 0 && PackSrunEx(bin, count) & IS_LRUN == 0
    ensures SrunBinNum(PackSrunEx(bin, count)) == bin
    ensures SrunFreeCounter(PackSrunEx(bin, count)) == if count == 512 then 0 else count
  {
  }

  lemma NrunBits(bin: bv32, offset: bv32)
    requires bin < 32 && offset < 512
    ensures PackNrun(bin, offset) & IS_SRUN != 0 && PackNrun(bin, offset) & IS_LRUN != 0
    ensures SrunBinNum(PackNrun(bin, offset)) == bin
    ensures SrunFreeCounter(PackNrun(bin, offset)) == offset
  {
  }

  lemma FieldBound(n: nat, bound: nat)
    requires n < 1024 && bound < 1024
    ensures Field(n) <= Field(bound) <==> n <= bound
  {
    hide Narrow;
    WidenOrder(Narrow(n), Narrow(bound));
  }

  lemma LrunRoundTrip(pages: nat)
    requires pages <= 512
    ensures Decode(PackLrun(Field(pages))) == Lrun(pages)
  {
    hide Field, FieldValue, LrunPages, PackLrun;
    FieldRound(pages);
    LrunBits(Field(pages));
  }

  /** Reading back a run's bin and counter: exact, except that a count of 512 reads as zero. */
  lemma SrunRoundTrip(bin: nat, count: nat)
    requires bin < 32 && count <= 512
    ensures Decode(PackSrunEx(Field(bin), Field(count))) == SrunEx(bin, count)
  {
    hide Field, FieldValue, SrunBinNum, SrunFreeCounter, PackSrunEx;
    FieldRound(bin);
    FieldRound(count);
    FieldRound(0);
    Bounds(bin, count);
    SrunBits(Field(bin), Field(count));
  }

  lemma NrunRoundTrip(bin: nat, offset: nat)
    requires bin < 32 && offset < 512
    ensures Decode(PackNrun(Field(bin), Field(offset))) == Nrun(bin, offset)
  {
    hide Field, FieldValue, SrunBinNum, SrunFreeCounter, PackNrun;
    FieldRound(bin);
    FieldRound(offset);
    Bounds(bin, offset);
    NrunBits(Field(bin), Field(offset));
  }

  lemma Bounds(bin: nat, count: nat)
    requires bin < 32 && count <= 512
    ensures Field(bin) < 32 && Field(count) <= 512
    ensures Field(count) == 512 <==> count == 512
    ensures Field(count) < 512 <==> count < 512
    ensures Field(0) == 0
  {
    assert Field(31) == 31 && Field(512) == 512 && Field(511) == 511;
    FieldBound(bin, 31);
    FieldBound(count, 512);
    FieldBound(count, 511);
  }
}

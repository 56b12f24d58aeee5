/**
 Arena allocation (zend_arena.h): pieces are cut from a chain of blocks, and
 everything allocated since a checkpoint is released at once.  Which block a
 checkpoint lies in is decided by comparing addresses.
 */
module Arenas {
  import opened Basics

  /** The bytes a request is entitled to: the size rounded up to a multiple of 8. */
  function Entitled(size: nat): (r: nat)
    ensures size <= r < size + 8 && r % 8 == 0
  {
    (size + 7) / 8 * 8
  }

  /** ZEND_MM_ALIGNED_SIZE, in size_t arithmetic. */
  function Aligned(size: Size): (r: Size)
    ensures r == if size <= SIZE_T - 8 then Entitled(size) else 0
  {
    (size + 7) % SIZE_T / 8 * 8
  }

  /** ZEND_MM_ALIGNED_SIZE(sizeof(zend_arena)): three pointers. */
  const HEADER: nat := 24

  /** The largest request for which neither rounding nor adding the header wraps around. */
  const LARGEST: nat := SIZE_T - 32

  lemma LargestExact(size: Size)
    ensures size <= LARGEST <==> size <= Aligned(size) && Aligned(size) + HEADER < SIZE_T
    ensures size > LARGEST ==> Entitled(size) >= SIZE_T - HEADER
    ensures SIZE_T - 8 < size ==> Aligned(size) == 0
    ensures LARGEST < size <= SIZE_T - 8 ==> SIZE_T - HEADER <= Aligned(size) <= SIZE_T - 8
  {
  }

  /** Where the pointer of a new block ends up. */
  lemma NewPtr(base: nat, bytes: nat)
    requires base + HEADER < SIZE_T && bytes < SIZE_T
    ensures (base + HEADER) % SIZE_T == base + HEADER
    ensures base + HEADER + bytes < SIZE_T ==> (base + HEADER + bytes) % SIZE_T == base + HEADER + bytes
    ensures SIZE_T - HEADER <= bytes ==> base <= (base + HEADER + bytes) % SIZE_T < base + HEADER
    ensures bytes + HEADER < SIZE_T ==> (bytes + HEADER) % SIZE_T == bytes + HEADER
  {
  }

  /** Past that size the code cuts a piece of no bytes, or one that ends inside the header of its arena. */
  lemma LargeSizesWrap()
    ensures Aligned(SIZE_T - 1) == 0
    ensures Aligned(LARGEST + 8) == LARGEST + 8 && (LARGEST + 8 + HEADER) % SIZE_T == 0
  {
  }

  /** A block of the chain, from address `base` up to `end`. */
  datatype Arena = Arena(base: nat, ptr: nat, end: nat)
  datatype Piece = Piece(start: nat, size: nat)

  predicate ArenaOk(a: Arena) {
    a.base % 8 == 0 && a.ptr % 8 == 0 && a.base + HEADER <= a.ptr <= a.end < SIZE_T
  }

  predicate Disjoint(start: nat, end: nat, a: Arena) {
    end <= a.base || a.end <= start
  }

  /** A chain, the newest block first; its blocks do not overlap, but may touch. */
  ghost predicate ChainOk(chain: seq<Arena>) {
    && chain != []
    && (forall i :: 0 <= i < |chain| ==> ArenaOk(chain[i]))
    && (forall i, j :: 0 <= i < j < |chain| ==> Disjoint(chain[i].base, chain[i].end, chain[j]))
  }

  predicate Inside(p: Piece, a: Arena) {
    a.base + HEADER <= p.start && p.start + p.size <= a.ptr
  }

  ghost predicate Lies(p: Piece, chain: seq<Arena>) {
    exists i :: 0 <= i < |chain| && Inside(p, chain[i])
  }

  /** The pieces in use are aligned, lie in the used part of a block and do not overlap. */
  ghost predicate PiecesOk(chain: seq<Arena>, pieces: seq<Piece>) {
    && (forall k :: 0 <= k < |pieces| ==> pieces[k].start % 8 == 0 && Lies(pieces[k], chain))
    && (forall k, l :: 0 <= k < l < |pieces| ==>
          pieces[k].start + pieces[k].size <= pieces[l].start || pieces[l].start + pieces[l].size <= pieces[k].start)
  }

  /** `chain` is `was` after allocations: more blocks in front, and the first of `was` may be fuller. */
  ghost predicate Extends(was: seq<Arena>, chain: seq<Arena>) {
    && was != [] && |was| <= |chain|
    && var k := |chain| - |was|;
       && chain[k] == was[0].(ptr := chain[k].ptr) && was[0].ptr <= chain[k].ptr
       && chain[k + 1..] == was[1..]
  }

  /** A checkpoint remembers the chain and the pieces there were; the program keeps only the pointer. */
  datatype Mark = Mark(chain: seq<Arena>, pieces: seq<Piece>)

  /** The half-open test of zend_arena_release: the checkpoint is not of this block. */
  predicate Elsewhere(checkpoint: nat, a: Arena) {
    checkpoint > a.end || checkpoint <= a.base
  }

  /** A checkpoint passes the test for the block it was taken in and fails it for every block added since. */
  lemma TestExact(was: seq<Arena>, chain: seq<Arena>, i: nat)
    requires ChainOk(was) && ChainOk(chain) && Extends(was, chain) && i <= |chain| - |was|
    ensures Elsewhere(was[0].ptr, chain[i]) <==> i < |chain| - |was|
  {
    var k := |chain| - |was|;
    assert ArenaOk(was[0]) && ArenaOk(chain[i]);
    if i < k {
      assert Disjoint(chain[i].base, chain[i].end, chain[k]);
    }
  }

  /** Extending goes on. */
  lemma ExtendsTrans(a: seq<Arena>, b: seq<Arena>, c: seq<Arena>)
    requires Extends(a, b) && Extends(b, c)
    ensures Extends(a, c)
  {
    var k, l := |b| - |a|, |c| - |b|;
    assert c[l + 1..] == b[1..];
    if k > 0 {
      assert c[l + 1..][k - 1] == c[l + k] && b[1..][k - 1] == b[k];
      assert c[l + k + 1..] == c[l + 1..][k..] && b[1..][k..] == b[k + 1..];
    }
  }

  /** Bytes taken from the first block, or from a new block in front. */
  lemma CutExtends(chain: seq<Arena>, chain': seq<Arena>, size: nat)
    requires ChainOk(chain)
    requires || chain' == chain[0 := chain[0].(ptr := chain[0].ptr + size)]
             || (|chain'| == |chain| + 1 && chain'[1..] == chain)
    ensures Extends(chain, chain')
  {
    if |chain'| == |chain| + 1 {
      assert chain'[1] == chain'[1..][0];
      assert chain'[2..] == chain'[1..][1..];
    }
  }

  /** A piece cut from the first block's free part, after which that part is smaller. */
  lemma CutPiece(chain: seq<Arena>, pieces: seq<Piece>, size: nat, chain': seq<Arena>)
    requires ChainOk(chain) && PiecesOk(chain, pieces) && size % 8 == 0 && chain[0].ptr + size <= chain[0].end
    requires chain' == chain[0 := chain[0].(ptr := chain[0].ptr + size)]
    ensures ChainOk(chain') && PiecesOk(chain', pieces + [Piece(chain[0].ptr, size)])
  {
    var p := Piece(chain[0].ptr, size);
    assert forall i :: 0 <= i < |chain| ==> ArenaOk(chain[i]);
    assert Inside(p, chain'[0]);
    assert Lies(p, chain');
    forall k | 0 <= k < |pieces|
      ensures Lies(pieces[k], chain')
      ensures pieces[k].start + pieces[k].size <= p.start || p.start + p.size <= pieces[k].start
    {
      assert Lies(pieces[k], chain);
      var i :| 0 <= i < |chain| && Inside(pieces[k], chain[i]);
      assert Inside(pieces[k], chain'[i]);
      assert i > 0 ==> Disjoint(chain[0].base, chain[0].end, chain[i]);
    }
  }

  /** A new block in front, with nothing cut from it yet. */
  lemma NewBlock(chain: seq<Arena>, pieces: seq<Piece>, a: Arena)
    requires ChainOk(chain) && PiecesOk(chain, pieces) && ArenaOk(a)
    requires forall i :: 0 <= i < |chain| ==> Disjoint(a.base, a.end, chain[i])
    ensures ChainOk([a] + chain) && PiecesOk([a] + chain, pieces)
  {
    var chain' := [a] + chain;
    forall k | 0 <= k < |pieces| ensures Lies(pieces[k], chain') {
      assert Lies(pieces[k], chain);
      var i :| 0 <= i < |chain| && Inside(pieces[k], chain[i]);
      assert chain'[i + 1] == chain[i];
    }
  }

  /**
   A fresh block of memory, anywhere it does not overlap the chain, possibly touching
   it; or the end of the request.
   */
  method Emalloc(chain: seq<Arena>, size: nat) returns (ok: bool, base: nat)
    ensures ok ==> base % 8 == 0 && base + size < SIZE_T && forall i :: 0 <= i < |chain| ==>
              Disjoint(base, base + size, chain[i])
  {
    var top: nat, i: nat := 0, 0;
    while i < |chain|
      invariant 0 <= i <= |chain| && forall j :: 0 <= j < i ==> chain[j].end <= top
    {
      top := if chain[i].end > top then chain[i].end else top;
      i := i + 1;
    }
    ok, base := false, 0;
    if * {
      return;
    }
    if Entitled(top) + size < SIZE_T {
      assert Entitled(top) % 8 == 0 && forall j :: 0 <= j < |chain| ==>
                Disjoint(Entitled(top), Entitled(top) + size, chain[j]);
      base :| base % 8 == 0 && base + size < SIZE_T && forall j :: 0 <= j < |chain| ==>
          Disjoint(base, base + size, chain[j]);
      ok := true;
    }
  }

  /** The pointer of a block lies in its own header. */
  predicate InHeader(a: Arena) {
    a.base <= a.ptr < a.base + HEADER
  }

  predicate Fits(chain: seq<Arena>, size: nat) {
    chain != [] && Entitled(size) <= chain[0].end - chain[0].ptr
  }

  /**
   The piece at `p` is the next of the first block if it fits, and else the first of a new
   block, which is as large as the one before or just large enough.
   */
  ghost predicate CutAt(chain: seq<Arena>, size: nat, p: nat, chain': seq<Arena>) {
    && chain != [] && chain' != [] && chain'[0].ptr == p + Entitled(size)
    && if Fits(chain, size) then p == chain[0].ptr && chain' == chain[0 := chain[0].(ptr := p + Entitled(size))]
       else
         && chain'[1..] == chain && p == chain'[0].base + HEADER
         && chain'[0].end - chain'[0].base == Max(Entitled(size) + HEADER, chain[0].end - chain[0].base)
  }

  /** A piece from the first block of the chain, or from a new block in front of it. */
  method Cut(chain: seq<Arena>, size: Size, ghost pieces: seq<Piece>) returns (ok: bool, p: nat, chain': seq<Arena>)
    requires ChainOk(chain) && PiecesOk(chain, pieces)
    ensures !ok ==> chain' == chain
    ensures ok && size <= LARGEST ==>
      p % 8 == 0 && ChainOk(chain') && PiecesOk(chain', pieces + [Piece(p, Entitled(size))]) && Extends(chain, chain')
      && CutAt(chain, size, p, chain')
    ensures size <= LARGEST && Fits(chain, size) ==> ok
    ensures SIZE_T - 8 < size ==> ok && p == chain[0].ptr && chain' == chain
    ensures ok && LARGEST < size <= SIZE_T - 8 ==>
              |chain'| == |chain| + 1 && chain'[1..] == chain && InHeader(chain'[0])
  {
    hide ChainOk, PiecesOk, Extends, ArenaOk, Aligned, Entitled;
    FirstBlock(chain, pieces);
    LargestExact(size);
    var arena, bytes := chain[0], Aligned(size);
    ok, p, chain' := true, arena.ptr, chain;
    if bytes <= arena.end - p {
      chain' := chain[0 := arena.(ptr := p + bytes)];
      if size <= LARGEST {
        CutPiece(chain, pieces, bytes, chain');
        CutExtends(chain, chain', bytes);
      }
    } else {
      var least, same := (bytes + HEADER) % SIZE_T, arena.end - arena.base;
      var arenaSize := if least > same then least else same;
      var base;
      ok, base := Emalloc(chain, arenaSize);
      if ok {
        NewPtr(base, bytes);
        p := (base + HEADER) % SIZE_T;
        chain' := [Arena(base, (base + HEADER + bytes) % SIZE_T, base + arenaSize)] + chain;
        if size <= LARGEST {
          NewPiece(chain, pieces, Arena(base, p, base + arenaSize), bytes, chain');
        }
      }
    }
  }

  lemma NewPiece(chain: seq<Arena>, pieces: seq<Piece>, a: Arena, bytes: nat, chain': seq<Arena>)
    requires ChainOk(chain) && PiecesOk(chain, pieces) && bytes % 8 == 0
    requires a.base % 8 == 0 && a.ptr == a.base + HEADER && a.ptr + bytes <= a.end < SIZE_T
    requires forall i :: 0 <= i < |chain| ==> Disjoint(a.base, a.end, chain[i])
    requires chain' == [a.(ptr := a.ptr + bytes)] + chain
    ensures ChainOk(chain') && PiecesOk(chain', pieces + [Piece(a.ptr, bytes)]) && Extends(chain, chain')
  {
    hide ChainOk, PiecesOk, Extends;
    NewBlock(chain, pieces, a);
    assert chain' == ([a] + chain)[0 := a.(ptr := a.ptr + bytes)];
    CutPiece([a] + chain, pieces, bytes, chain');
    assert chain'[1..] == chain;
    CutExtends(chain, chain', bytes);
  }

  /** Whether zend_arena_contains answers yes for some block. */
  predicate Claims(a: Arena, p: nat) {
    a.base < p <= a.ptr
  }

  /** An arena chain with the checkpoints taken on it. */
  class ArenaStack {
    var chain: seq<Arena>
    ghost var pieces: seq<Piece>
    ghost var marks: seq<Mark>

    ghost predicate Valid()
      reads this
    {
      && ChainOk(chain) && PiecesOk(chain, pieces)
      && (forall m :: 0 <= m < |marks| ==>
            && ChainOk(marks[m].chain) && PiecesOk(marks[m].chain, marks[m].pieces)
            && Extends(marks[m].chain, chain) && marks[m].pieces <= pieces)
      && (forall m, n :: 0 <= m < n < |marks| ==>
            Extends(marks[m].chain, marks[n].chain) && marks[m].pieces <= marks[n].pieces)
    }

    constructor (arena: Arena)
      ensures chain == [arena] && pieces == [] && marks == []
    {
      chain, pieces, marks := [arena], [], [];
    }

    /** zend_arena_create: sound exactly when the size has room for the header. */
    static method Create(size: Size) returns (arenas: ArenaStack?)
      ensures arenas != null ==> fresh(arenas) && (arenas.Valid() <==> HEADER <= size)
      ensures arenas != null ==> arenas.pieces == [] && arenas.marks == [] && |arenas.chain| == 1
      ensures arenas != null && HEADER <= size ==>
        var a := arenas.chain[0]; a.ptr == a.base + HEADER && a.end == a.base + size
    {
      arenas := null;
      var ok, base := Emalloc([], size);
      if ok {
        var arena := Arena(base, (base + HEADER) % SIZE_T, base + size);
        assert ArenaOk(arena) <==> HEADER <= size;
        arenas := new ArenaStack(arena);
        assert arenas.chain[0] == arena;
      }
    }

    /**
     zend_arena_alloc.  The caller gets a piece of its own, aligned and as large as
     asked, and all checkpoints stay good, exactly for sizes up to LARGEST.
     */
    method Alloc(size: Size) returns (ok: bool, p: nat)
      requires Valid()
      modifies this
      ensures !ok ==> chain == old(chain) && pieces == old(pieces) && marks == old(marks)
      ensures ok ==> pieces == old(pieces) + [Piece(p, Entitled(size))] && marks == old(marks)
      ensures ok ==> (Valid() <==> size <= LARGEST)
      ensures ok && size <= LARGEST ==> p % 8 == 0 && Extends(old(chain), chain) && CutAt(old(chain), size, p, chain)
      ensures size <= LARGEST && Fits(old(chain), size) ==> ok
      ensures SIZE_T - 8 < size ==> ok && old(chain) != [] && p == old(chain)[0].ptr && chain == old(chain)
      ensures ok && LARGEST < size <= SIZE_T - 8 ==> |chain| == |old(chain)| + 1 && InHeader(chain[0])
    {
      hide ChainOk, PiecesOk, Extends, ArenaOk, Aligned, Entitled;
      ghost var was := chain;
      FirstBlock(chain, pieces);
      ok, p, chain := Cut(chain, size, pieces);
      if !ok {
        return;
      }
      LargestExact(size);
      pieces := pieces + [Piece(p, Entitled(size))];
      if size <= LARGEST {
        forall m | 0 <= m < |marks| ensures Extends(marks[m].chain, chain) {
          ExtendsTrans(marks[m].chain, was, chain);
        }
      } else {
        NoSuchPiece(chain, pieces);
      }
    }

    /** zend_arena_checkpoint. */
    method Checkpoint() returns (p: nat)
      requires Valid()
      modifies this`marks
      ensures Valid() && p == chain[0].ptr && marks == old(marks) + [Mark(chain, pieces)]
    {
      p := chain[0].ptr;
      marks := marks + [Mark(chain, pieces)];
    }

    /**
     zend_arena_release of the `m`-th checkpoint: the chain and the pieces are
     those of the checkpoint again, and exactly the blocks added since are freed.
     */
    method Release(checkpoint: nat, ghost m: nat) returns (freed: seq<nat>)
      requires Valid() && m < |marks| && checkpoint == marks[m].chain[0].ptr
      modifies this
      ensures Valid() && chain == old(marks)[m].chain && pieces == old(marks)[m].pieces && marks == old(marks)[..m + 1]
      ensures |freed| + |chain| == |old(chain)| && forall i :: 0 <= i < |freed| ==> freed[i] == old(chain)[i].base
    {
      hide ChainOk, PiecesOk, Extends, ArenaOk;
      ghost var was, start := marks[m].chain, chain;
      freed := [];
      ghost var n := 0;
      ExtendsFacts(was, chain);
      TestExact(was, start, 0);
      while Elsewhere(checkpoint, chain[0])
        invariant n <= |start| - |was| && chain == start[n..] && |freed| == n && |was| <= |start| && was != []
        invariant chain != [] && (Elsewhere(checkpoint, chain[0]) <==> n < |start| - |was|)
        invariant pieces == old(pieces) && marks == old(marks)
        invariant forall i :: 0 <= i < n ==> freed[i] == start[i].base
        decreases |chain|
      {
        freed := freed + [chain[0].base];
        chain := chain[1..];
        n := n + 1;
        TestExact(was, start, n);
      }
      chain := chain[0 := chain[0].(ptr := checkpoint)];
      Restored(was, start, chain);
      pieces := marks[m].pieces;
      marks := marks[..m + 1];
      ExtendsSelf(was);
    }

    /** zend_arena_contains. */
    method Contains(p: nat) returns (yes: bool)
      ensures yes <==> exists i :: 0 <= i < |chain| && Claims(chain[i], p)
    {
      var i := 0;
      while i < |chain|
        invariant 0 <= i <= |chain| && forall j :: 0 <= j < i ==> !Claims(chain[j], p)
      {
        if chain[i].base < p <= chain[i].ptr {
          return true;
        }
        i := i + 1;
      }
      yes := false;
    }

    /** zend_arena_destroy: every block is freed. */
    method Destroy() returns (freed: seq<nat>)
      ensures |freed| == |chain| && forall i :: 0 <= i < |chain| ==> freed[i] == chain[i].base
    {
      freed := [];
      var i := 0;
      while i < |chain|
        invariant 0 <= i <= |chain| && |freed| == i && forall j :: 0 <= j < i ==> freed[j] == chain[j].base
      {
        freed := freed + [chain[i].base];
        i := i + 1;
      }
    }
  }

  /** A piece nearly as large as the address space lies in no block. */
  lemma NoSuchPiece(chain: seq<Arena>, pieces: seq<Piece>)
    requires pieces != [] && pieces[|pieces| - 1].size >= SIZE_T - HEADER
    ensures !(ChainOk(chain) && PiecesOk(chain, pieces))
  {
    var p := pieces[|pieces| - 1];
    forall i | 0 <= i < |chain| && ArenaOk(chain[i]) ensures !Inside(p, chain[i]) {}
  }

  lemma FirstBlock(chain: seq<Arena>, pieces: seq<Piece>)
    requires ChainOk(chain)
    ensures chain != [] && ArenaOk(chain[0]) && chain[0].base + HEADER <= chain[0].ptr <= chain[0].end
            && chain[0].ptr % 8 == 0
  {
  }

  lemma ExtendsFacts(was: seq<Arena>, chain: seq<Arena>)
    requires Extends(was, chain)
    ensures was != [] && |was| <= |chain|
  {
  }

  lemma ExtendsSelf(chain: seq<Arena>)
    requires ChainOk(chain)
    ensures Extends(chain, chain)
  {
    assert chain[0].(ptr := chain[0].ptr) == chain[0];
  }

  lemma Restored(was: seq<Arena>, start: seq<Arena>, chain: seq<Arena>)
    requires Extends(was, start)
    requires var k := |start| - |was|; chain == start[k..][0 := start[k].(ptr := was[0].ptr)]
    ensures chain == was
  {
    var k := |start| - |was|;
    assert start[k..] == [start[k]] + start[k + 1..];
    assert was == [was[0]] + was[1..];
  }

  /** Every piece in use is contained. */
  lemma ContainsPieces(chain: seq<Arena>, pieces: seq<Piece>, k: nat)
    requires ChainOk(chain) && PiecesOk(chain, pieces) && k < |pieces|
    ensures exists i :: 0 <= i < |chain| && Claims(chain[i], pieces[k].start)
  {
    assert Lies(pieces[k], chain);
    var i :| 0 <= i < |chain| && Inside(pieces[k], chain[i]);
    assert Claims(chain[i], pieces[k].start);
  }

  /** A block of other memory is claimed exactly when it begins where a block of the chain that is full ends. */
  lemma ContainsStranger(chain: seq<Arena>, start: nat, size: nat)
    requires ChainOk(chain) && size > 0 && forall i :: 0 <= i < |chain| ==> Disjoint(start, start + size, chain[i])
    ensures (exists i :: 0 <= i < |chain| && Claims(chain[i], start))
            <==> exists i :: 0 <= i < |chain| && chain[i].ptr == chain[i].end == start
  {
    if i :| 0 <= i < |chain| && Claims(chain[i], start) {
      assert ArenaOk(chain[i]) && Disjoint(start, start + size, chain[i]);
      assert chain[i].ptr == chain[i].end == start;
    }
    if i :| 0 <= i < |chain| && chain[i].ptr == chain[i].end == start {
      assert ArenaOk(chain[i]);
      assert Claims(chain[i], start);
    }
  }

  /** A full arena claims the block that begins where it ends. */
  lemma AdjacentClaimed()
    ensures ChainOk([Arena(64, 128, 128)]) && Disjoint(128, 136, Arena(64, 128, 128))
            && Claims(Arena(64, 128, 128), 128)
  {
  }
}

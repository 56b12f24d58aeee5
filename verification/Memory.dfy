/**
 What the allocator writes into memory: the links of the free lists and the
 elements of the list of huge blocks.  The links lie in the first words of free
 slots, apart from each other and from every live block; the elements fill small
 blocks of their own.  Both chain up their lists in order.
 */
module Memory {
  import opened Basics
  import opened Bins
  import opened Blocks
  import opened Ledger

  type Byte = n: nat | n < 256

  /** Memory, by address. */
  type Bytes = nat -> Byte

  /** None of the `n` bytes at `p` differs. */
  ghost predicate BlockKept(mem: Bytes, mem': Bytes, p: Ptr, n: nat) {
    forall a :: Address(p) <= a < Address(p) + n ==> mem'(a) == mem(a)
  }

  /** No byte of a live block differs. */
  ghost predicate BytesKept(mem: Bytes, mem': Bytes, live: map<Ptr, nat>) {
    forall p :: p in live ==> BlockKept(mem, mem', p, live[p])
  }

  lemma KeptRefl(mem: Bytes, live: map<Ptr, nat>)
    ensures BytesKept(mem, mem, live)
  {
  }

  lemma KeptTrans(mem0: Bytes, mem1: Bytes, mem2: Bytes, live: map<Ptr, nat>)
    requires BytesKept(mem0, mem1, live) && BytesKept(mem1, mem2, live)
    ensures BytesKept(mem0, mem2, live)
  {
    hide Address;
    forall p | p in live ensures BlockKept(mem0, mem2, p, live[p]) {
      assert BlockKept(mem0, mem1, p, live[p]) && BlockKept(mem1, mem2, p, live[p]);
    }
  }

  lemma KeptTwice(mem: Bytes, mem1: Bytes, mem': Bytes, p: Ptr, n: nat)
    requires BlockKept(mem, mem1, p, n) && BlockKept(mem1, mem', p, n)
    ensures BlockKept(mem, mem', p, n)
  {
    hide Address;
  }

  /** No byte outside the given range differs. */
  ghost predicate OnlyWithin(mem: Bytes, mem': Bytes, start: nat, len: nat) {
    forall a: nat :: !(start <= a < start + len) ==> mem'(a) == mem(a)
  }

  // --------------------------------------------------------------------- links

  const WORD: nat := 8

  /** Byte `i` of a word, the lowest first. */
  function ByteOf(n: nat, i: nat): Byte {
    if i == 0 then n % 256 else ByteOf(n / 256, i - 1)
  }

  /** Storing `next_free_slot` in the first word of a slot. */
  function WriteLink(mem: Bytes, p: Ptr, next: nat): Bytes {
    var at := Address(p);
    (a: nat) => if at <= a < at + WORD then ByteOf(next, a - at) else mem(a)
  }

  /** The first word of the slot `p` holds `next`. */
  ghost predicate Link(mem: Bytes, p: Ptr, next: nat) {
    forall i: nat :: i < WORD ==> ByteAt(mem, p, i) == ByteOf(next, i)
  }

  function ByteAt(mem: Bytes, p: Ptr, k: nat): Byte {
    mem(Address(p) + k)
  }

  /** The address of the element behind the `i`-th, or NULL. */
  function NextOf(list: seq<Ptr>, i: nat): nat {
    AddressAt(list, i + 1)
  }

  function AddressAt(list: seq<Ptr>, i: nat): nat {
    if i < |list| then Address(list[i]) else 0
  }

  /** Every element of the list links to the next, and the last to NULL. */
  ghost predicate ListLinked(mem: Bytes, list: seq<Ptr>) {
    forall i :: 0 <= i < |list| ==> Link(mem, list[i], NextOf(list, i))
  }

  ghost predicate LinksOk(mem: Bytes, free: seq<seq<Ptr>>) {
    forall b :: 0 <= b < |free| ==> ListLinked(mem, free[b])
  }

  lemma WriteLinkAt(mem: Bytes, p: Ptr, next: nat)
    ensures Link(WriteLink(mem, p, next), p, next) && OnlyWithin(mem, WriteLink(mem, p, next), Address(p), WORD)
  {
    hide Address, ByteOf;
  }

  lemma LinkKept(mem: Bytes, mem': Bytes, p: Ptr, next: nat)
    requires Link(mem, p, next) && BlockKept(mem, mem', p, WORD)
    ensures Link(mem', p, next)
  {
    hide Address, ByteOf;
    forall i: nat | i < WORD ensures ByteAt(mem', p, i) == ByteOf(next, i) {
      assert ByteAt(mem, p, i) == ByteOf(next, i);
      assert mem'(Address(p) + i) == mem(Address(p) + i);
    }
  }

  lemma ListKept(mem: Bytes, mem': Bytes, list: seq<Ptr>)
    requires ListLinked(mem, list) && forall i :: 0 <= i < |list| ==> BlockKept(mem, mem', list[i], WORD)
    ensures ListLinked(mem', list)
  {
    hide Link, BlockKept, NextOf;
    forall i | 0 <= i < |list| ensures Link(mem', list[i], NextOf(list, i)) {
      LinkKept(mem, mem', list[i], NextOf(list, i));
    }
  }

  // -------------------------------------------------------------- disjointness

  /** The first word of a slot and a range of bytes do not meet. */
  predicate WordApart(p: Ptr, start: nat, len: nat) {
    Address(p) + WORD <= start || start + len <= Address(p)
  }

  lemma WordKept(mem: Bytes, mem': Bytes, p: Ptr, start: nat, len: nat)
    requires OnlyWithin(mem, mem', start, len) && WordApart(p, start, len)
    ensures BlockKept(mem, mem', p, WORD)
  {
    hide Address;
  }

  /** A small block and another block of the layout do not overlap. */
  lemma SmallApart(L: Layout, p: Ptr, b: nat, q: Ptr, size: nat)
    requires LayoutOk(L) && Small(L, p, b) && q != p && q.seg in L && BlockAt(L[q.seg], q.off, size)
    ensures Address(p) + BinSize(b) <= Address(q) || Address(q) + size <= Address(p)
  {
    hide SmallAt, LargeAt, BinSize, RunsOk;
    assert BlockAt(L[p.seg], p.off, BinSize(b));
    SmallInside(L[p.seg], p.off, BinSize(b));
    SmallInside(L[q.seg], q.off, size);
    if p.seg == q.seg {
      BlocksDisjoint(L[p.seg], p.off, BinSize(b), q.off, size);
    }
  }

  lemma SmallInside(r: RunMap, off: nat, size: nat)
    requires RunsOk(r) && BlockAt(r, off, size)
    ensures off + size <= CHUNK_SIZE
  {
    hide BlockAt;
    BlockInRun(r, off, size);
    HeadFacts(r, HeadOf(r, off));
  }

  /** Two different slots do not share a word. */
  lemma WordsApart(L: Layout, p: Ptr, b: nat, q: Ptr, c: nat)
    requires LayoutOk(L) && Small(L, p, b) && Small(L, q, c) && q != p
    ensures WordApart(p, Address(q), WORD)
  {
    hide SmallAt, LargeAt, BinSize, RunsOk, Address;
    assert BlockAt(L[q.seg], q.off, BinSize(c));
    BinFacts(b);
    BinFacts(c);
    SmallApart(L, p, b, q, BinSize(c));
  }

  /** A slot that is not live does not share a word with a live block. */
  lemma SlotLiveApart(L: Layout, free: seq<seq<Ptr>>, huge: seq<Huge>, live: map<Ptr, nat>, p: Ptr, b: nat, q: Ptr)
    requires Balanced(L, free, huge, live) && Apart(L.Keys, huge) && Small(L, p, b) && p !in live && q in live
    ensures WordApart(p, Address(q), live[q])
  {
    hide SmallAt, LargeAt, BinSize, RunsOk, FreeOk, Complete, HugeOk, Doomed, BlockAt;
    assert LiveOk(L, huge, q, live[q]);
    BinFacts(b);
    if q.off != 0 {
      LiveInside(L, huge, q, live[q]);
      SmallApart(L, p, b, q, live[q]);
    } else {
      var i :| 0 <= i < |huge| && huge[i].seg == q.seg && huge[i].size == live[q];
      assert BlockAt(L[p.seg], p.off, BinSize(b)) by { SmallBlock(L[p.seg], p.off, b); }
      SmallInside(L[p.seg], p.off, BinSize(b));
      assert !(huge[i].seg <= p.seg < huge[i].seg + Span(huge[i].size));
    }
  }

  lemma SmallBlock(r: RunMap, off: nat, b: nat)
    requires RunsOk(r) && SmallAt(r, off, b)
    ensures BlockAt(r, off, BinSize(b))
  {
    hide SmallAt, LargeAt, BinSize;
  }

  /** A write within one live block changes neither the other live blocks nor a link. */
  lemma WriteInside(L: Layout, free: seq<seq<Ptr>>, huge: seq<Huge>, live: map<Ptr, nat>, p: Ptr, start: nat, len: nat,
                    mem: Bytes, mem': Bytes)
    requires Balanced(L, free, huge, live) && Apart(L.Keys, huge) && p in live
    requires Address(p) <= start && start + len <= Address(p) + live[p] && OnlyWithin(mem, mem', start, len)
    ensures BytesKept(mem, mem', live - {p})
    ensures LinksOk(mem, free) ==> LinksOk(mem', free)
  {
    hide Balanced, Apart, Address, ListLinked;
    forall q | q in live - {p} ensures BlockKept(mem, mem', q, live[q]) {
      LiveDisjoint(L, free, huge, live, p, q);
    }
    if LinksOk(mem, free) {
      forall b | 0 <= b < |free| ensures ListLinked(mem', free[b]) {
        LiveWriteList(L, free, huge, live, p, start, len, mem, mem', b);
      }
    }
  }

  lemma LiveWriteList(L: Layout, free: seq<seq<Ptr>>, huge: seq<Huge>, live: map<Ptr, nat>, p: Ptr, start: nat,
                      len: nat,
                      mem: Bytes, mem': Bytes, b: nat)
    requires Balanced(L, free, huge, live) && Apart(L.Keys, huge) && p in live && b < |free| && ListLinked(mem, free[b])
    requires Address(p) <= start && start + len <= Address(p) + live[p] && OnlyWithin(mem, mem', start, len)
    ensures ListLinked(mem', free[b])
  {
    hide Small, Apart, Address, ListLinked, Complete, HugeOk, LiveOk, Doomed, BlockKept, OnlyWithin;
    assert FreeListOk(L, free[b], b, live);
    forall i | 0 <= i < |free[b]| ensures BlockKept(mem, mem', free[b][i], WORD) {
      SlotLiveApart(L, free, huge, live, free[b][i], b, p);
      WordKept(mem, mem', free[b][i], start, len);
    }
    ListKept(mem, mem', free[b]);
  }

  // --------------------------------------------------------- changes of the lists

  lemma TailLinked(mem: Bytes, list: seq<Ptr>)
    requires ListLinked(mem, list) && list != []
    ensures ListLinked(mem, list[1..])
  {
    hide Link;
    forall i | 0 <= i < |list[1..]| ensures Link(mem, list[1..][i], NextOf(list[1..], i)) {
      assert list[1..][i] == list[i + 1] && NextOf(list[1..], i) == NextOf(list, i + 1);
    }
  }

  /** Popping a list: the new head is what the old head links to. */
  lemma PopLinks(mem: Bytes, free: seq<seq<Ptr>>, b: nat)
    requires LinksOk(mem, free) && b < |free| && free[b] != []
    ensures LinksOk(mem, free[b := free[b][1..]]) && Link(mem, free[b][0], AddressAt(free[b][1..], 0))
  {
    hide Link, ListLinked;
    assert ListLinked(mem, free[b]);
    TailLinked(mem, free[b]);
    assert Link(mem, free[b][0], NextOf(free[b], 0)) by { FirstLinked(mem, free[b]); }
  }

  lemma FirstLinked(mem: Bytes, list: seq<Ptr>)
    requires ListLinked(mem, list) && list != []
    ensures Link(mem, list[0], NextOf(list, 0))
  {
    hide Link;
  }

  lemma ConsLinked(mem: Bytes, p: Ptr, list: seq<Ptr>)
    requires ListLinked(mem, list) && Link(mem, p, AddressAt(list, 0))
    ensures ListLinked(mem, [p] + list)
  {
    hide Link;
    var more := [p] + list;
    forall i | 0 <= i < |more| ensures Link(mem, more[i], NextOf(more, i)) {
      assert i > 0 ==> more[i] == list[i - 1] && NextOf(more, i) == NextOf(list, i - 1);
    }
  }

  /** Pushing a slot that was live: its link is written, all others stay. */
  lemma PushLinks(L: Layout, free: seq<seq<Ptr>>, huge: seq<Huge>, live: map<Ptr, nat>, b: nat, p: Ptr, mem: Bytes,
                  mem': Bytes)
    requires Balanced(L, free, huge, live) && Apart(L.Keys, huge) && p in live && WORD <= live[p] && b < |free|
    requires LinksOk(mem, free) && mem' == WriteLink(mem, p, AddressAt(free[b], 0))
    ensures LinksOk(mem', free[b := [p] + free[b]]) && BytesKept(mem, mem', live - {p})
  {
    hide Balanced, Apart, Address, ListLinked, Link, BytesKept, WriteLink, OnlyWithin;
    WriteLinkAt(mem, p, AddressAt(free[b], 0));
    WriteInside(L, free, huge, live, p, Address(p), WORD, mem, mem');
    assert ListLinked(mem', free[b]);
    ConsLinked(mem', p, free[b]);
  }

  /** A list of new slots takes the place of an empty list. */
  lemma SplitLinks(L: Layout, free: seq<seq<Ptr>>, huge: seq<Huge>, live: map<Ptr, nat>, p: Ptr, len: nat, b: nat,
                   list: seq<Ptr>,
                   mem: Bytes, mem': Bytes)
    requires Balanced(L, free, huge, live) && Apart(L.Keys, huge) && p in live && len <= live[p] && b < |free|
    requires LinksOk(mem, free) && OnlyWithin(mem, mem', Address(p), len) && ListLinked(mem', list)
    ensures LinksOk(mem', free[b := list]) && BytesKept(mem, mem', live - {p})
  {
    hide Balanced, Apart, Address, ListLinked, BytesKept, OnlyWithin;
    WriteInside(L, free, huge, live, p, Address(p), len, mem, mem');
  }

  lemma NoLinks(mem: Bytes, free: seq<seq<Ptr>>)
    requires forall b :: 0 <= b < |free| ==> free[b] == []
    ensures LinksOk(mem, free) && HugeLinked(mem, [])
  {
  }

  // -------------------------------------------------------------- filtering a list

  /** What the `i`-th element kept links to, while the list is being filtered from its `k`-th element on. */
  function KeptNext(list: seq<Ptr>, kept: seq<Ptr>, k: nat, i: nat): nat {
    if i + 1 < |kept| then Address(kept[i + 1]) else AddressAt(list, k)
  }

  /** The elements kept so far are chained up and lead on to the rest of the list. */
  ghost predicate Relinked(mem: Bytes, list: seq<Ptr>, kept: seq<Ptr>, k: nat) {
    && (forall i :: 0 <= i < |kept| ==> Link(mem, kept[i], KeptNext(list, kept, k, i)))
    && (forall j :: k <= j < |list| ==> Link(mem, list[j], NextOf(list, j)))
  }

  lemma FilterStart(mem: Bytes, list: seq<Ptr>)
    requires ListLinked(mem, list)
    ensures Relinked(mem, list, [], 0)
  {
    hide Link;
  }

  lemma FilterEnd(mem: Bytes, list: seq<Ptr>, kept: seq<Ptr>)
    requires Relinked(mem, list, kept, |list|)
    ensures ListLinked(mem, kept)
  {
    hide Link;
    forall i | 0 <= i < |kept| ensures Link(mem, kept[i], NextOf(kept, i)) {
      assert KeptNext(list, kept, |list|, i) == NextOf(kept, i);
    }
  }

  lemma FilterKeep(mem: Bytes, list: seq<Ptr>, kept: seq<Ptr>, k: nat)
    requires Relinked(mem, list, kept, k) && k < |list|
    ensures Relinked(mem, list, kept + [list[k]], k + 1)
  {
    hide Link;
    var more := kept + [list[k]];
    forall i | 0 <= i < |more| ensures Link(mem, more[i], KeptNext(list, more, k + 1, i)) {
      assert i < |kept| ==> more[i] == kept[i] && KeptNext(list, more, k + 1, i) == KeptNext(list, kept, k, i);
      assert i == |kept| ==> KeptNext(list, more, k + 1, i) == NextOf(list, k);
    }
  }

  lemma FilterDropFirst(mem: Bytes, list: seq<Ptr>, k: nat)
    requires Relinked(mem, list, [], k) && k < |list|
    ensures Relinked(mem, list, [], k + 1)
  {
    hide Link;
  }

  /** Taking an element out: the link of the one before it is rewritten, and no other. */
  lemma FilterDrop(L: Layout, mem: Bytes, mem': Bytes, list: seq<Ptr>, kept: seq<Ptr>, k: nat, b: nat)
    requires LayoutOk(L) && Relinked(mem, list, kept, k) && k < |list| && kept != []
    requires NoDup(list) && NoDup(kept) && (forall p :: p in kept ==> p in list[..k]) && forall p :: p in list ==>
              Small(L, p, b)
    requires mem' == WriteLink(mem, kept[|kept| - 1], AddressAt(list, k + 1))
    ensures Relinked(mem', list, kept, k + 1)
  {
    hide Link, Small, Address, WriteLink;
    var last := kept[|kept| - 1];
    assert last in list[..k];
    WriteLinkAt(mem, last, AddressAt(list, k + 1));
    forall i | 0 <= i < |kept| ensures Link(mem', kept[i], KeptNext(list, kept, k + 1, i)) {
      if i + 1 < |kept| {
        assert kept[i] in list[..k];
        OtherLink(L, mem, mem', last, b, kept[i], b, KeptNext(list, kept, k, i));
      }
    }
    forall j | k + 1 <= j < |list| ensures Link(mem', list[j], NextOf(list, j)) {
      assert last != list[j] && list[j] in list;
      OtherLink(L, mem, mem', last, b, list[j], b, NextOf(list, j));
    }
  }

  lemma OtherLink(L: Layout, mem: Bytes, mem': Bytes, p: Ptr, b: nat, q: Ptr, c: nat, next: nat)
    requires LayoutOk(L) && Small(L, p, b) && Small(L, q, c) && p != q
    requires OnlyWithin(mem, mem', Address(p), WORD) && Link(mem, q, next)
    ensures Link(mem', q, next)
  {
    hide Link, Small, Address, OnlyWithin, BlockKept;
    WordsApart(L, q, c, p, b);
    WordKept(mem, mem', q, Address(p), WORD);
    LinkKept(mem, mem', q, next);
  }

  /** Rewriting the link of a free slot leaves other lists and all live blocks alone. */
  lemma WriteFree(L: Layout, free: seq<seq<Ptr>>, huge: seq<Huge>, live: map<Ptr, nat>, p: Ptr, b: nat, mem: Bytes,
                  mem': Bytes)
    requires Balanced(L, free, huge, live) && Apart(L.Keys, huge) && Small(L, p, b) && p !in live
    requires OnlyWithin(mem, mem', Address(p), WORD)
    ensures BytesKept(mem, mem', live)
  {
    hide Balanced, Apart, Small, Address;
    forall q | q in live ensures BlockKept(mem, mem', q, live[q]) {
      SlotLiveApart(L, free, huge, live, p, b, q);
    }
  }

  lemma WriteFreeList(L: Layout, p: Ptr, b: nat, list: seq<Ptr>, c: nat, mem: Bytes, mem': Bytes)
    requires LayoutOk(L) && Small(L, p, b) && c != b && (forall i :: 0 <= i < |list| ==> Small(L, list[i], c))
    requires OnlyWithin(mem, mem', Address(p), WORD) && ListLinked(mem, list)
    ensures ListLinked(mem', list)
  {
    hide Link, Small, Address, OnlyWithin;
    forall i | 0 <= i < |list| ensures Link(mem', list[i], NextOf(list, i)) {
      if list[i] == p {
        OneBin(L, p, b, c);
      }
      OtherLink(L, mem, mem', p, b, list[i], c, NextOf(list, i));
    }
  }

  // ------------------------------------------------------ the list of huge blocks

  /** Word `k` of the structure at `p`. */
  function Field(p: Ptr, k: nat): Ptr {
    Ptr(p.seg, p.off + k * WORD)
  }

  /** The element of a huge block holds its address, its size and the address of the next element. */
  ghost predicate Element(mem: Bytes, x: Huge, next: nat) {
    && Link(mem, Field(x.node, 0), Address(Ptr(x.seg, 0)))
    && Link(mem, Field(x.node, 1), x.size)
    && Link(mem, Field(x.node, 2), next)
  }

  /** The address of the `i`-th element, or NULL. */
  function NodeAt(huge: seq<Huge>, i: nat): nat {
    if i < |huge| then Address(huge[i].node) else 0
  }

  /** The list of huge blocks is in memory, element by element. */
  ghost predicate HugeLinked(mem: Bytes, huge: seq<Huge>) {
    forall i :: 0 <= i < |huge| ==> Element(mem, huge[i], NodeAt(huge, i + 1))
  }

  /** sizeof(zend_mm_huge_list): two pointers and a size. */
  const NODE_SIZE: nat := 24

  lemma FieldKept(mem: Bytes, mem': Bytes, p: Ptr, k: nat, value: nat)
    requires BlockKept(mem, mem', p, NODE_SIZE) && k < 3 && Link(mem, Field(p, k), value)
    ensures Link(mem', Field(p, k), value)
  {
    hide Link;
    LinkKept(mem, mem', Field(p, k), value);
  }

  lemma ElementKept(mem: Bytes, mem': Bytes, x: Huge, next: nat)
    requires BlockKept(mem, mem', x.node, NODE_SIZE) && Element(mem, x, next)
    ensures Element(mem', x, next)
  {
    hide Link, BlockKept, Field, Address;
    FieldKept(mem, mem', x.node, 0, Address(Ptr(x.seg, 0)));
    FieldKept(mem, mem', x.node, 1, x.size);
    FieldKept(mem, mem', x.node, 2, next);
  }

  lemma NodeBytes(L: Layout, free: seq<seq<Ptr>>, huge: seq<Huge>, live: map<Ptr, nat>, i: nat)
    requires Balanced(L, free, huge, live) && i < |huge|
    ensures huge[i].node in live && live[huge[i].node] == NODE_SIZE
  {
    hide SmallAt, FreeOk, Complete, LiveOk, RunsOk;
    var node := huge[i].node;
    assert LiveOk(L, huge, node, live[node]);
    NotDoomed(L, huge, node, live[node], NODE_BIN);
  }

  lemma NotNode(L: Layout, free: seq<seq<Ptr>>, huge: seq<Huge>, live: map<Ptr, nat>, p: Ptr)
    requires Balanced(L, free, huge, live) && p in live && live[p] != NODE_SIZE
    ensures !IsNode(huge, p)
  {
    hide Balanced;
    if i :| 0 <= i < |huge| && huge[i].node == p {
      NodeBytes(L, free, huge, live, i);
    }
  }

  /** What changes no live block but `p`, which is no element, changes no element. */
  lemma HugeKeptBut(L: Layout, free: seq<seq<Ptr>>, huge: seq<Huge>, live: map<Ptr, nat>, mem: Bytes, mem': Bytes,
                    p: Ptr)
    requires Balanced(L, free, huge, live) && HugeLinked(mem, huge) && BytesKept(mem, mem', live - {p})
             && !IsNode(huge, p)
    ensures HugeLinked(mem', huge)
  {
    hide Balanced, Element, BlockKept;
    forall i | 0 <= i < |huge| ensures Element(mem', huge[i], NodeAt(huge, i + 1)) {
      NodeBytes(L, free, huge, live, i);
      assert huge[i].node in live - {p};
      ElementKept(mem, mem', huge[i], NodeAt(huge, i + 1));
    }
  }

  lemma HugeKept(L: Layout, free: seq<seq<Ptr>>, huge: seq<Huge>, live: map<Ptr, nat>, mem: Bytes, mem': Bytes)
    requires Balanced(L, free, huge, live) && HugeLinked(mem, huge) && BytesKept(mem, mem', live)
    ensures HugeLinked(mem', huge)
  {
    hide Balanced, Element, BlockKept;
    forall i | 0 <= i < |huge| ensures Element(mem', huge[i], NodeAt(huge, i + 1)) {
      NodeBytes(L, free, huge, live, i);
      ElementKept(mem, mem', huge[i], NodeAt(huge, i + 1));
    }
  }

  /** Setting one word of a structure. */
  function WriteField(mem: Bytes, p: Ptr, k: nat, value: nat): Bytes {
    WriteLink(mem, Field(p, k), value)
  }

  lemma WriteFieldAt(mem: Bytes, p: Ptr, k: nat, value: nat)
    requires k < 3
    ensures Link(WriteField(mem, p, k, value), Field(p, k), value)
    ensures OnlyWithin(mem, WriteField(mem, p, k, value), Address(p) + k * WORD, WORD)
    ensures forall j: nat, w: nat :: j < 3 && j != k && Link(mem, Field(p, j), w) ==>
              Link(WriteField(mem, p, k, value), Field(p, j), w)
  {
    hide Link, WriteLink, OnlyWithin, BlockKept;
    var mem' := WriteField(mem, p, k, value);
    WriteLinkAt(mem, Field(p, k), value);
    forall j: nat, w: nat | j < 3 && j != k && Link(mem, Field(p, j), w) ensures Link(mem', Field(p, j), w) {
      WordKept(mem, mem', Field(p, j), Address(Field(p, k)), WORD);
      LinkKept(mem, mem', Field(p, j), w);
    }
  }

  /** Filling in a new element. */
  function WriteElement(mem: Bytes, x: Huge, next: nat): Bytes {
    WriteField(WriteField(WriteField(mem, x.node, 0, Address(Ptr(x.seg, 0))), x.node, 1, x.size), x.node, 2, next)
  }

  lemma WriteElementAt(mem: Bytes, x: Huge, next: nat)
    ensures Element(WriteElement(mem, x, next), x, next)
    ensures OnlyWithin(mem, WriteElement(mem, x, next), Address(x.node), NODE_SIZE)
  {
    hide Link, WriteField, Field, Address;
    var at := Address(Ptr(x.seg, 0));
    var mem1 := WriteField(mem, x.node, 0, at);
    var mem2 := WriteField(mem1, x.node, 1, x.size);
    WriteFieldAt(mem, x.node, 0, at);
    WriteFieldAt(mem1, x.node, 1, x.size);
    WriteFieldAt(mem2, x.node, 2, next);
  }

  /** A new element at the head of the list. */
  lemma PushElement(L: Layout, free: seq<seq<Ptr>>, huge: seq<Huge>, live: map<Ptr, nat>, x: Huge, mem: Bytes,
                    mem': Bytes)
    requires Balanced(L, free, huge, live) && Apart(L.Keys, huge) && HugeLinked(mem, huge)
    requires x.node in live && NODE_SIZE <= live[x.node] && !IsNode(huge, x.node)
             && mem' == WriteElement(mem, x, NodeAt(huge, 0))
    ensures HugeLinked(mem', [x] + huge) && BytesKept(mem, mem', live - {x.node})
            && (LinksOk(mem, free) ==> LinksOk(mem', free))
  {
    hide Balanced, Apart, Element, BytesKept, WriteElement, Address, LinksOk, IsNode, OnlyWithin;
    WriteElementAt(mem, x, NodeAt(huge, 0));
    WriteInside(L, free, huge, live, x.node, Address(x.node), NODE_SIZE, mem, mem');
    HugeKeptBut(L, free, huge, live, mem, mem', x.node);
    var more := [x] + huge;
    forall i | 0 <= i < |more| ensures Element(mem', more[i], NodeAt(more, i + 1)) {
      assert i > 0 ==> more[i] == huge[i - 1] && NodeAt(more, i + 1) == NodeAt(huge, i);
    }
  }

  /** Writing one word of the `k`-th element changes no other element, no link and no other live block. */
  lemma WriteNode(L: Layout, free: seq<seq<Ptr>>, huge: seq<Huge>, live: map<Ptr, nat>, k: nat, f: nat, value: nat,
                  mem: Bytes, mem': Bytes)
    requires Balanced(L, free, huge, live) && Apart(L.Keys, huge) && HugeLinked(mem, huge) && k < |huge| && f < 3
    requires mem' == WriteField(mem, huge[k].node, f, value)
    ensures BytesKept(mem, mem', live - {huge[k].node}) && (LinksOk(mem, free) ==> LinksOk(mem', free))
    ensures forall i :: 0 <= i < |huge| && i != k ==> Element(mem', huge[i], NodeAt(huge, i + 1))
  {
    hide Balanced, Apart, Element, BlockKept, WriteField, Address, LinksOk, OnlyWithin, Link;
    var node := huge[k].node;
    NodeBytes(L, free, huge, live, k);
    WriteFieldAt(mem, node, f, value);
    WriteInside(L, free, huge, live, node, Address(node) + f * WORD, WORD, mem, mem');
    forall i | 0 <= i < |huge| && i != k ensures Element(mem', huge[i], NodeAt(huge, i + 1)) {
      NodeBytes(L, free, huge, live, i);
      OtherNode(L, free, huge, live, i, k);
      assert huge[i].node in live - {node};
      ElementKept(mem, mem', huge[i], NodeAt(huge, i + 1));
    }
  }

  lemma OtherNode(L: Layout, free: seq<seq<Ptr>>, huge: seq<Huge>, live: map<Ptr, nat>, i: nat, k: nat)
    requires Balanced(L, free, huge, live) && i < |huge| && k < |huge| && i != k
    ensures huge[i].node != huge[k].node
  {
    hide Small, FreeOk, Complete, LiveOk, RunsOk;
    assert i < k || k < i;
  }

  /** Unlinking the `i`-th element rewrites the link of the one before it. */
  function UnlinkElement(mem: Bytes, huge: seq<Huge>, i: nat): Bytes
    requires i < |huge|
  {
    if i == 0 then mem else WriteField(mem, huge[i - 1].node, 2, NodeAt(huge, i + 1))
  }

  lemma DropElement(L: Layout, free: seq<seq<Ptr>>, huge: seq<Huge>, live: map<Ptr, nat>, i: nat, mem: Bytes,
                    mem': Bytes)
    requires Balanced(L, free, huge, live) && Apart(L.Keys, huge) && HugeLinked(mem, huge) && i < |huge|
    requires mem' == UnlinkElement(mem, huge, i)
    ensures HugeLinked(mem', huge[..i] + huge[i + 1..]) && (LinksOk(mem, free) ==> LinksOk(mem', free))
    ensures forall q :: q in live && !IsNode(huge, q) ==> BlockKept(mem, mem', q, live[q])
  {
    hide Balanced, Apart, Element, BlockKept, WriteField, Address, LinksOk, Link;
    if i > 0 {
      WriteNode(L, free, huge, live, i - 1, 2, NodeAt(huge, i + 1), mem, mem');
      WriteFieldAt(mem, huge[i - 1].node, 2, NodeAt(huge, i + 1));
      NewNext(mem, mem', huge[i - 1], NodeAt(huge, i), NodeAt(huge, i + 1));
    }
    var rest := huge[..i] + huge[i + 1..];
    forall k | 0 <= k < |rest| ensures Element(mem', rest[k], NodeAt(rest, k + 1)) {
      var j := if k < i then k else k + 1;
      assert rest[k] == huge[j];
      assert NodeAt(rest, k + 1) == if k == i - 1 then NodeAt(huge, i + 1) else NodeAt(huge, j + 1);
      assert k != i - 1 ==> Element(mem', huge[j], NodeAt(huge, j + 1));
    }
    forall q | q in live && !IsNode(huge, q) ensures BlockKept(mem, mem', q, live[q]) {
      if i > 0 {
        assert q in live - {huge[i - 1].node};
      } else {
        SameBlock(mem, q, live[q]);
      }
    }
  }

  lemma SameBlock(mem: Bytes, p: Ptr, n: nat)
    ensures BlockKept(mem, mem, p, n)
  {
  }

  lemma NewNext(mem: Bytes, mem': Bytes, x: Huge, next: nat, next': nat)
    requires Element(mem, x, next) && Link(mem', Field(x.node, 2), next')
    requires forall j: nat, w: nat :: j < 3 && j != 2 && Link(mem, Field(x.node, j), w) ==>
              Link(mem', Field(x.node, j), w)
    ensures Element(mem', x, next')
  {
    hide Link, Address;
  }

  lemma NewSize(mem: Bytes, mem': Bytes, x: Huge, next: nat, size: nat)
    requires Element(mem, x, next) && Link(mem', Field(x.node, 1), size)
    requires forall j: nat, w: nat :: j < 3 && j != 1 && Link(mem, Field(x.node, j), w) ==>
              Link(mem', Field(x.node, j), w)
    ensures Element(mem', x.(size := size), next)
  {
    hide Link, Address;
  }

  /** A new size is written into the `i`-th element. */
  lemma ResizeElement(L: Layout, free: seq<seq<Ptr>>, huge: seq<Huge>, live: map<Ptr, nat>, i: nat, size: nat,
                      mem: Bytes, mem': Bytes)
    requires Balanced(L, free, huge, live) && Apart(L.Keys, huge) && HugeLinked(mem, huge) && i < |huge|
    requires mem' == WriteField(mem, huge[i].node, 1, size)
    ensures HugeLinked(mem', huge[i := huge[i].(size := size)]) && (LinksOk(mem, free) ==> LinksOk(mem', free))
    ensures forall q :: q in live && !IsNode(huge, q) ==> BlockKept(mem, mem', q, live[q])
  {
    hide Balanced, Apart, Element, BlockKept, WriteField, Address, LinksOk, Link;
    WriteNode(L, free, huge, live, i, 1, size, mem, mem');
    WriteFieldAt(mem, huge[i].node, 1, size);
    NewSize(mem, mem', huge[i], NodeAt(huge, i + 1), size);
    var huge' := huge[i := huge[i].(size := size)];
    forall k | 0 <= k < |huge'| ensures Element(mem', huge'[k], NodeAt(huge', k + 1)) {
      assert NodeAt(huge', k + 1) == NodeAt(huge, k + 1);
      assert k != i ==> Element(mem', huge[k], NodeAt(huge, k + 1));
    }
    forall q | q in live && !IsNode(huge, q) ensures BlockKept(mem, mem', q, live[q]) {
      assert q in live - {huge[i].node};
    }
  }

  // -------------------------------------------------------------- reading a list

  /** The word stored at an address, from its lowest `n` bytes. */
  function ReadBytes(mem: Bytes, a: nat, n: nat): nat
    decreases n
  {
    if n == 0 then 0 else mem(a) + 256 * ReadBytes(mem, a + 1, n - 1)
  }

  function Power(n: nat): (r: nat)
    ensures r > 0
  {
    if n == 0 then 1 else 256 * Power(n - 1)
  }

  lemma {:induction false} ReadBack(mem: Bytes, a: nat, n: nat, value: nat)
    requires value < Power(n) && forall i: nat :: i < n ==> mem(a + i) == ByteOf(value, i)
    ensures ReadBytes(mem, a, n) == value
    decreases n
  {
    if n > 0 {
      assert mem(a + 0) == ByteOf(value, 0);
      assert value / 256 < Power(n - 1);
      forall i: nat | i < n - 1 ensures mem(a + 1 + i) == ByteOf(value / 256, i) {
        assert mem(a + (i + 1)) == ByteOf(value, i + 1);
      }
      ReadBack(mem, a + 1, n - 1, value / 256);
    }
  }

  /** The word `next_free_slot` at an address. */
  function ReadLink(mem: Bytes, a: nat): nat {
    ReadBytes(mem, a, WORD)
  }

  lemma LinkReads(mem: Bytes, p: Ptr, next: nat)
    requires Link(mem, p, next) && next < SIZE_T
    ensures ReadLink(mem, Address(p)) == next
  {
    hide Address, ByteOf;
    assert Power(8) == SIZE_T;
    forall i: nat | i < WORD ensures mem(Address(p) + i) == ByteOf(next, i) {
      assert ByteAt(mem, p, i) == ByteOf(next, i);
    }
    ReadBack(mem, Address(p), WORD, next);
  }

  /** The addresses met when following the links from `a` for at most `n` steps. */
  function Chain(mem: Bytes, a: nat, n: nat): seq<nat>
    decreases n
  {
    if a == 0 || n == 0 then [] else [a] + Chain(mem, ReadLink(mem, a), n - 1)
  }

  function Addresses(list: seq<Ptr>): seq<nat> {
    seq(|list|, i requires 0 <= i < |list| => Address(list[i]))
  }

  /** Following the links from the head of a linked list gives the list, and then NULL. */
  lemma {:induction false} ChainReads(mem: Bytes, list: seq<Ptr>, n: nat)
    requires ListLinked(mem, list) && |list| <= n && forall p :: p in list ==> 0 < Address(p) < SIZE_T
    ensures Chain(mem, AddressAt(list, 0), n) == Addresses(list)
    decreases n
  {
    hide Address, Link, ReadLink, ListLinked, Addresses;
    AddressesCons(list);
    if list != [] {
      var rest := list[1..];
      FirstLinked(mem, list);
      TailLinked(mem, list);
      assert forall p :: p in rest ==> p in list;
      assert NextOf(list, 0) == AddressAt(rest, 0);
      assert rest != [] ==> rest[0] in list;
      LinkReads(mem, list[0], NextOf(list, 0));
      assert list[0] in list;
      ChainReads(mem, rest, n - 1);
    }
  }

  lemma AddressesCons(list: seq<Ptr>)
    ensures Addresses(list) == if list == [] then [] else [Address(list[0])] + Addresses(list[1..])
  {
    hide Address;
  }

  /** The address and the size that the elements hold, following the list from `a` for at most `n` steps. */
  function ReadHuge(mem: Bytes, a: nat, n: nat): seq<(nat, nat)>
    decreases n
  {
    if a == 0 || n == 0 then []
    else [(ReadLink(mem, a), ReadLink(mem, a + WORD))] + ReadHuge(mem, ReadLink(mem, a + 2 * WORD), n - 1)
  }

  function Records(huge: seq<Huge>): seq<(nat, nat)> {
    seq(|huge|, i requires 0 <= i < |huge| => (Address(Ptr(huge[i].seg, 0)), huge[i].size))
  }

  lemma ElementReads(mem: Bytes, x: Huge, next: nat)
    requires Element(mem, x, next) && next < SIZE_T && x.size < SIZE_T && Address(Ptr(x.seg, 0)) < SIZE_T
    ensures ReadLink(mem, Address(x.node)) == Address(Ptr(x.seg, 0))
    ensures ReadLink(mem, Address(x.node) + WORD) == x.size
    ensures ReadLink(mem, Address(x.node) + 2 * WORD) == next
  {
    hide Link, ReadLink;
    LinkReads(mem, Field(x.node, 0), Address(Ptr(x.seg, 0)));
    LinkReads(mem, Field(x.node, 1), x.size);
    LinkReads(mem, Field(x.node, 2), next);
  }

  lemma HugeTail(mem: Bytes, huge: seq<Huge>)
    requires HugeLinked(mem, huge) && huge != []
    ensures HugeLinked(mem, huge[1..]) && Element(mem, huge[0], NodeAt(huge[1..], 0))
  {
    hide Element;
    assert Element(mem, huge[0], NodeAt(huge, 0 + 1));
    forall i | 0 <= i < |huge[1..]| ensures Element(mem, huge[1..][i], NodeAt(huge[1..], i + 1)) {
      assert huge[1..][i] == huge[i + 1] && NodeAt(huge[1..], i + 1) == NodeAt(huge, i + 2);
    }
  }

  ghost predicate Readable(x: Huge) {
    0 < Address(x.node) < SIZE_T && x.size < SIZE_T && Address(Ptr(x.seg, 0)) < SIZE_T
  }

  /** Walking the list in memory meets exactly the huge blocks, in order, and then NULL. */
  lemma {:induction false} HugeReads(mem: Bytes, huge: seq<Huge>, n: nat)
    requires HugeLinked(mem, huge) && |huge| <= n && forall i :: 0 <= i < |huge| ==> Readable(huge[i])
    ensures ReadHuge(mem, NodeAt(huge, 0), n) == Records(huge)
    decreases n
  {
    hide Address, Element, ReadLink, HugeLinked;
    if huge != [] {
      var rest := huge[1..];
      HugeTail(mem, huge);
      assert forall i :: 0 <= i < |rest| ==> rest[i] == huge[i + 1];
      ElementReads(mem, huge[0], NodeAt(rest, 0));
      HugeReads(mem, rest, n - 1);
      assert Records(huge) == [(Address(Ptr(huge[0].seg, 0)), huge[0].size)] + Records(rest);
    }
  }
}

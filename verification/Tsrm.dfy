/**
 The thread-safe resource manager (TSRM.c): a hash table of per-thread blocks
 kept in step with a growing table of resource types.  Each operation under
 the mutex is one step on the global variables.  Memory allocation succeeds; a
 NULL constructor or destructor counts as one that does nothing.
 */
module Tsrm {
  import opened Basics

  const ALIGNMENT: nat := 16

  /** TSRM_ALIGNED_SIZE, in size_t arithmetic. */
  function Aligned(size: Size): (r: Size)
    ensures r % ALIGNMENT == 0
    ensures Wraps(size) ==> r == 0
    ensures !Wraps(size) ==> size <= r < size + ALIGNMENT
  {
    (size + ALIGNMENT - 1) % SIZE_T / ALIGNMENT * ALIGNMENT
  }

  /** Rounding up goes past the largest size_t. */
  predicate Wraps(size: Size) {
    SIZE_T - ALIGNMENT < size
  }

  /** TSRM_ALIGNED_SIZE(sizeof(tsrm_tls_entry)): three words and a padded int. */
  const HEADER: nat := 32

  datatype Resource = Resource(size: nat, fastOffset: nat, done: bool)

  /** What a storage slot points to: nothing, a place in the thread's own block, or a block of its own. */
  datatype Slot = Null | Fast(base: nat, offset: nat) | Own(block: nat)

  /** A thread's entry; `base` is its address and `room` the reserved space behind its header. */
  datatype Entry = Entry(base: nat, thread: nat, count: nat, storage: seq<Slot>, room: nat)

  /** Calls of the constructor and the destructor of resource `id` for the entry at `base`. */
  datatype Event = Made(base: nat, id: nat) | Unmade(base: nat, id: nat)

  /**
   The global variables; `born` and `blocks` say for whom each entry and block was
   allocated, `log` what was called.
   */
  datatype Globals = Globals(
    table: seq<seq<Entry>>,
    idCount: nat,
    types: seq<Resource>,
    reservedPos: nat,
    reservedSize: nat,
    tls: map<nat, nat>,
    born: seq<nat>,
    blocks: seq<(nat, nat)>,
    log: seq<Event>)

  // ----------------------------------------------------------------- invariant

  ghost predicate SlotOk(types: seq<Resource>, blocks: seq<(nat, nat)>, base: nat, id: nat, s: Slot)
    requires id < |types|
  {
    if types[id].done then s == Null
    else if types[id].fastOffset != 0 then s == Fast(base, types[id].fastOffset)
    else s.Own? && s.block < |blocks| && blocks[s.block] == (base, id)
  }

  /** The first `n` slots of an entry are as the types say. */
  ghost predicate EntryOk(types: seq<Resource>, blocks: seq<(nat, nat)>, born: seq<nat>, n: nat, room: nat, e: Entry)
    requires n <= |types|
  {
    && e.count == n && |e.storage| == n && e.room == room
    && e.base < |born| && born[e.base] == e.thread
    && forall i :: 0 <= i < n ==> SlotOk(types, blocks, e.base, i, e.storage[i])
  }

  ghost predicate EntriesOk(types: seq<Resource>, blocks: seq<(nat, nat)>, born: seq<nat>, n: nat, room: nat,
                            bucket: seq<Entry>)
    requires n <= |types|
  {
    forall k :: 0 <= k < |bucket| ==> EntryOk(types, blocks, born, n, room, bucket[k])
  }

  ghost predicate AllOk(types: seq<Resource>, blocks: seq<(nat, nat)>, born: seq<nat>, n: nat, room: nat,
                        table: seq<seq<Entry>>)
    requires n <= |types|
  {
    forall h :: 0 <= h < |table| ==> EntriesOk(types, blocks, born, n, room, table[h])
  }

  function Hash(thread: nat, size: nat): (h: nat)
    requires size > 0
    ensures h < size
  {
    thread % size
  }

  /** The entries of a bucket belong to it, and no thread has two. */
  ghost predicate BucketOk(bucket: seq<Entry>, h: nat, size: nat)
    requires size > 0
  {
    && (forall k :: 0 <= k < |bucket| ==> Hash(bucket[k].thread, size) == h)
    && (forall k, l :: 0 <= k < l < |bucket| ==> bucket[k].thread != bucket[l].thread)
  }

  ghost predicate Holds(table: seq<seq<Entry>>, base: nat) {
    exists h, k :: 0 <= h < |table| && 0 <= k < |table[h]| && table[h][k].base == base
  }

  /** Two types with space in the thread's own block do not share it. */
  predicate Apart(a: Resource, b: Resource) {
    a.fastOffset != 0 && b.fastOffset != 0 ==>
      a.fastOffset + a.size <= b.fastOffset || b.fastOffset + b.size <= a.fastOffset
  }

  /** The fast resources lie aligned and apart in the reserved space. */
  ghost predicate FastOk(g: Globals) {
    && g.idCount <= |g.types| && g.reservedPos <= g.reservedSize && g.reservedPos % ALIGNMENT == 0
    && HEADER + g.reservedSize < SIZE_T
    && (forall i :: 0 <= i < g.idCount && g.types[i].fastOffset != 0 ==>
          && g.types[i].fastOffset % ALIGNMENT == 0 && HEADER <= g.types[i].fastOffset
          && g.types[i].fastOffset + g.types[i].size <= HEADER + g.reservedPos)
    && (forall i, j :: 0 <= i < j < g.idCount ==> Apart(g.types[i], g.types[j]))
  }

  ghost predicate TableOk(g: Globals) {
    && |g.table| > 0 && g.idCount <= |g.types|
    && (forall h :: 0 <= h < |g.table| ==> BucketOk(g.table[h], h, |g.table|))
    && AllOk(g.types, g.blocks, g.born, g.idCount, g.reservedSize, g.table)
  }

  /** Every constructor has run at most once, and the destructor once for all that are no longer there. */
  ghost predicate LogOk(g: Globals)
    requires g.idCount <= |g.types|
  {
    forall b: nat, i: nat ::
      var made, unmade := multiset(g.log)[Made(b, i)], multiset(g.log)[Unmade(b, i)];
      && made <= 1
      && (b >= |g.born| || i >= g.idCount ==> made == 0)
      && made == unmade + if i < g.idCount && !g.types[i].done && Holds(g.table, b) then 1 else 0
  }

  ghost predicate Valid(g: Globals) {
    TableOk(g) && FastOk(g) && LogOk(g)
  }

  // ---------------------------------------------------------- thread pointers

  /** The entry of thread `t` at place `k` of its bucket. */
  ghost predicate EntryAt(g: Globals, t: nat, k: nat, e: Entry) {
    |g.table| > 0 && k < |g.table[Hash(t, |g.table|)]| && g.table[Hash(t, |g.table|)][k] == e && e.thread == t
  }

  ghost predicate HasEntry(g: Globals, t: nat) {
    exists k: nat, e :: EntryAt(g, t, k, e)
  }

  ghost predicate OwnPointer(g: Globals, t: nat, base: nat) {
    exists k: nat, e :: EntryAt(g, t, k, e) && e.base == base
  }

  /** Every thread pointer that is set names the thread's own entry. */
  ghost predicate TlsOk(g: Globals) {
    forall t :: t in g.tls ==> OwnPointer(g, t, g.tls[t])
  }

  lemma SameTable(g: Globals, g': Globals)
    requires g'.table == g.table && g'.tls == g.tls
    ensures TlsOk(g) ==> TlsOk(g')
  {
    hide Hash;
    forall t: nat, b: nat | OwnPointer(g, t, b) ensures OwnPointer(g', t, b) {
      var k: nat, e :| EntryAt(g, t, k, e) && e.base == b;
      assert EntryAt(g', t, k, e);
    }
  }

  /** New slots change neither threads nor addresses. */
  lemma SameTls(g: Globals, g': Globals)
    requires SameShapes(g.table, g'.table) && g'.tls == g.tls
    ensures TlsOk(g) ==> TlsOk(g')
  {
    hide Hash;
    forall t: nat, b: nat | OwnPointer(g, t, b) ensures OwnPointer(g', t, b) {
      var k: nat, e :| EntryAt(g, t, k, e) && e.base == b;
      var h := Hash(t, |g.table|);
      assert SameShape(g.table[h], g'.table[h]);
      assert EntryAt(g', t, k, g'.table[h][k]);
    }
  }

  // -------------------------------------------------------- walking the table

  ghost function OverBucket(bucket: seq<Entry>, f: Entry -> seq<Event>): seq<Event> {
    if bucket == [] then [] else OverBucket(bucket[..|bucket| - 1], f) + f(bucket[|bucket| - 1])
  }

  ghost function OverTable(table: seq<seq<Entry>>, f: Entry -> seq<Event>): seq<Event> {
    if table == [] then [] else OverTable(table[..|table| - 1], f) + OverBucket(table[|table| - 1], f)
  }

  ghost predicate InBucket(bucket: seq<Entry>, base: nat) {
    exists k :: 0 <= k < |bucket| && bucket[k].base == base
  }

  /** `f` gives an entry only events of its own. */
  ghost predicate Owned(f: Entry -> seq<Event>) {
    forall e, v :: v in f(e) ==> v.base == e.base
  }

  ghost predicate DistinctBases(bucket: seq<Entry>) {
    forall k, l :: 0 <= k < l < |bucket| ==> bucket[k].base != bucket[l].base
  }

  lemma {:induction false} OverBucketCount(bucket: seq<Entry>, f: Entry -> seq<Event>, v: Event)
    requires Owned(f) && DistinctBases(bucket)
    ensures !InBucket(bucket, v.base) ==> multiset(OverBucket(bucket, f))[v] == 0
    ensures forall k :: 0 <= k < |bucket| && bucket[k].base == v.base ==>
              multiset(OverBucket(bucket, f))[v] == multiset(f(bucket[k]))[v]
  {
    if bucket != [] {
      var rest, e := bucket[..|bucket| - 1], bucket[|bucket| - 1];
      OverBucketCount(rest, f, v);
      assert multiset(OverBucket(bucket, f))[v] == multiset(OverBucket(rest, f))[v] + multiset(f(e))[v];
      assert v.base != e.base ==> v !in f(e);
      assert InBucket(rest, v.base) ==> InBucket(bucket, v.base) by {
        if k :| 0 <= k < |rest| && rest[k].base == v.base {
          assert bucket[k] == rest[k];
        }
      }
      assert v.base == e.base ==> InBucket(bucket, v.base) && !InBucket(rest, v.base);
      forall k | 0 <= k < |bucket| && bucket[k].base == v.base
        ensures multiset(OverBucket(bucket, f))[v] == multiset(f(bucket[k]))[v]
      {
        if k < |rest| {
          assert rest[k] == bucket[k];
        }
      }
    }
  }

  /** The entries of the buckets before `n` and the bucket `n` are different. */
  ghost predicate DistinctTable(table: seq<seq<Entry>>) {
    && (forall h :: 0 <= h < |table| ==> DistinctBases(table[h]))
    && (forall h, h', b :: 0 <= h < h' < |table| && InBucket(table[h], b) ==> !InBucket(table[h'], b))
  }

  lemma {:induction false} OverTableNone(table: seq<seq<Entry>>, f: Entry -> seq<Event>, v: Event)
    requires Owned(f) && (forall h :: 0 <= h < |table| ==> DistinctBases(table[h]) && !InBucket(table[h], v.base))
    ensures multiset(OverTable(table, f))[v] == 0
  {
    hide OverBucket, DistinctBases, Owned, InBucket;
    if table != [] {
      var n := |table| - 1;
      OverTableNone(table[..n], f, v);
      OverBucketCount(table[n], f, v);
    }
  }

  lemma {:induction false} OverTableAt(table: seq<seq<Entry>>, f: Entry -> seq<Event>, v: Event, h: nat, k: nat)
    requires Owned(f) && DistinctTable(table) && h < |table| && k < |table[h]| && table[h][k].base == v.base
    ensures multiset(OverTable(table, f))[v] == multiset(f(table[h][k]))[v]
  {
    hide OverBucket, DistinctBases, Owned;
    var n := |table| - 1;
    var rest := table[..n];
    assert InBucket(table[h], v.base);
    OverBucketCount(table[n], f, v);
    if h < n {
      OverTableAt(rest, f, v, h, k);
      assert !InBucket(table[n], v.base);
    } else {
      OverTableNone(rest, f, v);
    }
  }

  /** Each entry of the table contributes its own events, and nobody else any of that kind. */
  lemma OverTableCount(table: seq<seq<Entry>>, f: Entry -> seq<Event>, v: Event)
    requires Owned(f) && DistinctTable(table)
    ensures !Holds(table, v.base) ==> multiset(OverTable(table, f))[v] == 0
    ensures forall h, k :: 0 <= h < |table| && 0 <= k < |table[h]| && table[h][k].base == v.base ==>
              multiset(OverTable(table, f))[v] == multiset(f(table[h][k]))[v]
  {
    hide OverTable, Owned, DistinctBases;
    if !Holds(table, v.base) {
      assert forall h :: 0 <= h < |table| ==> !InBucket(table[h], v.base);
      OverTableNone(table, f, v);
    }
    forall h, k | 0 <= h < |table| && 0 <= k < |table[h]| && table[h][k].base == v.base
      ensures multiset(OverTable(table, f))[v] == multiset(f(table[h][k]))[v]
    {
      OverTableAt(table, f, v, h, k);
    }
  }

  /** The address of an entry determines its thread, so no two entries share an address. */
  lemma TableDistinct(g: Globals)
    requires TableOk(g)
    ensures DistinctTable(g.table)
  {
    hide SlotOk;
    assert forall h :: 0 <= h < |g.table| ==>
              EntriesOk(g.types, g.blocks, g.born, g.idCount, g.reservedSize, g.table[h]);
    forall h | 0 <= h < |g.table| ensures DistinctBases(g.table[h]) {
      assert BucketOk(g.table[h], h, |g.table|);
      forall k, l | 0 <= k < l < |g.table[h]| ensures g.table[h][k].base != g.table[h][l].base {
        assert EntryOk(g.types, g.blocks, g.born, g.idCount, g.reservedSize, g.table[h][k]);
        assert EntryOk(g.types, g.blocks, g.born, g.idCount, g.reservedSize, g.table[h][l]);
      }
    }
    forall h, h', k, l | 0 <= h < h' < |g.table| && 0 <= k < |g.table[h]| && 0 <= l < |g.table[h']|
      ensures g.table[h][k].base != g.table[h'][l].base
    {
      assert EntryOk(g.types, g.blocks, g.born, g.idCount, g.reservedSize, g.table[h][k]);
      assert EntryOk(g.types, g.blocks, g.born, g.idCount, g.reservedSize, g.table[h'][l]);
      assert BucketOk(g.table[h], h, |g.table|) && BucketOk(g.table[h'], h', |g.table|);
    }
  }

  // ------------------------------------------------------------ new resources

  /** The constructors of resources `from` to `to` for one entry. */
  function Births(base: nat, from: nat, to: nat): seq<Event>
    decreases to
  {
    if from >= to then [] else Births(base, from, to - 1) + [Made(base, to - 1)]
  }

  /** Memory for one slot. */
  method FillSlot(types: seq<Resource>, blocks: seq<(nat, nat)>, base: nat, id: nat)
    returns (s: Slot, blocks': seq<(nat, nat)>)
    requires id < |types| && !types[id].done
    ensures SlotOk(types, blocks', base, id, s) && blocks <= blocks'
  {
    if types[id].fastOffset != 0 {
      s, blocks' := Fast(base, types[id].fastOffset), blocks;
    } else {
      s, blocks' := Own(|blocks|), blocks + [(base, id)];
    }
  }

  lemma EntryMore(types: seq<Resource>, types': seq<Resource>, blocks: seq<(nat, nat)>, blocks': seq<(nat, nat)>,
                  born: seq<nat>, born': seq<nat>, n: nat, room: nat, e: Entry)
    requires n <= |types| && n <= |types'| && EntryOk(types, blocks, born, n, room, e) && blocks <= blocks'
             && born <= born'
    requires forall i :: 0 <= i < n ==> types'[i] == types[i]
    ensures EntryOk(types', blocks', born', n, room, e)
  {
    forall i | 0 <= i < n ensures SlotOk(types', blocks', e.base, i, e.storage[i]) {
      assert SlotOk(types, blocks, e.base, i, e.storage[i]);
    }
  }

  /** One entry in tsrm_update_active_threads. */
  method UpdateEntry(types: seq<Resource>, blocks: seq<(nat, nat)>, log: seq<Event>, n: nat, e: Entry,
                     ghost born: seq<nat>)
    returns (e': Entry, blocks': seq<(nat, nat)>, log': seq<Event>)
    requires e.count <= n <= |types| && EntryOk(types, blocks, born, e.count, e.room, e)
    requires forall j :: e.count <= j < n ==> !types[j].done
    ensures EntryOk(types, blocks', born, n, e.room, e') && e' == e.(count := n, storage := e'.storage)
    ensures blocks <= blocks' && log' == log + Births(e.base, e.count, n)
  {
    hide SlotOk;
    e', blocks', log' := e, blocks, log;
    var storage, j := e.storage, e.count;
    while j < n
      invariant e.count <= j <= n && |storage| == j && blocks <= blocks'
      invariant forall i :: 0 <= i < j ==> SlotOk(types, blocks', e.base, i, storage[i])
      invariant log' == log + Births(e.base, e.count, j)
    {
      ghost var before := blocks';
      var s;
      s, blocks' := FillSlot(types, blocks', e.base, j);
      SlotsMore(types, before, blocks', e.base, storage);
      storage := storage + [s];
      log' := log' + [Made(e.base, j)];
      j := j + 1;
    }
    e' := e.(count := n, storage := storage);
  }

  lemma SlotsMore(types: seq<Resource>, blocks: seq<(nat, nat)>, blocks': seq<(nat, nat)>, base: nat,
                  storage: seq<Slot>)
    requires |storage| <= |types| && blocks <= blocks'
    requires forall i :: 0 <= i < |storage| ==> SlotOk(types, blocks, base, i, storage[i])
    ensures forall i :: 0 <= i < |storage| ==> SlotOk(types, blocks', base, i, storage[i])
  {
  }

  /** Entries that differ only in what their slots hold. */
  ghost predicate SameShape(bucket: seq<Entry>, bucket': seq<Entry>) {
    |bucket'| == |bucket|
    && forall k :: 0 <= k < |bucket| ==>
         bucket'[k] == bucket[k].(count := bucket'[k].count, storage := bucket'[k].storage)
  }

  method UpdateBucket(types: seq<Resource>, blocks: seq<(nat, nat)>, log: seq<Event>, n: nat, bucket: seq<Entry>,
                      ghost born: seq<nat>, ghost room: nat, ghost from: nat, ghost f: Entry -> seq<Event>)
    returns (bucket': seq<Entry>, blocks': seq<(nat, nat)>, log': seq<Event>)
    requires from <= n <= |types| && EntriesOk(types, blocks, born, from, room, bucket)
    requires (forall j :: from <= j < n ==> !types[j].done) && forall e :: f(e) == Births(e.base, from, n)
    ensures EntriesOk(types, blocks', born, n, room, bucket') && SameShape(bucket, bucket')
    ensures blocks <= blocks' && log' == log + OverBucket(bucket, f)
  {
    hide EntryOk, Births;
    bucket', blocks', log' := [], blocks, log;
    var k := 0;
    while k < |bucket|
      invariant 0 <= k <= |bucket| && |bucket'| == k && blocks <= blocks'
      invariant EntriesOk(types, blocks', born, n, room, bucket') && SameShape(bucket[..k], bucket')
      invariant log' == log + OverBucket(bucket[..k], f)
    {
      ghost var before := blocks';
      EntryMore(types, types, blocks, blocks', born, born, from, room, bucket[k]);
      EntryCount(types, blocks', born, from, room, bucket[k]);
      var e;
      e, blocks', log' := UpdateEntry(types, blocks', log', n, bucket[k], born);
      forall l | 0 <= l < k ensures EntryOk(types, blocks', born, n, room, bucket'[l]) {
        EntryMore(types, types, before, blocks', born, born, n, room, bucket'[l]);
      }
      bucket' := bucket' + [e];
      assert bucket[..k + 1][..k] == bucket[..k];
      k := k + 1;
    }
    assert bucket[..k] == bucket;
  }

  lemma EntryCount(types: seq<Resource>, blocks: seq<(nat, nat)>, born: seq<nat>, n: nat, room: nat, e: Entry)
    requires n <= |types| && EntryOk(types, blocks, born, n, room, e)
    ensures e.count == n && e.room == room
  {
  }

  ghost predicate SameShapes(table: seq<seq<Entry>>, table': seq<seq<Entry>>) {
    |table'| == |table| && forall h :: 0 <= h < |table| ==> SameShape(table[h], table'[h])
  }

  lemma AllMore(types: seq<Resource>, types': seq<Resource>, blocks: seq<(nat, nat)>, blocks': seq<(nat, nat)>,
                born: seq<nat>, born': seq<nat>, n: nat, room: nat, table: seq<seq<Entry>>)
    requires n <= |types| && n <= |types'| && AllOk(types, blocks, born, n, room, table) && blocks <= blocks'
             && born <= born'
    requires forall i :: 0 <= i < n ==> types'[i] == types[i]
    ensures AllOk(types', blocks', born', n, room, table)
  {
    hide EntryOk;
    forall h, k | 0 <= h < |table| && 0 <= k < |table[h]|
      ensures EntryOk(types', blocks', born', n, room, table[h][k])
    {
      EntryMore(types, types', blocks, blocks', born, born', n, room, table[h][k]);
    }
  }

  /** tsrm_update_active_threads, when the entries have the first `from` resources. */
  method UpdateActive(g: Globals, ghost from: nat, ghost f: Entry -> seq<Event>) returns (g': Globals)
    requires from <= g.idCount <= |g.types| && AllOk(g.types, g.blocks, g.born, from, g.reservedSize, g.table)
    requires (forall j :: from <= j < g.idCount ==> !g.types[j].done)
             && forall e :: f(e) == Births(e.base, from, g.idCount)
    ensures g' == g.(table := g'.table, blocks := g'.blocks, log := g'.log)
    ensures AllOk(g.types, g'.blocks, g.born, g.idCount, g.reservedSize, g'.table) && SameShapes(g.table, g'.table)
    ensures g'.log == g.log + OverTable(g.table, f)
  {
    hide EntriesOk, OverBucket, Births;
    g' := g;
    var h := 0;
    var table: seq<seq<Entry>> := [];
    while h < |g.table|
      invariant 0 <= h <= |g.table| && |table| == h && g' == g.(blocks := g'.blocks, log := g'.log)
                && g.blocks <= g'.blocks
      invariant AllOk(g.types, g'.blocks, g.born, g.idCount, g.reservedSize, table) && SameShapes(g.table[..h], table)
      invariant g'.log == g.log + OverTable(g.table[..h], f)
    {
      AllMore(g.types, g.types, g.blocks, g'.blocks, g.born, g.born, from, g.reservedSize, g.table);
      var bucket, blocks, log := UpdateBucket(g.types, g'.blocks, g'.log, g.idCount, g.table[h], g.born, g.reservedSize,
          from, f);
      AllMore(g.types, g.types, g'.blocks, blocks, g.born, g.born, g.idCount, g.reservedSize, table);
      table := table + [bucket];
      g' := g'.(blocks := blocks, log := log);
      assert g.table[..h + 1][..h] == g.table[..h];
      h := h + 1;
    }
    assert g.table[..h] == g.table;
    g' := g'.(table := table);
  }

  lemma SameHolds(table: seq<seq<Entry>>, table': seq<seq<Entry>>)
    requires SameShapes(table, table')
    ensures forall b :: Holds(table', b) <==> Holds(table, b)
    ensures forall h, n: nat :: 0 <= h < |table| && n > 0 && BucketOk(table[h], h, n) ==> BucketOk(table'[h], h, n)
  {
    hide Hash;
    forall h, k | 0 <= h < |table| && 0 <= k < |table[h]|
      ensures table'[h][k].base == table[h][k].base && table'[h][k].thread == table[h][k].thread
    {
      assert SameShape(table[h], table'[h]);
    }
    forall b ensures Holds(table', b) <==> Holds(table, b) {
      if h, k :| 0 <= h < |table| && 0 <= k < |table[h]| && table[h][k].base == b {
        assert table'[h][k].base == b;
      }
      if h, k :| 0 <= h < |table'| && 0 <= k < |table'[h]| && table'[h][k].base == b {
        assert SameShape(table[h], table'[h]);
        assert table[h][k].base == b;
      }
    }
    assert forall h :: 0 <= h < |table| ==> SameShape(table[h], table'[h]);
  }

  /** Every thread has run the constructor of the new resource. */
  lemma GrownLog(g: Globals, g': Globals, f: Entry -> seq<Event>)
    requires TableOk(g) && LogOk(g) && SameShapes(g.table, g'.table) && g'.born == g.born
    requires g'.idCount == g.idCount + 1 <= |g'.types| && !g'.types[g.idCount].done
    requires forall i :: 0 <= i < g.idCount ==> g'.types[i] == g.types[i]
    requires (forall e :: f(e) == Births(e.base, g.idCount, g.idCount + 1)) && g'.log == g.log + OverTable(g.table, f)
    ensures LogOk(g')
  {
    hide TableOk, Holds, OverTable;
    var n := g.idCount;
    TableDistinct(g);
    SameHolds(g.table, g'.table);
    HeldBorn(g);
    forall e ensures f(e) == [Made(e.base, n)] {
      assert Births(e.base, n, n) == [];
    }
    forall b: nat, i: nat
      ensures multiset(g'.log)[Made(b, i)]
                == multiset(g.log)[Made(b, i)] + (if i == n && Holds(g.table, b) then 1 else 0)
      ensures multiset(g'.log)[Unmade(b, i)] == multiset(g.log)[Unmade(b, i)]
    {
      CountMade(g.table, f, n, b, i);
    }
  }

  lemma HeldBorn(g: Globals)
    requires TableOk(g)
    ensures forall b: nat :: Holds(g.table, b) ==> b < |g.born|
  {
    hide SlotOk;
    forall h, k | 0 <= h < |g.table| && 0 <= k < |g.table[h]| ensures g.table[h][k].base < |g.born| {
      assert EntriesOk(g.types, g.blocks, g.born, g.idCount, g.reservedSize, g.table[h]);
      assert EntryOk(g.types, g.blocks, g.born, g.idCount, g.reservedSize, g.table[h][k]);
    }
  }

  lemma CountMade(table: seq<seq<Entry>>, f: Entry -> seq<Event>, n: nat, b: nat, i: nat)
    requires DistinctTable(table) && forall e :: f(e) == [Made(e.base, n)]
    ensures multiset(OverTable(table, f))[Made(b, i)] == if i == n && Holds(table, b) then 1 else 0
    ensures multiset(OverTable(table, f))[Unmade(b, i)] == 0
  {
    hide OverTable, DistinctTable;
    OverTableCount(table, f, Made(b, i));
    OverTableCount(table, f, Unmade(b, i));
  }

  /** The types table with `r` in place `n`, one longer if need be. */
  function WithType(types: seq<Resource>, n: nat, r: Resource): (types': seq<Resource>)
    requires n <= |types|
    ensures n < |types'| && types'[n] == r && |types| <= |types'| && forall i :: 0 <= i < n ==> types'[i] == types[i]
  {
    if n < |types| then types[n := r] else types + [r]
  }

  /** What both allocations of an id do with the threads there are. */
  method AddType(g: Globals, r: Resource, pos: nat) returns (g': Globals)
    requires Valid(g) && !r.done
    requires FastOk(g.(idCount := g.idCount + 1, types := WithType(g.types, g.idCount, r), reservedPos := pos))
    ensures Valid(g') && SameShapes(g.table, g'.table)
    ensures g' == g.(idCount := g.idCount + 1, types := WithType(g.types, g.idCount, r), reservedPos := pos,
                     table := g'.table, blocks := g'.blocks, log := g'.log)
  {
    hide AllOk, OverTable, SameShapes, Births, LogOk;
    ghost var n := g.idCount;
    ghost var f := (e: Entry) => Births(e.base, n, n + 1);
    g' := g.(idCount := g.idCount + 1, types := WithType(g.types, g.idCount, r), reservedPos := pos);
    AllMore(g.types, g'.types, g.blocks, g.blocks, g.born, g.born, n, g.reservedSize, g.table);
    g' := UpdateActive(g', n, f);
    SameHolds(g.table, g'.table);
    GrownLog(g, g', f);
    assert |g'.table| == |g.table| by { ShapeLength(g.table, g'.table); }
  }

  lemma ShapeLength(table: seq<seq<Entry>>, table': seq<seq<Entry>>)
    requires SameShapes(table, table')
    ensures |table'| == |table|
  {
  }

  /** A type without space in the block, or with the next `bytes` of it. */
  lemma FastGrows(g: Globals, r: Resource, bytes: nat)
    requires FastOk(g) && (bytes == 0 || g.reservedPos + bytes <= g.reservedSize) && bytes % ALIGNMENT == 0
    requires r.fastOffset == 0 || (r.fastOffset == HEADER + g.reservedPos && r.size == bytes)
    ensures FastOk(g.(idCount := g.idCount + 1, types := WithType(g.types, g.idCount, r), reservedPos := g.reservedPos
              + bytes))
  {
    hide WithType, Apart;
    var types := WithType(g.types, g.idCount, r);
    forall i, j | 0 <= i < j < g.idCount + 1 ensures Apart(types[i], types[j]) {
      if j < g.idCount {
        assert Apart(g.types[i], g.types[j]);
      } else {
        ApartAbove(g.types[i], r, HEADER + g.reservedPos);
      }
    }
    TwoMultiples(g.reservedPos, bytes);
  }

  lemma ApartAbove(a: Resource, b: Resource, limit: nat)
    requires a.fastOffset != 0 ==> a.fastOffset + a.size <= limit
    requires b.fastOffset != 0 ==> limit <= b.fastOffset
    ensures Apart(a, b)
  {
  }

  lemma TwoMultiples(a: nat, b: nat)
    requires a % ALIGNMENT == 0 && b % ALIGNMENT == 0
    ensures (a + b) % ALIGNMENT == 0 && (HEADER + a) % ALIGNMENT == 0
  {
  }

  /** ts_allocate_id. */
  method AllocateId(g: Globals, size: Size) returns (id: nat, g': Globals)
    requires Valid(g)
    ensures Valid(g') && id == g.idCount + 1 && SameShapes(g.table, g'.table) && (TlsOk(g) ==> TlsOk(g'))
    ensures g' == g.(idCount := g.idCount + 1, types := WithType(g.types, g.idCount, Resource(size, 0, false)),
                     table := g'.table, blocks := g'.blocks, log := g'.log)
  {
    hide TableOk, LogOk, SameShapes, FastOk, WithType, TlsOk;
    id := g.idCount + 1;
    FastGrows(g, Resource(size, 0, false), 0);
    g' := AddType(g, Resource(size, 0, false), g.reservedPos);
    SameTls(g, g');
  }

  /**
   ts_allocate_fast_id.  Without room in the reserved space it fails, and then an
   id has been used up without an entry in the table of types.  The place it
   gives is as large as asked exactly when rounding the size does not wrap around.
   */
  method AllocateFastId(g: Globals, size: Size) returns (id: nat, offset: nat, g': Globals)
    requires Valid(g)
    ensures id == 0 <==> g.reservedSize - g.reservedPos < Aligned(size)
    ensures id == 0 ==> offset == 0 && g' == g.(idCount := g.idCount + 1)
    ensures id != 0 ==> Valid(g') && id == g.idCount + 1 && SameShapes(g.table, g'.table)
    ensures id != 0 ==> offset == HEADER + g.reservedPos
    ensures id != 0 ==>
      g' == g.(idCount := g.idCount + 1, types := WithType(g.types, g.idCount, Resource(Aligned(size), offset, false)),
               reservedPos := g.reservedPos + Aligned(size), table := g'.table, blocks := g'.blocks, log := g'.log)
    ensures id != 0 ==> (size <= g'.types[id - 1].size <==> !Wraps(size))
    ensures TlsOk(g) ==> TlsOk(g')
  {
    hide TableOk, LogOk, SameShapes, FastOk, Aligned, WithType, TlsOk;
    TypesFit(g);
    var bytes := Aligned(size);
    if g.reservedSize - g.reservedPos < bytes {
      SameTable(g, g.(idCount := g.idCount + 1));
      return 0, 0, g.(idCount := g.idCount + 1);
    }
    id, offset := g.idCount + 1, HEADER + g.reservedPos;
    FastGrows(g, Resource(bytes, offset, false), bytes);
    g' := AddType(g, Resource(bytes, offset, false), g.reservedPos + bytes);
    SameTls(g, g');
  }

  lemma TypesFit(g: Globals)
    requires FastOk(g)
    ensures g.idCount <= |g.types|
  {
  }

  /** The last sizes get a place of no bytes, whatever room there is. */
  lemma FastSizeWraps()
    ensures Aligned(SIZE_T - 1) == 0 && Wraps(SIZE_T - 1)
  {
  }

  /** After a failed fast allocation the entries lag behind the count of ids. */
  lemma FailedIdLags(g: Globals, b: nat)
    requires Valid(g) && Holds(g.table, b)
    ensures !Valid(g.(idCount := g.idCount + 1))
  {
    hide LogOk, FastOk, SlotOk;
    var h, k :| 0 <= h < |g.table| && 0 <= k < |g.table[h]| && g.table[h][k].base == b;
    assert EntriesOk(g.types, g.blocks, g.born, g.idCount, g.reservedSize, g.table[h]);
    assert EntryOk(g.types, g.blocks, g.born, g.idCount, g.reservedSize, g.table[h][k]);
    if g.idCount < |g.types| {
      assert !EntriesOk(g.types, g.blocks, g.born, g.idCount + 1, g.reservedSize, g.table[h]);
    }
  }

  // ------------------------------------------------------------- freeing an id

  /** An entry after the release of resource `id`. */
  function Cleared(e: Entry, id: nat): Entry {
    if id < e.count && id < |e.storage| then e.(storage := e.storage[id := Null]) else e
  }

  function ClearEvents(e: Entry, id: nat): seq<Event> {
    if id < e.count && id < |e.storage| && e.storage[id] != Null then [Unmade(e.base, id)] else []
  }

  /** One entry in ts_free_id. */
  method ClearEntry(e: Entry, id: nat, log: seq<Event>) returns (e': Entry, log': seq<Event>)
    requires e.count == |e.storage|
    ensures e' == Cleared(e, id) && log' == log + ClearEvents(e, id)
  {
    e', log' := e, log;
    if e.count > id && e.storage[id] != Null {
      log' := log' + [Unmade(e.base, id)];
      e' := e.(storage := e.storage[id := Null]);
    }
  }

  method ClearBucket(bucket: seq<Entry>, id: nat, log: seq<Event>, ghost f: Entry -> seq<Event>)
    returns (bucket': seq<Entry>, log': seq<Event>)
    requires (forall e :: f(e) == ClearEvents(e, id)) && forall k :: 0 <= k < |bucket| ==>
              bucket[k].count == |bucket[k].storage|
    ensures |bucket'| == |bucket| && forall k :: 0 <= k < |bucket| ==> bucket'[k] == Cleared(bucket[k], id)
    ensures log' == log + OverBucket(bucket, f)
  {
    hide Cleared, ClearEvents;
    bucket', log' := bucket, log;
    var k := 0;
    while k < |bucket|
      invariant 0 <= k <= |bucket| && |bucket'| == |bucket| && log' == log + OverBucket(bucket[..k], f)
      invariant forall l :: 0 <= l < k ==> bucket'[l] == Cleared(bucket[l], id)
      invariant forall l :: k <= l < |bucket| ==> bucket'[l] == bucket[l]
    {
      var e;
      e, log' := ClearEntry(bucket[k], id, log');
      bucket' := bucket'[k := e];
      assert bucket[..k + 1][..k] == bucket[..k];
      k := k + 1;
    }
    assert bucket[..k] == bucket;
  }

  lemma ClearedOk(types: seq<Resource>, blocks: seq<(nat, nat)>, born: seq<nat>, n: nat, room: nat, e: Entry, id: nat)
    requires id < n <= |types| && EntryOk(types, blocks, born, n, room, e)
    ensures EntryOk(types[id := types[id].(done := true)], blocks, born, n, room, Cleared(e, id))
  {
  }

  /** ts_free_id: every thread's copy is destroyed once, however often the id is freed. */
  method FreeId(g: Globals, id: nat) returns (g': Globals)
    requires Valid(g) && 1 <= id <= g.idCount
    ensures Valid(g') && SameShapes(g.table, g'.table) && (TlsOk(g) ==> TlsOk(g'))
    ensures g' == g.(table := g'.table, log := g'.log, types := g.types[id - 1 := g.types[id - 1].(done := true)])
    ensures g.types[id - 1].done ==> multiset(g'.log) == multiset(g.log)
  {
    hide EntriesOk, OverBucket, BucketOk, LogOk, FastOk, TlsOk;
    var r := id - 1;
    ghost var f := (e: Entry) => ClearEvents(e, r);
    var h, log := 0, g.log;
    var table := g.table;
    while h < |g.table|
      invariant 0 <= h <= |g.table| && |table| == |g.table| && log == g.log + OverTable(g.table[..h], f)
      invariant forall j :: 0 <= j < h ==> ClearedBucket(g.table[j], table[j], r)
      invariant forall j :: h <= j < |g.table| ==> table[j] == g.table[j]
    {
      CountsOk(g.types, g.blocks, g.born, g.idCount, g.reservedSize, g.table[h]);
      var bucket;
      bucket, log := ClearBucket(g.table[h], r, log, f);
      table := table[h := bucket];
      assert g.table[..h + 1][..h] == g.table[..h];
      assert OverTable(g.table[..h + 1], f) == OverTable(g.table[..h], f) + OverBucket(g.table[h], f) by {
        OverTableNext(g.table, h, f);
      }
      h := h + 1;
    }
    assert g.table[..h] == g.table;
    g' := g.(table := table, log := log, types := g.types[r := g.types[r].(done := true)]);
    ClearedTable(g, g', r, f);
    SameTls(g, g');
  }

  lemma OverTableNext(table: seq<seq<Entry>>, h: nat, f: Entry -> seq<Event>)
    requires h < |table|
    ensures OverTable(table[..h + 1], f) == OverTable(table[..h], f) + OverBucket(table[h], f)
  {
    assert table[..h + 1][..h] == table[..h];
  }

  ghost predicate ClearedBucket(bucket: seq<Entry>, bucket': seq<Entry>, id: nat) {
    |bucket'| == |bucket| && forall k :: 0 <= k < |bucket| ==> bucket'[k] == Cleared(bucket[k], id)
  }

  lemma CountsOk(types: seq<Resource>, blocks: seq<(nat, nat)>, born: seq<nat>, n: nat, room: nat, bucket: seq<Entry>)
    requires n <= |types| && EntriesOk(types, blocks, born, n, room, bucket)
    ensures forall k :: 0 <= k < |bucket| ==> bucket[k].count == |bucket[k].storage|
  {
    hide SlotOk;
    assert forall k :: 0 <= k < |bucket| ==> EntryOk(types, blocks, born, n, room, bucket[k]);
  }

  lemma ClearedTable(g: Globals, g': Globals, r: nat, f: Entry -> seq<Event>)
    requires Valid(g) && r < g.idCount && |g'.table| == |g.table|
    requires g' == g.(table := g'.table, log := g.log
              + OverTable(g.table, f), types := g.types[r := g.types[r].(done := true)])
    requires (forall e :: f(e) == ClearEvents(e, r)) && forall h :: 0 <= h < |g.table| ==>
              ClearedBucket(g.table[h], g'.table[h], r)
    ensures Valid(g') && SameShapes(g.table, g'.table)
    ensures g.types[r].done ==> multiset(g'.log) == multiset(g.log)
  {
    hide OverTable, BucketOk, EntryOk, LogOk;
    forall h | 0 <= h < |g.table| ensures SameShape(g.table[h], g'.table[h])
      && EntriesOk(g'.types, g'.blocks, g'.born, g'.idCount, g'.reservedSize, g'.table[h])
    {
      assert EntriesOk(g.types, g.blocks, g.born, g.idCount, g.reservedSize, g.table[h]);
      forall k | 0 <= k < |g.table[h]|
        ensures EntryOk(g'.types, g'.blocks, g'.born, g'.idCount, g'.reservedSize, g'.table[h][k])
      {
        ClearedOk(g.types, g.blocks, g.born, g.idCount, g.reservedSize, g.table[h][k], r);
      }
    }
    SameHolds(g.table, g'.table);
    ClearedLog(g, g', r, f);
  }

  lemma ClearedLog(g: Globals, g': Globals, r: nat, f: Entry -> seq<Event>)
    requires TableOk(g) && g.idCount <= |g.types| && LogOk(g) && r < g.idCount && SameShapes(g.table, g'.table)
    requires g' == g.(table := g'.table, log := g.log
              + OverTable(g.table, f), types := g.types[r := g.types[r].(done := true)])
    requires forall e :: f(e) == ClearEvents(e, r)
    ensures LogOk(g') && (g.types[r].done ==> multiset(g'.log) == multiset(g.log))
  {
    hide OverTable, Holds, TableOk;
    SameHolds(g.table, g'.table);
    var more := multiset(OverTable(g.table, f));
    assert multiset(g'.log) == multiset(g.log) + more;
    forall b: nat, i: nat
      ensures more[Made(b, i)] == 0 && more[Unmade(b, i)] == if i == r && !g.types[r].done
              && Holds(g.table, b) then 1 else 0
    {
      CountCleared(g, r, f, Made(b, i));
      CountCleared(g, r, f, Unmade(b, i));
    }
    if g.types[r].done {
      forall v: Event ensures more[v] == 0 {
        CountCleared(g, r, f, v);
      }
    }
  }

  lemma CountCleared(g: Globals, r: nat, f: Entry -> seq<Event>, v: Event)
    requires TableOk(g) && r < g.idCount && forall e :: f(e) == ClearEvents(e, r)
    ensures multiset(OverTable(g.table, f))[v] == if v.Unmade? && v.id == r && !g.types[r].done
            && Holds(g.table, v.base) then 1 else 0
  {
    hide OverTable, DistinctTable, BucketOk;
    TableDistinct(g);
    assert Owned(f);
    OverTableCount(g.table, f, v);
    if h, k :| 0 <= h < |g.table| && 0 <= k < |g.table[h]| && g.table[h][k].base == v.base {
      assert EntriesOk(g.types, g.blocks, g.born, g.idCount, g.reservedSize, g.table[h]);
      var e := g.table[h][k];
      assert EntryOk(g.types, g.blocks, g.born, g.idCount, g.reservedSize, e);
      assert SlotOk(g.types, g.blocks, e.base, r, e.storage[r]);
      assert multiset(OverTable(g.table, f))[v] == multiset(f(e))[v];
    }
  }

  // ------------------------------------------------------------------ teardown

  /** The destructors of one entry, the highest id first. */
  function Deaths(base: nat, types: seq<Resource>, n: nat): seq<Event>
    requires n <= |types|
  {
    if n == 0 then []
    else if types[n - 1].done then Deaths(base, types, n - 1)
    else [Unmade(base, n - 1)] + Deaths(base, types, n - 1)
  }

  lemma ConsCount(first: Event, rest: seq<Event>, v: Event)
    ensures multiset([first] + rest)[v] == multiset(rest)[v] + if v == first then 1 else 0
  {
  }

  /** The event is about one of the first `n` resources of the entry that has not been freed. */
  predicate Concerns(base: nat, types: seq<Resource>, n: nat, v: Event)
    requires n <= |types|
  {
    v.base == base && v.id < n && !types[v.id].done
  }

  lemma ConcernsStep(base: nat, types: seq<Resource>, n: nat, v: Event)
    requires n <= |types|
    ensures n == 0 ==> !Concerns(base, types, n, v)
    ensures n > 0 && types[n - 1].done ==> (Concerns(base, types, n, v) <==> Concerns(base, types, n - 1, v))
    ensures n > 0 && !types[n - 1].done ==>
      && (Concerns(base, types, n, v) <==>
            Concerns(base, types, n - 1, v) || v == Unmade(base, n - 1) || v == Made(base, n - 1))
      && !Concerns(base, types, n - 1, Unmade(base, n - 1)) && !Concerns(base, types, n - 1, Made(base, n - 1))
  {
  }

  lemma DeathsStep(base: nat, types: seq<Resource>, n: nat)
    requires n <= |types|
    ensures n == 0 ==> Deaths(base, types, n) == []
    ensures n > 0 && types[n - 1].done ==> Deaths(base, types, n) == Deaths(base, types, n - 1)
    ensures n > 0 && !types[n - 1].done ==> Deaths(base, types, n) == [Unmade(base, n - 1)] + Deaths(base, types, n - 1)
  {
  }

  lemma DeathsMore(base: nat, types: seq<Resource>, n: nat, v: Event)
    requires 0 < n <= |types|
    ensures multiset(Deaths(base, types, n))[v]
         == multiset(Deaths(base, types, n - 1))[v] + if !types[n - 1].done && v == Unmade(base, n - 1) then 1 else 0
  {
    DeathsStep(base, types, n);
    hide *;
    ConsCount(Unmade(base, n - 1), Deaths(base, types, n - 1), v);
  }

  lemma {:induction false} DeathsCount(base: nat, types: seq<Resource>, n: nat, v: Event)
    requires n <= |types|
    ensures multiset(Deaths(base, types, n))[v] == if v.Unmade? && Concerns(base, types, n, v) then 1 else 0
  {
    if n > 0 {
      ConcernsStep(base, types, n, v);
      DeathsMore(base, types, n, v);
      hide *;
      DeathsCount(base, types, n - 1, v);
    }
  }

  /** No destructor runs after that of a resource with a lower id. */
  lemma {:induction false} DeathsDescend(base: nat, types: seq<Resource>, n: nat)
    requires n <= |types|
    ensures forall k :: 0 <= k < |Deaths(base, types, n)| ==>
              Deaths(base, types, n)[k].Unmade? && Deaths(base, types, n)[k].id < n
    ensures forall k, l :: 0 <= k < l < |Deaths(base, types, n)| ==>
              Deaths(base, types, n)[k].id > Deaths(base, types, n)[l].id
  {
    if n > 0 {
      DeathsDescend(base, types, n - 1);
    }
  }

  /** ts_free_resources. */
  method FreeResources(types: seq<Resource>, e: Entry, log: seq<Event>) returns (log': seq<Event>)
    requires e.count <= |types|
    ensures log' == log + Deaths(e.base, types, e.count)
  {
    log' := log;
    var i := e.count;
    while i > 0
      invariant 0 <= i <= e.count && log' + Deaths(e.base, types, i) == log + Deaths(e.base, types, e.count)
    {
      i := i - 1;
      ghost var before := log';
      if !types[i].done {
        log' := log' + [Unmade(e.base, i)];
      }
      assert log' + Deaths(e.base, types, i) == before + Deaths(e.base, types, i + 1);
    }
  }

  // ---------------------------------------------------------- buckets that change

  lemma HoldsUpdate(table: seq<seq<Entry>>, h: nat, bucket: seq<Entry>, b: nat)
    requires h < |table| && DistinctTable(table)
    ensures Holds(table[h := bucket], b) <==> (Holds(table, b) && !InBucket(table[h], b)) || InBucket(bucket, b)
  {
    hide DistinctBases;
    var table': seq<seq<Entry>> := table[h := bucket];
    if i, k :| 0 <= i < |table| && 0 <= k < |table[i]| && table[i][k].base == b {
      assert InBucket(table[i], b);
      if i != h {
        assert table'[i][k].base == b;
        assert !InBucket(table[h], b);
      }
    }
    if i, k :| 0 <= i < |table'| && 0 <= k < |table'[i]| && table'[i][k].base == b {
      if i != h {
        assert table[i][k].base == b;
        assert InBucket(table[i], b);
        assert !InBucket(table[h], b);
      } else {
        assert InBucket(bucket, b);
      }
    }
    if k :| 0 <= k < |bucket| && bucket[k].base == b {
      assert table'[h][k].base == b;
    }
  }

  lemma WithoutEntry(bucket: seq<Entry>, k: nat, b: nat)
    requires k < |bucket| && DistinctBases(bucket)
    ensures InBucket(bucket[..k] + bucket[k + 1..], b) <==> InBucket(bucket, b) && b != bucket[k].base
  {
    var rest := bucket[..k] + bucket[k + 1..];
    if l :| 0 <= l < |bucket| && bucket[l].base == b {
      if l != k {
        assert rest[if l < k then l else l - 1] == bucket[l];
      }
    }
    if l :| 0 <= l < |rest| && rest[l].base == b {
      assert rest[l] == bucket[if l < k then l else l + 1];
    }
  }

  /** The log after an entry has been torn down. */
  lemma RemovedLog(g: Globals, g': Globals, base: nat)
    requires g.idCount <= |g.types| && LogOk(g) && Holds(g.table, base)
    requires g'.types == g.types && g'.idCount == g.idCount && g'.born == g.born
    requires g'.log == g.log + Deaths(base, g.types, g.idCount)
    requires forall b: nat :: Holds(g'.table, b) <==> Holds(g.table, b) && b != base
    ensures LogOk(g')
  {
    hide Holds, Deaths;
    var more := multiset(Deaths(base, g.types, g.idCount));
    assert multiset(g'.log) == multiset(g.log) + more;
    forall b: nat, i: nat
      ensures more[Made(b, i)] == 0 && more[Unmade(b, i)] == if b == base && i < g.idCount
              && !g.types[i].done then 1 else 0
    {
      DeathsCount(base, g.types, g.idCount, Made(b, i));
      DeathsCount(base, g.types, g.idCount, Unmade(b, i));
    }
  }

  /** Where the entry of a thread is in its bucket. */
  method FindThread(bucket: seq<Entry>, thread: nat) returns (k: nat)
    ensures k <= |bucket| && (k < |bucket| ==> bucket[k].thread == thread)
    ensures forall l :: 0 <= l < k ==> bucket[l].thread != thread
  {
    k := 0;
    while k < |bucket| && bucket[k].thread != thread
      invariant 0 <= k <= |bucket| && forall l :: 0 <= l < k ==> bucket[l].thread != thread
    {
      k := k + 1;
    }
  }

  /** The table without the `k`-th entry of bucket `h`. */
  lemma RemovedTable(g: Globals, g': Globals, h: nat, k: nat)
    requires Valid(g) && h < |g.table| && k < |g.table[h]|
    requires g' == g.(table := g.table[h := g.table[h][..k] + g.table[h][k + 1..]], tls := g'.tls, log := g'.log)
    requires g'.log == g.log + Deaths(g.table[h][k].base, g.types, g.idCount)
    ensures Valid(g') && !Holds(g'.table, g.table[h][k].base)
    ensures forall b: nat :: Holds(g'.table, b) <==> Holds(g.table, b) && b != g.table[h][k].base
  {
    hide EntryOk, Deaths, LogOk;
    var bucket, base := g.table[h], g.table[h][k].base;
    var rest := bucket[..k] + bucket[k + 1..];
    forall l | 0 <= l < |rest| ensures rest[l] == bucket[if l < k then l else l + 1] {}
    assert BucketOk(bucket, h, |g.table|) && EntriesOk(g.types, g.blocks, g.born, g.idCount, g.reservedSize, bucket);
    assert BucketOk(rest, h, |g.table|) && EntriesOk(g.types, g.blocks, g.born, g.idCount, g.reservedSize, rest);
    TableDistinct(g);
    assert Holds(g.table, base);
    forall b: nat ensures Holds(g'.table, b) <==> Holds(g.table, b) && b != base {
      HoldsUpdate(g.table, h, rest, b);
      WithoutEntry(bucket, k, b);
      assert InBucket(bucket, b) ==> Holds(g.table, b);
    }
    RemovedLog(g, g', base);
  }

  /** ts_free_thread for the calling thread. */
  method FreeThread(g: Globals, self: nat) returns (g': Globals)
    requires Valid(g)
    ensures Valid(g') && g'.types == g.types && g'.idCount == g.idCount && (TlsOk(g) ==> TlsOk(g'))
    ensures forall b: nat :: OwnPointer(g, self, b) ==> !Holds(g'.table, b)
    ensures var h := Hash(self, |g.table|);
            || ((forall k :: 0 <= k < |g.table[h]| ==> g.table[h][k].thread != self) && g' == g)
            || (exists k :: 0 <= k < |g.table[h]| && g.table[h][k].thread == self
                            && g' == g.(table := g.table[h := g.table[h][..k] + g.table[h][k + 1..]],
                                tls := g.tls - {self},
                                        log := g.log + Deaths(g.table[h][k].base, g.types, g.idCount)))
  {
    hide EntryOk, Deaths, LogOk, FastOk, BucketOk, TlsOk, Holds;
    g' := g;
    var h := Hash(self, |g.table|);
    var k := FindThread(g.table[h], self);
    OneEntry(g, self);
    assert k < |g.table[h]| ==> EntryAt(g, self, k, g.table[h][k]);
    if k < |g.table[h]| {
      var e := g.table[h][k];
      assert EntriesOk(g.types, g.blocks, g.born, g.idCount, g.reservedSize, g.table[h]);
      EntryCount(g.types, g.blocks, g.born, g.idCount, g.reservedSize, e);
      var log := FreeResources(g.types, e, g.log);
      g' := g.(table := g.table[h := g.table[h][..k] + g.table[h][k + 1..]], tls := g.tls - {self}, log := log);
      RemovedTable(g, g', h, k);
      RemovedTls(g, g', h, k);
    }
  }

  /** The pointers of the other threads still name their entries. */
  lemma RemovedTls(g: Globals, g': Globals, h: nat, k: nat)
    requires TableOk(g) && h < |g.table| && k < |g.table[h]|
    requires g'.table == g.table[h := g.table[h][..k] + g.table[h][k + 1..]] && g'.tls == g.tls - {g.table[h][k].thread}
    ensures TlsOk(g) ==> TlsOk(g')
  {
    hide Hash, EntryOk, BucketOk;
    var rest := g.table[h][..k] + g.table[h][k + 1..];
    forall t: nat, b: nat | OwnPointer(g, t, b) && t != g.table[h][k].thread ensures OwnPointer(g', t, b) {
      var l: nat, e :| EntryAt(g, t, l, e) && e.base == b;
      if Hash(t, |g.table|) == h {
        assert rest[if l < k then l else l - 1] == e;
        assert EntryAt(g', t, if l < k then l else l - 1, e);
      } else {
        assert EntryAt(g', t, l, e);
      }
    }
  }

  // --------------------------------------------------------------- new threads

  /** The constructors of one entry, for the resources that have not been freed. */
  function NewBirths(base: nat, types: seq<Resource>, n: nat): seq<Event>
    requires n <= |types|
  {
    if n == 0 then []
    else if types[n - 1].done then NewBirths(base, types, n - 1)
    else NewBirths(base, types, n - 1) + [Made(base, n - 1)]
  }

  lemma SnocCount(rest: seq<Event>, last: Event, v: Event)
    ensures multiset(rest + [last])[v] == multiset(rest)[v] + if v == last then 1 else 0
  {
  }

  lemma NewBirthsStep(base: nat, types: seq<Resource>, n: nat)
    requires n <= |types|
    ensures n == 0 ==> NewBirths(base, types, n) == []
    ensures n > 0 && types[n - 1].done ==> NewBirths(base, types, n) == NewBirths(base, types, n - 1)
    ensures n > 0 && !types[n - 1].done ==>
              NewBirths(base, types, n) == NewBirths(base, types, n - 1) + [Made(base, n - 1)]
  {
  }

  lemma NewBirthsMore(base: nat, types: seq<Resource>, n: nat, v: Event)
    requires 0 < n <= |types|
    ensures multiset(NewBirths(base, types, n))[v]
         == multiset(NewBirths(base, types, n - 1))[v] + if !types[n - 1].done && v == Made(base, n - 1) then 1 else 0
  {
    NewBirthsStep(base, types, n);
    hide *;
    SnocCount(NewBirths(base, types, n - 1), Made(base, n - 1), v);
  }

  lemma {:induction false} NewBirthsCount(base: nat, types: seq<Resource>, n: nat, v: Event)
    requires n <= |types|
    ensures multiset(NewBirths(base, types, n))[v] == if v.Made? && Concerns(base, types, n, v) then 1 else 0
  {
    if n > 0 {
      ConcernsStep(base, types, n, v);
      NewBirthsMore(base, types, n, v);
      hide *;
      NewBirthsCount(base, types, n - 1, v);
    }
  }

  /** allocate_new_resource, up to linking the entry. */
  method NewEntry(g: Globals, thread: nat, self: nat) returns (e: Entry, g': Globals)
    requires g.idCount <= |g.types| && HEADER + g.reservedSize < SIZE_T
    ensures e.base == |g.born| && e.thread == thread
    ensures EntryOk(g.types, g'.blocks, g'.born, g.idCount, g.reservedSize, e) && g.blocks <= g'.blocks
    ensures g' == g.(born := g.born + [thread], tls := g.tls[self := |g.born|], blocks := g'.blocks,
                     log := g.log + NewBirths(|g.born|, g.types, g.idCount))
  {
    hide SlotOk;
    var base, storage, blocks, log := |g.born|, [], g.blocks, g.log;
    var i := 0;
    while i < g.idCount
      invariant 0 <= i <= g.idCount && |storage| == i && g.blocks <= blocks
      invariant forall j :: 0 <= j < i ==> SlotOk(g.types, blocks, base, j, storage[j])
      invariant log == g.log + NewBirths(base, g.types, i)
    {
      if g.types[i].done {
        DoneSlot(g.types, blocks, base, i);
        storage := storage + [Null];
      } else {
        ghost var before := blocks;
        var s;
        s, blocks := FillSlot(g.types, blocks, base, i);
        SlotsMore(g.types, before, blocks, base, storage);
        storage := storage + [s];
        log := log + [Made(base, i)];
      }
      i := i + 1;
    }
    e := Entry(base, thread, g.idCount, storage, (HEADER + g.reservedSize) % SIZE_T - HEADER);
    g' := g.(born := g.born + [thread], tls := g.tls[self := base], blocks := blocks, log := log);
  }

  lemma DoneSlot(types: seq<Resource>, blocks: seq<(nat, nat)>, base: nat, id: nat)
    requires id < |types| && types[id].done
    ensures SlotOk(types, blocks, base, id, Null)
  {
  }

  /** The log after an entry has been set up. */
  lemma AddedLog(g: Globals, g': Globals, base: nat)
    requires g.idCount <= |g.types| && LogOk(g) && !Holds(g.table, base) && base == |g.born| < |g'.born|
    requires g'.types == g.types && g'.idCount == g.idCount
    requires g'.log == g.log + NewBirths(base, g.types, g.idCount)
    requires forall b: nat :: Holds(g'.table, b) <==> Holds(g.table, b) || b == base
    ensures LogOk(g')
  {
    hide Holds, NewBirths;
    var more := multiset(NewBirths(base, g.types, g.idCount));
    assert multiset(g'.log) == multiset(g.log) + more;
    forall b: nat, i: nat
      ensures more[Unmade(b, i)] == 0 && more[Made(b, i)] == if b == base && i < g.idCount
              && !g.types[i].done then 1 else 0
    {
      NewBirthsCount(base, g.types, g.idCount, Made(b, i));
      NewBirthsCount(base, g.types, g.idCount, Unmade(b, i));
    }
  }

  ghost function Insert(bucket: seq<Entry>, k: nat, e: Entry): seq<Entry>
    requires k <= |bucket|
  {
    bucket[..k] + [e] + bucket[k..]
  }

  lemma InsertAt(bucket: seq<Entry>, k: nat, e: Entry, l: nat)
    requires k <= |bucket| && l <= |bucket|
    ensures |Insert(bucket, k, e)| == |bucket| + 1
    ensures Insert(bucket, k, e)[l] == if l < k then bucket[l] else if l == k then e else bucket[l - 1]
  {
  }

  lemma InsertFacts(bucket: seq<Entry>, k: nat, e: Entry)
    requires k <= |bucket|
    ensures |Insert(bucket, k, e)| == |bucket| + 1 && Insert(bucket, k, e)[k] == e
    ensures forall l :: 0 <= l < |bucket| ==> Insert(bucket, k, e)[if l < k then l else l + 1] == bucket[l]
    ensures forall l :: 0 <= l <= |bucket| && l != k ==> Insert(bucket, k, e)[l] == bucket[if l < k then l else l - 1]
  {
    hide Insert;
    InsertAt(bucket, k, e, k);
    forall l | 0 <= l < |bucket| ensures Insert(bucket, k, e)[if l < k then l else l + 1] == bucket[l] {
      InsertAt(bucket, k, e, if l < k then l else l + 1);
    }
    forall l | 0 <= l <= |bucket| && l != k ensures Insert(bucket, k, e)[l] == bucket[if l < k then l else l - 1] {
      InsertAt(bucket, k, e, l);
    }
  }

  lemma InsertHolds(bucket: seq<Entry>, k: nat, e: Entry, b: nat)
    requires k <= |bucket|
    ensures InBucket(Insert(bucket, k, e), b) <==> InBucket(bucket, b) || b == e.base
  {
    hide Insert;
    InsertFacts(bucket, k, e);
    var more := Insert(bucket, k, e);
    if l :| 0 <= l < |bucket| && bucket[l].base == b {
      assert more[if l < k then l else l + 1].base == b;
    }
    if b == e.base {
      assert more[k].base == b;
    }
  }

  /** The table with a new entry at place `k` of its thread's bucket. */
  lemma AddedTable(g: Globals, g': Globals, h: nat, k: nat, e: Entry)
    requires Valid(g) && h < |g.table| && k <= |g.table[h]| && Hash(e.thread, |g.table|) == h
    requires forall l :: 0 <= l < |g.table[h]| ==> g.table[h][l].thread != e.thread
    requires e.base == |g.born| && g'.born == g.born + [e.thread] && g.blocks <= g'.blocks
    requires EntryOk(g.types, g'.blocks, g'.born, g.idCount, g.reservedSize, e)
    requires g' == g.(table := g.table[h := Insert(g.table[h], k, e)], born := g'.born, blocks := g'.blocks,
              tls := g'.tls,
                      log := g.log + NewBirths(e.base, g.types, g.idCount))
    ensures Valid(g')
  {
    hide EntryOk, NewBirths, LogOk, Insert, InBucket, Holds, Hash;
    var bucket := g.table[h];
    var more := Insert(bucket, k, e);
    InsertFacts(bucket, k, e);
    AllMore(g.types, g.types, g.blocks, g'.blocks, g.born, g'.born, g.idCount, g.reservedSize, g.table);
    assert BucketOk(bucket, h, |g.table|) && EntriesOk(g.types, g'.blocks, g'.born, g.idCount, g.reservedSize, bucket);
    assert BucketOk(more, h, |g.table|) && EntriesOk(g.types, g'.blocks, g'.born, g.idCount, g.reservedSize, more);
    TableDistinct(g);
    HeldBorn(g);
    forall b: nat ensures Holds(g'.table, b) <==> Holds(g.table, b) || b == e.base {
      HoldsUpdate(g.table, h, more, b);
      BucketHolds(g.table, h, b);
      InsertHolds(bucket, k, e, b);
    }
    AddedLog(g, g', e.base);
  }

  lemma BucketHolds(table: seq<seq<Entry>>, h: nat, b: nat)
    requires h < |table|
    ensures InBucket(table[h], b) ==> Holds(table, b)
  {
  }

  // ----------------------------------------------------------------- resources

  /** The storage itself, one slot of it, or whatever is left where an entry has been torn down. */
  datatype Fetched = Whole(base: nat) | One(slot: Slot) | Dangling

  /** The optional thread id of ts_resource_ex. */
  datatype Asked = Mine | Of(thread: nat)

  function Wanted(asked: Asked, self: nat): nat {
    if asked.Mine? then self else asked.thread
  }

  /** TSRM_SAFE_RETURN_RSRC: the storage itself for id 0, else the slot of the id. */
  function Read(e: Entry, id: nat): Fetched
    requires id <= |e.storage|
  {
    if id == 0 then Whole(e.base) else One(e.storage[id - 1])
  }

  /**
   Access by id and access by offset from the thread pointer give the same place,
   aligned and within the block of the thread's own entry.
   */
  lemma FastAgrees(g: Globals, self: nat, id: nat)
    requires Valid(g) && TlsOk(g) && self in g.tls && 1 <= id <= g.idCount
    requires !g.types[id - 1].done && g.types[id - 1].fastOffset != 0
    ensures exists k: nat, e :: EntryAt(g, self, k, e) && FastAt(g, e, self, id)
  {
    hide LogOk, BucketOk, Hash;
    assert OwnPointer(g, self, g.tls[self]);
    var k: nat, e :| EntryAt(g, self, k, e) && e.base == g.tls[self];
    assert EntriesOk(g.types, g.blocks, g.born, g.idCount, g.reservedSize, g.table[Hash(self, |g.table|)]);
    assert EntryOk(g.types, g.blocks, g.born, g.idCount, g.reservedSize, e);
    assert SlotOk(g.types, g.blocks, e.base, id - 1, e.storage[id - 1]);
    assert FastAt(g, e, self, id);
  }

  /** In entry `e` resource `id` lies at the thread pointer of `self` plus its offset. */
  ghost predicate FastAt(g: Globals, e: Entry, self: nat, id: nat)
    requires 1 <= id <= g.idCount <= |g.types| && self in g.tls
  {
    var r := g.types[id - 1];
    && id <= |e.storage| && Read(e, id) == One(Fast(g.tls[self], r.fastOffset))
    && r.fastOffset % ALIGNMENT == 0 && HEADER <= r.fastOffset && r.fastOffset + r.size <= HEADER + e.room
  }

  /** Two slots in use are different memory: other threads', or other resources'. */
  lemma SlotsApart(g: Globals, h: nat, k: nat, i: nat, h': nat, k': nat, j: nat)
    requires Valid(g) && h < |g.table| && k < |g.table[h]| && i < g.idCount && h' < |g.table| && k' < |g.table[h']|
             && j < g.idCount
    requires (h, k, i) != (h', k', j)
    ensures i < |g.table[h][k].storage| && j < |g.table[h'][k'].storage|
    ensures var s, t := g.table[h][k].storage[i], g.table[h'][k'].storage[j];
            s != Null && t != Null && s == t ==> s.Fast? && (g.types[i].size == 0 || g.types[j].size == 0)
  {
    hide LogOk;
    TableDistinct(g);
    assert EntriesOk(g.types, g.blocks, g.born, g.idCount, g.reservedSize, g.table[h]);
    assert EntriesOk(g.types, g.blocks, g.born, g.idCount, g.reservedSize, g.table[h']);
    var e, f := g.table[h][k], g.table[h'][k'];
    assert EntryOk(g.types, g.blocks, g.born, g.idCount, g.reservedSize, e);
    assert EntryOk(g.types, g.blocks, g.born, g.idCount, g.reservedSize, f);
    assert SlotOk(g.types, g.blocks, e.base, i, e.storage[i]) && SlotOk(g.types, g.blocks, f.base, j, f.storage[j]);
    assert (h, k) != (h', k') ==> e.base != f.base by {
      assert InBucket(g.table[h], e.base) && InBucket(g.table[h'], f.base);
      assert DistinctBases(g.table[h]);
    }
    assert i < j ==> Apart(g.types[i], g.types[j]);
    assert j < i ==> Apart(g.types[j], g.types[i]);
  }

  /**
   What the entry at `base` has for `id`: its storage for 0, nothing for a freed id, the place
   at the offset of a fast id, and else the block made for this entry and this id.
   */
  ghost predicate Delivers(g: Globals, base: nat, id: nat, r: Fetched) {
    && g.idCount <= |g.types| && id <= g.idCount && Holds(g.table, base)
    && if id == 0 then r == Whole(base)
       else if g.types[id - 1].done then r == One(Null)
       else if g.types[id - 1].fastOffset != 0 then r == One(Fast(base, g.types[id - 1].fastOffset))
       else r.One? && r.slot.Own? && r.slot.block < |g.blocks| && g.blocks[r.slot.block] == (base, id - 1)
  }

  /** The same of the one entry that was made for thread `t`. */
  ghost predicate DeliversTo(g: Globals, t: nat, id: nat, r: Fetched) {
    exists base: nat :: base < |g.born| && g.born[base] == t && Delivers(g, base, id, r)
  }

  lemma ReadDelivers(g: Globals, h: nat, k: nat, id: nat)
    requires Valid(g) && h < |g.table| && k < |g.table[h]| && id <= g.idCount
    ensures id <= |g.table[h][k].storage| && Delivers(g, g.table[h][k].base, id, Read(g.table[h][k], id))
    ensures DeliversTo(g, g.table[h][k].thread, id, Read(g.table[h][k], id))
  {
    hide LogOk, BucketOk, FastOk;
    var e := g.table[h][k];
    assert EntriesOk(g.types, g.blocks, g.born, g.idCount, g.reservedSize, g.table[h]);
    assert EntryOk(g.types, g.blocks, g.born, g.idCount, g.reservedSize, e);
    assert id > 0 ==> SlotOk(g.types, g.blocks, e.base, id - 1, e.storage[id - 1]);
  }

  lemma EntryDelivers(g: Globals, t: nat, id: nat, r: Fetched)
    requires Valid(g) && id <= g.idCount && ReadFrom(g, t, id, r)
    ensures DeliversTo(g, t, id, r)
  {
    hide Valid, DeliversTo, Delivers, Hash, Read;
    var k: nat, e :| EntryAt(g, t, k, e) && id <= |e.storage| && r == Read(e, id);
    ReadDelivers(g, Hash(t, |g.table|), k, id);
  }

  /** The slow path of ts_resource_ex, under the mutex: the entry of thread `t`, made or made anew if need be. */
  method FetchSlow(g: Globals, self: nat, t: nat, id: nat) returns (r: Fetched, g': Globals)
    requires Valid(g) && id <= g.idCount
    ensures Valid(g') && g'.types == g.types && g'.idCount == g.idCount
    ensures ReadFrom(g', t, id, r) && DeliversTo(g', t, id, r)
    ensures (exists k: nat, e :: EntryAt(g, t, k, e)) && (t == self ==> self in g.tls) ==> g' == g
    ensures (forall k: nat, e :: !EntryAt(g, t, k, e)) ==> g'.log == g.log + NewBirths(|g.born|, g.types, g.idCount)
    ensures forall k: nat, e :: EntryAt(g, t, k, e) && t == self && self !in g.tls ==>
              g'.log == g.log + Deaths(e.base, g.types, g.idCount) + NewBirths(|g.born|, g.types, g.idCount)
    ensures g' == g || g'.tls == g.tls[self := |g.born|]
    ensures !HasEntry(g, t) ==> OwnPointer(g', t, |g.born|) && g'.tls == g.tls[self := |g.born|]
    ensures TlsOk(g) ==> (TlsOk(g') <==> t == self || HasEntry(g, t))
  {
    hide EntryOk, NewBirths, Deaths, LogOk, BucketOk, FastOk, Insert, TlsOk, DeliversTo;
    RoomFits(g);
    var h := Hash(t, |g.table|);
    var bucket := g.table[h];
    var k := FindThread(bucket, t);
    var e;
    OneEntry(g, t);
    assert k < |bucket| ==> EntryAt(g, t, k, bucket[k]);
    if k == |bucket| {
      e, g' := NewEntry(g, t, self);
      assert Insert(bucket, k, e) == bucket + [e] by { InsertLast(bucket, e); }
      g' := g'.(table := g.table[h := bucket + [e]]);
      AddedTable(g, g', h, k, e);
      HeldBorn(g);
      AddedTls(g, g', h, e, self);
    } else if t == self && self !in g.tls {
      EntryLength(g, h, k);
      var log := FreeResources(g.types, bucket[k], g.log);
      var rest := bucket[..k] + bucket[k + 1..];
      var g1 := g.(table := g.table[h := rest], log := log);
      RemovedTable(g, g1, h, k);
      e, g' := NewEntry(g1, t, self);
      assert Insert(rest, k, e) == bucket[k := e] by { InsertBack(bucket, k, e); }
      g' := g'.(table := g.table[h := bucket[k := e]]);
      assert g1.table[h := bucket[k := e]] == g'.table;
      OthersElsewhere(g, h, k);
      AddedTable(g1, g', h, k, e);
      ReplacedTls(g, g', h, k, e);
    } else {
      e, g' := bucket[k], g;
    }
    assert EntryAt(g', t, k, e);
    EntryLength(g', h, k);
    r := Read(e, id);
    EntryDelivers(g', t, id, r);
  }

  lemma RoomFits(g: Globals)
    requires FastOk(g)
    ensures HEADER + g.reservedSize < SIZE_T
  {
  }

  /** The caller's pointer names the new entry; that is its own exactly when it asked for its own. */
  lemma AddedTls(g: Globals, g': Globals, h: nat, e: Entry, self: nat)
    requires |g.table| > 0 && h == Hash(e.thread, |g.table|) && g'.table == g.table[h := g.table[h] + [e]]
    requires g'.tls == g.tls[self := e.base] && !HasEntry(g, e.thread)
    requires forall b: nat :: Holds(g.table, b) ==> b < e.base
    ensures OwnPointer(g', e.thread, e.base)
    ensures TlsOk(g) ==> (TlsOk(g') <==> e.thread == self)
  {
    hide Hash;
    var bucket := g.table[h];
    assert EntryAt(g', e.thread, |bucket|, e);
    forall t: nat, b: nat | OwnPointer(g, t, b) ensures OwnPointer(g', t, b) {
      var k: nat, f :| EntryAt(g, t, k, f) && f.base == b;
      assert EntryAt(g', t, k, f);
    }
    assert self in g'.tls && g'.tls[self] == e.base;
    assert TlsOk(g') ==> OwnPointer(g', self, g'.tls[self]);
    if e.thread != self {
      forall k: nat, f | EntryAt(g', self, k, f) ensures f.base != e.base {
        assert f == g.table[Hash(self, |g.table|)][k];
        assert Holds(g.table, f.base);
      }
    }
  }

  /** A stale entry has been replaced by a new one, which the caller's pointer names. */
  lemma ReplacedTls(g: Globals, g': Globals, h: nat, k: nat, e: Entry)
    requires TableOk(g) && h < |g.table| && k < |g.table[h]| && e.thread == g.table[h][k].thread
    requires g'.table == g.table[h := g.table[h][k := e]] && g'.tls == g.tls[e.thread := e.base] && e.thread !in g.tls
    ensures TlsOk(g) ==> TlsOk(g')
  {
    hide Hash, EntryOk;
    assert BucketOk(g.table[h], h, |g.table|);
    assert EntryAt(g', e.thread, k, e);
    forall t: nat, b: nat | OwnPointer(g, t, b) && t != e.thread ensures OwnPointer(g', t, b) {
      var l: nat, f :| EntryAt(g, t, l, f) && f.base == b;
      assert EntryAt(g', t, l, f);
    }
  }

  lemma OneEntry(g: Globals, t: nat)
    requires TableOk(g)
    ensures forall k: nat, l: nat, e, f :: EntryAt(g, t, k, e) && EntryAt(g, t, l, f) ==> k == l && e == f
  {
    hide EntryOk;
    assert BucketOk(g.table[Hash(t, |g.table|)], Hash(t, |g.table|), |g.table|);
  }

  lemma EntryLength(g: Globals, h: nat, k: nat)
    requires TableOk(g) && h < |g.table| && k < |g.table[h]|
    ensures |g.table[h][k].storage| == g.table[h][k].count == g.idCount
  {
    hide SlotOk, BucketOk;
    assert EntriesOk(g.types, g.blocks, g.born, g.idCount, g.reservedSize, g.table[h]);
    assert EntryOk(g.types, g.blocks, g.born, g.idCount, g.reservedSize, g.table[h][k]);
  }

  lemma OthersElsewhere(g: Globals, h: nat, k: nat)
    requires TableOk(g) && h < |g.table| && k < |g.table[h]|
    ensures var rest := g.table[h][..k] + g.table[h][k + 1..];
            forall l :: 0 <= l < |rest| ==> rest[l].thread != g.table[h][k].thread
  {
    hide EntryOk;
    assert BucketOk(g.table[h], h, |g.table|);
    var rest := g.table[h][..k] + g.table[h][k + 1..];
    assert forall l :: 0 <= l < |rest| ==> rest[l] == g.table[h][if l < k then l else l + 1];
  }

  lemma InsertLast(bucket: seq<Entry>, e: Entry)
    ensures Insert(bucket, |bucket|, e) == bucket + [e]
  {
  }

  lemma InsertBack(bucket: seq<Entry>, k: nat, e: Entry)
    requires k < |bucket|
    ensures Insert(bucket[..k] + bucket[k + 1..], k, e) == bucket[k := e]
  {
  }

  /** Following a pointer to an entry. */
  method Deref(table: seq<seq<Entry>>, base: nat) returns (found: bool, h: nat, k: nat)
    ensures found <==> Holds(table, base)
    ensures found ==> h < |table| && k < |table[h]| && table[h][k].base == base
  {
    found, h, k := false, 0, 0;
    while h < |table|
      invariant h <= |table| && forall i, j :: 0 <= i < h && 0 <= j < |table[i]| ==> table[i][j].base != base
    {
      k := 0;
      while k < |table[h]|
        invariant k <= |table[h]| && forall j :: 0 <= j < k ==> table[h][j].base != base
      {
        if table[h][k].base == base {
          return true, h, k;
        }
        k := k + 1;
      }
      h := h + 1;
    }
  }

  /** The result is read from the entry of thread `t`. */
  ghost predicate ReadFrom(g: Globals, t: nat, id: nat, r: Fetched) {
    exists k: nat, e :: EntryAt(g, t, k, e) && id <= |e.storage| && r == Read(e, id)
  }

  /**
   ts_resource_ex.  A thread that has its pointer set reads through it without
   the mutex.  While every pointer names its thread's own entry, all threads read
   their own; asking for another thread that has no entry is what ends that.
   */
  method Fetch(g: Globals, self: nat, id: nat, asked: Asked) returns (r: Fetched, g': Globals)
    requires Valid(g) && id <= g.idCount
    ensures Valid(g') && g'.types == g.types && g'.idCount == g.idCount
    ensures r.Dangling? <==> asked.Mine? && self in g.tls && !Holds(g.table, g.tls[self])
    ensures asked.Mine? && self in g.tls ==> g' == g
    ensures !(asked.Mine? && self in g.tls) || TlsOk(g) ==>
              ReadFrom(g', Wanted(asked, self), id, r) && DeliversTo(g', Wanted(asked, self), id, r)
    ensures asked.Mine? && self in g.tls && Holds(g.table, g.tls[self]) ==> Delivers(g, g.tls[self], id, r)
    ensures TlsOk(g) ==> (TlsOk(g') <==> Wanted(asked, self) == self || HasEntry(g, Wanted(asked, self)))
    ensures asked.Of? && !HasEntry(g, asked.thread) ==>
      OwnPointer(g', asked.thread, |g.born|) && g'.tls == g.tls[self := |g.born|]
  {
    hide EntryOk, LogOk, BucketOk, FastOk, TlsOk, Hash, DeliversTo, Delivers;
    if asked.Mine? && self in g.tls {
      var found, h, k := Deref(g.table, g.tls[self]);
      g' := g;
      if TlsOk(g) {
        PointerRead(g, self);
      }
      if found {
        EntryLength(g, h, k);
        ReadDelivers(g, h, k, id);
        if TlsOk(g) {
          OwnRead(g, self, h, k);
        }
        r := Read(g.table[h][k], id);
      } else {
        r := Dangling;
      }
    } else {
      r, g' := FetchSlow(g, self, Wanted(asked, self), id);
    }
  }

  /** The address of an entry says whose it is. */
  lemma OwnRead(g: Globals, self: nat, h: nat, k: nat)
    requires TableOk(g) && TlsOk(g) && self in g.tls && h < |g.table| && k < |g.table[h]|
             && g.table[h][k].base == g.tls[self]
    ensures EntryAt(g, self, k, g.table[h][k])
  {
    hide Hash, SlotOk;
    assert OwnPointer(g, self, g.tls[self]);
    var l: nat, e :| EntryAt(g, self, l, e) && e.base == g.tls[self];
    var b := Hash(self, |g.table|);
    assert EntriesOk(g.types, g.blocks, g.born, g.idCount, g.reservedSize, g.table[h]);
    assert EntriesOk(g.types, g.blocks, g.born, g.idCount, g.reservedSize, g.table[b]);
    assert EntryOk(g.types, g.blocks, g.born, g.idCount, g.reservedSize, g.table[h][k]);
    assert EntryOk(g.types, g.blocks, g.born, g.idCount, g.reservedSize, g.table[b][l]);
    assert BucketOk(g.table[h], h, |g.table|);
  }

  lemma PointerRead(g: Globals, self: nat)
    requires TlsOk(g) && self in g.tls
    ensures OwnPointer(g, self, g.tls[self]) && Holds(g.table, g.tls[self]) && HasEntry(g, self)
  {
    hide Hash;
    assert OwnPointer(g, self, g.tls[self]);
    var k: nat, e :| EntryAt(g, self, k, e) && e.base == g.tls[self];
    assert g.table[Hash(self, |g.table|)][k].base == e.base;
  }

  /**
   A thread that asks for another's resources before those exist is left with a
   pointer into the other's entry, and with nothing once the other has ended.
   */
  method ForeignRequest() returns (r: Fetched)
    ensures r.Dangling?
  {
    var g := Startup(1, 0);
    var other;
    other, g := Fetch(g, 1, 0, Of(2));
    g := FreeThread(g, 2);
    r, g := Fetch(g, 1, 0, Mine);
  }

  // ------------------------------------------------------- startup and shutdown

  /** tsrm_startup.  Without threads expected there is no bucket to hash a thread to. */
  method Startup(threads: nat, resources: nat) returns (g: Globals)
    ensures TlsOk(g) && (forall t :: !HasEntry(g, t)) && g.born == []
    ensures Valid(g) <==> threads > 0
    ensures g.idCount == 0 && g.log == [] && |g.table| == threads && forall b: nat :: !Holds(g.table, b)
    ensures g.reservedPos == g.reservedSize == 0 && g.tls == map[] && g.blocks == []
    ensures |g.types| == resources && forall i :: 0 <= i < resources ==> g.types[i] == Resource(0, 0, false)
  {
    g := Globals(seq(threads, h => []), 0, seq(resources, i => Resource(0, 0, false)), 0, 0, map[], [], [], []);
    assert forall b: nat, i: nat :: multiset(g.log)[Made(b, i)] == 0 && multiset(g.log)[Unmade(b, i)] == 0;
  }

  /** Nothing depends on the reserved space, or all that does gets the same again. */
  ghost predicate Unused(g: Globals, size: Size)
    requires g.idCount <= |g.types|
  {
    && HEADER + Aligned(size) < SIZE_T
    && ((forall b: nat :: !Holds(g.table, b)) || Aligned(size) == g.reservedSize)
    && forall i :: 0 <= i < g.idCount && g.types[i].fastOffset != 0 ==>
        g.types[i].size == 0 && g.types[i].fastOffset == HEADER
  }

  /**
   tsrm_reserve.  It starts the reserved space over, which keeps the invariant exactly
   while nothing uses that space.
   */
  method Reserve(g: Globals, size: Size) returns (g': Globals)
    requires Valid(g)
    ensures g' == g.(reservedPos := 0, reservedSize := Aligned(size))
    ensures Valid(g') <==> Unused(g, size)
    ensures TlsOk(g) ==> TlsOk(g')
  {
    SameTable(g, g.(reservedPos := 0, reservedSize := Aligned(size)));
    g' := g.(reservedPos := 0, reservedSize := Aligned(size));
    ReserveExact(g, g', size);
  }

  lemma EmptyTable(table: seq<seq<Entry>>)
    requires forall b: nat :: !Holds(table, b)
    ensures forall h :: 0 <= h < |table| ==> table[h] == []
  {
    forall h | 0 <= h < |table| ensures table[h] == [] {
      assert table[h] != [] ==> Holds(table, table[h][0].base);
    }
  }

  lemma Place(table: seq<seq<Entry>>, b: nat) returns (h: nat, k: nat)
    requires Holds(table, b)
    ensures h < |table| && k < |table[h]| && table[h][k].base == b
  {
    h, k :| 0 <= h < |table| && 0 <= k < |table[h]| && table[h][k].base == b;
  }

  lemma ReserveExact(g: Globals, g': Globals, size: Size)
    requires Valid(g) && g' == g.(reservedPos := 0, reservedSize := Aligned(size))
    ensures Valid(g') <==> Unused(g, size)
  {
    hide EntryOk, Holds, Aligned, BucketOk;
    if Unused(g, size) {
      if forall b: nat :: !Holds(g.table, b) {
        EmptyTable(g.table);
      } else {
        assert AllOk(g'.types, g'.blocks, g'.born, g'.idCount, g'.reservedSize, g'.table);
      }
    }
    if Valid(g') {
      if b: nat :| Holds(g.table, b) {
        var h, k := Place(g.table, b);
        assert EntriesOk(g.types, g.blocks, g.born, g.idCount, g.reservedSize, g.table[h]);
        assert EntriesOk(g'.types, g'.blocks, g'.born, g'.idCount, g'.reservedSize, g'.table[h]);
        EntryCount(g.types, g.blocks, g.born, g.idCount, g.reservedSize, g.table[h][k]);
        EntryCount(g'.types, g'.blocks, g'.born, g'.idCount, g'.reservedSize, g'.table[h][k]);
      }
    }
  }

  method ShutBucket(types: seq<Resource>, bucket: seq<Entry>, log: seq<Event>, ghost n: nat,
                    ghost f: Entry -> seq<Event>) returns (log': seq<Event>)
    requires n <= |types| && (forall e :: f(e) == Deaths(e.base, types, n)) && forall k :: 0 <= k < |bucket| ==>
              bucket[k].count == n
    ensures log' == log + OverBucket(bucket, f)
  {
    log' := log;
    var k := 0;
    while k < |bucket|
      invariant 0 <= k <= |bucket| && log' == log + OverBucket(bucket[..k], f)
    {
      log' := FreeResources(types, bucket[k], log');
      assert bucket[..k + 1][..k] == bucket[..k];
      k := k + 1;
    }
    assert bucket[..k] == bucket;
  }

  /**
   tsrm_shutdown in the main thread: what has been constructed, for whatever
   thread and resource, has been destroyed exactly once.
   */
  method Shutdown(g: Globals) returns (log: seq<Event>)
    requires Valid(g)
    ensures forall b: nat, i: nat :: multiset(log)[Made(b, i)] == multiset(g.log)[Made(b, i)] <= 1
    ensures forall b: nat, i: nat :: multiset(log)[Unmade(b, i)] == multiset(log)[Made(b, i)]
    ensures g.log <= log
  {
    hide EntriesOk, OverBucket, OverTable, BucketOk, LogOk, FastOk, Deaths, AllOk;
    ghost var f := (e: Entry) => if g.idCount <= |g.types| then Deaths(e.base, g.types, g.idCount) else [];
    log := g.log;
    OverNothing(f);
    assert g.table[..0] == [];
    var h := 0;
    while h < |g.table|
      invariant 0 <= h <= |g.table| && log == g.log + OverTable(g.table[..h], f)
    {
      forall k | 0 <= k < |g.table[h]| ensures g.table[h][k].count == g.idCount {
        EntryLength(g, h, k);
      }
      log := ShutBucket(g.types, g.table[h], log, g.idCount, f);
      OverTableNext(g.table, h, f);
      h := h + 1;
    }
    assert g.table[..h] == g.table;
    ShutLog(g, log, f);
  }

  lemma OverNothing(f: Entry -> seq<Event>)
    ensures OverTable([], f) == []
  {
  }

  lemma ShutLog(g: Globals, log: seq<Event>, f: Entry -> seq<Event>)
    requires Valid(g) && (forall e :: f(e) == Deaths(e.base, g.types, g.idCount))
             && log == g.log + OverTable(g.table, f)
    ensures forall b: nat, i: nat :: multiset(log)[Made(b, i)] == multiset(g.log)[Made(b, i)] <= 1
    ensures forall b: nat, i: nat :: multiset(log)[Unmade(b, i)] == multiset(log)[Made(b, i)]
  {
    hide TableOk, OverTable, Deaths, Holds;
    var more := multiset(OverTable(g.table, f));
    assert multiset(log) == multiset(g.log) + more;
    forall b: nat, i: nat
      ensures more[Made(b, i)] == 0
      ensures more[Unmade(b, i)] == if i < g.idCount && !g.types[i].done && Holds(g.table, b) then 1 else 0
    {
      ShutCount(g, f, Made(b, i));
      ShutCount(g, f, Unmade(b, i));
    }
  }

  lemma ShutCount(g: Globals, f: Entry -> seq<Event>, v: Event)
    requires TableOk(g) && forall e :: f(e) == Deaths(e.base, g.types, g.idCount)
    ensures multiset(OverTable(g.table, f))[v] == if v.Unmade? && v.id < g.idCount && !g.types[v.id].done
            && Holds(g.table, v.base) then 1 else 0
  {
    hide OverTable, DistinctTable, BucketOk, Deaths, EntryOk;
    TableDistinct(g);
    forall e, w | w in f(e) ensures w.base == e.base {
      DeathsCount(e.base, g.types, g.idCount, w);
      assert multiset(f(e))[w] > 0;
    }
    OverTableCount(g.table, f, v);
    if h, k :| 0 <= h < |g.table| && 0 <= k < |g.table[h]| && g.table[h][k].base == v.base {
      DeathsCount(v.base, g.types, g.idCount, v);
    }
  }
}

/**
 The parallel test scheduler of run-tests.php: a coordinator that hands batches
 of tests to workers, sets aside tests whose conflict keys are taken, and runs
 the tests that conflict with everything when one worker is left.

 Workers and sockets are the environment: in each round some worker that is
 alive sends the one message it owes, `tests_finished` if it holds a batch and
 `ready` otherwise.  The trace of a run records what the coordinator saw and did.
 */
module Scheduler {
  import opened Basics

  datatype Test = Test(path: string)
  datatype Key = Key(name: string)

  const ALL: Key := Key("all")

  datatype Event = Dispatched(worker: nat, batch: seq<Test>) | Finished(worker: nat) | Retired(worker: nat)

  // -------------------------------------------------------------------- traces

  /** The batches the workers hold after `trace`. */
  function Running(trace: seq<Event>): map<nat, seq<Test>> {
    if trace == [] then map[]
    else
      var before := Running(trace[..|trace| - 1]);
      match trace[|trace| - 1]
      case Dispatched(w, batch) => before[w := batch]
      case Finished(w) => before - {w}
      case Retired(w) => before
  }

  /** The tests sent to workers, in that order. */
  function Sent(trace: seq<Event>): seq<Test> {
    if trace == [] then []
    else
      Sent(trace[..|trace| - 1]) + match trace[|trace| - 1] { case Dispatched(_, batch) => batch case _ => [] }
  }

  /** The workers of `workers` that have not been retired. */
  function Alive(workers: set<nat>, trace: seq<Event>): set<nat> {
    if trace == [] then workers
    else
      Alive(workers, trace[..|trace| - 1]) - match trace[|trace| - 1] { case Retired(w) => {w} case _ => {} }
  }

  /** The number of scheduling decisions: batches sent and workers retired. */
  function Decisions(trace: seq<Event>): nat {
    if trace == [] then 0
    else Decisions(trace[..|trace| - 1]) + if trace[|trace| - 1].Finished? then 0 else 1
  }

  predicate Needs(keys: Test -> seq<Key>, batch: seq<Test>, k: Key) {
    exists t :: t in batch && k in keys(t)
  }

  /** No two workers hold tests with a common conflict key. */
  ghost predicate Exclusive(keys: Test -> seq<Key>, running: map<nat, seq<Test>>) {
    forall v, w, k :: v in running && w in running && Needs(keys, running[v], k) && Needs(keys, running[w], k) ==>
        v == w
  }

  /** A test that conflicts with everything runs only while one worker is left. */
  ghost predicate Alone(keys: Test -> seq<Key>, running: map<nat, seq<Test>>, alive: set<nat>) {
    forall w :: w in running && Needs(keys, running[w], ALL) ==> |alive| == 1
  }

  ghost predicate SafeAfter(keys: Test -> seq<Key>, workers: set<nat>, trace: seq<Event>) {
    && Exclusive(keys, Running(trace))
    && Alone(keys, Running(trace), Alive(workers, trace))
    && Running(trace).Keys <= Alive(workers, trace)
  }

  /** Safe at every moment of the run. */
  ghost predicate Safe(keys: Test -> seq<Key>, workers: set<nat>, trace: seq<Event>) {
    forall n :: 0 <= n <= |trace| ==> SafeAfter(keys, workers, trace[..n])
  }

  lemma SafeNext(keys: Test -> seq<Key>, workers: set<nat>, trace: seq<Event>, e: Event)
    requires Safe(keys, workers, trace) && SafeAfter(keys, workers, trace + [e])
    ensures Safe(keys, workers, trace + [e])
  {
    hide SafeAfter;
    var next := trace + [e];
    forall n | 0 <= n <= |next| ensures SafeAfter(keys, workers, next[..n]) {
      if n == |next| {
        assert next[..n] == next;
      } else {
        assert next[..n] == trace[..n];
      }
    }
  }

  lemma After(workers: set<nat>, trace: seq<Event>, e: Event)
    ensures Running(trace + [e]) == if e.Dispatched? then Running(trace)[e.worker := e.batch]
                                    else if e.Finished? then Running(trace) - {e.worker} else Running(trace)
    ensures Sent(trace + [e]) == if e.Dispatched? then Sent(trace) + e.batch else Sent(trace)
    ensures Alive(workers, trace + [e])
              == if e.Retired? then Alive(workers, trace) - {e.worker} else Alive(workers, trace)
    ensures Decisions(trace + [e]) == Decisions(trace) + (if e.Finished? then 0 else 1)
  {
    assert (trace + [e])[..|trace|] == trace;
  }

  // --------------------------------------------------------------------- order

  /** `k` is the one conflict key of `t`. */
  predicate OnlyKey(keys: Test -> seq<Key>, t: Test, k: Key) {
    k in keys(t) && forall j :: j in keys(t) ==> j == k
  }

  /** The tests of `s` whose one conflict key is `k`, in order. */
  function Only(keys: Test -> seq<Key>, s: seq<Test>, k: Key): seq<Test> {
    if s == [] then []
    else (if OnlyKey(keys, s[0], k) then [s[0]] else []) + Only(keys, s[1..], k)
  }

  /** These are the tests of `s` whose keys are `k` and no other. */
  lemma {:induction false} OnlyHolds(keys: Test -> seq<Key>, s: seq<Test>, k: Key, t: Test)
    ensures t in Only(keys, s, k) <==> t in s && (set j | j in keys(t)) == {k}
  {
    if s != [] {
      OnlyHolds(keys, s[1..], k, t);
      assert s == [s[0]] + s[1..];
      var own := set j | j in keys(s[0]);
      assert OnlyKey(keys, s[0], k) ==> own == {k};
      assert own == {k} ==> k in own && forall j :: j in keys(s[0]) ==> j in own;
    }
  }

  lemma OnlyCons(keys: Test -> seq<Key>, t: Test, rest: seq<Test>, k: Key)
    ensures Only(keys, [t] + rest, k) == (if OnlyKey(keys, t, k) then [t] else []) + Only(keys, rest, k)
  {
    hide OnlyKey;
    assert ([t] + rest)[1..] == rest;
  }

  lemma {:induction false} OnlyConcat(keys: Test -> seq<Key>, a: seq<Test>, b: seq<Test>, k: Key)
    ensures Only(keys, a + b, k) == Only(keys, a, k) + Only(keys, b, k)
  {
    hide OnlyKey;
    if a == [] {
      assert a + b == b;
    } else {
      hide Only;
      var t, rest := a[0], a[1..];
      OnlyConcat(keys, rest, b, k);
      OnlyCons(keys, t, rest, k);
      OnlyCons(keys, t, rest + b, k);
      assert a == [t] + rest && a + b == [t] + (rest + b);
    }
  }

  lemma {:induction false} OnlyNone(keys: Test -> seq<Key>, s: seq<Test>, k: Key)
    requires forall t :: t in s ==> !OnlyKey(keys, t, k)
    ensures Only(keys, s, k) == []
  {
    if s != [] {
      OnlyNone(keys, s[1..], k);
    }
  }

  lemma {:induction false} ReversedSame(s: seq<Test>)
    ensures multiset(Reversed(s)) == multiset(s)
  {
    if s != [] {
      ReversedSame(s[1..]);
      assert s == [s[0]] + s[1..];
    }
  }

  lemma {:induction false} ReversedPush(s: seq<Test>, t: Test)
    ensures Reversed(s + [t]) == [t] + Reversed(s)
  {
    if s != [] {
      ReversedPush(s[1..], t);
      assert (s + [t])[1..] == s[1..] + [t];
    }
  }

  lemma {:induction false} ReversedTwice(s: seq<Test>)
    ensures Reversed(Reversed(s)) == s
  {
    if s != [] {
      ReversedTwice(s[1..]);
      ReversedPush(Reversed(s[1..]), s[0]);
    }
  }

  // ------------------------------------------------------------- pools of tests

  /** All tests in the lists of `m`. */
  ghost function Pool<K>(m: map<K, seq<Test>>): multiset<Test>
    decreases |m|
  {
    if m == map[] then multiset{}
    else var k :| k in m; multiset(m[k]) + Pool(m - {k})
  }

  lemma {:induction false} PoolRemove<K>(m: map<K, seq<Test>>, k: K)
    requires k in m
    ensures Pool(m) == multiset(m[k]) + Pool(m - {k})
    decreases |m|
  {
    var j :| j in m && Pool(m) == multiset(m[j]) + Pool(m - {j});
    if j != k {
      PoolRemove(m - {j}, k);
      PoolRemove(m - {k}, j);
      assert m - {j} - {k} == m - {k} - {j};
    }
  }

  lemma PoolAdd<K>(m: map<K, seq<Test>>, k: K, s: seq<Test>)
    requires k !in m
    ensures Pool(m[k := s]) == Pool(m) + multiset(s)
  {
    PoolRemove(m[k := s], k);
    assert m[k := s] - {k} == m;
  }

  lemma PoolAppend<K>(m: map<K, seq<Test>>, k: K, t: Test)
    requires k in m
    ensures Pool(m[k := m[k] + [t]]) == Pool(m) + multiset{t}
  {
    PoolRemove(m, k);
    PoolRemove(m[k := m[k] + [t]], k);
    assert m[k := m[k] + [t]] - {k} == m - {k};
  }

  // ------------------------------------------------------------ the coordinator

  /** The variables of the coordinator's loop; `files` is a stack with its top at the end. */
  datatype Board = Board(
    files: seq<Test>,
    sequential: seq<Test>,
    waiting: map<Key, seq<Test>>,
    active: map<Key, nat>,
    workers: set<nat>,
    inProgress: int,
    trace: seq<Event>)

  function Waits(waiting: map<Key, seq<Test>>, k: Key): seq<Test> {
    if k in waiting then waiting[k] else []
  }

  /** The tests that may be sent next, in the order in which those with the one key `k` will be. */
  function Line(batch: seq<Test>, waiting: map<Key, seq<Test>>, files: seq<Test>, k: Key): seq<Test> {
    batch + Waits(waiting, k) + Reversed(files)
  }

  ghost predicate SameLine(keys: Test -> seq<Key>, batch: seq<Test>, waiting: map<Key, seq<Test>>, files: seq<Test>,
                           batch': seq<Test>, waiting': map<Key, seq<Test>>, files': seq<Test>) {
    forall k :: Only(keys, Line(batch', waiting', files', k), k) == Only(keys, Line(batch, waiting, files, k), k)
  }

  /** A test waits on one of its keys, and only while that key is taken. */
  ghost predicate Parked(keys: Test -> seq<Key>, waiting: map<Key, seq<Test>>, active: map<Key, nat>) {
    forall k :: k in waiting ==> k in active && forall t :: t in waiting[k] ==> k in keys(t)
  }

  /** Tests that have another key than `k` do not show in the line of `k`. */
  lemma OnlySkip(keys: Test -> seq<Key>, a: seq<Test>, gap: seq<Test>, b: seq<Test>, k: Key)
    requires forall t :: t in gap ==> !OnlyKey(keys, t, k)
    ensures Only(keys, a + gap + b, k) == Only(keys, a + b, k)
  {
    OnlyNone(keys, gap, k);
    OnlyConcat(keys, a + gap, b, k);
    OnlyConcat(keys, a, gap, k);
    OnlyConcat(keys, a, b, k);
  }

  // ----------------------------------------------------------------- releasing

  /** Popping a waiting list onto the stack. */
  method PopAll(files: seq<Test>, list: seq<Test>) returns (files': seq<Test>)
    ensures files' == files + Reversed(list)
  {
    files' := files;
    var rest := list;
    while rest != []
      invariant files' + Reversed(rest) == files + Reversed(list)
      decreases |rest|
    {
      var last := |rest| - 1;
      ReversedPush(rest[..last], rest[last]);
      assert rest == rest[..last] + [rest[last]];
      files' := files' + [rest[last]];
      rest := rest[..last];
    }
  }

  lemma {:induction false} ReversedConcat(a: seq<Test>, b: seq<Test>)
    ensures Reversed(a + b) == Reversed(b) + Reversed(a)
  {
    if a == [] {
      assert a + b == b;
    } else {
      ReversedConcat(a[1..], b);
      assert (a + b)[1..] == a[1..] + b;
    }
  }

  /** Letting the tests that wait for `key` back onto the stack keeps every line. */
  lemma ReleaseLine(keys: Test -> seq<Key>, waiting: map<Key, seq<Test>>, files: seq<Test>, key: Key, files': seq<Test>)
    requires key in waiting && forall t :: t in waiting[key] ==> key in keys(t)
    requires files' == files + Reversed(waiting[key])
    ensures SameLine(keys, [], waiting, files, [], waiting - {key}, files')
    ensures multiset(files') + Pool(waiting - {key}) == multiset(files) + Pool(waiting)
  {
    hide Only, Reversed, Pool;
    var list, queue := waiting[key], Reversed(files);
    ReversedConcat(files, Reversed(list));
    ReversedTwice(list);
    ReversedSame(list);
    PoolRemove(waiting, key);
    forall k ensures Only(keys, Line([], waiting - {key}, files', k), k) == Only(keys, Line([], waiting, files, k), k) {
      if k == key {
        assert [] + [] + (list + queue) == [] + list + queue;
      } else {
        var waits := [] + Waits(waiting, k);
        OnlySkip(keys, waits, list, queue, k);
        assert waits + (list + queue) == waits + list + queue;
      }
    }
  }

  /** The keys of worker `i` become free, and the tests that wait for them go back to the stack. */
  method Release(keys: Test -> seq<Key>, b: Board, i: nat) returns (b': Board)
    requires Parked(keys, b.waiting, b.active)
    ensures b' == b.(files := b'.files, waiting := b'.waiting, active := b'.active)
    ensures b'.active == map k | k in b.active && b.active[k] != i :: b.active[k]
    ensures Parked(keys, b'.waiting, b'.active)
    ensures SameLine(keys, [], b.waiting, b.files, [], b'.waiting, b'.files)
    ensures multiset(b'.files) + Pool(b'.waiting) == multiset(b.files) + Pool(b.waiting)
  {
    hide Only, Line, Pool, Reversed;
    b' := b;
    var todo := set k | k in b.active && b.active[k] == i;
    while todo != {}
      invariant todo <= b.active.Keys && b' == b.(files := b'.files, waiting := b'.waiting, active := b'.active)
      invariant forall k :: k in todo ==> b.active[k] == i
      invariant forall k :: k in b'.active <==> k in b.active && (b.active[k] == i ==> k in todo)
      invariant forall k :: k in b'.active ==> b'.active[k] == b.active[k]
      invariant Parked(keys, b'.waiting, b'.active)
      invariant SameLine(keys, [], b.waiting, b.files, [], b'.waiting, b'.files)
      invariant multiset(b'.files) + Pool(b'.waiting) == multiset(b.files) + Pool(b.waiting)
      decreases todo
    {
      var key :| key in todo;
      todo := todo - {key};
      b' := b'.(active := b'.active - {key});
      if key in b'.waiting {
        var files := PopAll(b'.files, b'.waiting[key]);
        ReleaseLine(keys, b'.waiting, b'.files, key, files);
        b' := b'.(files := files, waiting := b'.waiting - {key});
      }
    }
  }

  // ------------------------------------------------------------------ batching

  /** The first key of a test that is taken. */
  method FirstTaken(ks: seq<Key>, active: map<Key, nat>) returns (taken: bool, key: Key)
    ensures taken ==> key in ks && key in active
    ensures !taken ==> forall k :: k in ks ==> k !in active
  {
    taken, key := false, ALL;
    var j := 0;
    while j < |ks|
      invariant 0 <= j <= |ks| && forall m :: 0 <= m < j ==> ks[m] !in active
    {
      if ks[j] in active {
        return true, ks[j];
      }
      j := j + 1;
    }
  }

  /** Setting a test aside moves it from the front of the stack to the end of a waiting list. */
  lemma AsideLine(keys: Test -> seq<Key>, batch: seq<Test>, waiting: map<Key, seq<Test>>, files: seq<Test>, t: Test,
                  key: Key,
                  waiting': map<Key, seq<Test>>)
    requires key in keys(t) && waiting' == waiting[key := Waits(waiting, key) + [t]]
    ensures SameLine(keys, batch, waiting, files + [t], batch, waiting', files)
    ensures Pool(waiting') == Pool(waiting) + multiset{t}
  {
    hide Only, Reversed, Pool;
    ReversedPush(files, t);
    if key in waiting {
      PoolAppend(waiting, key, t);
    } else {
      assert [] + [t] == [t];
      PoolAdd(waiting, key, [t]);
    }
    var queue := Reversed(files);
    forall k
      ensures Only(keys, Line(batch, waiting', files, k), k) == Only(keys, Line(batch, waiting, files + [t], k), k)
    {
      var waits := Waits(waiting, k);
      if k == key {
        assert batch + (waits + [t]) + queue == batch + waits + ([t] + queue);
      } else {
        OnlySkip(keys, batch + waits, [t], queue, k);
        assert batch + waits + ([t] + queue) == batch + waits + [t] + queue;
      }
    }
  }

  /** A test none of whose keys is taken overtakes no test it shares its one key with. */
  lemma TakenLine(keys: Test -> seq<Key>, batch: seq<Test>, waiting: map<Key, seq<Test>>, files: seq<Test>, t: Test,
                  active: map<Key, nat>)
    requires Parked(keys, waiting, active) && forall k :: k in keys(t) ==> k !in active
    ensures SameLine(keys, batch, waiting, files + [t], batch + [t], waiting, files)
  {
    hide Only, Reversed;
    ReversedPush(files, t);
    var queue := Reversed(files);
    forall k
      ensures Only(keys, Line(batch + [t], waiting, files, k), k) == Only(keys, Line(batch, waiting, files + [t], k), k)
    {
      var waits := Waits(waiting, k);
      if OnlyKey(keys, t, k) {
        assert batch + [t] + [] + queue == batch + [] + ([t] + queue);
      } else {
        OnlySkip(keys, batch + waits, [t], queue, k);
        assert batch + waits + ([t] + queue) == batch + waits + [t] + queue;
        OnlySkip(keys, batch, [t], waits + queue, k);
        assert batch + [t] + (waits + queue) == batch + [t] + waits + queue;
        assert batch + (waits + queue) == batch + waits + queue;
      }
    }
  }

  /** Only keys that nobody holds are needed. */
  ghost predicate NoneTaken(keys: Test -> seq<Key>, batch: seq<Test>, active: map<Key, nat>) {
    forall k :: Needs(keys, batch, k) ==> k !in active
  }

  lemma NoneTakenNext(keys: Test -> seq<Key>, batch: seq<Test>, t: Test, active: map<Key, nat>)
    requires NoneTaken(keys, batch, active) && forall k :: k in keys(t) ==> k !in active
    ensures NoneTaken(keys, batch + [t], active)
  {
    forall k | Needs(keys, batch + [t], k) ensures k !in active {
      assert k in keys(t) || Needs(keys, batch, k);
    }
  }

  lemma LineTrans(keys: Test -> seq<Key>, w0: map<Key, seq<Test>>, f0: seq<Test>, batch: seq<Test>,
                  w1: map<Key, seq<Test>>,
                  f1: seq<Test>, batch': seq<Test>, w2: map<Key, seq<Test>>, f2: seq<Test>)
    requires SameLine(keys, [], w0, f0, batch, w1, f1) && SameLine(keys, batch, w1, f1, batch', w2, f2)
    ensures SameLine(keys, [], w0, f0, batch', w2, f2)
  {
    hide Only, Line;
  }

  lemma AsideParked(keys: Test -> seq<Key>, waiting: map<Key, seq<Test>>, active: map<Key, nat>, t: Test, key: Key)
    requires Parked(keys, waiting, active) && key in keys(t) && key in active
    ensures Parked(keys, waiting[key := Waits(waiting, key) + [t]], active)
  {
  }

  /** None of the test's keys is taken. */
  predicate Free(keys: Test -> seq<Key>, t: Test, active: map<Key, nat>) {
    forall k :: k in keys(t) ==> k !in active
  }

  /** The tests on the stack none of whose keys is taken, the top first. */
  ghost function FreeTests(keys: Test -> seq<Key>, files: seq<Test>, active: map<Key, nat>): seq<Test> {
    if files == [] then []
    else
      var top := |files| - 1;
      (if Free(keys, files[top], active) then [files[top]] else []) + FreeTests(keys, files[..top], active)
  }

  /** The first `n` elements, or all if there are no more. */
  function Prefix<T>(s: seq<T>, n: nat): seq<T> {
    if n <= |s| then s[..n] else s
  }

  /**
   Popping tests until the batch is full.  The batch is the free tests of the stack from
   the top, and `count($files) <= $batchSize` lets one more in than the size says.
   */
  method TakeBatch(keys: Test -> seq<Key>, b: Board, batchSize: nat) returns (batch: seq<Test>, b': Board)
    requires Parked(keys, b.waiting, b.active)
    ensures b' == b.(files := b'.files, waiting := b'.waiting)
    ensures Parked(keys, b'.waiting, b.active)
    ensures batch == Prefix(FreeTests(keys, b.files, b.active), batchSize + 1)
            && (|batch| <= batchSize ==> b'.files == [])
    ensures NoneTaken(keys, batch, b.active)
    ensures SameLine(keys, [], b.waiting, b.files, batch, b'.waiting, b'.files)
    ensures multiset(batch) + multiset(b'.files) + Pool(b'.waiting) == multiset(b.files) + Pool(b.waiting)
  {
    hide Pool, SameLine, Parked, Waits, Needs, NoneTaken, Shares, Free, FreeTests, Prefix, Picked;
    ghost var all := multiset(b.files) + Pool(b.waiting);
    batch, b' := [], b;
    AllShared(b.files, b.waiting);
    LineRefl(keys, b.waiting, b.files);
    NoneNeeded(keys, b.active);
    PickedNone(keys, b.active, b.files);
    while |batch| <= batchSize && b'.files != []
      invariant b' == b.(files := b'.files, waiting := b'.waiting) && |batch| <= batchSize + 1
      invariant Parked(keys, b'.waiting, b.active)
      invariant NoneTaken(keys, batch, b.active)
      invariant SameLine(keys, [], b.waiting, b.files, batch, b'.waiting, b'.files)
      invariant Shares(batch, b'.files, b'.waiting, all)
      invariant Picked(keys, b.active, b.files, batch, b'.files)
      decreases |b'.files|
    {
      var top := |b'.files| - 1;
      var t, rest := b'.files[top], b'.files[..top];
      assert b'.files == rest + [t];
      var taken, key := FirstTaken(keys(t), b.active);
      TakenNotFree(keys, t, b.active, taken, key);
      PickedNext(keys, b.active, b.files, batch, rest, t);
      if taken {
        var waiting := b'.waiting[key := Waits(b'.waiting, key) + [t]];
        AsideLine(keys, batch, b'.waiting, rest, t, key, waiting);
        AsideParked(keys, b'.waiting, b.active, t, key);
        AsideShares(batch, rest, t, b'.waiting, waiting, all);
        LineTrans(keys, b.waiting, b.files, batch, b'.waiting, b'.files, batch, waiting, rest);
        b' := b'.(files := rest, waiting := waiting);
      } else {
        TakenLine(keys, batch, b'.waiting, rest, t, b.active);
        NoneTakenNext(keys, batch, t, b.active);
        TakenShares(batch, rest, t, b'.waiting, all);
        LineTrans(keys, b.waiting, b.files, batch, b'.waiting, b'.files, batch + [t], b'.waiting, rest);
        batch := batch + [t];
        b' := b'.(files := rest);
      }
    }
    SharesSum(batch, b'.files, b'.waiting, all);
    PickedAll(keys, b.active, b.files, batch, b'.files, batchSize);
  }

  /** The free tests of the stack `files` are those of the batch and then those of what is left. */
  ghost predicate Picked(keys: Test -> seq<Key>, active: map<Key, nat>, files: seq<Test>, batch: seq<Test>,
                         left: seq<Test>) {
    batch + FreeTests(keys, left, active) == FreeTests(keys, files, active)
  }

  lemma PickedNext(keys: Test -> seq<Key>, active: map<Key, nat>, files: seq<Test>, batch: seq<Test>, rest: seq<Test>,
                   t: Test)
    requires Picked(keys, active, files, batch, rest + [t])
    ensures Picked(keys, active, files, if Free(keys, t, active) then batch + [t] else batch, rest)
  {
    hide Free;
    assert (rest + [t])[..|rest|] == rest;
  }

  lemma PickedAll(keys: Test -> seq<Key>, active: map<Key, nat>, files: seq<Test>, batch: seq<Test>, left: seq<Test>,
                  size: nat)
    requires Picked(keys, active, files, batch, left) && |batch| <= size + 1 && (|batch| <= size ==> left == [])
    ensures batch == Prefix(FreeTests(keys, files, active), size + 1)
  {
    hide Free;
  }

  lemma PickedNone(keys: Test -> seq<Key>, active: map<Key, nat>, files: seq<Test>)
    ensures Picked(keys, active, files, [], files)
  {
  }

  lemma TakenNotFree(keys: Test -> seq<Key>, t: Test, active: map<Key, nat>, taken: bool, key: Key)
    requires taken ==> key in keys(t) && key in active
    requires !taken ==> forall k :: k in keys(t) ==> k !in active
    ensures taken <==> !Free(keys, t, active)
  {
  }

  /** Two tests without conflicts and a batch size of 1: both go into the batch. */
  method OneMore(first: Test, second: Test) returns (batch: seq<Test>)
    ensures batch == [second, first]
  {
    var b := Board([first, second], [], map[], map[], {}, 0, []);
    batch, b := TakeBatch((t: Test) => [], b, 1);
  }

  /** `all` is shared out among the batch, the stack and the waiting lists. */
  ghost predicate Shares(batch: seq<Test>, files: seq<Test>, waiting: map<Key, seq<Test>>, all: multiset<Test>) {
    multiset(batch) + multiset(files) + Pool(waiting) == all
  }

  lemma AllShared(files: seq<Test>, waiting: map<Key, seq<Test>>)
    ensures Shares([], files, waiting, multiset(files) + Pool(waiting))
  {
    hide Pool;
  }

  lemma SharesSum(batch: seq<Test>, files: seq<Test>, waiting: map<Key, seq<Test>>, all: multiset<Test>)
    requires Shares(batch, files, waiting, all)
    ensures multiset(batch) + multiset(files) + Pool(waiting) == all
  {
  }

  lemma AsideShares(batch: seq<Test>, rest: seq<Test>, t: Test, waiting: map<Key, seq<Test>>,
                    waiting': map<Key, seq<Test>>, all: multiset<Test>)
    requires Shares(batch, rest + [t], waiting, all) && Pool(waiting') == Pool(waiting) + multiset{t}
    ensures Shares(batch, rest, waiting', all)
  {
    hide Pool;
  }

  lemma TakenShares(batch: seq<Test>, rest: seq<Test>, t: Test, waiting: map<Key, seq<Test>>, all: multiset<Test>)
    requires Shares(batch, rest + [t], waiting, all)
    ensures Shares(batch + [t], rest, waiting, all)
  {
    hide Pool;
  }

  lemma LineRefl(keys: Test -> seq<Key>, waiting: map<Key, seq<Test>>, files: seq<Test>)
    ensures SameLine(keys, [], waiting, files, [], waiting, files)
  {
  }

  lemma NoneNeeded(keys: Test -> seq<Key>, active: map<Key, nat>)
    ensures NoneTaken(keys, [], active)
  {
  }

  /** Entering the keys of a batch. */
  method Occupy(keys: Test -> seq<Key>, batch: seq<Test>, active: map<Key, nat>, i: nat)
    returns (active': map<Key, nat>)
    ensures forall k :: k in active' <==> k in active || Needs(keys, batch, k)
    ensures forall k :: k in active' ==> active'[k] == if Needs(keys, batch, k) then i else active[k]
  {
    active' := active;
    var n := 0;
    while n < |batch|
      invariant 0 <= n <= |batch|
      invariant forall k :: k in active' <==> k in active || Needs(keys, batch[..n], k)
      invariant forall k :: k in active' ==> active'[k] == if Needs(keys, batch[..n], k) then i else active[k]
    {
      var ks := keys(batch[n]);
      ghost var before := active';
      var j := 0;
      while j < |ks|
        invariant 0 <= j <= |ks|
        invariant forall k :: k in active' <==> k in before || k in ks[..j]
        invariant forall k :: k in active' ==> active'[k] == if k in ks[..j] then i else before[k]
      {
        active' := active'[ks[j] := i];
        j := j + 1;
      }
      assert ks[..j] == ks;
      NeedsNext(keys, batch, n);
      n := n + 1;
    }
    assert batch[..n] == batch;
  }

  lemma NeedsNext(keys: Test -> seq<Key>, batch: seq<Test>, n: nat)
    requires n < |batch|
    ensures forall k :: Needs(keys, batch[..n + 1], k) <==> Needs(keys, batch[..n], k) || k in keys(batch[n])
  {
    assert batch[..n + 1] == batch[..n] + [batch[n]];
    forall k ensures Needs(keys, batch[..n + 1], k) <==> Needs(keys, batch[..n], k) || k in keys(batch[n]) {
      if k in keys(batch[n]) {
        assert batch[n] in batch[..n + 1];
      }
    }
  }

  // ----------------------------------------------------------------- invariant

  /** `active` holds exactly the keys of the batches in hand, with the worker that holds the batch. */
  ghost predicate ActiveExact(keys: Test -> seq<Key>, active: map<Key, nat>, running: map<nat, seq<Test>>) {
    && (forall k :: k in active ==> active[k] in running && Needs(keys, running[active[k]], k))
    && (forall w, k :: w in running && Needs(keys, running[w], k) ==> k in active && active[k] == w)
  }

  /** The tests that may be sent while several workers are left. */
  ghost predicate Shareable(keys: Test -> seq<Key>, pool: multiset<Test>) {
    forall t :: t in pool ==> ALL !in keys(t)
  }

  /** What every round keeps, for the tests `tests`, of which `start` are run in parallel, on the workers `crew`. */
  ghost predicate Inv(keys: Test -> seq<Key>, tests: seq<Test>, start: seq<Test>, crew: set<nat>, b: Board) {
    && Parked(keys, b.waiting, b.active)
    && ActiveExact(keys, b.active, Running(b.trace))
    && b.inProgress == |Running(b.trace)|
    && b.workers == Alive(crew, b.trace) && b.workers <= crew
    && Safe(keys, crew, b.trace)
    && multiset(b.files) + Pool(b.waiting) + multiset(b.sequential) + multiset(Sent(b.trace)) == multiset(tests)
    && (forall k :: k != ALL ==> Only(keys, Sent(b.trace) + Line([], b.waiting, b.files, k), k) == Only(keys, start, k))
    && (forall t :: t in b.sequential ==> ALL in keys(t))
    && (|b.workers| > 1 ==> Shareable(keys, multiset(b.files) + Pool(b.waiting)))
    && (b.workers == {} ==> b.files == [] && b.sequential == [])
    && Decisions(b.trace) + |b.workers| <= |Sent(b.trace)| + |crew|
  }

  /** A waiting test waits for a running worker, so when no batch is out, none waits. */
  lemma NobodyWaits(keys: Test -> seq<Key>, tests: seq<Test>, start: seq<Test>, crew: set<nat>, b: Board)
    requires Inv(keys, tests, start, crew, b) && b.inProgress == 0
    ensures b.waiting == map[] && b.active == map[] && Running(b.trace) == map[]
  {
    hide Safe, Running, Only, Line, Pool;
    assert Running(b.trace) == map[];
  }

  lemma SameLineAfter(keys: Test -> seq<Key>, sent: seq<Test>, start: seq<Test>, waiting: map<Key, seq<Test>>,
                      files: seq<Test>,
                      batch: seq<Test>, waiting': map<Key, seq<Test>>, files': seq<Test>)
    requires SameLine(keys, [], waiting, files, batch, waiting', files')
    requires forall k :: k != ALL ==> Only(keys, sent + Line([], waiting, files, k), k) == Only(keys, start, k)
    ensures forall k :: k != ALL ==> Only(keys, sent + batch + Line([], waiting', files', k), k) == Only(keys, start, k)
  {
    hide Only, Line;
    forall k | k != ALL ensures Only(keys, sent + batch + Line([], waiting', files', k), k) == Only(keys, start, k) {
      OnlyConcat(keys, sent, Line([], waiting, files, k), k);
      OnlyConcat(keys, sent, Line(batch, waiting', files', k), k);
      LineFront(batch, waiting', files', k);
      assert sent + batch + Line([], waiting', files', k) == sent + (batch + Line([], waiting', files', k));
    }
  }

  lemma LineFront(batch: seq<Test>, waiting: map<Key, seq<Test>>, files: seq<Test>, k: Key)
    ensures Line(batch, waiting, files, k) == batch + Line([], waiting, files, k)
  {
    hide Reversed;
    assert batch + Waits(waiting, k) + Reversed(files) == batch + ([] + Waits(waiting, k) + Reversed(files));
  }

  // --------------------------------------------------------------------- steps

  /** The message `tests_finished` of worker `i`, up to the decision what it does next. */
  method OnFinished(keys: Test -> seq<Key>, b: Board, i: nat, ghost tests: seq<Test>, ghost start: seq<Test>,
                    ghost crew: set<nat>)
    returns (b': Board)
    requires Inv(keys, tests, start, crew, b) && i in Running(b.trace)
    ensures Inv(keys, tests, start, crew, b') && b'.workers == b.workers && i !in Running(b'.trace)
    ensures Sent(b'.trace) == Sent(b.trace) && b'.trace == b.trace + [Finished(i)]
  {
    hide Only, Line, Pool, Running, Sent, Alive, Decisions, Parked, SameLine, Shareable, Safe, ActiveExact;
    b' := Release(keys, b, i);
    b' := b'.(inProgress := b.inProgress - 1, trace := b.trace + [Finished(i)]);
    After(crew, b.trace, Finished(i));
    FinishedSafe(keys, crew, b, i, b'.active);
    SameLineAfter(keys, Sent(b.trace), start, b.waiting, b.files, [], b'.waiting, b'.files);
    assert Sent(b.trace) + [] == Sent(b.trace);
  }

  lemma SafeNow(keys: Test -> seq<Key>, crew: set<nat>, trace: seq<Event>)
    requires Safe(keys, crew, trace)
    ensures SafeAfter(keys, crew, trace)
  {
    hide SafeAfter;
    assert trace[..|trace|] == trace;
  }

  lemma FewerRunning(keys: Test -> seq<Key>, running: map<nat, seq<Test>>, i: nat, alive: set<nat>,
                     active: map<Key, nat>, active': map<Key, nat>)
    requires ActiveExact(keys, active, running) && i in running
    requires active' == map k | k in active && active[k] != i :: active[k]
    ensures ActiveExact(keys, active', running - {i}) && |running - {i}| == |running| - 1
    ensures Exclusive(keys, running) ==> Exclusive(keys, running - {i})
    ensures Alone(keys, running, alive) ==> Alone(keys, running - {i}, alive)
  {
    hide Needs;
    assert (running - {i}).Keys == running.Keys - {i};
    assert |running - {i}| == |(running - {i}).Keys| && |running| == |running.Keys|;
  }

  lemma FinishedSafe(keys: Test -> seq<Key>, crew: set<nat>, b: Board, i: nat, active: map<Key, nat>)
    requires Safe(keys, crew, b.trace) && ActiveExact(keys, b.active, Running(b.trace)) && i in Running(b.trace)
    requires active == map k | k in b.active && b.active[k] != i :: b.active[k]
    ensures Safe(keys, crew, b.trace + [Finished(i)]) && i in Alive(crew, b.trace)
    ensures ActiveExact(keys, active, Running(b.trace + [Finished(i)]))
    ensures |Running(b.trace + [Finished(i)])| == |Running(b.trace)| - 1
  {
    hide Running, Needs, Alive, Safe, ActiveExact, Exclusive, Alone;
    After(crew, b.trace, Finished(i));
    SafeNow(keys, crew, b.trace);
    FewerRunning(keys, Running(b.trace), i, Alive(crew, b.trace), b.active, active);
    SafeNext(keys, crew, b.trace, Finished(i));
  }

  /** Sequential tests go on top of the stack once one worker is left. */
  method MergeSequential(keys: Test -> seq<Key>, b: Board, ghost tests: seq<Test>, ghost start: seq<Test>,
                         ghost crew: set<nat>)
    returns (b': Board)
    requires Inv(keys, tests, start, crew, b) && b.workers != {}
    ensures Inv(keys, tests, start, crew, b') && b' == b.(files := b'.files, sequential := b'.sequential)
    ensures |b'.workers| == 1 ==> b'.sequential == [] && b'.files == b.files + b.sequential
    ensures |b'.workers| > 1 ==> b' == b
  {
    hide Only, Pool, Running, Sent, Alive, Decisions, Parked, SameLine, Shareable, Safe, ActiveExact, Reversed;
    b' := b;
    if |b.workers| == 1 && b.sequential != [] {
      b' := b.(files := b.files + b.sequential, sequential := []);
      ReversedConcat(b.files, b.sequential);
      ReversedSame(b.sequential);
      forall k | k != ALL
        ensures Only(keys, Sent(b.trace) + Line([], b.waiting, b'.files, k), k)
                  == Only(keys, Sent(b.trace) + Line([], b.waiting, b.files, k), k)
      {
        var before, late, queue := Sent(b.trace) + ([] + Waits(b.waiting, k)), Reversed(b.sequential),
            Reversed(b.files);
        LateTests(keys, b.sequential, k);
        OnlySkip(keys, before, late, queue, k);
        assert Sent(b.trace) + Line([], b.waiting, b'.files, k) == before + late + queue;
        assert Sent(b.trace) + Line([], b.waiting, b.files, k) == before + queue;
      }
      assert multiset(b'.files) == multiset(b.files) + multiset(b.sequential);
    }
  }

  lemma LateTests(keys: Test -> seq<Key>, late: seq<Test>, k: Key)
    requires (forall t :: t in late ==> ALL in keys(t)) && k != ALL
    ensures forall t :: t in Reversed(late) ==> !OnlyKey(keys, t, k)
  {
    ReversedSame(late);
    forall t | t in Reversed(late) ensures !OnlyKey(keys, t, k) {
      assert t in multiset(Reversed(late));
      assert t in multiset(late);
    }
  }

  lemma MoreRunning(keys: Test -> seq<Key>, running: map<nat, seq<Test>>, i: nat, batch: seq<Test>, alive: set<nat>,
                    active: map<Key, nat>, active': map<Key, nat>)
    requires ActiveExact(keys, active, running) && i !in running
    requires forall k :: Needs(keys, batch, k) ==> k !in active
    requires forall k :: k in active' <==> k in active || Needs(keys, batch, k)
    requires forall k :: k in active' ==> active'[k] == if Needs(keys, batch, k) then i else active[k]
    ensures ActiveExact(keys, active', running[i := batch]) && |running[i := batch]| == |running| + 1
    ensures Alone(keys, running, alive) && (Needs(keys, batch, ALL) ==> |alive| == 1) ==>
              Alone(keys, running[i := batch], alive)
  {
    hide Needs;
  }

  /** A table that is exact names one worker for each key. */
  lemma ExactExclusive(keys: Test -> seq<Key>, active: map<Key, nat>, running: map<nat, seq<Test>>)
    requires ActiveExact(keys, active, running)
    ensures Exclusive(keys, running)
  {
    forall v, w, k | v in running && w in running && Needs(keys, running[v], k) && Needs(keys, running[w], k)
      ensures v == w
    {
      assert active[k] == v && active[k] == w;
    }
  }

  lemma DispatchedSafe(keys: Test -> seq<Key>, crew: set<nat>, b: Board, i: nat, batch: seq<Test>,
                       active: map<Key, nat>)
    requires Safe(keys, crew, b.trace) && ActiveExact(keys, b.active, Running(b.trace))
    requires i !in Running(b.trace) && i in Alive(crew, b.trace)
             && (Needs(keys, batch, ALL) ==> |Alive(crew, b.trace)| == 1)
    requires forall k :: Needs(keys, batch, k) ==> k !in b.active
    requires forall k :: k in active <==> k in b.active || Needs(keys, batch, k)
    requires forall k :: k in active ==> active[k] == if Needs(keys, batch, k) then i else b.active[k]
    ensures Safe(keys, crew, b.trace + [Dispatched(i, batch)])
    ensures ActiveExact(keys, active, Running(b.trace + [Dispatched(i, batch)]))
    ensures |Running(b.trace + [Dispatched(i, batch)])| == |Running(b.trace)| + 1
  {
    hide Running, Needs, Alive, Safe, ActiveExact, Exclusive, Alone;
    After(crew, b.trace, Dispatched(i, batch));
    SafeNow(keys, crew, b.trace);
    MoreRunning(keys, Running(b.trace), i, batch, Alive(crew, b.trace), b.active, active);
    ExactExclusive(keys, active, Running(b.trace)[i := batch]);
    SafeNext(keys, crew, b.trace, Dispatched(i, batch));
  }

  lemma RetiredSafe(keys: Test -> seq<Key>, crew: set<nat>, trace: seq<Event>, i: nat)
    requires Safe(keys, crew, trace) && i !in Running(trace) && i in Alive(crew, trace)
    ensures Safe(keys, crew, trace + [Retired(i)])
  {
    hide Running, Needs, Alive, Safe, Exclusive;
    After(crew, trace, Retired(i));
    SafeNow(keys, crew, trace);
    var running, alive := Running(trace), Alive(crew, trace);
    assert running.Keys <= alive - {i} && |alive - {i}| == |alive| - 1;
    assert |alive| == 1 ==> running == map[];
    SafeNext(keys, crew, trace, Retired(i));
  }

  /** A batch taken from a stack that may be shared can be. */
  lemma BatchShareable(keys: Test -> seq<Key>, pool: multiset<Test>, batch: seq<Test>, rest: multiset<Test>)
    requires Shareable(keys, pool) && multiset(batch) + rest == pool
    ensures !Needs(keys, batch, ALL) && Shareable(keys, rest)
  {
    forall t | t in batch ensures ALL !in keys(t) {
      assert t in multiset(batch);
      assert t in pool;
    }
    forall t | t in rest ensures ALL !in keys(t) {
      assert t in pool;
    }
  }

  /** `$maxBatchSize`. */
  function MaxBatchSize(valgrind: bool, shuffle: bool): nat {
    if valgrind then 1 else if shuffle then 4 else 32
  }

  /** Batches just large enough for every worker to get one, up to a maximum. */
  function BatchSize(total: nat, workers: nat, valgrind: bool, shuffle: bool): (size: nat)
    requires workers > 0
    ensures 1 <= size <= MaxBatchSize(valgrind, shuffle)
    ensures size > 1 ==> (size - 1) * workers < total
    ensures size < MaxBatchSize(valgrind, shuffle) ==> total <= size * workers
  {
    var most := MaxBatchSize(valgrind, shuffle);
    var average := (total + workers - 1) / workers;
    RoundedUp(total, workers);
    var average := if average > 1 then average else 1;
    SmallerSize(most, average, total, workers);
    if most < average then most else average
  }

  lemma RoundedUp(total: nat, workers: nat)
    requires workers > 0
    ensures var n := (total + workers - 1) / workers; total <= n * workers && (n > 0 ==> (n - 1) * workers < total)
  {
    var n := (total + workers - 1) / workers;
    assert n * workers <= total + workers - 1 < (n + 1) * workers;
  }

  lemma SmallerSize(most: nat, average: nat, total: nat, workers: nat)
    requires 1 <= most && 1 <= average && (average > 1 ==> (average - 1) * workers < total)
    ensures most < average && most > 1 ==> (most - 1) * workers < total
  {
    if most < average {
      assert (most - 1) * workers <= (average - 1) * workers;
    }
  }

  /** `batch` has been taken from the stack of `b`, which leaves `b1`. */
  ghost predicate BatchTaken(keys: Test -> seq<Key>, b: Board, batch: seq<Test>, b1: Board) {
    && b1 == b.(files := b1.files, waiting := b1.waiting)
    && Parked(keys, b1.waiting, b.active)
    && (forall k :: Needs(keys, batch, k) ==> k !in b.active)
    && SameLine(keys, [], b.waiting, b.files, batch, b1.waiting, b1.files)
    && multiset(batch) + multiset(b1.files) + Pool(b1.waiting) == multiset(b.files) + Pool(b.waiting)
  }

  /** What taking a batch means for the tests, whatever happens to it. */
  lemma BatchFacts(keys: Test -> seq<Key>, tests: seq<Test>, start: seq<Test>, crew: set<nat>, b: Board,
                   batch: seq<Test>, b1: Board)
    requires Inv(keys, tests, start, crew, b) && BatchTaken(keys, b, batch, b1)
    ensures multiset(b1.files) + Pool(b1.waiting) + multiset(b.sequential) + multiset(Sent(b.trace) + batch)
              == multiset(tests)
    ensures forall k :: k != ALL ==>
              Only(keys, Sent(b.trace) + batch + Line([], b1.waiting, b1.files, k), k) == Only(keys, start, k)
    ensures |b.workers| > 1 ==> !Needs(keys, batch, ALL) && Shareable(keys, multiset(b1.files) + Pool(b1.waiting))
  {
    hide Only, Line, Pool, Running, Sent, Alive, Decisions, Parked, SameLine, Safe, ActiveExact, Needs, Shareable;
    SameLineAfter(keys, Sent(b.trace), start, b.waiting, b.files, batch, b1.waiting, b1.files);
    var pool, rest := multiset(b.files) + Pool(b.waiting), multiset(b1.files) + Pool(b1.waiting);
    assert multiset(batch) + rest == pool;
    if |b.workers| > 1 {
      BatchShareable(keys, pool, batch, rest);
    }
  }

  lemma DispatchInv(keys: Test -> seq<Key>, tests: seq<Test>, start: seq<Test>, crew: set<nat>, b: Board,
                    batch: seq<Test>, b1: Board,
                    i: nat, b': Board)
    requires Inv(keys, tests, start, crew, b) && BatchTaken(keys, b, batch, b1) && batch != []
    requires i in b.workers && i !in Running(b.trace)
    requires forall k :: k in b'.active <==> k in b.active || Needs(keys, batch, k)
    requires forall k :: k in b'.active ==> b'.active[k] == if Needs(keys, batch, k) then i else b.active[k]
    requires b' == b1.(active := b'.active, inProgress := b.inProgress + 1, trace := b.trace + [Dispatched(i, batch)])
    ensures Inv(keys, tests, start, crew, b') && |Sent(b'.trace)| > |Sent(b.trace)|
  {
    hide Only, Line, Pool, Running, Sent, Alive, Decisions, SameLine, Safe, ActiveExact, Needs, Shareable;
    BatchFacts(keys, tests, start, crew, b, batch, b1);
    assert b.workers != {} && |b.workers| >= 1;
    DispatchedSafe(keys, crew, b, i, batch, b'.active);
    After(crew, b.trace, Dispatched(i, batch));
  }

  lemma RetireInv(keys: Test -> seq<Key>, tests: seq<Test>, start: seq<Test>, crew: set<nat>, b: Board, b1: Board,
                  i: nat, b': Board)
    requires Inv(keys, tests, start, crew, b) && BatchTaken(keys, b, [], b1) && b1.files == []
    requires i in b.workers && i !in Running(b.trace) && (|b.workers| == 1 ==> b.sequential == [])
    requires b' == b1.(workers := b.workers - {i}, trace := b.trace + [Retired(i)])
    ensures Inv(keys, tests, start, crew, b') && Sent(b'.trace) == Sent(b.trace) && |b'.workers| == |b.workers| - 1
  {
    hide Only, Line, Pool, Running, Sent, Alive, Decisions, SameLine, Safe, ActiveExact, Needs, Shareable;
    BatchFacts(keys, tests, start, crew, b, [], b1);
    RetiredSafe(keys, crew, b.trace, i);
    After(crew, b.trace, Retired(i));
    assert Sent(b.trace) + [] == Sent(b.trace);
    assert b'.workers == {} ==> |b.workers| == 1;
  }

  /** The decision about worker `i`, which holds no batch: send it one, or retire it. */
  method Assign(keys: Test -> seq<Key>, b: Board, i: nat, batchSize: nat, ghost tests: seq<Test>,
                ghost start: seq<Test>, ghost crew: set<nat>)
    returns (b': Board)
    requires Inv(keys, tests, start, crew, b) && i in b.workers && i !in Running(b.trace)
    requires |b.workers| == 1 ==> b.sequential == []
    ensures Inv(keys, tests, start, crew, b')
    ensures |Sent(b'.trace)| - |b'.workers| > |Sent(b.trace)| - |b.workers|
    ensures var batch := Prefix(FreeTests(keys, b.files, b.active), batchSize + 1);
            b'.trace == b.trace + [if batch == [] then Retired(i) else Dispatched(i, batch)]
    ensures FreeTests(keys, b.files, b.active) == [] ==> b'.files == []
  {
    hide Inv, Parked, SameLine, Needs, Pool, Sent, Running, FreeTests;
    assert Parked(keys, b.waiting, b.active) by { InvParked(keys, tests, start, crew, b); }
    var batch, b1 := TakeBatch(keys, b, batchSize);
    if batch != [] {
      var active := Occupy(keys, batch, b.active, i);
      b' := b1.(active := active, inProgress := b.inProgress + 1, trace := b.trace + [Dispatched(i, batch)]);
      DispatchInv(keys, tests, start, crew, b, batch, b1, i, b');
    } else {
      b' := b1.(workers := b.workers - {i}, trace := b.trace + [Retired(i)]);
      RetireInv(keys, tests, start, crew, b, b1, i, b');
    }
  }

  lemma InvParked(keys: Test -> seq<Key>, tests: seq<Test>, start: seq<Test>, crew: set<nat>, b: Board)
    requires Inv(keys, tests, start, crew, b)
    ensures Parked(keys, b.waiting, b.active)
  {
    hide Parked, Safe, Only, ActiveExact, Pool;
  }

  // ---------------------------------------------------------------- a whole run

  /** The batches of a run are not empty and hold at most `most` tests. */
  ghost predicate BatchesWithin(trace: seq<Event>, most: nat) {
    forall n :: 0 <= n < |trace| && trace[n].Dispatched? ==> 1 <= |trace[n].batch| <= most
  }

  /**
   One message of worker `i`: `tests_finished` if it holds a batch, else `ready`.  The board
   `ready` is the one on which the worker's next batch is decided.
   */
  method OnMessage(keys: Test -> seq<Key>, b: Board, i: nat, total: nat, valgrind: bool, shuffle: bool,
                   ghost tests: seq<Test>, ghost start: seq<Test>, ghost crew: set<nat>)
    returns (b': Board, ghost ready: Board)
    requires Inv(keys, tests, start, crew, b) && i in b.workers
    ensures Inv(keys, tests, start, crew, b')
    ensures |Sent(b'.trace)| - |b'.workers| > |Sent(b.trace)| - |b.workers|
    ensures Inv(keys, tests, start, crew, ready) && i !in Running(ready.trace) && ready.workers == b.workers
    ensures ready.trace == b.trace + (if i in Running(b.trace) then [Finished(i)] else [])
    ensures |b.workers| == 1 ==> ready.sequential == []
    ensures |b.workers| > 0
    ensures var batch := Prefix(FreeTests(keys, ready.files, ready.active),
                                BatchSize(total, |b.workers|, valgrind, shuffle) + 1);
            b'.trace == ready.trace + [if batch == [] then Retired(i) else Dispatched(i, batch)]
  {
    hide Inv, Sent, Running, FreeTests;
    b' := b;
    if i in Running(b.trace) {
      b' := OnFinished(keys, b, i, tests, start, crew);
    }
    b' := MergeSequential(keys, b', tests, start, crew);
    ready := b';
    assert b.workers != {} && |b.workers| > 0;
    var size := BatchSize(total, |b'.workers|, valgrind, shuffle);
    b' := Assign(keys, b', i, size, tests, start, crew);
  }

  /** The tests that conflict with everything, or the others, in order. */
  ghost function Apart(keys: Test -> seq<Key>, tests: seq<Test>, all: bool): seq<Test> {
    if tests == [] then []
    else
      var last := tests[|tests| - 1];
      Apart(keys, tests[..|tests| - 1], all) + if (ALL in keys(last)) == all then [last] else []
  }

  lemma NoBatches(most: nat)
    ensures BatchesWithin([], most)
  {
  }

  lemma MoreBatches(trace: seq<Event>, ready: seq<Event>, trace': seq<Event>, i: nat, free: seq<Test>, size: nat,
                    most: nat)
    requires BatchesWithin(trace, most + 1) && size <= most && (ready == trace + [Finished(i)] || ready == trace + [])
    requires var batch := Prefix(free, size + 1);
             trace' == ready + [if batch == [] then Retired(i) else Dispatched(i, batch)]
    ensures BatchesWithin(trace', most + 1)
  {
  }

  /** The tests that conflict with everything are apart, and the others have kept their order. */
  ghost predicate Parted(keys: Test -> seq<Key>, tests: seq<Test>, parallel: seq<Test>, sequential: seq<Test>) {
    && multiset(parallel) + multiset(sequential) == multiset(tests)
    && (forall t :: t in parallel ==> ALL !in keys(t))
    && (forall t :: t in sequential ==> ALL in keys(t))
    && (forall k :: k != ALL ==> Only(keys, parallel, k) == Only(keys, tests, k))
    && parallel == Apart(keys, tests, false) && sequential == Apart(keys, tests, true)
  }

  lemma ApartNext(keys: Test -> seq<Key>, tests: seq<Test>, t: Test, all: bool)
    ensures Apart(keys, tests + [t], all) == Apart(keys, tests, all) + if (ALL in keys(t)) == all then [t] else []
  {
    assert (tests + [t])[..|tests|] == tests;
  }

  lemma PartedNext(keys: Test -> seq<Key>, tests: seq<Test>, t: Test, parallel: seq<Test>, sequential: seq<Test>)
    requires Parted(keys, tests, parallel, sequential)
    ensures ALL in keys(t) ==> Parted(keys, tests + [t], parallel, sequential + [t])
    ensures ALL !in keys(t) ==> Parted(keys, tests + [t], parallel + [t], sequential)
  {
    hide Only, Apart;
    ApartNext(keys, tests, t, false);
    ApartNext(keys, tests, t, true);
    var next := if ALL in keys(t) then parallel else parallel + [t];
    forall k | k != ALL ensures Only(keys, next, k) == Only(keys, tests + [t], k) {
      OnlyConcat(keys, tests, [t], k);
      OnlyConcat(keys, parallel, [t], k);
      if ALL in keys(t) {
        OnlyNone(keys, [t], k);
      }
    }
  }

  /** Separating the tests that conflict with everything; the others keep their order. */
  method Partition(keys: Test -> seq<Key>, tests: seq<Test>) returns (parallel: seq<Test>, sequential: seq<Test>)
    ensures Parted(keys, tests, parallel, sequential)
  {
    hide Only, Parted;
    parallel, sequential := [], [];
    NoneParted(keys);
    var n := 0;
    while n < |tests|
      invariant 0 <= n <= |tests| && Parted(keys, tests[..n], parallel, sequential)
    {
      var t := tests[n];
      PartedNext(keys, tests[..n], t, parallel, sequential);
      assert tests[..n + 1] == tests[..n] + [t];
      if ALL in keys(t) {
        sequential := sequential + [t];
      } else {
        parallel := parallel + [t];
      }
      n := n + 1;
    }
    assert tests[..n] == tests;
  }

  lemma NoneParted(keys: Test -> seq<Key>)
    ensures Parted(keys, [], [], [])
  {
  }

  /** PHP's shuffle: any order. */
  method Shuffle(files: seq<Test>) returns (shuffled: seq<Test>)
    ensures multiset(shuffled) == multiset(files)
  {
    shuffled := [];
    var rest := files;
    while rest != []
      invariant multiset(shuffled) + multiset(rest) == multiset(files)
      decreases |rest|
    {
      var n :| 0 <= n < |rest|;
      assert rest == rest[..n] + [rest[n]] + rest[n + 1..];
      shuffled := shuffled + [rest[n]];
      rest := rest[..n] + rest[n + 1..];
    }
  }

  /** The workers 1 to `workers`. */
  function Crew(workers: nat): set<nat> {
    if workers == 0 then {} else Crew(workers - 1) + {workers}
  }

  lemma {:induction false} CrewSize(workers: nat)
    ensures |Crew(workers)| == workers && forall w :: w in Crew(workers) ==> 1 <= w <= workers
  {
    if workers > 0 {
      CrewSize(workers - 1);
    }
  }

  lemma Started(keys: Test -> seq<Key>, tests: seq<Test>, b: Board, workers: nat)
    requires multiset(b.files) + multiset(b.sequential) == multiset(tests) && 0 < workers
    requires (forall t :: t in b.files ==> ALL !in keys(t)) && (forall t :: t in b.sequential ==> ALL in keys(t))
    requires b == Board(b.files, b.sequential, map[], map[], Crew(workers), 0, [])
    ensures Inv(keys, tests, Reversed(b.files), Crew(workers), b)
  {
    hide Only, Reversed, Needs;
    CrewSize(workers);
    assert Running([]) == map[] && Sent([]) == [];
    assert SafeAfter(keys, Crew(workers), []);
    assert Pool(b.waiting) == multiset{};
    forall k ensures Sent(b.trace) + Line([], b.waiting, b.files, k) == Reversed(b.files) {}
    assert multiset(b.files) + multiset{} + multiset(b.sequential) + multiset{} == multiset(tests);
  }

  lemma SentFewer(keys: Test -> seq<Key>, tests: seq<Test>, start: seq<Test>, crew: set<nat>, b: Board)
    requires Inv(keys, tests, start, crew, b)
    ensures |Sent(b.trace)| <= |tests|
  {
    hide Only, Line, Pool, Running, Sent, Alive, Decisions, Safe, ActiveExact, Parked, Shareable;
    assert |multiset(Sent(b.trace))| <= |multiset(tests)|;
  }

  /** When the loop ends, every test has been sent and every batch has come back. */
  lemma AllDone(keys: Test -> seq<Key>, tests: seq<Test>, start: seq<Test>, crew: set<nat>, b: Board)
    requires Inv(keys, tests, start, crew, b) && b.files == [] && b.sequential == [] && b.inProgress <= 0
    ensures multiset(Sent(b.trace)) == multiset(tests) && Running(b.trace) == map[]
    ensures Safe(keys, crew, b.trace) && Decisions(b.trace) <= |tests| + |crew|
    ensures forall k :: k != ALL ==> Only(keys, Sent(b.trace), k) == Only(keys, start, k)
  {
    hide Only, Running, Sent, Alive, Decisions, Safe, ActiveExact, Parked, Shareable;
    NobodyWaits(keys, tests, start, crew, b);
    SentFewer(keys, tests, start, crew, b);
    assert Pool(b.waiting) == multiset{};
    forall k ensures Sent(b.trace) + Line([], b.waiting, b.files, k) == Sent(b.trace) {}
  }

  /**
   run_all_tests_parallel, for workers that answer every batch once, in any
   order.  Every test is sent exactly once; at no time do two workers hold tests
   with a common key, or does a test that conflicts with everything run beside
   others; and without shuffling, tests with the same one key are sent in order.
   */
  method RunAll(keys: Test -> seq<Key>, tests: seq<Test>, requested: int, valgrind: bool, shuffle: bool)
    returns (workers: nat, trace: seq<Event>)
    ensures workers == Max(1, Min(requested, |Apart(keys, tests, false)|))
    ensures BatchesWithin(trace, if valgrind then 2 else if shuffle then 5 else 33)
    ensures multiset(Sent(trace)) == multiset(tests) && Running(trace) == map[]
    ensures Safe(keys, Crew(workers), trace)
    ensures Decisions(trace) <= |tests| + workers
    ensures !shuffle ==> forall k :: k != ALL ==> Only(keys, Sent(trace), k) == Only(keys, tests, k)
  {
    hide Inv, Only, Sent, Running, Safe, Decisions, Crew, Apart, FreeTests, BatchesWithin, BatchSize, Prefix,
         Reversed;
    var parallel, sequential := Partition(keys, tests);
    ReversedSame(parallel);
    var files := Reversed(parallel);
    if shuffle {
      files := Shuffle(files);
    } else {
      ReversedTwice(parallel);
    }
    assert forall t :: t in files ==> t in multiset(files);
    assert |files| == |multiset(files)| == |multiset(parallel)| == |parallel|;
    workers := Max(1, Min(requested, |files|));
    CrewSize(workers);
    ghost var start, crew := Reversed(files), Crew(workers);
    var b := Board(files, sequential, map[], map[], Crew(workers), 0, []);
    Started(keys, tests, b, workers);
    NoBatches(MaxBatchSize(valgrind, shuffle) + 1);
    while b.files != [] || b.sequential != [] || b.inProgress > 0
      invariant Inv(keys, tests, start, crew, b) && BatchesWithin(b.trace, MaxBatchSize(valgrind, shuffle) + 1)
      decreases |tests| - |Sent(b.trace)| + |b.workers|
    {
      SentFewer(keys, tests, start, crew, b);
      SomeoneOwes(keys, tests, start, crew, b);
      var i :| i in b.workers;
      ghost var before, ready := b, b;
      b, ready := OnMessage(keys, b, i, |files|, valgrind, shuffle, tests, start, crew);
      MoreBatches(before.trace, ready.trace, b.trace, i, FreeTests(keys, ready.files, ready.active),
                  BatchSize(|files|, |before.workers|, valgrind, shuffle), MaxBatchSize(valgrind, shuffle));
      SentFewer(keys, tests, start, crew, b);
    }
    AllDone(keys, tests, start, crew, b);
    trace := b.trace;
  }

  /** While there is work left, some worker is alive and owes a message: the coordinator never waits in vain. */
  lemma SomeoneOwes(keys: Test -> seq<Key>, tests: seq<Test>, start: seq<Test>, crew: set<nat>, b: Board)
    requires Inv(keys, tests, start, crew, b) && (b.files != [] || b.sequential != [] || b.inProgress > 0)
    ensures b.workers != {}
  {
    hide Only, Line, Pool, Running, Sent, Alive, Decisions, Safe, ActiveExact, Parked, Shareable;
    if b.inProgress > 0 {
      SafeNow(keys, crew, b.trace);
      var w :| w in Running(b.trace);
      assert w in Alive(crew, b.trace);
    }
  }
}

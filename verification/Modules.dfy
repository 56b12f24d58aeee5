/**
 Module ordering and startup (zend_sort_modules, zend_startup_modules): an
 in-place swap sort that starts over at the same place after each swap, and
 the start of each module whose required dependencies are there.
 */
module Modules {
  datatype Kind = Required | Conflicts | Optional
  datatype Dep = Dep(name: string, kind: Kind)
  datatype Module = Module(name: string, started: bool, deps: seq<Dep>)

  /** Module names are compared without regard to case. */
  function Lower(s: string): (r: string)
    ensures |r| == |s|
  {
    if s == [] then []
    else
      var c := if 'A' <= s[0] <= 'Z' then s[0] + 32 as char else s[0];
      [c] + Lower(s[1..])
  }

  predicate Upper(c: char) {
    'A' <= c <= 'Z'
  }

  /** The same letter, perhaps in the other case. */
  predicate SameLetter(c: char, d: char) {
    c == d || (Upper(c) && d as int == c as int + 32) || (Upper(d) && c as int == d as int + 32)
  }

  /** strcasecmp says that the names are equal. */
  predicate SameName(s: string, t: string) {
    |s| == |t| && forall i :: 0 <= i < |s| ==> SameLetter(s[i], t[i])
  }

  /** What is in lower case is in no other case, and nothing else changes. */
  lemma {:induction false} LowerAt(s: string, i: nat)
    requires i < |s|
    ensures !Upper(Lower(s)[i]) && SameLetter(Lower(s)[i], s[i]) && (!Upper(s[i]) ==> Lower(s)[i] == s[i])
  {
    if i > 0 {
      LowerAt(s[1..], i - 1);
    }
  }

  lemma LowerStays(s: string)
    requires forall i :: 0 <= i < |s| ==> !Upper(s[i])
    ensures Lower(s) == s
  {
    hide Lower;
    forall i | 0 <= i < |s| ensures Lower(s)[i] == s[i] {
      LowerAt(s, i);
    }
  }

  /** Lower-case names are equal exactly when the names are the same but for case. */
  lemma LowerSame(s: string, t: string)
    ensures Lower(s) == Lower(t) <==> SameName(s, t)
  {
    hide Lower;
    if |s| == |t| {
      forall i | 0 <= i < |s| ensures Lower(s)[i] == Lower(t)[i] <==> SameLetter(s[i], t[i]) {
        LowerAt(s, i);
        LowerAt(t, i);
      }
    } else {
      assert |Lower(s)| == |s| && |Lower(t)| == |t|;
    }
  }

  /** What a module orders by: its required and optional dependencies, not its conflicts, by name but for case. */
  lemma EdgeExactly(m: Module, r: Module)
    ensures Edge(m, r) <==>
              !m.started && exists d :: d in m.deps && d.kind != Conflicts && SameName(d.name, r.name)
  {
    hide Lower, SameName;
    forall d: Dep ensures Lower(d.name) == Id(r) <==> SameName(d.name, r.name) {
      LowerSame(d.name, r.name);
    }
  }

  function Id(m: Module): string {
    Lower(m.name)
  }

  /** The registry is keyed by lower-case name. */
  ghost predicate Distinct(ms: seq<Module>) {
    forall i, j :: 0 <= i < j < |ms| ==> Id(ms[i]) != Id(ms[j])
  }

  predicate Orders(d: Dep) {
    d.kind == Required || d.kind == Optional
  }

  /** `m` has yet to be started and names `r` as a dependency. */
  predicate Edge(m: Module, r: Module) {
    !m.started && exists d :: d in m.deps && Orders(d) && Lower(d.name) == Id(r)
  }

  /** No module that is yet to be started comes before one of its dependencies. */
  ghost predicate Sorted(ms: seq<Module>) {
    forall i, j :: 0 <= i < j < |ms| ==> !Edge(ms[i], ms[j])
  }

  /** A walk along dependencies through different modules. */
  ghost predicate Walk(ms: seq<Module>, path: seq<Module>) {
    && (forall k :: 0 <= k < |path| ==> path[k] in ms)
    && (forall k :: 0 <= k < |path| - 1 ==> Edge(path[k], path[k + 1]) && path[k] != path[k + 1])
  }

  /** A walk through two or more modules that closes. */
  ghost predicate Cycle(ms: seq<Module>, path: seq<Module>) {
    |path| >= 2 && Walk(ms, path) && Edge(path[|path| - 1], path[0]) && path[|path| - 1] != path[0]
  }

  ghost predicate Acyclic(ms: seq<Module>) {
    forall path :: !Cycle(ms, path)
  }

  // -------------------------------------------------------- the sort, by steps

  /** The order of the modules and the position of `b1`. */
  datatype Progress = Progress(at: nat, order: seq<Module>)

  /**
   Position `j` behind `i` holds the first match, in order of position, for the first
   dependency of the module at `i` that has one.
   */
  ghost predicate Match(ms: seq<Module>, i: nat, d: nat, j: nat) {
    && i < j < |ms| && d < |ms[i].deps| && Orders(ms[i].deps[d]) && Lower(ms[i].deps[d].name) == Id(ms[j])
    && (forall k :: i < k < j ==> Lower(ms[i].deps[d].name) != Id(ms[k]))
    && (forall c :: 0 <= c < d && Orders(ms[i].deps[c]) ==> NoneBehind(ms, i, ms[i].deps[c]))
  }

  ghost predicate NoneBehind(ms: seq<Module>, i: nat, d: Dep) {
    forall k :: i < k < |ms| ==> Lower(d.name) != Id(ms[k])
  }

  function Swap(ms: seq<Module>, i: nat, j: nat): seq<Module>
    requires i < |ms| && j < |ms|
  {
    ms[i := ms[j]][j := ms[i]]
  }

  /** One turn at the label try_again: a swap, or on to the next position. */
  ghost predicate Step(s: Progress, t: Progress) {
    s.at < |s.order| && (
      || (!s.order[s.at].started
          && exists d, j :: Match(s.order, s.at, d, j) && t == Progress(s.at, Swap(s.order, s.at, j)))
      || (Settled(s) && t == Progress(s.at + 1, s.order)))
  }

  /** The module at the current position needs none of those behind it. */
  ghost predicate Settled(s: Progress)
    requires s.at < |s.order|
  {
    s.order[s.at].started
    || forall d :: 0 <= d < |s.order[s.at].deps| && Orders(s.order[s.at].deps[d]) ==>
        NoneBehind(s.order, s.at, s.order[s.at].deps[d])
  }

  /** `trace` is a run of the sort from the order `ms`. */
  ghost predicate RunFrom(ms: seq<Module>, trace: seq<Progress>) {
    && trace != [] && trace[0] == Progress(0, ms)
    && forall n :: 0 <= n < |trace| - 1 ==> Step(trace[n], trace[n + 1])
  }

  ghost predicate Done(s: Progress) {
    s.at >= |s.order|
  }

  /** The sort of `ms` comes to an end. */
  ghost predicate Halts(ms: seq<Module>) {
    exists trace :: RunFrom(ms, trace) && Done(trace[|trace| - 1])
  }

  // ----------------------------------------------------------- partial correctness

  /** Everything before `at` is in its place for good. */
  ghost predicate PrefixSorted(s: Progress) {
    s.at <= |s.order| && forall i, j :: 0 <= i < s.at && i < j < |s.order| ==> !Edge(s.order[i], s.order[j])
  }

  lemma SwapSame(ms: seq<Module>, i: nat, j: nat)
    requires i < j < |ms|
    ensures multiset(Swap(ms, i, j)) == multiset(ms)
  {
  }

  lemma SwapDistinct(ms: seq<Module>, i: nat, j: nat)
    requires i < j < |ms| && Distinct(ms)
    ensures Distinct(Swap(ms, i, j))
  {
    hide Id;
  }

  /** Swapping behind the sorted prefix leaves it sorted. */
  lemma SwapPrefix(ms: seq<Module>, i: nat, j: nat)
    requires i < j < |ms| && PrefixSorted(Progress(i, ms))
    ensures PrefixSorted(Progress(i, Swap(ms, i, j)))
  {
    hide Edge;
    var new_ := Swap(ms, i, j);
    forall a, c | 0 <= a < i && a < c < |new_| ensures !Edge(new_[a], new_[c]) {
      var d := if c == i then j else if c == j then i else c;
      assert new_[a] == ms[a] && new_[c] == ms[d];
    }
  }

  lemma StepPrefix(s: Progress, t: Progress)
    requires Step(s, t) && PrefixSorted(s)
    ensures PrefixSorted(t) && multiset(t.order) == multiset(s.order) && |t.order| == |s.order|
  {
    hide Edge, NoneBehind, Settled, Lower;
    if Settled(s) && t == Progress(s.at + 1, s.order) {
      SettledEdges(s);
    } else {
      var d, j :| Match(s.order, s.at, d, j) && t == Progress(s.at, Swap(s.order, s.at, j));
      SwapPrefix(s.order, s.at, j);
      SwapSame(s.order, s.at, j);
    }
  }

  lemma SettledEdges(s: Progress)
    requires s.at < |s.order| && Settled(s)
    ensures forall j :: s.at < j < |s.order| ==> !Edge(s.order[s.at], s.order[j])
  {
    hide Lower;
  }

  lemma {:induction false} RunPrefix(ms: seq<Module>, trace: seq<Progress>, n: nat)
    requires RunFrom(ms, trace) && n < |trace|
    ensures PrefixSorted(trace[n]) && multiset(trace[n].order) == multiset(ms)
  {
    if n > 0 {
      RunPrefix(ms, trace, n - 1);
      assert Step(trace[n - 1], trace[n]);
      StepPrefix(trace[n - 1], trace[n]);
    }
  }

  /** Whatever the input, a sort that ends leaves its modules, sorted. */
  lemma EndsSorted(ms: seq<Module>, trace: seq<Progress>)
    requires RunFrom(ms, trace) && Done(trace[|trace| - 1])
    ensures Sorted(trace[|trace| - 1].order) && multiset(trace[|trace| - 1].order) == multiset(ms)
  {
    RunPrefix(ms, trace, |trace| - 1);
  }

  /** A step leaves no choice. */
  lemma StepUnique(s: Progress, t: Progress, u: Progress)
    requires Step(s, t) && Step(s, u)
    ensures t == u
  {
    hide Lower;
    var m := s.order[s.at];
    forall d: nat, j: nat | Match(s.order, s.at, d, j) && !m.started ensures !Settled(s) {
      assert !NoneBehind(s.order, s.at, m.deps[d]);
    }
    forall d: nat, j: nat, c: nat, k: nat | Match(s.order, s.at, d, j) && Match(s.order, s.at, c, k) ensures j == k {
      assert !NoneBehind(s.order, s.at, m.deps[d]) && !NoneBehind(s.order, s.at, m.deps[c]);
    }
  }

  // ------------------------------------------------- it ends unless there is a cycle

  ghost function Pos(ms: seq<Module>, m: Module): (i: nat)
    requires m in ms
    ensures i < |ms| && ms[i] == m
  {
    var i :| 0 <= i < |ms| && ms[i] == m;
    i
  }

  /** In a sorted order a walk only goes to the front. */
  lemma {:induction false} WalkDown(ms: seq<Module>, path: seq<Module>, k: nat)
    requires Sorted(ms) && Walk(ms, path) && k < |path|
    ensures Pos(ms, path[k]) + k <= Pos(ms, path[0])
  {
    hide Edge;
    if k > 0 {
      WalkDown(ms, path, k - 1);
      assert Edge(path[k - 1], path[k - 1 + 1]);
      assert Edge(ms[Pos(ms, path[k - 1])], ms[Pos(ms, path[k])]);
    }
  }

  lemma SortedAcyclic(ms: seq<Module>)
    requires Sorted(ms)
    ensures Acyclic(ms)
  {
    hide Edge;
    forall path ensures !Cycle(ms, path) {
      if Cycle(ms, path) {
        var last := |path| - 1;
        WalkDown(ms, path, last);
      }
    }
  }

  lemma SameMembers(ms: seq<Module>, ms': seq<Module>)
    requires multiset(ms) == multiset(ms')
    ensures |ms| == |ms'| && (forall m :: m in ms <==> m in ms')
    ensures Acyclic(ms) ==> Acyclic(ms')
  {
    assert |ms| == |multiset(ms)| && |ms'| == |multiset(ms')|;
    assert forall m :: m in ms <==> m in multiset(ms);
    assert forall m :: m in ms' <==> m in multiset(ms');
    forall path | Cycle(ms', path) ensures Cycle(ms, path) {}
  }

  ghost predicate NoRepeat(path: seq<Module>) {
    forall i, j :: 0 <= i < j < |path| ==> path[i] != path[j]
  }

  lemma {:induction false} NoRepeatLength(path: seq<Module>, all: set<Module>)
    requires NoRepeat(path) && forall m :: m in path ==> m in all
    ensures |path| <= |all|
  {
    if path != [] {
      var last := path[|path| - 1];
      assert last !in path[..|path| - 1];
      NoRepeatLength(path[..|path| - 1], all - {last});
    }
  }

  lemma {:induction false} MemberCount(ms: seq<Module>)
    ensures |set m | m in ms| <= |ms|
  {
    if ms != [] {
      MemberCount(ms[1..]);
      var rest := set m | m in ms[1..];
      assert (set m | m in ms) == rest + {ms[0]};
    }
  }

  /** Without cycles, the dependency that takes the place of a module has not been there before. */
  lemma ChainNext(ms: seq<Module>, chain: seq<Module>, r: Module)
    requires Acyclic(ms) && Walk(ms, chain) && NoRepeat(chain) && chain != []
    requires r in ms && Edge(chain[|chain| - 1], r) && r != chain[|chain| - 1]
    ensures Walk(ms, chain + [r]) && NoRepeat(chain + [r]) && |chain| < |ms|
  {
    hide Edge;
    assert r !in chain by {
      if k :| 0 <= k < |chain| && chain[k] == r {
        var path := chain[k..];
        assert path[0] == r && path[|path| - 1] == chain[|chain| - 1];
        forall n | 0 <= n < |path| - 1 ensures Edge(path[n], path[n + 1]) && path[n] != path[n + 1] {
          assert path[n] == chain[k + n] && path[n + 1] == chain[k + n + 1];
        }
        assert Cycle(ms, path);
      }
    }
    var more := chain + [r];
    assert Walk(ms, more);
    MemberCount(ms);
    NoRepeatLength(more, set m | m in ms);
  }

  /** A swap is a step, and brings a dependency to the current position. */
  lemma SwapStep(s: Progress, d: nat, j: nat, t: Progress)
    requires Match(s.order, s.at, d, j) && !s.order[s.at].started && Distinct(s.order)
    requires t == Progress(s.at, Swap(s.order, s.at, j))
    ensures Step(s, t) && |t.order| == |s.order| && multiset(t.order) == multiset(s.order) && Distinct(t.order)
    ensures t.order[t.at] == s.order[j] && Edge(s.order[s.at], s.order[j]) && s.order[s.at] != s.order[j]
  {
    hide Lower;
    assert s.order[s.at].deps[d] in s.order[s.at].deps;
    SwapSame(s.order, s.at, j);
    SwapDistinct(s.order, s.at, j);
  }

  lemma Extend(ms: seq<Module>, trace: seq<Progress>, t: Progress)
    requires RunFrom(ms, trace) && Step(trace[|trace| - 1], t)
    ensures RunFrom(ms, trace + [t])
  {
    hide Step;
  }

  /** A run in progress; `chain` are the modules that have been at the current position. */
  ghost predicate OnTheWay(ms: seq<Module>, s: Progress, chain: seq<Module>) {
    && s.at <= |s.order| && multiset(s.order) == multiset(ms) && Distinct(s.order)
    && (s.at < |s.order| ==> Walk(ms, chain) && NoRepeat(chain) && chain != [] && chain[|chain| - 1] == s.order[s.at])
  }

  lemma Swapped(ms: seq<Module>, s: Progress, chain: seq<Module>, d: nat, j: nat, t: Progress)
    requires Acyclic(ms) && OnTheWay(ms, s, chain) && Match(s.order, s.at, d, j) && !s.order[s.at].started
    requires t == Progress(s.at, Swap(s.order, s.at, j))
    ensures Step(s, t) && OnTheWay(ms, t, chain + [s.order[j]]) && |chain| < |ms|
  {
    hide Edge, Lower, Acyclic, Walk, NoRepeat, Step, Distinct;
    SwapStep(s, d, j, t);
    SameMembers(ms, s.order);
    assert s.order[j] in ms;
    ChainNext(ms, chain, s.order[j]);
  }

  lemma Advanced(ms: seq<Module>, s: Progress, t: Progress)
    requires multiset(s.order) == multiset(ms) && Distinct(s.order)
    requires s.at < |s.order| && Settled(s) && t == Progress(s.at + 1, s.order)
    ensures Step(s, t) && OnTheWay(ms, t, if t.at < |t.order| then [t.order[t.at]] else [])
  {
    hide Edge, Lower, Acyclic, Walk, NoRepeat, Distinct;
    SameMembers(ms, s.order);
    var next := if t.at < |t.order| then [t.order[t.at]] else [];
    assert t.at < |t.order| ==> t.order[t.at] in ms;
    OneStep(ms, next);
    SettledStep(s, t);
  }

  /** A run that has come this far comes to an end. */
  lemma {:induction false} Finishes(ms: seq<Module>, trace: seq<Progress>, chain: seq<Module>)
    requires Acyclic(ms) && RunFrom(ms, trace) && OnTheWay(ms, trace[|trace| - 1], chain)
    ensures Halts(ms)
    decreases |ms| - trace[|trace| - 1].at, |ms| - |chain|
  {
    hide Edge, Lower, Acyclic, Walk, NoRepeat, Step, Distinct, Settled, Match;
    var s := trace[|trace| - 1];
    SameMembers(ms, s.order);
    if s.at < |s.order| {
      if d: nat, j: nat :| Match(s.order, s.at, d, j) && !s.order[s.at].started {
        MatchBounds(s, d, j);
        var t := Progress(s.at, Swap(s.order, s.at, j));
        Swapped(ms, s, chain, d, j, t);
        Extend(ms, trace, t);
        Finishes(ms, trace + [t], chain + [s.order[j]]);
      } else {
        NoMatch(s);
        var t := Progress(s.at + 1, s.order);
        Advanced(ms, s, t);
        Extend(ms, trace, t);
        Finishes(ms, trace + [t], if t.at < |t.order| then [t.order[t.at]] else []);
      }
    }
  }

  lemma MatchBounds(s: Progress, d: nat, j: nat)
    requires Match(s.order, s.at, d, j)
    ensures s.at < j < |s.order|
  {
  }

  lemma SettledStep(s: Progress, t: Progress)
    requires s.at < |s.order| && Settled(s) && t == Progress(s.at + 1, s.order)
    ensures Step(s, t)
  {
  }

  lemma OneStep(ms: seq<Module>, chain: seq<Module>)
    requires |chain| <= 1 && forall m :: m in chain ==> m in ms
    ensures Walk(ms, chain) && NoRepeat(chain)
  {
  }

  lemma NoMatch(s: Progress)
    requires s.at < |s.order| && forall d, j :: Match(s.order, s.at, d, j) ==> s.order[s.at].started
    ensures Settled(s)
  {
    if !s.order[s.at].started {
      var deps := s.order[s.at].deps;
      forall d | 0 <= d < |deps| && Orders(deps[d]) ensures NoneBehind(s.order, s.at, deps[d]) {
        FirstDep(s, d);
      }
    }
  }

  /** By induction over the dependencies: none of the first ones has a match, so this one has none. */
  lemma {:induction false} FirstDep(s: Progress, d: nat)
    requires s.at < |s.order| && d < |s.order[s.at].deps|
    requires forall c, j :: !Match(s.order, s.at, c, j)
    ensures Orders(s.order[s.at].deps[d]) ==> NoneBehind(s.order, s.at, s.order[s.at].deps[d])
    decreases d
  {
    hide Lower;
    forall c | 0 <= c < d ensures Orders(s.order[s.at].deps[c]) ==> NoneBehind(s.order, s.at, s.order[s.at].deps[c]) {
      FirstDep(s, c);
    }
    if Orders(s.order[s.at].deps[d]) {
      forall k | s.at < k < |s.order| ensures Lower(s.order[s.at].deps[d].name) != Id(s.order[k]) {
        FirstPlace(s, d, k);
      }
    }
  }

  lemma {:induction false} FirstPlace(s: Progress, d: nat, k: nat)
    requires s.at < k < |s.order| && d < |s.order[s.at].deps| && Orders(s.order[s.at].deps[d])
    requires forall j :: !Match(s.order, s.at, d, j)
    requires forall c :: 0 <= c < d && Orders(s.order[s.at].deps[c]) ==>
              NoneBehind(s.order, s.at, s.order[s.at].deps[c])
    ensures Lower(s.order[s.at].deps[d].name) != Id(s.order[k])
    decreases k
  {
    hide Lower;
    forall n | s.at < n < k ensures Lower(s.order[s.at].deps[d].name) != Id(s.order[n]) {
      FirstPlace(s, d, n);
    }
    assert !Match(s.order, s.at, d, k);
  }

  /** zend_sort_modules comes to an end exactly when the dependencies have no cycle through two or more modules. */
  lemma HaltsIffAcyclic(ms: seq<Module>)
    requires Distinct(ms)
    ensures Halts(ms) <==> Acyclic(ms)
  {
    hide Acyclic, Sorted, Cycle;
    if Halts(ms) {
      var trace: seq<Progress> :| RunFrom(ms, trace) && Done(trace[|trace| - 1]);
      EndsSorted(ms, trace);
      var order := trace[|trace| - 1].order;
      SortedAcyclic(order);
      SameMembers(order, ms);
    }
    if Acyclic(ms) {
      var s := Progress(0, ms);
      var chain := if ms == [] then [] else [ms[0]];
      OneStep(ms, chain);
      assert OnTheWay(ms, s, chain);
      Finishes(ms, [s], chain);
    }
  }

  /** Two modules that name each other keep the sort busy for ever. */
  lemma MutualDependency()
    ensures !Halts([Module("a", false, [Dep("b", Required)]), Module("b", false, [Dep("a", Optional)])])
  {
    var a, b := Module("a", false, [Dep("b", Required)]), Module("b", false, [Dep("a", Optional)]);
    assert Lower("a") == "a" && Lower("b") == "b";
    assert a.deps[0] in a.deps && b.deps[0] in b.deps;
    assert Edge(a, b) && Edge(b, a);
    var ms := [a, b];
    assert ms[0] == a && ms[1] == b;
    assert Cycle(ms, ms);
    HaltsIffAcyclic(ms);
  }

  // ----------------------------------------------------------- the sort, in place

  /** The two inner loops: the first dependency with a match behind position `i`, and its first match. */
  method FindMatch(a: array<Module>, i: nat) returns (found: bool, ghost d: nat, j: nat)
    requires i < a.Length
    ensures found ==> !a[i].started && Match(a[..], i, d, j)
    ensures !found ==> Settled(Progress(i, a[..]))
  {
    hide Lower;
    found, d, j := false, 0, 0;
    var m := a[i];
    if m.started {
      return;
    }
    var c := 0;
    while c < |m.deps|
      invariant 0 <= c <= |m.deps|
      invariant forall e :: 0 <= e < c && Orders(m.deps[e]) ==> NoneBehind(a[..], i, m.deps[e])
    {
      if Orders(m.deps[c]) {
        j := i + 1;
        while j < a.Length
          invariant i < j <= a.Length
          invariant forall k :: i < k < j ==> Lower(m.deps[c].name) != Id(a[..][k])
        {
          if Lower(m.deps[c].name) == Id(a[j]) {
            return true, c, j;
          }
          j := j + 1;
        }
      }
      c := c + 1;
    }
  }

  /** zend_sort_modules, on the inputs on which it ends. */
  method SortModules(a: array<Module>) returns (ghost trace: seq<Progress>)
    requires Distinct(a[..]) && Acyclic(a[..])
    modifies a
    ensures RunFrom(old(a[..]), trace) && Done(trace[|trace| - 1]) && trace[|trace| - 1].order == a[..]
    ensures Sorted(a[..]) && multiset(a[..]) == multiset(old(a[..])) && Distinct(a[..])
  {
    hide Edge, Lower, Acyclic, Walk, NoRepeat, Step, Distinct, Settled, Match, RunFrom, Sorted;
    ghost var ms := a[..];
    ghost var chain := if ms == [] then [] else [ms[0]];
    OneStep(ms, chain);
    trace := [Progress(0, ms)];
    RunStart(ms);
    var i := 0;
    while i < a.Length
      invariant 0 <= i <= a.Length && RunFrom(ms, trace) && trace != [] && trace[|trace| - 1] == Progress(i, a[..])
      invariant OnTheWay(ms, Progress(i, a[..]), chain)
      decreases a.Length - i, a.Length - |chain|
    {
      ghost var s := Progress(i, a[..]);
      var found, d, j := FindMatch(a, i);
      if found {
        MatchBounds(s, d, j);
        a[i], a[j] := a[j], a[i];
        ghost var t := Progress(i, a[..]);
        assert t.order == Swap(s.order, i, j);
        Swapped(ms, s, chain, d, j, t);
        Extend(ms, trace, t);
        trace, chain := trace + [t], chain + [s.order[j]];
      } else {
        ghost var t := Progress(i + 1, a[..]);
        Advanced(ms, s, t);
        Extend(ms, trace, t);
        i := i + 1;
        trace, chain := trace + [t], if i < a.Length then [t.order[i]] else [];
      }
    }
    EndsSorted(ms, trace);
  }

  lemma RunStart(ms: seq<Module>)
    ensures RunFrom(ms, [Progress(0, ms)])
  {
  }

  // -------------------------------------------------------------------- startup

  /** The names of the modules that `m` cannot do without are all in `ids`; a module may name itself. */
  predicate CanStart(m: Module, ids: set<string>) {
    m.started || forall d :: d in m.deps && d.kind == Required ==> Lower(d.name) == Id(m) || Lower(d.name) in ids
  }

  /** `ids` are exactly the modules of `ms` whose required dependencies are among them. */
  ghost predicate StartSet(ms: seq<Module>, ids: set<string>) {
    && (forall x :: x in ids ==> exists m :: m in ms && Id(m) == x)
    && (forall m :: m in ms ==> (Id(m) in ids <==> CanStart(m, ids)))
  }

  /** The modules of `ms` with a name in `ids`, started, in order. */
  function Keep(ms: seq<Module>, ids: set<string>): seq<Module> {
    if ms == [] then []
    else
      var rest, m := Keep(ms[..|ms| - 1], ids), ms[|ms| - 1];
      if Id(m) in ids then rest + [m.(started := true)] else rest
  }

  lemma {:induction false} KeepMembers(ms: seq<Module>, ids: set<string>, r: Module)
    requires r in Keep(ms, ids)
    ensures r.started && Id(r) in ids && exists m :: m in ms && Id(m) == Id(r)
  {
    hide Lower;
    var m := ms[|ms| - 1];
    if r in Keep(ms[..|ms| - 1], ids) {
      KeepMembers(ms[..|ms| - 1], ids, r);
    } else {
      assert r == m.(started := true);
      assert m in ms;
    }
  }

  lemma {:induction false} KeepHas(ms: seq<Module>, ids: set<string>, m: Module)
    requires m in ms && Id(m) in ids
    ensures m.(started := true) in Keep(ms, ids)
  {
    hide Lower;
    if m in ms[..|ms| - 1] {
      KeepHas(ms[..|ms| - 1], ids, m);
    } else {
      assert ms == ms[..|ms| - 1] + [ms[|ms| - 1]];
    }
  }

  lemma {:induction false} KeepSame(ms: seq<Module>, ids: set<string>, ids': set<string>)
    requires forall m :: m in ms ==> (Id(m) in ids <==> Id(m) in ids')
    ensures Keep(ms, ids) == Keep(ms, ids')
  {
    hide Lower;
    if ms != [] {
      KeepSame(ms[..|ms| - 1], ids, ids');
    }
  }

  /** A module with the lower-case name `id`, if the registry has one. */
  method Lookup(reg: seq<Module>, id: string) returns (found: bool, n: nat)
    ensures found ==> n < |reg| && Id(reg[n]) == id
    ensures !found ==> forall k :: 0 <= k < |reg| ==> Id(reg[k]) != id
  {
    hide Lower;
    n := 0;
    while n < |reg|
      invariant n <= |reg| && forall k :: 0 <= k < n ==> Id(reg[k]) != id
    {
      if Id(reg[n]) == id {
        return true, n;
      }
      n := n + 1;
    }
    found := false;
  }

  /** The dependency `d` is registered and started. */
  ghost predicate Met(reg: seq<Module>, d: Dep) {
    exists k :: 0 <= k < |reg| && Id(reg[k]) == Lower(d.name) && reg[k].started
  }

  /** That is, a started module has the name but for case. */
  lemma MetExactly(reg: seq<Module>, d: Dep)
    ensures Met(reg, d) <==> exists k :: 0 <= k < |reg| && SameName(reg[k].name, d.name) && reg[k].started
  {
    hide Lower, SameName;
    forall k | 0 <= k < |reg| ensures Id(reg[k]) == Lower(d.name) <==> SameName(reg[k].name, d.name) {
      LowerSame(reg[k].name, d.name);
    }
  }

  /** zend_startup_module_ex up to the call of the module's own startup function. */
  method StartModule(reg: seq<Module>, i: nat) returns (ok: bool, reg': seq<Module>)
    requires i < |reg| && Distinct(reg)
    ensures ok <==> reg[i].started || forall d :: d in reg[i].deps && d.kind == Required ==>
              Met(reg[i := reg[i].(started := true)], d)
    ensures reg' == if ok then reg[i := reg[i].(started := true)] else reg
  {
    hide Lower;
    var m := reg[i];
    reg' := reg[i := m.(started := true)];
    if m.started {
      return true, reg';
    }
    assert forall k :: 0 <= k < |reg| ==> Id(reg'[k]) == Id(reg[k]);
    var c := 0;
    while c < |m.deps|
      invariant 0 <= c <= |m.deps| && reg' == reg[i := m.(started := true)]
      invariant forall e :: 0 <= e < c && m.deps[e].kind == Required ==> Met(reg', m.deps[e])
    {
      if m.deps[c].kind == Required {
        var found, n := Lookup(reg', Lower(m.deps[c].name));
        if !found || !reg'[n].started {
          assert !Met(reg', m.deps[c]);
          return false, reg;
        }
        assert Met(reg', m.deps[c]);
      }
      c := c + 1;
    }
    ok := true;
  }

  /** The registry while it is walked: `ids` of the first `j` modules are started, the others are as they were. */
  ghost predicate Walking(ms: seq<Module>, j: nat, ids: set<string>, reg: seq<Module>) {
    && j <= |ms| && StartSet(ms[..j], ids)
    && reg == Keep(ms[..j], ids) + ms[j..]
  }

  lemma {:induction false} KeepDistinct(ms: seq<Module>, ids: set<string>)
    requires Distinct(ms)
    ensures Distinct(Keep(ms, ids)) && |Keep(ms, ids)| <= |ms|
  {
    hide Lower;
    if ms != [] {
      var rest, m := ms[..|ms| - 1], ms[|ms| - 1];
      KeepDistinct(rest, ids);
      forall k | 0 <= k < |Keep(rest, ids)| ensures Id(Keep(rest, ids)[k]) != Id(m) {
        KeepMembers(rest, ids, Keep(rest, ids)[k]);
      }
    }
  }

  lemma WalkingDistinct(ms: seq<Module>, j: nat, ids: set<string>, reg: seq<Module>)
    requires Distinct(ms) && Walking(ms, j, ids, reg)
    ensures Distinct(reg)
  {
    hide Lower, StartSet, Keep;
    var kept := Keep(ms[..j], ids);
    KeepDistinct(ms[..j], ids);
    forall k, n | 0 <= k < |kept| && j <= n < |ms| ensures Id(kept[k]) != Id(ms[n]) {
      KeepMembers(ms[..j], ids, kept[k]);
    }
  }

  /** What the registry says about a required dependency of the next module is what `ids` says. */
  lemma MetKept(ms: seq<Module>, j: nat, ids: set<string>, reg: seq<Module>, d: Dep)
    requires Sorted(ms) && Walking(ms, j, ids, reg) && j < |ms| && !ms[j].started && d in ms[j].deps
             && d.kind == Required
    ensures |reg| == |Keep(ms[..j], ids)| + |ms| - j
    ensures var n := |Keep(ms[..j], ids)|;
            Met(reg[n := ms[j].(started := true)], d) <==> Lower(d.name) == Id(ms[j]) || Lower(d.name) in ids
  {
    hide Lower, Keep;
    var kept := Keep(ms[..j], ids);
    var n, id := |kept|, Lower(d.name);
    var reg' := reg[n := ms[j].(started := true)];
    assert reg'[n].started && Id(reg'[n]) == Id(ms[j]);
    if k :| 0 <= k < |reg'| && Id(reg'[k]) == id && reg'[k].started {
      if k < n {
        assert reg'[k] == kept[k];
        KeepMembers(ms[..j], ids, kept[k]);
      }
    }
    if id in ids {
      var m :| m in ms[..j] && Id(m) == id;
      KeepHas(ms[..j], ids, m);
      var k :| 0 <= k < |kept| && kept[k] == m.(started := true);
      assert reg'[k] == kept[k];
    }
  }

  /** Sorted behind `r`, the module `m` does not matter to it. */
  lemma EarlierSame(ms: seq<Module>, j: nat, ids: set<string>, ids': set<string>)
    requires Sorted(ms) && Distinct(ms) && j < |ms| && ids <= ids' <= ids + {Id(ms[j])}
    ensures forall r :: r in ms[..j] ==> Id(r) != Id(ms[j]) && (CanStart(r, ids') <==> CanStart(r, ids))
  {
    hide Lower;
    var m := ms[j];
    forall r | r in ms[..j] ensures Id(r) != Id(m) && (CanStart(r, ids') <==> CanStart(r, ids)) {
      var i :| 0 <= i < j && ms[i] == r;
      assert !Edge(ms[i], ms[j]);
    }
  }

  lemma OwnIdSame(m: Module, ids: set<string>, ids': set<string>)
    requires ids <= ids' <= ids + {Id(m)}
    ensures CanStart(m, ids') <==> CanStart(m, ids)
  {
    hide Lower;
  }

  lemma NextStartSet(ms: seq<Module>, j: nat, ids: set<string>, ids': set<string>)
    requires Sorted(ms) && Distinct(ms) && j < |ms| && StartSet(ms[..j], ids)
    requires ids' == if CanStart(ms[j], ids) then ids + {Id(ms[j])} else ids
    ensures StartSet(ms[..j + 1], ids') && Id(ms[j]) !in ids
    ensures Keep(ms[..j + 1], ids')
              == Keep(ms[..j], ids) + (if CanStart(ms[j], ids) then [ms[j].(started := true)] else [])
  {
    hide Lower, Sorted, Distinct, CanStart, Id;
    var m, before := ms[j], ms[..j];
    assert ms[..j + 1] == before + [m];
    assert ms[..j + 1][..j] == before;
    EarlierSame(ms, j, ids, ids');
    OwnIdSame(m, ids, ids');
    KeepSame(before, ids, ids');
  }

  /** The startup function of `m` is called and fails. */
  ghost predicate FailsToBoot(m: Module, ids: set<string>, boots: string -> bool) {
    Id(m) in ids && !m.started && !boots(Id(m))
  }

  ghost predicate AllBoot(ms: seq<Module>, ids: set<string>, boots: string -> bool) {
    forall m :: m in ms ==> !FailsToBoot(m, ids, boots)
  }

  lemma AllBootNext(ms: seq<Module>, j: nat, ids: set<string>, ids': set<string>, boots: string -> bool)
    requires Distinct(ms) && j < |ms| && AllBoot(ms[..j], ids, boots)
    requires ids' == ids || ids' == ids + {Id(ms[j])}
    requires !FailsToBoot(ms[j], ids', boots)
    ensures AllBoot(ms[..j + 1], ids', boots)
  {
    hide Lower;
    forall m | m in ms[..j + 1] ensures !FailsToBoot(m, ids', boots) {
      if m in ms[..j] {
        var i :| 0 <= i < j && ms[i] == m;
        assert Id(ms[i]) != Id(ms[j]);
      }
    }
  }

  /**
   The walk of zend_startup_modules over the sorted registry.  `boots` says which
   modules' own startup functions succeed; the first that fails ends the process.
   */
  method StartAll(ms: seq<Module>, boots: string -> bool)
    returns (fatal: bool, reg: seq<Module>, ghost ids: set<string>)
    requires Sorted(ms) && Distinct(ms)
    ensures !fatal ==> StartSet(ms, ids) && reg == Keep(ms, ids) && AllBoot(ms, ids, boots)
    ensures fatal ==> exists j :: 0 <= j < |ms| && StartSet(ms[..j + 1], ids) && FailsToBoot(ms[j], ids, boots)
  {
    hide Lower, Sorted, Distinct, StartSet, CanStart, Keep, Met;
    fatal, reg, ids := false, ms, {};
    assert ms[..0] == [];
    StartNone();
    var i := 0;
    ghost var j := 0;
    while i < |reg|
      invariant Walking(ms, j, ids, reg) && i == |Keep(ms[..j], ids)| && AllBoot(ms[..j], ids, boots)
      decreases |ms| - j
    {
      var m := reg[i];
      assert m == ms[j];
      WalkingDistinct(ms, j, ids, reg);
      ghost var before := reg;
      var ok;
      ok, reg := StartModule(reg, i);
      ghost var known := ids;
      ids := WalkOn(ms, j, ids, before, ok);
      if !(ok && !m.started && !boots(Id(m))) {
        AllBootNext(ms, j, known, ids, boots);
      }
      j := j + 1;
      if ok && !m.started && !boots(Id(m)) {
        fatal := true;
        return;
      } else if ok {
        i := i + 1;
      } else {
        reg := reg[..i] + reg[i + 1..];
      }
    }
    assert ms[..j] == ms;
  }

  /** The registry after the next module, which is kept or removed. */
  lemma WalkOn(ms: seq<Module>, j: nat, ids: set<string>, reg: seq<Module>, ok: bool) returns (ids': set<string>)
    requires Sorted(ms) && Distinct(ms) && Walking(ms, j, ids, reg) && j < |ms|
    requires var n := |Keep(ms[..j], ids)|;
             && n < |reg| && reg[n] == ms[j]
             && (ok <==> ms[j].started || forall d :: d in ms[j].deps && d.kind == Required ==>
                 Met(reg[n := ms[j].(started := true)], d))
    ensures ids' == (if ok then ids + {Id(ms[j])} else ids) && Id(ms[j]) !in ids
    ensures var n := |Keep(ms[..j], ids)|;
            && Walking(ms, j + 1, ids', if ok then reg[n := ms[j].(started := true)] else reg[..n] + reg[n + 1..])
            && |Keep(ms[..j + 1], ids')| == if ok then n + 1 else n
  {
    hide Lower, Sorted, Distinct, StartSet, CanStart, Keep, Met;
    StartedExactly(ms, j, ids, reg, ok);
    ids' := if CanStart(ms[j], ids) then ids + {Id(ms[j])} else ids;
    NextStartSet(ms, j, ids, ids');
    var kept, m := Keep(ms[..j], ids), ms[j];
    assert ms[j..] == [m] + ms[j + 1..];
    if ok {
      assert reg[|kept| := m.(started := true)] == kept + [m.(started := true)] + ms[j + 1..];
    } else {
      assert reg[..|kept|] + reg[|kept| + 1..] == kept + [] + ms[j + 1..];
    }
  }

  lemma StartNone()
    ensures StartSet([], {}) && Keep([], {}) == []
  {
  }

  lemma StartedExactly(ms: seq<Module>, j: nat, ids: set<string>, reg: seq<Module>, ok: bool)
    requires Sorted(ms) && Distinct(ms) && Walking(ms, j, ids, reg) && j < |ms|
    requires var n := |Keep(ms[..j], ids)|;
             && n < |reg| && reg[n] == ms[j]
             && (ok <==> ms[j].started || forall d :: d in ms[j].deps && d.kind == Required ==>
                 Met(reg[n := ms[j].(started := true)], d))
    ensures ok <==> CanStart(ms[j], ids)
  {
    hide Lower, Sorted, Distinct, Walking, Keep, Met;
    if !ms[j].started {
      forall d | d in ms[j].deps && d.kind == Required
        ensures Met(reg[|Keep(ms[..j], ids)| := ms[j].(started := true)], d) <==>
                  Lower(d.name) == Id(ms[j]) || Lower(d.name) in ids
      {
        MetKept(ms, j, ids, reg, d);
      }
    }
  }

  /** There is one set of modules that can start: it does not depend on the order of registration. */
  lemma StartSetUnique(ms: seq<Module>, ids: set<string>, ids': set<string>)
    requires Acyclic(ms) && Distinct(ms) && StartSet(ms, ids) && StartSet(ms, ids')
    ensures ids == ids'
  {
    hide Lower, Acyclic, Distinct, StartSet, Sorted, Halts;
    HaltsIffAcyclic(ms);
    var order := SomeSorted(ms);
    StartSetSame(ms, order, ids);
    StartSetSame(ms, order, ids');
    forall x ensures x in ids <==> x in ids' {
      if x in ids {
        StartSetWithin(order, ids, ids', x);
      }
      if x in ids' {
        StartSetWithin(order, ids', ids, x);
      }
    }
  }

  ghost function SomeSorted(ms: seq<Module>): (order: seq<Module>)
    requires Halts(ms) && Distinct(ms)
    ensures Sorted(order) && multiset(order) == multiset(ms)
  {
    var trace: seq<Progress> :| RunFrom(ms, trace) && Done(trace[|trace| - 1]);
    EndsSorted(ms, trace);
    trace[|trace| - 1].order
  }

  lemma StartSetSame(ms: seq<Module>, order: seq<Module>, ids: set<string>)
    requires multiset(ms) == multiset(order) && StartSet(ms, ids)
    ensures StartSet(order, ids)
  {
    hide Lower, CanStart;
    SameMembers(ms, order);
    forall x | x in ids ensures exists m :: m in order && Id(m) == x {
      var m :| m in ms && Id(m) == x;
      assert m in order;
    }
  }

  lemma StartSetWithin(ms: seq<Module>, ids: set<string>, ids': set<string>, x: string)
    requires Sorted(ms) && StartSet(ms, ids) && StartSet(ms, ids') && x in ids
    ensures x in ids'
  {
    hide Lower, CanStart, Sorted;
    var m :| m in ms && Id(m) == x;
    var i :| 0 <= i < |ms| && ms[i] == m;
    WithinAt(ms, ids, ids', i);
  }

  lemma {:induction false} WithinAt(ms: seq<Module>, ids: set<string>, ids': set<string>, i: nat)
    requires Sorted(ms) && StartSet(ms, ids) && StartSet(ms, ids') && i < |ms| && Id(ms[i]) in ids
    ensures Id(ms[i]) in ids'
    decreases i
  {
    hide Lower;
    var m := ms[i];
    if !m.started {
      forall d | d in m.deps && d.kind == Required && Lower(d.name) != Id(m) ensures Lower(d.name) in ids' {
        assert CanStart(m, ids);
        var r :| r in ms && Id(r) == Lower(d.name);
        var k :| 0 <= k < |ms| && ms[k] == r;
        assert Edge(m, r);
        assert k < i;
        WithinAt(ms, ids, ids', k);
      }
      assert CanStart(m, ids');
    }
  }

  /**
   zend_startup_modules: exactly the modules whose required dependencies start
   are started, in an order in which dependencies come first; the others are gone.
   */
  method StartupModules(a: array<Module>, boots: string -> bool)
    returns (fatal: bool, reg: seq<Module>, ghost ids: set<string>)
    requires Distinct(a[..]) && Acyclic(a[..])
    modifies a
    ensures Sorted(a[..]) && multiset(a[..]) == multiset(old(a[..]))
    ensures !fatal ==> StartSet(old(a[..]), ids) && reg == Keep(a[..], ids) && AllBoot(a[..], ids, boots)
    ensures fatal ==> exists j :: 0 <= j < a.Length && StartSet(a[..][..j + 1], ids)
                                  && FailsToBoot(a[..][j], ids, boots)
  {
    hide Lower, Acyclic, Sorted, Distinct, StartSet, Keep, RunFrom;
    ghost var ms := a[..];
    ghost var trace := SortModules(a);
    SameMembers(ms, a[..]);
    fatal, reg, ids := StartAll(a[..], boots);
    if !fatal {
      StartSetSame(a[..], ms, ids);
    }
  }

  /**
   `pdo_pgsql` names "pdo" as required, and the module is called "PDO": it is swapped
   to the front, and both start.
   */
  lemma PdoOrder(pgsql: Module, pdo: Module)
    requires pgsql == Module("pdo_pgsql", false, [Dep("pdo", Required)]) && pdo == Module("PDO", false, [])
    ensures Edge(pgsql, pdo) && !Edge(pdo, pgsql) && Id(pgsql) != Id(pdo)
    ensures Sorted([pdo, pgsql]) && !Sorted([pgsql, pdo])
    ensures forall ids :: CanStart(pdo, ids) && (CanStart(pgsql, ids) <==> Id(pdo) in ids)
  {
    hide Lower, SameName;
    assert SameName("pdo", "PDO") by { PdoName(); }
    LowerSame("pdo", "PDO");
    assert pgsql.deps[0] in pgsql.deps;
    assert |Lower("pdo_pgsql")| == 9 && |Lower("PDO")| == 3;
    var bad := [pgsql, pdo];
    assert Edge(bad[0], bad[1]);
  }

  lemma AcyclicSame(ms: seq<Module>, ms': seq<Module>)
    requires Acyclic(ms) && forall m :: m in ms' ==> m in ms
    ensures Acyclic(ms')
  {
    hide Edge;
    forall path ensures !Cycle(ms', path) {
      assert !Cycle(ms, path);
    }
  }

  /** Two modules that may come in one order only. */
  lemma OneOrder(ms: seq<Module>, a: Module, b: Module)
    requires multiset(ms) == multiset([a, b]) && Sorted(ms) && Edge(a, b) && a != b
    ensures ms == [b, a]
  {
    hide Edge;
    assert |ms| == |multiset(ms)| == |multiset([a, b])| == 2;
    assert ms == [ms[0], ms[1]];
    assert ms[0] in multiset(ms) && ms[1] in multiset(ms);
    assert multiset([a, b])[a] == 1 && multiset([a, b])[b] == 1;
    assert multiset([a, a])[a] == 2 && multiset([b, b])[b] == 2;
    assert !Edge(ms[0], ms[1]);
  }

  lemma BothStart(pgsql: Module, pdo: Module, ids: set<string>)
    requires StartSet([pgsql, pdo], ids)
    requires forall ids :: CanStart(pdo, ids) && (CanStart(pgsql, ids) <==> Id(pdo) in ids)
    ensures Keep([pdo, pgsql], ids) == [pdo.(started := true), pgsql.(started := true)]
  {
    hide Lower, CanStart;
    var ms := [pgsql, pdo];
    assert ms[0] in ms && ms[1] in ms;
    assert CanStart(pdo, ids) && Id(pdo) in ids && CanStart(pgsql, ids) && Id(pgsql) in ids;
    var one, order := [pdo], [pdo, pgsql];
    assert one[..0] == [] && Keep(one, ids) == [pdo.(started := true)];
    assert order[..1] == one;
  }

  lemma PdoName()
    ensures SameName("pdo", "PDO")
  {
    assert SameLetter("pdo"[0], "PDO"[0]) && SameLetter("pdo"[1], "PDO"[1]) && SameLetter("pdo"[2], "PDO"[2]);
  }

  /** Registered the other way round, the two modules end up in order and started. */
  method PdoStarts(a: array<Module>) returns (reg: seq<Module>)
    requires a.Length == 2 && a[0] == Module("pdo_pgsql", false, [Dep("pdo", Required)])
             && a[1] == Module("PDO", false, [])
    modifies a
    ensures reg == [old(a[1]).(started := true), old(a[0]).(started := true)]
  {
    hide Lower, StartSet, Keep, Edge, CanStart;
    var pgsql, pdo := a[0], a[1];
    PdoOrder(pgsql, pdo);
    var order := [pdo, pgsql];
    assert a[..] == [pgsql, pdo];
    assert multiset(order) == multiset(a[..]);
    SortedAcyclic(order);
    AcyclicSame(order, a[..]);
    var fatal;
    ghost var ids;
    fatal, reg, ids := StartupModules(a, (s: string) => true);
    OneOrder(a[..], pgsql, pdo);
    BothStart(pgsql, pdo, ids);
  }
}

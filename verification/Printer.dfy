/**
 The recursive printers of zend.c: arrays, objects and references may form
 cycles, and a flag on each array and object that is being printed stops the
 recursion.  Flags are set on the way in and cleared on the way out.
 */
module Printer {
  datatype Value = Scalar(text: string) | Ref(id: nat)

  /** An element with the text of its key, as the indented and as the flat form print it. */
  datatype Entry = Entry(key: string, flatKey: string, value: Value)

  datatype Properties = None | Table(entries: seq<Entry>)

  /** An array, which may be immutable and is never flagged then; an object with what its heading says; a reference. */
  datatype Node =
    | Array(immutable: bool, entries: seq<Entry>)
    | Object(title: string, flatTitle: string, properties: Properties)
    | Reference(value: Value)

  type Graph = map<nat, Node>

  /** Only arrays that can change and objects carry the flag. */
  predicate Flagged(n: Node) {
    n.Object? || (n.Array? && !n.immutable)
  }

  function Children(n: Node): seq<Value> {
    match n
    case Array(_, entries) => Values(entries)
    case Object(_, _, properties) => if properties.None? then [] else Values(properties.entries)
    case Reference(value) => [value]
  }

  function Values(entries: seq<Entry>): seq<Value> {
    seq(|entries|, i requires 0 <= i < |entries| => entries[i].value)
  }

  /**
   What the engine guarantees of values: nothing dangles, and nodes without a flag
   (references and immutable arrays) do not form cycles by themselves, which `rank` shows.
   */
  ghost predicate WellFormed(g: Graph, rank: map<nat, nat>, bound: nat) {
    && rank.Keys == g.Keys
    && (forall a, v :: a in g && v in Children(g[a]) && v.Ref? ==> v.id in g)
    && (forall a, v :: a in g && v in Children(g[a]) && v.Ref? && !Flagged(g[a]) ==> rank[v.id] < rank[a])
    && (forall a :: a in g ==> rank[a] < bound)
  }

  ghost predicate Ranked(g: Graph, rank: map<nat, nat>, v: Value, r: nat) {
    v.Ref? ==> v.id in g && v.id in rank && rank[v.id] < r
  }

  ghost predicate AllRanked(g: Graph, rank: map<nat, nat>, entries: seq<Entry>, r: nat) {
    forall i :: 0 <= i < |entries| ==> Ranked(g, rank, entries[i].value, r)
  }

  lemma ChildrenRanked(g: Graph, rank: map<nat, nat>, bound: nat, id: nat, entries: seq<Entry>)
    requires WellFormed(g, rank, bound) && id in g && Values(entries) == Children(g[id])
    ensures AllRanked(g, rank, entries, bound)
    ensures !Flagged(g[id]) ==> AllRanked(g, rank, entries, rank[id])
  {
    forall i | 0 <= i < |entries|
      ensures Ranked(g, rank, entries[i].value, bound)
              && (!Flagged(g[id]) ==> Ranked(g, rank, entries[i].value, rank[id]))
    {
      assert Values(entries)[i] == entries[i].value;
      assert entries[i].value in Children(g[id]);
    }
  }

  // ------------------------------------------------------------- what is printed

  const INDENT: nat := 4

  function Spaces(n: nat): string {
    seq(n, i => ' ')
  }

  /** The nodes of `g` that could still be entered. */
  function Open(g: Graph, path: set<nat>): set<nat> {
    g.Keys - path
  }

  lemma Entered(g: Graph, path: set<nat>, id: nat)
    requires id in g && id !in path
    ensures |Open(g, path + {id})| < |Open(g, path)|
  {
    assert Open(g, path + {id}) == Open(g, path) - {id};
  }

  ghost function Height(rank: map<nat, nat>, v: Value): nat {
    if v.Ref? && v.id in rank then rank[v.id] + 1 else 0
  }

  /** The buffer after a value has been printed, given the arrays and objects around it. */
  ghost function Text(g: Graph, rank: map<nat, nat>, bound: nat, v: Value, path: set<nat>, indent: nat,
                      buf: string): string
    requires WellFormed(g, rank, bound) && Ranked(g, rank, v, bound)
    decreases |Open(g, path)|, Height(rank, v), 0, 1
  {
    if v.Scalar? then buf + v.text
    else if g[v.id].Array? then ArrayText(g, rank, bound, v.id, path, indent, buf)
    else if g[v.id].Object? then ObjectText(g, rank, bound, v.id, path, indent, buf)
    else
      ReferenceRanked(g, rank, bound, v.id);
      Text(g, rank, bound, g[v.id].value, path, indent, buf)
  }

  ghost function ArrayText(g: Graph, rank: map<nat, nat>, bound: nat, id: nat, path: set<nat>, indent: nat,
                           buf: string): string
    requires WellFormed(g, rank, bound) && id in g && g[id].Array?
    decreases |Open(g, path)|, Height(rank, Ref(id)), 0, 0
  {
    ChildrenRanked(g, rank, bound, id, g[id].entries);
    if g[id].immutable then Body(g, rank, bound, g[id].entries, path, indent, rank[id], buf + "Array\n")
    else if id in path then buf + "Array\n" + " *RECURSION*"
    else
      Entered(g, path, id);
      Body(g, rank, bound, g[id].entries, path + {id}, indent, bound, buf + "Array\n")
  }

  ghost function ObjectText(g: Graph, rank: map<nat, nat>, bound: nat, id: nat, path: set<nat>, indent: nat,
                            buf: string): string
    requires WellFormed(g, rank, bound) && id in g && g[id].Object?
    decreases |Open(g, path)|, Height(rank, Ref(id)), 0, 0
  {
    if id in path then buf + g[id].title + " *RECURSION*"
    else if g[id].properties.None? then buf + g[id].title
    else
      ChildrenRanked(g, rank, bound, id, g[id].properties.entries);
      Entered(g, path, id);
      Body(g, rank, bound, g[id].properties.entries, path + {id}, indent, bound, buf + g[id].title)
  }

  ghost function Body(g: Graph, rank: map<nat, nat>, bound: nat, entries: seq<Entry>, path: set<nat>, indent: nat,
                      r: nat, buf: string): string
    requires WellFormed(g, rank, bound) && AllRanked(g, rank, entries, r) && r <= bound
    decreases |Open(g, path)|, r, 1, |entries| + 1
  {
    Lines(g, rank, bound, entries, path, indent + INDENT, r, buf + Spaces(indent) + "(\n") + Spaces(indent) + ")\n"
  }

  ghost function Lines(g: Graph, rank: map<nat, nat>, bound: nat, entries: seq<Entry>, path: set<nat>, indent: nat,
                       r: nat, buf: string): string
    requires WellFormed(g, rank, bound) && AllRanked(g, rank, entries, r) && r <= bound
    decreases |Open(g, path)|, r, 1, |entries|
  {
    if entries == [] then buf
    else
      var last := entries[|entries| - 1];
      var before := Lines(g, rank, bound, entries[..|entries| - 1], path, indent, r, buf);
      Text(g, rank, bound, last.value, path, indent + INDENT, before + Spaces(indent) + "[" + last.key + "] => ") + "\n"
  }

  /** The same for the flat form. */
  ghost function FlatText(g: Graph, rank: map<nat, nat>, bound: nat, v: Value, path: set<nat>, buf: string): string
    requires WellFormed(g, rank, bound) && Ranked(g, rank, v, bound)
    decreases |Open(g, path)|, Height(rank, v), 0, 1
  {
    if v.Scalar? then buf + v.text
    else if g[v.id].Array? then FlatArray(g, rank, bound, v.id, path, buf)
    else if g[v.id].Object? then FlatObject(g, rank, bound, v.id, path, buf)
    else
      ReferenceRanked(g, rank, bound, v.id);
      FlatText(g, rank, bound, g[v.id].value, path, buf)
  }

  ghost function FlatArray(g: Graph, rank: map<nat, nat>, bound: nat, id: nat, path: set<nat>, buf: string): string
    requires WellFormed(g, rank, bound) && id in g && g[id].Array?
    decreases |Open(g, path)|, Height(rank, Ref(id)), 0, 0
  {
    ChildrenRanked(g, rank, bound, id, g[id].entries);
    if g[id].immutable then FlatLines(g, rank, bound, g[id].entries, path, rank[id], buf + "Array (") + ")"
    else if id in path then buf + "Array (" + " *RECURSION*"
    else
      Entered(g, path, id);
      FlatLines(g, rank, bound, g[id].entries, path + {id}, bound, buf + "Array (") + ")"
  }

  ghost function FlatObject(g: Graph, rank: map<nat, nat>, bound: nat, id: nat, path: set<nat>, buf: string): string
    requires WellFormed(g, rank, bound) && id in g && g[id].Object?
    decreases |Open(g, path)|, Height(rank, Ref(id)), 0, 0
  {
    if id in path then buf + g[id].flatTitle + " *RECURSION*"
    else if g[id].properties.None? then buf + g[id].flatTitle + ")"
    else
      ChildrenRanked(g, rank, bound, id, g[id].properties.entries);
      Entered(g, path, id);
      FlatLines(g, rank, bound, g[id].properties.entries, path + {id}, bound, buf + g[id].flatTitle) + ")"
  }

  function FlatLead(first: bool, key: string): string {
    (if first then "[" else ",[") + key + "] => "
  }

  ghost function FlatLines(g: Graph, rank: map<nat, nat>, bound: nat, entries: seq<Entry>, path: set<nat>, r: nat,
                           buf: string): string
    requires WellFormed(g, rank, bound) && AllRanked(g, rank, entries, r) && r <= bound
    decreases |Open(g, path)|, r, 1, |entries|
  {
    if entries == [] then buf
    else
      var last := entries[|entries| - 1];
      var before := FlatLines(g, rank, bound, entries[..|entries| - 1], path, r, buf);
      FlatText(g, rank, bound, last.value, path, before + FlatLead(|entries| == 1, last.flatKey))
  }

  /** The elements of an array, or of the property table of an object. */
  function Elements(n: Node): seq<Entry> {
    match n
    case Array(_, entries) => entries
    case Object(_, _, properties) => if properties.None? then [] else properties.entries
    case Reference(_) => []
  }

  /** How often the printers cut a value short, given the arrays and objects around it. */
  ghost function Cuts(g: Graph, rank: map<nat, nat>, bound: nat, v: Value, path: set<nat>): nat
    requires WellFormed(g, rank, bound) && Ranked(g, rank, v, bound)
    decreases |Open(g, path)|, Height(rank, v), 0, 1
  {
    if v.Scalar? then 0
    else if g[v.id].Reference? then
      ReferenceRanked(g, rank, bound, v.id);
      Cuts(g, rank, bound, g[v.id].value, path)
    else NodeCuts(g, rank, bound, v.id, path)
  }

  ghost function NodeCuts(g: Graph, rank: map<nat, nat>, bound: nat, id: nat, path: set<nat>): nat
    requires WellFormed(g, rank, bound) && id in g && !g[id].Reference?
    decreases |Open(g, path)|, Height(rank, Ref(id)), 0, 0
  {
    ElementsRanked(g, rank, bound, id);
    if !Flagged(g[id]) then HashCuts(g, rank, bound, Elements(g[id]), path, rank[id])
    else if id in path then 1
    else
      Entered(g, path, id);
      HashCuts(g, rank, bound, Elements(g[id]), path + {id}, bound)
  }

  ghost function HashCuts(g: Graph, rank: map<nat, nat>, bound: nat, entries: seq<Entry>, path: set<nat>, r: nat): nat
    requires WellFormed(g, rank, bound) && AllRanked(g, rank, entries, r) && r <= bound
    decreases |Open(g, path)|, r, 1, |entries|
  {
    if entries == [] then 0
    else
      HashCuts(g, rank, bound, entries[..|entries| - 1], path, r)
      + Cuts(g, rank, bound, entries[|entries| - 1].value, path)
  }

  lemma ElementsRanked(g: Graph, rank: map<nat, nat>, bound: nat, id: nat)
    requires WellFormed(g, rank, bound) && id in g && !g[id].Reference?
    ensures id in rank && rank[id] < bound && AllRanked(g, rank, Elements(g[id]), bound)
    ensures !Flagged(g[id]) ==> AllRanked(g, rank, Elements(g[id]), rank[id])
  {
    assert Values(Elements(g[id])) == Children(g[id]);
    ChildrenRanked(g, rank, bound, id, Elements(g[id]));
  }

  // ---------------------------------------------------------------- the printer

  class Buffer {
    const graph: Graph
    ghost const rank: map<nat, nat>
    ghost const bound: nat
    var text: string
    var flags: set<nat>
    ghost var cuts: nat            // how often the recursion mark has been printed

    ghost predicate Valid() {
      WellFormed(graph, rank, bound)
    }

    constructor (g: Graph, ghost r: map<nat, nat>, ghost b: nat, already: set<nat>)
      requires WellFormed(g, r, b)
      ensures Valid() && graph == g && rank == r && bound == b && text == "" && flags == already && cuts == 0
    {
      graph, rank, bound, text, flags, cuts := g, r, b, "", already, 0;
    }

    /** zend_print_zval_r_to_buf: every flag is as it was, whatever cycles there are. */
    method PrintValue(v: Value, indent: nat)
      requires Valid() && Ranked(graph, rank, v, bound)
      modifies this
      ensures flags == old(flags)
      ensures text == Text(graph, rank, bound, v, old(flags), indent, old(text))
      ensures cuts == old(cuts) + Cuts(graph, rank, bound, v, old(flags))
      decreases |Open(graph, flags)|, Height(rank, v), 0, 1
    {
      hide WellFormed, ArrayText, ObjectText, NodeCuts;
      if v.Scalar? {
        text := text + v.text;
        return;
      }
      match graph[v.id] {
        case Array(_, _) =>
          PrintArray(v.id, indent);
        case Object(_, _, _) =>
          PrintObject(v.id, indent);
        case Reference(value) =>
          ReferenceRanked(graph, rank, bound, v.id);
          PrintValue(value, indent);
      }
    }

    method PrintArray(id: nat, indent: nat)
      requires Valid() && id in graph && graph[id].Array?
      modifies this
      ensures flags == old(flags)
      ensures text == ArrayText(graph, rank, bound, id, old(flags), indent, old(text))
      ensures cuts == old(cuts) + NodeCuts(graph, rank, bound, id, old(flags))
      decreases |Open(graph, flags)|, Height(rank, Ref(id)), 0, 0
    {
      hide WellFormed, Body, HashCuts;
      var node := graph[id];
      RankOf(graph, rank, bound, id);
      ChildrenRanked(graph, rank, bound, id, node.entries);
      text := text + "Array\n";
      if !node.immutable {
        if id in flags {
          text, cuts := text + " *RECURSION*", cuts + 1;
          return;
        }
        Entered(graph, flags, id);
        flags := flags + {id};
      }
      PrintHash(node.entries, indent, if node.immutable then rank[id] else bound);
      if !node.immutable {
        flags := flags - {id};
      }
    }

    method PrintObject(id: nat, indent: nat)
      requires Valid() && id in graph && graph[id].Object?
      modifies this
      ensures flags == old(flags)
      ensures text == ObjectText(graph, rank, bound, id, old(flags), indent, old(text))
      ensures cuts == old(cuts) + NodeCuts(graph, rank, bound, id, old(flags))
      decreases |Open(graph, flags)|, Height(rank, Ref(id)), 0, 0
    {
      hide WellFormed, Body, HashCuts;
      var node := graph[id];
      ElementsRanked(graph, rank, bound, id);
      NoCuts(graph, rank, bound, flags + {id}, bound);
      text := text + node.title;
      if id in flags {
        text, cuts := text + " *RECURSION*", cuts + 1;
        return;
      }
      if node.properties.Table? {
        ChildrenRanked(graph, rank, bound, id, node.properties.entries);
        Entered(graph, flags, id);
        flags := flags + {id};
        PrintHash(node.properties.entries, indent, bound);
        flags := flags - {id};
      }
    }

    /** print_hash. */
    method PrintHash(entries: seq<Entry>, indent: nat, ghost r: nat)
      requires Valid() && AllRanked(graph, rank, entries, r) && r <= bound
      modifies this
      ensures flags == old(flags)
      ensures text == Body(graph, rank, bound, entries, old(flags), indent, r, old(text))
      ensures cuts == old(cuts) + HashCuts(graph, rank, bound, entries, old(flags), r)
      decreases |Open(graph, flags)|, r, 1, 0
    {
      hide WellFormed, Text, Spaces, Cuts, Lines, HashCuts, Ranked, Open, Height;
      ghost var path := flags;
      text := text + Spaces(indent) + "(\n";
      ghost var head := text;
      var i := 0;
      NoLines(graph, rank, bound, entries, path, indent + INDENT, r, head);
      while i < |entries|
        invariant 0 <= i <= |entries| && flags == path
        invariant text == Lines(graph, rank, bound, entries[..i], path, indent + INDENT, r, head)
        invariant cuts == old(cuts) + HashCuts(graph, rank, bound, entries[..i], path, r)
      {
        LinesNext(graph, rank, bound, entries, i, path, indent + INDENT, r, head);
        CutsNext(graph, rank, bound, entries, i, path, r);
        RankBelow(graph, rank, entries[i].value, r, bound);
        text := text + Spaces(indent + INDENT) + "[" + entries[i].key + "] => ";
        PrintValue(entries[i].value, indent + INDENT + INDENT);
        text := text + "\n";
        i := i + 1;
      }
      assert entries[..i] == entries;
      text := text + Spaces(indent) + ")\n";
    }

    /** zend_print_flat_zval_r_to_buf: every flag is as it was, whatever cycles there are. */
    method PrintFlat(v: Value)
      requires Valid() && Ranked(graph, rank, v, bound)
      modifies this
      ensures flags == old(flags)
      ensures text == FlatText(graph, rank, bound, v, old(flags), old(text))
      ensures cuts == old(cuts) + Cuts(graph, rank, bound, v, old(flags))
      decreases |Open(graph, flags)|, Height(rank, v), 0, 1
    {
      hide WellFormed, FlatArray, FlatObject, NodeCuts;
      if v.Scalar? {
        text := text + v.text;
        return;
      }
      match graph[v.id] {
        case Array(_, _) =>
          PrintFlatArray(v.id);
        case Object(_, _, _) =>
          PrintFlatObject(v.id);
        case Reference(value) =>
          ReferenceRanked(graph, rank, bound, v.id);
          PrintFlat(value);
      }
    }

    method PrintFlatArray(id: nat)
      requires Valid() && id in graph && graph[id].Array?
      modifies this
      ensures flags == old(flags)
      ensures text == FlatArray(graph, rank, bound, id, old(flags), old(text))
      ensures cuts == old(cuts) + NodeCuts(graph, rank, bound, id, old(flags))
      decreases |Open(graph, flags)|, Height(rank, Ref(id)), 0, 0
    {
      hide WellFormed, FlatLines, HashCuts;
      var node := graph[id];
      RankOf(graph, rank, bound, id);
      ChildrenRanked(graph, rank, bound, id, node.entries);
      text := text + "Array (";
      if !node.immutable {
        if id in flags {
          text, cuts := text + " *RECURSION*", cuts + 1;
          return;
        }
        Entered(graph, flags, id);
        flags := flags + {id};
      }
      PrintFlatHash(node.entries, if node.immutable then rank[id] else bound);
      text := text + ")";
      if !node.immutable {
        flags := flags - {id};
      }
    }

    method PrintFlatObject(id: nat)
      requires Valid() && id in graph && graph[id].Object?
      modifies this
      ensures flags == old(flags)
      ensures text == FlatObject(graph, rank, bound, id, old(flags), old(text))
      ensures cuts == old(cuts) + NodeCuts(graph, rank, bound, id, old(flags))
      decreases |Open(graph, flags)|, Height(rank, Ref(id)), 0, 0
    {
      hide WellFormed, FlatLines, HashCuts;
      var node := graph[id];
      ElementsRanked(graph, rank, bound, id);
      NoCuts(graph, rank, bound, flags + {id}, bound);
      text := text + node.flatTitle;
      if id in flags {
        text, cuts := text + " *RECURSION*", cuts + 1;
        return;
      }
      if node.properties.Table? {
        ChildrenRanked(graph, rank, bound, id, node.properties.entries);
        Entered(graph, flags, id);
        flags := flags + {id};
        PrintFlatHash(node.properties.entries, bound);
        flags := flags - {id};
      }
      text := text + ")";
    }

    /** print_flat_hash. */
    method PrintFlatHash(entries: seq<Entry>, ghost r: nat)
      requires Valid() && AllRanked(graph, rank, entries, r) && r <= bound
      modifies this
      ensures flags == old(flags)
      ensures text == FlatLines(graph, rank, bound, entries, old(flags), r, old(text))
      ensures cuts == old(cuts) + HashCuts(graph, rank, bound, entries, old(flags), r)
      decreases |Open(graph, flags)|, r, 1, 0
    {
      hide WellFormed, FlatText, FlatLead, Cuts, FlatLines, HashCuts, Ranked, Open, Height;
      ghost var head, path := text, flags;
      var i := 0;
      NoFlatLines(graph, rank, bound, entries, path, r, head);
      while i < |entries|
        invariant 0 <= i <= |entries| && flags == path
        invariant text == FlatLines(graph, rank, bound, entries[..i], path, r, head)
        invariant cuts == old(cuts) + HashCuts(graph, rank, bound, entries[..i], path, r)
      {
        FlatLinesNext(graph, rank, bound, entries, i, path, r, head);
        CutsNext(graph, rank, bound, entries, i, path, r);
        RankBelow(graph, rank, entries[i].value, r, bound);
        text := text + FlatLead(i == 0, entries[i].flatKey);
        PrintFlat(entries[i].value);
        i := i + 1;
      }
      assert entries[..i] == entries;
    }
  }

  lemma RankBelow(g: Graph, rank: map<nat, nat>, v: Value, r: nat, bound: nat)
    requires Ranked(g, rank, v, r) && r <= bound
    ensures Ranked(g, rank, v, bound) && Height(rank, v) <= r
  {
  }

  lemma CutsNext(g: Graph, rank: map<nat, nat>, bound: nat, entries: seq<Entry>, i: nat, path: set<nat>, r: nat)
    requires WellFormed(g, rank, bound) && AllRanked(g, rank, entries, r) && r <= bound && i < |entries|
    ensures Ranked(g, rank, entries[i].value, r)
    ensures HashCuts(g, rank, bound, entries[..i + 1], path, r)
         == HashCuts(g, rank, bound, entries[..i], path, r) + Cuts(g, rank, bound, entries[i].value, path)
  {
    hide WellFormed, Cuts;
    assert Ranked(g, rank, entries[i].value, r);
    assert entries[..i + 1][..i] == entries[..i];
  }

  lemma LinesNext(g: Graph, rank: map<nat, nat>, bound: nat, entries: seq<Entry>, i: nat, path: set<nat>, indent: nat,
                  r: nat, buf: string)
    requires WellFormed(g, rank, bound) && AllRanked(g, rank, entries, r) && r <= bound && i < |entries|
    ensures Ranked(g, rank, entries[i].value, r)
    ensures var before := Lines(g, rank, bound, entries[..i], path, indent, r, buf);
            Lines(g, rank, bound, entries[..i + 1], path, indent, r, buf)
            == Text(g, rank, bound, entries[i].value, path, indent + INDENT, before + Spaces(indent) + "["
                + entries[i].key + "] => ") + "\n"
  {
    hide WellFormed, Text, Spaces;
    assert Ranked(g, rank, entries[i].value, r);
    assert entries[..i + 1][..i] == entries[..i];
  }

  lemma FlatLinesNext(g: Graph, rank: map<nat, nat>, bound: nat, entries: seq<Entry>, i: nat, path: set<nat>, r: nat,
                      buf: string)
    requires WellFormed(g, rank, bound) && AllRanked(g, rank, entries, r) && r <= bound && i < |entries|
    ensures Ranked(g, rank, entries[i].value, r)
    ensures var before := FlatLines(g, rank, bound, entries[..i], path, r, buf);
            FlatLines(g, rank, bound, entries[..i + 1], path, r, buf)
            == FlatText(g, rank, bound, entries[i].value, path, before + FlatLead(i == 0, entries[i].flatKey))
  {
    hide WellFormed, FlatText, FlatLead;
    assert Ranked(g, rank, entries[i].value, r);
    assert entries[..i + 1][..i] == entries[..i];
  }

  lemma NoLines(g: Graph, rank: map<nat, nat>, bound: nat, entries: seq<Entry>, path: set<nat>, indent: nat, r: nat,
                buf: string)
    requires WellFormed(g, rank, bound) && AllRanked(g, rank, entries, r) && r <= bound
    ensures Lines(g, rank, bound, entries[..0], path, indent, r, buf) == buf
            && HashCuts(g, rank, bound, entries[..0], path, r) == 0
  {
    hide WellFormed;
  }

  lemma NoFlatLines(g: Graph, rank: map<nat, nat>, bound: nat, entries: seq<Entry>, path: set<nat>, r: nat, buf: string)
    requires WellFormed(g, rank, bound) && AllRanked(g, rank, entries, r) && r <= bound
    ensures FlatLines(g, rank, bound, entries[..0], path, r, buf) == buf
            && HashCuts(g, rank, bound, entries[..0], path, r) == 0
  {
    hide WellFormed;
  }

  lemma NoCuts(g: Graph, rank: map<nat, nat>, bound: nat, path: set<nat>, r: nat)
    requires WellFormed(g, rank, bound) && r <= bound
    ensures HashCuts(g, rank, bound, [], path, r) == 0
  {
    hide WellFormed;
  }

  lemma RankOf(g: Graph, rank: map<nat, nat>, bound: nat, id: nat)
    requires WellFormed(g, rank, bound) && id in g
    ensures id in rank && rank[id] < bound
  {
  }

  lemma ReferenceRanked(g: Graph, rank: map<nat, nat>, bound: nat, id: nat)
    requires WellFormed(g, rank, bound) && id in g && g[id].Reference?
    ensures id in rank && Ranked(g, rank, g[id].value, rank[id]) && rank[id] < bound
  {
    assert g[id].value in Children(g[id]);
  }

  // -------------------------------------------------------------- only appending

  lemma Assoc(a: string, b: string, c: string)
    ensures a + b + c == a + (b + c) && [] + b == b
  {
  }

  /** What a value adds to the buffer does not depend on what is in it. */
  lemma {:induction false} AppendsText(g: Graph, rank: map<nat, nat>, bound: nat, v: Value, path: set<nat>, indent: nat,
                                       buf: string)
    requires WellFormed(g, rank, bound) && Ranked(g, rank, v, bound)
    ensures Text(g, rank, bound, v, path, indent, buf) == buf + Text(g, rank, bound, v, path, indent, [])
    decreases |Open(g, path)|, Height(rank, v), 0, 1
  {
    hide ArrayText, ObjectText, WellFormed;
    if v.Ref? {
      match g[v.id] {
        case Array(_, _) =>
          AppendsArray(g, rank, bound, v.id, path, indent, buf);
        case Object(_, _, _) =>
          AppendsObject(g, rank, bound, v.id, path, indent, buf);
        case Reference(value) =>
          ReferenceRanked(g, rank, bound, v.id);
          AppendsText(g, rank, bound, value, path, indent, buf);
      }
    }
  }

  lemma {:induction false} AppendsArray(g: Graph, rank: map<nat, nat>, bound: nat, id: nat, path: set<nat>, indent: nat,
                                        buf: string)
    requires WellFormed(g, rank, bound) && id in g && g[id].Array?
    ensures ArrayText(g, rank, bound, id, path, indent, buf) == buf + ArrayText(g, rank, bound, id, path, indent, [])
    decreases |Open(g, path)|, Height(rank, Ref(id)), 0, 0
  {
    hide Body, WellFormed;
    RankOf(g, rank, bound, id);
    ChildrenRanked(g, rank, bound, id, g[id].entries);
    if g[id].immutable {
      AppendsBody(g, rank, bound, g[id].entries, path, indent, rank[id], buf, "Array\n");
    } else if id in path {
      Assoc(buf, "Array\n", " *RECURSION*");
    } else {
      Entered(g, path, id);
      AppendsBody(g, rank, bound, g[id].entries, path + {id}, indent, bound, buf, "Array\n");
    }
  }

  lemma {:induction false} AppendsObject(g: Graph, rank: map<nat, nat>, bound: nat, id: nat, path: set<nat>,
                                         indent: nat, buf: string)
    requires WellFormed(g, rank, bound) && id in g && g[id].Object?
    ensures ObjectText(g, rank, bound, id, path, indent, buf) == buf + ObjectText(g, rank, bound, id, path, indent, [])
    decreases |Open(g, path)|, Height(rank, Ref(id)), 0, 0
  {
    hide Body, WellFormed;
    if id in path {
      Assoc(buf, g[id].title, " *RECURSION*");
    } else if g[id].properties.Table? {
      ChildrenRanked(g, rank, bound, id, g[id].properties.entries);
      Entered(g, path, id);
      AppendsBody(g, rank, bound, g[id].properties.entries, path + {id}, indent, bound, buf, g[id].title);
    }
  }

  lemma {:induction false} AppendsBody(g: Graph, rank: map<nat, nat>, bound: nat, entries: seq<Entry>, path: set<nat>,
                                       indent: nat, r: nat,
                                       buf: string, heading: string)
    requires WellFormed(g, rank, bound) && AllRanked(g, rank, entries, r) && r <= bound
    ensures Body(g, rank, bound, entries, path, indent, r, buf + heading)
         == buf + Body(g, rank, bound, entries, path, indent, r, [] + heading)
    decreases |Open(g, path)|, r, 1, |entries| + 1
  {
    hide Text, WellFormed, Lines, Spaces;
    var start := Spaces(indent) + "(\n";
    var lines := Lines(g, rank, bound, entries, path, indent + INDENT, r, []);
    var close := Spaces(indent) + ")\n";
    assert buf + heading + Spaces(indent) + "(\n" == buf + (heading + start);
    assert [] + heading + Spaces(indent) + "(\n" == heading + start;
    AppendsLines(g, rank, bound, entries, path, indent + INDENT, r, buf + (heading + start));
    AppendsLines(g, rank, bound, entries, path, indent + INDENT, r, heading + start);
    Assoc(buf, heading + start, lines);
    Assoc(buf, heading + start + lines, Spaces(indent));
    Assoc(buf, heading + start + lines + Spaces(indent), ")\n");
  }

  lemma {:induction false} AppendsLines(g: Graph, rank: map<nat, nat>, bound: nat, entries: seq<Entry>, path: set<nat>,
                                        indent: nat, r: nat, buf: string)
    requires WellFormed(g, rank, bound) && AllRanked(g, rank, entries, r) && r <= bound
    ensures Lines(g, rank, bound, entries, path, indent, r, buf)
              == buf + Lines(g, rank, bound, entries, path, indent, r, [])
    decreases |Open(g, path)|, r, 1, |entries|
  {
    hide Text, WellFormed, Spaces;
    if entries != [] {
      var rest, last := entries[..|entries| - 1], entries[|entries| - 1];
      assert Ranked(g, rank, last.value, r);
      AppendsLines(g, rank, bound, rest, path, indent, r, buf);
      var done, lead := Lines(g, rank, bound, rest, path, indent, r, []), Spaces(indent) + "[" + last.key + "] => ";
      var piece := Text(g, rank, bound, last.value, path, indent + INDENT, []);
      assert buf + done + Spaces(indent) + "[" + last.key + "] => " == buf + (done + lead);
      assert done + Spaces(indent) + "[" + last.key + "] => " == done + lead;
      AppendsText(g, rank, bound, last.value, path, indent + INDENT, buf + (done + lead));
      AppendsText(g, rank, bound, last.value, path, indent + INDENT, done + lead);
      Assoc(buf, done + lead, piece);
      Assoc(buf, done + lead + piece, "\n");
    }
  }

  // ---------------------------------------------------- a cut means a cycle

  /** A walk from value to value, through arrays, objects and references. */
  ghost predicate Walk(g: Graph, ids: seq<nat>) {
    && (forall k :: 0 <= k < |ids| ==> ids[k] in g)
    && (forall k :: 0 <= k < |ids| - 1 ==> Child(g, ids[k], ids[k + 1]))
  }

  ghost predicate Child(g: Graph, a: nat, b: nat) {
    a in g && Ref(b) in Children(g[a])
  }

  /** A walk from `id` comes back to where it has been. */
  ghost predicate Cyclic(g: Graph, id: nat) {
    exists ids, i, j :: Returns(g, id, ids, i, j)
  }

  ghost predicate Returns(g: Graph, id: nat, ids: seq<nat>, i: int, j: int) {
    0 <= i < j < |ids| && Walk(g, ids) && ids[0] == id && ids[i] == ids[j]
  }

  lemma {:induction false} SomeCut(g: Graph, rank: map<nat, nat>, bound: nat, entries: seq<Entry>, path: set<nat>,
                                   r: nat)
    requires WellFormed(g, rank, bound) && AllRanked(g, rank, entries, r) && r <= bound
    ensures HashCuts(g, rank, bound, entries, path, r) > 0 <==>
            exists i :: 0 <= i < |entries| && Cuts(g, rank, bound, entries[i].value, path) > 0
  {
    hide WellFormed, Cuts;
    if entries != [] {
      var init, last := entries[..|entries| - 1], |entries| - 1;
      assert Ranked(g, rank, entries[last].value, r);
      SomeCut(g, rank, bound, init, path, r);
      if i :| 0 <= i < |init| && Cuts(g, rank, bound, init[i].value, path) > 0 {
        assert entries[i] == init[i];
      }
      if i :| 0 <= i < |entries| && Cuts(g, rank, bound, entries[i].value, path) > 0 {
        assert i < last ==> init[i] == entries[i];
      }
    }
  }

  /** The path below a node. */
  ghost function Below(g: Graph, id: nat, path: set<nat>): set<nat>
    requires id in g
  {
    if Flagged(g[id]) then path + {id} else path
  }

  lemma ChildRanked(g: Graph, rank: map<nat, nat>, bound: nat, id: nat, v: Value)
    requires WellFormed(g, rank, bound) && id in g && v in Children(g[id])
    ensures Ranked(g, rank, v, bound) && id in rank && (v.Ref? ==> v.id in g)
    ensures !Flagged(g[id]) && v.Ref? ==> v.id in rank && rank[v.id] < rank[id]
  {
  }

  /** A node is cut if it is being printed already; otherwise if some value it holds is. */
  lemma CutStep(g: Graph, rank: map<nat, nat>, bound: nat, id: nat, path: set<nat>)
    requires WellFormed(g, rank, bound) && id in g && Ranked(g, rank, Ref(id), bound)
    ensures Flagged(g[id]) && id in path ==> Cuts(g, rank, bound, Ref(id), path) > 0
    ensures !(Flagged(g[id]) && id in path) ==>
      (Cuts(g, rank, bound, Ref(id), path) > 0 <==>
       exists v :: v in Children(g[id]) && Ranked(g, rank, v, bound) && Cuts(g, rank, bound, v, Below(g, id, path)) > 0)
  {
    hide WellFormed, HashCuts;
    if g[id].Reference? {
      ReferenceRanked(g, rank, bound, id);
      var value := g[id].value;
      assert Children(g[id]) == [value] && value in [value] && Below(g, id, path) == path;
      assert Cuts(g, rank, bound, Ref(id), path) == Cuts(g, rank, bound, value, path);
      assert forall v :: v in Children(g[id]) ==> v == value;
    } else {
      ElementsRanked(g, rank, bound, id);
      var entries, below := Elements(g[id]), Below(g, id, path);
      var r := if Flagged(g[id]) then bound else rank[id];
      assert Values(entries) == Children(g[id]);
      SomeCut(g, rank, bound, entries, below, r);
      if i :| 0 <= i < |entries| && Cuts(g, rank, bound, entries[i].value, below) > 0 {
        assert Values(entries)[i] in Children(g[id]);
      }
      if v :| v in Children(g[id]) && Ranked(g, rank, v, bound) && Cuts(g, rank, bound, v, below) > 0 {
        var i :| 0 <= i < |Values(entries)| && Values(entries)[i] == v;
        assert entries[i].value == v;
      }
    }
  }

  /** Where a value is cut, a walk leads back to a node on the path, or to one it has passed. */
  lemma {:induction false} CutWalk(g: Graph, rank: map<nat, nat>, bound: nat, id: nat, path: set<nat>)
    returns (ids: seq<nat>)
    requires WellFormed(g, rank, bound) && id in g && Ranked(g, rank, Ref(id), bound)
             && Cuts(g, rank, bound, Ref(id), path) > 0
    ensures Walk(g, ids) && ids != [] && ids[0] == id
    ensures var last := |ids| - 1; ids[last] in path || exists i :: 0 <= i < last && ids[i] == ids[last]
    decreases |Open(g, path)|, Height(rank, Ref(id))
  {
    hide WellFormed, Cuts;
    CutStep(g, rank, bound, id, path);
    if Flagged(g[id]) && id in path {
      ids := [id];
    } else {
      var v :| v in Children(g[id]) && Ranked(g, rank, v, bound) && Cuts(g, rank, bound, v, Below(g, id, path)) > 0;
      assert v.Ref? by { ScalarUncut(g, rank, bound, v, Below(g, id, path)); }
      ChildRanked(g, rank, bound, id, v);
      if Flagged(g[id]) {
        Entered(g, path, id);
      }
      var rest := CutWalk(g, rank, bound, v.id, Below(g, id, path));
      ids := [id] + rest;
      assert Child(g, id, v.id);
      WalkCons(g, id, rest);
      var last := |rest| - 1;
      if i :| 0 <= i < last && rest[i] == rest[last] {
        assert ids[i + 1] == ids[|ids| - 1];
      } else if rest[last] !in path {
        assert ids[0] == ids[|ids| - 1];
      }
    }
  }

  lemma ScalarUncut(g: Graph, rank: map<nat, nat>, bound: nat, v: Value, path: set<nat>)
    requires WellFormed(g, rank, bound) && Ranked(g, rank, v, bound) && Cuts(g, rank, bound, v, path) > 0
    ensures v.Ref?
  {
    hide WellFormed;
  }

  lemma WalkCons(g: Graph, id: nat, ids: seq<nat>)
    requires Walk(g, ids) && ids != [] && Child(g, id, ids[0])
    ensures Walk(g, [id] + ids)
  {
    hide Child;
    var more := [id] + ids;
    assert id in g by { ChildIn(g, id, ids[0]); }
    forall k | 0 <= k < |more| - 1 ensures Child(g, more[k], more[k + 1]) {
      assert k > 0 ==> more[k] == ids[k - 1] && more[k + 1] == ids[k - 1 + 1];
    }
  }

  lemma ChildIn(g: Graph, a: nat, b: nat)
    requires Child(g, a, b)
    ensures a in g
  {
  }

  /** The flagged nodes of a walk. */
  ghost function FlaggedIn(g: Graph, ids: seq<nat>): set<nat> {
    set x | x in ids && x in g && Flagged(g[x])
  }

  /** Along a walk on which nothing is cut, the path holds the flagged nodes passed. */
  lemma {:induction false} UncutAlong(g: Graph, rank: map<nat, nat>, bound: nat, ids: seq<nat>, n: nat)
    requires WellFormed(g, rank, bound) && Walk(g, ids) && n < |ids| && Ranked(g, rank, Ref(ids[0]), bound)
    requires Cuts(g, rank, bound, Ref(ids[0]), {}) == 0
    ensures Ranked(g, rank, Ref(ids[n]), bound) && Cuts(g, rank, bound, Ref(ids[n]), FlaggedIn(g, ids[..n])) == 0
  {
    hide WellFormed, Cuts;
    if n == 0 {
      assert FlaggedIn(g, ids[..0]) == {};
    } else {
      UncutAlong(g, rank, bound, ids, n - 1);
      var id, path := ids[n - 1], FlaggedIn(g, ids[..n - 1]);
      assert Child(g, id, ids[n - 1 + 1]);
      ChildRanked(g, rank, bound, id, Ref(ids[n]));
      CutStep(g, rank, bound, id, path);
      assert ids[..n] == ids[..n - 1] + [id];
      assert FlaggedIn(g, ids[..n]) == Below(g, id, path);
    }
  }

  /** Between unflagged nodes ranks fall, so a cycle has a flagged node. */
  lemma {:induction false} FallingRanks(g: Graph, rank: map<nat, nat>, bound: nat, ids: seq<nat>, i: nat, j: nat)
    requires WellFormed(g, rank, bound) && Walk(g, ids) && i <= j < |ids| && forall k :: i <= k < j ==>
              !Flagged(g[ids[k]])
    ensures ids[i] in rank && ids[j] in rank && rank[ids[j]] + (j - i) <= rank[ids[i]]
    decreases j - i
  {
    hide WellFormed, Flagged;
    RankOf(g, rank, bound, ids[i]);
    if i < j {
      FallingRanks(g, rank, bound, ids, i, j - 1);
      assert Child(g, ids[j - 1], ids[j - 1 + 1]);
      ChildRanked(g, rank, bound, ids[j - 1], Ref(ids[j]));
    }
  }

  /** Going round a cycle once more, up to the node at `m`. */
  lemma RoundAgain(g: Graph, ids: seq<nat>, i: nat, j: nat, m: nat)
    requires Walk(g, ids) && i <= m < j < |ids| && ids[i] == ids[j]
    ensures Walk(g, ids[..j + 1] + ids[i + 1..m + 1])
    ensures var more := ids[..j + 1] + ids[i + 1..m + 1];
            more[0] == ids[0] && |more| == j + 1 + m - i && more[|more| - 1] == ids[m] && more[m] == ids[m]
                && m < |more| - 1
  {
    hide Child;
    var more := ids[..j + 1] + ids[i + 1..m + 1];
    forall k | 0 <= k < |more| - 1 ensures Child(g, more[k], more[k + 1]) {
      if k < j {
        assert more[k] == ids[k] && more[k + 1] == ids[k + 1];
      } else {
        var l := k - j + i;
        assert more[k] == ids[l] && more[k + 1] == ids[l + 1];
      }
    }
  }

  /** Printing cuts a value exactly when a cycle can be reached from it. */
  lemma CutIffCycle(g: Graph, rank: map<nat, nat>, bound: nat, id: nat)
    requires WellFormed(g, rank, bound) && id in g && Ranked(g, rank, Ref(id), bound)
    ensures Cuts(g, rank, bound, Ref(id), {}) > 0 <==> Cyclic(g, id)
  {
    hide WellFormed, Cuts, Walk;
    if Cuts(g, rank, bound, Ref(id), {}) > 0 {
      var ids := CutWalk(g, rank, bound, id, {});
      var i :| 0 <= i < |ids| - 1 && ids[i] == ids[|ids| - 1];
      assert Returns(g, id, ids, i, |ids| - 1);
    }
    if Cyclic(g, id) {
      var ids, i, j :| Returns(g, id, ids, i, j);
      CycleCuts(g, rank, bound, ids, i, j);
    }
  }

  lemma CycleCuts(g: Graph, rank: map<nat, nat>, bound: nat, ids: seq<nat>, i: nat, j: nat)
    requires WellFormed(g, rank, bound) && Walk(g, ids) && i < j < |ids| && ids[i] == ids[j]
             && Ranked(g, rank, Ref(ids[0]), bound)
    ensures Cuts(g, rank, bound, Ref(ids[0]), {}) > 0
  {
    hide WellFormed, Cuts, Flagged, Child;
    if forall k :: i <= k < j ==> !Flagged(g[ids[k]]) {
      FallingRanks(g, rank, bound, ids, i, j);
    } else {
      var m :| i <= m < j && Flagged(g[ids[m]]);
      RoundAgain(g, ids, i, j, m);
      var more := ids[..j + 1] + ids[i + 1..m + 1];
      var last := |more| - 1;
      if Cuts(g, rank, bound, Ref(ids[0]), {}) == 0 {
        UncutAlong(g, rank, bound, more, last);
        assert more[..last][m] == ids[m];
        assert ids[m] in FlaggedIn(g, more[..last]);
        CutStep(g, rank, bound, ids[m], FlaggedIn(g, more[..last]));
      }
    }
  }

  // ----------------------------------------------------- the text without cuts

  /** The text of a value unfolded to depth `n`, whatever lies around it. */
  ghost function Plain(g: Graph, v: Value, indent: nat, buf: string, n: nat): string
    decreases n, 0, 0
  {
    if v.Scalar? then buf + v.text
    else if v.id !in g || n == 0 then buf
    else
      match g[v.id]
      case Array(_, entries) => PlainBody(g, entries, indent, buf + "Array\n", n - 1)
      case Object(title, _, properties) =>
        if properties.None? then buf + title else PlainBody(g, properties.entries, indent, buf + title, n - 1)
      case Reference(value) => Plain(g, value, indent, buf, n - 1)
  }

  ghost function PlainBody(g: Graph, entries: seq<Entry>, indent: nat, buf: string, n: nat): string
    decreases n, 1, |entries| + 1
  {
    PlainLines(g, entries, indent + INDENT, buf + Spaces(indent) + "(\n", n) + Spaces(indent) + ")\n"
  }

  ghost function PlainLines(g: Graph, entries: seq<Entry>, indent: nat, buf: string, n: nat): string
    decreases n, 1, |entries|
  {
    if entries == [] then buf
    else
      var last := entries[|entries| - 1];
      var before := PlainLines(g, entries[..|entries| - 1], indent, buf, n);
      Plain(g, last.value, indent + INDENT, before + Spaces(indent) + "[" + last.key + "] => ", n) + "\n"
  }

  /** The same for the flat form. */
  ghost function FlatPlain(g: Graph, v: Value, buf: string, n: nat): string
    decreases n, 0, 0
  {
    if v.Scalar? then buf + v.text
    else if v.id !in g || n == 0 then buf
    else
      match g[v.id]
      case Array(_, entries) => FlatPlainLines(g, entries, buf + "Array (", n - 1) + ")"
      case Object(_, title, properties) =>
        if properties.None? then buf + title + ")" else FlatPlainLines(g, properties.entries, buf + title, n - 1) + ")"
      case Reference(value) => FlatPlain(g, value, buf, n - 1)
  }

  ghost function FlatPlainLines(g: Graph, entries: seq<Entry>, buf: string, n: nat): string
    decreases n, 1, |entries|
  {
    if entries == [] then buf
    else
      var last := entries[|entries| - 1];
      var before := FlatPlainLines(g, entries[..|entries| - 1], buf, n);
      FlatPlain(g, last.value, before + FlatLead(|entries| == 1, last.flatKey), n)
  }

  /** A depth that is enough: every flagged node once, with unflagged ones between them. */
  ghost function Depth(g: Graph, rank: map<nat, nat>, bound: nat, v: Value, path: set<nat>): nat {
    |Open(g, path)| * (bound + 1) + Height(rank, v)
  }

  ghost function HashDepth(g: Graph, bound: nat, path: set<nat>, r: nat): nat {
    |Open(g, path)| * (bound + 1) + r
  }

  lemma Deeper(g: Graph, bound: nat, path: set<nat>, id: nat)
    requires id in g && id !in path
    ensures HashDepth(g, bound, path + {id}, bound) < HashDepth(g, bound, path, 0)
  {
    Entered(g, path, id);
    var a, b := |Open(g, path + {id})|, |Open(g, path)|;
    assert (a + 1) * (bound + 1) <= b * (bound + 1) by { TimesOrder(a + 1, b, bound + 1); }
    assert (a + 1) * (bound + 1) == a * (bound + 1) + bound + 1;
  }

  lemma TimesOrder(a: nat, b: nat, k: nat)
    requires a <= b
    ensures a * k <= b * k
  {
  }

  /** What is printed without a cut is the whole text, and no deeper unfolding adds to it. */
  lemma {:induction false} UncutText(g: Graph, rank: map<nat, nat>, bound: nat, v: Value, path: set<nat>, indent: nat,
                                     buf: string, n: nat)
    requires WellFormed(g, rank, bound) && Ranked(g, rank, v, bound)
    requires Cuts(g, rank, bound, v, path) == 0 && Depth(g, rank, bound, v, path) <= n
    ensures Text(g, rank, bound, v, path, indent, buf) == Plain(g, v, indent, buf, n)
    decreases n, 0, 0
  {
    hide WellFormed, Body, PlainBody, HashCuts, Open;
    if v.Ref? {
      RankOf(g, rank, bound, v.id);
      if g[v.id].Reference? {
        ReferenceRanked(g, rank, bound, v.id);
        UncutText(g, rank, bound, g[v.id].value, path, indent, buf, n - 1);
      } else {
        ElementsRanked(g, rank, bound, v.id);
        var entries, node := Elements(g[v.id]), g[v.id];
        var heading := Heading(node);
        if !Flagged(node) {
          UncutBody(g, rank, bound, entries, path, indent, rank[v.id], buf + heading, n - 1);
        } else {
          Deeper(g, bound, path, v.id);
          UncutBody(g, rank, bound, entries, path + {v.id}, indent, bound, buf + heading, n - 1);
        }
      }
    }
  }

  lemma {:induction false} UncutBody(g: Graph, rank: map<nat, nat>, bound: nat, entries: seq<Entry>, path: set<nat>,
                                     indent: nat, r: nat, buf: string, n: nat)
    requires WellFormed(g, rank, bound) && AllRanked(g, rank, entries, r) && r <= bound
    requires HashCuts(g, rank, bound, entries, path, r) == 0 && HashDepth(g, bound, path, r) <= n
    ensures Body(g, rank, bound, entries, path, indent, r, buf) == PlainBody(g, entries, indent, buf, n)
    decreases n, 1, |entries| + 1
  {
    hide WellFormed, Lines, PlainLines, HashCuts, Spaces, HashDepth;
    UncutLines(g, rank, bound, entries, path, indent + INDENT, r, buf + Spaces(indent) + "(\n", n);
  }

  lemma {:induction false} UncutLines(g: Graph, rank: map<nat, nat>, bound: nat, entries: seq<Entry>, path: set<nat>,
                                      indent: nat, r: nat, buf: string, n: nat)
    requires WellFormed(g, rank, bound) && AllRanked(g, rank, entries, r) && r <= bound
    requires HashCuts(g, rank, bound, entries, path, r) == 0 && HashDepth(g, bound, path, r) <= n
    ensures Lines(g, rank, bound, entries, path, indent, r, buf) == PlainLines(g, entries, indent, buf, n)
    decreases n, 1, |entries|
  {
    hide WellFormed, Text, Plain, Cuts, Spaces, Open;
    if entries != [] {
      var rest, last := entries[..|entries| - 1], entries[|entries| - 1];
      assert Ranked(g, rank, last.value, r);
      UncutLines(g, rank, bound, rest, path, indent, r, buf, n);
      var before := PlainLines(g, rest, indent, buf, n) + Spaces(indent) + "[" + last.key + "] => ";
      UncutText(g, rank, bound, last.value, path, indent + INDENT, before, n);
    }
  }

  lemma {:induction false} UncutFlat(g: Graph, rank: map<nat, nat>, bound: nat, v: Value, path: set<nat>, buf: string,
                                     n: nat)
    requires WellFormed(g, rank, bound) && Ranked(g, rank, v, bound)
    requires Cuts(g, rank, bound, v, path) == 0 && Depth(g, rank, bound, v, path) <= n
    ensures FlatText(g, rank, bound, v, path, buf) == FlatPlain(g, v, buf, n)
    decreases n, 0, 0
  {
    hide WellFormed, FlatLines, FlatPlainLines, HashCuts, Open;
    if v.Ref? {
      RankOf(g, rank, bound, v.id);
      if g[v.id].Reference? {
        ReferenceRanked(g, rank, bound, v.id);
        UncutFlat(g, rank, bound, g[v.id].value, path, buf, n - 1);
      } else {
        ElementsRanked(g, rank, bound, v.id);
        var entries, node := Elements(g[v.id]), g[v.id];
        var heading := FlatHeading(node);
        if !Flagged(node) {
          UncutFlatLines(g, rank, bound, entries, path, rank[v.id], buf + heading, n - 1);
        } else {
          Deeper(g, bound, path, v.id);
          UncutFlatLines(g, rank, bound, entries, path + {v.id}, bound, buf + heading, n - 1);
        }
      }
    }
  }

  lemma {:induction false} UncutFlatLines(g: Graph, rank: map<nat, nat>, bound: nat, entries: seq<Entry>,
                                          path: set<nat>, r: nat, buf: string, n: nat)
    requires WellFormed(g, rank, bound) && AllRanked(g, rank, entries, r) && r <= bound
    requires HashCuts(g, rank, bound, entries, path, r) == 0 && HashDepth(g, bound, path, r) <= n
    ensures FlatLines(g, rank, bound, entries, path, r, buf) == FlatPlainLines(g, entries, buf, n)
    decreases n, 1, |entries|
  {
    hide WellFormed, FlatText, FlatPlain, Cuts, FlatLead, Open;
    if entries != [] {
      var rest, last := entries[..|entries| - 1], entries[|entries| - 1];
      assert Ranked(g, rank, last.value, r);
      UncutFlatLines(g, rank, bound, rest, path, r, buf, n);
      var before := FlatPlainLines(g, rest, buf, n) + FlatLead(|entries| == 1, last.flatKey);
      UncutFlat(g, rank, bound, last.value, path, before, n);
    }
  }

  // ---------------------------------------------------------- the lay-out of a text

  function Heading(n: Node): string
    requires !n.Reference?
  {
    if n.Array? then "Array\n" else n.title
  }

  function FlatHeading(n: Node): string
    requires !n.Reference?
  {
    if n.Array? then "Array (" else n.flatTitle
  }

  /** A value that is being printed is its heading and the mark. */
  lemma CutTexts(g: Graph, rank: map<nat, nat>, bound: nat, id: nat, path: set<nat>, indent: nat, buf: string)
    requires WellFormed(g, rank, bound) && id in g && Ranked(g, rank, Ref(id), bound) && Flagged(g[id]) && id in path
    ensures Text(g, rank, bound, Ref(id), path, indent, buf) == buf + Heading(g[id]) + " *RECURSION*"
    ensures FlatText(g, rank, bound, Ref(id), path, buf) == buf + FlatHeading(g[id]) + " *RECURSION*"
    ensures Cuts(g, rank, bound, Ref(id), path) == 1
  {
    hide WellFormed, Body, FlatLines, HashCuts;
  }

  /** A value with elements that is not being printed is its heading and the elements in brackets. */
  lemma OpenText(g: Graph, rank: map<nat, nat>, bound: nat, id: nat, path: set<nat>, indent: nat, buf: string)
    requires WellFormed(g, rank, bound) && id in g && Ranked(g, rank, Ref(id), bound) && Flagged(g[id]) && id !in path
    requires g[id].Object? ==> g[id].properties.Table?
    ensures AllRanked(g, rank, Elements(g[id]), bound)
    ensures Text(g, rank, bound, Ref(id), path, indent, buf)
            == Lines(g, rank, bound, Elements(g[id]), path + {id}, indent + INDENT, bound,
                     buf + Heading(g[id]) + Spaces(indent) + "(\n") + Spaces(indent) + ")\n"
    ensures Cuts(g, rank, bound, Ref(id), path) == HashCuts(g, rank, bound, Elements(g[id]), path + {id}, bound)
  {
    hide WellFormed, Lines, HashCuts, Spaces;
    ElementsRanked(g, rank, bound, id);
    var entries := Elements(g[id]);
    assert Text(g, rank, bound, Ref(id), path, indent, buf)
        == Body(g, rank, bound, entries, path + {id}, indent, bound, buf + Heading(g[id]));
  }

  lemma OpenFlat(g: Graph, rank: map<nat, nat>, bound: nat, id: nat, path: set<nat>, buf: string)
    requires WellFormed(g, rank, bound) && id in g && Ranked(g, rank, Ref(id), bound) && Flagged(g[id]) && id !in path
    requires g[id].Object? ==> g[id].properties.Table?
    ensures AllRanked(g, rank, Elements(g[id]), bound)
    ensures FlatText(g, rank, bound, Ref(id), path, buf)
            == FlatLines(g, rank, bound, Elements(g[id]), path + {id}, bound, buf + FlatHeading(g[id])) + ")"
  {
    hide WellFormed, FlatLines;
    ElementsRanked(g, rank, bound, id);
  }

  /** `v` is the node itself or a reference to it. */
  predicate IsOrRefersTo(g: Graph, v: Value, id: nat) {
    v == Ref(id) || (v.Ref? && v.id in g && g[v.id] == Reference(Ref(id)))
  }

  lemma CutInside(g: Graph, rank: map<nat, nat>, bound: nat, v: Value, id: nat, path: set<nat>, indent: nat,
                  buf: string)
    requires WellFormed(g, rank, bound) && id in g && Flagged(g[id]) && id in path
    requires IsOrRefersTo(g, v, id) && Ranked(g, rank, v, bound)
    ensures Text(g, rank, bound, v, path, indent, buf) == buf + Heading(g[id]) + " *RECURSION*"
    ensures FlatText(g, rank, bound, v, path, buf) == buf + FlatHeading(g[id]) + " *RECURSION*"
  {
    hide WellFormed, Flagged, ArrayText, ObjectText, FlatArray, FlatObject;
    RankOf(g, rank, bound, id);
    CutTexts(g, rank, bound, id, path, indent, buf);
    if v != Ref(id) {
      ReferenceRanked(g, rank, bound, v.id);
    }
  }

  /** The text of an array or object that holds nothing but itself. */
  lemma SelfText(g: Graph, rank: map<nat, nat>, bound: nat, id: nat, e: Entry, path: set<nat>, indent: nat,
                 buf: string)
    requires WellFormed(g, rank, bound) && id in g && Ranked(g, rank, Ref(id), bound) && Flagged(g[id]) && id !in path
    requires Elements(g[id]) == [e] && IsOrRefersTo(g, e.value, id)
    ensures Text(g, rank, bound, Ref(id), path, indent, buf)
            == buf + Heading(g[id]) + Spaces(indent) + "(\n"
               + Spaces(indent + INDENT) + "[" + e.key + "] => " + Heading(g[id]) + " *RECURSION*" + "\n"
               + Spaces(indent) + ")\n"
  {
    hide WellFormed, Lines, Text, Cuts, HashCuts, Spaces, IsOrRefersTo, Flagged, Heading;
    OpenText(g, rank, bound, id, path, indent, buf);
    var open := buf + Heading(g[id]) + Spaces(indent) + "(\n";
    NoLines(g, rank, bound, [e], path + {id}, indent + INDENT, bound, open);
    LinesNext(g, rank, bound, [e], 0, path + {id}, indent + INDENT, bound, open);
    assert [e][..1] == [e];
    CutInside(g, rank, bound, e.value, id, path + {id}, indent + INDENT + INDENT,
              open + Spaces(indent + INDENT) + "[" + e.key + "] => ");
  }

  lemma SelfFlat(g: Graph, rank: map<nat, nat>, bound: nat, id: nat, e: Entry, path: set<nat>, buf: string)
    requires WellFormed(g, rank, bound) && id in g && Ranked(g, rank, Ref(id), bound) && Flagged(g[id]) && id !in path
    requires Elements(g[id]) == [e] && IsOrRefersTo(g, e.value, id)
    ensures FlatText(g, rank, bound, Ref(id), path, buf)
            == buf + FlatHeading(g[id]) + ("[" + e.flatKey + "] => ") + FlatHeading(g[id]) + " *RECURSION*" + ")"
  {
    hide WellFormed, FlatLines, FlatText, HashCuts, IsOrRefersTo, Flagged, FlatHeading;
    OpenFlat(g, rank, bound, id, path, buf);
    var open := buf + FlatHeading(g[id]);
    NoFlatLines(g, rank, bound, [e], path + {id}, bound, open);
    FlatLinesNext(g, rank, bound, [e], 0, path + {id}, bound, open);
    assert [e][..1] == [e];
    CutInside(g, rank, bound, e.value, id, path + {id}, 0, open + FlatLead(true, e.flatKey));
  }

  /** Elements of the flat form are separated by commas. */
  lemma FlatPair(g: Graph, rank: map<nat, nat>, bound: nat, id: nat, a: Entry, b: Entry, path: set<nat>, buf: string)
    requires WellFormed(g, rank, bound) && id in g && Ranked(g, rank, Ref(id), bound) && Flagged(g[id]) && id !in path
    requires Elements(g[id]) == [a, b] && a.value.Scalar? && b.value.Scalar?
    ensures FlatText(g, rank, bound, Ref(id), path, buf)
            == buf + FlatHeading(g[id]) + ("[" + a.flatKey + "] => ") + a.value.text
               + (",[" + b.flatKey + "] => ") + b.value.text + ")"
  {
    hide WellFormed, FlatLines, FlatArray, FlatObject, HashCuts, Flagged, FlatHeading;
    OpenFlat(g, rank, bound, id, path, buf);
    var open := buf + FlatHeading(g[id]);
    NoFlatLines(g, rank, bound, [a, b], path + {id}, bound, open);
    FlatLinesNext(g, rank, bound, [a, b], 0, path + {id}, bound, open);
    FlatLinesNext(g, rank, bound, [a, b], 1, path + {id}, bound, open);
    assert [a, b][..2] == [a, b];
  }

  /** An array with a reference to itself. */
  function SelfArray(): Graph {
    map[0 := Array(false, [Entry("0", "0", Ref(1))]), 1 := Reference(Ref(0))]
  }

  /** Its text: the element is cut after its heading. */
  lemma SelfArrayText()
    ensures WellFormed(SelfArray(), map[0 := 0, 1 := 1], 2)
    ensures Text(SelfArray(), map[0 := 0, 1 := 1], 2, Ref(0), {}, 0, "")
            == "Array\n(\n    [0] => Array\n *RECURSION*\n)\n"
    ensures FlatText(SelfArray(), map[0 := 0, 1 := 1], 2, Ref(0), {}, "") == "Array ([0] => Array ( *RECURSION*)"
  {
    hide Text, FlatText, Spaces, WellFormed;
    SelfFormed();
    FourSpaces();
    SelfText(SelfArray(), map[0 := 0, 1 := 1], 2, 0, Entry("0", "0", Ref(1)), {}, 0, "");
    SelfFlat(SelfArray(), map[0 := 0, 1 := 1], 2, 0, Entry("0", "0", Ref(1)), {}, "");
    SelfArrayLines();
    SelfArrayLine();
  }

  lemma SelfFormed()
    ensures WellFormed(SelfArray(), map[0 := 0, 1 := 1], 2)
  {
    var g := SelfArray();
    assert Children(g[0]) == [Ref(1)];
  }

  lemma FourSpaces()
    ensures Spaces(0) == "" && Spaces(INDENT) == "    "
  {
    assert Spaces(1) == " " && Spaces(2) == "  " && Spaces(3) == "   ";
  }

  lemma SelfArrayLines()
    ensures "" + "Array\n" + "" + "(\n" + "    " + "[" + "0" + "] => " + "Array\n" + " *RECURSION*" + "\n" + "" + ")\n"
         == "Array\n(\n    [0] => Array\n *RECURSION*\n)\n"
  {
    assert "" + "Array\n" + "" + "(\n" == "Array\n(\n";
    assert "Array\n(\n" + "    " + "[" + "0" == "Array\n(\n    [0";
    assert "Array\n(\n    [0" + "] => " == "Array\n(\n    [0] => ";
    assert "Array\n(\n    [0] => " + "Array\n" == "Array\n(\n    [0] => Array\n";
    assert "Array\n(\n    [0] => Array\n" + " *RECURSION*" == "Array\n(\n    [0] => Array\n *RECURSION*";
  }

  lemma SelfArrayLine()
    ensures "" + "Array (" + ("[" + "0" + "] => ") + "Array (" + " *RECURSION*" + ")"
         == "Array ([0] => Array ( *RECURSION*)"
  {
    assert "[" + "0" + "] => " == "[0] => ";
    assert "" + "Array (" + "[0] => " == "Array ([0] => ";
    assert "Array ([0] => " + "Array (" == "Array ([0] => Array (";
  }

  // -------------------------------------------------------------- counting marks

  function Stars(s: string): nat {
    multiset(s)['*']
  }

  lemma StarsAdd(a: string, b: string)
    ensures Stars(a + b) == Stars(a) + Stars(b)
  {
  }

  lemma NoStars(s: string)
    ensures Stars(s) == 0 <==> '*' !in s
  {
  }

  lemma OneStar()
    ensures Stars("*") == 1
  {
    assert multiset("*") == multiset{'*'};
  }

  lemma MarkStars()
    ensures Stars(" *RECURSION*") == 2
  {
    hide Stars;
    assert " *RECURSION*" == " " + "*" + "RECURSION" + "*";
    StarsAdd(" " + "*" + "RECURSION", "*");
    StarsAdd(" " + "*", "RECURSION");
    StarsAdd(" ", "*");
    OneStar();
    NoStars(" ");
    NoStars("RECURSION");
  }

  predicate StarFreeValue(v: Value) {
    v.Scalar? ==> '*' !in v.text
  }

  predicate StarFreeEntries(entries: seq<Entry>) {
    forall e :: e in entries ==> '*' !in e.key && '*' !in e.flatKey && StarFreeValue(e.value)
  }

  predicate StarFreeNode(n: Node) {
    && StarFreeEntries(Elements(n))
    && (n.Object? ==> '*' !in n.title && '*' !in n.flatTitle)
    && (n.Reference? ==> StarFreeValue(n.value))
  }

  /** No key, heading or scalar holds a star, so that every star printed belongs to a mark. */
  predicate StarFree(g: Graph) {
    forall id :: id in g ==> StarFreeNode(g[id])
  }

  lemma HeadingStars(n: Node)
    requires !n.Reference? && StarFreeNode(n)
    ensures Stars(Heading(n)) == 0 && Stars(FlatHeading(n)) == 0
  {
    hide Stars, StarFreeEntries;
    NoStars(Heading(n));
    NoStars(FlatHeading(n));
  }

  /** The mark of recursion, with its two stars, stands in the text once for every cut. */
  lemma {:induction false} MarksPerCut(g: Graph, rank: map<nat, nat>, bound: nat, v: Value, path: set<nat>,
                                       indent: nat, buf: string)
    requires WellFormed(g, rank, bound) && Ranked(g, rank, v, bound) && StarFree(g) && StarFreeValue(v)
    ensures Stars(Text(g, rank, bound, v, path, indent, buf)) == Stars(buf) + 2 * Cuts(g, rank, bound, v, path)
    decreases |Open(g, path)|, Height(rank, v), 0, 1
  {
    hide WellFormed, Body, Lines, HashCuts, Stars, StarFreeEntries, Open;
    if v.Scalar? {
      StarsAdd(buf, v.text);
      NoStars(v.text);
    } else {
      RankOf(g, rank, bound, v.id);
      var node := g[v.id];
      if node.Reference? {
        ReferenceRanked(g, rank, bound, v.id);
        MarksPerCut(g, rank, bound, node.value, path, indent, buf);
      } else {
        var head := buf + Heading(node);
        ElementsRanked(g, rank, bound, v.id);
        HeadingStars(node);
        StarsAdd(buf, Heading(node));
        if !Flagged(node) {
          MarksInBody(g, rank, bound, Elements(node), path, indent, rank[v.id], head);
        } else if v.id in path {
          StarsAdd(head, " *RECURSION*");
          MarkStars();
        } else {
          Entered(g, path, v.id);
          MarksInBody(g, rank, bound, Elements(node), path + {v.id}, indent, bound, head);
          NoCuts(g, rank, bound, path + {v.id}, bound);
        }
      }
    }
  }

  lemma SpaceStars(n: nat)
    ensures Stars(Spaces(n)) == 0
  {
    NoStars(Spaces(n));
  }

  lemma {:induction false} MarksInBody(g: Graph, rank: map<nat, nat>, bound: nat, entries: seq<Entry>, path: set<nat>,
                                       indent: nat, r: nat, buf: string)
    requires WellFormed(g, rank, bound) && AllRanked(g, rank, entries, r) && r <= bound
    requires StarFree(g) && StarFreeEntries(entries)
    ensures Stars(Body(g, rank, bound, entries, path, indent, r, buf))
            == Stars(buf) + 2 * HashCuts(g, rank, bound, entries, path, r)
    decreases |Open(g, path)|, r, 1, |entries| + 1
  {
    hide WellFormed, Lines, HashCuts, Stars, StarFree, StarFreeEntries, Open, Spaces;
    SpaceStars(indent);
    NoStars("(\n");
    NoStars(")\n");
    var head := buf + Spaces(indent) + "(\n";
    StarsAdd(buf, Spaces(indent));
    StarsAdd(buf + Spaces(indent), "(\n");
    MarksInLines(g, rank, bound, entries, path, indent + INDENT, r, head);
    var lines := Lines(g, rank, bound, entries, path, indent + INDENT, r, head);
    StarsAdd(lines, Spaces(indent));
    StarsAdd(lines + Spaces(indent), ")\n");
  }

  lemma {:induction false} MarksInLines(g: Graph, rank: map<nat, nat>, bound: nat, entries: seq<Entry>,
                                        path: set<nat>, indent: nat, r: nat, buf: string)
    requires WellFormed(g, rank, bound) && AllRanked(g, rank, entries, r) && r <= bound
    requires StarFree(g) && StarFreeEntries(entries)
    ensures Stars(Lines(g, rank, bound, entries, path, indent, r, buf))
            == Stars(buf) + 2 * HashCuts(g, rank, bound, entries, path, r)
    decreases |Open(g, path)|, r, 1, |entries|
  {
    hide WellFormed, Text, Cuts, Stars, StarFree, Open, Spaces;
    if entries != [] {
      var rest, last := entries[..|entries| - 1], entries[|entries| - 1];
      assert last in entries && forall e :: e in rest ==> e in entries;
      assert Ranked(g, rank, last.value, r);
      MarksInLines(g, rank, bound, rest, path, indent, r, buf);
      var before := Lines(g, rank, bound, rest, path, indent, r, buf);
      LeadStars(before, indent, last.key);
      var lead := before + Spaces(indent) + "[" + last.key + "] => ";
      MarksPerCut(g, rank, bound, last.value, path, indent + INDENT, lead);
      var text := Text(g, rank, bound, last.value, path, indent + INDENT, lead);
      StarsAdd(text, "\n");
      NoStars("\n");
    }
  }

  lemma LeadStars(before: string, indent: nat, key: string)
    requires '*' !in key
    ensures Stars(before + Spaces(indent) + "[" + key + "] => ") == Stars(before)
  {
    hide Stars, Spaces;
    SpaceStars(indent);
    NoStars("[");
    NoStars(key);
    NoStars("] => ");
    StarsAdd(before, Spaces(indent));
    StarsAdd(before + Spaces(indent), "[");
    StarsAdd(before + Spaces(indent) + "[", key);
    StarsAdd(before + Spaces(indent) + "[" + key, "] => ");
  }

  lemma FlatLeadStars(before: string, first: bool, key: string)
    requires '*' !in key
    ensures Stars(before + FlatLead(first, key)) == Stars(before)
  {
    hide Stars;
    var open := if first then "[" else ",[";
    NoStars(open);
    NoStars(key);
    NoStars("] => ");
    StarsAdd(open, key);
    StarsAdd(open + key, "] => ");
    StarsAdd(before, FlatLead(first, key));
  }

  lemma {:induction false} FlatMarksPerCut(g: Graph, rank: map<nat, nat>, bound: nat, v: Value, path: set<nat>,
                                           buf: string)
    requires WellFormed(g, rank, bound) && Ranked(g, rank, v, bound) && StarFree(g) && StarFreeValue(v)
    ensures Stars(FlatText(g, rank, bound, v, path, buf)) == Stars(buf) + 2 * Cuts(g, rank, bound, v, path)
    decreases |Open(g, path)|, Height(rank, v), 0, 1
  {
    hide WellFormed, FlatLines, HashCuts, Stars, StarFreeEntries, Open;
    if v.Scalar? {
      StarsAdd(buf, v.text);
      NoStars(v.text);
    } else {
      RankOf(g, rank, bound, v.id);
      var node := g[v.id];
      if node.Reference? {
        ReferenceRanked(g, rank, bound, v.id);
        FlatMarksPerCut(g, rank, bound, node.value, path, buf);
      } else {
        var head := buf + FlatHeading(node);
        ElementsRanked(g, rank, bound, v.id);
        HeadingStars(node);
        StarsAdd(buf, FlatHeading(node));
        NoStars(")");
        if !Flagged(node) {
          MarksInFlatLines(g, rank, bound, Elements(node), path, rank[v.id], head);
          StarsAdd(FlatLines(g, rank, bound, Elements(node), path, rank[v.id], head), ")");
        } else if v.id in path {
          StarsAdd(head, " *RECURSION*");
          MarkStars();
        } else {
          Entered(g, path, v.id);
          MarksInFlatLines(g, rank, bound, Elements(node), path + {v.id}, bound, head);
          StarsAdd(FlatLines(g, rank, bound, Elements(node), path + {v.id}, bound, head), ")");
          StarsAdd(head, ")");
          NoCuts(g, rank, bound, path + {v.id}, bound);
        }
      }
    }
  }

  lemma {:induction false} MarksInFlatLines(g: Graph, rank: map<nat, nat>, bound: nat, entries: seq<Entry>,
                                            path: set<nat>, r: nat, buf: string)
    requires WellFormed(g, rank, bound) && AllRanked(g, rank, entries, r) && r <= bound
    requires StarFree(g) && StarFreeEntries(entries)
    ensures Stars(FlatLines(g, rank, bound, entries, path, r, buf))
            == Stars(buf) + 2 * HashCuts(g, rank, bound, entries, path, r)
    decreases |Open(g, path)|, r, 1, |entries|
  {
    hide WellFormed, FlatText, Cuts, Stars, StarFree, Open, FlatLead;
    if entries != [] {
      var rest, last := entries[..|entries| - 1], entries[|entries| - 1];
      assert last in entries && forall e :: e in rest ==> e in entries;
      assert Ranked(g, rank, last.value, r);
      MarksInFlatLines(g, rank, bound, rest, path, r, buf);
      var before := FlatLines(g, rank, bound, rest, path, r, buf);
      FlatLeadStars(before, |entries| == 1, last.flatKey);
      FlatMarksPerCut(g, rank, bound, last.value, path, before + FlatLead(|entries| == 1, last.flatKey));
    }
  }
}

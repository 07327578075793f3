/**
 * The program tree the metering pass walks and rewrites: the parsed
 * WebAssembly text-format AST as the graph library hands it over.
 *
 * A vertex has a kind (`module`, `func`, `array`, `loop`, `if`, `binop`,
 * `load`, ...), the payload of its JSON object (operand types, operator,
 * access size and sign, literal value), the library's `isBranch` flag, and an
 * ordered list of edges to its children. A child of an `array` is keyed by
 * its position, so its edge name is the empty string; every other child is
 * keyed by its field name (`body`, `then`, `else`, `test`, ...).
 *
 * The library mutates vertices in place; here a tree is a value and every
 * operation returns the updated tree.
 */
module Ast {

  /** The scalar fields of a vertex's JSON object that the pass reads or builds. */
  datatype Literal = NoValue | Str(s: string) | Num(n: int)

  datatype Payload = Payload(
    ty: string,          // `type`
    ty1: string,         // `type1`, the source type of a conversion
    operator: string,    // `operator`
    size: Option<nat>,   // `size` of a memory access; None stands for null
    signed: bool,        // truthiness of `sign`
    value: Literal)      // `value` of a literal, `init` of a constant

  const Blank := Payload("", "", "", None, false, NoValue)

  datatype Option<T> = None | Some(value: T)

  datatype Node = Node(kind: string, value: Payload, isBranch: bool, edges: seq<Edge>)

  datatype Edge = Edge(name: string, target: Node)

  /** Why the pass stops: the two errors it throws, and a missing edge, which
      in index.js crashes on a property access of `undefined`. */
  datatype Error =
    | DisallowedType(ty: string)
    | UnsupportedInstruction(key: string)
    | MissingEdge(name: string)

  datatype Result<T> = Ok(value: T) | Err(error: Error) {
    predicate IsFailure() { Err? }

    function PropagateFailure<U>(): Result<U>
      requires Err?
    {
      Err(error)
    }

    function Extract(): T
      requires Ok?
    {
      value
    }
  }

  /** Index of the first edge called `name`, as the library's `get` finds it. */
  function FindEdge(es: seq<Edge>, name: string): (r: Option<nat>)
    ensures r.Some? ==> r.value < |es| && es[r.value].name == name
    ensures r.Some? ==> forall i :: 0 <= i < r.value ==> es[i].name != name
    ensures r.None? ==> forall i :: 0 <= i < |es| ==> es[i].name != name
  {
    if es == [] then None
    else if es[0].name == name then Some(0)
    else match FindEdge(es[1..], name)
      case None => None
      case Some(i) => Some(i + 1)
  }

  /** `vertex.get(name)`, which yields `undefined` for a missing edge. */
  function Lookup(v: Node, name: string): (r: Option<Node>)
    ensures r.Some? <==> FindEdge(v.edges, name).Some?
    ensures r.Some? ==> r.value == v.edges[FindEdge(v.edges, name).value].target
  {
    match FindEdge(v.edges, name)
    case None => None
    case Some(i) => Some(v.edges[i].target)
  }

  /** `vertex.get(name)` where the caller goes on to use the child. */
  function Get(v: Node, name: string): (r: Result<Node>)
    ensures r.Ok? <==> Lookup(v, name).Some?
    ensures r.Ok? ==> r.value == Lookup(v, name).value
    ensures r.Err? ==> r.error == MissingEdge(name)
  {
    match Lookup(v, name)
    case None => Err(MissingEdge(name))
    case Some(c) => Ok(c)
  }

  /** `vertex.set(name, child)` on an edge that exists. */
  function Set(v: Node, name: string, child: Node): (r: Node)
    requires Lookup(v, name).Some?
    ensures r.kind == v.kind && r.value == v.value && r.isBranch == v.isBranch
    ensures |r.edges| == |v.edges|
    ensures Lookup(r, name) == Some(child)
    ensures forall i :: 0 <= i < |v.edges| ==> r.edges[i].name == v.edges[i].name
    ensures forall i :: 0 <= i < |v.edges| && v.edges[i].name != name ==> r.edges[i] == v.edges[i]
  {
    var i := FindEdge(v.edges, name).value;
    var r := v.(edges := v.edges[i := Edge(name, child)]);
    FindEdgeByNames(v.edges, r.edges, name);
    r
  }

  /** Edge lookup depends only on the edge names. */
  lemma {:induction false} FindEdgeByNames(a: seq<Edge>, b: seq<Edge>, name: string)
    requires |a| == |b| && forall i :: 0 <= i < |a| ==> a[i].name == b[i].name
    ensures FindEdge(a, name) == FindEdge(b, name)
  {
    if a != [] {
      FindEdgeByNames(a[1..], b[1..], name);
    }
  }

  /** Setting one field leaves every other field's child as it was. */
  lemma LookupAfterSet(v: Node, name: string, child: Node, other: string)
    requires Lookup(v, name).Some? && other != name
    ensures Lookup(Set(v, name, child), other) == Lookup(v, other)
  {
    FindEdgeByNames(v.edges, Set(v, name, child).edges, other);
  }

  /** Replaces the child at position `j`, keeping its edge name. */
  function ReplaceChild(v: Node, j: nat, child: Node): (r: Node)
    requires j < |v.edges|
    ensures r.kind == v.kind && r.value == v.value && r.isBranch == v.isBranch
    ensures |r.edges| == |v.edges| && r.edges[j] == Edge(v.edges[j].name, child)
    ensures r.edges[..j] == v.edges[..j] && r.edges[j + 1..] == v.edges[j + 1..]
  {
    v.(edges := v.edges[j := Edge(v.edges[j].name, child)])
  }

  /** `insertAt(index, child)`: the child lands at `index`, later edges move up one. */
  function InsertAt(v: Node, index: nat, e: Edge): (r: Node)
    requires index <= |v.edges|
    ensures r.kind == v.kind && r.value == v.value && r.isBranch == v.isBranch
    ensures |r.edges| == |v.edges| + 1 && r.edges[index] == e
    ensures r.edges[..index] == v.edges[..index] && r.edges[index + 1..] == v.edges[index..]
  {
    v.(edges := v.edges[..index] + [e] + v.edges[index..])
  }

  /** A vertex with the same head (kind, payload, branch flag). */
  predicate SameHead(a: Node, b: Node) {
    a.kind == b.kind && a.value == b.value && a.isBranch == b.isBranch
  }

  /** The `array` vertex the library makes of a one-item JSON list. */
  function ListOf(item: Node): Node {
    Node("array", Blank, false, [Edge("", item)])
  }

  // ---------------------------------------------------------------------
  // A size measure for termination. An `if` weighs three, so that an arm
  // wrapped in a fresh `then`/`else` block (two extra vertices) is still
  // lighter than the `if` it came from.

  function Base(n: Node): nat {
    if n.kind == "if" then 3 else 1
  }

  function Size(n: Node): (r: nat)
    ensures r >= 1
    decreases n, 1
  {
    Base(n) + SumSizes(n.edges)
  }

  function SumSizes(es: seq<Edge>): nat
    decreases es, 0
  {
    if es == [] then 0 else Size(es[0].target) + SumSizes(es[1..])
  }

  /** What is left to walk of `v` from child `s` on. */
  function Pending(v: Node, s: nat): nat
    requires s <= |v.edges|
  {
    Base(v) + SumSizes(v.edges[s..])
  }

  lemma {:induction false} SumSizesStep(es: seq<Edge>, j: nat)
    requires j < |es|
    ensures SumSizes(es[j..]) == Size(es[j].target) + SumSizes(es[j + 1..])
  {
    assert es[j..][1..] == es[j + 1..];
  }

  lemma {:induction false} ChildSmaller(es: seq<Edge>, i: nat)
    requires i < |es|
    ensures Size(es[i].target) <= SumSizes(es)
  {
    if i > 0 {
      ChildSmaller(es[1..], i - 1);
    }
  }

  lemma {:induction false} SuffixShrinks(es: seq<Edge>, a: nat, b: nat)
    requires a < b <= |es|
    ensures SumSizes(es[b..]) < SumSizes(es[a..])
    decreases b - a
  {
    SumSizesStep(es, a);
    if a + 1 < b {
      SuffixShrinks(es, a + 1, b);
    }
  }

  lemma PendingWhole(v: Node)
    ensures Pending(v, 0) == Size(v)
  {
    assert v.edges[0..] == v.edges;
  }

  lemma LookupSmaller(v: Node, name: string)
    requires Lookup(v, name).Some?
    ensures Size(Lookup(v, name).value) + Base(v) <= Size(v)
  {
    ChildSmaller(v.edges, FindEdge(v.edges, name).value);
  }
}

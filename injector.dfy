/**
 * The injector: the charge call `(call_import <gasImport> (i32.const amount))`
 * inserted at a position of a block, and the host import
 * `(import "ethereum" "useGas" (param i32))` appended to every module.
 *
 * The import slot `gasImport` is a parameter here; index.js keeps it in a
 * module-level variable that the driver sets once per run.
 */
module Injector {
  import opened Ast

  function LiteralNode(value: Literal): Node {
    Node("literal", Blank.(value := value), false, [])
  }

  /** The charge call: `call_import` of the host import with one `i32.const`. */
  function ChargeNode(amount: nat, gasImport: nat): (r: Node)
    ensures r.kind == "call_import" && !r.isBranch
  {
    Node("call_import", Blank, false, [
      Edge("id", LiteralNode(Num(gasImport))),
      Edge("exprs", ListOf(Node("const", Blank.(ty := "i32", value := Num(amount)), false, [])))])
  }

  /** The amount a charge call carries, read back from its constant. */
  function ChargeAmount(n: Node): Option<int> {
    if n.kind == "call_import" && |n.edges| == 2 && n.edges[1].name == "exprs"
       && |n.edges[1].target.edges| == 1 && n.edges[1].target.edges[0].target.kind == "const"
       && n.edges[1].target.edges[0].target.value.value.Num?
    then Some(n.edges[1].target.edges[0].target.value.value.n)
    else None
  }

  lemma ChargeCarriesAmount(amount: nat, gasImport: nat)
    ensures ChargeAmount(ChargeNode(amount, gasImport)) == Some(amount)
  {
  }

  /** The sequence a charge goes into: the vertex itself when it is an
      `array`, otherwise the children of its `body`. */
  predicate HasChargeSlot(n: Node) {
    n.kind == "array" || Lookup(n, "body").Some?
  }

  function ChargeSlot(n: Node): seq<Edge>
    requires HasChargeSlot(n)
  {
    if n.kind == "array" then n.edges else Lookup(n, "body").value.edges
  }

  /**
   * addGasCountBlock: inserts the charge call at `index` of the vertex's
   * charge slot. A non-array vertex without a `body` crashes index.js;
   * here that is MissingEdge("body").
   */
  function AddGasCountBlock(amount: nat, node: Node, index: nat, gasImport: nat): (r: Result<Node>)
    requires HasChargeSlot(node) ==> index <= |ChargeSlot(node)|
    ensures r.Ok? <==> HasChargeSlot(node)
    ensures r.Err? ==> r.error == MissingEdge("body")
    ensures r.Ok? ==> SameHead(r.value, node) && HasChargeSlot(r.value)
    ensures r.Ok? ==> |ChargeSlot(r.value)| == |ChargeSlot(node)| + 1
    ensures r.Ok? ==> ChargeSlot(r.value)[index] == Edge("", ChargeNode(amount, gasImport))
    ensures r.Ok? ==> ChargeSlot(r.value)[..index] + ChargeSlot(r.value)[index + 1..] == ChargeSlot(node)
    ensures r.Ok? && node.kind == "array" ==> |r.value.edges| == |node.edges| + 1
    ensures r.Ok? && node.kind != "array" ==> |r.value.edges| == |node.edges|
    ensures r.Ok? && node.kind != "array" ==>
      forall i :: 0 <= i < |node.edges| && node.edges[i].name != "body" ==> r.value.edges[i] == node.edges[i]
    ensures r.Ok? && node.kind != "array" ==>
      && Lookup(node, "body").Some? && Lookup(r.value, "body").Some?
      && SameHead(Lookup(r.value, "body").value, Lookup(node, "body").value)
  {
    var charge := Edge("", ChargeNode(amount, gasImport));
    if node.kind == "array" then
      var r := InsertAt(node, index, charge);
      assert r.edges[..index] + r.edges[index + 1..] == node.edges[..index] + node.edges[index..];
      Ok(r)
    else
      var body :- Get(node, "body");
      var body' := InsertAt(body, index, charge);
      assert body'.edges[..index] + body'.edges[index + 1..] == body.edges[..index] + body.edges[index..];
      Ok(Set(node, "body", body'))
  }

  // ---------------------------------------------------------------------
  // The host import.

  /** `(import "ethereum" "useGas" (param i32))` with no result type. */
  function ImportDecl(): (r: Node)
    ensures r.kind == "import"
  {
    Node("import", Blank, false, [
      Edge("modName", LiteralNode(Str("ethereum"))),
      Edge("funcName", LiteralNode(Str("useGas"))),
      Edge("params", ListOf(Node("param", Blank, false, [
        Edge("items", ListOf(Node("item", Blank.(ty := "i32"), false, [])))])))])
  }

  /** A top-level item that is a module but has no `body` to push into. */
  predicate ModuleWithoutBody(e: Edge) {
    e.target.kind == "module" && Lookup(e.target, "body").None?
  }

  /** One top-level item after the import pass: a module's body gains the
      import at its end; anything else is left as it is. */
  function WithImportEdge(e: Edge): Edge
    requires !ModuleWithoutBody(e)
  {
    if e.target.kind == "module" then
      var body := Lookup(e.target, "body").value;
      Edge(e.name, Set(e.target, "body", body.(edges := body.edges + [Edge("", ImportDecl())])))
    else e
  }

  /** What addImport does to the root. It crashes, here MissingEdge("body"),
      when the root or one of its modules has no body. */
  function WithImport(root: Node): Result<Node> {
    var body :- Get(root, "body");
    if exists j :: 0 <= j < |body.edges| && ModuleWithoutBody(body.edges[j]) then Err(MissingEdge("body"))
    else
      Ok(Set(root, "body", body.(edges := seq(|body.edges|, j requires 0 <= j < |body.edges| => WithImportEdge(body.edges[j])))))
  }

  /** addImport: walks the root body's items and pushes the import into each module's body. */
  method AddImport(root: Node) returns (r: Result<Node>)
    ensures r == WithImport(root)
  {
    var found := Lookup(root, "body");
    if found.None? {
      return Err(MissingEdge("body"));
    }
    var body := found.value;
    var items := body.edges;
    var j := 0;
    while j < |body.edges|
      invariant 0 <= j <= |body.edges| && |items| == |body.edges|
      invariant forall i :: 0 <= i < j ==> !ModuleWithoutBody(body.edges[i])
      invariant forall i :: 0 <= i < j ==> items[i] == WithImportEdge(body.edges[i])
      invariant items[j..] == body.edges[j..]
    {
      var item := body.edges[j];
      if item.target.kind == "module" {
        var moduleBody := Lookup(item.target, "body");
        if moduleBody.None? {
          assert ModuleWithoutBody(body.edges[j]);
          return Err(MissingEdge("body"));
        }
        var b := moduleBody.value;
        items := items[j := Edge(item.name, Set(item.target, "body", b.(edges := b.edges + [Edge("", ImportDecl())])))];
      }
      j := j + 1;
    }
    assert items == seq(|body.edges|, i requires 0 <= i < |body.edges| => WithImportEdge(body.edges[i]));
    r := Ok(Set(root, "body", body.(edges := items)));
  }

  // ---------------------------------------------------------------------
  // The import table.

  /** How many of the edges are import declarations. */
  function ImportCount(es: seq<Edge>): nat {
    if es == [] then 0
    else ImportCount(es[..|es| - 1]) + (if es[|es| - 1].target.kind == "import" then 1 else 0)
  }

  /** The first module of the root, as the driver reaches it. */
  function FirstModule(root: Node): Option<Node> {
    match Lookup(root, "body")
    case None => None
    case Some(body) => if body.edges == [] then None else Some(body.edges[0].target)
  }

  /**
   * The length of the import table: the import declarations in the body of
   * the first module. The appended import is the next slot of that table.
   */
  function ImportTableLength(root: Node): nat {
    match FirstModule(root)
    case None => 0
    case Some(m) => if Lookup(m, "body").None? then 0 else ImportCount(Lookup(m, "body").value.edges)
  }

  /**
   * After the import pass each module's body is its old body plus the import
   * at the end, every other item and every other field is untouched, and the
   * first module's import table has grown by one, with the new import in the
   * slot numbered by the table's old length.
   */
  lemma ImportAppendedOnce(root: Node)
    requires WithImport(root).Ok?
    ensures var after := WithImport(root).value;
      && Lookup(root, "body").Some? && Lookup(after, "body").Some?
      && SameHead(after, root) && |after.edges| == |root.edges|
      && (forall i :: 0 <= i < |root.edges| && root.edges[i].name != "body" ==> after.edges[i] == root.edges[i])
      && SameHead(Lookup(after, "body").value, Lookup(root, "body").value)
      && var before := Lookup(root, "body").value.edges;
         var now := Lookup(after, "body").value.edges;
         && |now| == |before|
         && forall j :: 0 <= j < |before| ==>
              && now[j].name == before[j].name && SameHead(now[j].target, before[j].target)
              && (before[j].target.kind != "module" ==> now[j] == before[j])
              && (before[j].target.kind == "module" ==>
                    && Lookup(before[j].target, "body").Some? && Lookup(now[j].target, "body").Some?
                    && |now[j].target.edges| == |before[j].target.edges|
                    && (forall i :: 0 <= i < |before[j].target.edges| && before[j].target.edges[i].name != "body" ==>
                          now[j].target.edges[i] == before[j].target.edges[i])
                    && SameHead(Lookup(now[j].target, "body").value, Lookup(before[j].target, "body").value)
                    && Lookup(now[j].target, "body").value.edges
                       == Lookup(before[j].target, "body").value.edges + [Edge("", ImportDecl())])
  {
  }

  /**
   * The import appended to the first module is the last item of its body and
   * takes the slot numbered by the import table's old length, which grows
   * by one.
   */
  lemma ImportSlot(root: Node)
    requires WithImport(root).Ok?
    requires FirstModule(root).Some? && FirstModule(root).value.kind == "module"
    ensures var after := WithImport(root).value;
      FirstModule(after).Some? && Lookup(FirstModule(after).value, "body").Some?
    ensures var after := WithImport(root).value;
      var body := Lookup(FirstModule(after).value, "body").value.edges;
      && |body| >= 1 && body[|body| - 1].target == ImportDecl()
      && ImportCount(body[..|body| - 1]) == ImportTableLength(root)
      && ImportTableLength(after) == ImportTableLength(root) + 1
  {
    ImportAppendedOnce(root);
    var after := WithImport(root).value;
    var now := Lookup(FirstModule(after).value, "body").value.edges;
    assert now[..|now| - 1] == Lookup(FirstModule(root).value, "body").value.edges;
  }
}

/**
 * The driver, injectJSON: fixes the slot of the host import as the length of
 * the import table, adds the import, and meters every `func` of the first
 * module as a scope of its own.
 */
module Driver {
  import opened Ast
  import opened GasCost
  import opened Injector
  import opened Metering
  import opened MeteringLaws

  /** The cost of one vertex under the gas table. */
  function CostOf(table: GasTable): CostFn {
    n => GetInstructionGas(n, table)
  }

  /** One item of the first module: a `func` is metered from its first
      child on; anything else is left as it is. */
  function MeterItem(e: Edge, gasImport: nat, cost: CostFn): Result<Edge> {
    if e.target.kind == "func" then
      PendingWhole(e.target);
      var m :- Transform(e.target, 0, gasImport, cost);
      Ok(Edge(e.name, m.tree))
    else Ok(e)
  }

  /** MeterItem as a value the loop can be handed. */
  function MeterOf(gasImport: nat, cost: CostFn): Edge -> Result<Edge> {
    e => MeterItem(e, gasImport, cost)
  }

  /** The loop over the module's items from `i` on, `done` holding the items
      before `i` as they now are; the first failure ends it. */
  function MeterItems(es: seq<Edge>, i: nat, done: seq<Edge>, meter: Edge -> Result<Edge>): Result<seq<Edge>>
    requires i <= |es|
    decreases |es| - i
  {
    if i == |es| then Ok(done)
    else
      var e :- meter(es[i]);
      MeterItems(es, i + 1, done + [e], meter)
  }

  /** What injectJSON makes of a program: the import pass, then the first
      module's items metered. Each missing edge on the way fails as such. */
  function Inject(root: Node, table: GasTable): Result<Node> {
    var gasImport := ImportTableLength(root);
    var withImport :- WithImport(root);
    var body :- Get(withImport, "body");
    if body.edges == [] then Err(MissingEdge("0"))
    else
      var first := body.edges[0].target;
      var funcs :- Get(first, "body");
      var items :- MeterItems(funcs.edges, 0, [], MeterOf(gasImport, CostOf(table)));
      var first' := Set(first, "body", funcs.(edges := items));
      Ok(Set(withImport, "body", body.(edges := body.edges[0 := Edge(body.edges[0].name, first')])))
  }

  /** injectJSON. */
  method InjectJSON(root: Node, table: GasTable) returns (r: Result<Node>)
    ensures r == Inject(root, table)
  {
    var gasImport := ImportTableLength(root);
    var withImport := AddImport(root);
    if withImport.Err? {
      return Err(withImport.error);
    }
    var graph := withImport.value;
    var body := Lookup(graph, "body");
    if body.None? {
      return Err(MissingEdge("body"));
    }
    if body.value.edges == [] {
      return Err(MissingEdge("0"));
    }
    var first := body.value.edges[0].target;
    var funcs := Lookup(first, "body");
    if funcs.None? {
      return Err(MissingEdge("body"));
    }
    var items := MeterFuncs(funcs.value.edges, gasImport, CostOf(table));
    if items.Err? {
      return Err(items.error);
    }
    var first' := Set(first, "body", funcs.value.(edges := items.value));
    var root' := body.value.(edges := body.value.edges[0 := Edge(body.value.edges[0].name, first')]);
    return Ok(Set(graph, "body", root'));
  }

  /** The loop of injectJSON over the first module's items. */
  method MeterFuncs(es: seq<Edge>, gasImport: nat, cost: CostFn) returns (r: Result<seq<Edge>>)
    ensures r == MeterItems(es, 0, [], MeterOf(gasImport, cost))
  {
    ghost var goal := MeterItems(es, 0, [], MeterOf(gasImport, cost));
    var items := es;
    var i := 0;
    while i < |es|
      invariant 0 <= i <= |es| == |items|
      invariant forall k :: i <= k < |es| ==> items[k] == es[k]
      invariant MeterItems(es, i, items[..i], MeterOf(gasImport, cost)) == goal
    {
      var e := MeterFunc(es[i], gasImport, cost);
      if e.Err? {
        return Err(e.error);
      }
      items := items[i := e.value];
      assert items[..i + 1] == items[..i] + [e.value];
      i := i + 1;
    }
    assert items[..i] == items;
    return Ok(items);
  }

  /** The body of that loop: meteringTransform on a `func`, nothing else. */
  method MeterFunc(e: Edge, gasImport: nat, cost: CostFn) returns (r: Result<Edge>)
    ensures r == MeterItem(e, gasImport, cost)
  {
    if e.target.kind != "func" {
      return Ok(e);
    }
    PendingWhole(e.target);
    var m := MeteringTransform(e.target, 0, gasImport, cost);
    if m.Err? {
      return Err(m.error);
    }
    return Ok(Edge(e.name, m.value.tree));
  }

  // ---------------------------------------------------------------------
  // Properties.

  /** The cost the driver meters with is the gas table's lookup. */
  lemma CostIsLookup(table: GasTable, n: Node)
    ensures CostOf(table)(n) == GetInstructionGas(n, table)
    ensures !GasCost.Disallowed(n) && CostKey(n) in table ==> CostOf(table)(n) == Ok(table[CostKey(n)])
  {
    GasByCostKey(n, table);
  }

  /** The laws about statement lists apply to the gas table: every vertex
      with the head of a priced one is priced the same. */
  lemma CostReadsHead(w: Node, table: GasTable)
    requires GetInstructionGas(w, table).Ok?
    ensures PricedAs(w, CostOf(table), GetInstructionGas(w, table).value)
  {
    forall x | SameHead(x, w) ensures CostOf(table)(x) == GetInstructionGas(w, table) {
      GasIgnoresChildren(x, w, table);
    }
  }

  /** An item after the loop: its name kept, a `func` replaced by its
      metered form, anything else unchanged. */
  predicate MeteredAs(e: Edge, out: Edge, gasImport: nat, cost: CostFn) {
    && out.name == e.name
    && (e.target.kind != "func" ==> out == e)
    && (e.target.kind == "func" ==>
          && Transform(e.target, 0, gasImport, cost).Ok?
          && out.target == Transform(e.target, 0, gasImport, cost).value.tree)
  }

  /**
   * The loop keeps the items, in order, each replaced by what the loop body
   * made of it: it ends well only when the body succeeded on every item.
   */
  lemma {:induction false} ItemsInOrder(es: seq<Edge>, i: nat, done: seq<Edge>, meter: Edge -> Result<Edge>)
    requires i <= |es| && MeterItems(es, i, done, meter).Ok?
    ensures var out := MeterItems(es, i, done, meter).value;
      && |out| == |done| + |es| - i && out[..|done|] == done
      && forall k :: i <= k < |es| ==> meter(es[k]).Ok? && out[|done| + k - i] == meter(es[k]).value
    decreases |es| - i
  {
    if i < |es| {
      var e := meter(es[i]).value;
      var done' := done + [e];
      ItemsInOrder(es, i + 1, done', meter);
      var out := MeterItems(es, i, done, meter).value;
      assert out[..|done'|] == done';
      assert out[..|done|] == out[..|done'|][..|done|];
      assert out[|done|] == done'[|done|];
    }
  }

  /**
   * The loop meters every `func` item and leaves every other item as it
   * was: the module keeps its items, in order and under their names, each
   * either unchanged or replaced by its metered form.
   */
  lemma ItemsMetered(es: seq<Edge>, gasImport: nat, cost: CostFn)
    requires MeterItems(es, 0, [], MeterOf(gasImport, cost)).Ok?
    ensures var out := MeterItems(es, 0, [], MeterOf(gasImport, cost)).value;
      && |out| == |es|
      && forall k :: 0 <= k < |es| ==> MeteredAs(es[k], out[k], gasImport, cost)
  {
    ItemsInOrder(es, 0, [], MeterOf(gasImport, cost));
  }

  /** The items of the first item's body, or none when there is no such body. */
  function FirstBody(root: Node): seq<Edge> {
    match FirstModule(root)
    case None => []
    case Some(m) => if Lookup(m, "body").Some? then Lookup(m, "body").value.edges else []
  }

  /**
   * injectJSON changes nothing but the first item's body: the root keeps
   * its fields, its body keeps its items, and the first item keeps its name,
   * its head and its other fields, as the import pass left them.
   */
  lemma InjectFrame(root: Node, table: GasTable)
    requires Inject(root, table).Ok?
    ensures WithImport(root).Ok?
    ensures var mid := WithImport(root).value;
      var out := Inject(root, table).value;
      && Lookup(mid, "body").Some? && Lookup(out, "body").Some?
      && SameHead(out, mid) && |out.edges| == |mid.edges|
      && (forall i :: 0 <= i < |mid.edges| && mid.edges[i].name != "body" ==> out.edges[i] == mid.edges[i])
      && SameHead(Lookup(out, "body").value, Lookup(mid, "body").value)
      && var before := Lookup(mid, "body").value.edges;
         var now := Lookup(out, "body").value.edges;
         && |before| >= 1 && |now| == |before|
         && (forall i :: 1 <= i < |before| ==> now[i] == before[i])
         && now[0].name == before[0].name && SameHead(now[0].target, before[0].target)
         && Lookup(before[0].target, "body").Some? && Lookup(now[0].target, "body").Some?
         && SameHead(Lookup(now[0].target, "body").value, Lookup(before[0].target, "body").value)
         && |now[0].target.edges| == |before[0].target.edges|
         && (forall i :: 0 <= i < |before[0].target.edges| && before[0].target.edges[i].name != "body" ==>
               now[0].target.edges[i] == before[0].target.edges[i])
  {
  }

  /**
   * injectJSON end to end: after the import pass, every `func` of the first
   * item's body is meteringTransform'ed, its charges calling the slot given
   * by the import table's length before the import was added, and every
   * other item is left as the import pass left it.
   */
  lemma InjectMeters(root: Node, table: GasTable)
    requires Inject(root, table).Ok?
    ensures WithImport(root).Ok?
    ensures var funcs := FirstBody(WithImport(root).value);
      var metered := FirstBody(Inject(root, table).value);
      && |metered| == |funcs|
      && forall k :: 0 <= k < |funcs| ==> MeteredAs(funcs[k], metered[k], ImportTableLength(root), CostOf(table))
  {
    var mid := WithImport(root).value;
    var first := Lookup(mid, "body").value.edges[0].target;
    var funcs := Lookup(first, "body").value;
    ItemsMetered(funcs.edges, ImportTableLength(root), CostOf(table));
    assert FirstBody(mid) == funcs.edges;
  }

  /**
   * When the first item is a module, the metered body still ends with the
   * new import, and that import sits in the slot every charge calls.
   */
  lemma InjectKeepsImport(root: Node, table: GasTable)
    requires Inject(root, table).Ok?
    requires FirstModule(root).Some? && FirstModule(root).value.kind == "module"
    ensures WithImport(root).Ok?
    ensures var funcs := FirstBody(WithImport(root).value);
      var metered := FirstBody(Inject(root, table).value);
      && |funcs| >= 1 && |metered| >= 1 && metered[|metered| - 1].target == ImportDecl()
      && ImportCount(funcs[..|funcs| - 1]) == ImportTableLength(root)
  {
    InjectMeters(root, table);
    ImportSlot(root);
    var funcs := FirstBody(WithImport(root).value);
    var metered := FirstBody(Inject(root, table).value);
    assert funcs[|funcs| - 1].target == ImportDecl();
    assert MeteredAs(funcs[|funcs| - 1], metered[|funcs| - 1], ImportTableLength(root), CostOf(table));
  }
}

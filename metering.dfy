/**
 * The metering analyser. `Calc` is calcGas: it walks a subtree, returns the
 * subtree's gas and whether it contains a branch point, and on the way meters
 * every loop body and `if` arm as a scope of its own and cuts an `array` just
 * after any child that reports a branch point, metering the rest of the array
 * separately. `Transform` is meteringTransform: `Calc`, then one charge call
 * for the gas found, at the position the walk started from.
 *
 * The functions define the pass; the methods `CalcGas` and
 * `MeteringTransform` are the pass as index.js runs it, with its loop
 * over the children, and are proved to compute exactly what the functions
 * say.
 */
module Metering {
  import opened Ast
  import opened Injector

  /** The gas of one vertex, without its children: getInstructionGas over
      a fixed gas table (`GasCost.GetInstructionGas`). */
  type CostFn = Node -> Result<nat>

  /** calcGas's `{gas, branchPoint}`. */
  datatype Gas = Gas(gas: nat, branchPoint: bool)

  /** A result together with the rewritten subtree. */
  datatype Metered = Metered(result: Gas, tree: Node)

  /** Where a walk may start: only an `array` is ever walked from a position
      other than its first child, and never past its end. */
  predicate ValidStart(v: Node, s: nat) {
    s <= |v.edges| && (v.kind != "array" ==> s == 0)
  }

  /** An `if` arm that already is a block of statements. */
  predicate Explicit(arm: Node, name: string) {
    arm.kind == name || arm.kind == "block"
  }

  /** A fresh `then`/`else` block holding `stmt` as its one statement. */
  function Wrap(name: string, stmt: Node): (r: Node)
    requires name != "if"
    ensures r.kind == name && Lookup(r, "body") == Some(ListOf(stmt))
    ensures Size(r) == Size(stmt) + 2
  {
    var body := ListOf(stmt);
    var r := Node(name, Blank, false, [Edge("body", body)]);
    assert body.edges[1..] == [] && r.edges[1..] == [];
    assert SumSizes(body.edges) == Size(stmt);
    assert SumSizes(r.edges) == Size(body);
    r
  }

  /** The arms an `if` is metered with: an implicit `then` is wrapped; only
      when `then` was already explicit is an implicit `else` wrapped. */
  function ThenArm(then0: Node): Node {
    if Explicit(then0, "then") then then0 else Wrap("then", then0)
  }

  function ElseArm(then0: Node, else0: Option<Node>): Option<Node> {
    if Explicit(then0, "then") && else0.Some? && !Explicit(else0.value, "else")
    then Some(Wrap("else", else0.value))
    else else0
  }

  lemma ArmsSmaller(v: Node)
    requires v.kind == "if" && Lookup(v, "then").Some?
    ensures Size(ThenArm(Lookup(v, "then").value)) < Size(v)
    ensures var e := ElseArm(Lookup(v, "then").value, Lookup(v, "else"));
      e.Some? ==> Size(e.value) < Size(v)
  {
    LookupSmaller(v, "then");
    if Lookup(v, "else").Some? {
      LookupSmaller(v, "else");
    }
  }

  /** calcGas(v, s): a loop, an if, or any other vertex. */
  function Calc(v: Node, s: nat, gasImport: nat, cost: CostFn): (r: Result<Metered>)
    requires ValidStart(v, s)
    ensures r.Ok? && v.kind != "array" ==> |r.value.tree.edges| == |v.edges|
    ensures r.Ok? ==> SameHead(r.value.tree, v) && |r.value.tree.edges| >= |v.edges|
    decreases Pending(v, s), 2
  {
    if v.kind == "loop" then CalcLoop(v, gasImport, cost)
    else if v.kind == "if" then CalcIf(v, gasImport, cost)
    else
      var own :- cost(v);
      CalcFrom(v, s, Gas(own, v.isBranch), gasImport, cost)
  }

  /** A loop: its body is metered as a scope of its own; the loop itself
      costs only its own gas, and reports the body's branch flag. */
  function CalcLoop(v: Node, gasImport: nat, cost: CostFn): (r: Result<Metered>)
    requires v.kind == "loop"
    ensures r.Ok? ==> SameHead(r.value.tree, v) && |r.value.tree.edges| == |v.edges|
    decreases Pending(v, 0), 1
  {
    var body :- Get(v, "body");
    LookupSmaller(v, "body");
    PendingWhole(v);
    PendingWhole(body);
    var inner :- Transform(body, 0, gasImport, cost);
    var own :- cost(v);
    Ok(Metered(Gas(own, inner.result.branchPoint), Set(v, "body", inner.tree)))
  }

  /** An if: each arm is metered as a scope of its own; the if costs its test
      and its own gas, and reports the `then` arm's branch flag. */
  function CalcIf(v: Node, gasImport: nat, cost: CostFn): (r: Result<Metered>)
    requires v.kind == "if"
    ensures r.Ok? ==> SameHead(r.value.tree, v) && |r.value.tree.edges| == |v.edges|
    decreases Pending(v, 0), 1
  {
    var arms :- IfArms(v, gasImport, cost);
    IfTest(v, arms, gasImport, cost)
  }

  /** The rest of an if once its arms are metered: the gas of its test,
      which always runs, and its own. */
  function IfTest(v: Node, arms: Arms, gasImport: nat, cost: CostFn): (r: Result<Metered>)
    requires v.kind == "if" && SameHead(arms.tree, v) && |arms.tree.edges| == |v.edges|
    requires Lookup(arms.tree, "test") == Lookup(v, "test")
    ensures r.Ok? ==> SameHead(r.value.tree, v) && |r.value.tree.edges| == |v.edges|
    decreases Pending(v, 0), 0
  {
    var test :- Get(v, "test");
    LookupSmaller(v, "test");
    PendingWhole(test);
    var testMetered :- Calc(test, 0, gasImport, cost);
    var own :- cost(v);
    Ok(Metered(Gas(testMetered.result.gas + own, arms.branchPoint), Set(arms.tree, "test", testMetered.tree)))
  }

  /** The arms of an if after metering, and the flag the if reports. */
  datatype Arms = Arms(branchPoint: bool, tree: Node)

  /** The arms of an if, wrapped where needed and each metered as a scope of
      its own; only the `then` arm's branch flag is kept. */
  function IfArms(v: Node, gasImport: nat, cost: CostFn): (r: Result<Arms>)
    requires v.kind == "if"
    ensures r.Ok? ==> SameHead(r.value.tree, v) && |r.value.tree.edges| == |v.edges|
    ensures r.Ok? ==> Lookup(r.value.tree, "test") == Lookup(v, "test")
    decreases Pending(v, 0), 0
  {
    var then0 :- Get(v, "then");
    var thenArm := ThenArm(then0);
    var elseArm := ElseArm(then0, Lookup(v, "else"));
    ArmsSmaller(v);
    PendingWhole(v);
    PendingWhole(thenArm);
    var thenMetered :- Transform(thenArm, 0, gasImport, cost);
    var v1 := Set(v, "then", thenMetered.tree);
    LookupAfterSet(v, "then", thenMetered.tree, "else");
    LookupAfterSet(v, "then", thenMetered.tree, "test");
    if elseArm.None? then Ok(Arms(thenMetered.result.branchPoint, v1))
    else
      PendingWhole(elseArm.value);
      var elseMetered :- Transform(elseArm.value, 0, gasImport, cost);
      LookupAfterSet(v1, "else", elseMetered.tree, "test");
      Ok(Arms(thenMetered.result.branchPoint, Set(v1, "else", elseMetered.tree)))
  }

  /** The loop of calcGas from child `j` on, with `acc` summed so far. */
  function CalcFrom(v: Node, j: nat, acc: Gas, gasImport: nat, cost: CostFn): (r: Result<Metered>)
    requires j <= |v.edges|
    ensures r.Ok? && v.kind != "array" ==> |r.value.tree.edges| == |v.edges|
    ensures r.Ok? ==> SameHead(r.value.tree, v) && |r.value.tree.edges| >= |v.edges|
    decreases Pending(v, j), 1
  {
    if j == |v.edges| then Ok(Metered(acc, v))
    else
      SumSizesStep(v.edges, j);
      PendingWhole(v.edges[j].target);
      AfterChild(v, j, acc, Calc(v.edges[j].target, 0, gasImport, cost), gasImport, cost)
  }

  /** One turn of that loop, given what calcGas made of child `j`: add its
      gas and flag, then either cut the array after it or go on. */
  function AfterChild(v: Node, j: nat, acc: Gas, child: Result<Metered>, gasImport: nat, cost: CostFn): (r: Result<Metered>)
    requires j < |v.edges|
    ensures r.Ok? && v.kind != "array" ==> |r.value.tree.edges| == |v.edges|
    ensures r.Ok? ==> SameHead(r.value.tree, v) && |r.value.tree.edges| >= |v.edges|
    decreases Pending(v, j), 0
  {
    var c :- child;
    var acc' := Gas(acc.gas + c.result.gas, acc.branchPoint || c.result.branchPoint);
    var v' := ReplaceChild(v, j, c.tree);
    SuffixShrinks(v.edges, j, j + 1);
    if c.result.branchPoint && v.kind == "array" then
      var rest :- Transform(v', j + 1, gasImport, cost);
      Ok(Metered(acc', rest.tree))
    else
      CalcFrom(v', j + 1, acc', gasImport, cost)
  }

  /** meteringTransform(v, s). */
  function Transform(v: Node, s: nat, gasImport: nat, cost: CostFn): (r: Result<Metered>)
    requires ValidStart(v, s)
    ensures r.Ok? && v.kind != "array" ==> |r.value.tree.edges| == |v.edges|
    ensures r.Ok? ==> SameHead(r.value.tree, v) && |r.value.tree.edges| >= |v.edges|
    decreases Pending(v, s), 3
  {
    var c :- Calc(v, s, gasImport, cost);
    if c.result.gas == 0 then Ok(c)
    else
      var t :- AddGasCountBlock(c.result.gas, c.tree, s, gasImport);
      Ok(Metered(c.result, t))
  }

  // ---------------------------------------------------------------------
  // The pass as it runs.

  /** One turn of calcGas's loop: child `j` is walked, then handled. */
  lemma CalcFromStep(v: Node, j: nat, acc: Gas, gasImport: nat, cost: CostFn)
    requires j < |v.edges|
    ensures CalcFrom(v, j, acc, gasImport, cost) == AfterChild(v, j, acc, Calc(v.edges[j].target, 0, gasImport, cost), gasImport, cost)
  {
  }

  /** The start of calcGas on a vertex that is neither a loop nor an if. */
  lemma CalcOther(v: Node, s: nat, gasImport: nat, cost: CostFn)
    requires ValidStart(v, s) && v.kind != "loop" && v.kind != "if"
    ensures var own := cost(v);
      && (own.Err? ==> Calc(v, s, gasImport, cost) == Err(own.error))
      && (own.Ok? ==> Calc(v, s, gasImport, cost) == CalcFrom(v, s, Gas(own.value, v.isBranch), gasImport, cost))
  {
  }

  /** calcGas: dispatches on the kind of `v`. */
  method CalcGas(v: Node, s: nat, gasImport: nat, cost: CostFn) returns (r: Result<Metered>)
    requires ValidStart(v, s)
    ensures r == Calc(v, s, gasImport, cost)
    decreases Pending(v, s), 2
  {
    if v.kind == "loop" {
      r := MeterLoop(v, gasImport, cost);
    } else if v.kind == "if" {
      r := MeterIf(v, gasImport, cost);
    } else {
      r := SumChildren(v, s, gasImport, cost);
    }
  }

  method MeterLoop(v: Node, gasImport: nat, cost: CostFn) returns (r: Result<Metered>)
    requires v.kind == "loop"
    ensures r == CalcLoop(v, gasImport, cost)
    decreases Pending(v, 0), 1
  {
    var body := Lookup(v, "body");
    if body.None? {
      return Err(MissingEdge("body"));
    }
    LookupSmaller(v, "body");
    PendingWhole(v);
    PendingWhole(body.value);
    var inner := MeteringTransform(body.value, 0, gasImport, cost);
    if inner.Err? {
      return Err(inner.error);
    }
    var own := cost(v);
    if own.Err? {
      return Err(own.error);
    }
    return Ok(Metered(Gas(own.value, inner.value.result.branchPoint), Set(v, "body", inner.value.tree)));
  }

  method MeterIf(v: Node, gasImport: nat, cost: CostFn) returns (r: Result<Metered>)
    requires v.kind == "if"
    ensures r == CalcIf(v, gasImport, cost)
    decreases Pending(v, 0), 1
  {
    var arms := MeterArms(v, gasImport, cost);
    if arms.Err? {
      return Err(arms.error);
    }
    r := MeterTest(v, arms.value, gasImport, cost);
  }

  /** The test's gas and the if's own, once the arms are metered. */
  method MeterTest(v: Node, arms: Arms, gasImport: nat, cost: CostFn) returns (r: Result<Metered>)
    requires v.kind == "if" && SameHead(arms.tree, v) && |arms.tree.edges| == |v.edges|
    requires Lookup(arms.tree, "test") == Lookup(v, "test")
    ensures r == IfTest(v, arms, gasImport, cost)
    decreases Pending(v, 0), 0
  {
    var test := Lookup(v, "test");
    if test.None? {
      return Err(MissingEdge("test"));
    }
    LookupSmaller(v, "test");
    PendingWhole(test.value);
    var testMetered := CalcGas(test.value, 0, gasImport, cost);
    if testMetered.Err? {
      return Err(testMetered.error);
    }
    var own := cost(v);
    if own.Err? {
      return Err(own.error);
    }
    return Ok(Metered(Gas(testMetered.value.result.gas + own.value, arms.branchPoint),
                      Set(arms.tree, "test", testMetered.value.tree)));
  }

  /** Splits the if into its arms and meters each as a scope of its own. */
  method MeterArms(v: Node, gasImport: nat, cost: CostFn) returns (r: Result<Arms>)
    requires v.kind == "if"
    ensures r == IfArms(v, gasImport, cost)
    decreases Pending(v, 0), 0
  {
    var then0 := Lookup(v, "then");
    if then0.None? {
      return Err(MissingEdge("then"));
    }
    var thenArm := ThenArm(then0.value);
    var elseArm := ElseArm(then0.value, Lookup(v, "else"));
    ArmsSmaller(v);
    PendingWhole(v);
    PendingWhole(thenArm);
    var thenMetered := MeteringTransform(thenArm, 0, gasImport, cost);
    if thenMetered.Err? {
      return Err(thenMetered.error);
    }
    var hasBranch := thenMetered.value.result.branchPoint;
    var vertex := Set(v, "then", thenMetered.value.tree);
    LookupAfterSet(v, "then", thenMetered.value.tree, "else");
    if elseArm.Some? {
      PendingWhole(elseArm.value);
      var elseMetered := MeteringTransform(elseArm.value, 0, gasImport, cost);
      if elseMetered.Err? {
        return Err(elseMetered.error);
      }
      // the else arm's result does not reach the flag
      vertex := Set(vertex, "else", elseMetered.value.tree);
    }
    return Ok(Arms(hasBranch, vertex));
  }

  /** One turn of calcGas's loop: either the walk of `v` is over (a child
      failed, or a branch point cut the array and the rest was metered), or
      it goes on from the next child with the updated vertex and sum. */
  datatype Step = Done(r: Result<Metered>) | Continue(vertex: Node, acc: Gas)

  /** The loop of calcGas over the children from `s` on: sums their gas and
      flags, and cuts an array after the first child that is a branch point. */
  method SumChildren(v: Node, s: nat, gasImport: nat, cost: CostFn) returns (r: Result<Metered>)
    requires ValidStart(v, s) && v.kind != "loop" && v.kind != "if"
    ensures r == Calc(v, s, gasImport, cost)
    decreases Pending(v, s), 1
  {
    CalcOther(v, s, gasImport, cost);
    var own := cost(v);
    if own.Err? {
      return Err(own.error);
    }
    var acc := Gas(own.value, v.isBranch);
    ghost var goal := CalcFrom(v, s, acc, gasImport, cost);
    var vertex := v;
    var j := s;
    while j < |vertex.edges|
      invariant s <= j <= |vertex.edges| == |v.edges|
      invariant SameHead(vertex, v)
      invariant vertex.edges[j..] == v.edges[j..]
      invariant CalcFrom(vertex, j, acc, gasImport, cost) == goal
      decreases |vertex.edges| - j
    {
      SuffixNoHeavier(v, s, j);
      var step := MeterChild(vertex, j, acc, gasImport, cost);
      if step.Done? {
        return step.r;
      }
      assert step.vertex.edges[j + 1..] == v.edges[j + 1..] by {
        assert v.edges[j + 1..] == v.edges[j..][1..];
      }
      vertex, acc := step.vertex, step.acc;
      j := j + 1;
    }
    return Ok(Metered(acc, vertex));
  }

  lemma SuffixNoHeavier(v: Node, s: nat, j: nat)
    requires s <= j <= |v.edges|
    ensures SumSizes(v.edges[j..]) <= SumSizes(v.edges[s..])
  {
    if s < j {
      SuffixShrinks(v.edges, s, j);
    }
  }

  /** The body of calcGas's loop for child `j` of `v`. */
  method MeterChild(v: Node, j: nat, acc: Gas, gasImport: nat, cost: CostFn) returns (step: Step)
    requires j < |v.edges|
    ensures step.Done? ==> step.r == CalcFrom(v, j, acc, gasImport, cost)
    ensures step.Continue? ==>
      && SameHead(step.vertex, v) && |step.vertex.edges| == |v.edges|
      && step.vertex.edges[j + 1..] == v.edges[j + 1..]
      && CalcFrom(step.vertex, j + 1, step.acc, gasImport, cost) == CalcFrom(v, j, acc, gasImport, cost)
    decreases Pending(v, j), 0
  {
    SumSizesStep(v.edges, j);
    PendingWhole(v.edges[j].target);
    CalcFromStep(v, j, acc, gasImport, cost);
    var c := CalcGas(v.edges[j].target, 0, gasImport, cost);
    if c.Err? {
      return Done(Err(c.error));
    }
    var acc' := Gas(acc.gas + c.value.result.gas, acc.branchPoint || c.value.result.branchPoint);
    var next := ReplaceChild(v, j, c.value.tree);
    SuffixShrinks(v.edges, j, j + 1);
    if c.value.result.branchPoint && v.kind == "array" {
      // a branch point ends this run: the rest of the array is metered on its own
      var rest := MeteringTransform(next, j + 1, gasImport, cost);
      if rest.Err? {
        return Done(Err(rest.error));
      }
      return Done(Ok(Metered(acc', rest.value.tree)));
    }
    return Continue(next, acc');
  }

  /** meteringTransform: calcGas, then one charge for the gas found, at `s`. */
  method MeteringTransform(v: Node, s: nat, gasImport: nat, cost: CostFn) returns (r: Result<Metered>)
    requires ValidStart(v, s)
    ensures r == Transform(v, s, gasImport, cost)
    decreases Pending(v, s), 3
  {
    r := CalcGas(v, s, gasImport, cost);
    if r.Ok? && r.value.result.gas != 0 {
      var t := AddGasCountBlock(r.value.result.gas, r.value.tree, s, gasImport);
      if t.Err? {
        return Err(t.error);
      }
      r := Ok(Metered(r.value.result, t.value));
    }
  }
}

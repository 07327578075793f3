/**
 * What the metering pass does, stated against definitions that do not walk
 * the tree the way the pass does:
 *
 * - a subtree with no loop, no `if` and no statement list is left as it is,
 *   and costs the sum of its vertices' costs;
 * - a statement list is split into runs, each ending just after its first
 *   branch point, and every run is charged once, at its start, with the
 *   list's own cost plus the gas of its statements;
 * - a loop costs only itself, and its body is metered as a run of its own;
 * - an `if` costs its test and itself, its branch flag is the `then` arm's,
 *   and its `else` arm, metered or not, changes neither.
 */
module MeteringLaws {
  import opened Ast
  import opened Injector
  import opened Metering

  // ---------------------------------------------------------------------
  // Straight-line subtrees.

  /** A subtree with no loop, no `if` and no statement list anywhere in it:
      nothing in it is metered as a scope of its own. */
  predicate Flat(n: Node)
    decreases n
  {
    && n.kind != "loop" && n.kind != "if" && n.kind != "array"
    && forall i :: 0 <= i < |n.edges| ==> Flat(n.edges[i].target)
  }

  /** The cost of every vertex of a subtree, summed, in the order the walk
      meets them: the vertex itself, then its children left to right. */
  function TotalCost(n: Node, cost: CostFn): Result<nat>
    decreases n, |n.edges| + 1
  {
    var own :- cost(n);
    var rest :- TotalFrom(n, 0, cost);
    Ok(own + rest)
  }

  function TotalFrom(n: Node, j: nat, cost: CostFn): Result<nat>
    requires j <= |n.edges|
    decreases n, |n.edges| - j
  {
    if j == |n.edges| then Ok(0)
    else
      var c :- TotalCost(n.edges[j].target, cost);
      var r :- TotalFrom(n, j + 1, cost);
      Ok(c + r)
  }

  /** Whether any vertex of a subtree is a branch. */
  predicate AnyBranch(n: Node)
    decreases n, |n.edges| + 1
  {
    n.isBranch || AnyBranchFrom(n, 0)
  }

  predicate AnyBranchFrom(n: Node, j: nat)
    requires j <= |n.edges|
    decreases n, |n.edges| - j
  {
    j < |n.edges| && (AnyBranch(n.edges[j].target) || AnyBranchFrom(n, j + 1))
  }

  /** The walk's answer for a flat subtree, as the sums above give it. */
  function FlatResult(v: Node, total: Result<nat>, branch: bool): Result<Metered> {
    match total
    case Err(e) => Err(e)
    case Ok(g) => Ok(Metered(Gas(g, branch), v))
  }

  /**
   * A flat subtree is walked without being changed: calcGas returns it as it
   * was, with the sum of its vertices' costs and whether any of them is a
   * branch, or the first error in walk order.
   */
  lemma {:induction false} FlatCalc(v: Node, gasImport: nat, cost: CostFn)
    requires Flat(v)
    ensures Calc(v, 0, gasImport, cost) == FlatResult(v, TotalCost(v, cost), AnyBranch(v))
    decreases v, |v.edges| + 1
  {
    var own := cost(v);
    if own.Ok? {
      FlatCalcFrom(v, 0, Gas(own.value, v.isBranch), gasImport, cost);
    }
  }

  lemma {:induction false} FlatCalcFrom(v: Node, j: nat, acc: Gas, gasImport: nat, cost: CostFn)
    requires Flat(v) && j <= |v.edges|
    ensures CalcFrom(v, j, acc, gasImport, cost)
      == match TotalFrom(v, j, cost)
         case Err(e) => Err(e)
         case Ok(t) => Ok(Metered(Gas(acc.gas + t, acc.branchPoint || AnyBranchFrom(v, j)), v))
    decreases v, |v.edges| - j
  {
    if j < |v.edges| {
      var child := v.edges[j].target;
      FlatCalc(child, gasImport, cost);
      var c := Calc(child, 0, gasImport, cost);
      if c.Ok? {
        assert ReplaceChild(v, j, child) == v;
        var acc' := Gas(acc.gas + c.value.result.gas, acc.branchPoint || c.value.result.branchPoint);
        FlatCalcFrom(v, j + 1, acc', gasImport, cost);
      }
    }
  }

  // ---------------------------------------------------------------------
  // Statement lists: runs cut after each branch point.

  /** `ms` is what calcGas makes of each edge's child, walked from its
      start: it succeeds on every one of them. */
  predicate WalksTo(es: seq<Edge>, ms: seq<Metered>, gasImport: nat, cost: CostFn) {
    |es| == |ms| && forall i :: 0 <= i < |es| ==> Calc(es[i].target, 0, gasImport, cost) == Ok(ms[i])
  }

  /** The cost function prices every vertex with the head of `w` at `a`, as
      the gas table does, since it reads only a vertex's kind and payload. */
  ghost predicate PricedAs(w: Node, cost: CostFn, a: nat) {
    forall x :: SameHead(x, w) ==> cost(x) == Ok(a)
  }

  /** The gas of a run: the statements' gas up to and including the first
      one that reports a branch point, or all of them when none does. */
  function RunGas(ms: seq<Metered>): nat {
    if ms == [] then 0
    else ms[0].result.gas + (if ms[0].result.branchPoint then 0 else RunGas(ms[1..]))
  }

  /** The gas of all the statements. */
  function SumGas(ms: seq<Metered>): nat {
    if ms == [] then 0 else ms[0].result.gas + SumGas(ms[1..])
  }

  /** Whether some statement reports a branch point. */
  predicate HasBranch(ms: seq<Metered>) {
    ms != [] && (ms[0].result.branchPoint || HasBranch(ms[1..]))
  }

  /** The statements as calcGas leaves them, under their edge names. */
  function Children(es: seq<Edge>, ms: seq<Metered>): seq<Edge>
    requires |es| == |ms|
  {
    if es == [] then [] else [Edge(es[0].name, ms[0].tree)] + Children(es[1..], ms[1..])
  }

  /** The charge call for `amount`, or nothing when the amount is zero. */
  function Charge(amount: nat, gasImport: nat): seq<Edge> {
    if amount == 0 then [] else [Edge("", ChargeNode(amount, gasImport))]
  }

  /**
   * A statement list after metering: a charge at the head of every run, for
   * the list's own cost `a` plus the run's gas. A list that ends with a
   * branch point is followed by one more, empty, run, which is charged `a`.
   */
  function Runs(es: seq<Edge>, ms: seq<Metered>, a: nat, gasImport: nat): seq<Edge>
    requires |es| == |ms|
    decreases |es|, 1
  {
    Charge(a + RunGas(ms), gasImport) + RunTail(es, ms, a, gasImport)
  }

  /** The statements of the first run, then the runs after it. */
  function RunTail(es: seq<Edge>, ms: seq<Metered>, a: nat, gasImport: nat): seq<Edge>
    requires |es| == |ms|
    decreases |es|, 0
  {
    if es == [] then []
    else [Edge(es[0].name, ms[0].tree)]
         + (if ms[0].result.branchPoint then Runs(es[1..], ms[1..], a, gasImport)
            else RunTail(es[1..], ms[1..], a, gasImport))
  }

  /**
   * meteringTransform on a statement list from position `j`: the statements
   * before `j` stay as they are, the rest are metered and grouped into
   * runs, each with its charge in front. The result is the first run's gas
   * (the list's own cost included) and the flag of the list and its
   * statements.
   */
  lemma {:induction false} TransformRuns(w: Node, j: nat, ms: seq<Metered>, a: nat, gasImport: nat, cost: CostFn)
    requires w.kind == "array" && PricedAs(w, cost, a)
    requires j <= |w.edges| && WalksTo(w.edges[j..], ms, gasImport, cost)
    ensures Transform(w, j, gasImport, cost)
      == Ok(Metered(Gas(a + RunGas(ms), w.isBranch || HasBranch(ms)),
                    w.(edges := w.edges[..j] + Runs(w.edges[j..], ms, a, gasImport))))
    decreases |w.edges| - j, 1
  {
    var es := w.edges[j..];
    assert SameHead(w, w);
    RunFrom(w, j, Gas(a, w.isBranch), ms, a, gasImport, cost);
    var tail := RunTail(es, ms, a, gasImport);
    var tree := w.(edges := w.edges[..j] + tail);
    var g := a + RunGas(ms);
    assert Calc(w, j, gasImport, cost) == Ok(Metered(Gas(g, w.isBranch || HasBranch(ms)), tree));
    if g != 0 {
      var charge := Edge("", ChargeNode(g, gasImport));
      assert tree.edges[..j] == w.edges[..j] && tree.edges[j..] == tail;
      assert AddGasCountBlock(g, tree, j, gasImport) == Ok(InsertAt(tree, j, charge));
      assert Runs(es, ms, a, gasImport) == [charge] + tail;
      assert w.edges[..j] + ([charge] + tail) == tree.edges[..j] + [charge] + tree.edges[j..];
    } else {
      assert Runs(es, ms, a, gasImport) == tail;
    }
  }

  /** What calcGas's loop over a statement list yields from position `j`
      on, with `acc` summed so far: the first run's gas is added, and the
      later runs are metered in place. */
  function RunResult(w: Node, j: nat, acc: Gas, ms: seq<Metered>, a: nat, gasImport: nat): Result<Metered>
    requires j <= |w.edges| && |ms| == |w.edges| - j
  {
    Ok(Metered(Gas(acc.gas + RunGas(ms), acc.branchPoint || HasBranch(ms)),
               w.(edges := w.edges[..j] + RunTail(w.edges[j..], ms, a, gasImport))))
  }

  lemma {:induction false} RunFrom(w: Node, j: nat, acc: Gas, ms: seq<Metered>, a: nat, gasImport: nat, cost: CostFn)
    requires w.kind == "array" && PricedAs(w, cost, a)
    requires j <= |w.edges| && WalksTo(w.edges[j..], ms, gasImport, cost)
    ensures CalcFrom(w, j, acc, gasImport, cost) == RunResult(w, j, acc, ms, a, gasImport)
    decreases |w.edges| - j, 0
  {
    if j == |w.edges| {
      assert ms == [] && w.edges[..j] == w.edges && w.edges[j..] == [];
      assert w.(edges := w.edges[..j] + []) == w;
      assert CalcFrom(w, j, acc, gasImport, cost) == Ok(Metered(acc, w));
    } else {
      var w' := ReplaceChild(w, j, ms[0].tree);
      var acc' := Gas(acc.gas + ms[0].result.gas, acc.branchPoint || ms[0].result.branchPoint);
      Walked(w, j, ms, gasImport, cost);
      forall x | SameHead(x, w') ensures cost(x) == Ok(a) {
        assert SameHead(x, w);
      }
      if ms[0].result.branchPoint {
        TransformRuns(w', j + 1, ms[1..], a, gasImport, cost);
        RunCut(w, j, acc, ms, a, gasImport, cost);
      } else {
        RunFrom(w', j + 1, acc', ms[1..], a, gasImport, cost);
        RunGoesOn(w, j, acc, ms, a, gasImport, cost);
      }
    }
  }

  /** One turn of calcGas's loop, seen from the statement list: child `j`
      is walked to `ms[0]`, and what is left to walk is walked to the rest. */
  lemma Walked(w: Node, j: nat, ms: seq<Metered>, gasImport: nat, cost: CostFn)
    requires j < |w.edges| && WalksTo(w.edges[j..], ms, gasImport, cost)
    ensures forall acc :: CalcFrom(w, j, acc, gasImport, cost) == AfterChild(w, j, acc, Ok(ms[0]), gasImport, cost)
    ensures WalksTo(ReplaceChild(w, j, ms[0].tree).edges[j + 1..], ms[1..], gasImport, cost)
  {
    assert w.edges[j..][0] == w.edges[j];
    forall acc ensures CalcFrom(w, j, acc, gasImport, cost) == AfterChild(w, j, acc, Ok(ms[0]), gasImport, cost) {
      CalcFromStep(w, j, acc, gasImport, cost);
    }
    var rest := ReplaceChild(w, j, ms[0].tree).edges[j + 1..];
    assert rest == w.edges[j..][1..];
    forall i | 0 <= i < |rest| ensures Calc(rest[i].target, 0, gasImport, cost) == Ok(ms[1..][i]) {
      assert rest[i] == w.edges[j..][i + 1];
    }
  }

  /** A statement that reports a branch point ends the run; the rest of the
      list is metered as runs of its own. */
  lemma RunCut(w: Node, j: nat, acc: Gas, ms: seq<Metered>, a: nat, gasImport: nat, cost: CostFn)
    requires w.kind == "array" && j < |w.edges| && |ms| == |w.edges| - j
    requires ms[0].result.branchPoint
    requires var w' := ReplaceChild(w, j, ms[0].tree);
      && Transform(w', j + 1, gasImport, cost).Ok?
      && Transform(w', j + 1, gasImport, cost).value.tree
         == w'.(edges := w'.edges[..j + 1] + Runs(w.edges[j + 1..], ms[1..], a, gasImport))
    ensures AfterChild(w, j, acc, Ok(ms[0]), gasImport, cost) == RunResult(w, j, acc, ms, a, gasImport)
  {
    NextStatement(w.edges, j, ms[0].tree, Runs(w.edges[j + 1..], ms[1..], a, gasImport));
  }

  /** A statement without a branch point adds its gas and the run goes on. */
  lemma RunGoesOn(w: Node, j: nat, acc: Gas, ms: seq<Metered>, a: nat, gasImport: nat, cost: CostFn)
    requires w.kind == "array" && j < |w.edges| && |ms| == |w.edges| - j
    requires !ms[0].result.branchPoint
    requires var w' := ReplaceChild(w, j, ms[0].tree);
      var acc' := Gas(acc.gas + ms[0].result.gas, acc.branchPoint);
      CalcFrom(w', j + 1, acc', gasImport, cost) == RunResult(w', j + 1, acc', ms[1..], a, gasImport)
    ensures AfterChild(w, j, acc, Ok(ms[0]), gasImport, cost) == RunResult(w, j, acc, ms, a, gasImport)
  {
    NextStatement(w.edges, j, ms[0].tree, RunTail(w.edges[j + 1..], ms[1..], a, gasImport));
  }

  /** Replacing the statement at `j` and moving it from the list's suffix to
      its prefix. */
  lemma NextStatement(es: seq<Edge>, j: nat, t: Node, after: seq<Edge>)
    requires j < |es|
    ensures es[j..][0] == es[j] && es[j..][1..] == es[j + 1..]
    ensures es[j := Edge(es[j].name, t)][..j + 1] + after == es[..j] + ([Edge(es[j].name, t)] + after)
    ensures es[j := Edge(es[j].name, t)][j + 1..] == es[j + 1..]
  {
    assert es[j := Edge(es[j].name, t)][..j + 1] == es[..j] + [Edge(es[j].name, t)];
  }

  /** calcGas on a statement list from its start: the first run's gas and
      the list's flag; the list's statements are metered and grouped into
      runs, the first without a charge of its own. */
  lemma ArrayCalc(w: Node, ms: seq<Metered>, a: nat, gasImport: nat, cost: CostFn)
    requires w.kind == "array" && PricedAs(w, cost, a) && WalksTo(w.edges, ms, gasImport, cost)
    ensures Calc(w, 0, gasImport, cost)
      == Ok(Metered(Gas(a + RunGas(ms), w.isBranch || HasBranch(ms)), w.(edges := RunTail(w.edges, ms, a, gasImport))))
  {
    assert SameHead(w, w);
    assert w.edges[0..] == w.edges && w.edges[..0] == [];
    CalcOther(w, 0, gasImport, cost);
    RunFrom(w, 0, Gas(a, w.isBranch), ms, a, gasImport, cost);
    var tail := RunTail(w.edges, ms, a, gasImport);
    assert w.edges[..0] + RunTail(w.edges[0..], ms, a, gasImport) == tail;
  }

  /** A list in which no statement reports a branch point is one run: one
      charge at its head for the list's cost and all its statements' gas. */
  lemma {:induction false} StraightLine(es: seq<Edge>, ms: seq<Metered>, a: nat, gasImport: nat)
    requires |es| == |ms| && !HasBranch(ms)
    ensures RunGas(ms) == SumGas(ms)
    ensures RunTail(es, ms, a, gasImport) == Children(es, ms)
    ensures Runs(es, ms, a, gasImport) == Charge(a + SumGas(ms), gasImport) + Children(es, ms)
  {
    if es != [] {
      StraightLine(es[1..], ms[1..], a, gasImport);
    }
  }

  // ---------------------------------------------------------------------
  // Any other vertex: its children are walked in order, without cuts.

  lemma {:induction false} CalcFromAll(v: Node, j: nat, acc: Gas, ms: seq<Metered>, gasImport: nat, cost: CostFn)
    requires v.kind != "array" && j <= |v.edges| && WalksTo(v.edges[j..], ms, gasImport, cost)
    ensures CalcFrom(v, j, acc, gasImport, cost)
      == Ok(Metered(Gas(acc.gas + SumGas(ms), acc.branchPoint || HasBranch(ms)),
                    v.(edges := v.edges[..j] + Children(v.edges[j..], ms))))
    decreases |v.edges| - j
  {
    if j == |v.edges| {
      assert ms == [] && v.edges[..j] == v.edges && v.edges[j..] == [];
      assert v.(edges := v.edges[..j] + []) == v;
      assert CalcFrom(v, j, acc, gasImport, cost) == Ok(Metered(acc, v));
    } else {
      var v' := ReplaceChild(v, j, ms[0].tree);
      var acc' := Gas(acc.gas + ms[0].result.gas, acc.branchPoint || ms[0].result.branchPoint);
      Walked(v, j, ms, gasImport, cost);
      CalcFromAll(v', j + 1, acc', ms[1..], gasImport, cost);
      NextStatement(v.edges, j, ms[0].tree, Children(v.edges[j + 1..], ms[1..]));
    }
  }

  /**
   * calcGas on a vertex that is neither a loop, an if nor a statement list,
   * such as a `func` or a call: its own cost plus all its children's gas,
   * its own branch flag or any child's, and each child replaced by what
   * calcGas made of it.
   */
  lemma CalcComposite(v: Node, own: nat, ms: seq<Metered>, gasImport: nat, cost: CostFn)
    requires v.kind != "array" && v.kind != "loop" && v.kind != "if"
    requires cost(v) == Ok(own) && WalksTo(v.edges, ms, gasImport, cost)
    ensures Calc(v, 0, gasImport, cost)
      == Ok(Metered(Gas(own + SumGas(ms), v.isBranch || HasBranch(ms)), v.(edges := Children(v.edges, ms))))
  {
    assert v.edges[0..] == v.edges && v.edges[..0] == [];
    CalcOther(v, 0, gasImport, cost);
    CalcFromAll(v, 0, Gas(own, v.isBranch), ms, gasImport, cost);
    assert v.edges[..0] + Children(v.edges[0..], ms) == Children(v.edges, ms);
  }


  lemma {:induction false} ChildrenAt(es: seq<Edge>, ms: seq<Metered>)
    requires |es| == |ms|
    ensures |Children(es, ms)| == |es|
    ensures forall i :: 0 <= i < |es| ==> Children(es, ms)[i] == Edge(es[i].name, ms[i].tree)
  {
    if es != [] {
      ChildrenAt(es[1..], ms[1..]);
    }
  }

  /** A statement the lookup can price, with nothing in it metered apart. */
  predicate Priced(n: Node, cost: CostFn) {
    Flat(n) && TotalCost(n, cost).Ok?
  }

  predicate AllPriced(es: seq<Edge>, cost: CostFn) {
    forall i :: 0 <= i < |es| ==> Priced(es[i].target, cost)
  }

  /** Flat statements are walked to themselves, with their summed cost and
      branch flag. */
  function FlatWalk(es: seq<Edge>, cost: CostFn): (ms: seq<Metered>)
    requires AllPriced(es, cost)
    ensures |ms| == |es|
  {
    if es == [] then []
    else [Metered(Gas(TotalCost(es[0].target, cost).value, AnyBranch(es[0].target)), es[0].target)]
         + FlatWalk(es[1..], cost)
  }

  lemma {:induction false} FlatWalks(es: seq<Edge>, gasImport: nat, cost: CostFn)
    requires AllPriced(es, cost)
    ensures WalksTo(es, FlatWalk(es, cost), gasImport, cost)
    ensures Children(es, FlatWalk(es, cost)) == es
  {
    if es != [] {
      FlatCalc(es[0].target, gasImport, cost);
      FlatWalks(es[1..], gasImport, cost);
      var ms := FlatWalk(es, cost);
      forall i | 0 <= i < |es| ensures Calc(es[i].target, 0, gasImport, cost) == Ok(ms[i]) {
        if i > 0 {
          assert es[i] == es[1..][i - 1] && ms[i] == ms[1..][i - 1];
        }
      }
      assert [Edge(es[0].name, es[0].target)] + es[1..] == es;
    }
  }

  // ---------------------------------------------------------------------
  // meteringTransform: one charge, at the start, for the gas found.

  /**
   * meteringTransform(v, s) returns calcGas's result unchanged. When the gas
   * is zero it changes nothing more; otherwise it inserts exactly one charge,
   * carrying that gas, at position `s` of the vertex (a statement list) or of
   * its body, and fails as a missing body when there is neither.
   */
  lemma ChargeAtStart(v: Node, s: nat, gasImport: nat, cost: CostFn)
    requires ValidStart(v, s)
    ensures var c := Calc(v, s, gasImport, cost);
      var t := Transform(v, s, gasImport, cost);
      && (c.Err? ==> t == c)
      && (c.Ok? && c.value.result.gas == 0 ==> t == c)
      && (c.Ok? && c.value.result.gas != 0 ==>
            && (t.Ok? <==> HasChargeSlot(c.value.tree))
            && (t.Err? ==> t.error == MissingEdge("body"))
            && (t.Ok? ==>
                  && t.value.result == c.value.result
                  && SameHead(t.value.tree, v)
                  && ChargeSlot(t.value.tree)[s] == Edge("", ChargeNode(c.value.result.gas, gasImport))
                  && ChargeAmount(ChargeSlot(t.value.tree)[s].target) == Some(c.value.result.gas as int)
                  && ChargeSlot(t.value.tree)[..s] + ChargeSlot(t.value.tree)[s + 1..] == ChargeSlot(c.value.tree)
                  && (v.kind != "array" ==>
                        && |t.value.tree.edges| == |c.value.tree.edges|
                        && (forall i :: 0 <= i < |c.value.tree.edges| && c.value.tree.edges[i].name != "body" ==>
                              t.value.tree.edges[i] == c.value.tree.edges[i])
                        && SameHead(Lookup(t.value.tree, "body").value, Lookup(c.value.tree, "body").value))))
  {
    var c := Calc(v, s, gasImport, cost);
    if c.Ok? && c.value.result.gas != 0 {
      ChargeCarriesAmount(c.value.result.gas, gasImport);
    }
  }

  /**
   * meteringTransform on a vertex such as a `func`, whose statements sit in
   * a list under `body`: one charge, for its own cost and all its children's
   * gas (the body's first run among them), goes to the head of the body,
   * and the body's later runs carry charges of their own.
   */
  lemma MeteredBody(v: Node, own: nat, ms: seq<Metered>, w: Node, ns: seq<Metered>, a: nat, gasImport: nat, cost: CostFn)
    requires v.kind != "array" && v.kind != "loop" && v.kind != "if"
    requires cost(v) == Ok(own) && WalksTo(v.edges, ms, gasImport, cost)
    requires Lookup(v, "body") == Some(w) && w.kind == "array"
    requires PricedAs(w, cost, a) && WalksTo(w.edges, ns, gasImport, cost)
    ensures ms[FindEdge(v.edges, "body").value].result == Gas(a + RunGas(ns), w.isBranch || HasBranch(ns))
    ensures var t := Transform(v, 0, gasImport, cost);
      && t.Ok? && t.value.result == Gas(own + SumGas(ms), v.isBranch || HasBranch(ms))
      && Lookup(t.value.tree, "body").Some?
      && Lookup(t.value.tree, "body").value.edges == Charge(own + SumGas(ms), gasImport) + RunTail(w.edges, ns, a, gasImport)
  {
    BodyWalk(v, own, ms, w, ns, a, gasImport, cost);
    ChargeToBody(v, own + SumGas(ms), v.isBranch || HasBranch(ms), v.(edges := Children(v.edges, ms)),
                 RunTail(w.edges, ns, a, gasImport), gasImport, cost);
  }


  /** calcGas on such a vertex: its children walked in order, and its body
      metered into runs, the first without a charge of its own. */
  lemma BodyWalk(v: Node, own: nat, ms: seq<Metered>, w: Node, ns: seq<Metered>, a: nat, gasImport: nat, cost: CostFn)
    requires v.kind != "array" && v.kind != "loop" && v.kind != "if"
    requires cost(v) == Ok(own) && WalksTo(v.edges, ms, gasImport, cost)
    requires Lookup(v, "body") == Some(w) && w.kind == "array"
    requires PricedAs(w, cost, a) && WalksTo(w.edges, ns, gasImport, cost)
    ensures ms[FindEdge(v.edges, "body").value].result == Gas(a + RunGas(ns), w.isBranch || HasBranch(ns))
    ensures var tree := v.(edges := Children(v.edges, ms));
      && Calc(v, 0, gasImport, cost) == Ok(Metered(Gas(own + SumGas(ms), v.isBranch || HasBranch(ms)), tree))
      && Lookup(tree, "body").Some? && Lookup(tree, "body").value.edges == RunTail(w.edges, ns, a, gasImport)
  {
    var k := FindEdge(v.edges, "body").value;
    ArrayCalc(w, ns, a, gasImport, cost);
    assert Calc(v.edges[k].target, 0, gasImport, cost) == Ok(ms[k]);
    CalcComposite(v, own, ms, gasImport, cost);
    BodyAfterWalk(v, ms);
  }


  /** meteringTransform on a vertex with a body: calcGas's result, and the
      charge for its gas, if any, at the head of the body. */
  lemma ChargeToBody(v: Node, amount: nat, branch: bool, tree: Node, walked: seq<Edge>, gasImport: nat, cost: CostFn)
    requires v.kind != "array" && Calc(v, 0, gasImport, cost) == Ok(Metered(Gas(amount, branch), tree))
    requires Lookup(tree, "body").Some? && Lookup(tree, "body").value.edges == walked
    ensures Transform(v, 0, gasImport, cost).Ok?
    ensures Transform(v, 0, gasImport, cost).value.result == Gas(amount, branch)
    ensures Lookup(Transform(v, 0, gasImport, cost).value.tree, "body").Some?
    ensures Lookup(Transform(v, 0, gasImport, cost).value.tree, "body").value.edges == Charge(amount, gasImport) + walked
  {
    var c := Metered(Gas(amount, branch), tree);
    if amount == 0 {
      assert Transform(v, 0, gasImport, cost) == Ok(c);
    } else {
      var r := AddGasCountBlock(amount, tree, 0, gasImport);
      assert r.Ok? && Transform(v, 0, gasImport, cost) == Ok(Metered(c.result, r.value));
      var slot := ChargeSlot(r.value);
      assert slot == [slot[0]] + slot[1..];
    }
  }



  /** After the walk, the `body` edge leads to what calcGas made of the body. */
  lemma BodyAfterWalk(v: Node, ms: seq<Metered>)
    requires |v.edges| == |ms| && Lookup(v, "body").Some?
    ensures Lookup(v.(edges := Children(v.edges, ms)), "body") == Some(ms[FindEdge(v.edges, "body").value].tree)
  {
    var tree := v.(edges := Children(v.edges, ms));
    ChildrenAt(v.edges, ms);
    FindEdgeByNames(v.edges, tree.edges, "body");
  }

  // ---------------------------------------------------------------------
  // Loops and ifs.

  /**
   * A loop that is metered without error: its body is meteringTransform'ed
   * as a scope of its own, and the loop costs only its own gas and reports
   * its body's branch flag.
   */
  lemma LoopResult(v: Node, gasImport: nat, cost: CostFn)
    requires v.kind == "loop" && Calc(v, 0, gasImport, cost).Ok?
    ensures Lookup(v, "body").Some? && cost(v).Ok?
    ensures var body := Transform(Lookup(v, "body").value, 0, gasImport, cost);
      && body.Ok?
      && Calc(v, 0, gasImport, cost)
         == Ok(Metered(Gas(cost(v).value, body.value.result.branchPoint), Set(v, "body", body.value.tree)))
  {
    assert Calc(v, 0, gasImport, cost) == CalcLoop(v, gasImport, cost);
  }

  /**
   * A loop whose body is a statement list: the loop costs only its own gas
   * and takes the body's flag, and its body's statements are metered and
   * grouped into runs, each with its charge in front.
   */
  lemma LoopRuns(v: Node, w: Node, ms: seq<Metered>, a: nat, gasImport: nat, cost: CostFn)
    requires v.kind == "loop" && cost(v).Ok?
    requires Lookup(v, "body") == Some(w) && w.kind == "array"
    requires PricedAs(w, cost, a) && WalksTo(w.edges, ms, gasImport, cost)
    ensures Calc(v, 0, gasImport, cost)
      == Ok(Metered(Gas(cost(v).value, w.isBranch || HasBranch(ms)),
                    Set(v, "body", w.(edges := Runs(w.edges, ms, a, gasImport)))))
  {
    assert w.edges[0..] == w.edges && w.edges[..0] == [];
    TransformRuns(w, 0, ms, a, gasImport, cost);
  }

  /**
   * An `if` that is metered without error: its `then` arm (wrapped when it
   * is a bare statement) is metered as a scope of its own, and the if's gas
   * is its test's gas plus its own, with the `then` arm's branch flag.
   */
  lemma IfResult(v: Node, gasImport: nat, cost: CostFn)
    requires v.kind == "if" && Calc(v, 0, gasImport, cost).Ok?
    ensures Lookup(v, "then").Some? && Lookup(v, "test").Some? && cost(v).Ok?
    ensures var arm := Transform(ThenArm(Lookup(v, "then").value), 0, gasImport, cost);
      var test := Calc(Lookup(v, "test").value, 0, gasImport, cost);
      && arm.Ok? && test.Ok?
      && Calc(v, 0, gasImport, cost).value.result
         == Gas(test.value.result.gas + cost(v).value, arm.value.result.branchPoint)
  {
    assert Calc(v, 0, gasImport, cost) == CalcIf(v, gasImport, cost);
  }

  /**
   * The gas of an `if` is its test's gas and its own, whatever its arms; its
   * branch flag is the `then` arm's, so two ifs that differ only in their
   * `else` arm give the same result.
   */
  lemma IfIgnoresArms(v: Node, w: Node, mv: Metered, mw: Metered, gasImport: nat, cost: CostFn)
    requires v.kind == "if" && w.kind == "if" && cost(v) == cost(w)
    requires Lookup(v, "test") == Lookup(w, "test")
    requires Calc(v, 0, gasImport, cost) == Ok(mv) && Calc(w, 0, gasImport, cost) == Ok(mw)
    ensures mv.result.gas == mw.result.gas
    ensures Lookup(v, "then") == Lookup(w, "then") ==> mv.result == mw.result
  {
    IfResult(v, gasImport, cost);
    IfResult(w, gasImport, cost);
  }

  /**
   * The arms of an `if`, after metering: the `then` arm, wrapped into a
   * `then` block when it was a bare statement, is meteringTransform'ed as a
   * scope of its own; so is the `else` arm when there is one, wrapped only
   * when `then` was already a block.
   */
  lemma ArmsTree(v: Node, gasImport: nat, cost: CostFn)
    requires v.kind == "if" && IfArms(v, gasImport, cost).Ok?
    ensures Lookup(v, "then").Some?
    ensures var then0 := Lookup(v, "then").value;
      var arm := Transform(ThenArm(then0), 0, gasImport, cost);
      var els := ElseArm(then0, Lookup(v, "else"));
      var out := IfArms(v, gasImport, cost).value.tree;
      && arm.Ok? && Lookup(out, "then") == Some(arm.value.tree)
      && (els.Some? ==> Transform(els.value, 0, gasImport, cost).Ok?
                        && Lookup(out, "else") == Some(Transform(els.value, 0, gasImport, cost).value.tree))
      && (els.None? ==> Lookup(out, "else") == None)
  {
    var then0 := Lookup(v, "then").value;
    var arm := Transform(ThenArm(then0), 0, gasImport, cost).value;
    var v1 := Set(v, "then", arm.tree);
    LookupAfterSet(v, "then", arm.tree, "else");
    var els := ElseArm(then0, Lookup(v, "else"));
    if els.Some? {
      var e := Transform(els.value, 0, gasImport, cost).value;
      LookupAfterSet(v1, "else", e.tree, "then");
    }
  }

  /**
   * An `if` that is metered without error keeps its arms where they were,
   * each metered as in ArmsTree, and its test replaced by what calcGas made
   * of it.
   */
  lemma IfTree(v: Node, gasImport: nat, cost: CostFn)
    requires v.kind == "if" && Calc(v, 0, gasImport, cost).Ok?
    ensures IfArms(v, gasImport, cost).Ok? && Lookup(v, "test").Some?
    ensures var out := Calc(v, 0, gasImport, cost).value.tree;
      var arms := IfArms(v, gasImport, cost).value.tree;
      var test := Calc(Lookup(v, "test").value, 0, gasImport, cost);
      && test.Ok? && Lookup(out, "test") == Some(test.value.tree)
      && Lookup(out, "then") == Lookup(arms, "then") && Lookup(out, "else") == Lookup(arms, "else")
    ensures var out := Calc(v, 0, gasImport, cost).value.tree;
      && |out.edges| == |v.edges|
      && (forall i :: 0 <= i < |v.edges| ==> out.edges[i].name == v.edges[i].name)
      && (forall i :: 0 <= i < |v.edges| && !(v.edges[i].name in ["then", "else", "test"]) ==> out.edges[i] == v.edges[i])
  {
    assert Calc(v, 0, gasImport, cost) == CalcIf(v, gasImport, cost);
    var arms := IfArms(v, gasImport, cost).value.tree;
    var test := Calc(Lookup(v, "test").value, 0, gasImport, cost).value;
    LookupAfterSet(arms, "test", test.tree, "then");
    LookupAfterSet(arms, "test", test.tree, "else");
    ArmsFrame(v, gasImport, cost);
  }

  /** Metering the arms of an `if` touches only its `then` and `else` edges. */
  lemma ArmsFrame(v: Node, gasImport: nat, cost: CostFn)
    requires v.kind == "if" && IfArms(v, gasImport, cost).Ok?
    ensures var arms := IfArms(v, gasImport, cost).value.tree;
      && |arms.edges| == |v.edges|
      && (forall i :: 0 <= i < |v.edges| ==> arms.edges[i].name == v.edges[i].name)
      && (forall i :: 0 <= i < |v.edges| && !(v.edges[i].name in ["then", "else"]) ==> arms.edges[i] == v.edges[i])
  {
    var then0 := Lookup(v, "then").value;
    var thenMetered := Transform(ThenArm(then0), 0, gasImport, cost).value;
    var v1 := Set(v, "then", thenMetered.tree);
    var elseArm := ElseArm(then0, Lookup(v, "else"));
    if elseArm.Some? {
      LookupAfterSet(v, "then", thenMetered.tree, "else");
      var elseMetered := Transform(elseArm.value, 0, gasImport, cost).value;
      assert IfArms(v, gasImport, cost).value.tree == Set(v1, "else", elseMetered.tree);
    } else {
      assert IfArms(v, gasImport, cost).value.tree == v1;
    }
  }



  /** A flat statement with no body that costs gas cannot be charged. */
  lemma FlatWithoutBody(n: Node, gasImport: nat, cost: CostFn)
    requires Flat(n) && Lookup(n, "body").None? && TotalCost(n, cost).Ok? && TotalCost(n, cost).value != 0
    ensures Transform(n, 0, gasImport, cost) == Err(MissingEdge("body"))
  {
    FlatCalc(n, gasImport, cost);
  }

  /**
   * When neither arm is a block, only `then` is wrapped; the `else` statement
   * is metered as it is, and when it costs gas the charge has nowhere to go:
   * a flat statement without a body fails as a missing body.
   */
  lemma ImplicitElseNotWrapped(v: Node, gasImport: nat, cost: CostFn)
    requires v.kind == "if" && Lookup(v, "then").Some? && Lookup(v, "else").Some?
    requires !Explicit(Lookup(v, "then").value, "then")
    requires Transform(Wrap("then", Lookup(v, "then").value), 0, gasImport, cost).Ok?
    requires var els := Lookup(v, "else").value;
      Flat(els) && Lookup(els, "body").None? && TotalCost(els, cost).Ok? && TotalCost(els, cost).value != 0
    ensures Calc(v, 0, gasImport, cost) == Err(MissingEdge("body"))
  {
    var then0 := Lookup(v, "then").value;
    var els := Lookup(v, "else").value;
    FlatWithoutBody(els, gasImport, cost);
    assert ThenArm(then0) == Wrap("then", then0);
    assert ElseArm(then0, Lookup(v, "else")) == Some(els);
    assert IfArms(v, gasImport, cost) == Err(MissingEdge("body"));
    assert Calc(v, 0, gasImport, cost) == CalcIf(v, gasImport, cost);
  }
}

/**
 * The cost model: the gas an instruction vertex costs, looked up in a
 * read-only gas table under a key built from the vertex's kind and payload.
 * Floating-point operands are refused, since their cost would not be
 * deterministic across implementations.
 */
module GasCost {
  import opened Ast

  /** The gas table: cost per instruction key, never written by the pass. */
  type GasTable = map<string, nat>

  predicate IsFloat(ty: string) {
    ty == "f32" || ty == "f64"
  }

  predicate IsNumericOp(kind: string) {
    kind == "binop" || kind == "unop" || kind == "relop"
  }

  function DigitChar(d: nat): (c: char)
    requires d < 10
    ensures DigitValue(c) == d
  {
    "0123456789"[d]
  }

  function DigitValue(c: char): int {
    c as int - '0' as int
  }

  /** The number a string of decimal digits spells. */
  function DigitsValue(s: string): int {
    if s == [] then 0 else DigitsValue(s[..|s| - 1]) * 10 + DigitValue(s[|s| - 1])
  }

  /** The decimal text of a number, as string concatenation renders it: a
      non-empty string of digits, with no leading zero, that spells the
      number, so two widths never give the same text. */
  function Decimal(n: nat): (s: string)
    ensures |s| >= 1
    ensures forall i :: 0 <= i < |s| ==> '0' <= s[i] <= '9'
    ensures DigitsValue(s) == n
    ensures s[0] != '0' || n == 0
  {
    if n < 10 then [DigitChar(n)]
    else
      var prefix := Decimal(n / 10);
      var s := prefix + [DigitChar(n % 10)];
      assert s[..|s| - 1] == prefix && s[0] == prefix[0];
      s
  }

  /**
   * getInstructionGas as written: a local key starts as the vertex's kind and
   * is rebuilt by four tests in a row, each one looking at the key the
   * previous ones left. A memory access rebuilds it from `type` and the
   * access's own kind, then appends the width and a sign suffix unless the
   * width is null or 8; the `store` test there compares the rebuilt key,
   * which can never equal `store`.
   */
  function GetInstructionGas(v: Node, table: GasTable): Result<nat> {
    var p := v.value;
    if IsNumericOp(v.kind) && IsFloat(p.ty) then Err(DisallowedType(p.ty))
    else
      var key1 := if IsNumericOp(v.kind) then p.ty + "." + p.operator else v.kind;
      if key1 == "cvtop" && (IsFloat(p.ty) || IsFloat(p.ty1)) then Err(DisallowedType(p.ty))
      else
        var key2 := if key1 == "cvtop" then p.ty + "." + p.operator + "/" + p.ty1 else key1;
        var key3 :=
          if key2 == "store" || key2 == "load" then
            var access := p.ty + "." + v.kind;
            if p.size.Some? && access != "store" && p.size.value != 8 then
              access + Decimal(p.size.value) + (if p.signed then "_s" else "_u")
            else access
          else key2;
        if key3 == "const" && IsFloat(p.ty) then Err(DisallowedType(p.ty))
        else
          var key := if key3 == "const" then p.ty + "." + v.kind else key3;
          if key !in table then Err(UnsupportedInstruction(key))
          else Ok(table[key])
  }

  // ---------------------------------------------------------------------
  // The same rules stated kind by kind.

  /** Whether a vertex is refused for a floating-point operand. */
  predicate Disallowed(v: Node) {
    || ((IsNumericOp(v.kind) || v.kind == "const") && IsFloat(v.value.ty))
    || (v.kind == "cvtop" && (IsFloat(v.value.ty) || IsFloat(v.value.ty1)))
  }

  /** The width-and-sign suffix of a memory access key. */
  function AccessSuffix(size: Option<nat>, signed: bool): string {
    match size
    case None => ""
    case Some(n) => if n == 8 then "" else Decimal(n) + (if signed then "_s" else "_u")
  }

  /** The table key of a vertex, by kind. */
  function CostKey(v: Node): string {
    var p := v.value;
    if IsNumericOp(v.kind) then p.ty + "." + p.operator
    else if v.kind == "cvtop" then p.ty + "." + p.operator + "/" + p.ty1
    else if v.kind == "load" || v.kind == "store" then p.ty + "." + v.kind + AccessSuffix(p.size, p.signed)
    else if v.kind == "const" then p.ty + ".const"
    else v.kind
  }

  /** A key with a dot in it is never one of the bare kinds the lookup tests for. */
  lemma DottedIsNotBare(a: string, b: string, bare: string)
    requires forall i :: 0 <= i < |bare| ==> bare[i] != '.'
    ensures a + "." + b != bare
  {
    var s := a + "." + b;
    assert s[|a|] == '.';
    assert |s| != |bare| || s[|a|] != bare[|a|];
  }

  /** None of the keys rebuilt from `type` is one of the four bare kinds. */
  lemma DottedIsNoBareKind(a: string, b: string)
    ensures a + "." + b != "cvtop" && a + "." + b != "store"
    ensures a + "." + b != "load" && a + "." + b != "const"
  {
    DottedIsNotBare(a, b, "cvtop");
    DottedIsNotBare(a, b, "store");
    DottedIsNotBare(a, b, "load");
    DottedIsNotBare(a, b, "const");
  }

  /** What the lookup answers for a vertex, given the vertex's key. */
  predicate PricedBy(v: Node, table: GasTable, r: Result<nat>) {
    && (Disallowed(v) ==> r == Err(DisallowedType(v.value.ty)))
    && (!Disallowed(v) && CostKey(v) !in table ==> r == Err(UnsupportedInstruction(CostKey(v))))
    && (!Disallowed(v) && CostKey(v) in table ==> r == Ok(table[CostKey(v)]))
  }

  /**
   * The cost of a vertex: refused with DisallowedType (naming `type`) when an
   * operand is floating point, refused with UnsupportedInstruction (naming the
   * key) when the table has no entry for its key, and otherwise exactly the
   * table's entry for that key.
   */
  lemma GasByCostKey(v: Node, table: GasTable)
    ensures Disallowed(v) ==> GetInstructionGas(v, table) == Err(DisallowedType(v.value.ty))
    ensures !Disallowed(v) && CostKey(v) !in table ==>
      GetInstructionGas(v, table) == Err(UnsupportedInstruction(CostKey(v)))
    ensures !Disallowed(v) && CostKey(v) in table ==>
      GetInstructionGas(v, table) == Ok(table[CostKey(v)])
  {
    if IsNumericOp(v.kind) {
      GasOfNumericOp(v, table);
    } else if v.kind == "cvtop" {
      GasOfConversion(v, table);
    } else if v.kind == "load" || v.kind == "store" {
      GasOfAccess(v, table);
    } else if v.kind == "const" {
      GasOfConst(v, table);
    }
  }

  lemma GasOfNumericOp(v: Node, table: GasTable)
    requires IsNumericOp(v.kind)
    ensures PricedBy(v, table, GetInstructionGas(v, table))
  {
    DottedIsNoBareKind(v.value.ty, v.value.operator);
  }

  lemma GasOfConversion(v: Node, table: GasTable)
    requires v.kind == "cvtop"
    ensures PricedBy(v, table, GetInstructionGas(v, table))
  {
    var p := v.value;
    DottedIsNoBareKind(p.ty, p.operator + "/" + p.ty1);
    assert p.ty + "." + p.operator + "/" + p.ty1 == p.ty + "." + (p.operator + "/" + p.ty1);
  }

  lemma GasOfAccess(v: Node, table: GasTable)
    requires v.kind == "load" || v.kind == "store"
    ensures PricedBy(v, table, GetInstructionGas(v, table))
  {
    var p := v.value;
    var access := p.ty + "." + v.kind;
    var suffix := AccessSuffix(p.size, p.signed);
    DottedIsNoBareKind(p.ty, v.kind);
    DottedIsNoBareKind(p.ty, v.kind + suffix);
    assert access + suffix == p.ty + "." + (v.kind + suffix);
    if p.size.Some? && p.size.value != 8 {
      assert access + Decimal(p.size.value) + (if p.signed then "_s" else "_u") == access + suffix;
    } else {
      assert access == access + suffix;
    }
  }

  lemma GasOfConst(v: Node, table: GasTable)
    requires v.kind == "const"
    ensures PricedBy(v, table, GetInstructionGas(v, table))
  {
    assert v.value.ty + "." + v.kind == v.value.ty + ".const";
  }

  /** The same vertex always costs the same: the lookup reads only the
      vertex's kind and payload, never its children or branch flag. */
  lemma GasIgnoresChildren(v: Node, w: Node, table: GasTable)
    requires v.kind == w.kind && v.value == w.value
    ensures GetInstructionGas(v, table) == GetInstructionGas(w, table)
  {
  }
}

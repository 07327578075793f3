# Gas metering of a WebAssembly text-format tree

This project models the metering pass of `index.js` and proves properties of the model. The pass takes a parsed WebAssembly module in its JSON tree form and does three things:

- It appends a host import, `(import "ethereum" "useGas" (param i32))`, to every module.
- It walks the body of every function of the first module.
- For every straight-line run of instructions it inserts one call `(call_import <slot> (i32.const <gas>))`. The call pre-pays the summed gas of the run. Gas comes from a table keyed by instruction.

## Modules

- `Ast`: the tree.
  - A vertex has a kind, a payload (`type`, `operator`, `type1`, access size and sign, literal value), an intrinsic branch flag and an ordered list of named edges.
  - The children of a statement list (`array`) are edges named `""`.
  - Lookups, replacement and insertion of children are defined here. So is a size measure that makes the mutual recursion of the pass terminate.
- `GasCost`: getInstructionGas.
  - A key is built from the vertex's kind and payload.
  - Floating-point operands are refused.
  - A key missing from the table is refused.
- `Injector`:
  - addGasCountBlock: the charge call inserted into an array or into a vertex's `body`.
  - addImport: the import appended to every module's body.
  - The import table length, which fixes the slot of the new import.
- `Metering`: calcGas and meteringTransform.
  - The functions `Calc`, `CalcLoop`, `CalcIf` (with `IfArms` and `IfTest`), `CalcFrom`, `AfterChild` and `Transform` define what the pass does.
  - The methods `CalcGas`, `MeterLoop`, `MeterIf`, `MeterArms`, `MeterTest`, `SumChildren`, `MeterChild` and `MeteringTransform` run it the way index.js does, with its loop over the children. Each method is proved to compute exactly its function.
- `MeteringLaws`: what the pass does, stated against definitions that do not follow its walk.
  - Sums of costs over a subtree with nothing metered apart.
  - The runs of a statement list, each cut after its first branch point, given what calcGas makes of each statement, however deeply nested.
  - One charge per run, at the run's head; one charge at the head of a `func`'s body for the function's whole first run.
  - Loops and ifs.
- `Driver`: injectJSON.
  - It fixes the import slot, runs addImport, and meters every `func` item of the first module.
  - End-to-end laws: what is left untouched, what is metered, and where the import ends up.

The tree is a value: every operation returns the new tree instead of changing the old one in place. A failure of index.js is a `Result` error:
- `DisallowedType`;
- `UnsupportedInstruction`;
- `MissingEdge`, for a `TypeError` on a missing edge.

## Model

| member | source | states |
|---|---|---|
| GasCost.GasByCostKey | index.js:93-136 | The cost of a vertex is `DisallowedType(type)` when an operand is f32/f64. It is `UnsupportedInstruction(key)` when the table has no entry for its key. Otherwise it is exactly the table's entry. The key depends on the kind, as CostKey defines it independently of the lookup's chain of tests. |
| GasCost.GasOfNumericOp | index.js:96-102 | binop/unop/relop: refused on a float `type`; otherwise priced under `type.operator`. |
| GasCost.GasOfConversion | index.js:104-111 | cvtop: refused when `type` or `type1` is a float, the error naming `type`; otherwise priced under `type.operator/type1`. |
| GasCost.GasOfAccess | index.js:113-121 | load/store are priced under `type.kind`, plus width and `_s`/`_u` unless the width is null or 8. This holds for stores as well: the `store` test at line 117 never fires. |
| GasCost.GasOfConst | index.js:123-129 | const: refused on a float `type`; otherwise priced under `type.const`. |
| GasCost.Decimal | index.js:118 | The width is rendered as a non-empty string of decimal digits, with no leading zero, that spells the width back, so different widths give different keys. |
| GasCost.GasIgnoresChildren | index.js:93-136 | The cost reads only a vertex's kind and payload, never its children or branch flag. |
| Injector.ChargeCarriesAmount | index.js:62-74 | The charge call built for an amount carries that amount in its `i32.const`. |
| Injector.AddGasCountBlock | index.js:61-77 | The call is inserted at `index` of the array itself, or of the vertex's `body`. That list gains exactly the charge at `index`, with the old elements around it. The vertex keeps its head. A non-array vertex keeps its number of edges, every edge other than `body`, and the body's head. With no `body` the result is `MissingEdge("body")`, exactly when there is no slot. |
| Injector.AddImport | index.js:28-57 | The loop over the root's items computes exactly WithImport. It fails with `MissingEdge("body")` when the root or a module has no body. |
| Injector.ImportAppendedOnce | index.js:51-56 | After addImport the root keeps its head and every field but `body`; its body keeps its head and its items in order. Non-module items are unchanged. Each module keeps its head, its fields other than `body` and its body's head, and its body becomes the old body plus the import at the end. |
| Injector.ImportSlot | index.js:51-56 | The first module's body ends with the import. The import table grows by one, and the import sits in the slot numbered by the old length. |
| Metering.Calc | index.js:139-197 | calcGas keeps a vertex's kind, payload and flag. Only an array gains children (its charges). Any other vertex keeps its number of children. |
| Metering.CalcLoop | index.js:141-147 | A loop keeps its head and its number of children. |
| Metering.IfArms | index.js:149-169 | Metering the arms keeps the if's head, its number of children and its `test` child. |
| Metering.IfTest | index.js:171-175 | Metering the test keeps the if's head and number of children. |
| Metering.CalcIf | index.js:148-175 | An if keeps its head and number of children. |
| Metering.CalcFrom | index.js:182-195 | The loop over children from `j` keeps the head. Only an array grows. |
| Metering.AfterChild | index.js:186-193 | One turn of that loop keeps the head. Only an array grows. |
| Metering.Transform | index.js:80-91 | meteringTransform keeps the head. Only an array grows. |
| Metering.Wrap | index.js:153-164 | An implicit arm becomes a new vertex of the arm's kind (`then`/`else`) whose `body` is the one-item list holding the statement. The new vertex is two vertices larger than the statement. |
| Metering.CalcGas | index.js:139-197 | The method computes exactly Calc. |
| Metering.MeterLoop | index.js:141-147 | The loop case computes exactly CalcLoop. |
| Metering.MeterIf | index.js:148-175 | The if case computes exactly CalcIf. |
| Metering.MeterArms | index.js:149-169 | The wrapping and metering of the arms computes exactly IfArms. |
| Metering.MeterTest | index.js:171-175 | The test and the if's own cost compute exactly IfTest. |
| Metering.SumChildren | index.js:177-195 | The while loop over the children computes exactly CalcFrom from the start index, with the vertex's own cost and flag. |
| Metering.MeterChild | index.js:185-193 | One turn computes exactly AfterChild: stop on an error, cut and re-meter the rest after a branch point in an array, or go on with the sums added. |
| Metering.MeteringTransform | index.js:80-91 | The method computes exactly Transform. |
| MeteringLaws.FlatCalc | index.js:177-195 | A subtree with no loop, if or array is returned unchanged. Its gas is the sum of all its vertices' costs, and its flag says whether any vertex is a branch. Otherwise the result is the first error in walk order. |
| MeteringLaws.FlatCalcFrom | index.js:182-195 | The same from child `j`, added to what was summed before. |
| MeteringLaws.FlatWalks | index.js:182-195 | Flat statements are walked by calcGas to themselves, with their summed cost and branch flag. |
| MeteringLaws.TransformRuns | index.js:80-91 | A statement list from `j`, whose statements calcGas walks to given results (of any nesting), and whose own cost is `a`: the statements before `j` are untouched. The rest become runs, each cut just after its first statement reporting a branch point. Each run gets a charge at its head for `a` plus the run's gas, with no charge when that is zero. The result is `a` plus the first run's gas, with the list's flag or any statement's. |
| MeteringLaws.RunFrom | index.js:182-194 | calcGas's loop over such a list from `j` adds the first run's gas and flags to what was summed, leaves the first run's statements as metered, and meters the later runs in place, each with its own charge. |
| MeteringLaws.Walked | index.js:185-188 | One turn of the loop walks child `j` to its calcGas result; the children after it still walk to the remaining results. |
| MeteringLaws.RunCut | index.js:189-193 | A statement reporting a branch point ends the run: given that the rest of the list is metered as runs of its own, the loop's result is the first run's gas followed by those runs. |
| MeteringLaws.RunGoesOn | index.js:186-188 | A statement without a branch point adds its gas: given that the loop from the next statement yields the rest of the run and the later runs, the loop from this one yields the run with this statement in front. |
| MeteringLaws.ArrayCalc | index.js:177-195 | calcGas on a statement list from its start: its own cost plus the first run's gas, its flag or any statement's; the statements are metered and grouped into runs, the first one left for its caller to charge. |
| MeteringLaws.StraightLine | index.js:185-194 | When no statement reports a branch point, the list is one run: its gas is the sum of all statements' gas, and it gets one charge at its head for the list's cost plus that sum. |
| MeteringLaws.CalcFromAll | index.js:182-195 | On any vertex but a statement list the loop never cuts: it adds every child's gas and flag from `j` on and replaces each child by what calcGas made of it. |
| MeteringLaws.CalcComposite | index.js:177-195 | calcGas on a vertex that is not a loop, if or list (a `func`, a call): its own cost plus all its children's gas, its flag or any child's, each child metered in place. |
| MeteringLaws.ChargeAtStart | index.js:84-90 | meteringTransform returns calcGas's result and changes nothing more when the gas is 0 or on error. Otherwise it inserts exactly one charge, carrying the gas, at the start position of the array or its body. A non-array vertex keeps every other edge and its body's head. It fails with `MissingEdge("body")` exactly when there is neither. |
| MeteringLaws.MeteredBody | index.js:80-91 | meteringTransform on a `func`-like vertex whose body is a statement list: one charge, for the vertex's own cost and all its children's gas (the body's first run included), at the head of the body, followed by the body's runs, the later ones with charges of their own. |
| MeteringLaws.BodyWalk | index.js:177-195 | calcGas on such a vertex: its children walked in order, its body becoming the list's runs, whose first run's gas is counted in the vertex's result. |
| MeteringLaws.ChargeToBody | index.js:84-90 | meteringTransform on a non-array vertex with a body puts calcGas's charge, if any, in front of the metered body and returns calcGas's result. |
| MeteringLaws.LoopResult | index.js:141-147 | A loop that meters without error has its body meteringTransform'ed as a scope of its own; the loop costs only its own gas and reports its body's flag. |
| MeteringLaws.LoopRuns | index.js:141-147 | A loop whose body is a statement list costs only its own gas, takes the body's flag, and its body is rewritten into runs, each with its charge in front. |
| MeteringLaws.IfResult | index.js:166-175 | A successful if costs its test's gas plus its own. Its flag is the `then` arm's flag. |
| MeteringLaws.IfIgnoresArms | index.js:166-175 | Two ifs with the same test and own cost have the same gas. With the same `then` arm they have the same result, whatever their `else` arms. |
| MeteringLaws.ArmsTree | index.js:149-169 | After the arms are metered, `then` holds the meteringTransform of the (wrapped if implicit) `then` arm; `else`, when there is one, holds the meteringTransform of the `else` arm, wrapped only when `then` was already a block; with no `else` none is added. |
| MeteringLaws.IfTree | index.js:148-175 | A successful if keeps the metered arms, and its `test` is replaced by what calcGas made of it. Its edges keep their number and names, and every edge other than `then`, `else` and `test` is unchanged. |
| MeteringLaws.ArmsFrame | index.js:149-169 | Metering the arms changes only the `then` and `else` edges; the edges keep their number and names. |
| MeteringLaws.FlatWithoutBody | index.js:75-76 | A flat statement without `body` that costs gas cannot receive its charge: meteringTransform fails with `MissingEdge("body")`. |
| MeteringLaws.ImplicitElseNotWrapped | index.js:153-165 | When both arms are implicit, only `then` is wrapped. A costly flat `else` statement without a body then makes the if fail with `MissingEdge("body")`. |
| Driver.InjectJSON | index.js:218-230 | The method computes exactly Inject: slot = old import table length, addImport, then meter the items of the first module's body. An empty root body fails as `MissingEdge("0")`. |
| Driver.MeterFuncs | index.js:224-228 | The loop over the items computes exactly MeterItems. |
| Driver.MeterFunc | index.js:225-227 | A `func` item is meteringTransform'ed from 0. Other items are kept. |
| Driver.CostIsLookup | index.js:93-136 | The cost the driver meters with is getInstructionGas over the table. It is the table's entry for the vertex's key whenever that key is priced. |
| Driver.CostReadsHead | index.js:93-136 | Under the gas table every vertex with the head of a priced vertex is priced the same, which is what the statement-list laws ask of the cost. |
| Driver.ItemsInOrder | index.js:224-228 | The loop over the items ends well only when its body succeeds on every item. It then keeps the items' number and order, with each one replaced by what the body made of it. |
| Driver.ItemsMetered | index.js:224-228 | The items keep their number, order and names. Non-`func` items are unchanged, and each `func` is replaced by its successful meteringTransform. |
| Driver.InjectFrame | index.js:218-230 | injectJSON changes only the first item's body: the root, its `body` list, the first item and the first item's `body` list keep their heads, their other fields are as addImport left them, and every later item is unchanged. |
| Driver.InjectMeters | index.js:222-228 | In the first item's body every `func` is meteringTransform'ed with charges calling the slot numbered by the old import table length; every other item is as addImport left it. |
| Driver.InjectKeepsImport | index.js:220-228 | When the first item is a module, its metered body still ends with the new import, in the slot the charges call. |

### Defining functions

These functions define what the pass computes; their properties are stated by the lemmas and methods in the table above.

- `GasCost.GetInstructionGas` (index.js:93-136): GasByCostKey, GasOfNumericOp, GasOfConversion, GasOfAccess, GasOfConst, GasIgnoresChildren, Driver.CostIsLookup.
- `Injector.ChargeNode` (index.js:62-74): ChargeCarriesAmount.
- `Injector.ImportDecl` (index.js:29-47): ImportAppendedOnce, ImportSlot.
- `Injector.WithImport` (index.js:28-57): AddImport, ImportAppendedOnce, ImportSlot.
- `Injector.ImportTableLength` (index.js:220): ImportSlot, Driver.InjectMeters, Driver.InjectKeepsImport.
- `Metering.ThenArm`, `Metering.ElseArm` (index.js:153-165): ArmsTree, IfResult, ImplicitElseNotWrapped.
- `Driver.MeterItem` (index.js:225-227): MeterFunc, ItemsMetered.
- `Driver.MeterItems` (index.js:224-228): MeterFuncs, ItemsInOrder, ItemsMetered.
- `Driver.Inject` (index.js:218-230): InjectJSON, InjectFrame, InjectMeters, InjectKeepsImport.

### Quirks of index.js modelled as written

- An `if` is normalised one arm per visit (index.js:153-165). An implicit `else` is wrapped only when `then` was already explicit. When both arms are implicit, the `else` statement is meteringTransform'ed as it is. A costly one that is not a statement list and has no `body` crashes the charge insertion (`ImplicitElseNotWrapped`). One that is a loop takes its charge inside its own body, so its cost is charged on every iteration.
- The `else` arm's flag is or-ed with the whole result object (index.js:168). That contributes nothing, so an `if` reports its `then` arm's flag only, not the or of both (`IfResult`, `IfIgnoresArms`).
- The test `kind !== 'store'` at index.js:117 compares the rebuilt key, which always has a `.` in it. So a narrow store gets a width suffix exactly like a load (`GasOfAccess`).
- When an array is cut after a branch point, its continuation is re-metered from the top with the array's own cost charged again (index.js:178, 191). Every run of a statement list therefore carries the array's cost. When that cost is not zero, a list ending with a branch point gets a trailing charge of that cost alone (`Runs`, `Charge`).

## Left out

- In-place mutation and aliasing are not modelled. The tree is a value, and every operation returns the new tree. The wast-graph library (`get`, `set`, `insertAt`, `unshift`, `push`, `copy`, `toJSON`) is not part of this model: its behaviour is assumed to be the sequence operations in `Ast`.
- The fresh vertex `new AST('then')`/`new AST('else')` (index.js:156, 162) is built by wast-graph. `Wrap` assumes it has a blank payload, no branch flag and a single `body` edge holding an empty list.
- wast-graph's `isBranch` is stored on each vertex as a flag. The model does not derive it from the kind; every law holds for any assignment of the flag.
- injectWAST (index.js:204-212) is left out: parsing and code generation of the text format happen in external libraries.
- The contents of `gastable.json` are left out. The table is a parameter `map<string, nat>`.
- The cost function reaches the metering module as a parameter. `Driver.CostOf` supplies getInstructionGas over the table, which keeps the metering module free of the table.
- The global `addGasIndex` (index.js:24) is a parameter `gasImport`.
- The `raw` field of the charge's literal is left out; it duplicates `value`.
- Driver.InjectJSON: `astGraph.importTable.length` is computed inside wast-graph. It is modelled as the number of `import` items in the first module's body.
- Crashes of index.js on missing edges (a `TypeError` on `undefined`) are modelled as `MissingEdge` errors naming the edge.
- The JavaScript coercions of `|=` on booleans and numbers are modelled as boolean or. The `else` arm's result is dropped, since or-ing an object contributes nothing.
- Gas sums are JavaScript numbers (float64), exact only up to 2^53, and the charge's `i32.const` is not range-checked. The model uses unbounded naturals: it neither rounds large sums nor rejects charges beyond 32 bits.
- The memory-access and const keys read `vertex._value.kind` (index.js:114, 128). The model reads the vertex's own kind there: the payload has no separate `kind` field.
- Only an `array` is walked from a position other than its first child (`ValidStart`). That is how index.js calls calcGas.
- The statement-list laws in MeteringLaws take what calcGas makes of each statement as given (`WalksTo`) and ask that the list's cost read only its head (`PricedAs`, which the gas table meets by `CostReadsHead`). Closed forms for nested statements are given by FlatWalks for flat ones and by the loop and if laws; there is no single closed form for an arbitrarily nested tree.

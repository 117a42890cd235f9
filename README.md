# Demand-control cost calculator

This project models the cost engine of the Apollo Router's demand-control plugin and proves properties of it. The engine prices a GraphQL request three ways:

- **Static estimate, before execution.** Every selected field is priced as
  `instances × (type weight + selection cost) + arguments + @requires selections`.
  - A list field counts as `@listSize`'s size, else the configured default list size.
  - An object, interface or union type weighs 1.0 unless `@cost` says otherwise. Scalars and enums weigh 0.0.
  - Each argument literal is priced against its declared input type.
  - A mutation pays a flat surcharge of 10.0.
- **Planned estimate.** This is a fold over the query plan.
  - Sequential, parallel and deferred work is summed.
  - Flattening passes through.
  - A condition is charged for its more expensive branch.
  - Each fetch is priced by the static estimate of its subgraph operation, against the subgraph's own schema, without `@requires`.
- **Actual cost, after execution.** A visitor walks the response alongside the query.
  - A leaf pays the field's weight.
  - An array pays for each element.
  - An object pays its weight and then its children.
  - The query arguments of every visited field are charged once. Nothing on this path can fail.

Modules:

- `GraphQL`: query, response and error values.
- `Schema`: the demand-controlled schema, kept abstract beyond the lookups the core uses.
- `ArgumentCost`: the argument scorer.
- `StaticCost` and `StaticCostProperties`: the selection, operation and document scorers, and their properties.
- `PlanCost` and `PlanCostProperties`: the plan scorer and its properties.
- `ResponseCost` and `ResponseCostProperties`: the actual-cost specification, the visitor class whose `cost` field the walk updates in place, and their properties.
- `CostExamples`: one worked example, estimated and actual.

The source's loops that add costs and stop at the first error are modelled twice:

- as functions defined by recursion on the last element, so the first error in source order is the one returned;
- as methods with the source's loops, proved equal to those functions.

Fragment spreads and `@requires` selection sets are looked up in tables, not reached through the structure of the query. The model therefore bounds how many of them may be followed on one path with a `fuel` parameter:

- the estimators return `DepthExhausted` when the bound runs out;
- the actual-cost walk adds nothing past it.

The `…Fuel` lemmas prove that the bound never changes a successful estimate: any larger bound gives the same result. The actual-cost walk has no error to report, so the bound can change its result: spreads nested deeper than the bound are charged nothing. The `…FuelGrows` lemmas prove only that this walk is a lower bound that never decreases as the bound grows.

Two behaviours of the code are worth stating plainly:

- **Condition nodes.** With both branches present, a condition costs the larger of the two scores. With exactly one branch present, it costs that branch's score, without comparing it with 0.0. This differs from comparing each branch with 0.0 only when a branch can score below 0.0, which needs a negative `@cost` weight (`ConditionTakesWorstBranch`, static_cost.rs:425-428).
- **Input-object literals.** Without `@cost`, an input-object literal argument costs 1.0 plus its fields (static_cost.rs:67-80, `InputObjectLiteralCost`). A list literal costs its list weight, 0.0 without `@cost`, plus its elements, so an explicit list weight is re-added at each level of nesting (`NestedListRepeatsWeight`).

## Model

| member | source | states |
|---|---|---|
| ArgumentCost.ScoreArgument | apollo-router/src/plugins/demand_control/cost_calculator/static_cost.rs:38-91 | every failure is a query-parse failure; on a schema with non-negative weights an argument never costs less than 0 |
| ArgumentCost.ScoreInputFields | apollo-router/src/plugins/demand_control/cost_calculator/static_cost.rs:69-78 | the fields of an input-object literal fail only with a query-parse failure and cost at least 0 when weights are non-negative |
| ArgumentCost.ScoreListElements | apollo-router/src/plugins/demand_control/cost_calculator/static_cost.rs:83-85 | the elements of a list literal fail only with a query-parse failure and cost at least 0 when weights are non-negative |
| ArgumentCost.ScoreInputObject | apollo-router/src/plugins/demand_control/cost_calculator/static_cost.rs:67-80 | the input-object loop succeeds exactly when every field is declared and scores; it returns the weight (default 1.0) plus the fields, or the first field's error; it agrees with the argument scorer |
| ArgumentCost.ScoreList | apollo-router/src/plugins/demand_control/cost_calculator/static_cost.rs:81-87 | the list loop returns the list weight (default 0.0) plus each element scored against the same definition, or the first element's error; it agrees with the argument scorer |
| ArgumentCost.InputFieldsErrorPersists | apollo-router/src/plugins/demand_control/cost_calculator/static_cost.rs:69-78 | once a prefix of the fields fails, the whole object fails with that error |
| ArgumentCost.ListElementsErrorPersists | apollo-router/src/plugins/demand_control/cost_calculator/static_cost.rs:83-85 | once a prefix of the elements fails, the whole list fails with that error |
| ArgumentCost.NullArgumentIsFree | apollo-router/src/plugins/demand_control/cost_calculator/static_cost.rs:88 | a `null` literal of a known input type costs 0.0 whatever its weight |
| ArgumentCost.LeafArgumentCostsWeight | apollo-router/src/plugins/demand_control/cost_calculator/static_cost.rs:89 | a scalar or enum literal, or an object literal of a non-input-object type, costs its weight, default 0.0 |
| ArgumentCost.OutputTypedArgumentRejected | apollo-router/src/plugins/demand_control/cost_calculator/static_cost.rs:56-65 | an argument whose declared type is an object, interface or union is rejected whatever its literal |
| ArgumentCost.UndeclaredFieldFails | apollo-router/src/plugins/demand_control/cost_calculator/static_cost.rs:70-76 | a literal field that its input type does not declare makes the field sum fail |
| ArgumentCost.UndeclaredInputFieldRejected | apollo-router/src/plugins/demand_control/cost_calculator/static_cost.rs:67-80 | an input-object literal with an undeclared field cannot be scored |
| ArgumentCost.DeclaredLeafFieldsCost | apollo-router/src/plugins/demand_control/cost_calculator/static_cost.rs:69-78 | declared leaf fields of weight w cost w each |
| ArgumentCost.InputObjectLiteralCost | apollo-router/src/plugins/demand_control/cost_calculator/static_cost.rs:67-80 | an input-object literal of n declared leaf fields of weight w costs its own weight (default 1.0) plus n·w |
| ArgumentCost.LeafElementsCost | apollo-router/src/plugins/demand_control/cost_calculator/static_cost.rs:83-85 | n leaf elements each cost the list's own weight w, n·w in all |
| ArgumentCost.LeafListCost | apollo-router/src/plugins/demand_control/cost_calculator/static_cost.rs:81-87 | a list literal of n leaf elements pays the list weight n + 1 times |
| ArgumentCost.NestedListCostsTimes | apollo-router/src/plugins/demand_control/cost_calculator/static_cost.rs:81-87 | an empty list nested d deep pays the list weight d + 1 times, as a repeated sum |
| ArgumentCost.NestedListRepeatsWeight | apollo-router/src/plugins/demand_control/cost_calculator/static_cost.rs:81-87 | an empty list nested d deep costs (d + 1)·w: the weight is re-added at every level |
| StaticCost.ResolveListSize | apollo-router/src/plugins/demand_control/cost_calculator/static_cost.rs:147-151 | a `@listSize` directive resolved from a field definition with non-negative sizes has non-negative sizes |
| StaticCost.FieldCost | apollo-router/src/plugins/demand_control/cost_calculator/static_cost.rs:218 | the field formula is non-negative when its count and its three costs are |
| StaticCost.ScoreArguments | apollo-router/src/plugins/demand_control/cost_calculator/static_cost.rs:186-196 | the sum of a field's arguments is non-negative on a priced schema |
| StaticCost.SumArguments | apollo-router/src/plugins/demand_control/cost_calculator/static_cost.rs:186-196 | the argument loop returns the in-order sum, `ArgumentNotDefined` for the first argument the field does not declare, or the first scoring error |
| StaticCost.ArgumentsErrorPersists | apollo-router/src/plugins/demand_control/cost_calculator/static_cost.rs:187-196 | once a prefix of the arguments fails, the whole sum fails with that error |
| StaticCost.ScoreField | apollo-router/src/plugins/demand_control/cost_calculator/static_cost.rs:124-230 | a field's score is non-negative on a priced schema with a non-negative upstream size |
| StaticCost.SkippedByDirectives | apollo-router/src/plugins/demand_control/cost_calculator/static_cost.rs:364-376 | a field is skipped when `@include(if: false)` or `@skip(if: true)` is given literally, and only when one of the two is a literal |
| StaticCost.InstanceCount | apollo-router/src/plugins/demand_control/cost_calculator/static_cost.rs:152-164 | a field that is not a list is counted once; with a non-negative upstream size and `@listSize`, the count is never negative |
| StaticCost.TypeWeight | apollo-router/src/plugins/demand_control/cost_calculator/static_cost.rs:166-176 | a non-negative `@cost` gives a non-negative weight; without `@cost` the weight is 1.0 exactly for object, interface and union types and 0.0 exactly for the others |
| StaticCost.ScoreRequirements | apollo-router/src/plugins/demand_control/cost_calculator/static_cost.rs:198-216 | the `@requires` selection is charged nothing when requirements are not estimated or the field has none; otherwise it is the required selection set scored against the field's parent type, not the field's own type, with the field's own `@listSize` in force and one less unit of the bound; it is non-negative on a priced schema |
| StaticCost.ScoreFragmentSpread | apollo-router/src/plugins/demand_control/cost_calculator/static_cost.rs:232-255 | a spread's score is non-negative on a priced schema |
| StaticCost.ScoreInlineFragment | apollo-router/src/plugins/demand_control/cost_calculator/static_cost.rs:257-274 | an inline fragment's score is non-negative on a priced schema |
| StaticCost.ScoreSelection | apollo-router/src/plugins/demand_control/cost_calculator/static_cost.rs:304-339 | an inline fragment is scored as its selection set against its type condition, or against the enclosing parent type when it has none; a selection's score is non-negative on a priced schema |
| StaticCost.ScoreSelectionSet | apollo-router/src/plugins/demand_control/cost_calculator/static_cost.rs:341-362 | a selection set's score is non-negative on a priced schema |
| StaticCost.SumSelectionSet | apollo-router/src/plugins/demand_control/cost_calculator/static_cost.rs:341-362 | the selection loop returns the in-order sum of the selections' scores or the first error |
| StaticCost.SelectionSetErrorPersists | apollo-router/src/plugins/demand_control/cost_calculator/static_cost.rs:351-360 | once a prefix of the selections fails, the whole set fails with that error |
| StaticCost.ScoreOperation | apollo-router/src/plugins/demand_control/cost_calculator/static_cost.rs:276-302 | an operation's score is non-negative on a priced schema |
| StaticCost.OperationSurcharge | apollo-router/src/plugins/demand_control/cost_calculator/static_cost.rs:283 | the surcharge is never negative, and it is positive exactly for a mutation |
| StaticCost.ScoreOperations | apollo-router/src/plugins/demand_control/cost_calculator/static_cost.rs:472-474 | the named operations' total is non-negative on a priced schema |
| StaticCost.Estimated | apollo-router/src/plugins/demand_control/cost_calculator/static_cost.rs:462-476 | a document's estimate is non-negative on a priced schema |
| StaticCost.EstimateDocument | apollo-router/src/plugins/demand_control/cost_calculator/static_cost.rs:462-476 | the document loop, the anonymous operation first and then each named one, returns the estimate or its first error |
| StaticCost.SumOperations | apollo-router/src/plugins/demand_control/cost_calculator/static_cost.rs:472-474 | the named-operation loop returns the in-order sum of the operations' scores or the first error |
| StaticCost.OperationsErrorPersists | apollo-router/src/plugins/demand_control/cost_calculator/static_cost.rs:472-474 | once a prefix of the named operations fails, the document fails with that error |
| StaticCostProperties.FieldCostMonotone | apollo-router/src/plugins/demand_control/cost_calculator/static_cost.rs:218 | the field formula grows with its count, type cost, arguments and requirements |
| StaticCostProperties.FieldDominance | apollo-router/src/plugins/demand_control/cost_calculator/static_cost.rs:152-218 | a field scored with a smaller default list size, or without `@requires`, still succeeds and costs no more |
| StaticCostProperties.SelectionDominance | apollo-router/src/plugins/demand_control/cost_calculator/static_cost.rs:304-339 | the same for a single selection |
| StaticCostProperties.SelectionSetDominance | apollo-router/src/plugins/demand_control/cost_calculator/static_cost.rs:341-362 | the same for a selection set |
| StaticCostProperties.OperationDominance | apollo-router/src/plugins/demand_control/cost_calculator/static_cost.rs:276-302 | the same for an operation |
| StaticCostProperties.OperationsDominance | apollo-router/src/plugins/demand_control/cost_calculator/static_cost.rs:472-474 | the same for the named operations |
| StaticCostProperties.EstimatedDominance | apollo-router/src/plugins/demand_control/cost_calculator/static_cost.rs:462-476 | a document estimate never grows when the default list size shrinks or `@requires` is not charged |
| StaticCostProperties.FieldFuel | apollo-router/src/plugins/demand_control/cost_calculator/static_cost.rs:124-230 | a field score that succeeds is the same with any larger fragment bound |
| StaticCostProperties.SelectionFuel | apollo-router/src/plugins/demand_control/cost_calculator/static_cost.rs:304-339 | the same for a selection |
| StaticCostProperties.SelectionSetFuel | apollo-router/src/plugins/demand_control/cost_calculator/static_cost.rs:341-362 | the same for a selection set |
| StaticCostProperties.OperationsFuel | apollo-router/src/plugins/demand_control/cost_calculator/static_cost.rs:472-474 | the same for the named operations |
| StaticCostProperties.EstimatedFuel | apollo-router/src/plugins/demand_control/cost_calculator/static_cost.rs:462-476 | a document estimate that succeeds is the same with any larger bound |
| StaticCostProperties.SkippedFieldIsFree | apollo-router/src/plugins/demand_control/cost_calculator/static_cost.rs:133-135 | a field under a literal `@include(if: false)` or `@skip(if: true)` costs 0.0 and cannot fail |
| StaticCostProperties.NonListFieldChargedOnce | apollo-router/src/plugins/demand_control/cost_calculator/static_cost.rs:152-153 | a scored field that is not a list is charged one instance of its `@cost` weight or type default, plus its selections, arguments and `@requires` selection |
| StaticCostProperties.UpstreamSizeFirst | apollo-router/src/plugins/demand_control/cost_calculator/static_cost.rs:152-156 | a scored list field with an upstream size u from the enclosing `@listSize` is charged u instances, whatever its own `@listSize` and the default list size |
| StaticCostProperties.ExpectedSizeNext | apollo-router/src/plugins/demand_control/cost_calculator/static_cost.rs:157-161 | with no upstream size, a scored list field whose own `@listSize` gives expected size e is charged e instances, whatever the default list size |
| StaticCostProperties.DefaultListSizeLast | apollo-router/src/plugins/demand_control/cost_calculator/static_cost.rs:162-164 | with no upstream size and no expected size, a scored list field is charged the default list size of instances |
| StaticCostProperties.UncostedFieldTypeWeight | apollo-router/src/plugins/demand_control/cost_calculator/static_cost.rs:166-176 | without `@cost`, each instance of a field weighs 1.0 when its type is an object, interface or union and 0.0 otherwise |
| StaticCostProperties.FirstErrorWins | apollo-router/src/plugins/demand_control/cost_calculator/static_cost.rs:351-360 | the first failing selection's error is the selection set's error |
| StaticCostProperties.FailingSelectionFailsSet | apollo-router/src/plugins/demand_control/cost_calculator/static_cost.rs:351-360 | a selection set with any failing selection fails |
| StaticCostProperties.UndefinedFragmentRejected | apollo-router/src/plugins/demand_control/cost_calculator/static_cost.rs:241-246 | a spread of an undefined fragment fails with `FragmentNotDefined`, and so does any set holding it |
| StaticCostProperties.SpreadScoresAgainstParent | apollo-router/src/plugins/demand_control/cost_calculator/static_cost.rs:247-254 | a spread is scored as an untyped inline fragment over the fragment's selections, against the enclosing parent type |
| StaticCostProperties.OperationCost | apollo-router/src/plugins/demand_control/cost_calculator/static_cost.rs:283-301 | an operation with no root type is rejected with `RootTypeUnsupported`; otherwise it costs its root selections plus 10.0 for a mutation and 0.0 otherwise, or fails with their error |
| StaticCostProperties.OperationsBound | apollo-router/src/plugins/demand_control/cost_calculator/static_cost.rs:472-474 | every named operation succeeds and costs at most the named total |
| StaticCostProperties.EstimatedChargesEveryOperation | apollo-router/src/plugins/demand_control/cost_calculator/static_cost.rs:468-475 | a document that can be estimated charges each operation in full |
| PlanCost.ScorePlanNode | apollo-router/src/plugins/demand_control/cost_calculator/static_cost.rs:378-398 | a plan node's score is non-negative when every subgraph schema is priced |
| PlanCost.EstimatedCostOfOperation | apollo-router/src/plugins/demand_control/cost_calculator/static_cost.rs:400-418 | a fetch's score is non-negative when every subgraph schema is priced |
| PlanCost.MaxScoreOfNodes | apollo-router/src/plugins/demand_control/cost_calculator/static_cost.rs:420-435 | a condition's score is non-negative when every subgraph schema is priced |
| PlanCost.SummedScoreOfDeferredNodes | apollo-router/src/plugins/demand_control/cost_calculator/static_cost.rs:437-452 | a deferred node's score is non-negative when every subgraph schema is priced |
| PlanCost.SummedScoreOfDeferred | apollo-router/src/plugins/demand_control/cost_calculator/static_cost.rs:446-450 | the deferred nodes' scores add up to a non-negative total when every subgraph schema is priced |
| PlanCost.SummedScoreOfNodes | apollo-router/src/plugins/demand_control/cost_calculator/static_cost.rs:454-460 | a node list's score is non-negative when every subgraph schema is priced |
| PlanCost.Planned | apollo-router/src/plugins/demand_control/cost_calculator/static_cost.rs:478-480 | a plan's score is non-negative when every subgraph schema is priced |
| PlanCost.SumNodes | apollo-router/src/plugins/demand_control/cost_calculator/static_cost.rs:454-460 | the node loop returns the in-order sum of node scores or the first error |
| PlanCost.NodesErrorPersists | apollo-router/src/plugins/demand_control/cost_calculator/static_cost.rs:456-458 | once a prefix of the nodes fails, the sum fails with that error |
| PlanCost.SumDeferredNodes | apollo-router/src/plugins/demand_control/cost_calculator/static_cost.rs:437-452 | the deferred loop returns the primary node's score plus every present deferred node's score, or the first error |
| PlanCost.DeferredErrorPersists | apollo-router/src/plugins/demand_control/cost_calculator/static_cost.rs:446-450 | once a prefix of the deferred nodes fails, the sum fails with that error |
| PlanCostProperties.SequenceAndParallelAgree | apollo-router/src/plugins/demand_control/cost_calculator/static_cost.rs:380-381 | sequence and parallel nodes cost alike, the sum of their children |
| PlanCostProperties.FlattenIsTransparent | apollo-router/src/plugins/demand_control/cost_calculator/static_cost.rs:382 | a flatten node costs what its inner node costs |
| PlanCostProperties.ConditionTakesWorstBranch | apollo-router/src/plugins/demand_control/cost_calculator/static_cost.rs:420-435 | a condition costs its more expensive branch; with one branch absent it costs the other; with both absent 0.0 |
| PlanCostProperties.SummedAppend | apollo-router/src/plugins/demand_control/cost_calculator/static_cost.rs:454-460 | the sum over a concatenation is the sum of the two sums, with the earlier part's error first |
| PlanCostProperties.SummedChargesEveryNode | apollo-router/src/plugins/demand_control/cost_calculator/static_cost.rs:454-460 | every node of a successful sum succeeds and costs at most the sum |
| PlanCostProperties.DeferredSumChargesEveryPart | apollo-router/src/plugins/demand_control/cost_calculator/static_cost.rs:446-450 | every present deferred node of a successful sum costs at most the sum |
| PlanCostProperties.DeferChargesEveryPart | apollo-router/src/plugins/demand_control/cost_calculator/static_cost.rs:437-452 | a deferred operation that can be scored charges its primary part and every present deferred part, each in full |
| PlanCostProperties.FetchLeafErrors | apollo-router/src/plugins/demand_control/cost_calculator/static_cost.rs:407-416 | a fetch fails with a missing subgraph schema first, then with an operation that was never parsed |
| PlanCostProperties.FetchLeafOmitsRequires | apollo-router/src/plugins/demand_control/cost_calculator/static_cost.rs:414-417 | a parsed fetch is the static estimate against its subgraph schema without `@requires`, never more than with it |
| PlanCostProperties.SubscriptionChargesPrimaryOnly | apollo-router/src/plugins/demand_control/cost_calculator/static_cost.rs:394-396 | a subscription costs its primary fetch; the rest is ignored |
| PlanCostProperties.NodeFuel | apollo-router/src/plugins/demand_control/cost_calculator/static_cost.rs:378-398 | a plan node score that succeeds is the same with any larger bound |
| PlanCostProperties.NodesFuel | apollo-router/src/plugins/demand_control/cost_calculator/static_cost.rs:454-460 | the same for a node list |
| PlanCostProperties.DeferredFuel | apollo-router/src/plugins/demand_control/cost_calculator/static_cost.rs:446-450 | the same for deferred nodes |
| PlanCostProperties.PlannedFuel | apollo-router/src/plugins/demand_control/cost_calculator/static_cost.rs:478-480 | the same for a whole plan |
| ResponseCost.FieldWeight | apollo-router/src/plugins/demand_control/cost_calculator/static_cost.rs:541-543 | a field's `@cost` weight, or the default, is non-negative on a priced schema |
| ResponseCost.ActualArgumentCost | apollo-router/src/plugins/demand_control/cost_calculator/static_cost.rs:516-523 | a declared argument of a known field adds its score when the score succeeds; a nonzero charge only ever comes from a declared argument whose score succeeded, so a failed score adds 0.0; it is non-negative on a priced schema |
| ResponseCost.ActualArgumentsCost | apollo-router/src/plugins/demand_control/cost_calculator/static_cost.rs:514-531 | a visited field's arguments cost at least 0 on a priced schema |
| ResponseCost.ActualFieldCost | apollo-router/src/plugins/demand_control/cost_calculator/static_cost.rs:505-532 | a visited field costs at least 0 on a priced schema |
| ResponseCost.ActualListItemCost | apollo-router/src/plugins/demand_control/cost_calculator/static_cost.rs:534-559 | a response object adds the field's `@cost` weight (default 1.0) plus the cost of its children against the field's selection set; a null, boolean, number or string adds the weight with default 0.0; it is non-negative on a priced schema |
| ResponseCost.ActualItemsCost | apollo-router/src/plugins/demand_control/cost_calculator/static_cost.rs:549-553 | an array's elements cost at least 0 on a priced schema |
| ResponseCost.ActualSelectionSetCost | apollo-router/src/plugins/demand_control/cost_calculator/static_cost.rs:554-557 | an object's children cost at least 0 on a priced schema |
| ResponseCost.ActualSelectionsCost | apollo-router/src/plugins/demand_control/cost_calculator/static_cost.rs:554-557 | the same, selection by selection |
| ResponseCost.ActualSelectionCost | apollo-router/src/plugins/demand_control/cost_calculator/static_cost.rs:554-557 | one selection of an object's children costs at least 0 on a priced schema |
| ResponseCost.ActualOperationsCost | apollo-router/src/plugins/demand_control/cost_calculator/static_cost.rs:482-490 | the named operations' actual cost is at least 0 on a priced schema |
| ResponseCost.ResponseActualCost | apollo-router/src/plugins/demand_control/cost_calculator/static_cost.rs:482-490 | a response's actual cost is at least 0 on a priced schema |
| ResponseCost.ResponseCostCalculator.constructor | apollo-router/src/plugins/demand_control/cost_calculator/static_cost.rs:499-501 | a new visitor holds the schema and a cost of 0.0 |
| ResponseCost.ResponseCostCalculator.VisitField | apollo-router/src/plugins/demand_control/cost_calculator/static_cost.rs:505-532 | the cost grows by the value's cost plus each argument the definition declares and that scores, skipping the rest |
| ResponseCost.ResponseCostCalculator.VisitListItem | apollo-router/src/plugins/demand_control/cost_calculator/static_cost.rs:534-559 | the cost grows by the field's weight for a leaf (default 0.0), by each element for an array, and by the weight (default 1.0) plus the children for an object |
| ResponseCost.ResponseCostCalculator.VisitSelections | apollo-router/src/plugins/demand_control/cost_calculator/static_cost.rs:556 | the cost grows by the children's actual cost |
| ResponseCost.ResponseCostCalculator.Visit | apollo-router/src/plugins/demand_control/cost_calculator/static_cost.rs:488 | the cost grows by the response's actual cost |
| ResponseCost.Actual | apollo-router/src/plugins/demand_control/cost_calculator/static_cost.rs:482-490 | actual cost never fails; it is the visitor's total against the supergraph schema, starting from 0.0 |
| ResponseCostProperties.UniformItemsCost | apollo-router/src/plugins/demand_control/cost_calculator/static_cost.rs:549-553 | elements that each cost c add c once per element |
| ResponseCostProperties.ListFieldActualCost | apollo-router/src/plugins/demand_control/cost_calculator/static_cost.rs:505-553 | an array of n elements costing c each costs n·c, and the field's arguments are charged once, as for an empty array |
| ResponseCostProperties.LeafValueCostsWeight | apollo-router/src/plugins/demand_control/cost_calculator/static_cost.rs:546-548 | a null, boolean, number or string costs the field's weight, default 0.0 |
| ResponseCostProperties.LeafListCostsLength | apollo-router/src/plugins/demand_control/cost_calculator/static_cost.rs:546-553 | an array of n leaves costs n times the field's weight |
| ResponseCostProperties.UnresolvedArgumentsFree | apollo-router/src/plugins/demand_control/cost_calculator/static_cost.rs:514-531 | arguments of an unknown field, or arguments its definition does not declare, add nothing |
| ResponseCostProperties.MissingFieldCostsNothing | apollo-router/src/plugins/demand_control/cost_calculator/static_cost.rs:556 | a queried field absent from the response object costs nothing |
| ResponseCostProperties.FieldFuelGrows | apollo-router/src/plugins/demand_control/cost_calculator/static_cost.rs:505-532 | on a priced schema a larger fragment bound never lowers a field's actual cost |
| ResponseCostProperties.ListItemFuelGrows | apollo-router/src/plugins/demand_control/cost_calculator/static_cost.rs:534-559 | the same for a value |
| ResponseCostProperties.ItemsFuelGrows | apollo-router/src/plugins/demand_control/cost_calculator/static_cost.rs:549-553 | the same for an array's elements |
| ResponseCostProperties.SelectionSetFuelGrows | apollo-router/src/plugins/demand_control/cost_calculator/static_cost.rs:556 | the same for an object's children |
| ResponseCostProperties.SelectionsFuelGrows | apollo-router/src/plugins/demand_control/cost_calculator/static_cost.rs:556 | the same, selection by selection |
| ResponseCostProperties.SelectionFuelGrows | apollo-router/src/plugins/demand_control/cost_calculator/static_cost.rs:556 | the same for one selection |
| ResponseCostProperties.OperationsFuelGrows | apollo-router/src/plugins/demand_control/cost_calculator/static_cost.rs:488 | the same for the named operations |
| ResponseCostProperties.ResponseFuelGrows | apollo-router/src/plugins/demand_control/cost_calculator/static_cost.rs:482-490 | the same for a whole response |
| CostExamples.NestedObjectListsEstimate | apollo-router/src/plugins/demand_control/cost_calculator/static_cost.rs:742-747 | `{ items { children { id } } }` over two object-list levels is estimated at n·(1 + n) for default list size n |
| CostExamples.NestedObjectListsDefaults | apollo-router/src/plugins/demand_control/cost_calculator/static_cost.rs:742-747 | with the default list size of 100 the estimate is 10100.0; with 5 it is 30.0 |
| CostExamples.ChildCostsOne | apollo-router/src/plugins/demand_control/cost_calculator/static_cost.rs:554-557 | a returned object with one scalar child costs 1.0 |
| CostExamples.ChildrenCostOneEach | apollo-router/src/plugins/demand_control/cost_calculator/static_cost.rs:549-553 | three returned children cost 3.0 and an empty list costs 0.0 |
| CostExamples.ItemsCostOnePlusChildren | apollo-router/src/plugins/demand_control/cost_calculator/static_cost.rs:554-557 | an item costs 1.0 plus its children |
| CostExamples.NestedObjectListsActual | apollo-router/src/plugins/demand_control/cost_calculator/static_cost.rs:482-490 | the same query answered with two items holding three and zero children costs 5.0; unlike the estimate, the actual cost never reads the configured list size |

## Left out

- Floating point: costs are exact reals. `f64` rounding is not modelled.
- The default list size is an unbounded natural number. The conversion of the `u32` setting to `i32` (static_cost.rs:163) can wrap for values above 2³¹ − 1, and that wrap is not modelled.
- The scorers' termination bound: `fuel` limits how many fragment spreads and `@requires` selection sets are followed on one path.
  - Running out yields `DepthExhausted` in the estimators and 0.0 in the actual-cost walk. The source has no such bound.
  - The `…Fuel` lemmas show that, once an estimate succeeds, a larger bound does not change its result.
  - The `…FuelGrows` lemmas show only that the actual cost never decreases as the bound grows. That it settles once the bound reaches the spread nesting depth of an acyclic fragment table is not proved.
- ResponseCost.ResponseActualCost: charges nothing for fragment spreads nested deeper than `fuel`, so it is a lower bound on the source's actual cost; the source walks every spread. ResponseCost.Actual and ResponseCost.ResponseCostCalculator.Visit inherit this.
- Directive parsing is abstract:
  - `@cost` arrives as an optional weight on a definition;
  - `@listSize` arrives as a resolver from a field to a directive or an error, standing for `with_field` and its errors;
  - `size_of` is a table keyed by child field name;
  - `@requires` arrives as a parsed selection set;
  - `@include`/`@skip` arrive as an absent, literal-boolean or non-literal `if:` argument. A non-literal argument never excludes a field.
- How the demand-controlled schema is built from a GraphQL schema, and renamed directives, are not part of this model.
- The response visitor's `visit` and `visit_selections` traversal is defined outside static_cost.rs and is not part of this model. The model assumes the evident behaviour:
  - children are matched to selections by response key, and typed by the selection set's type;
  - fragment spreads are followed by name;
  - inline fragments are followed in place;
  - each operation of the request is walked against the response's `data` object.
- Incremental (deferred) responses, response paths and errors in the response are not modelled.
- `tracing` debug and warning logs are left out. They have no effect on any result.
- The query planner and the conversion of its plan into `PlanNode` are not part of this model. A fetch's subgraph operation arrives either parsed or not initialised.
- Error messages are modelled as structured reasons (`ParseFailure`) rather than formatted strings.

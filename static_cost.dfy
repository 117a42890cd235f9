/**
 * The static (pre-execution) estimate: the mutually recursive scorers over
 * fields, fragment spreads, inline fragments and selection sets, the
 * operation scorer with its mutation surcharge, and the document total.
 *
 * `fuel` bounds how many fragment spreads and `@requires` selection sets may
 * be followed on one path; both come from tables rather than from the shape of
 * the query, and running out yields `DepthExhausted`.
 */
module StaticCost {
  import opened GraphQL
  import opened Schema
  import opened ArgumentCost

  /** The calculator's configuration: the default list size and the schemas it prices against. */
  datatype StaticCostCalculator = StaticCostCalculator(
    listSize: nat,
    supergraphSchema: DemandControlledSchema,
    subgraphSchemas: map<string, DemandControlledSchema>)

  /**
   * `@include(if: false)` or `@skip(if: true)` with a literal boolean. Either
   * directive excludes the field on its own; a directive whose `if:` is not a
   * literal never does.
   */
  predicate SkippedByDirectives(field: Field): (skipped: bool)
    ensures field.includeIf == Literal(false) ==> skipped
    ensures field.skipIf == Literal(true) ==> skipped
    ensures skipped ==> field.includeIf.Literal? || field.skipIf.Literal?
  {
    field.includeIf == Literal(false) || field.skipIf == Literal(true)
  }

  /** The field's `@listSize` directive resolved against the field, when it has one. */
  function ResolveListSize(definition: FieldDef, field: Field): (r: Result<Option<ListSizeDirective>>)
    ensures r.Ok? && PricedField(definition) ==> NonNegativeListSize(r.value)
  {
    match definition.listSize
    case None => Ok(None)
    case Some(withField) =>
      var directive :- withField(field);
      Ok(Some(directive))
  }

  /**
   * How many instances of the field to charge for: 1 for a non-list field;
   * for a list, the size the enclosing `@listSize` gave this field, else the
   * field's own expected size, else the configured default.
   */
  function InstanceCount(field: Field, listSizeFromUpstream: Option<int>,
                         directive: Option<ListSizeDirective>, listSize: nat): (count: int)
    ensures !field.ty.isList ==> count == 1
    ensures NonNegativeSize(listSizeFromUpstream) && NonNegativeListSize(directive) ==> count >= 0
  {
    if !field.ty.isList then 1
    else if listSizeFromUpstream.Some? then listSizeFromUpstream.value
    else if directive.Some? && directive.value.expectedSize.Some? then directive.value.expectedSize.value
    else listSize
  }

  /** The field's `@cost` weight, else 1.0 for object, interface and union types, else 0.0. */
  function TypeWeight(cost: Option<real>, ty: TypeDef): (weight: real)
    ensures NonNegativeWeight(cost) ==> weight >= 0.0
    ensures cost.None? ==> (weight == 1.0 <==> ty.IsOutputType()) && (weight == 0.0 <==> !ty.IsOutputType())
  {
    if cost.Some? then cost.value else if ty.IsOutputType() then 1.0 else 0.0
  }

  /** count × (type weight + selection-set cost) + arguments + requirements. */
  function FieldCost(instanceCount: int, typeCost: real, argumentsCost: real, requirementsCost: real): (cost: real)
    ensures instanceCount >= 0 && typeCost >= 0.0 && argumentsCost >= 0.0 && requirementsCost >= 0.0 ==> cost >= 0.0
  {
    (instanceCount as real) * typeCost + argumentsCost + requirementsCost
  }

  /** Sum of the query's arguments of a field, each against its definition on the field, in order. */
  function ScoreArguments(arguments: seq<Argument>, definition: FieldDef, field: Field,
                          schema: DemandControlledSchema): (r: Result<real>)
    ensures r.Ok? && Priced(schema) && PricedField(definition) ==> r.value >= 0.0
    decreases arguments
  {
    if arguments == [] then Ok(0.0)
    else
      var last := arguments[|arguments| - 1];
      var init :- ScoreArguments(arguments[..|arguments| - 1], definition, field, schema);
      if last.name !in definition.arguments then
        Err(QueryParseFailure(ArgumentNotDefined(last.name, field.name)))
      else
        var lastCost :- ScoreArgument(last.value, definition.arguments[last.name], schema);
        Ok(init + lastCost)
  }

  function ScoreField(calculator: StaticCostCalculator, field: Field, parentType: string, schema: DemandControlledSchema,
                      executable: ExecutableDocument, shouldEstimateRequires: bool,
                      listSizeFromUpstream: Option<int>, fuel: nat): (r: Result<real>)
    ensures r.Ok? && Priced(schema) && NonNegativeSize(listSizeFromUpstream) ==> r.value >= 0.0
    decreases fuel, field
  {
    if SkippedByDirectives(field) then Ok(0.0)
    else
      var definition :- schema.TypeField(parentType, field.name);
      if field.ty.namedType !in schema.types then
        Err(QueryParseFailure(FieldTypeNotInSchema(field.name)))
      else
        var ty := schema.types[field.ty.namedType];
        var listSizeDirective :- ResolveListSize(definition, field);
        var instanceCount := InstanceCount(field, listSizeFromUpstream, listSizeDirective, calculator.listSize);
        var selectionCost :- ScoreSelectionSet(calculator, field.selectionSet.selections, field.ty.namedType, schema,
                                               executable, shouldEstimateRequires, listSizeDirective, fuel);
        var argumentsCost :- ScoreArguments(field.arguments, definition, field, schema);
        var requirementsCost :- ScoreRequirements(calculator, field, definition, parentType, schema, executable,
                                                  shouldEstimateRequires, listSizeDirective, fuel);
        Ok(FieldCost(instanceCount, TypeWeight(definition.cost, ty) + selectionCost, argumentsCost, requirementsCost))
  }

  /**
   * The `@requires` selection of `field`'s definition, scored against the same
   * parent type when requirements are estimated; 0.0 otherwise.
   */
  function ScoreRequirements(calculator: StaticCostCalculator, field: Field, definition: FieldDef, parentType: string,
                             schema: DemandControlledSchema, executable: ExecutableDocument,
                             shouldEstimateRequires: bool, listSizeDirective: Option<ListSizeDirective>,
                             fuel: nat): (r: Result<real>)
    ensures r.Ok? && Priced(schema) && NonNegativeListSize(listSizeDirective) ==> r.value >= 0.0
    ensures !shouldEstimateRequires || definition.requiredSelection.None? ==> r == Ok(0.0)
    ensures shouldEstimateRequires && definition.requiredSelection.Some? && fuel > 0 ==>
              r == ScoreSelectionSet(calculator, definition.requiredSelection.value.selections, parentType, schema,
                                     executable, true, listSizeDirective, fuel - 1)
    decreases fuel, field, 0
  {
    if shouldEstimateRequires && definition.requiredSelection.Some? then
      if fuel == 0 then Err(DepthExhausted)
      else ScoreSelectionSet(calculator, definition.requiredSelection.value.selections, parentType, schema,
                             executable, shouldEstimateRequires, listSizeDirective, fuel - 1)
    else Ok(0.0)
  }

  function ScoreFragmentSpread(calculator: StaticCostCalculator, spread: FragmentSpread, parentType: string,
                               schema: DemandControlledSchema, executable: ExecutableDocument,
                               shouldEstimateRequires: bool, listSizeDirective: Option<ListSizeDirective>,
                               fuel: nat): (r: Result<real>)
    ensures r.Ok? && Priced(schema) && NonNegativeListSize(listSizeDirective) ==> r.value >= 0.0
    decreases fuel, spread
  {
    if spread.fragmentName !in executable.fragments then
      Err(QueryParseFailure(FragmentNotDefined(spread.fragmentName)))
    else if fuel == 0 then
      Err(DepthExhausted)
    else
      ScoreSelectionSet(calculator, executable.fragments[spread.fragmentName].selectionSet.selections, parentType,
                        schema, executable, shouldEstimateRequires, listSizeDirective, fuel - 1)
  }

  function ScoreInlineFragment(calculator: StaticCostCalculator, inline: InlineFragment, parentType: string,
                               schema: DemandControlledSchema, executable: ExecutableDocument,
                               shouldEstimateRequires: bool, listSizeDirective: Option<ListSizeDirective>,
                               fuel: nat): (r: Result<real>)
    ensures r.Ok? && Priced(schema) && NonNegativeListSize(listSizeDirective) ==> r.value >= 0.0
    decreases fuel, inline
  {
    ScoreSelectionSet(calculator, inline.selectionSet.selections, parentType, schema, executable,
                      shouldEstimateRequires, listSizeDirective, fuel)
  }

  function ScoreSelection(calculator: StaticCostCalculator, selection: Selection, parentType: string,
                          schema: DemandControlledSchema, executable: ExecutableDocument,
                          shouldEstimateRequires: bool, listSizeDirective: Option<ListSizeDirective>,
                          fuel: nat): (r: Result<real>)
    ensures r.Ok? && Priced(schema) && NonNegativeListSize(listSizeDirective) ==> r.value >= 0.0
    ensures selection.InlineSelection? ==>
              r == ScoreSelectionSet(calculator, selection.inline.selectionSet.selections,
                                     selection.inline.typeCondition.GetOr(parentType), schema, executable,
                                     shouldEstimateRequires, listSizeDirective, fuel)
    decreases fuel, selection
  {
    match selection
    case FieldSelection(f) =>
      var upstream := if listSizeDirective.Some? then listSizeDirective.value.SizeOf(f) else None;
      ScoreField(calculator, f, parentType, schema, executable, shouldEstimateRequires, upstream, fuel)
    case SpreadSelection(s) =>
      ScoreFragmentSpread(calculator, s, parentType, schema, executable, shouldEstimateRequires, listSizeDirective, fuel)
    case InlineSelection(i) =>
      ScoreInlineFragment(calculator, i, i.typeCondition.GetOr(parentType), schema, executable,
                          shouldEstimateRequires, listSizeDirective, fuel)
  }

  /** Sum of the selections' scores against the same parent type, in order; the first error wins. */
  function ScoreSelectionSet(calculator: StaticCostCalculator, selections: seq<Selection>, parentType: string,
                             schema: DemandControlledSchema, executable: ExecutableDocument,
                             shouldEstimateRequires: bool, listSizeDirective: Option<ListSizeDirective>,
                             fuel: nat): (r: Result<real>)
    ensures r.Ok? && Priced(schema) && NonNegativeListSize(listSizeDirective) ==> r.value >= 0.0
    decreases fuel, selections
  {
    if selections == [] then Ok(0.0)
    else
      var init :- ScoreSelectionSet(calculator, selections[..|selections| - 1], parentType, schema, executable,
                                    shouldEstimateRequires, listSizeDirective, fuel);
      var last :- ScoreSelection(calculator, selections[|selections| - 1], parentType, schema, executable,
                                 shouldEstimateRequires, listSizeDirective, fuel);
      Ok(init + last)
  }

  /** The flat surcharge an operation pays before its selections. */
  function OperationSurcharge(operationType: OperationType): (surcharge: real)
    ensures surcharge >= 0.0
    ensures surcharge > 0.0 <==> operationType == Mutation
  {
    if operationType == Mutation then 10.0 else 0.0
  }

  function ScoreOperation(calculator: StaticCostCalculator, operation: Operation, schema: DemandControlledSchema,
                          executable: ExecutableDocument, shouldEstimateRequires: bool, fuel: nat): (r: Result<real>)
    ensures r.Ok? && Priced(schema) ==> r.value >= 0.0
  {
    var cost := OperationSurcharge(operation.operationType);
    if operation.operationType !in schema.rootOperations then
      Err(QueryParseFailure(RootTypeUnsupported(operation.operationType)))
    else
      var selectionsCost :- ScoreSelectionSet(calculator, operation.selectionSet.selections,
                                              schema.rootOperations[operation.operationType], schema,
                                              executable, shouldEstimateRequires, None, fuel);
      Ok(cost + selectionsCost)
  }

  /** Sum of the scores of `operations`, in order. */
  function ScoreOperations(calculator: StaticCostCalculator, operations: seq<Operation>, schema: DemandControlledSchema,
                           executable: ExecutableDocument, shouldEstimateRequires: bool, fuel: nat): (r: Result<real>)
    ensures r.Ok? && Priced(schema) ==> r.value >= 0.0
  {
    if operations == [] then Ok(0.0)
    else
      var init :- ScoreOperations(calculator, operations[..|operations| - 1], schema, executable, shouldEstimateRequires, fuel);
      var last :- ScoreOperation(calculator, operations[|operations| - 1], schema, executable, shouldEstimateRequires, fuel);
      Ok(init + last)
  }

  /** The document's estimate: its anonymous operation, if any, plus every named operation. */
  function Estimated(calculator: StaticCostCalculator, query: ExecutableDocument, schema: DemandControlledSchema,
                     shouldEstimateRequires: bool, fuel: nat): (r: Result<real>)
    ensures r.Ok? && Priced(schema) ==> r.value >= 0.0
  {
    var anonymousCost :-
      if query.anonymous.Some? then ScoreOperation(calculator, query.anonymous.value, schema, query, shouldEstimateRequires, fuel)
      else Ok(0.0);
    var namedCost :- ScoreOperations(calculator, query.named, schema, query, shouldEstimateRequires, fuel);
    Ok(anonymousCost + namedCost)
  }

  /**
   * The argument loop of the field scorer as the source runs it: each query
   * argument needs a definition on the field and is scored against it, in
   * order, stopping at the first failure.
   */
  method SumArguments(arguments: seq<Argument>, definition: FieldDef, field: Field, schema: DemandControlledSchema)
    returns (r: Result<real>)
    ensures r == ScoreArguments(arguments, definition, field, schema)
  {
    var cost := 0.0;
    for i := 0 to |arguments|
      invariant ScoreArguments(arguments[..i], definition, field, schema) == Ok(cost)
    {
      assert arguments[..i + 1][..i] == arguments[..i];
      var argument := arguments[i];
      if argument.name !in definition.arguments {
        r := Err(QueryParseFailure(ArgumentNotDefined(argument.name, field.name)));
        ArgumentsErrorPersists(arguments, definition, field, schema, i + 1);
        return;
      }
      var score := ScoreArgument(argument.value, definition.arguments[argument.name], schema);
      if score.Err? {
        r := Err(score.error);
        ArgumentsErrorPersists(arguments, definition, field, schema, i + 1);
        return;
      }
      cost := cost + score.value;
    }
    assert arguments[..|arguments|] == arguments;
    r := Ok(cost);
  }

  lemma {:induction false} ArgumentsErrorPersists(arguments: seq<Argument>, definition: FieldDef, field: Field,
                                                  schema: DemandControlledSchema, i: nat)
    requires i <= |arguments| && ScoreArguments(arguments[..i], definition, field, schema).Err?
    ensures ScoreArguments(arguments, definition, field, schema) == ScoreArguments(arguments[..i], definition, field, schema)
    decreases |arguments| - i
  {
    if i < |arguments| {
      assert arguments[..i + 1][..i] == arguments[..i];
      ArgumentsErrorPersists(arguments, definition, field, schema, i + 1);
    } else {
      assert arguments[..i] == arguments;
    }
  }

  /** The selection-set loop as the source runs it: add each selection's score, stop at the first error. */
  method SumSelectionSet(calculator: StaticCostCalculator, selections: seq<Selection>, parentType: string,
                         schema: DemandControlledSchema, executable: ExecutableDocument,
                         shouldEstimateRequires: bool, listSizeDirective: Option<ListSizeDirective>, fuel: nat)
    returns (r: Result<real>)
    ensures r == ScoreSelectionSet(calculator, selections, parentType, schema, executable,
                                   shouldEstimateRequires, listSizeDirective, fuel)
  {
    var cost := 0.0;
    for i := 0 to |selections|
      invariant ScoreSelectionSet(calculator, selections[..i], parentType, schema, executable,
                                  shouldEstimateRequires, listSizeDirective, fuel) == Ok(cost)
    {
      assert selections[..i + 1][..i] == selections[..i];
      var score := ScoreSelection(calculator, selections[i], parentType, schema, executable,
                                  shouldEstimateRequires, listSizeDirective, fuel);
      if score.Err? {
        r := Err(score.error);
        SelectionSetErrorPersists(calculator, selections, parentType, schema, executable,
                                  shouldEstimateRequires, listSizeDirective, fuel, i + 1);
        return;
      }
      cost := cost + score.value;
    }
    assert selections[..|selections|] == selections;
    r := Ok(cost);
  }

  lemma {:induction false} SelectionSetErrorPersists(calculator: StaticCostCalculator, selections: seq<Selection>,
                                                     parentType: string, schema: DemandControlledSchema,
                                                     executable: ExecutableDocument, shouldEstimateRequires: bool,
                                                     listSizeDirective: Option<ListSizeDirective>, fuel: nat, i: nat)
    requires i <= |selections|
    requires ScoreSelectionSet(calculator, selections[..i], parentType, schema, executable,
                               shouldEstimateRequires, listSizeDirective, fuel).Err?
    ensures ScoreSelectionSet(calculator, selections, parentType, schema, executable,
                              shouldEstimateRequires, listSizeDirective, fuel)
            == ScoreSelectionSet(calculator, selections[..i], parentType, schema, executable,
                                 shouldEstimateRequires, listSizeDirective, fuel)
    decreases |selections| - i
  {
    if i < |selections| {
      assert selections[..i + 1][..i] == selections[..i];
      SelectionSetErrorPersists(calculator, selections, parentType, schema, executable,
                                shouldEstimateRequires, listSizeDirective, fuel, i + 1);
    } else {
      assert selections[..i] == selections;
    }
  }

  /**
   * The document loop as the source runs it: the anonymous operation first,
   * then the named operations, stopping at the first error.
   */
  method EstimateDocument(calculator: StaticCostCalculator, query: ExecutableDocument, schema: DemandControlledSchema,
                          shouldEstimateRequires: bool, fuel: nat) returns (r: Result<real>)
    ensures r == Estimated(calculator, query, schema, shouldEstimateRequires, fuel)
  {
    var cost := 0.0;
    if query.anonymous.Some? {
      var score := ScoreOperation(calculator, query.anonymous.value, schema, query, shouldEstimateRequires, fuel);
      if score.Err? {
        return Err(score.error);
      }
      cost := score.value;
    }
    var namedCost := SumOperations(calculator, query.named, schema, query, shouldEstimateRequires, fuel);
    if namedCost.Err? {
      return Err(namedCost.error);
    }
    r := Ok(cost + namedCost.value);
  }

  /** Each named operation's score added in order, stopping at the first error. */
  method SumOperations(calculator: StaticCostCalculator, operations: seq<Operation>, schema: DemandControlledSchema,
                       executable: ExecutableDocument, shouldEstimateRequires: bool, fuel: nat) returns (r: Result<real>)
    ensures r == ScoreOperations(calculator, operations, schema, executable, shouldEstimateRequires, fuel)
  {
    var cost := 0.0;
    for i := 0 to |operations|
      invariant ScoreOperations(calculator, operations[..i], schema, executable, shouldEstimateRequires, fuel) == Ok(cost)
    {
      assert operations[..i + 1][..i] == operations[..i];
      var score := ScoreOperation(calculator, operations[i], schema, executable, shouldEstimateRequires, fuel);
      if score.Err? {
        r := Err(score.error);
        OperationsErrorPersists(calculator, operations, schema, executable, shouldEstimateRequires, fuel, i + 1);
        return;
      }
      cost := cost + score.value;
    }
    assert operations[..|operations|] == operations;
    r := Ok(cost);
  }

  lemma {:induction false} OperationsErrorPersists(calculator: StaticCostCalculator, operations: seq<Operation>,
                                                   schema: DemandControlledSchema, executable: ExecutableDocument,
                                                   shouldEstimateRequires: bool, fuel: nat, i: nat)
    requires i <= |operations|
    requires ScoreOperations(calculator, operations[..i], schema, executable, shouldEstimateRequires, fuel).Err?
    ensures ScoreOperations(calculator, operations, schema, executable, shouldEstimateRequires, fuel)
            == ScoreOperations(calculator, operations[..i], schema, executable, shouldEstimateRequires, fuel)
    decreases |operations| - i
  {
    if i < |operations| {
      assert operations[..i + 1][..i] == operations[..i];
      OperationsErrorPersists(calculator, operations, schema, executable, shouldEstimateRequires, fuel, i + 1);
    } else {
      assert operations[..i] == operations;
    }
  }
}

/**
 * What the static estimate promises across calls: it never shrinks when the
 * default list size grows or when `@requires` selections are also charged, it
 * does not depend on how much fuel it is given once it succeeds, an error in
 * any selection fails the whole set, and the per-field and per-operation
 * rules hold as stated.
 */
module StaticCostProperties {
  import opened GraphQL
  import opened Schema
  import opened ArgumentCost
  import opened StaticCost

  /** The field formula is monotone in each of its four inputs when the count and type cost are non-negative. */
  lemma FieldCostMonotone(countLo: int, countHi: int, typeLo: real, typeHi: real,
                          argsLo: real, argsHi: real, reqsLo: real, reqsHi: real)
    requires 0 <= countLo <= countHi && 0.0 <= typeLo <= typeHi && argsLo <= argsHi && reqsLo <= reqsHi
    ensures FieldCost(countLo, typeLo, argsLo, reqsLo) <= FieldCost(countHi, typeHi, argsHi, reqsHi)
  {
    var cl, ch := countLo as real, countHi as real;
    ProductMonotone(cl, ch, typeLo, typeHi);
    assert FieldCost(countLo, typeLo, argsLo, reqsLo) == cl * typeLo + argsLo + reqsLo;
    assert FieldCost(countHi, typeHi, argsHi, reqsHi) == ch * typeHi + argsHi + reqsHi;
  }

  lemma ProductMonotone(a: real, b: real, x: real, y: real)
    requires 0.0 <= a <= b && 0.0 <= x <= y
    ensures a * x <= b * y
  {
    assert a * x <= a * y;
    assert a * y <= b * y;
  }

  lemma {:induction false} FieldDominance(lo: StaticCostCalculator, hi: StaticCostCalculator, field: Field,
                                          parentType: string, schema: DemandControlledSchema,
                                          executable: ExecutableDocument, reqLo: bool, reqHi: bool,
                                          upstream: Option<int>, fuel: nat)
    requires lo.listSize <= hi.listSize && (reqLo ==> reqHi)
    requires Priced(schema) && NonNegativeSize(upstream)
    requires ScoreField(hi, field, parentType, schema, executable, reqHi, upstream, fuel).Ok?
    ensures ScoreField(lo, field, parentType, schema, executable, reqLo, upstream, fuel).Ok?
    ensures ScoreField(lo, field, parentType, schema, executable, reqLo, upstream, fuel).value
            <= ScoreField(hi, field, parentType, schema, executable, reqHi, upstream, fuel).value
    decreases fuel, field
  {
    if !SkippedByDirectives(field) {
      var definition := schema.TypeField(parentType, field.name).value;
      PricedLookup(schema, parentType, field.name);
      var ty := schema.types[field.ty.namedType];
      var directive := ResolveListSize(definition, field).value;
      var selections := field.selectionSet.selections;
      SelectionSetDominance(lo, hi, selections, field.ty.namedType, schema, executable, reqLo, reqHi, directive, fuel);
      var subLo := ScoreSelectionSet(lo, selections, field.ty.namedType, schema, executable, reqLo, directive, fuel).value;
      var subHi := ScoreSelectionSet(hi, selections, field.ty.namedType, schema, executable, reqHi, directive, fuel).value;
      var required := definition.requiredSelection;
      var reqsHi := if reqHi && required.Some? then
        ScoreSelectionSet(hi, required.value.selections, parentType, schema, executable, reqHi, directive, fuel - 1).value
        else 0.0;
      var reqsLo := 0.0;
      if reqLo && required.Some? {
        SelectionSetDominance(lo, hi, required.value.selections, parentType, schema, executable, reqLo, reqHi, directive, fuel - 1);
        reqsLo := ScoreSelectionSet(lo, required.value.selections, parentType, schema, executable, reqLo, directive, fuel - 1).value;
      }
      var args := ScoreArguments(field.arguments, definition, field, schema).value;
      FieldCostMonotone(InstanceCount(field, upstream, directive, lo.listSize),
                        InstanceCount(field, upstream, directive, hi.listSize),
                        TypeWeight(definition.cost, ty) + subLo, TypeWeight(definition.cost, ty) + subHi,
                        args, args, reqsLo, reqsHi);
    }
  }

  lemma {:induction false} SelectionDominance(lo: StaticCostCalculator, hi: StaticCostCalculator, selection: Selection,
                                              parentType: string, schema: DemandControlledSchema,
                                              executable: ExecutableDocument, reqLo: bool, reqHi: bool,
                                              directive: Option<ListSizeDirective>, fuel: nat)
    requires lo.listSize <= hi.listSize && (reqLo ==> reqHi)
    requires Priced(schema) && NonNegativeListSize(directive)
    requires ScoreSelection(hi, selection, parentType, schema, executable, reqHi, directive, fuel).Ok?
    ensures ScoreSelection(lo, selection, parentType, schema, executable, reqLo, directive, fuel).Ok?
    ensures ScoreSelection(lo, selection, parentType, schema, executable, reqLo, directive, fuel).value
            <= ScoreSelection(hi, selection, parentType, schema, executable, reqHi, directive, fuel).value
    decreases fuel, selection
  {
    match selection
    case FieldSelection(f) =>
      var upstream := if directive.Some? then directive.value.SizeOf(f) else None;
      FieldDominance(lo, hi, f, parentType, schema, executable, reqLo, reqHi, upstream, fuel);
    case SpreadSelection(s) =>
      SelectionSetDominance(lo, hi, executable.fragments[s.fragmentName].selectionSet.selections, parentType,
                            schema, executable, reqLo, reqHi, directive, fuel - 1);
    case InlineSelection(i) =>
      SelectionSetDominance(lo, hi, i.selectionSet.selections, i.typeCondition.GetOr(parentType),
                            schema, executable, reqLo, reqHi, directive, fuel);
  }

  lemma {:induction false} SelectionSetDominance(lo: StaticCostCalculator, hi: StaticCostCalculator,
                                                 selections: seq<Selection>, parentType: string,
                                                 schema: DemandControlledSchema, executable: ExecutableDocument,
                                                 reqLo: bool, reqHi: bool, directive: Option<ListSizeDirective>,
                                                 fuel: nat)
    requires lo.listSize <= hi.listSize && (reqLo ==> reqHi)
    requires Priced(schema) && NonNegativeListSize(directive)
    requires ScoreSelectionSet(hi, selections, parentType, schema, executable, reqHi, directive, fuel).Ok?
    ensures ScoreSelectionSet(lo, selections, parentType, schema, executable, reqLo, directive, fuel).Ok?
    ensures ScoreSelectionSet(lo, selections, parentType, schema, executable, reqLo, directive, fuel).value
            <= ScoreSelectionSet(hi, selections, parentType, schema, executable, reqHi, directive, fuel).value
    decreases fuel, selections
  {
    if selections != [] {
      SelectionSetDominance(lo, hi, selections[..|selections| - 1], parentType, schema, executable,
                            reqLo, reqHi, directive, fuel);
      SelectionDominance(lo, hi, selections[|selections| - 1], parentType, schema, executable,
                         reqLo, reqHi, directive, fuel);
    }
  }

  lemma OperationDominance(lo: StaticCostCalculator, hi: StaticCostCalculator, operation: Operation,
                           schema: DemandControlledSchema, executable: ExecutableDocument,
                           reqLo: bool, reqHi: bool, fuel: nat)
    requires lo.listSize <= hi.listSize && (reqLo ==> reqHi) && Priced(schema)
    requires ScoreOperation(hi, operation, schema, executable, reqHi, fuel).Ok?
    ensures ScoreOperation(lo, operation, schema, executable, reqLo, fuel).Ok?
    ensures ScoreOperation(lo, operation, schema, executable, reqLo, fuel).value
            <= ScoreOperation(hi, operation, schema, executable, reqHi, fuel).value
  {
    SelectionSetDominance(lo, hi, operation.selectionSet.selections, schema.rootOperations[operation.operationType],
                          schema, executable, reqLo, reqHi, None, fuel);
  }

  lemma {:induction false} OperationsDominance(lo: StaticCostCalculator, hi: StaticCostCalculator,
                                               operations: seq<Operation>, schema: DemandControlledSchema,
                                               executable: ExecutableDocument, reqLo: bool, reqHi: bool, fuel: nat)
    requires lo.listSize <= hi.listSize && (reqLo ==> reqHi) && Priced(schema)
    requires ScoreOperations(hi, operations, schema, executable, reqHi, fuel).Ok?
    ensures ScoreOperations(lo, operations, schema, executable, reqLo, fuel).Ok?
    ensures ScoreOperations(lo, operations, schema, executable, reqLo, fuel).value
            <= ScoreOperations(hi, operations, schema, executable, reqHi, fuel).value
    decreases |operations|
  {
    if operations != [] {
      OperationsDominance(lo, hi, operations[..|operations| - 1], schema, executable, reqLo, reqHi, fuel);
      OperationDominance(lo, hi, operations[|operations| - 1], schema, executable, reqLo, reqHi, fuel);
    }
  }

  /**
   * A smaller default list size, or leaving `@requires` selections out, never
   * raises the estimate and never turns a successful estimate into an error.
   */
  lemma EstimatedDominance(lo: StaticCostCalculator, hi: StaticCostCalculator, query: ExecutableDocument,
                           schema: DemandControlledSchema, reqLo: bool, reqHi: bool, fuel: nat)
    requires lo.listSize <= hi.listSize && (reqLo ==> reqHi) && Priced(schema)
    requires Estimated(hi, query, schema, reqHi, fuel).Ok?
    ensures Estimated(lo, query, schema, reqLo, fuel).Ok?
    ensures Estimated(lo, query, schema, reqLo, fuel).value <= Estimated(hi, query, schema, reqHi, fuel).value
  {
    if query.anonymous.Some? {
      OperationDominance(lo, hi, query.anonymous.value, schema, query, reqLo, reqHi, fuel);
    }
    OperationsDominance(lo, hi, query.named, schema, query, reqLo, reqHi, fuel);
  }

  lemma {:induction false} FieldFuel(calculator: StaticCostCalculator, field: Field, parentType: string,
                                     schema: DemandControlledSchema, executable: ExecutableDocument,
                                     shouldEstimateRequires: bool, upstream: Option<int>, fuel: nat, more: nat)
    requires fuel <= more
    requires ScoreField(calculator, field, parentType, schema, executable, shouldEstimateRequires, upstream, fuel).Ok?
    ensures ScoreField(calculator, field, parentType, schema, executable, shouldEstimateRequires, upstream, more)
            == ScoreField(calculator, field, parentType, schema, executable, shouldEstimateRequires, upstream, fuel)
    decreases fuel, field
  {
    if !SkippedByDirectives(field) {
      var definition := schema.TypeField(parentType, field.name).value;
      var directive := ResolveListSize(definition, field).value;
      SelectionSetFuel(calculator, field.selectionSet.selections, field.ty.namedType, schema, executable,
                       shouldEstimateRequires, directive, fuel, more);
      if shouldEstimateRequires && definition.requiredSelection.Some? {
        SelectionSetFuel(calculator, definition.requiredSelection.value.selections, parentType, schema, executable,
                         shouldEstimateRequires, directive, fuel - 1, more - 1);
      }
    }
  }

  lemma {:induction false} SelectionFuel(calculator: StaticCostCalculator, selection: Selection, parentType: string,
                                         schema: DemandControlledSchema, executable: ExecutableDocument,
                                         shouldEstimateRequires: bool, directive: Option<ListSizeDirective>,
                                         fuel: nat, more: nat)
    requires fuel <= more
    requires ScoreSelection(calculator, selection, parentType, schema, executable, shouldEstimateRequires, directive, fuel).Ok?
    ensures ScoreSelection(calculator, selection, parentType, schema, executable, shouldEstimateRequires, directive, more)
            == ScoreSelection(calculator, selection, parentType, schema, executable, shouldEstimateRequires, directive, fuel)
    decreases fuel, selection
  {
    match selection
    case FieldSelection(f) =>
      var upstream := if directive.Some? then directive.value.SizeOf(f) else None;
      FieldFuel(calculator, f, parentType, schema, executable, shouldEstimateRequires, upstream, fuel, more);
    case SpreadSelection(s) =>
      SelectionSetFuel(calculator, executable.fragments[s.fragmentName].selectionSet.selections, parentType,
                       schema, executable, shouldEstimateRequires, directive, fuel - 1, more - 1);
    case InlineSelection(i) =>
      SelectionSetFuel(calculator, i.selectionSet.selections, i.typeCondition.GetOr(parentType),
                       schema, executable, shouldEstimateRequires, directive, fuel, more);
  }

  lemma {:induction false} SelectionSetFuel(calculator: StaticCostCalculator, selections: seq<Selection>,
                                            parentType: string, schema: DemandControlledSchema,
                                            executable: ExecutableDocument, shouldEstimateRequires: bool,
                                            directive: Option<ListSizeDirective>, fuel: nat, more: nat)
    requires fuel <= more
    requires ScoreSelectionSet(calculator, selections, parentType, schema, executable, shouldEstimateRequires, directive, fuel).Ok?
    ensures ScoreSelectionSet(calculator, selections, parentType, schema, executable, shouldEstimateRequires, directive, more)
            == ScoreSelectionSet(calculator, selections, parentType, schema, executable, shouldEstimateRequires, directive, fuel)
    decreases fuel, selections
  {
    if selections != [] {
      SelectionSetFuel(calculator, selections[..|selections| - 1], parentType, schema, executable,
                       shouldEstimateRequires, directive, fuel, more);
      SelectionFuel(calculator, selections[|selections| - 1], parentType, schema, executable,
                    shouldEstimateRequires, directive, fuel, more);
    }
  }

  lemma {:induction false} OperationsFuel(calculator: StaticCostCalculator, operations: seq<Operation>,
                                          schema: DemandControlledSchema, executable: ExecutableDocument,
                                          shouldEstimateRequires: bool, fuel: nat, more: nat)
    requires fuel <= more
    requires ScoreOperations(calculator, operations, schema, executable, shouldEstimateRequires, fuel).Ok?
    ensures ScoreOperations(calculator, operations, schema, executable, shouldEstimateRequires, more)
            == ScoreOperations(calculator, operations, schema, executable, shouldEstimateRequires, fuel)
    decreases |operations|
  {
    if operations != [] {
      OperationsFuel(calculator, operations[..|operations| - 1], schema, executable, shouldEstimateRequires, fuel, more);
      var last := operations[|operations| - 1];
      SelectionSetFuel(calculator, last.selectionSet.selections, schema.rootOperations[last.operationType], schema,
                       executable, shouldEstimateRequires, None, fuel, more);
    }
  }

  /**
   * The fuel bound is only a termination device: once an estimate succeeds,
   * any larger bound gives the same estimate.
   */
  lemma EstimatedFuel(calculator: StaticCostCalculator, query: ExecutableDocument, schema: DemandControlledSchema,
                      shouldEstimateRequires: bool, fuel: nat, more: nat)
    requires fuel <= more
    requires Estimated(calculator, query, schema, shouldEstimateRequires, fuel).Ok?
    ensures Estimated(calculator, query, schema, shouldEstimateRequires, more)
            == Estimated(calculator, query, schema, shouldEstimateRequires, fuel)
  {
    if query.anonymous.Some? {
      var op := query.anonymous.value;
      SelectionSetFuel(calculator, op.selectionSet.selections, schema.rootOperations[op.operationType], schema,
                       query, shouldEstimateRequires, None, fuel, more);
    }
    OperationsFuel(calculator, query.named, schema, query, shouldEstimateRequires, fuel, more);
  }

  /** A field excluded by a literal `@include(if: false)` or `@skip(if: true)` costs nothing and cannot fail. */
  lemma SkippedFieldIsFree(calculator: StaticCostCalculator, field: Field, parentType: string,
                           schema: DemandControlledSchema, executable: ExecutableDocument,
                           shouldEstimateRequires: bool, upstream: Option<int>, fuel: nat)
    requires field.includeIf == Literal(false) || field.skipIf == Literal(true)
    ensures ScoreField(calculator, field, parentType, schema, executable, shouldEstimateRequires, upstream, fuel) == Ok(0.0)
  {
  }

  /**
   * A field that is scored is charged `count` instances of `typeWeight` plus
   * its selection set, then its arguments and its `@requires` selection once.
   */
  ghost predicate ChargedAs(calculator: StaticCostCalculator, field: Field, parentType: string,
                            schema: DemandControlledSchema, executable: ExecutableDocument,
                            shouldEstimateRequires: bool, upstream: Option<int>, fuel: nat,
                            count: int, typeWeight: real)
    requires !SkippedByDirectives(field)
    requires ScoreField(calculator, field, parentType, schema, executable, shouldEstimateRequires, upstream, fuel).Ok?
  {
    var definition := schema.TypeField(parentType, field.name).value;
    var directive := ResolveListSize(definition, field).value;
    var selectionCost := ScoreSelectionSet(calculator, field.selectionSet.selections, field.ty.namedType, schema,
                                           executable, shouldEstimateRequires, directive, fuel).value;
    var argumentsCost := ScoreArguments(field.arguments, definition, field, schema).value;
    var requirementsCost := ScoreRequirements(calculator, field, definition, parentType, schema, executable,
                                              shouldEstimateRequires, directive, fuel).value;
    ScoreField(calculator, field, parentType, schema, executable, shouldEstimateRequires, upstream, fuel)
      == Ok(FieldCost(count, typeWeight + selectionCost, argumentsCost, requirementsCost))
  }

  /** The `@cost` weight of the field, else the default for its type. */
  ghost function FieldTypeWeight(field: Field, parentType: string, schema: DemandControlledSchema): real
    requires schema.TypeField(parentType, field.name).Ok? && field.ty.namedType in schema.types
  {
    TypeWeight(schema.TypeField(parentType, field.name).value.cost, schema.types[field.ty.namedType])
  }

  /** A field that is not a list is charged once, whatever list size is in force. */
  lemma NonListFieldChargedOnce(calculator: StaticCostCalculator, field: Field, parentType: string,
                                schema: DemandControlledSchema, executable: ExecutableDocument,
                                shouldEstimateRequires: bool, upstream: Option<int>, fuel: nat)
    requires !field.ty.isList && !SkippedByDirectives(field)
    requires ScoreField(calculator, field, parentType, schema, executable, shouldEstimateRequires, upstream, fuel).Ok?
    ensures ChargedAs(calculator, field, parentType, schema, executable, shouldEstimateRequires, upstream, fuel,
                      1, FieldTypeWeight(field, parentType, schema))
  {
  }

  /**
   * A list field sized by the enclosing field's `@listSize` is charged that
   * many instances, whatever its own `@listSize` and the default list size say.
   */
  lemma UpstreamSizeFirst(calculator: StaticCostCalculator, field: Field, parentType: string,
                          schema: DemandControlledSchema, executable: ExecutableDocument,
                          shouldEstimateRequires: bool, size: int, fuel: nat)
    requires field.ty.isList && !SkippedByDirectives(field)
    requires ScoreField(calculator, field, parentType, schema, executable, shouldEstimateRequires, Some(size), fuel).Ok?
    ensures ChargedAs(calculator, field, parentType, schema, executable, shouldEstimateRequires, Some(size), fuel,
                      size, FieldTypeWeight(field, parentType, schema))
  {
  }

  /**
   * Without an upstream size, a list field whose own `@listSize` gives an
   * expected size is charged that many instances, whatever the default.
   */
  lemma ExpectedSizeNext(calculator: StaticCostCalculator, field: Field, parentType: string,
                         schema: DemandControlledSchema, executable: ExecutableDocument,
                         shouldEstimateRequires: bool, directive: ListSizeDirective, size: int, fuel: nat)
    requires field.ty.isList && !SkippedByDirectives(field)
    requires ScoreField(calculator, field, parentType, schema, executable, shouldEstimateRequires, None, fuel).Ok?
    requires ResolveListSize(schema.TypeField(parentType, field.name).value, field) == Ok(Some(directive))
    requires directive.expectedSize == Some(size)
    ensures ChargedAs(calculator, field, parentType, schema, executable, shouldEstimateRequires, None, fuel,
                      size, FieldTypeWeight(field, parentType, schema))
  {
  }

  /** A list field with neither an upstream nor an expected size is charged the default list size. */
  lemma DefaultListSizeLast(calculator: StaticCostCalculator, field: Field, parentType: string,
                            schema: DemandControlledSchema, executable: ExecutableDocument,
                            shouldEstimateRequires: bool, fuel: nat)
    requires field.ty.isList && !SkippedByDirectives(field)
    requires ScoreField(calculator, field, parentType, schema, executable, shouldEstimateRequires, None, fuel).Ok?
    requires ResolveListSize(schema.TypeField(parentType, field.name).value, field).value.None?
             || ResolveListSize(schema.TypeField(parentType, field.name).value, field).value.value.expectedSize.None?
    ensures ChargedAs(calculator, field, parentType, schema, executable, shouldEstimateRequires, None, fuel,
                      calculator.listSize, FieldTypeWeight(field, parentType, schema))
  {
  }

  /**
   * Without `@cost`, each instance of a field of object, interface or union
   * type weighs 1.0 and each instance of a scalar or enum field weighs 0.0.
   */
  lemma UncostedFieldTypeWeight(calculator: StaticCostCalculator, field: Field, parentType: string,
                                schema: DemandControlledSchema, executable: ExecutableDocument,
                                shouldEstimateRequires: bool, upstream: Option<int>, fuel: nat)
    requires !SkippedByDirectives(field)
    requires ScoreField(calculator, field, parentType, schema, executable, shouldEstimateRequires, upstream, fuel).Ok?
    requires schema.TypeField(parentType, field.name).value.cost.None?
    ensures var count := InstanceCount(field, upstream, ResolveListSize(schema.TypeField(parentType, field.name).value, field).value,
                                       calculator.listSize);
            ChargedAs(calculator, field, parentType, schema, executable, shouldEstimateRequires, upstream, fuel,
                      count, if schema.types[field.ty.namedType].IsOutputType() then 1.0 else 0.0)
  {
  }

  /**
   * Selections are scored in order and the first one that fails decides the
   * error of the whole set, whatever follows it.
   */
  lemma {:induction false} FirstErrorWins(calculator: StaticCostCalculator, selections: seq<Selection>, i: nat,
                                          parentType: string, schema: DemandControlledSchema,
                                          executable: ExecutableDocument, shouldEstimateRequires: bool,
                                          directive: Option<ListSizeDirective>, fuel: nat)
    requires i < |selections|
    requires ScoreSelectionSet(calculator, selections[..i], parentType, schema, executable, shouldEstimateRequires, directive, fuel).Ok?
    requires ScoreSelection(calculator, selections[i], parentType, schema, executable, shouldEstimateRequires, directive, fuel).Err?
    ensures ScoreSelectionSet(calculator, selections, parentType, schema, executable, shouldEstimateRequires, directive, fuel)
            == Err(ScoreSelection(calculator, selections[i], parentType, schema, executable, shouldEstimateRequires, directive, fuel).error)
    decreases |selections|
  {
    var init := selections[..|selections| - 1];
    if i < |selections| - 1 {
      assert init[..i] == selections[..i];
      FirstErrorWins(calculator, init, i, parentType, schema, executable, shouldEstimateRequires, directive, fuel);
    } else {
      assert init == selections[..i];
    }
  }

  /** A selection set that fails anywhere fails as a whole. */
  lemma {:induction false} FailingSelectionFailsSet(calculator: StaticCostCalculator, selections: seq<Selection>, i: nat,
                                                    parentType: string, schema: DemandControlledSchema,
                                                    executable: ExecutableDocument, shouldEstimateRequires: bool,
                                                    directive: Option<ListSizeDirective>, fuel: nat)
    requires i < |selections|
    requires ScoreSelection(calculator, selections[i], parentType, schema, executable, shouldEstimateRequires, directive, fuel).Err?
    ensures ScoreSelectionSet(calculator, selections, parentType, schema, executable, shouldEstimateRequires, directive, fuel).Err?
    decreases |selections|
  {
    if i < |selections| - 1 {
      var init := selections[..|selections| - 1];
      assert init[i] == selections[i];
      FailingSelectionFailsSet(calculator, init, i, parentType, schema, executable, shouldEstimateRequires, directive, fuel);
    }
  }

  /** A spread of a fragment the document does not define makes any selection set holding it fail. */
  lemma UndefinedFragmentRejected(calculator: StaticCostCalculator, selections: seq<Selection>, i: nat,
                                  parentType: string, schema: DemandControlledSchema,
                                  executable: ExecutableDocument, shouldEstimateRequires: bool,
                                  directive: Option<ListSizeDirective>, fuel: nat)
    requires i < |selections| && selections[i].SpreadSelection?
    requires selections[i].spread.fragmentName !in executable.fragments
    ensures ScoreSelection(calculator, selections[i], parentType, schema, executable, shouldEstimateRequires, directive, fuel)
            == Err(QueryParseFailure(FragmentNotDefined(selections[i].spread.fragmentName)))
    ensures ScoreSelectionSet(calculator, selections, parentType, schema, executable, shouldEstimateRequires, directive, fuel).Err?
  {
    FailingSelectionFailsSet(calculator, selections, i, parentType, schema, executable, shouldEstimateRequires, directive, fuel);
  }

  /**
   * A fragment spread is scored exactly as an inline fragment without a type
   * condition over the fragment's selections: against the enclosing parent
   * type, whatever type the fragment itself names.
   */
  lemma SpreadScoresAgainstParent(calculator: StaticCostCalculator, spread: FragmentSpread, parentType: string,
                                  schema: DemandControlledSchema, executable: ExecutableDocument,
                                  shouldEstimateRequires: bool, directive: Option<ListSizeDirective>, fuel: nat)
    requires spread.fragmentName in executable.fragments
    ensures ScoreSelection(calculator, SpreadSelection(spread), parentType, schema, executable,
                           shouldEstimateRequires, directive, fuel + 1)
            == ScoreSelection(calculator,
                              InlineSelection(InlineFragment(None, executable.fragments[spread.fragmentName].selectionSet)),
                              parentType, schema, executable, shouldEstimateRequires, directive, fuel)
  {
  }

  /**
   * An operation costs its selections scored against the schema's root type
   * for its kind, plus 10.0 exactly when it is a mutation; a kind the schema
   * has no root type for is rejected.
   */
  lemma OperationCost(calculator: StaticCostCalculator, operation: Operation, schema: DemandControlledSchema,
                      executable: ExecutableDocument, shouldEstimateRequires: bool, fuel: nat)
    ensures operation.operationType !in schema.rootOperations ==>
      ScoreOperation(calculator, operation, schema, executable, shouldEstimateRequires, fuel)
        == Err(QueryParseFailure(RootTypeUnsupported(operation.operationType)))
    ensures operation.operationType in schema.rootOperations ==>
      var selectionsCost := ScoreSelectionSet(calculator, operation.selectionSet.selections,
                                              schema.rootOperations[operation.operationType], schema, executable,
                                              shouldEstimateRequires, None, fuel);
      && (selectionsCost.Err? ==> ScoreOperation(calculator, operation, schema, executable, shouldEstimateRequires, fuel) == selectionsCost.PropagateFailure())
      && (selectionsCost.Ok? && operation.operationType == Mutation ==>
            ScoreOperation(calculator, operation, schema, executable, shouldEstimateRequires, fuel) == Ok(10.0 + selectionsCost.value))
      && (selectionsCost.Ok? && operation.operationType != Mutation ==>
            ScoreOperation(calculator, operation, schema, executable, shouldEstimateRequires, fuel) == Ok(0.0 + selectionsCost.value))
  {
  }

  lemma {:induction false} OperationsBound(calculator: StaticCostCalculator, operations: seq<Operation>, k: nat,
                                           schema: DemandControlledSchema, executable: ExecutableDocument,
                                           shouldEstimateRequires: bool, fuel: nat)
    requires Priced(schema) && k < |operations|
    requires ScoreOperations(calculator, operations, schema, executable, shouldEstimateRequires, fuel).Ok?
    ensures ScoreOperation(calculator, operations[k], schema, executable, shouldEstimateRequires, fuel).Ok?
    ensures ScoreOperation(calculator, operations[k], schema, executable, shouldEstimateRequires, fuel).value
            <= ScoreOperations(calculator, operations, schema, executable, shouldEstimateRequires, fuel).value
    decreases |operations|
  {
    var init := operations[..|operations| - 1];
    if k < |operations| - 1 {
      assert init[k] == operations[k];
      OperationsBound(calculator, init, k, schema, executable, shouldEstimateRequires, fuel);
    }
  }

  /**
   * A successful document estimate scores every operation of the document
   * successfully, and on a priced schema is at least the score of each.
   */
  lemma EstimatedChargesEveryOperation(calculator: StaticCostCalculator, query: ExecutableDocument,
                                       schema: DemandControlledSchema, shouldEstimateRequires: bool, fuel: nat)
    requires Priced(schema)
    requires Estimated(calculator, query, schema, shouldEstimateRequires, fuel).Ok?
    ensures query.anonymous.Some? ==>
      && ScoreOperation(calculator, query.anonymous.value, schema, query, shouldEstimateRequires, fuel).Ok?
      && ScoreOperation(calculator, query.anonymous.value, schema, query, shouldEstimateRequires, fuel).value
         <= Estimated(calculator, query, schema, shouldEstimateRequires, fuel).value
    ensures forall k | 0 <= k < |query.named| ::
      && ScoreOperation(calculator, query.named[k], schema, query, shouldEstimateRequires, fuel).Ok?
      && ScoreOperation(calculator, query.named[k], schema, query, shouldEstimateRequires, fuel).value
         <= Estimated(calculator, query, schema, shouldEstimateRequires, fuel).value
  {
    forall k | 0 <= k < |query.named|
      ensures ScoreOperation(calculator, query.named[k], schema, query, shouldEstimateRequires, fuel).Ok?
      ensures ScoreOperation(calculator, query.named[k], schema, query, shouldEstimateRequires, fuel).value
              <= Estimated(calculator, query, schema, shouldEstimateRequires, fuel).value
    {
      OperationsBound(calculator, query.named, k, schema, query, shouldEstimateRequires, fuel);
    }
  }
}

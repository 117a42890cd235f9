/**
 * What actual cost promises: a list is charged by the number of elements
 * the response really holds, a field's arguments are charged once however
 * long its list is, what cannot be resolved costs nothing, and the fragment
 * bound only ever leaves cost out.
 */
module ResponseCostProperties {
  import opened GraphQL
  import opened Schema
  import opened ArgumentCost
  import opened ResponseCost

  lemma {:induction false} UniformItemsCost(schema: DemandControlledSchema, request: ExecutableDocument, parentType: string,
                                            field: Field, items: seq<Json>, fuel: nat, c: real)
    requires forall k | 0 <= k < |items| :: ActualListItemCost(schema, request, parentType, field, items[k], fuel) == c
    ensures ActualItemsCost(schema, request, parentType, field, items, fuel) == Times(|items|, c)
    decreases |items|
  {
    if items != [] {
      var init := items[..|items| - 1];
      assert forall k | 0 <= k < |init| :: init[k] == items[k];
      UniformItemsCost(schema, request, parentType, field, init, fuel, c);
    }
  }

  /**
   * An array whose elements each cost `c` is charged `c` once per element it
   * actually holds, and the field's arguments are charged once on top,
   * exactly as for an empty array of the same field.
   */
  lemma ListFieldActualCost(schema: DemandControlledSchema, request: ExecutableDocument, parentType: string,
                            field: Field, items: seq<Json>, fuel: nat, c: real)
    requires forall k | 0 <= k < |items| :: ActualListItemCost(schema, request, parentType, field, items[k], fuel) == c
    ensures ActualListItemCost(schema, request, parentType, field, Array(items), fuel) == |items| as real * c
    ensures ActualFieldCost(schema, request, parentType, field, Array(items), fuel)
            == |items| as real * c + ActualFieldCost(schema, request, parentType, field, Array([]), fuel)
    ensures ActualFieldCost(schema, request, parentType, field, Array([]), fuel)
            == ActualArgumentsCost(schema, schema.TypeField(parentType, field.name), field.arguments)
  {
    var argumentsCost := ActualArgumentsCost(schema, schema.TypeField(parentType, field.name), field.arguments);
    assert ActualItemsCost(schema, request, parentType, field, [], fuel) == 0.0;
    assert ActualFieldCost(schema, request, parentType, field, Array([]), fuel) == 0.0 + argumentsCost;
    var itemsCost := ActualItemsCost(schema, request, parentType, field, items, fuel);
    assert ActualListItemCost(schema, request, parentType, field, Array(items), fuel) == itemsCost;
    assert ActualFieldCost(schema, request, parentType, field, Array(items), fuel) == itemsCost + argumentsCost;
    UniformItemsCost(schema, request, parentType, field, items, fuel, c);
    TimesIsProduct(|items|, c);
  }

  /** A null, boolean, number or string value costs the field's weight, 0.0 by default. */
  lemma LeafValueCostsWeight(schema: DemandControlledSchema, request: ExecutableDocument, parentType: string,
                             field: Field, value: Json, fuel: nat)
    requires value.Null? || value.Bool? || value.Number? || value.Str?
    ensures ActualListItemCost(schema, request, parentType, field, value, fuel)
            == Weight(schema.FieldCostDirective(parentType, field.name), 0.0)
  {
  }

  /** An array of `n` leaf values costs `n` times the field's weight. */
  lemma LeafListCostsLength(schema: DemandControlledSchema, request: ExecutableDocument, parentType: string,
                            field: Field, items: seq<Json>, fuel: nat)
    requires forall k | 0 <= k < |items| :: items[k].Null? || items[k].Bool? || items[k].Number? || items[k].Str?
    ensures ActualListItemCost(schema, request, parentType, field, Array(items), fuel)
            == |items| as real * Weight(schema.FieldCostDirective(parentType, field.name), 0.0)
  {
    var w := Weight(schema.FieldCostDirective(parentType, field.name), 0.0);
    ListFieldActualCost(schema, request, parentType, field, items, fuel, w);
  }

  /**
   * Arguments of a field whose definition cannot be found, or that the
   * definition does not declare, add nothing to actual cost.
   */
  lemma {:induction false} UnresolvedArgumentsFree(schema: DemandControlledSchema, definition: Result<FieldDef>,
                                                   arguments: seq<Argument>)
    requires definition.Err? || forall k | 0 <= k < |arguments| :: arguments[k].name !in definition.value.arguments
    ensures ActualArgumentsCost(schema, definition, arguments) == 0.0
    decreases |arguments|
  {
    if arguments != [] {
      var init := arguments[..|arguments| - 1];
      assert forall k | 0 <= k < |init| :: init[k] == arguments[k];
      UnresolvedArgumentsFree(schema, definition, init);
    }
  }

  /** A queried field whose response key is absent from the object costs nothing. */
  lemma MissingFieldCostsNothing(schema: DemandControlledSchema, request: ExecutableDocument, parentType: string,
                                 field: Field, members: seq<Member>, fuel: nat)
    requires forall k | 0 <= k < |members| :: members[k].key != field.ResponseKey()
    ensures ActualSelectionCost(schema, request, parentType, FieldSelection(field), members, fuel) == 0.0
  {
    var k := Find(members, field.ResponseKey());
    assert k < 0;
  }

  lemma {:induction false} FieldFuelGrows(schema: DemandControlledSchema, request: ExecutableDocument, parentType: string,
                                          field: Field, value: Json, fuel: nat, more: nat)
    requires Priced(schema) && fuel <= more
    ensures ActualFieldCost(schema, request, parentType, field, value, fuel)
            <= ActualFieldCost(schema, request, parentType, field, value, more)
    decreases fuel, field, value, 1
  {
    ListItemFuelGrows(schema, request, parentType, field, value, fuel, more);
  }

  lemma {:induction false} ListItemFuelGrows(schema: DemandControlledSchema, request: ExecutableDocument, parentType: string,
                                             field: Field, value: Json, fuel: nat, more: nat)
    requires Priced(schema) && fuel <= more
    ensures ActualListItemCost(schema, request, parentType, field, value, fuel)
            <= ActualListItemCost(schema, request, parentType, field, value, more)
    decreases fuel, field, value, 0
  {
    match value
    case Array(items) => ItemsFuelGrows(schema, request, parentType, field, items, fuel, more);
    case Object(members) => SelectionSetFuelGrows(schema, request, field.selectionSet, members, fuel, more);
    case _ =>
  }

  lemma {:induction false} ItemsFuelGrows(schema: DemandControlledSchema, request: ExecutableDocument, parentType: string,
                                          field: Field, items: seq<Json>, fuel: nat, more: nat)
    requires Priced(schema) && fuel <= more
    ensures ActualItemsCost(schema, request, parentType, field, items, fuel)
            <= ActualItemsCost(schema, request, parentType, field, items, more)
    decreases fuel, field, items, 0
  {
    if items != [] {
      ItemsFuelGrows(schema, request, parentType, field, items[..|items| - 1], fuel, more);
      ListItemFuelGrows(schema, request, parentType, field, items[|items| - 1], fuel, more);
    }
  }

  lemma {:induction false} SelectionSetFuelGrows(schema: DemandControlledSchema, request: ExecutableDocument,
                                                 selectionSet: SelectionSet, members: seq<Member>, fuel: nat, more: nat)
    requires Priced(schema) && fuel <= more
    ensures ActualSelectionSetCost(schema, request, selectionSet, members, fuel)
            <= ActualSelectionSetCost(schema, request, selectionSet, members, more)
    decreases fuel, selectionSet, members, 0
  {
    SelectionsFuelGrows(schema, request, selectionSet.ty, selectionSet.selections, members, fuel, more);
  }

  lemma {:induction false} SelectionsFuelGrows(schema: DemandControlledSchema, request: ExecutableDocument, parentType: string,
                                               selections: seq<Selection>, members: seq<Member>, fuel: nat, more: nat)
    requires Priced(schema) && fuel <= more
    ensures ActualSelectionsCost(schema, request, parentType, selections, members, fuel)
            <= ActualSelectionsCost(schema, request, parentType, selections, members, more)
    decreases fuel, selections, members, 0
  {
    if selections != [] {
      SelectionsFuelGrows(schema, request, parentType, selections[..|selections| - 1], members, fuel, more);
      SelectionFuelGrows(schema, request, parentType, selections[|selections| - 1], members, fuel, more);
    }
  }

  lemma {:induction false} SelectionFuelGrows(schema: DemandControlledSchema, request: ExecutableDocument, parentType: string,
                                              selection: Selection, members: seq<Member>, fuel: nat, more: nat)
    requires Priced(schema) && fuel <= more
    ensures ActualSelectionCost(schema, request, parentType, selection, members, fuel)
            <= ActualSelectionCost(schema, request, parentType, selection, members, more)
    decreases fuel, selection, members, 0
  {
    match selection
    case FieldSelection(f) =>
      var k := Find(members, f.ResponseKey());
      if k >= 0 {
        FieldFuelGrows(schema, request, parentType, f, members[k].value, fuel, more);
      }
    case SpreadSelection(s) =>
      if s.fragmentName in request.fragments && fuel > 0 {
        SelectionSetFuelGrows(schema, request, request.fragments[s.fragmentName].selectionSet, members, fuel - 1, more - 1);
      }
    case InlineSelection(i) =>
      SelectionSetFuelGrows(schema, request, i.selectionSet, members, fuel, more);
  }

  lemma {:induction false} OperationsFuelGrows(schema: DemandControlledSchema, request: ExecutableDocument,
                                               operations: seq<Operation>, members: seq<Member>, fuel: nat, more: nat)
    requires Priced(schema) && fuel <= more
    ensures ActualOperationsCost(schema, request, operations, members, fuel)
            <= ActualOperationsCost(schema, request, operations, members, more)
    decreases |operations|
  {
    if operations != [] {
      OperationsFuelGrows(schema, request, operations[..|operations| - 1], members, fuel, more);
      SelectionSetFuelGrows(schema, request, operations[|operations| - 1].selectionSet, members, fuel, more);
    }
  }

  /**
   * On a priced schema the fragment bound only ever leaves cost out: a larger
   * bound never gives a smaller actual cost.
   */
  lemma ResponseFuelGrows(schema: DemandControlledSchema, request: ExecutableDocument, data: Option<Json>,
                          fuel: nat, more: nat)
    requires Priced(schema) && fuel <= more
    ensures ResponseActualCost(schema, request, data, fuel) <= ResponseActualCost(schema, request, data, more)
  {
    if data.Some? && data.value.Object? {
      if request.anonymous.Some? {
        SelectionSetFuelGrows(schema, request, request.anonymous.value.selectionSet, data.value.members, fuel, more);
      }
      OperationsFuelGrows(schema, request, request.named, data.value.members, fuel, more);
    }
  }
}

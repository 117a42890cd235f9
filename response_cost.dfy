/**
 * Actual cost: the response value tree is walked alongside the query that
 * produced it, and every field value found is charged by its real shape.
 * A leaf pays the field's weight, an array pays for each of its elements,
 * an object pays the field's weight and then its children; every visited
 * field also pays for its query arguments once. Nothing here can fail:
 * unknown fields and arguments, and arguments that cannot be scored, simply
 * add nothing.
 *
 * The specification functions come first, then the visitor that accumulates
 * the same total in its `cost` field.
 */
module ResponseCost {
  import opened GraphQL
  import opened Schema
  import opened ArgumentCost
  import opened StaticCost

  /** The field's `@cost` weight, or `default` when it has none or is unknown. */
  function FieldWeight(schema: DemandControlledSchema, parentType: string, field: Field, default: real): (w: real)
    ensures Priced(schema) && default >= 0.0 ==> w >= 0.0
  {
    PricedLookupIfPriced(schema, parentType, field.name);
    Weight(schema.FieldCostDirective(parentType, field.name), default)
  }

  /** One query argument of a visited field: its score when it has a definition and scores, else 0. */
  function ActualArgumentCost(schema: DemandControlledSchema, definition: Result<FieldDef>, argument: Argument): (c: real)
    ensures Priced(schema) && (definition.Ok? ==> PricedField(definition.value)) ==> c >= 0.0
    ensures definition.Ok? && argument.name in definition.value.arguments
            && ScoreArgument(argument.value, definition.value.arguments[argument.name], schema).Ok?
            ==> c == ScoreArgument(argument.value, definition.value.arguments[argument.name], schema).value
    ensures c != 0.0 ==> definition.Ok? && argument.name in definition.value.arguments
                         && ScoreArgument(argument.value, definition.value.arguments[argument.name], schema) == Ok(c)
  {
    if definition.Ok? && argument.name in definition.value.arguments then
      var score := ScoreArgument(argument.value, definition.value.arguments[argument.name], schema);
      if score.Ok? then score.value else 0.0
    else 0.0
  }

  function ActualArgumentsCost(schema: DemandControlledSchema, definition: Result<FieldDef>, arguments: seq<Argument>): (c: real)
    ensures Priced(schema) && (definition.Ok? ==> PricedField(definition.value)) ==> c >= 0.0
  {
    if arguments == [] then 0.0
    else
      ActualArgumentsCost(schema, definition, arguments[..|arguments| - 1])
        + ActualArgumentCost(schema, definition, arguments[|arguments| - 1])
  }

  /** A field value found in the response: its shape's cost, plus the field's arguments once. */
  function ActualFieldCost(schema: DemandControlledSchema, request: ExecutableDocument, parentType: string,
                           field: Field, value: Json, fuel: nat): (c: real)
    ensures Priced(schema) ==> c >= 0.0
    decreases fuel, field, value, 1
  {
    var definition := schema.TypeField(parentType, field.name);
    PricedLookupIfPriced(schema, parentType, field.name);
    ActualListItemCost(schema, request, parentType, field, value, fuel)
      + ActualArgumentsCost(schema, definition, field.arguments)
  }

  /** One value of `field`, or one element of a list of them, by its shape. */
  function ActualListItemCost(schema: DemandControlledSchema, request: ExecutableDocument, parentType: string,
                              field: Field, value: Json, fuel: nat): (c: real)
    ensures Priced(schema) ==> c >= 0.0
    ensures value.Object? ==>
              c == Weight(schema.FieldCostDirective(parentType, field.name), 1.0)
                   + ActualSelectionSetCost(schema, request, field.selectionSet, value.members, fuel)
    ensures !value.Object? && !value.Array? ==> c == Weight(schema.FieldCostDirective(parentType, field.name), 0.0)
    decreases fuel, field, value, 0
  {
    match value
    case Array(items) => ActualItemsCost(schema, request, parentType, field, items, fuel)
    case Object(members) =>
      FieldWeight(schema, parentType, field, 1.0)
        + ActualSelectionSetCost(schema, request, field.selectionSet, members, fuel)
    case _ => FieldWeight(schema, parentType, field, 0.0)
  }

  function ActualItemsCost(schema: DemandControlledSchema, request: ExecutableDocument, parentType: string,
                           field: Field, items: seq<Json>, fuel: nat): (c: real)
    ensures Priced(schema) ==> c >= 0.0
    decreases fuel, field, items, 0
  {
    if items == [] then 0.0
    else
      ActualItemsCost(schema, request, parentType, field, items[..|items| - 1], fuel)
        + ActualListItemCost(schema, request, parentType, field, items[|items| - 1], fuel)
  }

  /** The children of an object value, matched by response key against `selectionSet`, typed by its type. */
  function ActualSelectionSetCost(schema: DemandControlledSchema, request: ExecutableDocument,
                                  selectionSet: SelectionSet, members: seq<Member>, fuel: nat): (c: real)
    ensures Priced(schema) ==> c >= 0.0
    decreases fuel, selectionSet, members, 0
  {
    ActualSelectionsCost(schema, request, selectionSet.ty, selectionSet.selections, members, fuel)
  }

  function ActualSelectionsCost(schema: DemandControlledSchema, request: ExecutableDocument, parentType: string,
                                selections: seq<Selection>, members: seq<Member>, fuel: nat): (c: real)
    ensures Priced(schema) ==> c >= 0.0
    decreases fuel, selections, members, 0
  {
    if selections == [] then 0.0
    else
      ActualSelectionsCost(schema, request, parentType, selections[..|selections| - 1], members, fuel)
        + ActualSelectionCost(schema, request, parentType, selections[|selections| - 1], members, fuel)
  }

  /**
   * A field is charged only when its response key is present; a spread of
   * an unknown fragment, or one past the fuel bound, adds nothing.
   */
  function ActualSelectionCost(schema: DemandControlledSchema, request: ExecutableDocument, parentType: string,
                               selection: Selection, members: seq<Member>, fuel: nat): (c: real)
    ensures Priced(schema) ==> c >= 0.0
    decreases fuel, selection, members, 0
  {
    match selection
    case FieldSelection(f) =>
      var k := Find(members, f.ResponseKey());
      if k < 0 then 0.0 else ActualFieldCost(schema, request, parentType, f, members[k].value, fuel)
    case SpreadSelection(s) =>
      if s.fragmentName in request.fragments && fuel > 0 then
        ActualSelectionSetCost(schema, request, request.fragments[s.fragmentName].selectionSet, members, fuel - 1)
      else 0.0
    case InlineSelection(i) =>
      ActualSelectionSetCost(schema, request, i.selectionSet, members, fuel)
  }

  function ActualOperationsCost(schema: DemandControlledSchema, request: ExecutableDocument,
                                operations: seq<Operation>, members: seq<Member>, fuel: nat): (c: real)
    ensures Priced(schema) ==> c >= 0.0
  {
    if operations == [] then 0.0
    else
      ActualOperationsCost(schema, request, operations[..|operations| - 1], members, fuel)
        + ActualSelectionSetCost(schema, request, operations[|operations| - 1].selectionSet, members, fuel)
  }

  /**
   * The actual cost of a response whose `data` is an object: every operation
   * of the request, anonymous first, walked against that object. Any other
   * `data` costs nothing.
   */
  function ResponseActualCost(schema: DemandControlledSchema, request: ExecutableDocument, data: Option<Json>,
                              fuel: nat): (c: real)
    ensures Priced(schema) ==> c >= 0.0
  {
    if data.Some? && data.value.Object? then
      var members := data.value.members;
      (if request.anonymous.Some? then ActualSelectionSetCost(schema, request, request.anonymous.value.selectionSet, members, fuel)
       else 0.0)
        + ActualOperationsCost(schema, request, request.named, members, fuel)
    else 0.0
  }

  lemma PricedLookupIfPriced(schema: DemandControlledSchema, parentType: string, name: string)
    ensures Priced(schema) && schema.TypeField(parentType, name).Ok? ==> PricedField(schema.TypeField(parentType, name).value)
  {
    if Priced(schema) && schema.TypeField(parentType, name).Ok? {
      PricedLookup(schema, parentType, name);
    }
  }

  /** The visitor: walks a response and adds what it finds to `cost`, in place. */
  class ResponseCostCalculator {
    var cost: real
    const schema: DemandControlledSchema

    constructor (schema: DemandControlledSchema)
      ensures this.schema == schema && cost == 0.0
    {
      this.schema := schema;
      cost := 0.0;
    }

    method VisitField(request: ExecutableDocument, parentType: string, field: Field, value: Json, fuel: nat)
      modifies this
      ensures cost == old(cost) + ActualFieldCost(schema, request, parentType, field, value, fuel)
      decreases fuel, field, value, 1
    {
      VisitListItem(request, parentType, field, value, fuel);
      var definition := schema.TypeField(parentType, field.name);
      ghost var itemsCost := cost - old(cost);
      var i := 0;
      while i < |field.arguments|
        invariant 0 <= i <= |field.arguments|
        invariant cost == old(cost) + itemsCost + ActualArgumentsCost(schema, definition, field.arguments[..i])
      {
        var argument := field.arguments[i];
        if definition.Ok? && argument.name in definition.value.arguments {
          var score := ScoreArgument(argument.value, definition.value.arguments[argument.name], schema);
          if score.Ok? {
            cost := cost + score.value;
          }
        }
        assert field.arguments[..i + 1][..i] == field.arguments[..i];
        i := i + 1;
      }
      assert field.arguments[..i] == field.arguments;
    }

    method VisitListItem(request: ExecutableDocument, parentType: string, field: Field, value: Json, fuel: nat)
      modifies this
      ensures cost == old(cost) + ActualListItemCost(schema, request, parentType, field, value, fuel)
      decreases fuel, field, value, 0
    {
      var directive := schema.FieldCostDirective(parentType, field.name);
      match value {
        case Array(items) =>
          var i := 0;
          while i < |items|
            invariant 0 <= i <= |items|
            invariant cost == old(cost) + ActualItemsCost(schema, request, parentType, field, items[..i], fuel)
          {
            VisitListItem(request, parentType, field, items[i], fuel);
            assert items[..i + 1][..i] == items[..i];
            i := i + 1;
          }
          assert items[..i] == items;
        case Object(members) =>
          cost := cost + Weight(directive, 1.0);
          VisitSelections(request, field.selectionSet, members, fuel);
        case _ =>
          cost := cost + Weight(directive, 0.0);
      }
    }

    method VisitSelections(request: ExecutableDocument, selectionSet: SelectionSet, members: seq<Member>, fuel: nat)
      modifies this
      ensures cost == old(cost) + ActualSelectionSetCost(schema, request, selectionSet, members, fuel)
      decreases fuel, selectionSet, members, 0
    {
      var selections := selectionSet.selections;
      var i := 0;
      while i < |selections|
        invariant 0 <= i <= |selections|
        invariant cost == old(cost) + ActualSelectionsCost(schema, request, selectionSet.ty, selections[..i], members, fuel)
      {
        match selections[i] {
          case FieldSelection(f) =>
            var k := Find(members, f.ResponseKey());
            if k >= 0 {
              VisitField(request, selectionSet.ty, f, members[k].value, fuel);
            }
          case SpreadSelection(s) =>
            if s.fragmentName in request.fragments && fuel > 0 {
              VisitSelections(request, request.fragments[s.fragmentName].selectionSet, members, fuel - 1);
            }
          case InlineSelection(inline) =>
            VisitSelections(request, inline.selectionSet, members, fuel);
        }
        assert selections[..i + 1][..i] == selections[..i];
        i := i + 1;
      }
      assert selections[..i] == selections;
    }

    method Visit(request: ExecutableDocument, data: Option<Json>, fuel: nat)
      modifies this
      ensures cost == old(cost) + ResponseActualCost(schema, request, data, fuel)
    {
      if data.Some? && data.value.Object? {
        var members := data.value.members;
        if request.anonymous.Some? {
          VisitSelections(request, request.anonymous.value.selectionSet, members, fuel);
        }
        ghost var anonymousCost := cost - old(cost);
        var i := 0;
        while i < |request.named|
          invariant 0 <= i <= |request.named|
          invariant cost == old(cost) + anonymousCost + ActualOperationsCost(schema, request, request.named[..i], members, fuel)
        {
          VisitSelections(request, request.named[i].selectionSet, members, fuel);
          assert request.named[..i + 1][..i] == request.named[..i];
          i := i + 1;
        }
        assert request.named[..i] == request.named;
      }
    }
  }

  /**
   * The actual cost of `data` as the answer to `request`, priced against the
   * supergraph schema; it never fails.
   */
  method Actual(calculator: StaticCostCalculator, request: ExecutableDocument, data: Option<Json>, fuel: nat)
    returns (r: Result<real>)
    ensures r == Ok(ResponseActualCost(calculator.supergraphSchema, request, data, fuel))
  {
    var visitor := new ResponseCostCalculator(calculator.supergraphSchema);
    visitor.Visit(request, data, fuel);
    r := Ok(visitor.cost);
  }
}

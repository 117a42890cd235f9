/**
 * The argument scorer: the price of one literal argument value against its
 * declared input type, independent of the field it is passed to.
 */
module ArgumentCost {
  import opened GraphQL
  import opened Schema

  /**
   * Scores `argument` against `definition`. Object, interface and union types
   * are rejected whatever the literal; an input-object literal costs its
   * weight (default 1.0) plus its fields; a list literal costs its weight
   * (default 0.0) plus each element scored against the same definition;
   * `null` is free; any other literal costs its weight (default 0.0).
   */
  function ScoreArgument(argument: ArgValue, definition: InputValueDef, schema: DemandControlledSchema): (r: Result<real>)
    ensures r.Err? ==> r.error.QueryParseFailure?
    ensures r.Ok? && Priced(schema) && NonNegativeWeight(definition.cost) ==> r.value >= 0.0
    decreases argument
  {
    if definition.ty !in schema.types then
      Err(QueryParseFailure(ArgumentTypeNotInSchema(definition.name)))
    else
      var ty := schema.types[definition.ty];
      if ty.IsOutputType() then
        Err(QueryParseFailure(IllegalArgumentType(definition.name)))
      else if argument.ObjectValue? && ty.InputObjectType? then
        var fieldsCost :- ScoreInputFields(argument.fields, ty.inputFields, definition, schema);
        Ok(Weight(definition.cost, 1.0) + fieldsCost)
      else if argument.ListValue? then
        var elementsCost :- ScoreListElements(argument.elements, definition, schema);
        Ok(Weight(definition.cost, 0.0) + elementsCost)
      else if argument.NullValue? then
        Ok(0.0)
      else
        Ok(Weight(definition.cost, 0.0))
  }

  /** Sum of the scores of the literal's fields, each against its declared input field, in order. */
  function ScoreInputFields(fields: seq<ObjectField>, inputFields: map<string, InputValueDef>,
                            owner: InputValueDef, schema: DemandControlledSchema): (r: Result<real>)
    ensures r.Err? ==> r.error.QueryParseFailure?
    ensures (r.Ok? && Priced(schema) && forall n | n in inputFields :: NonNegativeWeight(inputFields[n].cost))
            ==> r.value >= 0.0
    decreases fields
  {
    if fields == [] then Ok(0.0)
    else
      var last := fields[|fields| - 1];
      var init :- ScoreInputFields(fields[..|fields| - 1], inputFields, owner, schema);
      if last.name !in inputFields then
        Err(QueryParseFailure(InputFieldNotInSchema(owner.name)))
      else
        var lastCost :- ScoreArgument(last.value, inputFields[last.name], schema);
        Ok(init + lastCost)
  }

  /** Sum of the scores of the list's elements, each against the list's own definition, in order. */
  function ScoreListElements(elements: seq<ArgValue>, definition: InputValueDef, schema: DemandControlledSchema): (r: Result<real>)
    ensures r.Err? ==> r.error.QueryParseFailure?
    ensures r.Ok? && Priced(schema) && NonNegativeWeight(definition.cost) ==> r.value >= 0.0
    decreases elements
  {
    if elements == [] then Ok(0.0)
    else
      var init :- ScoreListElements(elements[..|elements| - 1], definition, schema);
      var lastCost :- ScoreArgument(elements[|elements| - 1], definition, schema);
      Ok(init + lastCost)
  }

  /**
   * The input-object arm of the scorer as the source runs it: start from the
   * object's weight and add each field's score in order, stopping at the
   * first field that is undeclared or cannot be scored.
   */
  method ScoreInputObject(fields: seq<ObjectField>, inputFields: map<string, InputValueDef>,
                          definition: InputValueDef, schema: DemandControlledSchema) returns (r: Result<real>)
    ensures r.Ok? <==> ScoreInputFields(fields, inputFields, definition, schema).Ok?
    ensures r.Ok? ==> r.value == Weight(definition.cost, 1.0) + ScoreInputFields(fields, inputFields, definition, schema).value
    ensures r.Err? ==> r.error == ScoreInputFields(fields, inputFields, definition, schema).error
    ensures InputTyped(definition, schema) && schema.types[definition.ty] == InputObjectType(inputFields) ==>
              r == ScoreArgument(ObjectValue(fields), definition, schema)
  {
    var cost := Weight(definition.cost, 1.0);
    ghost var fieldsCost := 0.0;
    for i := 0 to |fields|
      invariant ScoreInputFields(fields[..i], inputFields, definition, schema) == Ok(fieldsCost)
      invariant cost == Weight(definition.cost, 1.0) + fieldsCost
    {
      assert fields[..i + 1][..i] == fields[..i];
      var field := fields[i];
      if field.name !in inputFields {
        r := Err(QueryParseFailure(InputFieldNotInSchema(definition.name)));
        InputFieldsErrorPersists(fields, inputFields, definition, schema, i + 1);
        return;
      }
      var score := ScoreArgument(field.value, inputFields[field.name], schema);
      if score.Err? {
        r := Err(score.error);
        InputFieldsErrorPersists(fields, inputFields, definition, schema, i + 1);
        return;
      }
      cost := cost + score.value;
      fieldsCost := fieldsCost + score.value;
    }
    assert fields[..|fields|] == fields;
    r := Ok(cost);
  }

  lemma {:induction false} InputFieldsErrorPersists(fields: seq<ObjectField>, inputFields: map<string, InputValueDef>,
                                                    owner: InputValueDef, schema: DemandControlledSchema, i: nat)
    requires i <= |fields| && ScoreInputFields(fields[..i], inputFields, owner, schema).Err?
    ensures ScoreInputFields(fields, inputFields, owner, schema) == ScoreInputFields(fields[..i], inputFields, owner, schema)
    decreases |fields| - i
  {
    if i < |fields| {
      assert fields[..i + 1][..i] == fields[..i];
      InputFieldsErrorPersists(fields, inputFields, owner, schema, i + 1);
    } else {
      assert fields[..i] == fields;
    }
  }

  /**
   * The list arm of the scorer as the source runs it: start from the list's
   * weight and add each element's score against the same definition, in
   * order, stopping at the first element that cannot be scored.
   */
  method ScoreList(elements: seq<ArgValue>, definition: InputValueDef, schema: DemandControlledSchema)
    returns (r: Result<real>)
    ensures r.Ok? <==> ScoreListElements(elements, definition, schema).Ok?
    ensures r.Ok? ==> r.value == Weight(definition.cost, 0.0) + ScoreListElements(elements, definition, schema).value
    ensures r.Err? ==> r.error == ScoreListElements(elements, definition, schema).error
    ensures InputTyped(definition, schema) ==> r == ScoreArgument(ListValue(elements), definition, schema)
  {
    var cost := Weight(definition.cost, 0.0);
    ghost var elementsCost := 0.0;
    for i := 0 to |elements|
      invariant ScoreListElements(elements[..i], definition, schema) == Ok(elementsCost)
      invariant cost == Weight(definition.cost, 0.0) + elementsCost
    {
      assert elements[..i + 1][..i] == elements[..i];
      var score := ScoreArgument(elements[i], definition, schema);
      if score.Err? {
        r := Err(score.error);
        ListElementsErrorPersists(elements, definition, schema, i + 1);
        return;
      }
      cost := cost + score.value;
      elementsCost := elementsCost + score.value;
    }
    assert elements[..|elements|] == elements;
    r := Ok(cost);
  }

  lemma {:induction false} ListElementsErrorPersists(elements: seq<ArgValue>, definition: InputValueDef,
                                                     schema: DemandControlledSchema, i: nat)
    requires i <= |elements| && ScoreListElements(elements[..i], definition, schema).Err?
    ensures ScoreListElements(elements, definition, schema) == ScoreListElements(elements[..i], definition, schema)
    decreases |elements| - i
  {
    if i < |elements| {
      assert elements[..i + 1][..i] == elements[..i];
      ListElementsErrorPersists(elements, definition, schema, i + 1);
    } else {
      assert elements[..i] == elements;
    }
  }

  /** The argument's declared type is known and may appear in input position. */
  predicate InputTyped(definition: InputValueDef, schema: DemandControlledSchema) {
    definition.ty in schema.types && !schema.types[definition.ty].IsOutputType()
  }

  /** Literals other than null, lists and input objects: enums, variables, strings, numbers, booleans. */
  predicate IsLeafLiteral(argument: ArgValue) {
    !argument.NullValue? && !argument.ListValue? && !argument.ObjectValue?
  }

  lemma NullArgumentIsFree(definition: InputValueDef, schema: DemandControlledSchema)
    requires InputTyped(definition, schema)
    ensures ScoreArgument(NullValue, definition, schema) == Ok(0.0)
  {
  }

  lemma LeafArgumentCostsWeight(argument: ArgValue, definition: InputValueDef, schema: DemandControlledSchema)
    requires InputTyped(definition, schema)
    requires IsLeafLiteral(argument) || (argument.ObjectValue? && !schema.types[definition.ty].InputObjectType?)
    ensures ScoreArgument(argument, definition, schema) == Ok(Weight(definition.cost, 0.0))
  {
  }

  lemma OutputTypedArgumentRejected(argument: ArgValue, definition: InputValueDef, schema: DemandControlledSchema)
    requires definition.ty in schema.types && schema.types[definition.ty].IsOutputType()
    ensures ScoreArgument(argument, definition, schema) == Err(QueryParseFailure(IllegalArgumentType(definition.name)))
  {
  }

  lemma {:induction false} UndeclaredFieldFails(fields: seq<ObjectField>, inputFields: map<string, InputValueDef>,
                                                owner: InputValueDef, schema: DemandControlledSchema, i: nat)
    requires i < |fields| && fields[i].name !in inputFields
    ensures ScoreInputFields(fields, inputFields, owner, schema).Err?
    decreases |fields|
  {
    if i < |fields| - 1 {
      UndeclaredFieldFails(fields[..|fields| - 1], inputFields, owner, schema, i);
    }
  }

  /** An input-object literal naming a field its input type does not declare cannot be scored. */
  lemma UndeclaredInputFieldRejected(fields: seq<ObjectField>, definition: InputValueDef, schema: DemandControlledSchema, i: nat)
    requires InputTyped(definition, schema) && schema.types[definition.ty].InputObjectType?
    requires i < |fields| && fields[i].name !in schema.types[definition.ty].inputFields
    ensures ScoreArgument(ObjectValue(fields), definition, schema).Err?
  {
    UndeclaredFieldFails(fields, schema.types[definition.ty].inputFields, definition, schema, i);
  }

  lemma {:induction false} DeclaredLeafFieldsCost(fields: seq<ObjectField>, inputFields: map<string, InputValueDef>,
                                                  owner: InputValueDef, schema: DemandControlledSchema, w: real)
    requires forall k | 0 <= k < |fields| :: fields[k].name in inputFields
    requires forall k | 0 <= k < |fields| :: IsLeafLiteral(fields[k].value)
    requires forall k | 0 <= k < |fields| :: InputTyped(inputFields[fields[k].name], schema)
    requires forall k | 0 <= k < |fields| :: inputFields[fields[k].name].cost == Some(w)
    ensures ScoreInputFields(fields, inputFields, owner, schema) == Ok(|fields| as real * w)
    decreases |fields|
  {
    if fields != [] {
      var init, last := fields[..|fields| - 1], fields[|fields| - 1];
      var initCost := |init| as real * w;
      DeclaredLeafFieldsCost(init, inputFields, owner, schema, w);
      assert ScoreInputFields(init, inputFields, owner, schema) == Ok(initCost);
      LeafArgumentCostsWeight(last.value, inputFields[last.name], schema);
      assert ScoreArgument(last.value, inputFields[last.name], schema) == Ok(w);
      assert ScoreInputFields(fields, inputFields, owner, schema) == Ok(initCost + w);
      assert |init| + 1 == |fields|;
      ScaleStep(|init|, w);
      assert initCost + w == |fields| as real * w;
    }
  }

  /**
   * An input-object literal whose fields are all declared leaf literals of
   * weight `w` costs the object's own weight (default 1.0) plus `w` per field.
   */
  lemma InputObjectLiteralCost(fields: seq<ObjectField>, definition: InputValueDef, schema: DemandControlledSchema, w: real)
    requires InputTyped(definition, schema) && schema.types[definition.ty].InputObjectType?
    requires forall k | 0 <= k < |fields| :: fields[k].name in schema.types[definition.ty].inputFields
    requires forall k | 0 <= k < |fields| :: IsLeafLiteral(fields[k].value)
    requires forall k | 0 <= k < |fields| :: InputTyped(schema.types[definition.ty].inputFields[fields[k].name], schema)
    requires forall k | 0 <= k < |fields| :: schema.types[definition.ty].inputFields[fields[k].name].cost == Some(w)
    ensures ScoreArgument(ObjectValue(fields), definition, schema) == Ok(Weight(definition.cost, 1.0) + |fields| as real * w)
  {
    DeclaredLeafFieldsCost(fields, schema.types[definition.ty].inputFields, definition, schema, w);
  }

  lemma {:induction false} LeafElementsCost(items: seq<ArgValue>, definition: InputValueDef, schema: DemandControlledSchema, w: real)
    requires InputTyped(definition, schema) && Weight(definition.cost, 0.0) == w
    requires forall k | 0 <= k < |items| :: IsLeafLiteral(items[k])
    ensures ScoreListElements(items, definition, schema) == Ok(|items| as real * w)
    decreases |items|
  {
    if items != [] {
      var init := items[..|items| - 1];
      var initCost := |init| as real * w;
      LeafElementsCost(init, definition, schema, w);
      assert ScoreListElements(init, definition, schema) == Ok(initCost);
      LeafArgumentCostsWeight(items[|items| - 1], definition, schema);
      assert ScoreListElements(items, definition, schema) == Ok(initCost + w);
      assert |init| + 1 == |items|;
      ScaleStep(|init|, w);
      assert initCost + w == |items| as real * w;
    }
  }

  /**
   * Every element of a list literal is scored against the list's own
   * definition, so a list of n leaf literals pays the list weight `w` n + 1 times
   * (and an empty list pays exactly the weight).
   */
  lemma LeafListCost(elements: seq<ArgValue>, definition: InputValueDef, schema: DemandControlledSchema, w: real)
    requires InputTyped(definition, schema) && Weight(definition.cost, 0.0) == w
    requires forall k | 0 <= k < |elements| :: IsLeafLiteral(elements[k])
    ensures ScoreArgument(ListValue(elements), definition, schema) == Ok((|elements| + 1) as real * w)
  {
    var elementsCost := |elements| as real * w;
    LeafElementsCost(elements, definition, schema, w);
    assert ScoreListElements(elements, definition, schema) == Ok(elementsCost);
    assert ScoreArgument(ListValue(elements), definition, schema) == Ok(w + elementsCost);
    ScaleStep(|elements|, w);
    assert w + elementsCost == (|elements| + 1) as real * w;
  }

  lemma ScaleStep(n: nat, w: real)
    ensures n as real * w + w == (n + 1) as real * w
  {
  }

  /** `[]` nested `depth` times inside one-element lists: `[[[]]]` has depth 2. */
  function NestedEmptyList(depth: nat): ArgValue {
    if depth == 0 then ListValue([]) else ListValue([NestedEmptyList(depth - 1)])
  }

  /** `n` copies of `w` added up, the way the scorers accumulate a repeated weight. */
  function Times(n: nat, w: real): real {
    if n == 0 then 0.0 else Times(n - 1, w) + w
  }

  lemma {:induction false} TimesIsProduct(n: nat, w: real)
    ensures Times(n, w) == n as real * w
  {
    if n > 0 {
      TimesIsProduct(n - 1, w);
      ScaleStep(n - 1, w);
    }
  }

  lemma {:induction false} NestedListCostsTimes(depth: nat, definition: InputValueDef, schema: DemandControlledSchema, w: real)
    requires InputTyped(definition, schema) && Weight(definition.cost, 0.0) == w
    ensures ScoreArgument(NestedEmptyList(depth), definition, schema) == Ok(Times(depth + 1, w))
  {
    if depth > 0 {
      var inner := NestedEmptyList(depth - 1);
      NestedListCostsTimes(depth - 1, definition, schema, w);
      assert [inner][..0] == [] && [inner][0] == inner;
      assert ScoreListElements([inner], definition, schema) == Ok(0.0 + Times(depth, w));
    }
  }

  /** Nested list literals re-add the list weight `w` at every level. */
  lemma {:induction false} NestedListRepeatsWeight(depth: nat, definition: InputValueDef, schema: DemandControlledSchema, w: real)
    requires InputTyped(definition, schema) && Weight(definition.cost, 0.0) == w
    ensures ScoreArgument(NestedEmptyList(depth), definition, schema) == Ok((depth + 1) as real * w)
  {
    NestedListCostsTimes(depth, definition, schema, w);
    TimesIsProduct(depth + 1, w);
    var t := Times(depth + 1, w);
    assert ScoreArgument(NestedEmptyList(depth), definition, schema) == Ok(t);
    assert t == (depth + 1) as real * w;
  }
}

/**
 * The demand-controlled schema, seen only through the lookups the cost
 * scorers make: type definitions, field definitions with their `@cost`,
 * `@listSize` and `@requires` directives already resolved, argument
 * definitions with their `@cost`, and the root type of each operation kind.
 */
module Schema {
  import opened GraphQL

  /** An argument or input-object field definition: its inner named type and `@cost` weight. */
  datatype InputValueDef = InputValueDef(name: string, ty: string, cost: Option<real>)

  /**
   * A `@listSize` directive resolved against one field of the query.
   * `expectedSize` is the size of the list the field returns; `sizedFields`
   * gives the size of the named child fields of that list.
   */
  datatype ListSizeDirective = ListSizeDirective(expectedSize: Option<int>, sizedFields: map<string, int>) {
    /** The size this directive imposes on the child field `field`, if any. */
    function SizeOf(field: Field): Option<int> {
      if field.name in sizedFields then Some(sizedFields[field.name]) else None
    }

    ghost predicate NonNegative() {
      && (expectedSize.Some? ==> expectedSize.value >= 0)
      && forall n | n in sizedFields :: sizedFields[n] >= 0
    }
  }

  /**
   * A field definition. `listSize` resolves the field's `@listSize` directive
   * against the field as it appears in the query (slicing arguments and so on),
   * which may fail; `requiredSelection` is the selection set named by `@requires`.
   */
  datatype FieldDef = FieldDef(
    arguments: map<string, InputValueDef>,
    cost: Option<real>,
    listSize: Option<Field -> Result<ListSizeDirective>>,
    requiredSelection: Option<SelectionSet>)

  datatype TypeDef =
    | ScalarType
    | EnumType
    | UnionType
    | ObjectType(fields: map<string, FieldDef>)
    | InterfaceType(fields: map<string, FieldDef>)
    | InputObjectType(inputFields: map<string, InputValueDef>)
  {
    predicate HasFields() {
      ObjectType? || InterfaceType?
    }

    /** Objects, interfaces and unions: types that may only appear in output position. */
    predicate IsOutputType() {
      ObjectType? || InterfaceType? || UnionType?
    }
  }

  datatype DemandControlledSchema = DemandControlledSchema(
    types: map<string, TypeDef>,
    rootOperations: map<OperationType, string>)
  {
    /** The definition of field `name` on `parentType`; an error when either is unknown. */
    function TypeField(parentType: string, name: string): (r: Result<FieldDef>)
      ensures r.Ok? <==> parentType in types && types[parentType].HasFields() && name in types[parentType].fields
      ensures r.Ok? ==> r.value == types[parentType].fields[name]
      ensures r.Err? ==> r.error == QueryParseFailure(FieldNotInSchema(parentType, name))
    {
      if parentType in types && types[parentType].HasFields() && name in types[parentType].fields
      then Ok(types[parentType].fields[name])
      else Err(QueryParseFailure(FieldNotInSchema(parentType, name)))
    }

    /** The `@cost` weight of field `name` on `parentType`, absent when the field is unknown. */
    function FieldCostDirective(parentType: string, name: string): Option<real> {
      var definition := TypeField(parentType, name);
      if definition.Ok? then definition.value.cost else None
    }
  }

  /** The `map_or(default, weight)` reading of an optional `@cost` directive. */
  function Weight(cost: Option<real>, default: real): real {
    cost.GetOr(default)
  }

  ghost predicate NonNegativeWeight(cost: Option<real>) {
    cost.Some? ==> cost.value >= 0.0
  }

  ghost predicate NonNegativeSize(size: Option<int>) {
    size.Some? ==> size.value >= 0
  }

  ghost predicate NonNegativeListSize(directive: Option<ListSizeDirective>) {
    directive.Some? ==> directive.value.NonNegative()
  }

  /** Every weight and every size a field definition can contribute is non-negative. */
  ghost predicate PricedField(definition: FieldDef) {
    && NonNegativeWeight(definition.cost)
    && (forall a | a in definition.arguments :: NonNegativeWeight(definition.arguments[a].cost))
    && (definition.listSize.Some? ==>
          forall f :: definition.listSize.value(f).Ok? ==> definition.listSize.value(f).value.NonNegative())
  }

  /**
   * A schema whose `@cost` weights and `@listSize` sizes are all non-negative:
   * the condition under which every cost this core computes is non-negative.
   */
  ghost predicate Priced(schema: DemandControlledSchema) {
    && (forall t, n | t in schema.types && schema.types[t].HasFields() && n in schema.types[t].fields ::
          PricedField(schema.types[t].fields[n]))
    && (forall t, n | t in schema.types && schema.types[t].InputObjectType? && n in schema.types[t].inputFields ::
          NonNegativeWeight(schema.types[t].inputFields[n].cost))
  }

  lemma PricedLookup(schema: DemandControlledSchema, parentType: string, name: string)
    requires Priced(schema)
    requires schema.TypeField(parentType, name).Ok?
    ensures PricedField(schema.TypeField(parentType, name).value)
  {
  }
}

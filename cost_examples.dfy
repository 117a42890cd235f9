/**
 * A worked example on a small schema: `Query.items: [Item]`,
 * `Item.children: [Item]`, `Item.id: Int`, with no cost or list-size
 * directives, and the query `{ items { children { id } } }`.
 */
module CostExamples {
  import opened GraphQL
  import opened Schema
  import opened StaticCost
  import opened ResponseCost

  const PlainField := FieldDef(map[], None, None, None)

  const ExampleSchema := DemandControlledSchema(
    map["Query" := ObjectType(map["items" := PlainField]),
        "Item" := ObjectType(map["children" := PlainField, "id" := PlainField]),
        "Int" := ScalarType],
    map[Query := "Query"])

  const IdField := Field(None, "id", TypeRef("Int", false), [], Absent, Absent, SelectionSet("Int", []))

  const ChildrenField := Field(None, "children", TypeRef("Item", true), [], Absent, Absent,
                               SelectionSet("Item", [FieldSelection(IdField)]))

  const ItemsField := Field(None, "items", TypeRef("Item", true), [], Absent, Absent,
                            SelectionSet("Item", [FieldSelection(ChildrenField)]))

  const ExampleQuery := ExecutableDocument(
    Some(Operation(Query, SelectionSet("Query", [FieldSelection(ItemsField)]))), [], map[])

  function Calculator(listSize: nat): StaticCostCalculator {
    StaticCostCalculator(listSize, ExampleSchema, map[])
  }

  /**
   * Each level of object lists multiplies by the default list size and adds
   * 1.0 per object: 100 × (1 + 100 × (1 + 0)) = 10100 with the default of 100,
   * and 5 × (1 + 5) = 30 with a default of 5.
   */
  lemma NestedObjectListsEstimate(listSize: nat)
    ensures Estimated(Calculator(listSize), ExampleQuery, ExampleSchema, true, 0)
            == Ok(listSize as real * (1.0 + listSize as real))
  {
    var calculator := Calculator(listSize);
    var n := listSize as real;
    assert ScoreField(calculator, IdField, "Item", ExampleSchema, ExampleQuery, true, None, 0) == Ok(0.0);
    assert ScoreSelectionSet(calculator, [FieldSelection(IdField)], "Item", ExampleSchema, ExampleQuery, true, None, 0) == Ok(0.0);
    assert ScoreField(calculator, ChildrenField, "Item", ExampleSchema, ExampleQuery, true, None, 0) == Ok(n * (1.0 + 0.0));
    assert ScoreSelectionSet(calculator, [FieldSelection(ChildrenField)], "Item", ExampleSchema, ExampleQuery, true, None, 0)
           == Ok(n * 1.0);
    assert ScoreField(calculator, ItemsField, "Query", ExampleSchema, ExampleQuery, true, None, 0) == Ok(n * (1.0 + n));
    assert ScoreSelectionSet(calculator, [FieldSelection(ItemsField)], "Query", ExampleSchema, ExampleQuery, true, None, 0)
           == Ok(n * (1.0 + n));
    assert ScoreOperation(calculator, ExampleQuery.anonymous.value, ExampleSchema, ExampleQuery, true, 0)
           == Ok(0.0 + n * (1.0 + n));
    assert ScoreOperations(calculator, [], ExampleSchema, ExampleQuery, true, 0) == Ok(0.0);
    assert Estimated(calculator, ExampleQuery, ExampleSchema, true, 0) == Ok((0.0 + n * (1.0 + n)) + 0.0);
    assert (0.0 + n * (1.0 + n)) + 0.0 == listSize as real * (1.0 + listSize as real);
  }

  lemma NestedObjectListsDefaults()
    ensures Estimated(Calculator(100), ExampleQuery, ExampleSchema, true, 0) == Ok(10100.0)
    ensures Estimated(Calculator(5), ExampleQuery, ExampleSchema, true, 0) == Ok(30.0)
  {
    NestedObjectListsEstimate(100);
    assert 100.0 * (1.0 + 100.0) == 10100.0;
    NestedObjectListsEstimate(5);
    assert 5.0 * (1.0 + 5.0) == 30.0;
  }

  /** A child object holding only its `id`. */
  const Child := Object([Member("id", Number(1.0))])

  const FullItem := Object([Member("children", Array([Child, Child, Child]))])

  const EmptyItem := Object([Member("children", Array([]))])

  /** A response to the example query: two items, with three and with no children. */
  const ExampleData := Object([Member("items", Array([FullItem, EmptyItem]))])

  lemma ChildCostsOne()
    ensures ActualListItemCost(ExampleSchema, ExampleQuery, "Item", ChildrenField, Child, 0) == 1.0
  {
    assert Find(Child.members, IdField.ResponseKey()) == 0;
    assert ActualFieldCost(ExampleSchema, ExampleQuery, "Item", IdField, Number(1.0), 0) == 0.0;
    assert [FieldSelection(IdField)][..0] == [];
    assert ActualSelectionsCost(ExampleSchema, ExampleQuery, "Item", [FieldSelection(IdField)], Child.members, 0) == 0.0;
  }

  lemma ChildrenCostOneEach()
    ensures ActualFieldCost(ExampleSchema, ExampleQuery, "Item", ChildrenField, Array([Child, Child, Child]), 0) == 3.0
    ensures ActualFieldCost(ExampleSchema, ExampleQuery, "Item", ChildrenField, Array([]), 0) == 0.0
  {
    ChildCostsOne();
    assert [Child, Child, Child][..2] == [Child, Child];
    assert [Child, Child][..1] == [Child];
    assert [Child][..0] == [];
    assert ActualItemsCost(ExampleSchema, ExampleQuery, "Item", ChildrenField, [Child], 0) == 1.0;
    assert ActualItemsCost(ExampleSchema, ExampleQuery, "Item", ChildrenField, [Child, Child], 0) == 2.0;
    assert ActualItemsCost(ExampleSchema, ExampleQuery, "Item", ChildrenField, [Child, Child, Child], 0) == 3.0;
    assert ActualListItemCost(ExampleSchema, ExampleQuery, "Item", ChildrenField, Array([]), 0) == 0.0;
    assert ActualArgumentsCost(ExampleSchema, ExampleSchema.TypeField("Item", "children"), ChildrenField.arguments) == 0.0;
  }

  lemma ItemsCostOnePlusChildren()
    ensures ActualListItemCost(ExampleSchema, ExampleQuery, "Query", ItemsField, FullItem, 0) == 4.0
    ensures ActualListItemCost(ExampleSchema, ExampleQuery, "Query", ItemsField, EmptyItem, 0) == 1.0
  {
    ChildrenCostOneEach();
    assert Find(FullItem.members, ChildrenField.ResponseKey()) == 0;
    assert Find(EmptyItem.members, ChildrenField.ResponseKey()) == 0;
    assert [FieldSelection(ChildrenField)][..0] == [];
    assert ActualSelectionsCost(ExampleSchema, ExampleQuery, "Item", [FieldSelection(ChildrenField)], FullItem.members, 0) == 3.0;
    assert ActualSelectionsCost(ExampleSchema, ExampleQuery, "Item", [FieldSelection(ChildrenField)], EmptyItem.members, 0) == 0.0;
  }

  /**
   * The same query answered with two items holding three and zero children:
   * actual cost is 1 per object returned, 2 + 3 = 5. The actual cost never
   * reads the configured list size.
   */
  lemma NestedObjectListsActual()
    ensures ResponseActualCost(ExampleSchema, ExampleQuery, Some(ExampleData), 0) == 5.0
  {
    ItemsCostOnePlusChildren();
    assert [FullItem, EmptyItem][..1] == [FullItem];
    assert [FullItem][..0] == [];
    assert ActualItemsCost(ExampleSchema, ExampleQuery, "Query", ItemsField, [FullItem], 0) == 4.0;
    assert ActualItemsCost(ExampleSchema, ExampleQuery, "Query", ItemsField, [FullItem, EmptyItem], 0) == 5.0;
    assert ActualArgumentsCost(ExampleSchema, ExampleSchema.TypeField("Query", "items"), ItemsField.arguments) == 0.0;
    assert ActualFieldCost(ExampleSchema, ExampleQuery, "Query", ItemsField, Array([FullItem, EmptyItem]), 0) == 5.0;
    assert Find(ExampleData.members, ItemsField.ResponseKey()) == 0;
    assert [FieldSelection(ItemsField)][..0] == [];
    assert ActualSelectionsCost(ExampleSchema, ExampleQuery, "Query", [FieldSelection(ItemsField)], ExampleData.members, 0) == 5.0;
  }
}

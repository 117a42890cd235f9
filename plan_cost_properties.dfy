/**
 * What the planned estimate promises: how each kind of plan node combines
 * the scores below it, that sums split along their children, that every
 * part of a sequence or a deferred operation is charged, and how a fetch
 * leaf relates to the static estimate of its subgraph operation.
 */
module PlanCostProperties {
  import opened GraphQL
  import opened Schema
  import opened StaticCost
  import opened StaticCostProperties
  import opened PlanCost

  /** Sequential and parallel execution are charged alike: the sum of their children. */
  lemma SequenceAndParallelAgree(calculator: StaticCostCalculator, nodes: seq<PlanNode>, fuel: nat)
    ensures ScorePlanNode(calculator, Sequence(nodes), fuel) == ScorePlanNode(calculator, Parallel(nodes), fuel)
    ensures ScorePlanNode(calculator, Sequence(nodes), fuel) == SummedScoreOfNodes(calculator, nodes, fuel)
  {
  }

  lemma FlattenIsTransparent(calculator: StaticCostCalculator, node: PlanNode, fuel: nat)
    ensures ScorePlanNode(calculator, Flatten(node), fuel) == ScorePlanNode(calculator, node, fuel)
  {
  }

  /**
   * A condition is charged for its more expensive branch whatever its
   * condition is. With one branch absent it is charged for the other branch
   * alone, and with both absent it costs nothing.
   */
  lemma ConditionTakesWorstBranch(calculator: StaticCostCalculator, condition: string,
                                  ifClause: Option<PlanNode>, elseClause: Option<PlanNode>, fuel: nat)
    ensures var r := ScorePlanNode(calculator, Condition(condition, ifClause, elseClause), fuel);
      && (ifClause.None? && elseClause.None? ==> r == Ok(0.0))
      && (ifClause.Some? && elseClause.None? ==> r == ScorePlanNode(calculator, ifClause.value, fuel))
      && (ifClause.None? && elseClause.Some? ==> r == ScorePlanNode(calculator, elseClause.value, fuel))
      && (ifClause.Some? && elseClause.Some? ==>
            var left := ScorePlanNode(calculator, ifClause.value, fuel);
            var right := ScorePlanNode(calculator, elseClause.value, fuel);
            && (left.Err? ==> r == left)
            && (left.Ok? && right.Err? ==> r == right)
            && (left.Ok? && right.Ok? ==>
                  r.Ok? && r.value >= left.value && r.value >= right.value
                  && (r.value == left.value || r.value == right.value)))
  {
  }

  /** The sum over a concatenation is the sum of the two sums, and the earlier part's error comes first. */
  lemma {:induction false} SummedAppend(calculator: StaticCostCalculator, front: seq<PlanNode>, back: seq<PlanNode>, fuel: nat)
    ensures var f := SummedScoreOfNodes(calculator, front, fuel);
            var b := SummedScoreOfNodes(calculator, back, fuel);
            SummedScoreOfNodes(calculator, front + back, fuel)
              == if f.Err? then f else if b.Err? then b else Ok(f.value + b.value)
    decreases |back|
  {
    if back == [] {
      assert front + back == front;
    } else {
      var all := front + back;
      assert all[..|all| - 1] == front + back[..|back| - 1];
      assert all[|all| - 1] == back[|back| - 1];
      SummedAppend(calculator, front, back[..|back| - 1], fuel);
    }
  }

  lemma {:induction false} SummedChargesEveryNode(calculator: StaticCostCalculator, nodes: seq<PlanNode>, k: nat, fuel: nat)
    requires PricedSubgraphs(calculator) && k < |nodes|
    requires SummedScoreOfNodes(calculator, nodes, fuel).Ok?
    ensures ScorePlanNode(calculator, nodes[k], fuel).Ok?
    ensures ScorePlanNode(calculator, nodes[k], fuel).value <= SummedScoreOfNodes(calculator, nodes, fuel).value
    decreases |nodes|
  {
    var init := nodes[..|nodes| - 1];
    if k < |nodes| - 1 {
      assert init[k] == nodes[k];
      SummedChargesEveryNode(calculator, init, k, fuel);
    }
  }

  lemma {:induction false} DeferredSumChargesEveryPart(calculator: StaticCostCalculator, deferred: seq<DeferredNode>,
                                                       k: nat, fuel: nat)
    requires PricedSubgraphs(calculator) && k < |deferred| && deferred[k].node.Some?
    requires SummedScoreOfDeferred(calculator, deferred, fuel).Ok?
    ensures ScorePlanNode(calculator, deferred[k].node.value, fuel).Ok?
    ensures ScorePlanNode(calculator, deferred[k].node.value, fuel).value
            <= SummedScoreOfDeferred(calculator, deferred, fuel).value
    decreases |deferred|
  {
    var init := deferred[..|deferred| - 1];
    if k < |deferred| - 1 {
      assert init[k] == deferred[k];
      DeferredSumChargesEveryPart(calculator, init, k, fuel);
    }
  }

  /**
   * A deferred operation that can be scored is charged for its primary part
   * and for every deferred part that has a plan node, each at least in full.
   */
  lemma DeferChargesEveryPart(calculator: StaticCostCalculator, primary: Primary, deferred: seq<DeferredNode>, fuel: nat)
    requires PricedSubgraphs(calculator)
    requires ScorePlanNode(calculator, Defer(primary, deferred), fuel).Ok?
    ensures primary.node.Some? ==>
      && ScorePlanNode(calculator, primary.node.value, fuel).Ok?
      && ScorePlanNode(calculator, primary.node.value, fuel).value <= ScorePlanNode(calculator, Defer(primary, deferred), fuel).value
    ensures forall k | 0 <= k < |deferred| && deferred[k].node.Some? ::
      && ScorePlanNode(calculator, deferred[k].node.value, fuel).Ok?
      && ScorePlanNode(calculator, deferred[k].node.value, fuel).value <= ScorePlanNode(calculator, Defer(primary, deferred), fuel).value
  {
    forall k | 0 <= k < |deferred| && deferred[k].node.Some?
      ensures ScorePlanNode(calculator, deferred[k].node.value, fuel).Ok?
      ensures ScorePlanNode(calculator, deferred[k].node.value, fuel).value
              <= ScorePlanNode(calculator, Defer(primary, deferred), fuel).value
    {
      DeferredSumChargesEveryPart(calculator, deferred, k, fuel);
    }
  }

  /**
   * A fetch fails when the calculator has no schema for its subgraph, and
   * otherwise when its operation was never parsed, in that order.
   */
  lemma FetchLeafErrors(calculator: StaticCostCalculator, fetch: FetchNode, fuel: nat)
    ensures fetch.serviceName !in calculator.subgraphSchemas ==>
      ScorePlanNode(calculator, Fetch(fetch), fuel) == Err(QueryParseFailure(NoSubgraphSchema(fetch.serviceName)))
    ensures fetch.serviceName in calculator.subgraphSchemas && fetch.operation.Unparsed? ==>
      ScorePlanNode(calculator, Fetch(fetch), fuel) == Err(SubgraphOperationNotInitialized)
  {
  }

  /**
   * A fetch of a parsed operation is priced by the static estimate against
   * its subgraph's schema without `@requires` selections, so it never costs
   * more than the same estimate with them.
   */
  lemma FetchLeafOmitsRequires(calculator: StaticCostCalculator, fetch: FetchNode, fuel: nat)
    requires fetch.serviceName in calculator.subgraphSchemas && fetch.operation.Parsed?
    ensures ScorePlanNode(calculator, Fetch(fetch), fuel)
            == Estimated(calculator, fetch.operation.document, calculator.subgraphSchemas[fetch.serviceName], false, fuel)
    ensures var schema := calculator.subgraphSchemas[fetch.serviceName];
            var withRequires := Estimated(calculator, fetch.operation.document, schema, true, fuel);
            Priced(schema) && withRequires.Ok? ==>
              ScorePlanNode(calculator, Fetch(fetch), fuel).Ok?
              && ScorePlanNode(calculator, Fetch(fetch), fuel).value <= withRequires.value
  {
    var schema := calculator.subgraphSchemas[fetch.serviceName];
    if Priced(schema) && Estimated(calculator, fetch.operation.document, schema, true, fuel).Ok? {
      EstimatedDominance(calculator, calculator, fetch.operation.document, schema, false, true, fuel);
    }
  }

  /** A subscription is charged for its primary fetch only; the rest of its plan is ignored. */
  lemma SubscriptionChargesPrimaryOnly(calculator: StaticCostCalculator, primary: FetchNode, rest: Option<PlanNode>, fuel: nat)
    ensures ScorePlanNode(calculator, SubscriptionNode(primary, rest), fuel) == ScorePlanNode(calculator, Fetch(primary), fuel)
  {
  }

  lemma {:induction false} NodeFuel(calculator: StaticCostCalculator, node: PlanNode, fuel: nat, more: nat)
    requires fuel <= more && ScorePlanNode(calculator, node, fuel).Ok?
    ensures ScorePlanNode(calculator, node, more) == ScorePlanNode(calculator, node, fuel)
    decreases Size(node), 0
  {
    match node
    case Sequence(nodes) => NodesFuel(calculator, nodes, fuel, more);
    case Parallel(nodes) => NodesFuel(calculator, nodes, fuel, more);
    case Flatten(inner) => NodeFuel(calculator, inner, fuel, more);
    case Condition(_, ifClause, elseClause) =>
      if ifClause.Some? {
        assert OptionSize(ifClause) == 1 + Size(ifClause.value);
        NodeFuel(calculator, ifClause.value, fuel, more);
      }
      if elseClause.Some? {
        assert OptionSize(elseClause) == 1 + Size(elseClause.value);
        NodeFuel(calculator, elseClause.value, fuel, more);
      }
    case Defer(primary, deferred) =>
      if primary.node.Some? {
        assert OptionSize(primary.node) == 1 + Size(primary.node.value);
        NodeFuel(calculator, primary.node.value, fuel, more);
      }
      DeferredFuel(calculator, deferred, fuel, more);
    case Fetch(fetch) =>
      if fetch.serviceName in calculator.subgraphSchemas && fetch.operation.Parsed? {
        EstimatedFuel(calculator, fetch.operation.document, calculator.subgraphSchemas[fetch.serviceName], false, fuel, more);
      }
    case SubscriptionNode(primary, _) =>
      if primary.serviceName in calculator.subgraphSchemas && primary.operation.Parsed? {
        EstimatedFuel(calculator, primary.operation.document, calculator.subgraphSchemas[primary.serviceName], false, fuel, more);
      }
  }

  lemma {:induction false} NodesFuel(calculator: StaticCostCalculator, nodes: seq<PlanNode>, fuel: nat, more: nat)
    requires fuel <= more && SummedScoreOfNodes(calculator, nodes, fuel).Ok?
    ensures SummedScoreOfNodes(calculator, nodes, more) == SummedScoreOfNodes(calculator, nodes, fuel)
    decreases SizeOfNodes(nodes), 0
  {
    if nodes != [] {
      NodesFuel(calculator, nodes[..|nodes| - 1], fuel, more);
      NodeFuel(calculator, nodes[|nodes| - 1], fuel, more);
    }
  }

  lemma {:induction false} DeferredFuel(calculator: StaticCostCalculator, deferred: seq<DeferredNode>, fuel: nat, more: nat)
    requires fuel <= more && SummedScoreOfDeferred(calculator, deferred, fuel).Ok?
    ensures SummedScoreOfDeferred(calculator, deferred, more) == SummedScoreOfDeferred(calculator, deferred, fuel)
    decreases SizeOfDeferred(deferred), 0
  {
    if deferred != [] {
      var last := deferred[|deferred| - 1];
      DeferredFuel(calculator, deferred[..|deferred| - 1], fuel, more);
      assert DeferredSize(last) == OptionSize(last.node);
      if last.node.Some? { NodeFuel(calculator, last.node.value, fuel, more); }
    }
  }

  /** Once a plan can be scored, more fuel gives the same score. */
  lemma PlannedFuel(calculator: StaticCostCalculator, queryPlan: QueryPlan, fuel: nat, more: nat)
    requires fuel <= more && Planned(calculator, queryPlan, fuel).Ok?
    ensures Planned(calculator, queryPlan, more) == Planned(calculator, queryPlan, fuel)
  {
    NodeFuel(calculator, queryPlan.root, fuel, more);
  }
}

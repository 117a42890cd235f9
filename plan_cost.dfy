/**
 * The planned estimate: a fold over the query plan that sums sequential,
 * parallel and deferred work, passes through flattening, charges the more
 * expensive branch of a condition, and at every fetch prices the subgraph
 * operation with the static scorer against that subgraph's schema.
 */
module PlanCost {
  import opened GraphQL
  import opened Schema
  import opened StaticCost

  /** A subgraph operation as the planner hands it over: parsed, or not yet initialised. */
  datatype SubgraphOperation = Unparsed | Parsed(document: ExecutableDocument)

  datatype FetchNode = FetchNode(serviceName: string, operation: SubgraphOperation)

  datatype PlanNode =
    | Sequence(nodes: seq<PlanNode>)
    | Parallel(nodes: seq<PlanNode>)
    | Flatten(node: PlanNode)
    | Condition(condition: string, ifClause: Option<PlanNode>, elseClause: Option<PlanNode>)
    | Defer(primary: Primary, deferred: seq<DeferredNode>)
    | Fetch(fetch: FetchNode)
    | SubscriptionNode(primaryFetch: FetchNode, rest: Option<PlanNode>)

  /** The part of a `@defer`red operation that is sent first. */
  datatype Primary = Primary(node: Option<PlanNode>)

  datatype DeferredNode = DeferredNode(node: Option<PlanNode>)

  datatype QueryPlan = QueryPlan(root: PlanNode)

  /** A termination measure: every node is larger than everything the scorer visits below it. */
  function Size(node: PlanNode): nat
    decreases node
  {
    match node
    case Sequence(nodes) => 1 + SizeOfNodes(nodes)
    case Parallel(nodes) => 1 + SizeOfNodes(nodes)
    case Flatten(inner) => 1 + Size(inner)
    case Condition(_, ifClause, elseClause) => 1 + OptionSize(ifClause) + OptionSize(elseClause)
    case Defer(primary, deferred) => 1 + OptionSize(primary.node) + SizeOfDeferred(deferred)
    case Fetch(_) => 1
    case SubscriptionNode(_, _) => 1
  }

  function OptionSize(node: Option<PlanNode>): nat
    decreases node
  {
    if node.Some? then 1 + Size(node.value) else 0
  }

  function SizeOfNodes(nodes: seq<PlanNode>): nat
    decreases nodes
  {
    if nodes == [] then 0 else SizeOfNodes(nodes[..|nodes| - 1]) + Size(nodes[|nodes| - 1]) + 1
  }

  function SizeOfDeferred(deferred: seq<DeferredNode>): nat
    decreases deferred
  {
    if deferred == [] then 0
    else SizeOfDeferred(deferred[..|deferred| - 1]) + DeferredSize(deferred[|deferred| - 1]) + 1
  }

  function DeferredSize(deferred: DeferredNode): nat
    decreases deferred
  {
    OptionSize(deferred.node)
  }

  /** Every subgraph schema the calculator holds has non-negative weights and sizes. */
  ghost predicate PricedSubgraphs(calculator: StaticCostCalculator) {
    forall service | service in calculator.subgraphSchemas :: Priced(calculator.subgraphSchemas[service])
  }

  function ScorePlanNode(calculator: StaticCostCalculator, node: PlanNode, fuel: nat): (r: Result<real>)
    ensures r.Ok? && PricedSubgraphs(calculator) ==> r.value >= 0.0
    decreases Size(node), 0
  {
    match node
    case Sequence(nodes) => SummedScoreOfNodes(calculator, nodes, fuel)
    case Parallel(nodes) => SummedScoreOfNodes(calculator, nodes, fuel)
    case Flatten(inner) => ScorePlanNode(calculator, inner, fuel)
    case Condition(_, ifClause, elseClause) => MaxScoreOfNodes(calculator, ifClause, elseClause, fuel)
    case Defer(primary, deferred) => SummedScoreOfDeferredNodes(calculator, primary, deferred, fuel)
    case Fetch(fetch) => EstimatedCostOfOperation(calculator, fetch.serviceName, fetch.operation, fuel)
    case SubscriptionNode(primary, _) => EstimatedCostOfOperation(calculator, primary.serviceName, primary.operation, fuel)
  }

  /**
   * A fetch leaf: the subgraph operation's static estimate against the
   * subgraph's own schema, with `@requires` selections not charged, since
   * the plan fetches required fields in fetches of their own.
   */
  function EstimatedCostOfOperation(calculator: StaticCostCalculator, subgraph: string,
                                    operation: SubgraphOperation, fuel: nat): (r: Result<real>)
    ensures r.Ok? && PricedSubgraphs(calculator) ==> r.value >= 0.0
  {
    if subgraph !in calculator.subgraphSchemas then
      Err(QueryParseFailure(NoSubgraphSchema(subgraph)))
    else if operation.Unparsed? then
      Err(SubgraphOperationNotInitialized)
    else
      Estimated(calculator, operation.document, calculator.subgraphSchemas[subgraph], false, fuel)
  }

  /** The larger of the two branch scores; an absent branch is skipped rather than scored as 0. */
  function MaxScoreOfNodes(calculator: StaticCostCalculator, left: Option<PlanNode>, right: Option<PlanNode>,
                           fuel: nat): (r: Result<real>)
    ensures r.Ok? && PricedSubgraphs(calculator) ==> r.value >= 0.0
    decreases OptionSize(left) + OptionSize(right), 0
  {
    match (left, right)
    case (None, None) => Ok(0.0)
    case (None, Some(r)) => ScorePlanNode(calculator, r, fuel)
    case (Some(l), None) => ScorePlanNode(calculator, l, fuel)
    case (Some(l), Some(r)) =>
      var leftScore :- ScorePlanNode(calculator, l, fuel);
      var rightScore :- ScorePlanNode(calculator, r, fuel);
      Ok(if leftScore >= rightScore then leftScore else rightScore)
  }

  /** The primary part's score, if it has a node, plus the score of every deferred part that has one. */
  function SummedScoreOfDeferredNodes(calculator: StaticCostCalculator, primary: Primary,
                                      deferred: seq<DeferredNode>, fuel: nat): (r: Result<real>)
    ensures r.Ok? && PricedSubgraphs(calculator) ==> r.value >= 0.0
    decreases OptionSize(primary.node) + SizeOfDeferred(deferred), 1
  {
    var primaryScore :- if primary.node.Some? then ScorePlanNode(calculator, primary.node.value, fuel) else Ok(0.0);
    var deferredScore :- SummedScoreOfDeferred(calculator, deferred, fuel);
    Ok(primaryScore + deferredScore)
  }

  function SummedScoreOfDeferred(calculator: StaticCostCalculator, deferred: seq<DeferredNode>, fuel: nat): (r: Result<real>)
    ensures r.Ok? && PricedSubgraphs(calculator) ==> r.value >= 0.0
    decreases SizeOfDeferred(deferred), 0
  {
    if deferred == [] then Ok(0.0)
    else
      var last := deferred[|deferred| - 1];
      var init :- SummedScoreOfDeferred(calculator, deferred[..|deferred| - 1], fuel);
      assert DeferredSize(last) == OptionSize(last.node);
      var lastScore :- if last.node.Some? then ScorePlanNode(calculator, last.node.value, fuel) else Ok(0.0);
      Ok(init + lastScore)
  }

  /** Sum of the nodes' scores, in order; the first error wins. */
  function SummedScoreOfNodes(calculator: StaticCostCalculator, nodes: seq<PlanNode>, fuel: nat): (r: Result<real>)
    ensures r.Ok? && PricedSubgraphs(calculator) ==> r.value >= 0.0
    decreases SizeOfNodes(nodes), 0
  {
    if nodes == [] then Ok(0.0)
    else
      var init :- SummedScoreOfNodes(calculator, nodes[..|nodes| - 1], fuel);
      var last :- ScorePlanNode(calculator, nodes[|nodes| - 1], fuel);
      Ok(init + last)
  }

  function Planned(calculator: StaticCostCalculator, queryPlan: QueryPlan, fuel: nat): (r: Result<real>)
    ensures r.Ok? && PricedSubgraphs(calculator) ==> r.value >= 0.0
  {
    ScorePlanNode(calculator, queryPlan.root, fuel)
  }

  /** The node loop as the source runs it: add each node's score, stop at the first error. */
  method SumNodes(calculator: StaticCostCalculator, nodes: seq<PlanNode>, fuel: nat) returns (r: Result<real>)
    ensures r == SummedScoreOfNodes(calculator, nodes, fuel)
  {
    var sum := 0.0;
    for i := 0 to |nodes|
      invariant SummedScoreOfNodes(calculator, nodes[..i], fuel) == Ok(sum)
    {
      assert nodes[..i + 1][..i] == nodes[..i];
      var score := ScorePlanNode(calculator, nodes[i], fuel);
      if score.Err? {
        r := Err(score.error);
        NodesErrorPersists(calculator, nodes, fuel, i + 1);
        return;
      }
      sum := sum + score.value;
    }
    assert nodes[..|nodes|] == nodes;
    r := Ok(sum);
  }

  lemma {:induction false} NodesErrorPersists(calculator: StaticCostCalculator, nodes: seq<PlanNode>, fuel: nat, i: nat)
    requires i <= |nodes| && SummedScoreOfNodes(calculator, nodes[..i], fuel).Err?
    ensures SummedScoreOfNodes(calculator, nodes, fuel) == SummedScoreOfNodes(calculator, nodes[..i], fuel)
    decreases |nodes| - i
  {
    if i < |nodes| {
      assert nodes[..i + 1][..i] == nodes[..i];
      NodesErrorPersists(calculator, nodes, fuel, i + 1);
    } else {
      assert nodes[..i] == nodes;
    }
  }

  /**
   * The deferred loop as the source runs it: the primary node first, then
   * every deferred node that is present, stopping at the first error.
   */
  method SumDeferredNodes(calculator: StaticCostCalculator, primary: Primary, deferred: seq<DeferredNode>, fuel: nat)
    returns (r: Result<real>)
    ensures r == SummedScoreOfDeferredNodes(calculator, primary, deferred, fuel)
  {
    var score := 0.0;
    if primary.node.Some? {
      var primaryScore := ScorePlanNode(calculator, primary.node.value, fuel);
      if primaryScore.Err? {
        return Err(primaryScore.error);
      }
      score := score + primaryScore.value;
    }
    ghost var primaryCost := score;
    ghost var deferredCost := 0.0;
    for i := 0 to |deferred|
      invariant SummedScoreOfDeferred(calculator, deferred[..i], fuel) == Ok(deferredCost)
      invariant score == primaryCost + deferredCost
    {
      assert deferred[..i + 1][..i] == deferred[..i];
      if deferred[i].node.Some? {
        var nodeScore := ScorePlanNode(calculator, deferred[i].node.value, fuel);
        if nodeScore.Err? {
          r := Err(nodeScore.error);
          DeferredErrorPersists(calculator, deferred, fuel, i + 1);
          return;
        }
        score := score + nodeScore.value;
        deferredCost := deferredCost + nodeScore.value;
      }
    }
    assert deferred[..|deferred|] == deferred;
    r := Ok(score);
  }

  lemma {:induction false} DeferredErrorPersists(calculator: StaticCostCalculator, deferred: seq<DeferredNode>, fuel: nat, i: nat)
    requires i <= |deferred| && SummedScoreOfDeferred(calculator, deferred[..i], fuel).Err?
    ensures SummedScoreOfDeferred(calculator, deferred, fuel) == SummedScoreOfDeferred(calculator, deferred[..i], fuel)
    decreases |deferred| - i
  {
    if i < |deferred| {
      assert deferred[..i + 1][..i] == deferred[..i];
      DeferredErrorPersists(calculator, deferred, fuel, i + 1);
    } else {
      assert deferred[..i] == deferred;
    }
  }
}

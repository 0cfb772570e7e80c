/** The execution plan a database returns for `EXPLAIN (FORMAT JSON)`: one node per
    operation, each with its estimates, optional predicates and ordered sub-plans. */
module Plans {
  import opened Common

  /** One plan node. Every JSON key the advisors read is kept; a key that may be
      absent from the JSON is an `Option`. */
  datatype Plan = Plan(
    nodeType: string,               // "Node Type"
    totalCost: Option<real>,        // "Total Cost"
    planRows: Option<int>,          // "Plan Rows"
    planWidth: Option<int>,         // "Plan Width"
    startupCost: Option<real>,      // "Startup Cost"
    relationName: Option<string>,   // "Relation Name"
    filter: Option<string>,         // "Filter"
    joinFilter: Option<string>,     // "Join Filter"
    sortKey: Option<seq<string>>,   // "Sort Key"
    plans: seq<Plan>)               // "Plans" (an absent key is the empty list)

  /** All nodes of the tree, each before its sub-plans, sub-plans in input order. */
  function Preorder(p: Plan): (r: seq<Plan>)
    ensures |r| > 0 && r[0] == p
    decreases p, 1
  {
    [p] + ChildrenPreorder(p, |p.plans|)
  }

  /** The pre-order node lists of the first `i` sub-plans, one after the other. */
  function ChildrenPreorder(p: Plan, i: nat): seq<Plan>
    requires i <= |p.plans|
    decreases p, 0, i
  {
    if i == 0 then [] else ChildrenPreorder(p, i - 1) + Preorder(p.plans[i - 1])
  }
}

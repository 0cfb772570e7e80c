/** The plan metrics extractor: a recursive walk over a plan tree that derives
    per-node cost and memory figures and fires the node-level heuristics. */
module PlanMetrics {
  import opened Common
  import opened Text
  import opened Plans

  /** The tuple cost the walk uses when the caller gives none, and below the root. */
  const DefaultCpuTupleCost: real := 0.01
  const MiB: int := 1024 * 1024

  const FullScanRows: int := 100_000
  const LargeNestedLoopRows: int := 50_000
  const WorkMemBytes: int := 10 * MiB
  const PartitionCost: real := 100_000.0

  /** The five node-level heuristics, in the order they are evaluated. */
  datatype Rule = FullScanRule | ParallelRule | WorkMemRule | NestedLoopRule | PartitionRule {
    function Rank(): nat {
      match this
      case FullScanRule => 0
      case ParallelRule => 1
      case WorkMemRule => 2
      case NestedLoopRule => 3
      case PartitionRule => 4
    }
  }

  /** A recommendation attached to a node; the payload is what its message reports. */
  datatype PlanAdvice =
    | FullScan(rows: int)                                       // add an index or a WHERE
    | ParallelPlan                                              // raise max_parallel_workers_per_gather
    | RaiseWorkMem(nodeType: string, memoryMb: real, suggestedMb: int)  // raise work_mem
    | LargeNestedLoop                                           // use a hash join or an index
    | PartitionTable(cost: real)                                // partition the table
  {
    function Rule(): Rule {
      match this
      case FullScan(_) => FullScanRule
      case ParallelPlan => ParallelRule
      case RaiseWorkMem(_, _, _) => WorkMemRule
      case LargeNestedLoop => NestedLoopRule
      case PartitionTable(_) => PartitionRule
    }
  }

  /** When each rule fires, stated rule by rule. */
  predicate Fires(r: Rule, nodeType: string, cost: real, rows: int, memoryBytes: int) {
    match r
    case FullScanRule => EndsWith(nodeType, "Seq Scan") && rows > FullScanRows
    case ParallelRule => Contains(nodeType, "Parallel")
    case WorkMemRule => nodeType in {"Hash", "Sort"} && memoryBytes > WorkMemBytes
    case NestedLoopRule => nodeType == "Nested Loop" && rows > LargeNestedLoopRows
    case PartitionRule => cost > PartitionCost && nodeType in {"Seq Scan", "Bitmap Heap Scan"}
  }

  /** The memory figure a working-memory recommendation reports, in MiB. */
  function MemoryMb(memoryBytes: int): real {
    memoryBytes as real / MiB as real
  }

  /** The recommendations of one node: each heuristic appends independently, in order. */
  function NodeAdvice(nodeType: string, cost: real, rows: int, memoryBytes: int): seq<PlanAdvice> {
    FullScanCheck(nodeType, rows) + ParallelCheck(nodeType) + WorkMemCheck(nodeType, memoryBytes)
    + NestedLoopCheck(nodeType, rows) + PartitionCheck(nodeType, cost)
  }

  function FullScanCheck(nodeType: string, rows: int): seq<PlanAdvice> {
    if EndsWith(nodeType, "Seq Scan") && rows > FullScanRows then [FullScan(rows)] else []
  }

  function ParallelCheck(nodeType: string): seq<PlanAdvice> {
    if Contains(nodeType, "Parallel") then [ParallelPlan] else []
  }

  function WorkMemCheck(nodeType: string, memoryBytes: int): seq<PlanAdvice> {
    var mb := MemoryMb(memoryBytes);
    if nodeType in {"Hash", "Sort"} && memoryBytes > WorkMemBytes
    then [RaiseWorkMem(nodeType, mb, (mb * 2.0).Floor)] else []
  }

  function NestedLoopCheck(nodeType: string, rows: int): seq<PlanAdvice> {
    if nodeType == "Nested Loop" && rows > LargeNestedLoopRows then [LargeNestedLoop] else []
  }

  function PartitionCheck(nodeType: string, cost: real): seq<PlanAdvice> {
    if cost > PartitionCost && nodeType in {"Seq Scan", "Bitmap Heap Scan"}
    then [PartitionTable(cost)] else []
  }

  /** The annotated node the walk returns for every plan node. */
  datatype NodeMetrics = NodeMetrics(
    nodeType: string,
    cost: real,
    cpuCost: real,
    ioCost: real,
    totalEstimate: real,
    rows: int,
    width: int,
    startupCost: real,
    memoryEstimateMb: real,
    recommendations: seq<PlanAdvice>,
    children: seq<NodeMetrics>)

  /** Annotates a plan tree. The caller's `cpuTupleCost` applies to the root only:
      the sub-plans are annotated with the default. Absent numeric keys read as 0. */
  function ExtractMetrics(p: Plan, cpuTupleCost: real): NodeMetrics {
    var cost := p.totalCost.GetOr(0.0);
    var rows := p.planRows.GetOr(0);
    var width := p.planWidth.GetOr(0);
    var cpuCost := rows as real * cpuTupleCost;
    var ioCost := if cost - cpuCost > 0.0 then cost - cpuCost else 0.0;
    var memoryBytes := rows * width;
    NodeMetrics(
      p.nodeType, cost, cpuCost, ioCost, cost, rows, width, p.startupCost.GetOr(0.0),
      MemoryMb(memoryBytes),
      NodeAdvice(p.nodeType, cost, rows, memoryBytes),
      seq(|p.plans|, i requires 0 <= i < |p.plans| => ExtractMetrics(p.plans[i], DefaultCpuTupleCost)))
  }

  /** The annotated tree has the plan's shape: same node types, same number of
      children, children in the same order, all the way down. */
  predicate Mirrors(m: NodeMetrics, p: Plan)
    decreases p
  {
    && m.nodeType == p.nodeType
    && |m.children| == |p.plans|
    && forall i :: 0 <= i < |p.plans| ==> Mirrors(m.children[i], p.plans[i])
  }

  lemma {:induction false} ExtractMetricsMirrorsPlan(p: Plan, cpuTupleCost: real)
    ensures Mirrors(ExtractMetrics(p, cpuTupleCost), p)
    decreases p
  {
    var m := ExtractMetrics(p, cpuTupleCost);
    forall i | 0 <= i < |p.plans|
      ensures Mirrors(m.children[i], p.plans[i])
    {
      ExtractMetricsMirrorsPlan(p.plans[i], DefaultCpuTupleCost);
    }
  }

  /** What the derived figures of one node mean, for a given tuple cost:
      the CPU share is rows times the tuple cost, the I/O share is the rest of the
      cost and never negative, the memory estimate is rows times width, and the
      recommendations are those of the node's own figures. */
  predicate NodeFigures(m: NodeMetrics, p: Plan, cpuTupleCost: real) {
    var cost := p.totalCost.GetOr(0.0);
    var rows := p.planRows.GetOr(0);
    var width := p.planWidth.GetOr(0);
    && m.cost == cost && m.totalEstimate == cost
    && m.rows == rows && m.width == width
    && m.cpuCost == rows as real * cpuTupleCost
    && m.ioCost >= 0.0 && m.ioCost >= cost - m.cpuCost
    && (m.ioCost == 0.0 || m.ioCost == cost - m.cpuCost)
    && m.memoryEstimateMb * MiB as real == (rows * width) as real
    && m.recommendations == NodeAdvice(p.nodeType, cost, rows, rows * width)
  }

  /** Every node's figures hold, the root's with the caller's tuple cost and every
      other node's with the default. */
  predicate FiguresEverywhere(m: NodeMetrics, p: Plan, cpuTupleCost: real)
    decreases p
  {
    && NodeFigures(m, p, cpuTupleCost)
    && |m.children| == |p.plans|
    && forall i :: 0 <= i < |p.plans| ==>
         FiguresEverywhere(m.children[i], p.plans[i], DefaultCpuTupleCost)
  }

  lemma {:induction false} ExtractMetricsFigures(p: Plan, cpuTupleCost: real)
    ensures FiguresEverywhere(ExtractMetrics(p, cpuTupleCost), p, cpuTupleCost)
    decreases p
  {
    var m := ExtractMetrics(p, cpuTupleCost);
    forall i | 0 <= i < |p.plans|
      ensures FiguresEverywhere(m.children[i], p.plans[i], DefaultCpuTupleCost)
    {
      ExtractMetricsFigures(p.plans[i], DefaultCpuTupleCost);
    }
  }

  /** The caller's tuple cost changes nothing below the root. */
  lemma ChildrenIgnoreCallerTupleCost(p: Plan, c1: real, c2: real)
    ensures ExtractMetrics(p, c1).children == ExtractMetrics(p, c2).children
    ensures ExtractMetrics(p, c1).recommendations == ExtractMetrics(p, c2).recommendations
  {
  }

  /** The rules behind a list of recommendations, in list order. */
  function RulesOf(recs: seq<PlanAdvice>): (rs: seq<Rule>)
    ensures |rs| == |recs|
  {
    seq(|recs|, i requires 0 <= i < |recs| => recs[i].Rule())
  }

  lemma RulesOfAppend(a: seq<PlanAdvice>, b: seq<PlanAdvice>)
    ensures RulesOf(a + b) == RulesOf(a) + RulesOf(b)
  {
  }

  /** Recommendations whose rules strictly follow evaluation order. */
  predicate InEvaluationOrder(recs: seq<PlanAdvice>) {
    forall i, j :: 0 <= i < j < |recs| ==> recs[i].Rule().Rank() < recs[j].Rule().Rank()
  }

  lemma AppendInOrder(a: seq<PlanAdvice>, b: seq<PlanAdvice>, k: nat)
    requires InEvaluationOrder(a) && forall i :: 0 <= i < |a| ==> a[i].Rule().Rank() < k
    requires |b| <= 1 && forall i :: 0 <= i < |b| ==> b[i].Rule().Rank() == k
    ensures InEvaluationOrder(a + b) && forall i :: 0 <= i < |a + b| ==> (a + b)[i].Rule().Rank() < k + 1
  {
  }

  /** The recommendations come in evaluation order, one per rule at most, so a
      node has at most five. */
  lemma NodeAdviceInOrder(nodeType: string, cost: real, rows: int, memoryBytes: int)
    ensures InEvaluationOrder(NodeAdvice(nodeType, cost, rows, memoryBytes))
    ensures |NodeAdvice(nodeType, cost, rows, memoryBytes)| <= 5
  {
    var s1 := FullScanCheck(nodeType, rows);
    var s2 := ParallelCheck(nodeType);
    var s3 := WorkMemCheck(nodeType, memoryBytes);
    var s4 := NestedLoopCheck(nodeType, rows);
    var s5 := PartitionCheck(nodeType, cost);
    AppendInOrder(s1, s2, 1);
    AppendInOrder(s1 + s2, s3, 2);
    AppendInOrder(s1 + s2 + s3, s4, 3);
    AppendInOrder(s1 + s2 + s3 + s4, s5, 4);
  }

  lemma FullScanCheckFires(nodeType: string, cost: real, rows: int, memoryBytes: int)
    ensures RulesOf(FullScanCheck(nodeType, rows))
            == if Fires(FullScanRule, nodeType, cost, rows, memoryBytes) then [FullScanRule] else []
  {
  }

  lemma ParallelCheckFires(nodeType: string, cost: real, rows: int, memoryBytes: int)
    ensures RulesOf(ParallelCheck(nodeType))
            == if Fires(ParallelRule, nodeType, cost, rows, memoryBytes) then [ParallelRule] else []
  {
  }

  lemma WorkMemCheckFires(nodeType: string, cost: real, rows: int, memoryBytes: int)
    ensures RulesOf(WorkMemCheck(nodeType, memoryBytes))
            == if Fires(WorkMemRule, nodeType, cost, rows, memoryBytes) then [WorkMemRule] else []
  {
  }

  lemma NestedLoopCheckFires(nodeType: string, cost: real, rows: int, memoryBytes: int)
    ensures RulesOf(NestedLoopCheck(nodeType, rows))
            == if Fires(NestedLoopRule, nodeType, cost, rows, memoryBytes) then [NestedLoopRule] else []
  {
  }

  lemma PartitionCheckFires(nodeType: string, cost: real, rows: int, memoryBytes: int)
    ensures RulesOf(PartitionCheck(nodeType, cost))
            == if Fires(PartitionRule, nodeType, cost, rows, memoryBytes) then [PartitionRule] else []
  {
  }

  /** The rules behind a node's recommendations are those of the five checks, in order. */
  lemma NodeAdviceRules(nodeType: string, cost: real, rows: int, memoryBytes: int)
    ensures RulesOf(NodeAdvice(nodeType, cost, rows, memoryBytes))
            == RulesOf(FullScanCheck(nodeType, rows)) + RulesOf(ParallelCheck(nodeType))
               + RulesOf(WorkMemCheck(nodeType, memoryBytes)) + RulesOf(NestedLoopCheck(nodeType, rows))
               + RulesOf(PartitionCheck(nodeType, cost))
  {
    var s1 := FullScanCheck(nodeType, rows);
    var s2 := ParallelCheck(nodeType);
    var s3 := WorkMemCheck(nodeType, memoryBytes);
    var s4 := NestedLoopCheck(nodeType, rows);
    var s5 := PartitionCheck(nodeType, cost);
    RulesOfAppend(s1, s2);
    RulesOfAppend(s1 + s2, s3);
    RulesOfAppend(s1 + s2 + s3, s4);
    RulesOfAppend(s1 + s2 + s3 + s4, s5);
  }

  /** Five checks of which each contributes its own rule when its condition holds. */
  lemma FiveRules(r1: seq<Rule>, r2: seq<Rule>, r3: seq<Rule>, r4: seq<Rule>, r5: seq<Rule>,
                  f1: bool, f2: bool, f3: bool, f4: bool, f5: bool)
    requires r1 == (if f1 then [FullScanRule] else []) && r2 == (if f2 then [ParallelRule] else [])
    requires r3 == (if f3 then [WorkMemRule] else []) && r4 == (if f4 then [NestedLoopRule] else [])
    requires r5 == (if f5 then [PartitionRule] else [])
    ensures forall r: Rule :: r in r1 + r2 + r3 + r4 + r5 <==>
              (r == FullScanRule && f1) || (r == ParallelRule && f2) || (r == WorkMemRule && f3)
              || (r == NestedLoopRule && f4) || (r == PartitionRule && f5)
  {
    forall r: Rule
      ensures r in r1 + r2 + r3 + r4 + r5 <==>
              (r == FullScanRule && f1) || (r == ParallelRule && f2) || (r == WorkMemRule && f3)
              || (r == NestedLoopRule && f4) || (r == PartitionRule && f5)
    {
      assert r in r1 + r2 + r3 + r4 + r5 <==> r in r1 || r in r2 || r in r3 || r in r4 || r in r5;
    }
  }

  /** Each heuristic contributes exactly when its rule fires. */
  lemma NodeAdviceFiresExactly(nodeType: string, cost: real, rows: int, memoryBytes: int)
    ensures forall r: Rule :: r in RulesOf(NodeAdvice(nodeType, cost, rows, memoryBytes))
                              <==> Fires(r, nodeType, cost, rows, memoryBytes)
  {
    var f1 := Fires(FullScanRule, nodeType, cost, rows, memoryBytes);
    var f2 := Fires(ParallelRule, nodeType, cost, rows, memoryBytes);
    var f3 := Fires(WorkMemRule, nodeType, cost, rows, memoryBytes);
    var f4 := Fires(NestedLoopRule, nodeType, cost, rows, memoryBytes);
    var f5 := Fires(PartitionRule, nodeType, cost, rows, memoryBytes);
    NodeAdviceRules(nodeType, cost, rows, memoryBytes);
    FullScanCheckFires(nodeType, cost, rows, memoryBytes);
    ParallelCheckFires(nodeType, cost, rows, memoryBytes);
    WorkMemCheckFires(nodeType, cost, rows, memoryBytes);
    NestedLoopCheckFires(nodeType, cost, rows, memoryBytes);
    PartitionCheckFires(nodeType, cost, rows, memoryBytes);
    FiveRules(RulesOf(FullScanCheck(nodeType, rows)), RulesOf(ParallelCheck(nodeType)),
              RulesOf(WorkMemCheck(nodeType, memoryBytes)), RulesOf(NestedLoopCheck(nodeType, rows)),
              RulesOf(PartitionCheck(nodeType, cost)), f1, f2, f3, f4, f5);
  }

  /** A parallel sequential scan of many rows is both a full scan (the node type
      ends with "Seq Scan") and a parallel plan, and nothing else. */
  lemma ParallelSeqScanGetsBoth(cost: real, rows: int, memoryBytes: int)
    requires rows > FullScanRows
    ensures NodeAdvice("Parallel Seq Scan", cost, rows, memoryBytes) == [FullScan(rows), ParallelPlan]
  {
    assert OccursAt("Parallel Seq Scan", "Parallel", 0);
  }

  /** A plain sequential scan of 150,000 rows below the partitioning cost gets
      exactly the full-scan recommendation. */
  lemma SeqScanOfManyRowsGetsOne(cost: real, memoryBytes: int)
    requires cost <= PartitionCost
    ensures NodeAdvice("Seq Scan", cost, 150_000, memoryBytes) == [FullScan(150_000)]
  {
    assert !OccursAt("Seq Scan", "Parallel", 0) by { assert "Seq Scan"[0] != "Parallel"[0]; }
  }

  /** A hash node of 2,000,000 rows of width 10 (about 19 MiB) suggests 38 MB of work_mem. */
  lemma HashOf19MiBSuggests38(cost: real)
    ensures NodeAdvice("Hash", cost, 2_000_000, 2_000_000 * 10)
            == [RaiseWorkMem("Hash", MemoryMb(20_000_000), 38)]
  {
    assert !Contains("Hash", "Parallel");
    assert (MemoryMb(20_000_000) * 2.0).Floor == 38;
  }
}

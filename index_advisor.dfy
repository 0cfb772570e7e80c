/** The index advisor: a pre-order walk of a plan tree that suggests indexes for
    sequential scans, nested-loop joins and sorts, looking up each relation's
    existing indexes at most once, followed by drop suggestions for unused indexes. */
module IndexAdvisor {
  import opened Common
  import opened Text
  import opened Plans
  import opened FilterColumns
  import QueryStats

  /** One existing index of a relation: its name and its definition text. */
  datatype IndexRow = IndexRow(name: string, definition: string)

  /** The catalog lookup of a relation's existing indexes. */
  type Catalog = string -> seq<IndexRow>

  /** One unused-index row, in the column order of the catalog query: schema,
      table, index, pretty-printed index size, scan count. */
  datatype UnusedIndexRow = UnusedIndexRow(
    schemaName: string, tableName: string, indexName: string, indexSize: string, idxScan: int)

  datatype Kind = AddIndex | DropIndex
  datatype Priority = High | Medium | Low

  /** One recommendation. */
  datatype IndexAdvice =
    | CreateForFilter(table: string, filter: string, columns: set<string>)
    | ScanWithoutFilter(table: string)
    | IndexForJoin(joinFilter: string, columns: set<string>)
    | IndexForSort(table: string, sortKey: seq<string>)
    | DropUnused(schemaName: string, tableName: string, indexName: string, reportedSize: int)
  {
    function Kind(): Kind {
      if DropUnused? then DropIndex else AddIndex
    }

    function Priority(): Priority {
      match this
      case CreateForFilter(_, _, _) => High
      case ScanWithoutFilter(_) => Medium
      case IndexForJoin(_, _) => Medium
      case IndexForSort(_, _) => Low
      case DropUnused(_, _, _, _) => Low
    }
  }

  /** Python truthiness of an optional string: present and non-empty. */
  predicate Truthy(o: Option<string>) {
    o.Some? && o.value != ""
  }

  /** Some existing definition contains every column as a substring. */
  predicate ColumnsCovered(existing: seq<IndexRow>, columns: set<string>) {
    exists i :: 0 <= i < |existing| && forall c :: c in columns ==> Contains(existing[i].definition, c)
  }

  /** Some existing definition contains the sort key text as a substring. */
  predicate KeyCovered(existing: seq<IndexRow>, key: string) {
    exists i :: 0 <= i < |existing| && Contains(existing[i].definition, key)
  }

  /** The sequential-scan rule of one node. */
  function ScanAdvice(n: Plan, catalog: Catalog): seq<IndexAdvice> {
    if n.nodeType == "Seq Scan" && Truthy(n.relationName) then
      var rel := n.relationName.value;
      if Truthy(n.filter) then
        var cols := ExtractColumns(n.filter);
        if cols != {} && !ColumnsCovered(catalog(rel), cols)
        then [CreateForFilter(rel, n.filter.value, cols)] else []
      else [ScanWithoutFilter(rel)]
    else []
  }

  /** The nested-loop rule of one node; the existing indexes are not consulted. */
  function JoinAdvice(n: Plan): seq<IndexAdvice> {
    if n.nodeType == "Nested Loop" && Truthy(n.joinFilter) then
      var cols := ExtractColumns(n.joinFilter);
      if cols != {} then [IndexForJoin(n.joinFilter.value, cols)] else []
    else []
  }

  /** The sort rule of one node: the key is the sort-key items joined by ", ". */
  function SortAdvice(n: Plan, catalog: Catalog): seq<IndexAdvice> {
    if n.sortKey.Some? && n.sortKey.value != [] && Truthy(n.relationName) then
      var rel := n.relationName.value;
      if !KeyCovered(catalog(rel), Join(n.sortKey.value, ", "))
      then [IndexForSort(rel, n.sortKey.value)] else []
    else []
  }

  /** The recommendations of one node: scan, then join, then sort. */
  function NodeAdvice(n: Plan, catalog: Catalog): seq<IndexAdvice> {
    ScanAdvice(n, catalog) + JoinAdvice(n) + SortAdvice(n, catalog)
  }

  /** The recommendations of a list of nodes, node by node. */
  function AdviceAll(nodes: seq<Plan>, catalog: Catalog): seq<IndexAdvice> {
    ConcatMap((n: Plan) => NodeAdvice(n, catalog), nodes)
  }

  /** The relation a node names, if it names one. */
  function OwnRelation(n: Plan): set<string> {
    if Truthy(n.relationName) then {n.relationName.value} else {}
  }

  /** The relations a list of nodes names. */
  function RelationsOf(nodes: seq<Plan>): set<string> {
    if nodes == [] then {}
    else RelationsOf(nodes[..|nodes| - 1]) + OwnRelation(nodes[|nodes| - 1])
  }

  /** The drop suggestion of one unused index. The figure it reports as the size
      is the scan count, because the row is unpacked in another order than the
      catalog query lists its columns. */
  function DropAdvice(u: UnusedIndexRow): (a: IndexAdvice)
    ensures a.Kind() == DropIndex && a.Priority() == Low
    ensures a.reportedSize == u.idxScan
  {
    DropUnused(u.schemaName, u.tableName, u.indexName, u.idxScan)
  }

  function DropAll(unused: seq<UnusedIndexRow>): (ds: seq<IndexAdvice>)
    ensures |ds| == |unused|
  {
    seq(|unused|, i requires 0 <= i < |unused| => DropAdvice(unused[i]))
  }

  lemma AdviceAllAppend(a: seq<Plan>, b: seq<Plan>, catalog: Catalog)
    ensures AdviceAll(a + b, catalog) == AdviceAll(a, catalog) + AdviceAll(b, catalog)
  {
    ConcatMapAppend((n: Plan) => NodeAdvice(n, catalog), a, b);
  }

  lemma {:induction false} RelationsOfAppend(a: seq<Plan>, b: seq<Plan>)
    ensures RelationsOf(a + b) == RelationsOf(a) + RelationsOf(b)
    decreases |b|
  {
    if b == [] {
      assert a + b == a;
    } else {
      var b' := b[..|b| - 1];
      assert (a + b)[..|a + b| - 1] == a + b';
      RelationsOfAppend(a, b');
    }
  }

  /** The memo agrees with the catalog and holds exactly the relations fetched. */
  ghost predicate MemoValid(seen: map<string, seq<IndexRow>>, fetched: seq<string>, catalog: Catalog) {
    && NoDuplicates(fetched)
    && (forall r :: r in seen <==> r in fetched)
    && (forall r :: r in seen ==> seen[r] == catalog(r))
  }

  /** The relations logged are the memo's keys. */
  lemma MemoKeys(seen: map<string, seq<IndexRow>>, fetched: seq<string>, catalog: Catalog)
    requires MemoValid(seen, fetched, catalog)
    ensures forall r :: r in fetched <==> r in seen.Keys
  {
  }

  lemma ChildrenStep(node: Plan, i: nat)
    requires i < |node.plans|
    ensures ChildrenPreorder(node, i + 1) == ChildrenPreorder(node, i) + Preorder(node.plans[i])
  {
  }

  /** Walking one more child adds that child's pre-order nodes. */
  lemma WalkStep(node: Plan, i: nat, catalog: Catalog)
    requires i < |node.plans|
    ensures AdviceAll(ChildrenPreorder(node, i + 1), catalog)
            == AdviceAll(ChildrenPreorder(node, i), catalog) + AdviceAll(Preorder(node.plans[i]), catalog)
    ensures RelationsOf(ChildrenPreorder(node, i + 1))
            == RelationsOf(ChildrenPreorder(node, i)) + RelationsOf(Preorder(node.plans[i]))
  {
    ChildrenStep(node, i);
    AdviceAllAppend(ChildrenPreorder(node, i), Preorder(node.plans[i]), catalog);
    RelationsOfAppend(ChildrenPreorder(node, i), Preorder(node.plans[i]));
  }

  /** A node with its descendants: the node's own advice and relation, then the
      children's. */
  lemma PreorderSplit(node: Plan, catalog: Catalog)
    ensures AdviceAll(Preorder(node), catalog)
            == NodeAdvice(node, catalog) + AdviceAll(ChildrenPreorder(node, |node.plans|), catalog)
    ensures RelationsOf(Preorder(node)) == OwnRelation(node) + RelationsOf(ChildrenPreorder(node, |node.plans|))
  {
    var rest := ChildrenPreorder(node, |node.plans|);
    AdviceAllAppend([node], rest, catalog);
    RelationsOfAppend([node], rest);
    assert [node][..0] == [];
    assert ConcatMap((n: Plan) => NodeAdvice(n, catalog), [node]) == NodeAdvice(node, catalog);
  }

  /** The memo lookup of one node: a relation not fetched before is fetched now
      and logged. */
  method Fetch(node: Plan, catalog: Catalog, seen: map<string, seq<IndexRow>>, ghost fetched: seq<string>)
    returns (seen': map<string, seq<IndexRow>>, ghost fetched': seq<string>)
    requires MemoValid(seen, fetched, catalog)
    ensures MemoValid(seen', fetched', catalog)
    ensures seen'.Keys == seen.Keys + OwnRelation(node)
  {
    seen', fetched' := seen, fetched;
    if node.relationName.Some? && node.relationName.value != "" && node.relationName.value !in seen {
      var rel := node.relationName.value;
      seen' := seen[rel := catalog(rel)];
      fetched' := fetched + [rel];
    }
  }

  /** One node: fetch its relation's indexes if not yet fetched, apply the three
      rules against the memo, then walk the children in order. */
  method Walk(node: Plan, catalog: Catalog, seen: map<string, seq<IndexRow>>, recs: seq<IndexAdvice>,
              ghost fetched: seq<string>)
    returns (seen': map<string, seq<IndexRow>>, recs': seq<IndexAdvice>, ghost fetched': seq<string>)
    requires MemoValid(seen, fetched, catalog)
    ensures MemoValid(seen', fetched', catalog)
    ensures recs' == recs + AdviceAll(Preorder(node), catalog)
    ensures seen'.Keys == seen.Keys + RelationsOf(Preorder(node))
    decreases node, 2
  {
    var seen1, fetched1 := Fetch(node, catalog, seen, fetched);
    var advice := VisitNode(node, catalog, seen1);
    seen', recs', fetched' := WalkChildren(node, catalog, seen1, recs + advice, fetched1);
    PreorderSplit(node, catalog);
    AppendAssoc(recs, advice, AdviceAll(ChildrenPreorder(node, |node.plans|), catalog));
  }

  /** The loop over a node's children, in order. */
  method WalkChildren(node: Plan, catalog: Catalog, seen: map<string, seq<IndexRow>>, recs: seq<IndexAdvice>,
                      ghost fetched: seq<string>)
    returns (seen': map<string, seq<IndexRow>>, recs': seq<IndexAdvice>, ghost fetched': seq<string>)
    requires MemoValid(seen, fetched, catalog)
    ensures MemoValid(seen', fetched', catalog)
    ensures recs' == recs + AdviceAll(ChildrenPreorder(node, |node.plans|), catalog)
    ensures seen'.Keys == seen.Keys + RelationsOf(ChildrenPreorder(node, |node.plans|))
    decreases node, 1
  {
    seen', recs', fetched' := seen, recs, fetched;
    var i := 0;
    while i < |node.plans|
      invariant 0 <= i <= |node.plans|
      invariant MemoValid(seen', fetched', catalog)
      invariant recs' == recs + AdviceAll(ChildrenPreorder(node, i), catalog)
      invariant seen'.Keys == seen.Keys + RelationsOf(ChildrenPreorder(node, i))
    {
      seen', recs', fetched' := WalkChild(node, i, catalog, seen', recs', fetched', recs, seen.Keys);
      i := i + 1;
    }
  }

  /** One turn of the loop over the children: walk child `i`, after the advice
      and relations of the children before it. */
  method WalkChild(node: Plan, i: nat, catalog: Catalog, seen: map<string, seq<IndexRow>>, recs: seq<IndexAdvice>,
                   ghost fetched: seq<string>, ghost recs0: seq<IndexAdvice>, ghost keys0: set<string>)
    returns (seen': map<string, seq<IndexRow>>, recs': seq<IndexAdvice>, ghost fetched': seq<string>)
    requires i < |node.plans|
    requires MemoValid(seen, fetched, catalog)
    requires recs == recs0 + AdviceAll(ChildrenPreorder(node, i), catalog)
    requires seen.Keys == keys0 + RelationsOf(ChildrenPreorder(node, i))
    ensures MemoValid(seen', fetched', catalog)
    ensures recs' == recs0 + AdviceAll(ChildrenPreorder(node, i + 1), catalog)
    ensures seen'.Keys == keys0 + RelationsOf(ChildrenPreorder(node, i + 1))
    decreases node, 0
  {
    seen', recs', fetched' := Walk(node.plans[i], catalog, seen, recs, fetched);
    WalkStep(node, i, catalog);
    AppendAssoc(recs0, AdviceAll(ChildrenPreorder(node, i), catalog), AdviceAll(Preorder(node.plans[i]), catalog));
  }

  /** The three rules of one node, reading existing indexes from the memo. */
  method VisitNode(node: Plan, catalog: Catalog, seen: map<string, seq<IndexRow>>) returns (advice: seq<IndexAdvice>)
    requires forall r :: r in seen ==> seen[r] == catalog(r)
    requires OwnRelation(node) <= seen.Keys
    ensures advice == NodeAdvice(node, catalog)
  {
    advice := [];
    var relation := node.relationName;
    if node.nodeType == "Seq Scan" && relation.Some? && relation.value != "" {
      if node.filter.Some? && node.filter.value != "" {
        var cols := ExtractColumns(node.filter);
        if cols != {} {
          var existing := seen[relation.value];
          if !ColumnsCovered(existing, cols) {
            advice := advice + [CreateForFilter(relation.value, node.filter.value, cols)];
          }
        }
      } else {
        advice := advice + [ScanWithoutFilter(relation.value)];
      }
    }
    assert advice == ScanAdvice(node, catalog);
    if node.nodeType == "Nested Loop" && node.joinFilter.Some? && node.joinFilter.value != "" {
      var cols := ExtractColumns(node.joinFilter);
      if cols != {} {
        advice := advice + [IndexForJoin(node.joinFilter.value, cols)];
      }
    }
    assert advice == ScanAdvice(node, catalog) + JoinAdvice(node);
    if node.sortKey.Some? && node.sortKey.value != [] && relation.Some? && relation.value != "" {
      var key := Join(node.sortKey.value, ", ");
      var existing := seen[relation.value];
      if !KeyCovered(existing, key) {
        advice := advice + [IndexForSort(relation.value, node.sortKey.value)];
      }
    }
  }

  /** The whole advisor: the walk from the root with an empty memo, then one drop
      suggestion per unused-index row, in catalog order. Each relation named in
      the plan is fetched from the catalog exactly once. */
  method RecommendIndexes(plan: Plan, catalog: Catalog, unused: seq<UnusedIndexRow>)
    returns (recommendations: seq<IndexAdvice>, ghost fetched: seq<string>)
    ensures recommendations == AdviceAll(Preorder(plan), catalog) + DropAll(unused)
    ensures NoDuplicates(fetched)
    ensures forall r :: r in fetched <==> r in RelationsOf(Preorder(plan))
  {
    var seen, walked;
    seen, walked, fetched := Walk(plan, catalog, map[], [], []);
    EmptyPrefix(AdviceAll(Preorder(plan), catalog));
    MemoKeys(seen, fetched, catalog);
    recommendations := AppendDropSuggestions(walked, unused);
  }

  /** The loop over the unused-index rows: one drop suggestion each, in order. */
  method AppendDropSuggestions(recs: seq<IndexAdvice>, unused: seq<UnusedIndexRow>)
    returns (recs': seq<IndexAdvice>)
    ensures recs' == recs + DropAll(unused)
  {
    recs' := recs;
    var i := 0;
    while i < |unused|
      invariant 0 <= i <= |unused|
      invariant recs' == recs + DropAll(unused[..i])
    {
      var u := unused[i];
      recs' := recs' + [DropUnused(u.schemaName, u.tableName, u.indexName, u.idxScan)];
      assert DropAll(unused[..i + 1]) == DropAll(unused[..i]) + [DropAdvice(u)];
      AppendAssoc(recs, DropAll(unused[..i]), [DropAdvice(u)]);
      i := i + 1;
    }
    assert unused[..i] == unused;
  }

  /** The stage of the walk that produces an advice: scan, join, sort, drop. */
  function Stage(a: IndexAdvice): nat {
    match a
    case CreateForFilter(_, _, _) => 0
    case ScanWithoutFilter(_) => 0
    case IndexForJoin(_, _) => 1
    case IndexForSort(_, _) => 2
    case DropUnused(_, _, _, _) => 3
  }

  /** A sequential scan of a named relation: with a filter whose columns are found,
      one high-priority suggestion exactly when no existing index covers them all;
      without a filter, one medium-priority suggestion; with a filter in which no
      column is found, nothing. Other nodes get nothing from this rule. The
      suggestion names the node's relation and, with a filter, that filter and
      its columns. */
  lemma ScanRule(n: Plan, catalog: Catalog)
    ensures |ScanAdvice(n, catalog)| <= 1
    ensures forall a | a in ScanAdvice(n, catalog) :: a.Kind() == AddIndex && Stage(a) == 0
    ensures ScanAdvice(n, catalog) != [] ==> n.nodeType == "Seq Scan" && Truthy(n.relationName)
    ensures
      (ScanAdvice(n, catalog) != [] && ScanAdvice(n, catalog)[0].Priority() == High)
      <==> n.nodeType == "Seq Scan" && Truthy(n.relationName) && Truthy(n.filter)
           && ExtractColumns(n.filter) != {}
           && !ColumnsCovered(catalog(n.relationName.value), ExtractColumns(n.filter))
    ensures
      (ScanAdvice(n, catalog) != [] && ScanAdvice(n, catalog)[0].Priority() == Medium)
      <==> n.nodeType == "Seq Scan" && Truthy(n.relationName) && !Truthy(n.filter)
    ensures Truthy(n.filter) && ExtractColumns(n.filter) == {} ==> ScanAdvice(n, catalog) == []
    ensures forall a | a in ScanAdvice(n, catalog) && a.CreateForFilter? ::
              a.table == n.relationName.value && a.filter == n.filter.value
              && a.columns == ExtractColumns(n.filter)
    ensures forall a | a in ScanAdvice(n, catalog) && a.ScanWithoutFilter? ::
              a.table == n.relationName.value
  {
  }

  /** A nested loop with a join filter: one medium-priority suggestion exactly when
      some column is found in the join filter, whatever indexes exist. */
  lemma JoinRule(n: Plan)
    ensures |JoinAdvice(n)| <= 1
    ensures JoinAdvice(n) != [] <==>
              n.nodeType == "Nested Loop" && Truthy(n.joinFilter) && ExtractColumns(n.joinFilter) != {}
    ensures forall a | a in JoinAdvice(n) ::
              a.Kind() == AddIndex && a.Priority() == Medium && Stage(a) == 1
              && a.columns == ExtractColumns(n.joinFilter)
  {
  }

  /** A node with a sort key and a relation: one low-priority suggestion exactly
      when no existing definition contains the key items joined by ", ". */
  lemma SortRule(n: Plan, catalog: Catalog)
    ensures |SortAdvice(n, catalog)| <= 1
    ensures SortAdvice(n, catalog) != [] <==>
              n.sortKey.Some? && n.sortKey.value != [] && Truthy(n.relationName)
              && !KeyCovered(catalog(n.relationName.value), Join(n.sortKey.value, ", "))
    ensures forall a | a in SortAdvice(n, catalog) ::
              a.Kind() == AddIndex && a.Priority() == Low && Stage(a) == 2
  {
  }

  /** A node gets at most three suggestions, all additions, scan before join
      before sort. */
  lemma NodeAdviceInOrder(n: Plan, catalog: Catalog)
    ensures |NodeAdvice(n, catalog)| <= 3
    ensures forall a | a in NodeAdvice(n, catalog) :: a.Kind() == AddIndex
    ensures forall i, j | 0 <= i < j < |NodeAdvice(n, catalog)| ::
              Stage(NodeAdvice(n, catalog)[i]) < Stage(NodeAdvice(n, catalog)[j])
  {
    ScanRule(n, catalog);
    JoinRule(n);
    SortRule(n, catalog);
  }

  /** The walk suggests additions only. */
  lemma {:induction false} AdviceAllAdds(nodes: seq<Plan>, catalog: Catalog)
    ensures forall a | a in AdviceAll(nodes, catalog) :: a.Kind() == AddIndex
  {
    if nodes != [] {
      var init := nodes[..|nodes| - 1];
      AdviceAllAdds(init, catalog);
      NodeAdviceInOrder(nodes[|nodes| - 1], catalog);
    }
  }

  /** In the full list, every addition comes before every drop, and there is one
      drop per unused-index row. */
  lemma DropsComeLast(plan: Plan, catalog: Catalog, unused: seq<UnusedIndexRow>)
    ensures var recs := AdviceAll(Preorder(plan), catalog) + DropAll(unused);
            var k := |AdviceAll(Preorder(plan), catalog)|;
            |recs| == k + |unused|
            && (forall i | 0 <= i < |recs| :: recs[i].Kind() == DropIndex <==> k <= i)
  {
    var walked := AdviceAll(Preorder(plan), catalog);
    var recs := walked + DropAll(unused);
    AdviceAllAdds(Preorder(plan), catalog);
    forall i | 0 <= i < |recs|
      ensures recs[i].Kind() == DropIndex <==> |walked| <= i
    {
      if i < |walked| {
        assert recs[i] == walked[i];
        assert walked[i] in walked;
      } else {
        assert recs[i] == DropAdvice(unused[i - |walked|]);
      }
    }
  }

  /** The advisor's N+1 heuristic: the frequent-statement rows that the three-way
      rule flags, as suspects, in input order. */
  method DetectNPlusOne(rows: seq<QueryStats.CallsRow>, t: QueryStats.Thresholds)
    returns (suspects: seq<QueryStats.Suspect>)
    ensures suspects == QueryStats.Suspects(rows, t)
    ensures forall s :: s in suspects <==>
              exists r :: r in rows && QueryStats.IsNPlusOneSuspect(r, t) && s == QueryStats.SuspectOf(r)
  {
    suspects := QueryStats.CollectSuspects(rows, t);
    QueryStats.SuspectsExactly(rows, t);
  }
}

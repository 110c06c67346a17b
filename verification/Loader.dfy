/** The batched eager loader: one query per edge, neighbours redistributed through maps. */
module Loader {
  import opened Wrappers
  import opened Store
  import opened QueryBuilder
  import opened EagerTree
  import opened Database
  import opened Batch
  import opened JoinStream
  import opened Redistribute

  /** Refuses a selected field that is not a column of the table. */
  method PrepareQuery(query: Query) returns (ok: bool)
    requires query.Valid()
    ensures ok <==> !BadFields(query.plan)
  {
    for i := 0 to |query.fields|
      invariant forall j :: 0 <= j < i ==> query.fields[j] in query.table.columns
    {
      if query.fields[i] !in query.table.columns {
        return false;
      }
    }
    return true;
  }

  /** Adds the `IN` predicate of a load to its sub-query and runs it. */
  method RunBatch(db: Db, e: Edge, query: Query, keep: Row -> bool, ghost sub: Plan, ghost nodes: seq<Node>)
    returns (ok: bool, found: seq<Node>, ghost world: set<Node>)
    requires ValidDb(db) && query.Valid() && WfPlan(query.plan) && Asked(e, nodes)
    requires query.plan == sub.(fields := EdgeFields(e, sub.fields)) && BadFields(query.plan) == BadFields(sub)
    requires Selects(keep, db, e, sub, nodes)
    modifies query.repr
    ensures query.Valid() && query.repr == old(query.repr) && Narrowed(sub, query.plan)
    ensures fresh(world)
    ensures ok ==> IsBatch(db, e, sub, nodes, found, world)
    ensures !ok <==> SomeLookupFails(db, e, sub, nodes)
    decreases query.repr, 4
  {
    query.Where(keep);
    ghost var batch := query.plan;
    AcceptsAppend(sub.preds, keep);
    assert Answer(db, batch) == Joint(db, e, sub, nodes);
    BatchFails(db, e, sub, nodes);
    assert forall r :: Fails(db, batch, r) == Fails(db, sub, r);
    ok, found, world := All(db, query);
    NarrowedThen(sub, batch, query.plan);
    if ok {
      forall c | c in found
        ensures Represents(db, c, sub, batch.fields, world)
      {
        SameEdges(db, c, batch, sub, batch.fields, world);
      }
    }
  }

  /** Asks for every node's neighbour at once: the distinct keys, in one query. */
  method FetchByKey(db: Db, ghost owner: Table, e: Edge, query: Query, nodes: seq<Node>)
    returns (ok: bool, found: seq<Node>, nodeids: map<int, seq<Node>>, ghost world: set<Node>)
    requires query.Valid() && e.shape.M2O? && Ready(db, owner, e, query.plan, nodes)
    modifies query.repr
    ensures query.Valid() && query.repr == old(query.repr) && Narrowed(old(query.plan), query.plan)
    ensures fresh(world)
    ensures ok ==> IsBatch(db, e, old(query.plan), nodes, found, world)
    ensures forall k :: k in nodeids ==> nodeids[k] == HoldersOf(nodes, e.shape.fk, k)
    ensures ok ==> forall c :: c in found ==> IntAt(c.values, ID) == IntAt(c.row, ID) && IntAt(c.row, ID).Some? && Key(c.values) in nodeids
    ensures ok ==> forall i, j :: 0 <= i < j < |found| ==> Key(found[i].values) != Key(found[j].values)
    ensures !ok <==> SomeLookupFails(db, e, old(query.plan), nodes)
    decreases query.repr, 5
  {
    ghost var sub := query.plan;
    var ids;
    ids, nodeids := CollectKeys(nodes, e.shape.fk);
    ok, found, world := true, [], {};
    KeysHeld(nodes, e.shape.fk, ids);
    if |ids| == 0 {
      NarrowedRefl(sub);
      NothingAsked(db, e, sub, nodes);
      return;
    }
    KeysAsked(db, e, sub, nodes, ids);
    ok, found, world := RunBatch(db, e, query, InColumn(ID, ids), sub, nodes);
    if ok {
      NeighborKeys(db, sub, sub.fields, found, world);
      FoundKeys(db, e, sub, nodes, found, ids);
    }
  }

  method LoadM2O(db: Db, ghost owner: Table, e: Edge, query: Query, nodes: seq<Node>) returns (ok: bool, ghost world: set<Node>)
    requires query.Valid() && e.shape.M2O? && Ready(db, owner, e, query.plan, nodes)
    modifies query.repr, nodes
    ensures query.Valid() && query.repr == old(query.repr) && Narrowed(old(query.plan), query.plan)
    ensures fresh(world) && OnlyEdge(nodes, e)
    ensures ok ==> Loaded(db, e, old(query.plan), nodes, world)
    ensures ok ==> forall n, m :: n in nodes && m in nodes && IntAt(n.values, e.shape.fk) == IntAt(m.values, e.shape.fk) ==>
              Slot(n.one, e) == Slot(m.one, e)
    ensures !ok <==> SomeLookupFails(db, e, old(query.plan), nodes)
    decreases query.repr, 7
  {
    ghost var sub := query.plan;
    var found, nodeids;
    ok, found, nodeids, world := FetchByKey(db, owner, e, query, nodes);
    if ok {
      ghost var got := AssignOne(e, e.shape.fk, nodes, nodeids, found);
      OnesLoaded(db, e, sub, nodes, found, got, world);
    }
  }

  /** Asks for all the rows that reference one of `fks`; a projected query also reads the key. */
  method FetchByReference(db: Db, e: Edge, query: Query, fks: seq<int>, ghost nodes: seq<Node>)
    returns (ok: bool, found: seq<Node>, ghost world: set<Node>)
    requires ValidDb(db) && query.Valid() && WfPlan(query.plan) && e.shape.O2M? && e.shape.fk in query.table.columns
    requires |nodes| > 0 && forall k :: k in fks <==> exists n :: n in nodes && IntAt(n.row, ID) == Some(k)
    modifies query.repr
    ensures query.Valid() && query.repr == old(query.repr) && Narrowed(old(query.plan), query.plan)
    ensures fresh(world)
    ensures ok ==> IsBatch(db, e, old(query.plan), nodes, found, world)
    ensures ok ==> forall c :: c in found ==> IntAt(c.values, e.shape.fk) == IntAt(c.row, e.shape.fk)
    ensures !ok <==> SomeLookupFails(db, e, old(query.plan), nodes)
    decreases query.repr, 5
  {
    ghost var sub := query.plan;
    if |query.fields| > 0 {
      query.AppendFieldOnce(e.shape.fk);
    }
    IdsAsked(db, e, sub, nodes, fks);
    ok, found, world := RunBatch(db, e, query, InColumn(e.shape.fk, fks), sub, nodes);
    if ok {
      forall c | c in found
        ensures IntAt(c.values, e.shape.fk) == IntAt(c.row, e.shape.fk)
      {
        VisibleAt(sub, EdgeFields(e, sub.fields), c.row, e.shape.fk);
      }
    }
  }

  /** First half of a one-to-many load: index the nodes by id and fetch the rows that reference them. */
  method FetchO2M(db: Db, ghost owner: Table, e: Edge, query: Query, nodes: seq<Node>)
    returns (ok: bool, found: seq<Node>, nodeids: map<int, Node>, ghost world: set<Node>)
    requires query.Valid() && e.shape.O2M? && Ready(db, owner, e, query.plan, nodes) && DistinctRows(nodes)
    modifies query.repr, nodes
    ensures query.Valid() && query.repr == old(query.repr) && Narrowed(old(query.plan), query.plan)
    ensures fresh(world) && OnlyEdge(nodes, e)
    ensures forall n :: n in nodes ==> Slot(n.one, e) == None && Slot(n.many, e) == Some([])
    ensures Indexed(nodes, nodeids)
    ensures ok ==> IsBatch(db, e, old(query.plan), nodes, found, world)
    ensures ok ==> forall c :: c in found ==> IntAt(c.values, e.shape.fk) == IntAt(c.row, e.shape.fk)
    ensures !ok <==> SomeLookupFails(db, e, old(query.plan), nodes)
    decreases query.repr, 6
  {
    ghost var sub := query.plan;
    var fks;
    fks, nodeids := IndexNodes(db, owner, e, nodes);
    assert query.Valid() && query.plan == sub;
    ok, found, world := FetchByReference(db, e, query, fks, nodes);
  }

  method LoadO2M(db: Db, ghost owner: Table, e: Edge, query: Query, nodes: seq<Node>)
    returns (ok: bool, ghost neighbors: seq<Node>, ghost world: set<Node>)
    requires query.Valid() && e.shape.O2M? && Ready(db, owner, e, query.plan, nodes) && DistinctRows(nodes)
    modifies query.repr, nodes
    ensures query.Valid() && query.repr == old(query.repr) && Narrowed(old(query.plan), query.plan)
    ensures fresh(world) && OnlyEdge(nodes, e)
    ensures ok ==> Loaded(db, e, old(query.plan), nodes, world)
    ensures ok ==> Covers(neighbors, Joint(db, e, old(query.plan), nodes))
    ensures ok ==> forall n :: n in nodes ==> Slot(n.many, e) == Some(Matching(db, e, n.row, neighbors))
    ensures !ok <==> SomeLookupFails(db, e, old(query.plan), nodes)
    decreases query.repr, 7
  {
    ghost var sub := query.plan;
    var found, nodeids;
    ok, found, nodeids, world := FetchO2M(db, owner, e, query, nodes);
    neighbors := found;
    if ok {
      BatchOwners(db, e, sub, nodes, found);
      label fetched:
      AssignMany(db, e, nodes, nodeids, found);
      forall n | n in nodes
        ensures Wrote(old(n.one), n.one, e) && Wrote(old(n.many), n.many, e)
      {
        WroteTrans(old(n.many), old@fetched(n.many), n.many, e);
      }
      ManysLoaded(db, e, sub, nodes, found, world);
    }
  }

  /** First half of a many-to-many load: index the nodes, scan the join, and load the targets' own edges. */
  method FetchM2M(db: Db, ghost owner: Table, e: Edge, query: Query, nodes: seq<Node>)
    returns (ok: bool, found: seq<Node>, nids: map<int, set<Node>>, ghost world: set<Node>)
    requires query.Valid() && e.shape.M2M? && Ready(db, owner, e, query.plan, nodes) && DistinctRows(nodes)
    modifies query.repr, nodes
    ensures query.Valid() && query.repr == old(query.repr) && Narrowed(old(query.plan), query.plan)
    ensures fresh(world) && OnlyEdge(nodes, e)
    ensures forall n :: n in nodes ==> Slot(n.one, e) == None && Slot(n.many, e) == Some([])
    ensures ok ==> IsBatch(db, e, old(query.plan), nodes, found, world)
    ensures ok ==> OwnedBy(db, e, nodes, found, nids)
    ensures !ok <==> SomeLookupFails(db, e, old(query.plan), nodes)
    decreases query.repr, 6
  {
    ghost var sub := query.plan;
    var edgeIDs, byID := IndexNodes(db, owner, e, nodes);
    assert query.Valid() && query.plan == sub;
    ok, found, nids, world := FetchJoined(db, e, query, edgeIDs, byID, nodes);
  }

  /** Runs the join query for the indexed nodes. */
  method FetchJoined(db: Db, e: Edge, query: Query, ids: seq<int>, byID: map<int, Node>, ghost nodes: seq<Node>)
    returns (ok: bool, found: seq<Node>, nids: map<int, set<Node>>, ghost world: set<Node>)
    requires ValidDb(db) && query.Valid() && WfPlan(query.plan) && |nodes| > 0
    requires e.shape.M2M? && query.table == e.target && e.target.hasId && WfTable(e.target)
    requires Indexed(nodes, byID) && forall k :: k in ids <==> k in byID
    modifies query.repr
    ensures query.Valid() && query.repr == old(query.repr) && Narrowed(old(query.plan), query.plan)
    ensures fresh(world)
    ensures ok ==> IsBatch(db, e, old(query.plan), nodes, found, world)
    ensures ok ==> OwnedBy(db, e, nodes, found, nids)
    ensures !ok <==> SomeLookupFails(db, e, old(query.plan), nodes)
    decreases query.repr, 4
  {
    ghost var sub := query.plan;
    found, nids, world := [], map[], {};
    assert nodes[0] in nodes;
    BatchFails(db, e, sub, nodes);
    ok := PrepareQuery(query);
    if !ok {
      NarrowedRefl(sub);
      return;
    }
    var stream := QueryJoin(db, e, query.preds, ids);
    JoinAnswer(db, e, sub, nodes, ids, byID, stream);
    ok, found, nids, world := LoadTargets(db, e, query, nodes, byID, stream);
  }

  /** Scans the join stream into target nodes and loads their own edges. */
  method LoadTargets(db: Db, e: Edge, query: Query, ghost nodes: seq<Node>, byID: map<int, Node>, stream: seq<JoinRow>)
    returns (ok: bool, found: seq<Node>, nids: map<int, set<Node>>, ghost world: set<Node>)
    requires ValidDb(db) && query.Valid() && WfPlan(query.plan)
    requires e.shape.M2M? && query.table == e.target && e.target.hasId && WfTable(e.target)
    requires Indexed(nodes, byID) && IsJoin(db, e, query.plan, nodes, byID, stream)
    modifies query.repr
    ensures query.Valid() && query.repr == old(query.repr) && Narrowed(old(query.plan), query.plan)
    ensures fresh(world)
    ensures ok ==> IsBatch(db, e, old(query.plan), nodes, found, world)
    ensures ok ==> OwnedBy(db, e, nodes, found, nids)
    ensures !ok <==> SomeRowFails(db, old(query.plan), Joint(db, e, old(query.plan), nodes))
    decreases query.repr, 3
  {
    ghost var sub := query.plan;
    NarrowedRefl(sub);
    found, nids := ScanTargets(db, e, query, nodes, byID, stream);
    CoversFails(db, sub, found, Joint(db, e, sub, nodes));
    assert EdgeFields(e, sub.fields) == query.fields;
    ok, world := LoadEdges(db, query, found);
  }

  /** Scans the join stream into blank target nodes, and the owners of each. */
  method ScanTargets(db: Db, e: Edge, query: Query, ghost nodes: seq<Node>, byID: map<int, Node>, stream: seq<JoinRow>)
    returns (found: seq<Node>, nids: map<int, set<Node>>)
    requires ValidDb(db) && query.Valid() && WfPlan(query.plan)
    requires e.shape.M2M? && query.table == e.target && e.target.hasId && WfTable(e.target)
    requires Indexed(nodes, byID) && IsJoin(db, e, query.plan, nodes, byID, stream)
    ensures Covers(found, Joint(db, e, query.plan, nodes)) && OwnedBy(db, e, nodes, found, nids)
    ensures RowsOf(found) == FirstSeen(StreamRows(stream))
    ensures fresh(NodeSet(found)) && AllBlank(db, found, query.plan)
  {
    var columns, loaded := QuerySpec(query);
    found, nids := ScanJoin(db, query.plan, columns, loaded, stream, byID);
    JoinScanned(db, e, query.plan, nodes, byID, stream, found);
  }

  method LoadM2M(db: Db, ghost owner: Table, e: Edge, query: Query, nodes: seq<Node>)
    returns (ok: bool, ghost neighbors: seq<Node>, ghost world: set<Node>)
    requires query.Valid() && e.shape.M2M? && Ready(db, owner, e, query.plan, nodes) && DistinctRows(nodes)
    modifies query.repr, nodes
    ensures query.Valid() && query.repr == old(query.repr) && Narrowed(old(query.plan), query.plan)
    ensures fresh(world) && OnlyEdge(nodes, e)
    ensures ok ==> Loaded(db, e, old(query.plan), nodes, world)
    ensures ok ==> Covers(neighbors, Joint(db, e, old(query.plan), nodes))
    ensures ok ==> forall n :: n in nodes ==> Slot(n.many, e) == Some(Matching(db, e, n.row, neighbors))
    ensures !ok <==> SomeLookupFails(db, e, old(query.plan), nodes)
    decreases query.repr, 7
  {
    ghost var sub := query.plan;
    var found, nids;
    ok, found, nids, world := FetchM2M(db, owner, e, query, nodes);
    neighbors := found;
    if ok {
      label fetched:
      AssignOwned(db, e, nodes, nids, found);
      forall n | n in nodes
        ensures Wrote(old(n.one), n.one, e) && Wrote(old(n.many), n.many, e)
      {
        WroteTrans(old(n.many), old@fetched(n.many), n.many, e);
      }
      ManysLoaded(db, e, sub, nodes, found, world);
    }
  }

  method All(db: Db, query: Query) returns (ok: bool, nodes: seq<Node>, ghost world: set<Node>)
    requires ValidDb(db) && query.Valid() && WfPlan(query.plan)
    modifies query.repr
    ensures query.Valid() && query.repr == old(query.repr) && Narrowed(old(query.plan), query.plan)
    ensures fresh(world)
    ensures ok ==> Covers(nodes, Answer(db, old(query.plan)))
    ensures ok ==> forall n :: n in nodes ==> Represents(db, n, old(query.plan), old(query.fields), world)
    ensures !ok <==> BadFields(old(query.plan)) || SomeRowFails(db, old(query.plan), Answer(db, old(query.plan)))
    decreases query.repr, 3
  {
    NarrowedRefl(query.plan);
    nodes, world := [], {};
    ok := PrepareQuery(query);
    if ok {
      ok, nodes, world := SqlAll(db, query);
    }
  }

  method SqlAll(db: Db, query: Query) returns (ok: bool, nodes: seq<Node>, ghost world: set<Node>)
    requires ValidDb(db) && query.Valid() && WfPlan(query.plan)
    modifies query.repr
    ensures query.Valid() && query.repr == old(query.repr) && Narrowed(old(query.plan), query.plan)
    ensures fresh(world)
    ensures ok ==> Covers(nodes, Answer(db, old(query.plan)))
    ensures ok ==> forall n :: n in nodes ==> Represents(db, n, old(query.plan), old(query.fields), world)
    ensures !ok <==> SomeRowFails(db, old(query.plan), Answer(db, old(query.plan)))
    decreases query.repr, 2
  {
    ghost var plan := query.plan;
    NarrowedRefl(plan);
    var columns, loaded := QuerySpec(query);
    nodes := ScanNodes(db, plan, query.table, query.preds, columns, loaded);
    CoversFails(db, plan, nodes, Answer(db, plan));
    ok, world := LoadEdges(db, query, nodes);
  }

  /** Completes freshly scanned nodes; without nodes no edge is queried. */
  method LoadEdges(db: Db, query: Query, nodes: seq<Node>) returns (ok: bool, ghost world: set<Node>)
    requires ValidDb(db) && query.Valid() && WfPlan(query.plan)
    requires DistinctRows(nodes) && forall n :: n in nodes ==> Blank(db, n, query.plan)
    modifies query.repr, NodeSet(nodes)
    ensures query.Valid() && query.repr == old(query.repr) && Narrowed(old(query.plan), query.plan)
    ensures fresh(world - NodeSet(nodes))
    ensures ok ==> forall n :: n in nodes ==> Represents(db, n, old(query.plan), old(query.fields), world)
    ensures !ok <==> SomeNodeFails(db, old(query.plan), nodes)
    decreases query.repr, 1
  {
    ghost var plan := query.plan;
    if |nodes| == 0 {
      NarrowedRefl(plan);
      return true, {};
    }
    ok, world := EachEdge(db, query, nodes);
    if ok {
      NodesComplete(db, nodes, plan, world, world + NodeSet(nodes));
      world := world + NodeSet(nodes);
    }
  }

  /** Loads the requested edges one after the other. */
  method EachEdge(db: Db, query: Query, nodes: seq<Node>) returns (ok: bool, ghost world: set<Node>)
    requires ValidDb(db) && query.Valid() && WfPlan(query.plan)
    requires |nodes| > 0 && DistinctRows(nodes) && forall n :: n in nodes ==> Blank(db, n, query.plan)
    modifies query.repr, nodes
    ensures query.Valid() && query.repr == old(query.repr) && Narrowed(old(query.plan), query.plan)
    ensures fresh(world)
    ensures ok ==> forall n :: n in nodes ==>
              EdgesLoaded(db, n.row, n.one, n.many, old(query.plan), |old(query.plan).edges|, world)
    ensures !ok <==> SomeNodeFails(db, old(query.plan), nodes)
    decreases query.repr, 0, 2
  {
    ghost var plan := query.plan;
    NarrowedRefl(plan);
    ok, world := true, {};
    for i := 0 to |query.edges|
      invariant query.Valid() && query.repr == old(query.repr) && query.edges == old(query.edges)
      invariant Narrowed(plan, query.plan) && query.plan.fields == plan.fields && |query.edges| == |plan.edges|
      invariant forall j :: i <= j < |query.edges| ==> query.plan.edges[j] == plan.edges[j]
      invariant fresh(world)
      invariant forall n :: n in nodes ==> EdgesLoaded(db, n.row, n.one, n.many, plan, i, world)
      invariant forall j :: 0 <= j < i ==> !SomeLookupFails(db, plan.edges[j].edge, plan.edges[j].plan, nodes)
    {
      ReadyForEdge(db, plan, nodes, i, world);
      ok, world := LoadNext(db, query, i, plan, nodes, world);
      if !ok {
        EdgeFails(db, plan, nodes, i);
        return;
      }
    }
    assert |query.edges| == |plan.edges|;
    NoEdgeFails(db, plan, nodes);
  }

  /** Loads edge `i` on top of the earlier ones. */
  method LoadNext(db: Db, query: Query, i: nat, ghost plan: Plan, nodes: seq<Node>, ghost world: set<Node>)
    returns (ok: bool, ghost larger: set<Node>)
    requires ValidDb(db) && query.Valid() && WfPlan(plan) && plan.table == query.table && |nodes| > 0 && DistinctRows(nodes)
    requires Narrowed(plan, query.plan) && i < |query.edges| && query.plan.edges[i] == plan.edges[i]
    requires world !! NodeSet(nodes)
    requires Ready(db, plan.table, plan.edges[i].edge, plan.edges[i].plan, nodes)
    requires forall n :: n in nodes ==> EdgesLoaded(db, n.row, n.one, n.many, plan, i, world)
    modifies query.repr, nodes
    ensures query.Valid() && query.repr == old(query.repr) && query.edges == old(query.edges)
    ensures Narrowed(plan, query.plan) && query.fields == old(query.fields) && query.preds == old(query.preds)
    ensures forall j :: 0 <= j < |query.edges| && j != i ==> query.plan.edges[j] == old(query.plan).edges[j]
    ensures fresh(larger - world)
    ensures ok ==> forall n :: n in nodes ==> EdgesLoaded(db, n.row, n.one, n.many, plan, i + 1, larger)
    ensures !ok <==> SomeLookupFails(db, plan.edges[i].edge, plan.edges[i].plan, nodes)
    decreases query.repr, 0, 1
  {
    ghost var w;
    label before:
    ok, w := LoadEdge(db, query, i, plan, nodes);
    larger := world + w;
    if ok {
      forall n | n in nodes
        ensures EdgesLoaded(db, n.row, n.one, n.many, plan, i + 1, larger)
      {
        EdgesStep(db, n.row, old(n.one), old(n.many), n.one, n.many, plan, i, world, w);
      }
    }
  }

  /** Loads the `i`th requested edge and records what that did to its sub-query. */
  method LoadEdge(db: Db, query: Query, i: nat, ghost plan: Plan, nodes: seq<Node>)
    returns (ok: bool, ghost w: set<Node>)
    requires ValidDb(db) && query.Valid() && WfPlan(plan) && i < |query.edges|
    requires Narrowed(plan, query.plan) && query.plan.edges[i] == plan.edges[i]
    requires Ready(db, query.table, query.edges[i].edge, query.edges[i].query.plan, nodes) && DistinctRows(nodes)
    modifies query.repr, nodes
    ensures query.Valid() && query.repr == old(query.repr) && query.edges == old(query.edges)
    ensures Narrowed(plan, query.plan) && query.fields == old(query.fields) && query.preds == old(query.preds)
    ensures forall j :: 0 <= j < |query.edges| && j != i ==> query.plan.edges[j] == old(query.plan).edges[j]
    ensures fresh(w) && OnlyEdge(nodes, plan.edges[i].edge)
    ensures ok ==> Loaded(db, plan.edges[i].edge, plan.edges[i].plan, nodes, w)
    ensures !ok <==> SomeLookupFails(db, plan.edges[i].edge, plan.edges[i].plan, nodes)
    decreases query.repr, 0, 0
  {
    var Request(e, sub) := query.edges[i];
    ok, w := LoadShape(db, query.table, e, sub, nodes);
    forall j | 0 <= j < |query.edges|
      ensures query.edges[j].query.repr == old(query.edges[j].query.repr)
      ensures query.edges[j].query.Valid()
      ensures j != i ==> query.edges[j].query.plan == old(query.edges[j].query.plan)
    {
      if j != i {
        assert old(query.edges[j].query.repr) !! old(sub.repr);
      }
    }
    query.Record(i);
  }

  method LoadShape(db: Db, ghost owner: Table, e: Edge, sub: Query, nodes: seq<Node>) returns (ok: bool, ghost w: set<Node>)
    requires sub.Valid() && Ready(db, owner, e, sub.plan, nodes) && DistinctRows(nodes)
    modifies sub.repr, nodes
    ensures sub.Valid() && sub.repr == old(sub.repr) && Narrowed(old(sub.plan), sub.plan)
    ensures fresh(w) && OnlyEdge(nodes, e)
    ensures ok ==> Loaded(db, e, old(sub.plan), nodes, w)
    ensures !ok <==> SomeLookupFails(db, e, old(sub.plan), nodes)
    decreases sub.repr, 8
  {
    ghost var neighbors;
    match e.shape {
      case M2O(_) => ok, w := LoadM2O(db, owner, e, sub, nodes);
      case O2M(_) => ok, neighbors, w := LoadO2M(db, owner, e, sub, nodes);
      case M2M(_, _, _) => ok, neighbors, w := LoadM2M(db, owner, e, sub, nodes);
    }
  }
}

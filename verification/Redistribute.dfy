/** The loops that index nodes, scan rows, and hand neighbours back to their owners. */
module Redistribute {
  import opened Wrappers
  import opened Store
  import opened QueryBuilder
  import opened EagerTree
  import opened Database
  import opened Batch
  import opened JoinStream

  /** The column list of a query: id first, then the selected fields, then keys the loads will need. */
  method QuerySpec(q: Query) returns (columns: seq<string>, loaded: set<Edge>)
    requires q.Valid() && WfPlan(q.plan)
    ensures IsSpec(q.plan, columns, loaded)
    ensures q.table.hasId ==> |columns| > 0 && columns[0] == ID
  {
    loaded := set i | 0 <= i < |q.edges| :: q.edges[i].edge;
    if |q.fields| == 0 {
      return q.table.columns, loaded;
    }
    columns := if q.table.hasId then [ID] else [];
    ghost var base := if q.table.hasId then {ID} else {};
    for i := 0 to |q.fields|
      invariant forall c :: c in columns <==> c in base || c in q.fields[..i]
      invariant q.table.hasId ==> |columns| > 0 && columns[0] == ID
    {
      if !(q.table.hasId && q.fields[i] == ID) {
        columns := columns + [q.fields[i]];
      }
    }
    ghost var named := set c | c in columns;
    for i := 0 to |q.edges|
      invariant forall c :: c in columns <==>
                  c in named || exists j :: 0 <= j < i && q.plan.edges[j].edge.shape.M2O? && q.plan.edges[j].edge.shape.fk == c
      invariant q.table.hasId ==> |columns| > 0 && columns[0] == ID
    {
      if q.edges[i].edge.shape.M2O? {
        columns := AppendOnce(columns, q.edges[i].edge.shape.fk);
      }
    }
  }

  /** The columns and requested edges of a plan, as its query builder computed them. */
  ghost predicate IsSpec(plan: Plan, columns: seq<string>, loaded: set<Edge>) {
    && (set c | c in columns) == ColumnSet(plan, plan.fields)
    && loaded == set i | 0 <= i < |plan.edges| :: plan.edges[i].edge
  }

  ghost predicate AllBlank(db: Db, ns: seq<Node>, plan: Plan)
    reads ns
  {
    forall n :: n in ns ==> Blank(db, n, plan)
  }

  /** Appends one blank node for a row, as `Assign` does. */
  method ScanInto(db: Db, ghost plan: Plan, columns: seq<string>, loaded: set<Edge>, row: Row, nodes: seq<Node>)
    returns (extended: seq<Node>)
    requires row in Rows(db, plan.table) && IsSpec(plan, columns, loaded) && AllBlank(db, nodes, plan)
    ensures RowsOf(extended) == RowsOf(nodes) + [row] && AllBlank(db, extended, plan)
    ensures fresh(NodeSet(extended) - NodeSet(nodes))
  {
    ScannedIsVisible(plan, plan.fields, columns, row);
    var node := new Node(Scan(columns, row), loaded, row);
    RowsAppend(nodes, node);
    extended := nodes + [node];
    assert NodeSet(extended) - NodeSet(nodes) <= {node};
  }

  /** Runs the query itself: one blank node per row of the answer. */
  method ScanNodes(db: Db, ghost plan: Plan, table: Table, preds: seq<Row -> bool>, columns: seq<string>, loaded: set<Edge>)
    returns (nodes: seq<Node>)
    requires plan.table == table && plan.preds == preds && IsSpec(plan, columns, loaded)
    ensures Covers(nodes, Answer(db, plan))
    ensures fresh(NodeSet(nodes)) && AllBlank(db, nodes, plan)
  {
    var rows := QueryNodes(db, table, preds);
    nodes := [];
    for i := 0 to |rows|
      invariant RowsOf(nodes) == rows[..i]
      invariant fresh(NodeSet(nodes)) && AllBlank(db, nodes, plan)
      modifies {}
    {
      nodes := ScanInto(db, plan, columns, loaded, rows[i], nodes);
    }
    CoversRows(nodes, rows, Answer(db, plan));
  }

  /** The distinct non-NULL foreign keys of the nodes, and the nodes that hold each. */
  method CollectKeys(nodes: seq<Node>, fk: string) returns (ids: seq<int>, nodeids: map<int, seq<Node>>)
    ensures forall i, j :: 0 <= i < j < |ids| ==> ids[i] != ids[j]
    ensures forall k :: k in ids <==> k in nodeids
    ensures forall k :: k in nodeids <==> HoldersOf(nodes, fk, k) != []
    ensures forall k :: k in nodeids ==> nodeids[k] == HoldersOf(nodes, fk, k)
  {
    ids, nodeids := [], map[];
    for i := 0 to |nodes|
      invariant forall i, j :: 0 <= i < j < |ids| ==> ids[i] != ids[j]
      invariant forall k :: k in ids <==> k in nodeids
      invariant forall k :: k in nodeids <==> HoldersOf(nodes[..i], fk, k) != []
      invariant forall k :: k in nodeids ==> nodeids[k] == HoldersOf(nodes[..i], fk, k)
    {
      assert nodes[..i + 1][..i] == nodes[..i];
      var key := IntAt(nodes[i].values, fk);
      if key.None? {
        continue;
      }
      if key.value !in nodeids {
        ids := ids + [key.value];
        nodeids := nodeids[key.value := []];
      }
      nodeids := nodeids[key.value := nodeids[key.value] + [nodes[i]]];
    }
    assert nodes[..|nodes|] == nodes;
  }

  /** The inner loop: the holders of one key all point to the same neighbour. */
  method SetOnAll(e: Edge, ghost nodes: seq<Node>, holders: seq<Node>, nb: Node)
    requires forall n :: n in holders ==> n in nodes
    modifies nodes
    ensures forall n :: n in nodes ==>
              && n.many == old(n.many)
              && n.one == if n in holders then old(n.one)[e := nb] else old(n.one)
  {
    for t := 0 to |holders|
      invariant forall n :: n in nodes ==>
                  && n.many == old(n.many)
                  && n.one == if n in holders[..t] then old(n.one)[e := nb] else old(n.one)
    {
      assert holders[t] in holders && holders[..t + 1] == holders[..t] + [holders[t]];
      holders[t].one := holders[t].one[e := nb];
    }
  }

  /** Hands each neighbour to every node that holds its id. */
  method AssignOne(e: Edge, fk: string, nodes: seq<Node>, nodeids: map<int, seq<Node>>, found: seq<Node>)
    returns (ghost got: map<int, Node>)
    requires forall n :: n in nodes ==> Slot(n.one, e) == None
    requires forall k :: k in nodeids ==> nodeids[k] == HoldersOf(nodes, fk, k)
    requires forall c :: c in found ==> Key(c.values) in nodeids
    requires forall i, j :: 0 <= i < j < |found| ==> Key(found[i].values) != Key(found[j].values)
    modifies nodes
    ensures forall k :: k in got <==> exists m :: 0 <= m < |found| && Key(found[m].values) == k
    ensures forall m :: 0 <= m < |found| ==> got[Key(found[m].values)] == found[m]
    ensures forall n :: n in nodes ==> n.many == old(n.many) && Slot(n.one, e) == Found(IntAt(n.values, fk), got)
    ensures OnlyEdge(nodes, e)
  {
    got := map[];
    for j := 0 to |found|
      invariant forall n :: n in nodes ==> n.many == old(n.many) && Slot(n.one, e) == Found(IntAt(n.values, fk), got)
      invariant forall k :: k in got <==> exists m :: 0 <= m < j && Key(found[m].values) == k
      invariant forall m :: 0 <= m < j ==> got[Key(found[m].values)] == found[m]
      invariant OnlyEdge(nodes, e)
    {
      var nb := found[j];
      var k := Key(nb.values);
      assert nb in found && k in nodeids;  // so the "unexpected foreign-key" return is never taken
      forall n | n in nodes || n in nodeids[k]
        ensures n in nodeids[k] <==> n in nodes && IntAt(n.values, fk) == Some(k)
      {
        HolderMember(nodes, fk, k, n);
      }
      SetOnAll(e, nodes, nodeids[k], nb);
      got := got[k := nb];
    }
  }

  /** Registers the nodes by id and gives each an empty list for the edge. */
  method IndexNodes(db: Db, ghost owner: Table, e: Edge, nodes: seq<Node>) returns (ids: seq<int>, byID: map<int, Node>)
    requires ValidDb(db) && owner.hasId && DistinctRows(nodes)
    requires forall n :: n in nodes ==> n.row in Rows(db, owner) && IntAt(n.values, ID) == IntAt(n.row, ID)
    modifies nodes
    ensures forall n :: n in nodes ==> n.one == old(n.one) && Slot(n.many, e) == Some([])
    ensures OnlyEdge(nodes, e)
    ensures forall k :: k in ids <==> exists n :: n in nodes && IntAt(n.row, ID) == Some(k)
    ensures forall k :: k in ids <==> k in byID
    ensures Indexed(nodes, byID)
  {
    DistinctKeys(db, owner, nodes);
    ids, byID := [], map[];
    for i := 0 to |nodes|
      invariant forall n :: n in nodes ==>
                  n.one == old(n.one) && Slot(n.many, e) == if n in nodes[..i] then Some([]) else old(Slot(n.many, e))
      invariant OnlyEdge(nodes, e)
      invariant forall k :: k in ids <==> k in byID
      invariant forall k :: k in byID ==> byID[k] in nodes && IntAt(byID[k].row, ID) == Some(k)
      invariant forall n :: n in nodes[..i] ==> Key(n.values) in byID && byID[Key(n.values)] == n
    {
      ids := ids + [Key(nodes[i].values)];
      byID := byID[Key(nodes[i].values) := nodes[i]];
      WroteAgain(old(nodes[i].many), nodes[i].many, e, []);
      nodes[i].many := nodes[i].many[e := []];
    }
  }

  /** Hands each neighbour to the one node its foreign key names. */
  method AssignMany(db: Db, e: Edge, nodes: seq<Node>, nodeids: map<int, Node>, found: seq<Node>)
    requires e.shape.O2M?
    requires forall n :: n in nodes ==> Slot(n.many, e) == Some([])
    requires Indexed(nodes, nodeids)
    requires forall c :: c in found ==> IntAt(c.values, e.shape.fk) == IntAt(c.row, e.shape.fk)
    requires forall c :: c in found ==> exists n :: n in nodes && Joined(db, e, n.row, c.row)
    modifies nodes
    ensures forall n :: n in nodes ==> n.one == old(n.one) && Slot(n.many, e) == Some(Matching(db, e, n.row, found))
    ensures OnlyEdge(nodes, e)
  {
    for j := 0 to |found|
      invariant forall n :: n in nodes ==> n.one == old(n.one) && Slot(n.many, e) == Some(Matching(db, e, n.row, found[..j]))
      invariant OnlyEdge(nodes, e)
    {
      var nb := found[j];
      assert nb in found;
      ghost var holder :| holder in nodes && Joined(db, e, holder.row, nb.row);
      var key := IntAt(nb.values, e.shape.fk);
      assert key.Some?;             // so the "foreign-key is nil" return is never taken,
      assert key.value in nodeids;  // nor the "unexpected referenced foreign-key" return
      var node := nodeids[key.value];
      forall n | n in nodes
        ensures Matching(db, e, n.row, found[..j + 1])
             == if n == node then Matching(db, e, n.row, found[..j]) + [nb] else Matching(db, e, n.row, found[..j])
      {
        MatchingStep(db, e, n.row, found, j);
      }
      WroteAgain(old(node.many), node.many, e, node.many[e] + [nb]);
      node.many := node.many[e := node.many[e] + [nb]];
    }
    assert found[..|found|] == found;
  }

  /** One call of the join's `Assign`: a new target becomes a node, a known one gains an owner. */
  method AssignJoined(db: Db, ghost plan: Plan, columns: seq<string>, loaded: set<Edge>, stream: seq<JoinRow>, byID: map<int, Node>,
                      i: nat, targets: seq<Node>, nids: map<int, set<Node>>)
    returns (targets': seq<Node>, nids': map<int, set<Node>>)
    requires ValidDb(db) && WfTable(plan.table) && plan.table.hasId && IsSpec(plan, columns, loaded)
    requires forall p :: p in stream ==> p.owner in byID && p.target in Rows(db, plan.table)
    requires i < |stream| && RowsOf(targets) == FirstSeen(StreamRows(stream)[..i]) && AllBlank(db, targets, plan)
    requires nids == OwnerMap(stream[..i], byID)
    ensures RowsOf(targets') == FirstSeen(StreamRows(stream)[..i + 1]) && AllBlank(db, targets', plan)
    ensures fresh(NodeSet(targets') - NodeSet(targets))
    ensures nids' == OwnerMap(stream[..i + 1], byID)
  {
    var JoinRow(outValue, row) := stream[i];
    assert stream[i] in stream;
    ScanFacts(db, plan.table, stream, byID, i);
    ScannedKey(plan, columns, loaded, row);
    var inValue := Key(Scan(columns, row));
    if inValue !in nids {
      nids' := nids[inValue := {byID[outValue]}];
      targets' := ScanInto(db, plan, columns, loaded, row, targets);
    } else {
      nids' := nids[inValue := nids[inValue] + {byID[outValue]}];
      targets' := targets;
    }
  }

  /** Scans a join stream: one node per target row, and for each target key the set of its owners. */
  method ScanJoin(db: Db, ghost plan: Plan, columns: seq<string>, loaded: set<Edge>, stream: seq<JoinRow>, byID: map<int, Node>)
    returns (targets: seq<Node>, nids: map<int, set<Node>>)
    requires ValidDb(db) && WfTable(plan.table) && plan.table.hasId && IsSpec(plan, columns, loaded)
    requires forall p :: p in stream ==> p.owner in byID && p.target in Rows(db, plan.table)
    ensures RowsOf(targets) == FirstSeen(StreamRows(stream))
    ensures fresh(NodeSet(targets)) && AllBlank(db, targets, plan)
    ensures nids == OwnerMap(stream, byID)
  {
    targets, nids := [], map[];
    for i := 0 to |stream|
      invariant RowsOf(targets) == FirstSeen(StreamRows(stream)[..i])
      invariant fresh(NodeSet(targets)) && AllBlank(db, targets, plan)
      invariant nids == OwnerMap(stream[..i], byID)
      modifies {}
    {
      targets, nids := AssignJoined(db, plan, columns, loaded, stream, byID, i, targets, nids);
    }
    assert StreamRows(stream)[..|stream|] == StreamRows(stream) && stream[..|stream|] == stream;
  }

  lemma ScannedKey(plan: Plan, columns: seq<string>, loaded: set<Edge>, row: Row)
    requires WfTable(plan.table) && plan.table.hasId && IsSpec(plan, columns, loaded)
    ensures Key(Scan(columns, row)) == Key(row)
  {
    ScannedIsVisible(plan, plan.fields, columns, row);
    IdVisible(plan, plan.fields, row);
  }

  /** The inner loop: appends one neighbour to every owner, in no particular order. */
  method AppendToAll(e: Edge, ghost nodes: seq<Node>, owners: set<Node>, nb: Node)
    requires forall n :: n in owners ==> n in nodes
    requires forall n :: n in nodes ==> e in n.many
    modifies nodes
    ensures forall n :: n in nodes ==>
              && n.one == old(n.one)
              && n.many == if n in owners then old(n.many)[e := old(n.many[e]) + [nb]] else old(n.many)
  {
    var rest := owners;
    while rest != {}
      invariant rest <= owners
      invariant forall n :: n in nodes ==>
                  && n.one == old(n.one)
                  && n.many == if n in owners - rest then old(n.many)[e := old(n.many[e]) + [nb]] else old(n.many)
      decreases rest
    {
      var kn :| kn in rest;
      kn.many := kn.many[e := kn.many[e] + [nb]];
      rest := rest - {kn};
    }
  }

  /** Hands each neighbour to each of its owners. */
  method AssignOwned(db: Db, e: Edge, nodes: seq<Node>, nids: map<int, set<Node>>, found: seq<Node>)
    requires forall n :: n in nodes ==> Slot(n.many, e) == Some([])
    requires OwnedBy(db, e, nodes, found, nids)
    modifies nodes
    ensures forall n :: n in nodes ==> n.one == old(n.one) && Slot(n.many, e) == Some(Matching(db, e, n.row, found))
    ensures OnlyEdge(nodes, e)
  {
    for j := 0 to |found|
      invariant forall n :: n in nodes ==> n.one == old(n.one) && Slot(n.many, e) == Some(Matching(db, e, n.row, found[..j]))
      invariant OnlyEdge(nodes, e)
    {
      var nb := found[j];
      assert nb in found;  // so the "unexpected node" return is never taken
      var owners := nids[Key(nb.values)];
      forall n | n in nodes
        ensures Matching(db, e, n.row, found[..j + 1])
             == if n in owners then Matching(db, e, n.row, found[..j]) + [nb] else Matching(db, e, n.row, found[..j])
      {
        MatchingStep(db, e, n.row, found, j);
      }
      AppendToAll(e, nodes, owners, nb);
    }
    assert found[..|found|] == found;
  }
}

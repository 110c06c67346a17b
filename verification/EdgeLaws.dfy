/** What a completely loaded account graph tells its readers. */
module EdgeLaws {
  import opened Wrappers
  import opened Store
  import opened QueryBuilder
  import opened EagerTree
  import opened Batch
  import opened AccountSchema

  // ---------- Accessors ----------

  /** The three outcomes of a to-one accessor. */
  datatype Access = Got(node: Node) | NotFound | NotLoaded

  function OneOrErr(n: Node, e: Edge): Access
    reads n
  {
    if e in n.one then Got(n.one[e])
    else if e in n.loaded then NotFound
    else NotLoaded
  }

  /** A to-many accessor fails only when the edge was not requested. */
  function ManyOrErr(n: Node, e: Edge): Option<seq<Node>>
    reads n
  {
    if e in n.loaded then Some(if e in n.many then n.many[e] else []) else None
  }

  /** A to-one accessor says NotLoaded, NotFound or the joined neighbour exactly when it should. */
  lemma {:induction false} AccessorTrichotomy(db: Db, n: Node, p: Plan, fields: seq<string>, world: set<Node>, e: Edge)
    requires Represents(db, n, p, fields, world) && e.shape.M2O?
    ensures OneOrErr(n, e) == NotLoaded <==> forall i :: 0 <= i < |p.edges| ==> p.edges[i].edge != e
    ensures forall i :: 0 <= i < |p.edges| && p.edges[i].edge == e ==>
              && (OneOrErr(n, e) == NotFound <==> Targets(db, e, p.edges[i].plan, n.row) == {})
              && (OneOrErr(n, e).Got? ==> OneOrErr(n, e).node.row in Targets(db, e, p.edges[i].plan, n.row))
  {
    forall i | 0 <= i < |p.edges| && p.edges[i].edge == e
      ensures EdgeLoaded(db, n.row, Slot(n.one, e), Slot(n.many, e), e, p.edges[i].plan, world)
    {
    }
  }

  /** A to-many accessor fails exactly when the edge was not requested, and otherwise covers the joined rows. */
  lemma {:induction false} ManyAccessor(db: Db, n: Node, p: Plan, fields: seq<string>, world: set<Node>, e: Edge)
    requires Represents(db, n, p, fields, world) && !e.shape.M2O?
    ensures ManyOrErr(n, e) == None <==> forall i :: 0 <= i < |p.edges| ==> p.edges[i].edge != e
    ensures forall i :: 0 <= i < |p.edges| && p.edges[i].edge == e ==>
              ManyOrErr(n, e).Some? && Covers(ManyOrErr(n, e).value, Targets(db, e, p.edges[i].plan, n.row))
  {
    forall i | 0 <= i < |p.edges| && p.edges[i].edge == e
      ensures EdgeLoaded(db, n.row, Slot(n.one, e), Slot(n.many, e), e, p.edges[i].plan, world)
    {
    }
  }

  // ---------- Projection and independence of edges ----------

  /** Two plans that differ in nothing but the fields they select, at any depth. */
  ghost predicate SameButFields(p: Plan, p': Plan)
    decreases p
  {
    && p.table == p'.table && p.preds == p'.preds && |p.edges| == |p'.edges|
    && forall i :: 0 <= i < |p.edges| ==>
         p.edges[i].edge == p'.edges[i].edge && SameButFields(p.edges[i].plan, p'.edges[i].plan)
  }

  lemma {:induction false} LookupIgnoresFields(db: Db, p: Plan, p': Plan, row: Row)
    requires SameButFields(p, p')
    ensures Lookup(db, p, row) == Lookup(db, p', row)
    decreases p
  {
    var t, t' := Lookup(db, p, row), Lookup(db, p', row);
    forall i | 0 <= i < |p.edges|
      ensures t.edges[i] == t'.edges[i]
    {
      var Sub(e, sub) := p.edges[i];
      var sub' := p'.edges[i].plan;
      assert Targets(db, e, sub, row) == Targets(db, e, sub', row);
      forall r
        ensures Lookup(db, sub, r) == Lookup(db, sub', r)
      {
        LookupIgnoresFields(db, sub, sub', r);
      }
    }
  }

  /** Selecting columns, at the root or in any sub-query, does not change the loaded graph. */
  lemma {:induction false} ProjectionInvariance(db: Db, n: Node, p: Plan, fields: seq<string>, world: set<Node>,
                                                n': Node, p': Plan, fields': seq<string>, world': set<Node>)
    requires ValidDb(db) && WfPlan(p) && WfPlan(p') && SameButFields(p, p') && n.row == n'.row
    requires Represents(db, n, p, fields, world) && Represents(db, n', p', fields', world')
    ensures View(n, p, world) == View(n', p', world')
  {
    ViewIsLookup(db, n, p, fields, world);
    ViewIsLookup(db, n', p', fields', world');
    LookupIgnoresFields(db, p, p', n.row);
  }

  /** What is loaded for an edge depends on that request alone: not on other requests, nor on their order. */
  lemma {:induction false} EdgesIndependent(db: Db, n: Node, p: Plan, fields: seq<string>, world: set<Node>, i: nat,
                                            n': Node, p': Plan, fields': seq<string>, world': set<Node>, j: nat)
    requires ValidDb(db) && WfPlan(p) && WfPlan(p') && n.row == n'.row
    requires i < |p.edges| && j < |p'.edges| && p.edges[i] == p'.edges[j]
    requires Represents(db, n, p, fields, world) && Represents(db, n', p', fields', world')
    ensures View(n, p, world).edges[i] == View(n', p', world').edges[j]
  {
    ViewIsLookup(db, n, p, fields, world);
    ViewIsLookup(db, n', p', fields', world');
  }

  // ---------- Parent and children ----------

  /** Per row: the children of p are the accounts whose parent key is p's id, and their parent is p. */
  lemma {:induction false} ParentChildRows(db: Db, up: Plan, down: Plan, parent: Row, child: Row)
    requires ValidDb(db) && up.table == ACCOUNTS && down.table == ACCOUNTS
    requires parent in Answer(db, up) && child in Answer(db, down)
    ensures child in Targets(db, CHILDREN_EDGE, down, parent) <==> IntAt(child, "parent_account_id") == IntAt(parent, ID)
    ensures child in Targets(db, CHILDREN_EDGE, down, parent) <==> Targets(db, PARENT_EDGE, up, child) == {parent}
  {
    var parents := Targets(db, PARENT_EDGE, up, child);
    assert parent in parents <==> IntAt(child, "parent_account_id") == IntAt(parent, ID);
    if parent in parents {
      forall r | r in parents
        ensures r == parent
      {
      }
      assert parents == {parent};
    }
  }

  /** Loading children and, for each child, its parent leads back to an account with the same row. */
  lemma {:induction false} ChildrenConverse(db: Db, n: Node, p: Plan, fields: seq<string>, world: set<Node>, i: nat, j: nat, c: Node)
    requires ValidDb(db) && WfPlan(p) && p.table == ACCOUNTS && Represents(db, n, p, fields, world)
    requires i < |p.edges| && p.edges[i].edge == CHILDREN_EDGE
    requires j < |p.edges[i].plan.edges| && p.edges[i].plan.edges[j].edge == PARENT_EDGE
    requires n.row in Answer(db, p.edges[i].plan.edges[j].plan)
    requires CHILDREN_EDGE in n.many && c in n.many[CHILDREN_EDGE]
    ensures c in world && OneOrErr(c, PARENT_EDGE).Got? && OneOrErr(c, PARENT_EDGE).node.row == n.row
  {
    var down := p.edges[i].plan;
    var up := down.edges[j].plan;
    assert EdgeLoaded(db, n.row, Slot(n.one, CHILDREN_EDGE), Slot(n.many, CHILDREN_EDGE), CHILDREN_EDGE, down, world);
    assert Represents(db, c, down, EdgeFields(CHILDREN_EDGE, down.fields), world);
    ParentChildRows(db, up, down, n.row, c.row);
    assert EdgeLoaded(db, c.row, Slot(c.one, PARENT_EDGE), Slot(c.many, PARENT_EDGE), PARENT_EDGE, up, world);
  }

  /** There is one object per neighbour id: the lists that a load gives to two nodes share it. */
  lemma {:induction false} SharedNodes(db: Db, e: Edge, found: seq<Node>, row: Row, row': Row, c: Node, d: Node)
    requires ValidDb(db) && e.target.hasId && DistinctRows(found) && forall x :: x in found ==> x.row in Rows(db, e.target)
    requires c in Matching(db, e, row, found) && d in Matching(db, e, row', found)
    requires IntAt(c.row, ID) == IntAt(d.row, ID)
    ensures c == d
  {
    MatchingMember(db, e, row, found, c);
    MatchingMember(db, e, row', found, d);
    assert e.target in db.rows;
  }
}

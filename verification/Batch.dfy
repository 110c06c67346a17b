/** One batched query stands for the lookups of all nodes: the facts the loads rely on. */
module Batch {
  import opened Wrappers
  import opened Store
  import opened QueryBuilder
  import opened EagerTree

  lemma {:induction false} VisibleAt(p: Plan, fields: seq<string>, row: Row, c: string)
    requires c in ColumnSet(p, fields)
    ensures IntAt(Visible(p, fields, row), c) == IntAt(row, c)
  {
  }

  /** Decoded nodes of an entity table always carry their id. */
  lemma {:induction false} IdVisible(p: Plan, fields: seq<string>, row: Row)
    requires WfTable(p.table) && p.table.hasId
    ensures IntAt(Visible(p, fields, row), ID) == IntAt(row, ID)
  {
    VisibleAt(p, fields, row, ID);
  }

  function Scan(columns: seq<string>, row: Row): Row {
    map c | c in row && c in columns :: row[c]
  }

  lemma ScannedIsVisible(p: Plan, fields: seq<string>, columns: seq<string>, row: Row)
    requires (set c | c in columns) == ColumnSet(p, fields)
    ensures Scan(columns, row) == Visible(p, fields, row)
  {
    assert forall c :: c in columns <==> c in (set d | d in columns);
  }

  /** The neighbours that belong to `row`, in the order they were returned. */
  ghost function Matching(db: Db, e: Edge, row: Row, ns: seq<Node>): seq<Node> {
    if ns == [] then []
    else
      var k := |ns| - 1;
      var front := Matching(db, e, row, ns[..k]);
      if Joined(db, e, row, ns[k].row) then front + [ns[k]] else front
  }

  lemma {:induction false} MatchingStep(db: Db, e: Edge, row: Row, ns: seq<Node>, j: nat)
    requires j < |ns|
    ensures Matching(db, e, row, ns[..j + 1])
         == if Joined(db, e, row, ns[j].row) then Matching(db, e, row, ns[..j]) + [ns[j]] else Matching(db, e, row, ns[..j])
  {
    assert ns[..j + 1][..j] == ns[..j];
  }

  lemma {:induction false} MatchingMember(db: Db, e: Edge, row: Row, ns: seq<Node>, c: Node)
    ensures c in Matching(db, e, row, ns) <==> c in ns && Joined(db, e, row, c.row)
  {
    if ns != [] {
      var k := |ns| - 1;
      MatchingMember(db, e, row, ns[..k], c);
      assert ns == ns[..k] + [ns[k]];
    }
  }

  lemma {:induction false} MatchingDistinct(db: Db, e: Edge, row: Row, ns: seq<Node>)
    requires DistinctRows(ns)
    ensures DistinctRows(Matching(db, e, row, ns))
  {
    if ns != [] {
      var k := |ns| - 1;
      MatchingDistinct(db, e, row, ns[..k]);
      var front := Matching(db, e, row, ns[..k]);
      forall i | 0 <= i < |front|
        ensures front[i].row != ns[k].row
      {
        MatchingMember(db, e, row, ns[..k], front[i]);
      }
    }
  }

  /** Splitting a batch answer by the join condition gives each row the answer of its own lookup. */
  lemma {:induction false} MatchingCovers(db: Db, e: Edge, sub: Plan, ns: seq<Node>, row: Row)
    requires DistinctRows(ns)
    requires forall n :: n in ns ==> n.row in Answer(db, sub)
    requires forall r :: r in Targets(db, e, sub, row) ==> exists n :: n in ns && n.row == r
    ensures Covers(Matching(db, e, row, ns), Targets(db, e, sub, row))
  {
    MatchingDistinct(db, e, row, ns);
    var found := Matching(db, e, row, ns);
    forall c | c in found
      ensures c.row in Targets(db, e, sub, row)
    {
      MatchingMember(db, e, row, ns, c);
    }
    forall r | r in Targets(db, e, sub, row)
      ensures exists c :: c in found && c.row == r
    {
      var n :| n in ns && n.row == r;
      MatchingMember(db, e, row, ns, n);
    }
  }

  /** The rows that the one-by-one lookups of all nodes would find between them. */
  ghost function Joint(db: Db, e: Edge, sub: Plan, nodes: seq<Node>): set<Row> {
    set r | r in Answer(db, sub) && exists n :: n in nodes && Joined(db, e, n.row, r)
  }

  /** Some node has a key to look up. */
  ghost predicate Asked(e: Edge, nodes: seq<Node>) {
    exists n :: n in nodes && (e.shape.M2O? ==> IntAt(n.row, e.shape.fk).Some?)
  }

  /** The nodes found by one query stand for the lookups of all of `nodes`. */
  ghost predicate IsBatch(db: Db, e: Edge, sub: Plan, nodes: seq<Node>, found: seq<Node>, world: set<Node>)
    reads world
  {
    && Covers(found, Joint(db, e, sub, nodes))
    && forall c :: c in found ==> Represents(db, c, sub, EdgeFields(e, sub.fields), world)
  }

  ghost predicate SomeLookupFails(db: Db, e: Edge, sub: Plan, nodes: seq<Node>) {
    exists n :: n in nodes && LookupFails(db, e, sub, n.row)
  }

  ghost predicate SomeRowFails(db: Db, p: Plan, rows: set<Row>) {
    exists r :: r in rows && Fails(db, p, r)
  }

  ghost predicate SomeNodeFails(db: Db, p: Plan, nodes: seq<Node>) {
    exists n :: n in nodes && Fails(db, p, n.row)
  }

  /** A batch fails exactly when the lookup of some node would. */
  lemma {:induction false} BatchFails(db: Db, e: Edge, sub: Plan, nodes: seq<Node>)
    requires Asked(e, nodes)
    ensures (BadFields(sub) || SomeRowFails(db, sub, Joint(db, e, sub, nodes))) <==> SomeLookupFails(db, e, sub, nodes)
  {
    if r :| r in Joint(db, e, sub, nodes) && Fails(db, sub, r) {
      var n :| n in nodes && Joined(db, e, n.row, r);
      assert r in Targets(db, e, sub, n.row);
      assert LookupFails(db, e, sub, n.row);
    }
    if n :| n in nodes && LookupFails(db, e, sub, n.row) {
      if !BadFields(sub) {
        var r :| r in Targets(db, e, sub, n.row) && Fails(db, sub, r);
        assert r in Joint(db, e, sub, nodes);
      }
    }
    if BadFields(sub) {
      var n :| n in nodes && (e.shape.M2O? ==> IntAt(n.row, e.shape.fk).Some?);
      assert LookupFails(db, e, sub, n.row);
    }
  }

  /** Only the table and the nested queries decide whether a node is complete, or fails. */
  lemma {:induction false} SameEdges(db: Db, n: Node, p: Plan, p': Plan, fields: seq<string>, world: set<Node>)
    requires p.table == p'.table && p.edges == p'.edges
    requires Represents(db, n, p, fields, world)
    ensures Represents(db, n, p', fields, world)
  {
    assert Visible(p, fields, n.row) == Visible(p', fields, n.row);
  }

  /** The predicate `column IN (ids...)`. */
  function InColumn(column: string, ids: seq<int>): Row -> bool {
    (r: Row) => IntAt(r, column).Some? && IntAt(r, column).value in ids
  }

  /** `keep` selects, of the sub-query's rows, the ones some node joins. */
  ghost predicate Selects(keep: Row -> bool, db: Db, e: Edge, sub: Plan, nodes: seq<Node>) {
    forall r :: r in Answer(db, sub) ==> (keep(r) <==> exists n :: n in nodes && Joined(db, e, n.row, r))
  }

  /** Decoded nodes of table `owner` whose edge `e` has not been loaded yet. */
  ghost predicate Ready(db: Db, owner: Table, e: Edge, sub: Plan, nodes: seq<Node>)
    reads nodes
  {
    && ValidDb(db) && WfEdge(owner, e) && WfPlan(sub) && sub.table == e.target
    && |nodes| > 0
    && forall n :: n in nodes ==>
         && n.row in Rows(db, owner)
         && (owner.hasId ==> IntAt(n.values, ID) == IntAt(n.row, ID))
         && (e.shape.M2O? ==> IntAt(n.values, e.shape.fk) == IntAt(n.row, e.shape.fk))
         && e !in n.one && e !in n.many
  }

  ghost predicate Loaded(db: Db, e: Edge, sub: Plan, nodes: seq<Node>, world: set<Node>)
    reads nodes, world
  {
    forall n :: n in nodes ==> EdgeLoaded(db, n.row, Slot(n.one, e), Slot(n.many, e), e, sub, world)
  }

  /** `m'` is `m` with nothing but the slot of `e` written. */
  predicate Wrote<T(==)>(m: map<Edge, T>, m': map<Edge, T>, e: Edge) {
    m' == m || (e in m' && m' == m[e := m'[e]])
  }

  lemma WroteAgain<T>(m: map<Edge, T>, m': map<Edge, T>, e: Edge, v: T)
    requires Wrote(m, m', e)
    ensures m'[e := v] == m[e := v] && Wrote(m, m'[e := v], e)
  {
  }

  lemma WroteTrans<T>(m: map<Edge, T>, m': map<Edge, T>, m'': map<Edge, T>, e: Edge)
    requires Wrote(m, m', e) && Wrote(m', m'', e)
    ensures Wrote(m, m'', e)
  {
    if m'' != m' {
      WroteAgain(m, m', e, m''[e]);
    }
  }

  /** `byID` finds every node by its id and nothing else. */
  ghost predicate Indexed(nodes: seq<Node>, byID: map<int, Node>) {
    && (forall k :: k in byID ==> byID[k] in nodes && IntAt(byID[k].row, ID) == Some(k))
    && (forall n :: n in nodes ==> IntAt(n.row, ID).Some? && IntAt(n.row, ID).value in byID && byID[IntAt(n.row, ID).value] == n)
  }

  /** The load wrote the slot of `e` and no other edge. */
  twostate predicate OnlyEdge(nodes: seq<Node>, e: Edge)
    reads nodes
  {
    forall n :: n in nodes ==> Wrote(old(n.one), n.one, e) && Wrote(old(n.many), n.many, e)
  }

  /** The nodes that hold key `k`, in order. */
  ghost function HoldersOf(nodes: seq<Node>, fk: string, k: int): seq<Node> {
    if nodes == [] then []
    else
      var last := nodes[|nodes| - 1];
      var front := HoldersOf(nodes[..|nodes| - 1], fk, k);
      if IntAt(last.values, fk) == Some(k) then front + [last] else front
  }

  lemma {:induction false} HolderMember(nodes: seq<Node>, fk: string, k: int, n: Node)
    ensures n in HoldersOf(nodes, fk, k) <==> n in nodes && IntAt(n.values, fk) == Some(k)
  {
    if nodes != [] {
      HolderMember(nodes[..|nodes| - 1], fk, k, n);
      assert nodes == nodes[..|nodes| - 1] + [nodes[|nodes| - 1]];
    }
  }

  lemma {:induction false} KeysHeld(nodes: seq<Node>, fk: string, ids: seq<int>)
    requires forall k :: k in ids <==> HoldersOf(nodes, fk, k) != []
    ensures forall k :: k in ids <==> exists n :: n in nodes && IntAt(n.values, fk) == Some(k)
  {
    forall k
      ensures k in ids <==> exists n :: n in nodes && IntAt(n.values, fk) == Some(k)
    {
      var holders := HoldersOf(nodes, fk, k);
      if k in ids {
        HolderMember(nodes, fk, k, holders[0]);
      }
      if n :| n in nodes && IntAt(n.values, fk) == Some(k) {
        HolderMember(nodes, fk, k, n);
      }
    }
  }

  /** Without a key no lookup is made, and none would find anything. */
  lemma {:induction false} NothingAsked(db: Db, e: Edge, sub: Plan, nodes: seq<Node>)
    requires e.shape.M2O?
    requires forall n :: n in nodes ==> IntAt(n.row, e.shape.fk) == None
    ensures !SomeLookupFails(db, e, sub, nodes)
    ensures IsBatch(db, e, sub, nodes, [], {})
  {
  }

  /** The collected keys are the ones the nodes' rows ask for. */
  lemma {:induction false} KeysAsked(db: Db, e: Edge, sub: Plan, nodes: seq<Node>, ids: seq<int>)
    requires e.shape.M2O? && |ids| > 0
    requires forall n :: n in nodes ==> IntAt(n.values, e.shape.fk) == IntAt(n.row, e.shape.fk)
    requires forall k :: k in ids <==> exists n :: n in nodes && IntAt(n.values, e.shape.fk) == Some(k)
    ensures Asked(e, nodes)
    ensures Selects(InColumn(ID, ids), db, e, sub, nodes)
  {
    var k := ids[0];
    assert k in ids;
    var holder :| holder in nodes && IntAt(holder.values, e.shape.fk) == Some(k);
    assert IntAt(holder.row, e.shape.fk).Some?;
    forall r | IntAt(r, ID).Some? && IntAt(r, ID).value in ids
      ensures exists n :: n in nodes && Joined(db, e, n.row, r)
    {
      var n :| n in nodes && IntAt(n.values, e.shape.fk) == Some(IntAt(r, ID).value);
      assert Joined(db, e, n.row, r);
    }
  }

  lemma {:induction false} FoundKeys(db: Db, e: Edge, sub: Plan, nodes: seq<Node>, found: seq<Node>, ids: seq<int>)
    requires e.shape.M2O? && Covers(found, Joint(db, e, sub, nodes))
    requires forall c :: c in found ==> IntAt(c.values, ID) == IntAt(c.row, ID)
    requires forall n :: n in nodes ==> IntAt(n.values, e.shape.fk) == IntAt(n.row, e.shape.fk)
    requires forall k :: k in ids <==> exists n :: n in nodes && IntAt(n.values, e.shape.fk) == Some(k)
    ensures forall c :: c in found ==> Key(c.values) in ids
  {
    forall c | c in found
      ensures Key(c.values) in ids
    {
      var n :| n in nodes && Joined(db, e, n.row, c.row);
      assert IntAt(n.values, e.shape.fk) == Some(Key(c.values));
    }
  }

  lemma {:induction false} DistinctKeys(db: Db, owner: Table, nodes: seq<Node>)
    requires ValidDb(db) && owner.hasId && DistinctRows(nodes)
    requires forall n :: n in nodes ==> n.row in Rows(db, owner) && IntAt(n.values, ID) == IntAt(n.row, ID)
    ensures forall i, j :: 0 <= i < j < |nodes| ==> Key(nodes[i].values) != Key(nodes[j].values)
  {
  }

  lemma {:induction false} NeighborKeys(db: Db, p: Plan, fields: seq<string>, ns: seq<Node>, world: set<Node>)
    requires ValidDb(db) && WfTable(p.table) && p.table.hasId && DistinctRows(ns)
    requires forall n :: n in ns ==> Represents(db, n, p, fields, world)
    ensures forall n :: n in ns ==> IntAt(n.values, ID) == IntAt(n.row, ID) && IntAt(n.row, ID).Some?
    ensures forall i, j :: 0 <= i < j < |ns| ==> Key(ns[i].values) != Key(ns[j].values)
  {
    forall n | n in ns
      ensures IntAt(n.values, ID) == IntAt(n.row, ID) && IntAt(n.row, ID).Some?
    {
      IdVisible(p, fields, n.row);
    }
    DistinctKeys(db, p.table, ns);
  }

  function Found(key: Option<int>, got: map<int, Node>): Option<Node> {
    if key.Some? && key.value in got then Some(got[key.value]) else None
  }

  /** After the assignment each node's to-one slot is the answer of its own lookup. */
  lemma {:induction false} OneLoaded(db: Db, e: Edge, sub: Plan, nodes: seq<Node>, found: seq<Node>,
                                     got: map<int, Node>, n: Node, one: Option<Node>, world: set<Node>)
    requires e.shape.M2O? && n in nodes && IsBatch(db, e, sub, nodes, found, world)
    requires forall c :: c in found ==> IntAt(c.row, ID) == Some(Key(c.values))
    requires forall k :: k in got <==> exists m :: 0 <= m < |found| && Key(found[m].values) == k
    requires forall m :: 0 <= m < |found| ==> got[Key(found[m].values)] == found[m]
    requires one == Found(IntAt(n.row, e.shape.fk), got)
    ensures EdgeLoaded(db, n.row, one, None, e, sub, world)
  {
    var targets := Targets(db, e, sub, n.row);
    if one.Some? {
      var m :| 0 <= m < |found| && Key(found[m].values) == IntAt(n.row, e.shape.fk).value;
      assert found[m] in found && one.value == found[m];
      assert one.value.row in targets;
    }
    if r :| r in targets {
      assert r in Joint(db, e, sub, nodes);
      var c :| c in found && c.row == r;
      var m :| 0 <= m < |found| && found[m] == c;
      assert Key(found[m].values) == IntAt(n.row, e.shape.fk).value;
    }
  }

  lemma {:induction false} OnesLoaded(db: Db, e: Edge, sub: Plan, nodes: seq<Node>, found: seq<Node>, got: map<int, Node>, world: set<Node>)
    requires e.shape.M2O? && IsBatch(db, e, sub, nodes, found, world)
    requires forall c :: c in found ==> IntAt(c.values, ID) == IntAt(c.row, ID) && IntAt(c.row, ID).Some?
    requires forall k :: k in got <==> exists m :: 0 <= m < |found| && Key(found[m].values) == k
    requires forall m :: 0 <= m < |found| ==> got[Key(found[m].values)] == found[m]
    requires forall n :: n in nodes ==> IntAt(n.values, e.shape.fk) == IntAt(n.row, e.shape.fk)
    requires forall n :: n in nodes ==> Slot(n.many, e) == None && Slot(n.one, e) == Found(IntAt(n.values, e.shape.fk), got)
    ensures Loaded(db, e, sub, nodes, world)
  {
    forall n | n in nodes
      ensures EdgeLoaded(db, n.row, Slot(n.one, e), Slot(n.many, e), e, sub, world)
    {
      OneLoaded(db, e, sub, nodes, found, got, n, Slot(n.one, e), world);
    }
  }

  lemma {:induction false} IdsAsked(db: Db, e: Edge, sub: Plan, nodes: seq<Node>, ids: seq<int>)
    requires e.shape.O2M? && |nodes| > 0
    requires forall k :: k in ids <==> exists n :: n in nodes && IntAt(n.row, ID) == Some(k)
    ensures Asked(e, nodes)
    ensures Selects(InColumn(e.shape.fk, ids), db, e, sub, nodes)
  {
    assert nodes[0] in nodes;
    forall r | IntAt(r, e.shape.fk).Some? && IntAt(r, e.shape.fk).value in ids
      ensures exists n :: n in nodes && Joined(db, e, n.row, r)
    {
      var n :| n in nodes && IntAt(n.row, ID) == Some(IntAt(r, e.shape.fk).value);
      assert Joined(db, e, n.row, r);
    }
  }

  lemma {:induction false} BatchOwners(db: Db, e: Edge, sub: Plan, nodes: seq<Node>, found: seq<Node>)
    requires Covers(found, Joint(db, e, sub, nodes))
    ensures forall c :: c in found ==> exists n :: n in nodes && Joined(db, e, n.row, c.row)
  {
  }

  /** The neighbours of a batch, split by the join condition, complete the edge of one node. */
  lemma {:induction false} ManyLoaded(db: Db, e: Edge, sub: Plan, nodes: seq<Node>, found: seq<Node>, n: Node, world: set<Node>)
    requires !e.shape.M2O? && n in nodes && IsBatch(db, e, sub, nodes, found, world)
    ensures EdgeLoaded(db, n.row, None, Some(Matching(db, e, n.row, found)), e, sub, world)
  {
    forall r | r in Targets(db, e, sub, n.row)
      ensures exists c :: c in found && c.row == r
    {
      assert r in Joint(db, e, sub, nodes);
    }
    MatchingCovers(db, e, sub, found, n.row);
    forall c | c in Matching(db, e, n.row, found)
      ensures Represents(db, c, sub, EdgeFields(e, sub.fields), world)
    {
      MatchingMember(db, e, n.row, found, c);
    }
  }

  lemma {:induction false} ManysLoaded(db: Db, e: Edge, sub: Plan, nodes: seq<Node>, found: seq<Node>, world: set<Node>)
    requires !e.shape.M2O? && IsBatch(db, e, sub, nodes, found, world)
    requires forall n :: n in nodes ==> Slot(n.one, e) == None && Slot(n.many, e) == Some(Matching(db, e, n.row, found))
    ensures Loaded(db, e, sub, nodes, world)
  {
    forall n | n in nodes
      ensures EdgeLoaded(db, n.row, Slot(n.one, e), Slot(n.many, e), e, sub, world)
    {
      ManyLoaded(db, e, sub, nodes, found, n, world);
    }
  }

  /** The first `k` edges of the plan are loaded, and no later one has been touched. */
  ghost predicate EdgesLoaded(db: Db, row: Row, one: map<Edge, Node>, many: map<Edge, seq<Node>>, plan: Plan, k: nat, world: set<Node>)
    requires k <= |plan.edges|
    reads world
  {
    && (forall j :: 0 <= j < k ==>
          EdgeLoaded(db, row, Slot(one, plan.edges[j].edge), Slot(many, plan.edges[j].edge), plan.edges[j].edge, plan.edges[j].plan, world))
    && forall e :: e in one.Keys + many.Keys ==> exists j :: 0 <= j < k && plan.edges[j].edge == e
  }

  /** Nodes whose first `k` edges are loaded are ready for the next one. */
  lemma {:induction false} ReadyForEdge(db: Db, p: Plan, nodes: seq<Node>, k: nat, world: set<Node>)
    requires ValidDb(db) && WfPlan(p) && k < |p.edges| && |nodes| > 0
    requires forall n :: n in nodes ==>
               && n.row in Rows(db, p.table) && n.values == Visible(p, p.fields, n.row)
               && EdgesLoaded(db, n.row, n.one, n.many, p, k, world)
    ensures Ready(db, p.table, p.edges[k].edge, p.edges[k].plan, nodes)
  {
    var e := p.edges[k].edge;
    assert !exists j :: 0 <= j < k && p.edges[j].edge == e;
    forall n | n in nodes
      ensures p.table.hasId ==> IntAt(n.values, ID) == IntAt(n.row, ID)
      ensures e.shape.M2O? ==> IntAt(n.values, e.shape.fk) == IntAt(n.row, e.shape.fk)
      ensures e !in n.one && e !in n.many
    {
      if p.table.hasId {
        IdVisible(p, p.fields, n.row);
      }
      if e.shape.M2O? {
        assert e.shape.fk in KeyColumns(p);
        VisibleAt(p, p.fields, n.row, e.shape.fk);
      }
      assert e !in n.one.Keys + n.many.Keys;
    }
  }

  /** Loading the next edge keeps the earlier ones and adds its own. */
  lemma {:induction false} EdgesStep(db: Db, row: Row, one: map<Edge, Node>, many: map<Edge, seq<Node>>,
                                     one': map<Edge, Node>, many': map<Edge, seq<Node>>, plan: Plan, k: nat, world: set<Node>, w: set<Node>)
    requires k < |plan.edges| && WfPlan(plan)
    requires EdgesLoaded(db, row, one, many, plan, k, world)
    requires Wrote(one, one', plan.edges[k].edge) && Wrote(many, many', plan.edges[k].edge)
    requires EdgeLoaded(db, row, Slot(one', plan.edges[k].edge), Slot(many', plan.edges[k].edge), plan.edges[k].edge, plan.edges[k].plan, w)
    ensures EdgesLoaded(db, row, one', many', plan, k + 1, world + w)
  {
    forall j | 0 <= j < k + 1
      ensures EdgeLoaded(db, row, Slot(one', plan.edges[j].edge), Slot(many', plan.edges[j].edge), plan.edges[j].edge, plan.edges[j].plan, world + w)
    {
      EdgeLoadedMono(db, row, Slot(one', plan.edges[j].edge), Slot(many', plan.edges[j].edge), plan.edges[j].edge, plan.edges[j].plan,
                     if j < k then world else w, world + w);
    }
    forall e | e in one'.Keys + many'.Keys
      ensures exists j :: 0 <= j < k + 1 && plan.edges[j].edge == e
    {
      if e != plan.edges[k].edge {
        assert e in one.Keys + many.Keys;
      }
    }
  }

  lemma {:induction false} AllEdgesLoaded(db: Db, n: Node, p: Plan, world: set<Node>, larger: set<Node>)
    requires EdgesLoaded(db, n.row, n.one, n.many, p, |p.edges|, world) && world <= larger && n in larger
    requires n.row in Rows(db, p.table) && n.values == Visible(p, p.fields, n.row)
    requires n.loaded == set i | 0 <= i < |p.edges| :: p.edges[i].edge
    ensures Represents(db, n, p, p.fields, larger)
  {
    forall i | 0 <= i < |p.edges|
      ensures EdgeLoaded(db, n.row, Slot(n.one, p.edges[i].edge), Slot(n.many, p.edges[i].edge), p.edges[i].edge, p.edges[i].plan, larger)
    {
      EdgeLoadedMono(db, n.row, Slot(n.one, p.edges[i].edge), Slot(n.many, p.edges[i].edge), p.edges[i].edge, p.edges[i].plan, world, larger);
    }
  }

  /** Nodes with every requested edge loaded are complete. */
  lemma {:induction false} NodesComplete(db: Db, nodes: seq<Node>, p: Plan, world: set<Node>, larger: set<Node>)
    requires world <= larger && forall n :: n in nodes ==> n in larger
    requires forall n :: n in nodes ==>
               && EdgesLoaded(db, n.row, n.one, n.many, p, |p.edges|, world)
               && n.row in Rows(db, p.table) && n.values == Visible(p, p.fields, n.row)
               && n.loaded == set i | 0 <= i < |p.edges| :: p.edges[i].edge
    ensures forall n :: n in nodes ==> Represents(db, n, p, p.fields, larger)
  {
    forall n | n in nodes
      ensures Represents(db, n, p, p.fields, larger)
    {
      AllEdgesLoaded(db, n, p, world, larger);
    }
  }

  lemma {:induction false} EdgeFails(db: Db, p: Plan, nodes: seq<Node>, i: nat)
    requires i < |p.edges| && SomeLookupFails(db, p.edges[i].edge, p.edges[i].plan, nodes)
    ensures SomeNodeFails(db, p, nodes)
  {
    var n :| n in nodes && LookupFails(db, p.edges[i].edge, p.edges[i].plan, n.row);
    assert Fails(db, p, n.row);
  }

  lemma {:induction false} NoEdgeFails(db: Db, p: Plan, nodes: seq<Node>)
    requires forall j :: 0 <= j < |p.edges| ==> !SomeLookupFails(db, p.edges[j].edge, p.edges[j].plan, nodes)
    ensures !SomeNodeFails(db, p, nodes)
  {
    forall n | n in nodes
      ensures !Fails(db, p, n.row)
    {
      if i :| 0 <= i < |p.edges| && LookupFails(db, p.edges[i].edge, p.edges[i].plan, n.row) {
        assert SomeLookupFails(db, p.edges[i].edge, p.edges[i].plan, nodes);
      }
    }
  }
}

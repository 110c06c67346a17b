/** Decoded nodes, and the reference semantics of eager loading: one lookup per node and edge. */
module EagerTree {
  import opened Wrappers
  import opened Store
  import opened QueryBuilder

  /** A decoded entity. Its columns are set when it is scanned; the loads fill in its edges. */
  class Node {
    const values: Row          // the columns that were selected and are not NULL
    const loaded: set<Edge>    // loadedTypes: the edges the query asked for
    ghost const row: Row       // the stored row this node was scanned from
    var one: map<Edge, Node>        // to-one edges; absent is a nil pointer
    var many: map<Edge, seq<Node>>  // to-many edges; absent is a nil slice

    constructor (values: Row, loaded: set<Edge>, ghost row: Row)
      ensures this.values == values && this.loaded == loaded && this.row == row
      ensures one == map[] && many == map[]
    {
      this.values, this.loaded, this.row := values, loaded, row;
      one, many := map[], map[];
    }
  }

  /** The rows a single lookup of edge `e` from `row` returns under sub-query `sub`. */
  ghost function Targets(db: Db, e: Edge, sub: Plan, row: Row): set<Row> {
    set r | r in Answer(db, sub) && Joined(db, e, row, r)
  }

  /** A row with, per requested edge, the trees of its neighbours. */
  datatype Tree = Tree(row: Row, edges: seq<set<Tree>>)

  /** The reference: look up every edge of this row, and of each neighbour, one row at a time. */
  ghost function Lookup(db: Db, p: Plan, row: Row): Tree
    decreases p
  {
    Tree(row, seq(|p.edges|, i requires 0 <= i < |p.edges| =>
      set r | r in Targets(db, p.edges[i].edge, p.edges[i].plan, row) :: Lookup(db, p.edges[i].plan, r)))
  }

  /** Some lookup below `row` is refused because its query selects an unknown column. */
  ghost predicate Fails(db: Db, p: Plan, row: Row)
    decreases p, 0
  {
    exists i :: 0 <= i < |p.edges| && LookupFails(db, p.edges[i].edge, p.edges[i].plan, row)
  }

  ghost predicate LookupFails(db: Db, e: Edge, sub: Plan, row: Row)
    decreases sub, 1
  {
    && (e.shape.M2O? ==> IntAt(row, e.shape.fk).Some?)
    && (BadFields(sub) || exists r :: r in Targets(db, e, sub, row) && Fails(db, sub, r))
  }

  function Slot<T>(m: map<Edge, T>, e: Edge): Option<T> {
    if e in m then Some(m[e]) else None
  }

  ghost function NodeSet(ns: seq<Node>): set<Node> {
    set n | n in ns
  }

  ghost predicate DistinctRows(ns: seq<Node>) {
    forall i, j :: 0 <= i < j < |ns| ==> ns[i].row != ns[j].row
  }

  /** `ns` holds every row of `rows` once. */
  ghost predicate Covers(ns: seq<Node>, rows: set<Row>) {
    && DistinctRows(ns)
    && (forall n :: n in ns ==> n.row in rows)
    && (forall r :: r in rows ==> exists n :: n in ns && n.row == r)
  }

  /** The heap below `n` is a complete eager load of its row: columns, and every requested edge. */
  ghost predicate Represents(db: Db, n: Node, p: Plan, fields: seq<string>, world: set<Node>)
    reads world
    decreases p, 0
  {
    && n in world
    && n.row in Rows(db, p.table)
    && n.values == Visible(p, fields, n.row)
    && n.loaded == (set i | 0 <= i < |p.edges| :: p.edges[i].edge)
    && n.one.Keys + n.many.Keys <= n.loaded
    && forall i :: 0 <= i < |p.edges| ==>
         EdgeLoaded(db, n.row, Slot(n.one, p.edges[i].edge), Slot(n.many, p.edges[i].edge), p.edges[i].edge, p.edges[i].plan, world)
  }

  /** One edge of a row: the node or the nodes found are exactly the joined rows, themselves complete. */
  ghost predicate EdgeLoaded(db: Db, row: Row, one: Option<Node>, many: Option<seq<Node>>, e: Edge, sub: Plan, world: set<Node>)
    reads world
    decreases sub, 1
  {
    var targets := Targets(db, e, sub, row);
    if e.shape.M2O? then
      && many.None?
      && (one.None? <==> targets == {})
      && (one.Some? ==> one.value.row in targets && Represents(db, one.value, sub, EdgeFields(e, sub.fields), world))
    else
      && one.None? && many.Some?
      && Covers(many.value, targets)
      && forall c :: c in many.value ==> Represents(db, c, sub, EdgeFields(e, sub.fields), world)
  }

  /** What a reader of the heap sees below `n`, following only the edges of `p`. */
  ghost function View(n: Node, p: Plan, world: set<Node>): Tree
    requires n in world
    reads world
    decreases p
  {
    Tree(n.row, seq(|p.edges|, i requires 0 <= i < |p.edges| reads world =>
      (set c | c in Neighbours(n, p.edges[i].edge) && c in world :: View(c, p.edges[i].plan, world))))
  }

  ghost function Neighbours(n: Node, e: Edge): set<Node>
    reads n
  {
    (if e in n.one then {n.one[e]} else {}) + (if e in n.many then set c | c in n.many[e] else {})
  }

  lemma {:induction false} RepresentsMono(db: Db, n: Node, p: Plan, fields: seq<string>, world: set<Node>, larger: set<Node>)
    requires Represents(db, n, p, fields, world) && world <= larger
    ensures Represents(db, n, p, fields, larger)
    decreases p, 0
  {
    forall i | 0 <= i < |p.edges|
      ensures EdgeLoaded(db, n.row, Slot(n.one, p.edges[i].edge), Slot(n.many, p.edges[i].edge), p.edges[i].edge, p.edges[i].plan, larger)
    {
      EdgeLoadedMono(db, n.row, Slot(n.one, p.edges[i].edge), Slot(n.many, p.edges[i].edge), p.edges[i].edge, p.edges[i].plan, world, larger);
    }
  }

  lemma {:induction false} EdgeLoadedMono(db: Db, row: Row, one: Option<Node>, many: Option<seq<Node>>, e: Edge, sub: Plan, world: set<Node>, larger: set<Node>)
    requires EdgeLoaded(db, row, one, many, e, sub, world) && world <= larger
    ensures EdgeLoaded(db, row, one, many, e, sub, larger)
    decreases sub, 1
  {
    var fields := EdgeFields(e, sub.fields);
    if one.Some? {
      RepresentsMono(db, one.value, sub, fields, world, larger);
    }
    if many.Some? {
      forall c | c in many.value
        ensures Represents(db, c, sub, fields, larger)
      {
        RepresentsMono(db, c, sub, fields, world, larger);
      }
    }
  }

  /** Reading the heap below a completely loaded node gives the tree of one-by-one lookups. */
  lemma {:induction false} ViewIsLookup(db: Db, n: Node, p: Plan, fields: seq<string>, world: set<Node>)
    requires ValidDb(db) && WfPlan(p)
    requires Represents(db, n, p, fields, world)
    ensures View(n, p, world) == Lookup(db, p, n.row)
    decreases p
  {
    var view, tree := View(n, p, world), Lookup(db, p, n.row);
    forall i | 0 <= i < |p.edges|
      ensures view.edges[i] == tree.edges[i]
    {
      var Sub(e, sub) := p.edges[i];
      FoundTargets(db, n, e, sub, world);
      forall c | c in Neighbours(n, e)
        ensures View(c, sub, world) == Lookup(db, sub, c.row)
      {
        ViewIsLookup(db, c, sub, EdgeFields(e, sub.fields), world);
      }
    }
  }

  /** The neighbours that a loaded edge leads to are complete, and are the rows of its lookup. */
  lemma {:induction false} FoundTargets(db: Db, n: Node, e: Edge, sub: Plan, world: set<Node>)
    requires ValidDb(db) && (e.shape.M2O? ==> e.target.hasId) && sub.table == e.target
    requires EdgeLoaded(db, n.row, Slot(n.one, e), Slot(n.many, e), e, sub, world)
    ensures forall c :: c in Neighbours(n, e) ==>
              c in world && c.row in Targets(db, e, sub, n.row) && Represents(db, c, sub, EdgeFields(e, sub.fields), world)
    ensures forall r :: r in Targets(db, e, sub, n.row) ==> exists c :: c in Neighbours(n, e) && c.row == r
  {
    forall r | r in Targets(db, e, sub, n.row)
      ensures exists c :: c in Neighbours(n, e) && c.row == r
    {
      if e.shape.M2O? {
        OneMatch(db, e, sub, n.row);
        assert n.one[e] in Neighbours(n, e);
      } else {
        var c :| c in n.many[e] && c.row == r;
        assert c in Neighbours(n, e);
      }
    }
  }

  /** A many-to-one lookup finds at most one row. */
  lemma OneMatch(db: Db, e: Edge, sub: Plan, row: Row)
    requires ValidDb(db) && e.shape.M2O? && e.target.hasId && sub.table == e.target
    ensures forall r, s :: r in Targets(db, e, sub, row) && s in Targets(db, e, sub, row) ==> r == s
  {
  }
}

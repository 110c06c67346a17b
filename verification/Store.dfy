/** The database as the eager loader sees it: tables of rows, and the edges between them. */
module Store {
  import opened Wrappers

  /** A non-NULL cell. Only integer cells matter to the joins; every other type is opaque. */
  datatype Value = Int(i: int) | Other(repr: string)

  /** The non-NULL cells of one row; a column that is absent from the map is NULL. */
  type Row = map<string, Value>

  datatype Table = Table(name: string, columns: seq<string>, hasId: bool)

  /** Where an edge keeps its keys: on the owner, on the target, or in a join table. */
  datatype Shape =
    | M2O(fk: string)
    | O2M(fk: string)
    | M2M(joinTable: Table, own: string, other: string)

  datatype Edge = Edge(name: string, shape: Shape, target: Table)

  datatype Db = Db(rows: map<Table, set<Row>>)

  const ID := "id"

  function IntAt(cells: Row, column: string): Option<int> {
    if column in cells && cells[column].Int? then Some(cells[column].i) else None
  }

  /** The Go field `ID` of a decoded node: zero when no value was scanned into it. */
  function Key(cells: Row): int {
    IntAt(cells, ID).GetOr(0)
  }

  function Rows(db: Db, t: Table): set<Row> {
    if t in db.rows then db.rows[t] else {}
  }

  /** Primary keys: every row of an entity table has an id and no two rows share it. */
  ghost predicate ValidDb(db: Db) {
    forall t :: t in db.rows && t.hasId ==>
      && (forall r :: r in db.rows[t] ==> IntAt(r, ID).Some?)
      && (forall r, s :: r in db.rows[t] && s in db.rows[t] && IntAt(r, ID) == IntAt(s, ID) ==> r == s)
  }

  predicate WfTable(t: Table) {
    t.hasId ==> |t.columns| > 0 && t.columns[0] == ID
  }

  /** What the schema guarantees of an edge of table `owner`. */
  predicate WfEdge(owner: Table, e: Edge) {
    && WfTable(owner)
    && WfTable(e.target)
    && match e.shape
       case M2O(fk) => fk in owner.columns && e.target.hasId
       case O2M(fk) => fk in e.target.columns && owner.hasId
       case M2M(_, _, _) => owner.hasId && e.target.hasId
  }

  /** The join table pairs owner key `a` with target key `b`. */
  ghost predicate Linked(db: Db, e: Edge, a: int, b: int)
    requires e.shape.M2M?
  {
    exists l :: l in Rows(db, e.shape.joinTable)
             && IntAt(l, e.shape.own) == Some(a) && IntAt(l, e.shape.other) == Some(b)
  }

  /** The join condition of an edge, written once per pair of rows. */
  ghost predicate Joined(db: Db, e: Edge, row: Row, r: Row) {
    match e.shape
    case M2O(fk) => IntAt(row, fk).Some? && IntAt(r, ID) == IntAt(row, fk)
    case O2M(fk) => IntAt(row, ID).Some? && IntAt(r, fk) == IntAt(row, ID)
    case M2M(_, _, _) =>
      && IntAt(row, ID).Some? && IntAt(r, ID).Some?
      && Linked(db, e, IntAt(row, ID).value, IntAt(r, ID).value)
  }
}

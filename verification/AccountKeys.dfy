/** The keys of an account as the loader sees them are the keys of the entity that is decoded from the same row. */
module AccountKeys {
  import opened Wrappers
  import opened AccountEntity
  import opened AccountCreate
  import opened AccountSchema
  import Store
  import Batch

  /** The columns that the account edges join on. */
  const KEYS: set<Column> := {ID, ProxyID, ParentAccountID}

  function IntCell(cell: Cell): Option<int> {
    if cell.Plain? && cell.v.Int? then Some(cell.v.i) else None
  }

  /** The loader's row and the stored row hold the same keys. */
  ghost predicate SameKeys(cells: Store.Row, row: StoredRow) {
    forall c :: c in KEYS ==> Store.IntAt(cells, NameOf(c)) == IntCell(CellOf(row, c))
  }

  function Names(columns: seq<Column>): (names: seq<string>)
    ensures |names| == |columns| && forall i :: 0 <= i < |columns| ==> names[i] == NameOf(columns[i])
  {
    seq(|columns|, i requires 0 <= i < |columns| => NameOf(columns[i]))
  }

  /** An unknown column has none of the table's names. */
  ghost predicate Proper(c: Column) {
    c.Unknown? ==> forall d: Column :: !d.Unknown? ==> NameOf(d) != c.name
  }

  lemma {:induction false} IDName(d: Column)
    requires !d.Unknown? && NameOf(d) == "id"
    ensures d.ID?
  {
    assert |NameOf(d)| == 2;
  }

  lemma {:induction false} ProxyName(d: Column)
    requires !d.Unknown? && NameOf(d) == "proxy_id"
    ensures d.ProxyID?
  {
    assert |NameOf(d)| == 8 && NameOf(d)[1] == 'r';
  }

  lemma {:induction false} ParentName(d: Column)
    requires !d.Unknown? && NameOf(d) == "parent_account_id"
    ensures d.ParentAccountID?
  {
    assert |NameOf(d)| == 17;
  }

  lemma {:induction false} Selects(columns: seq<Column>, c: Column)
    requires c in KEYS && forall d :: d in columns ==> Proper(d)
    ensures NameOf(c) in Names(columns) <==> c in columns
  {
    forall i | 0 <= i < |columns| && NameOf(columns[i]) == NameOf(c)
      ensures columns[i] == c
    {
      var d := columns[i];
      assert d in columns;
      if c.ID? {
        IDName(d);
      } else if c.ProxyID? {
        ProxyName(d);
      } else {
        ParentName(d);
      }
    }
    if c in columns {
      var i :| 0 <= i < |columns| && columns[i] == c;
      assert Names(columns)[i] == NameOf(c);
    }
  }

  function IntOf(v: Option<Value>): Option<int> {
    if v.Some? && v.value.Int? then Some(v.value.i) else None
  }

  /** The field of a key holds the cell; a NULL id is zero, and any other NULL key is nil. */
  lemma {:induction false} KeyMeaning(c: Column, cell: Cell)
    requires c in KEYS && CellFits(c, cell)
    ensures IntOf(Meaning(c, cell)) == if c.ID? then Some(IntCell(cell).GetOr(0)) else IntCell(cell)
    ensures IntOf(Zero(c)) == if c.ID? then Some(0) else None
  {
    assert c.ID? || c.ProxyID? || c.ParentAccountID?;
  }

  lemma {:induction false} ScannedKey(names: seq<string>, cells: Store.Row, name: string)
    ensures Store.IntAt(Batch.Scan(names, cells), name) == if name in names then Store.IntAt(cells, name) else None
  {
  }

  /** For any selection of columns, the keys that a load uses are those in the fields of the decoded entity. */
  lemma {:induction false} KeysDecoded(cells: Store.Row, row: StoredRow, columns: seq<Column>, slots: seq<Slot>, c: Column)
    requires SameKeys(cells, row) && ScannedRow(columns, row, slots)
    requires forall d :: d in columns ==> Proper(d) && CellFits(d, CellOf(row, d))
    requires c in KEYS
    ensures var scanned, fields := Batch.Scan(Names(columns), cells), AllAssigned(ZERO_FIELDS, columns, slots);
            IntOf(FieldOf(fields, c)) == if c.ID? then Some(Store.Key(scanned)) else Store.IntAt(scanned, NameOf(c))
  {
    Selects(columns, c);
    KeyField(row, columns, slots, c);
    ScannedKey(Names(columns), cells, NameOf(c));
    assert c.ID? ==> NameOf(c) == Store.ID;
  }

  lemma {:induction false} KeyField(row: StoredRow, columns: seq<Column>, slots: seq<Slot>, c: Column)
    requires ScannedRow(columns, row, slots) && c in KEYS
    requires forall d :: d in columns ==> CellFits(d, CellOf(row, d))
    ensures var key := if c in columns then IntCell(CellOf(row, c)) else None;
            IntOf(FieldOf(AllAssigned(ZERO_FIELDS, columns, slots), c)) == if c.ID? then Some(key.GetOr(0)) else key
  {
    DecodingIsProjection(row, columns, slots, c);
    if c in columns {
      KeyMeaning(c, CellOf(row, c));
    } else {
      KeyMeaning(c, Null);
    }
  }

  /** A created account joins as its mutation says: its parent and its proxy are the accounts and proxies with the ids set. */
  lemma {:induction false} CreatedKeysJoin(db: Store.Db, m: Mutation, id: int, row: StoredRow, cells: Store.Row, r: Store.Row)
    requires Written(m, id, row) && SameKeys(cells, row)
    ensures Store.IntAt(cells, Store.ID) == Some(id)
    ensures Store.Joined(db, PARENT_EDGE, cells, r) <==> m.parent.Some? && Store.IntAt(r, Store.ID) == m.parent
    ensures Store.Joined(db, PROXY_EDGE, cells, r) <==> m.proxy.Some? && Store.IntAt(r, Store.ID) == m.proxy
    ensures Store.Joined(db, CHILDREN_EDGE, r, cells) <==> m.parent.Some? && Store.IntAt(r, Store.ID) == m.parent
  {
    KeyCells(m, id, row);
    assert ID in KEYS && ProxyID in KEYS && ParentAccountID in KEYS;
    assert NameOf(ID) == Store.ID && NameOf(ProxyID) == "proxy_id" && NameOf(ParentAccountID) == "parent_account_id";
  }
}

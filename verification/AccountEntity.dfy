/** Decoding an account: allocating scan slots, and assigning scanned values to the entity. */
module AccountEntity {
  import opened Wrappers

  /** The columns of the accounts table, and any other name a query may select. */
  datatype Column =
    | ID | CreatedAt | UpdatedAt | DeletedAt | Name | Notes
    | Platform | Type | Credentials | Extra | ProxyID | ProxyFallbackOriginID
    | Concurrency | LoadFactor | Priority | RateMultiplier | Status | ErrorMessage
    | LastUsedAt | ExpiresAt | AutoPauseOnExpired | Schedulable | RateLimitedAt | RateLimitResetAt
    | OverloadUntil | TempUnschedulableUntil | TempUnschedulableReason | SessionWindowStart | SessionWindowEnd | SessionWindowStatus
    | ParentAccountID | QuotaDimension
    | Unknown(name: string)

  const ACCOUNT_COLUMNS: seq<Column> := [
    ID, CreatedAt, UpdatedAt, DeletedAt, Name, Notes,
    Platform, Type, Credentials, Extra, ProxyID, ProxyFallbackOriginID,
    Concurrency, LoadFactor, Priority, RateMultiplier, Status, ErrorMessage,
    LastUsedAt, ExpiresAt, AutoPauseOnExpired, Schedulable, RateLimitedAt, RateLimitResetAt,
    OverloadUntil, TempUnschedulableUntil, TempUnschedulableReason, SessionWindowStart, SessionWindowEnd, SessionWindowStatus,
    ParentAccountID, QuotaDimension]

  type Dict = map<string, string>

  /** A value of an account field. `Json(None)` is the nil map. */
  datatype Value =
    | Int(i: int) | Float(r: real) | Bool(b: bool) | Str(s: string) | Time(t: int) | Json(doc: Option<Dict>)

  /** The bytes of a JSON column, by what they decode to. */
  datatype Bytes = Empty | Encoded(doc: Option<Dict>) | Malformed

  datatype Kind = ByteSlice | NullBool | NullFloat64 | NullInt64 | NullString | NullTime | UnknownType

  /** What a row scan leaves in a destination: the bytes, or a value that may be NULL. */
  datatype Slot = Raw(bytes: Bytes) | Nullable(kind: Kind, value: Option<Value>)

  function SlotKind(s: Slot): Kind {
    if s.Raw? then ByteSlice else s.kind
  }

  predicate Fits(v: Value, k: Kind) {
    match k
    case NullBool => v.Bool?
    case NullFloat64 => v.Float?
    case NullInt64 => v.Int?
    case NullString => v.Str?
    case NullTime => v.Time?
    case ByteSlice => v.Json?
    case UnknownType => true
  }

  /** The destination that `scanValues` allocates for a column. */
  function ScanKind(c: Column): Kind {
    match c
    case Credentials | Extra => ByteSlice
    case AutoPauseOnExpired | Schedulable => NullBool
    case RateMultiplier => NullFloat64
    case ID | ProxyID | ProxyFallbackOriginID | Concurrency | LoadFactor | Priority | ParentAccountID => NullInt64
    case Name | Notes | Platform | Type | Status | ErrorMessage | TempUnschedulableReason | SessionWindowStatus
         | QuotaDimension => NullString
    case CreatedAt | UpdatedAt | DeletedAt | LastUsedAt | ExpiresAt | RateLimitedAt | RateLimitResetAt | OverloadUntil
         | TempUnschedulableUntil | SessionWindowStart | SessionWindowEnd => NullTime
    case Unknown(_) => UnknownType
  }

  /** The type that `assignValues` asserts for a column, case by case. */
  function AssertedKind(c: Column): Kind {
    match c
    case ID => NullInt64
    case CreatedAt => NullTime
    case UpdatedAt => NullTime
    case DeletedAt => NullTime
    case Name => NullString
    case Notes => NullString
    case Platform => NullString
    case Type => NullString
    case Credentials => ByteSlice
    case Extra => ByteSlice
    case ProxyID => NullInt64
    case ProxyFallbackOriginID => NullInt64
    case Concurrency => NullInt64
    case LoadFactor => NullInt64
    case Priority => NullInt64
    case RateMultiplier => NullFloat64
    case Status => NullString
    case ErrorMessage => NullString
    case LastUsedAt => NullTime
    case ExpiresAt => NullTime
    case AutoPauseOnExpired => NullBool
    case Schedulable => NullBool
    case RateLimitedAt => NullTime
    case RateLimitResetAt => NullTime
    case OverloadUntil => NullTime
    case TempUnschedulableUntil => NullTime
    case TempUnschedulableReason => NullString
    case SessionWindowStart => NullTime
    case SessionWindowEnd => NullTime
    case SessionWindowStatus => NullString
    case ParentAccountID => NullInt64
    case QuotaDimension => NullString
    case Unknown(_) => UnknownType
  }

  /** The two switches agree on every column name, and know exactly the table's columns. */
  lemma KindsAgree(c: Column)
    ensures ScanKind(c) == AssertedKind(c)
    ensures AssertedKind(c) == UnknownType <==> c.Unknown?
  {
  }

  /** The name by which queries and rows know a column. */
  function NameOf(c: Column): string {
    match c
    case ID => "id"
    case CreatedAt => "created_at"
    case UpdatedAt => "updated_at"
    case DeletedAt => "deleted_at"
    case Name => "name"
    case Notes => "notes"
    case Platform => "platform"
    case Type => "type"
    case Credentials => "credentials"
    case Extra => "extra"
    case ProxyID => "proxy_id"
    case ProxyFallbackOriginID => "proxy_fallback_origin_id"
    case Concurrency => "concurrency"
    case LoadFactor => "load_factor"
    case Priority => "priority"
    case RateMultiplier => "rate_multiplier"
    case Status => "status"
    case ErrorMessage => "error_message"
    case LastUsedAt => "last_used_at"
    case ExpiresAt => "expires_at"
    case AutoPauseOnExpired => "auto_pause_on_expired"
    case Schedulable => "schedulable"
    case RateLimitedAt => "rate_limited_at"
    case RateLimitResetAt => "rate_limit_reset_at"
    case OverloadUntil => "overload_until"
    case TempUnschedulableUntil => "temp_unschedulable_until"
    case TempUnschedulableReason => "temp_unschedulable_reason"
    case SessionWindowStart => "session_window_start"
    case SessionWindowEnd => "session_window_end"
    case SessionWindowStatus => "session_window_status"
    case ParentAccountID => "parent_account_id"
    case QuotaDimension => "quota_dimension"
    case Unknown(name) => name
  }

  /** Where a column stands in the table. */
  function Position(c: Column): nat
    requires !c.Unknown?
  {
    match c
    case ID => 0 case CreatedAt => 1 case UpdatedAt => 2 case DeletedAt => 3 case Name => 4 case Notes => 5 case Platform => 6
    case Type => 7 case Credentials => 8 case Extra => 9 case ProxyID => 10 case ProxyFallbackOriginID => 11
    case Concurrency => 12 case LoadFactor => 13 case Priority => 14 case RateMultiplier => 15 case Status => 16
    case ErrorMessage => 17 case LastUsedAt => 18 case ExpiresAt => 19 case AutoPauseOnExpired => 20 case Schedulable => 21
    case RateLimitedAt => 22 case RateLimitResetAt => 23 case OverloadUntil => 24 case TempUnschedulableUntil => 25
    case TempUnschedulableReason => 26 case SessionWindowStart => 27 case SessionWindowEnd => 28 case SessionWindowStatus => 29
    case ParentAccountID => 30 case QuotaDimension => 31
  }

  lemma {:induction false} InFirstHalf(c: Column)
    requires !c.Unknown? && Position(c) < 16
    ensures ACCOUNT_COLUMNS[Position(c)] == c
  {
  }

  lemma {:induction false} InSecondHalf(c: Column)
    requires !c.Unknown? && 16 <= Position(c)
    ensures Position(c) < |ACCOUNT_COLUMNS| && ACCOUNT_COLUMNS[Position(c)] == c
  {
  }

  lemma {:induction false} InTable(c: Column)
    requires !c.Unknown?
    ensures Position(c) < |ACCOUNT_COLUMNS| && ACCOUNT_COLUMNS[Position(c)] == c
  {
    if Position(c) < 16 {
      InFirstHalf(c);
    } else {
      InSecondHalf(c);
    }
  }

  lemma {:induction false} NoUnknownColumn(name: string)
    ensures Unknown(name) !in ACCOUNT_COLUMNS
  {
  }

  /** The table's columns are all the known ones. */
  lemma {:induction false} ColumnsComplete(c: Column)
    ensures c in ACCOUNT_COLUMNS <==> !c.Unknown?
  {
    if c.Unknown? {
      NoUnknownColumn(c.name);
    } else {
      InTable(c);
    }
  }

  // ---------- The entity ----------

  /** Columns whose Go field is a plain value: it is never nil, and starts at zero. */
  function Zero(c: Column): Option<Value> {
    match c
    case ID => Some(Int(0))
    case CreatedAt => Some(Time(0))
    case UpdatedAt => Some(Time(0))
    case Name => Some(Str(""))
    case Platform => Some(Str(""))
    case Type => Some(Str(""))
    case Concurrency => Some(Int(0))
    case Priority => Some(Int(0))
    case RateMultiplier => Some(Float(0.0))
    case Status => Some(Str(""))
    case AutoPauseOnExpired => Some(Bool(false))
    case Schedulable => Some(Bool(false))
    case QuotaDimension => Some(Str(""))
    case _ => None
  }

  /** The fields of an entity: a key that is absent is a nil pointer or a nil map. */
  type Fields = map<Column, Value>

  const ZERO_COLUMNS: set<Column> := {
    ID, CreatedAt, UpdatedAt, Name, Platform, Type, Concurrency, Priority, RateMultiplier, Status, AutoPauseOnExpired, Schedulable,
    QuotaDimension}

  const ZERO_FIELDS: Fields := map c | c in ZERO_COLUMNS && Zero(c).Some? :: Zero(c).value

  datatype Error = LengthMismatch(m: nat, n: nat) | UnexpectedType(column: Column) | BadJson(column: Column)

  /** The error reported for column `i`, if any. */
  function ErrorAt(columns: seq<Column>, slots: seq<Slot>, i: nat): Option<Error>
    requires i < |columns| <= |slots|
  {
    if columns[i].Unknown? then None
    else if SlotKind(slots[i]) != AssertedKind(columns[i]) then Some(UnexpectedType(columns[i]))
    else if slots[i] == Raw(Malformed) then Some(BadJson(columns[i]))
    else None
  }

  /** Decoding JSON into a field: an object is merged into the map that is there, `null` clears it. */
  function Unmarshalled(f: Fields, c: Column, doc: Option<Dict>): Fields {
    match doc
    case None => f - {c}
    case Some(entries) =>
      var before := if c in f && f[c].Json? && f[c].doc.Some? then f[c].doc.value else map[];
      f[c := Json(Some(before + entries))]
  }

  /** What one column without error does to the entity. */
  function Assigned(f: Fields, c: Column, s: Slot): Fields {
    if c.Unknown? then f
    else match s
      case Raw(Encoded(doc)) => Unmarshalled(f, c, doc)
      case Raw(_) => f
      case Nullable(_, Some(v)) => f[c := v]
      case Nullable(_, None) => if c.ID? then f[c := Int(0)] else f
  }

  /** What a prefix of the columns does to the entity. */
  function AllAssigned(f: Fields, columns: seq<Column>, slots: seq<Slot>): Fields
    requires |columns| <= |slots|
  {
    if columns == [] then f
    else
      var k := |columns| - 1;
      Assigned(AllAssigned(f, columns[..k], slots), columns[k], slots[k])
  }

  /** The first `k` columns are assigned, and the next one, if there is one, is in error. */
  ghost predicate StoppedAt(columns: seq<Column>, slots: seq<Slot>, before: Fields, after: Fields, err: Option<Error>, k: nat) {
    && k <= |columns| <= |slots|
    && (forall i :: 0 <= i < k ==> ErrorAt(columns, slots, i) == None)
    && after == AllAssigned(before, columns[..k], slots)
    && (err == None <==> k == |columns|)
    && (k < |columns| ==> err == ErrorAt(columns, slots, k))
  }

  /** After the first `k` columns: every unknown one among them holds its last value, and nothing else has changed. */
  ghost predicate SelectedUpTo(columns: seq<Column>, slots: seq<Slot>, before: map<Column, Slot>, after: map<Column, Slot>, k: nat) {
    && k <= |columns| <= |slots|
    && (forall c :: c in after <==> c in before || (c.Unknown? && c in columns[..k]))
    && (forall c :: c in before && !(c.Unknown? && c in columns[..k]) ==> c in after && after[c] == before[c])
    && (forall i :: 0 <= i < k && columns[i].Unknown? && columns[i] !in columns[i + 1..k] ==>
          columns[i] in after && after[columns[i]] == slots[i])
  }

  lemma {:induction false} SelectedStep(columns: seq<Column>, slots: seq<Slot>, before: map<Column, Slot>, after: map<Column, Slot>,
                                        k: nat)
    requires k < |columns| && SelectedUpTo(columns, slots, before, after, k)
    ensures SelectedUpTo(columns, slots, before, if columns[k].Unknown? then after[columns[k] := slots[k]] else after, k + 1)
  {
    var d := columns[k];
    assert columns[..k + 1] == columns[..k] + [d];
    forall i | 0 <= i < k
      ensures columns[i] in columns[i + 1..k + 1] <==> columns[i] in columns[i + 1..k] || columns[i] == d
    {
      assert columns[i + 1..k + 1] == columns[i + 1..k] + [d];
    }
    assert columns[k + 1..k + 1] == [];
  }

  class Account {
    var fields: Fields
    var selected: map<Column, Slot>  // dynamically selected values

    constructor ()
      ensures fields == ZERO_FIELDS && selected == map[]
    {
      fields, selected := ZERO_FIELDS, map[];
    }

    /** Assigns scanned values; the first error stops it and leaves the columns before it assigned. */
    method AssignValues(columns: seq<Column>, slots: seq<Slot>) returns (err: Option<Error>)
      modifies this
      ensures |slots| < |columns| ==> err == Some(LengthMismatch(|slots|, |columns|)) && fields == old(fields)
                                      && selected == old(selected)
      ensures |columns| <= |slots| ==> exists k :: StoppedAt(columns, slots, old(fields), fields, err, k)
                                                   && SelectedUpTo(columns, slots, old(selected), selected, k)
    {
      if |slots| < |columns| {
        return Some(LengthMismatch(|slots|, |columns|));
      }
      for k := 0 to |columns|
        invariant forall i :: 0 <= i < k ==> ErrorAt(columns, slots, i) == None
        invariant fields == AllAssigned(old(fields), columns[..k], slots)
        invariant SelectedUpTo(columns, slots, old(selected), selected, k)
      {
        SelectedStep(columns, slots, old(selected), selected, k);
        assert columns[..k + 1][..k] == columns[..k];
        var c := columns[k];
        err := ErrorAt(columns, slots, k);
        if err.Some? {
          assert StoppedAt(columns, slots, old(fields), fields, err, k);
          return;
        }
        AssignColumn(c, slots[k]);
      }
      err := None;
      assert StoppedAt(columns, slots, old(fields), fields, err, |columns|);
    }

    /** Assigns one scanned value of the right type to its field; an unknown column goes to the selected values. */
    method AssignColumn(c: Column, s: Slot)
      requires c.Unknown? || (SlotKind(s) == AssertedKind(c) && s != Raw(Malformed))
      modifies this
      ensures fields == Assigned(old(fields), c, s)
      ensures selected == if c.Unknown? then old(selected)[c := s] else old(selected)
    {
      if c.Unknown? {
        selected := selected[c := s];
      } else if c.ID? {
        fields := fields[c := s.value.GetOr(Int(0))];
      } else if s.Raw? {
        if s.bytes.Encoded? {
          fields := Unmarshalled(fields, c, s.bytes.doc);
        }
      } else if s.value.Some? {
        fields := fields[c := s.value.value];
      }
    }
  }

  // ---------- Scanning rows ----------

  /** A database cell: NULL, a typed value, or the bytes of a JSON column. */
  datatype Cell = Null | Plain(v: Value) | Text(bytes: Bytes)

  /** The cell has the type the schema gives its column. */
  predicate CellFits(c: Column, cell: Cell) {
    match cell
    case Null => true
    case Plain(v) => ScanKind(c) != ByteSlice && Fits(v, ScanKind(c))
    case Text(_) => ScanKind(c) == ByteSlice
  }

  /** The destination of column `c` after the driver has scanned `cell` into it. */
  function Scanned(c: Column, cell: Cell): Slot {
    if ScanKind(c) == ByteSlice then Raw(if cell.Text? then cell.bytes else Empty)
    else Nullable(ScanKind(c), if cell.Plain? then Some(cell.v) else None)
  }

  /** Allocates one empty destination per column. */
  method ScanValues(columns: seq<Column>) returns (values: array<Slot>)
    ensures fresh(values) && values.Length == |columns|
    ensures forall i :: 0 <= i < |columns| ==> values[i] == Scanned(columns[i], Null)
  {
    values := new Slot[|columns|](_ => Raw(Empty));
    for i := 0 to |columns|
      invariant forall j :: 0 <= j < i ==> values[j] == Scanned(columns[j], Null)
    {
      if ScanKind(columns[i]) == ByteSlice {
        values[i] := Raw(Empty);
      } else {
        values[i] := Nullable(ScanKind(columns[i]), None);
      }
    }
  }

  predicate IsScan(columns: seq<Column>, cells: seq<Cell>, slots: seq<Slot>) {
    && |columns| == |cells| == |slots|
    && forall i :: 0 <= i < |columns| ==> CellFits(columns[i], cells[i]) && slots[i] == Scanned(columns[i], cells[i])
  }

  /** Scan then assign never reports a length or type mismatch; it fails exactly on malformed JSON. */
  lemma {:induction false} OnlyJsonFails(columns: seq<Column>, cells: seq<Cell>, slots: seq<Slot>, i: nat)
    requires IsScan(columns, cells, slots) && i < |columns|
    ensures ErrorAt(columns, slots, i)
         == if cells[i] == Text(Malformed) then Some(BadJson(columns[i])) else None
  {
    KindsAgree(columns[i]);
  }

  /** A scalar column ends as its last non-NULL occurrence, wherever and however often it is selected. */
  lemma {:induction false} LastValueWins(f: Fields, columns: seq<Column>, slots: seq<Slot>, c: Column, i: nat)
    requires i < |columns| <= |slots| && columns[i] == c && !c.Unknown?
    requires slots[i].Nullable? && slots[i].value.Some?
    requires forall j :: i < j < |columns| && columns[j] == c ==> c != ID && slots[j].Nullable? && slots[j].value == None
    ensures c in AllAssigned(f, columns, slots) && AllAssigned(f, columns, slots)[c] == slots[i].value.value
    decreases |columns|
  {
    var k := |columns| - 1;
    if i < k {
      LastValueWins(f, columns[..k], slots, c, i);
    }
  }

  /** An object is merged into the map that a field holds; `null` clears it; an empty destination leaves it. */
  lemma {:induction false} JsonMerges(f: Fields, c: Column, before: Dict, entries: Dict)
    requires (c == Credentials || c == Extra) && FieldOf(f, c) == Some(Json(Some(before)))
    ensures FieldOf(Assigned(f, c, Raw(Encoded(Some(entries)))), c) == Some(Json(Some(before + entries)))
    ensures FieldOf(Assigned(f - {c}, c, Raw(Encoded(Some(entries)))), c) == Some(Json(Some(entries)))
    ensures FieldOf(Assigned(f, c, Raw(Encoded(None))), c) == None
    ensures Assigned(f, c, Raw(Empty)) == f
  {
    assert map[] + entries == entries;
  }

  /** The id is the exception: its last occurrence decides even if it is NULL, and then the id is zero. */
  lemma {:induction false} LastIDWins(f: Fields, columns: seq<Column>, slots: seq<Slot>, i: nat)
    requires i < |columns| <= |slots| && columns[i] == ID && slots[i].Nullable?
    requires forall j :: i < j < |columns| ==> columns[j] != ID
    ensures ID in AllAssigned(f, columns, slots)
    ensures AllAssigned(f, columns, slots)[ID] == match slots[i].value case Some(v) => v case None => Int(0)
    decreases |columns|
  {
    var k := |columns| - 1;
    if i < k {
      LastIDWins(f, columns[..k], slots, i);
    }
  }

  /** A column is in error exactly when its destination has another type than a scan allocates, or holds malformed JSON. */
  lemma {:induction false} ErrorIff(columns: seq<Column>, slots: seq<Slot>, i: nat)
    requires i < |columns| <= |slots|
    ensures ErrorAt(columns, slots, i) == Some(UnexpectedType(columns[i]))
       <==> !columns[i].Unknown? && (if slots[i].Raw? then ScanKind(columns[i]) != ByteSlice else slots[i].kind != ScanKind(columns[i]))
    ensures ErrorAt(columns, slots, i) == Some(BadJson(columns[i]))
       <==> (columns[i] == Credentials || columns[i] == Extra) && slots[i] == Raw(Malformed)
    ensures ErrorAt(columns, slots, i).Some? ==> ErrorAt(columns, slots, i).value in {UnexpectedType(columns[i]), BadJson(columns[i])}
  {
    KindsAgree(columns[i]);
  }

  /** A column that is not selected, or only ever NULL, keeps its zero or nil. */
  lemma {:induction false} NullKeeps(f: Fields, columns: seq<Column>, slots: seq<Slot>, c: Column)
    requires |columns| <= |slots| && c != ID
    requires forall j :: 0 <= j < |columns| && columns[j] == c ==>
               slots[j] == Raw(Empty) || (slots[j].Nullable? && slots[j].value == None)
    ensures c in AllAssigned(f, columns, slots) <==> c in f
    ensures c in f ==> AllAssigned(f, columns, slots)[c] == f[c]
    decreases |columns|
  {
    if columns != [] {
      NullKeeps(f, columns[..|columns| - 1], slots, c);
    }
  }

  // ---------- Rows ----------

  /** A stored row; a column without an entry is NULL. */
  type StoredRow = map<Column, Cell>

  function CellOf(row: StoredRow, c: Column): Cell {
    if c in row then row[c] else Null
  }

  function FieldOf(f: Fields, c: Column): Option<Value> {
    if c in f then Some(f[c]) else None
  }

  /** The field a cell stands for: NULL is the zero value or nil, and JSON `null` is the nil map. */
  function Meaning(c: Column, cell: Cell): Option<Value> {
    match cell
    case Null => Zero(c)
    case Plain(v) => Some(v)
    case Text(Encoded(Some(d))) => Some(Json(Some(d)))
    case Text(_) => None
  }

  lemma ZeroColumns(c: Column)
    ensures c in ZERO_COLUMNS <==> Zero(c).Some?
  {
  }

  /** A new entity: plain fields are the zero of their type, and the others are nil. */
  lemma ZeroByKind(c: Column)
    ensures FieldOf(ZERO_FIELDS, c)
         == match ScanKind(c)
            case NullInt64 => if c in {ID, Concurrency, Priority} then Some(Int(0)) else None
            case NullFloat64 => Some(Float(0.0))
            case NullBool => Some(Bool(false))
            case NullTime => if c in {CreatedAt, UpdatedAt} then Some(Time(0)) else None
            case NullString => if c in {Name, Platform, Type, Status, QuotaDimension} then Some(Str("")) else None
            case ByteSlice => None
            case UnknownType => None
  {
    ZeroFields(c);
  }

  lemma ZeroFields(c: Column)
    ensures FieldOf(ZERO_FIELDS, c) == Zero(c)
  {
    ZeroColumns(c);
  }

  /** Assigning a cell to its own field: a repetition changes nothing. */
  lemma {:induction false} OwnColumn(f: Fields, c: Column, cell: Cell)
    requires !c.Unknown? && CellFits(c, cell)
    requires FieldOf(f, c) == Zero(c) || FieldOf(f, c) == Meaning(c, cell)
    ensures FieldOf(Assigned(f, c, Scanned(c, cell)), c) == Meaning(c, cell)
  {
    KindsAgree(c);
    if cell.Text? && cell.bytes.Encoded? && cell.bytes.doc.Some? {
      var d := cell.bytes.doc.value;
      assert map[] + d == d && d + d == d;
    }
  }

  lemma {:induction false} OnlyItsField(f: Fields, d: Column, s: Slot)
    ensures Assigned(f, d, s) - {d} == f - {d}
  {
    match s
    case Raw(Empty) =>
    case Raw(Malformed) =>
    case Raw(Encoded(None)) =>
    case Raw(Encoded(Some(_))) =>
    case Nullable(_, Some(v)) =>
    case Nullable(_, None) =>
  }

  lemma {:induction false} OtherColumn(f: Fields, c: Column, d: Column, s: Slot)
    requires c != d
    ensures FieldOf(Assigned(f, d, s), c) == FieldOf(f, c)
  {
    OnlyItsField(f, d, s);
    assert FieldOf(f, c) == FieldOf(f - {d}, c);
    assert FieldOf(Assigned(f, d, s), c) == FieldOf(Assigned(f, d, s) - {d}, c);
  }

  /** Decoding any selection of columns of a row, in any order and with repetitions, is projecting the row. */
  lemma {:induction false} DecodingIsProjection(row: StoredRow, columns: seq<Column>, slots: seq<Slot>, c: Column)
    requires |columns| <= |slots| && !c.Unknown?
    requires forall i :: 0 <= i < |columns| ==>
               CellFits(columns[i], CellOf(row, columns[i])) && slots[i] == Scanned(columns[i], CellOf(row, columns[i]))
    ensures FieldOf(AllAssigned(ZERO_FIELDS, columns, slots), c)
         == if c in columns then Meaning(c, CellOf(row, c)) else Zero(c)
  {
    if columns == [] {
      ZeroFields(c);
    } else {
      var k := |columns| - 1;
      DecodingIsProjection(row, columns[..k], slots, c);
      DecodingStep(row, AllAssigned(ZERO_FIELDS, columns[..k], slots), columns[k], c, c in columns[..k]);
      assert columns == columns[..k] + [columns[k]];
    }
  }

  lemma {:induction false} DecodingStep(row: StoredRow, before: Fields, d: Column, c: Column, seen: bool)
    requires !c.Unknown? && CellFits(d, CellOf(row, d))
    requires FieldOf(before, c) == if seen then Meaning(c, CellOf(row, c)) else Zero(c)
    ensures FieldOf(Assigned(before, d, Scanned(d, CellOf(row, d))), c)
         == if seen || d == c then Meaning(c, CellOf(row, c)) else Zero(c)
  {
    if d == c {
      OwnColumn(before, c, CellOf(row, c));
    } else {
      OtherColumn(before, c, d, Scanned(d, CellOf(row, d)));
    }
  }
}

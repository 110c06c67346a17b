/** The edges of an update mutation: how the setters record them, and what the record means when it is applied. */
module EdgeOps {
  import opened Wrappers

  // ---------- To-many edges ----------

  /** What a mutation records about a to-many edge. */
  datatype ToMany = ToMany(added: set<int>, removed: set<int>, cleared: bool)

  datatype ManyOp = Add(ids: seq<int>) | Remove(ids: seq<int>) | Clear | Reset

  function IDSet(ids: seq<int>): set<int> {
    set id | id in ids
  }

  const NO_CHANGES := ToMany({}, {}, false)

  function Recorded(e: ToMany, op: ManyOp): ToMany {
    match op
    case Add(ids) => e.(added := e.added + IDSet(ids))
    case Remove(ids) => e.(added := e.added - IDSet(ids), removed := e.removed + IDSet(ids))
    case Clear => e.(cleared := true)
    case Reset => NO_CHANGES
  }

  class ToManyEdge {
    var added: set<int>
    var removed: set<int>
    var cleared: bool

    function Snapshot(): ToMany
      reads this
    {
      ToMany(added, removed, cleared)
    }

    constructor ()
      ensures Snapshot() == NO_CHANGES
    {
      added, removed, cleared := {}, {}, false;
    }

    method AddIDs(ids: seq<int>)
      modifies this
      ensures Snapshot() == Recorded(old(Snapshot()), Add(ids))
    {
      for i := 0 to |ids|
        invariant Snapshot() == Recorded(old(Snapshot()), Add(ids[..i]))
      {
        added := added + {ids[i]};
      }
      assert ids[..|ids|] == ids;
    }

    method RemoveIDs(ids: seq<int>)
      modifies this
      ensures Snapshot() == Recorded(old(Snapshot()), Remove(ids))
    {
      for i := 0 to |ids|
        invariant Snapshot() == Recorded(old(Snapshot()), Remove(ids[..i]))
      {
        added := added - {ids[i]};
        removed := removed + {ids[i]};
      }
      assert ids[..|ids|] == ids;
    }

    method ClearAll()
      modifies this
      ensures Snapshot() == Recorded(old(Snapshot()), Clear)
    {
      cleared := true;
    }

    method ResetAll()
      modifies this
      ensures Snapshot() == Recorded(old(Snapshot()), Reset)
    {
      added, removed, cleared := {}, {}, false;
    }
  }

  function AllRecorded(ops: seq<ManyOp>): ToMany {
    if ops == [] then NO_CHANGES else Recorded(AllRecorded(ops[..|ops| - 1]), ops[|ops| - 1])
  }

  /** Operation `k` concerns id `x`, and every later one leaves what it did to `x` as it is. */
  ghost predicate LastsToMany(ops: seq<ManyOp>, k: nat, x: int) {
    k < |ops| && forall j :: k < j < |ops| ==> ops[j] != Reset && !(ops[k].Add? && ops[j].Remove? && x in ops[j].ids)
  }

  /** The record by the history: a reset forgets everything, a removal forgets an addition, and nothing else forgets anything. */
  lemma {:induction false} RecordByHistory(ops: seq<ManyOp>, x: int)
    ensures x in AllRecorded(ops).added <==> exists k: nat :: LastsToMany(ops, k, x) && ops[k].Add? && x in ops[k].ids
    ensures x in AllRecorded(ops).removed <==> exists k: nat :: LastsToMany(ops, k, x) && ops[k].Remove? && x in ops[k].ids
    ensures AllRecorded(ops).cleared <==> exists k: nat :: LastsToMany(ops, k, x) && ops[k].Clear?
  {
    if ops != [] {
      var front, n := ops[..|ops| - 1], |ops| - 1;
      RecordByHistory(front, x);
      assert LastsToMany(ops, n, x);
      forall k: nat | k < n
        ensures LastsToMany(ops, k, x)
           <==> LastsToMany(front, k, x) && ops[n] != Reset && !(ops[k].Add? && ops[n].Remove? && x in ops[n].ids)
      {
        assert forall j :: k < j < n ==> ops[j] == front[j];
      }
    }
  }

  /** The record, applied to the targets the edge had: clear, then add. */
  function Applied(e: ToMany, targets: set<int>): set<int> {
    (if e.cleared then {} else targets - e.removed) + e.added
  }

  /** What the operations say, one after the other. */
  function Meant(ops: seq<ManyOp>, targets: set<int>): set<int> {
    if ops == [] then targets
    else
      var before := Meant(ops[..|ops| - 1], targets);
      match ops[|ops| - 1]
      case Add(ids) => before + IDSet(ids)
      case Remove(ids) => before - IDSet(ids)
      case Clear => {}
      case Reset => targets
  }

  /** The ids that were pending when the edge was cleared, and were not added again, removed or reset since. */
  function Stale(ops: seq<ManyOp>): set<int> {
    if ops == [] then {}
    else
      var front := ops[..|ops| - 1];
      match ops[|ops| - 1]
      case Add(ids) => Stale(front) - IDSet(ids)
      case Remove(ids) => Stale(front) - IDSet(ids)
      case Clear => AllRecorded(front).added
      case Reset => {}
  }

  /** Clearing does not forget pending ids: applying the record adds exactly the stale ones to what the operations say. */
  lemma {:induction false} AppliedIsMeantAndStale(ops: seq<ManyOp>, targets: set<int>)
    ensures Applied(AllRecorded(ops), targets) == Meant(ops, targets) + Stale(ops)
    ensures Meant(ops, targets) !! Stale(ops)
    ensures Stale(ops) <= AllRecorded(ops).added
  {
    if ops != [] {
      AppliedIsMeantAndStale(ops[..|ops| - 1], targets);
    }
  }

  /** The record means what the operations say, whatever the targets were, exactly when no id is stale. */
  lemma {:induction false} FaithfulIffNotStale(ops: seq<ManyOp>)
    ensures (forall targets :: Applied(AllRecorded(ops), targets) == Meant(ops, targets)) <==> Stale(ops) == {}
  {
    forall targets
      ensures Applied(AllRecorded(ops), targets) == Meant(ops, targets) + Stale(ops) && Meant(ops, targets) !! Stale(ops)
    {
      AppliedIsMeantAndStale(ops, targets);
    }
    if Stale(ops) != {} {
      assert Applied(AllRecorded(ops), {}) != Meant(ops, {});
    }
  }

  /** For example, adding id 1 and then clearing the edge leaves id 1 on it. */
  lemma AddThenClear()
    ensures Applied(AllRecorded([Add([1]), Clear]), {}) == {1}
    ensures Meant([Add([1]), Clear], {}) == {}
  {
    var ops := [Add([1]), Clear];
    assert ops[..1] == [Add([1])] && ops[..1][..0] == [];
    assert AllRecorded(ops[..1]) == Recorded(NO_CHANGES, Add([1]));
    assert IDSet([1]) == {1};
  }

  // ---------- To-one edges ----------

  /** What a mutation records about a to-one edge, whose foreign key is also a field of the entity. */
  datatype ToOne = ToOne(id: Option<int>, clearedEdge: bool, clearedField: bool)

  datatype OneOp = SetID(id: int) | ClearField | ClearEdge | ResetField | ResetEdge

  predicate Cleared(e: ToOne) {
    e.clearedField || e.clearedEdge
  }

  const UNTOUCHED := ToOne(None, false, false)

  function OneRecorded(e: ToOne, op: OneOp): ToOne {
    match op
    case SetID(id) => e.(id := Some(id))
    case ClearField => e.(id := None, clearedField := true)
    case ClearEdge => e.(clearedEdge := true, clearedField := true)
    case ResetField => e.(id := None, clearedField := false)
    case ResetEdge => e.(id := None, clearedEdge := false)
  }

  class ToOneEdge {
    var id: Option<int>
    var clearedEdge: bool
    var clearedField: bool

    function Snapshot(): ToOne
      reads this
    {
      ToOne(id, clearedEdge, clearedField)
    }

    constructor ()
      ensures Snapshot() == UNTOUCHED
    {
      id, clearedEdge, clearedField := None, false, false;
    }

    method Set(id: int)
      modifies this
      ensures Snapshot() == OneRecorded(old(Snapshot()), SetID(id))
    {
      this.id := Some(id);
    }

    /** Clears through the foreign key field: the pending id is dropped. */
    method ClearKey()
      modifies this
      ensures Snapshot() == OneRecorded(old(Snapshot()), ClearField)
    {
      id := None;
      clearedField := true;
    }

    /** Clears through the edge: the pending id stays. */
    method Clear()
      modifies this
      ensures Snapshot() == OneRecorded(old(Snapshot()), ClearEdge)
    {
      clearedEdge := true;
      clearedField := true;
    }

    method ResetKey()
      modifies this
      ensures Snapshot() == OneRecorded(old(Snapshot()), ResetField)
    {
      id := None;
      clearedField := false;
    }

    method Reset()
      modifies this
      ensures Snapshot() == OneRecorded(old(Snapshot()), ResetEdge)
    {
      id := None;
      clearedEdge := false;
    }
  }

  function AllOneRecorded(ops: seq<OneOp>): ToOne {
    if ops == [] then UNTOUCHED else OneRecorded(AllOneRecorded(ops[..|ops| - 1]), ops[|ops| - 1])
  }

  /** Operation `k` sets the id, and only clears through the edge come after it. */
  ghost predicate SetsID(ops: seq<OneOp>, k: nat, x: int) {
    k < |ops| && ops[k] == SetID(x) && forall j :: k < j < |ops| ==> ops[j] == ClearEdge
  }

  /** Operation `k` raises the edge's flag, and no reset of the edge comes after it. */
  ghost predicate RaisesEdge(ops: seq<OneOp>, k: nat) {
    k < |ops| && ops[k] == ClearEdge && forall j :: k < j < |ops| ==> ops[j] != ResetEdge
  }

  /** Operation `k` raises the field's flag, and no reset of the field comes after it. */
  ghost predicate RaisesField(ops: seq<OneOp>, k: nat) {
    k < |ops| && (ops[k] == ClearField || ops[k] == ClearEdge) && forall j :: k < j < |ops| ==> ops[j] != ResetField
  }

  /** The record by the history: what sets, clears and resets the id and the two flags, and what leaves them. */
  lemma {:induction false} OneRecordByHistory(ops: seq<OneOp>, x: int)
    ensures AllOneRecorded(ops).id == Some(x) <==> exists k: nat :: SetsID(ops, k, x)
    ensures AllOneRecorded(ops).clearedEdge <==> exists k: nat :: RaisesEdge(ops, k)
    ensures AllOneRecorded(ops).clearedField <==> exists k: nat :: RaisesField(ops, k)
  {
    if ops != [] {
      var front, n := ops[..|ops| - 1], |ops| - 1;
      OneRecordByHistory(front, x);
      forall k: nat | k < n
        ensures SetsID(ops, k, x) <==> SetsID(front, k, x) && ops[n] == ClearEdge
        ensures RaisesEdge(ops, k) <==> RaisesEdge(front, k) && ops[n] != ResetEdge
        ensures RaisesField(ops, k) <==> RaisesField(front, k) && ops[n] != ResetField
      {
        assert forall j :: k <= j < n ==> ops[j] == front[j];
      }
      assert SetsID(ops, n, x) <==> ops[n] == SetID(x);
      assert RaisesEdge(ops, n) <==> ops[n] == ClearEdge;
      assert RaisesField(ops, n) <==> ops[n] == ClearField || ops[n] == ClearEdge;
    }
  }

  /** The record, applied to the target the edge had. */
  function OneApplied(e: ToOne, target: Option<int>): Option<int> {
    if e.id.Some? then e.id else if Cleared(e) then None else target
  }

  /** What the operations say: the last one decides. */
  function OneMeant(ops: seq<OneOp>, target: Option<int>): Option<int> {
    if ops == [] then target
    else
      match ops[|ops| - 1]
      case SetID(id) => Some(id)
      case ClearField | ClearEdge => None
      case ResetField | ResetEdge => target
  }

  /**
    The last operation finds the record in a state that it handles: clearing the edge wants no pending id, and resetting one of
    the two clear flags wants the other one down.
    */
  predicate Handled(ops: seq<OneOp>) {
    ops == [] ||
    var before := AllOneRecorded(ops[..|ops| - 1]);
    match ops[|ops| - 1]
    case SetID(_) => true
    case ClearField => true
    case ClearEdge => before.id == None
    case ResetField => !before.clearedEdge
    case ResetEdge => !before.clearedField
  }

  /** The record means what the operations say, whatever the target was, exactly when the last operation is handled. */
  lemma {:induction false} FaithfulIffHandled(ops: seq<OneOp>)
    ensures (forall target :: OneApplied(AllOneRecorded(ops), target) == OneMeant(ops, target)) <==> Handled(ops)
  {
    if !Handled(ops) {
      var target := Some(0);
      assert OneApplied(AllOneRecorded(ops), target) != OneMeant(ops, target);
    }
  }

  /** For example, setting id 1 and then clearing through the edge leaves id 1 on it. */
  lemma SetThenClear()
    ensures OneApplied(AllOneRecorded([SetID(1), ClearEdge]), None) == Some(1)
    ensures OneMeant([SetID(1), ClearEdge], None) == None
  {
    assert [SetID(1), ClearEdge][..1] == [SetID(1)] && [SetID(1)][..0] == [];
  }

  /** Clearing through the edge and then resetting either flag alone still clears the edge. */
  lemma ClearThenReset(reset: OneOp)
    requires reset == ResetField || reset == ResetEdge
    ensures OneApplied(AllOneRecorded([ClearEdge, reset]), Some(1)) == None
    ensures OneMeant([ClearEdge, reset], Some(1)) == Some(1)
  {
    assert [ClearEdge, reset][..1] == [ClearEdge] && [ClearEdge][..0] == [];
  }
}

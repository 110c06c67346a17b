/** Creating many accounts in one batch: a chain of mutators in which each one calls the next from inside itself. */
module BulkCreate {
  import opened Wrappers
  import opened AccountEntity
  import opened AccountCreate

  type Failure = Option<AccountCreate.Error>

  /**
    A hook either returns by itself, with an error or without, or edits the mutation and calls the next mutator once with it;
    then it passes the error of that call on, through `after`.
    */
  datatype Hook = Hook(stop: TypedMutation -> Option<Failure>, edit: TypedMutation -> TypedMutation, after: Failure -> Failure)

  /** What the database answers to a batch: an id per node where it reports one, or an error. */
  datatype Answer = Inserted(ids: nat -> Option<int>) | Refused(cause: AccountCreate.Error, constraint: bool)

  /** Everything a bulk create depends on: the hooks of each builder, the validators and the database. */
  datatype Bulk = Bulk(hooks: seq<seq<Hook>>, validators: Validators, db: seq<Option<Spec>> -> Answer)

  /** One call: hook `h` of builder `i`, or the builder's own mutator. */
  datatype Level = Wrap(i: nat, h: nat) | Core(i: nat)

  /** Calls, each made from inside the one before it; the batch is issued from inside the last. */
  datatype Chain = End | Call(level: Level, rest: Chain)

  datatype Event = Enter(level: Level) | Leave(level: Level) | Built(i: nat) | Batch(specs: seq<Option<Spec>>) | Mark(i: nat)

  /** What the mutators fill on the way down. */
  datatype Work = Work(mutations: seq<TypedMutation>, specs: seq<Option<Spec>>, nodes: seq<Option<Fields>>)

  datatype State = State(work: Work, ids: seq<Option<int>>, done: seq<bool>, trace: seq<Event>)

  function SpecOf(m: Mutation): Spec {
    Spec(FieldSpecs(m.fields, SPEC_ORDER), EdgeSpecs(m))
  }

  predicate Known(env: Bulk, l: Level) {
    l.i < |env.hooks| && (l.Wrap? ==> l.h < |env.hooks[l.i]|)
  }

  ghost predicate AllKnown(env: Bulk, chain: Chain) {
    chain.Call? ==> Known(env, chain.level) && AllKnown(env, chain.rest)
  }

  ghost predicate Fit(env: Bulk, w: Work) {
    |w.mutations| == |w.specs| == |w.nodes| == |env.hooks|
  }

  ghost predicate Sized(env: Bulk, s: State) {
    Fit(env, s.work) && |s.ids| == |s.done| == |env.hooks|
  }

  // ---------- The run of a chain ----------

  /** The calls from hook `h` of builder `i` on, hook 0 of each builder outermost. */
  ghost function ChainFrom(env: Bulk, i: nat, h: nat): (chain: Chain)
    requires i <= |env.hooks| && (i < |env.hooks| ==> h <= |env.hooks[i]|)
    ensures AllKnown(env, chain)
    decreases |env.hooks| - i, if i < |env.hooks| then |env.hooks[i]| - h else 0
  {
    if i == |env.hooks| then End
    else if h < |env.hooks[i]| then Call(Wrap(i, h), ChainFrom(env, i, h + 1))
    else Call(Core(i), ChainFrom(env, i + 1, 0))
  }

  /** The builder that comes after a call: a hook stays with its builder. */
  function After(l: Level): nat {
    if l.Wrap? then l.i else l.i + 1
  }

  /** The calls of builders i, i + 1, ..., n - 1 in turn, each builder's own mutator last. */
  predicate InOrder(chain: Chain, i: nat, n: nat) {
    if chain.Call? then chain.level.i == i < n && InOrder(chain.rest, After(chain.level), n) else i == n
  }

  lemma {:induction false} ChainInOrder(env: Bulk, i: nat, h: nat)
    requires i <= |env.hooks| && (i < |env.hooks| ==> h <= |env.hooks[i]|)
    ensures InOrder(ChainFrom(env, i, h), i, |env.hooks|)
    decreases |env.hooks| - i, if i < |env.hooks| then |env.hooks[i]| - h else 0
  {
    if i < |env.hooks| {
      if h < |env.hooks[i]| {
        ChainInOrder(env, i, h + 1);
      } else {
        ChainInOrder(env, i + 1, 0);
      }
    }
  }

  function CallAt(chain: Chain, k: nat): Option<Level> {
    match chain
    case End => None
    case Call(l, rest) => if k == 0 then Some(l) else CallAt(rest, k - 1)
  }

  /** Hook 0 of a builder is called first, the others follow in order, and the builder's own mutator comes last. */
  lemma {:induction false} HooksInOrder(env: Bulk, i: nat, h: nat, k: nat)
    requires i < |env.hooks| && h + k <= |env.hooks[i]|
    ensures CallAt(ChainFrom(env, i, h), k) == Some(if h + k < |env.hooks[i]| then Wrap(i, h + k) else Core(i))
    decreases k
  {
    if k > 0 {
      HooksInOrder(env, i, h + 1, k - 1);
    }
  }

  /** What a call returns without making the next one, if it does: the hook stops, or the builder does not pass its check. */
  function Blocked(env: Bulk, l: Level, w: Work): Option<Failure>
    requires Known(env, l) && Fit(env, w)
  {
    if l.Wrap? then env.hooks[l.i][l.h].stop(w.mutations[l.i])
    else
      var failure := CheckAll(env.validators, w.mutations[l.i].fields);
      if failure == None then None else Some(failure)
  }

  /** What a call does before it makes the next one: the hook edits, the builder makes its spec and its node. */
  function Opened(env: Bulk, l: Level, w: Work): (r: Work)
    requires Known(env, l) && Fit(env, w)
    ensures Fit(env, r)
  {
    var m := w.mutations[l.i];
    if l.Wrap? then w.(mutations := w.mutations[l.i := env.hooks[l.i][l.h].edit(m)])
    else w.(specs := w.specs[l.i := Some(SpecOf(m))], nodes := w.nodes[l.i := Some(NodeOf(m))])
  }

  function BatchError(a: Answer): Failure {
    match a
    case Inserted(_) => None
    case Refused(cause, constraint) => Some(if constraint then Constraint(cause) else cause)
  }

  /** What a call returns when the call it makes returns `e`. */
  function Passed(env: Bulk, l: Level, e: Failure): Failure
    requires Known(env, l)
  {
    if l.Wrap? then env.hooks[l.i][l.h].after(e) else e
  }

  function Open(l: Level): seq<Event> {
    if l.Wrap? then [Enter(l)] else [Enter(l), Built(l.i)]
  }

  /** A builder is marked when the call it made returned no error. */
  function Close(l: Level, e: Failure): seq<Event> {
    if l.Core? && e == None then [Mark(l.i), Leave(l)] else [Leave(l)]
  }

  /** A run: the work where the chain turns round, whether it reached the batch, the error it returns, and its events. */
  datatype Run = Run(bottom: Work, reached: bool, outcome: Failure, trace: seq<Event>)

  function Around(env: Bulk, l: Level, r: Run): Run
    requires Known(env, l)
  {
    Run(r.bottom, r.reached, Passed(env, l, r.outcome), Open(l) + r.trace + Close(l, r.outcome))
  }

  ghost function RunOf(env: Bulk, chain: Chain, w: Work): (r: Run)
    requires AllKnown(env, chain) && Fit(env, w)
    ensures Fit(env, r.bottom)
    decreases chain
  {
    match chain
    case End => Run(w, true, BatchError(env.db(w.specs)), [Batch(w.specs)])
    case Call(l, rest) =>
      if Blocked(env, l, w).Some? then Run(w, false, Blocked(env, l, w).value, [Enter(l), Leave(l)])
      else Around(env, l, RunOf(env, rest, Opened(env, l, w)))
  }

  /** The run of a whole save. */
  ghost function FullRun(env: Bulk, w: Work): Run
    requires Fit(env, w)
  {
    RunOf(env, ChainFrom(env, 0, 0), w)
  }

  function WithID(node: Option<Fields>, id: Option<int>): Option<Fields> {
    if node.Some? && id.Some? then Some(node.value[ID := Int(id.value)]) else node
  }

  function IDs(a: Answer, ids: seq<Option<int>>): seq<Option<int>> {
    if a.Inserted? then seq(|ids|, i requires 0 <= i => a.ids(i)) else ids
  }

  /** What a run does to the state, and what it returns. */
  ghost predicate Ran(env: Bulk, run: Run, before: State, after: State, err: Failure)
    requires Fit(env, run.bottom) && Sized(env, before)
  {
    && Sized(env, after)
    && err == run.outcome
    && after.trace == before.trace + run.trace
    && after.work.mutations == run.bottom.mutations
    && after.work.specs == run.bottom.specs
    && after.ids == (if run.reached then IDs(env.db(run.bottom.specs), before.ids) else before.ids)
    && forall j: nat :: j < |env.hooks| ==> Filled(Mark(j) in run.trace, run.bottom.nodes[j], before.done[j], after, j)
  }

  /** A builder that was marked is done, and its node has the id from the batch. */
  ghost predicate Filled(marked: bool, node: Option<Fields>, done: bool, after: State, j: nat)
    requires j < |after.done| && j < |after.work.nodes| && j < |after.ids|
  {
    && after.done[j] == (done || marked)
    && after.work.nodes[j] == if marked then WithID(node, after.ids[j]) else node
  }

  class AccountCreateBulk {
    const err: Failure
    const env: Bulk
    var mutations: seq<TypedMutation>
    var specs: seq<Option<Spec>>
    var nodes: seq<Option<Fields>>
    var ids: seq<Option<int>>  // the ids that the batch has put into the specs
    var done: seq<bool>
    ghost var trace: seq<Event>

    ghost function Snapshot(): State
      reads this
    {
      State(Work(mutations, specs, nodes), ids, done, trace)
    }

    constructor (env: Bulk, mutations: seq<TypedMutation>, err: Failure)
      requires |mutations| == |env.hooks|
      ensures this.env == env && this.mutations == mutations && this.err == err
      ensures Sized(env, Snapshot()) && trace == []
      ensures forall i :: 0 <= i < |done| ==> !done[i]
    {
      this.env, this.mutations, this.err := env, mutations, err;
      specs, nodes := seq(|mutations|, _ => None), seq(|mutations|, _ => None);
      ids, done := seq(|mutations|, _ => None), seq(|mutations|, _ => false);
      trace := [];
    }

    /** Saves all builders in one batch, from inside the chain of their mutators. */
    method Save(rt: Runtime) returns (saved: Option<seq<Option<Fields>>>, failure: Failure)
      requires Sized(env, Snapshot())
      modifies this
      ensures Sized(env, Snapshot())
      ensures saved == if failure == None then Some(nodes) else None
      ensures err.Some? ==> failure == err && Snapshot() == old(Snapshot())
      ensures err == None ==> exists ms :: AllDefaulted(rt, old(mutations), ms) && |ms| == |env.hooks|
                                           && Saved(env, Started(env, ms, old(done), old(trace)), Snapshot(), failure)
    {
      if err.Some? {
        return None, err;
      }
      specs, nodes := seq(|env.hooks|, _ => None), seq(|env.hooks|, _ => None);
      ids := seq(|env.hooks|, _ => None);
      for i := 0 to |env.hooks|
        invariant |mutations| == |env.hooks|
        invariant forall j :: 0 <= j < i ==> Defaulted(rt, old(mutations)[j], mutations[j])
        invariant forall j :: i <= j < |env.hooks| ==> mutations[j] == old(mutations)[j]
        invariant Snapshot() == Started(env, mutations, old(done), old(trace))
      {
        SetDefaults(rt, i);
      }
      failure := None;
      ghost var ms := mutations;
      if |env.hooks| > 0 {
        failure := Mutate(0, 0);
      }
      assert Saved(env, Started(env, ms, old(done), old(trace)), Snapshot(), failure);
      saved := if failure == None then Some(nodes) else None;
    }

    /** Gives builder `i` its defaults. The error, if any, is dropped. */
    method SetDefaults(rt: Runtime, i: nat)
      requires i < |mutations|
      modifies this`mutations
      ensures |mutations| == |old(mutations)|
      ensures Defaulted(rt, old(mutations)[i], mutations[i])
      ensures forall j :: 0 <= j < |mutations| && j != i ==> mutations[j] == old(mutations)[j]
    {
      var builder := new Builder(mutations[i]);
      var _ := builder.Defaults(rt);
      DefaultsAreTyped(rt, mutations[i], builder.mutation);
      mutations := mutations[i := builder.mutation];
    }

    /** Calls hook `h` of builder `i`, or the builder's own mutator after its last hook. */
    method Mutate(i: nat, h: nat) returns (err: Failure)
      requires Sized(env, Snapshot()) && i < |env.hooks| && h <= |env.hooks[i]|
      modifies this
      ensures Ran(env, RunOf(env, ChainFrom(env, i, h), old(Snapshot()).work), old(Snapshot()), Snapshot(), err)
      decreases |env.hooks| - i, |env.hooks[i]| - h, 1
    {
      if h < |env.hooks[i]| {
        err := Wrapped(i, h);
      } else {
        err := Create(i);
      }
    }

    method Wrapped(i: nat, h: nat) returns (err: Failure)
      requires Sized(env, Snapshot()) && i < |env.hooks| && h < |env.hooks[i]|
      modifies this
      ensures Ran(env, RunOf(env, ChainFrom(env, i, h), old(Snapshot()).work), old(Snapshot()), Snapshot(), err)
      decreases |env.hooks| - i, |env.hooks[i]| - h, 0
    {
      var hook := env.hooks[i][h];
      trace := trace + [Enter(Wrap(i, h))];
      var stopped := hook.stop(mutations[i]);
      if stopped == None {
        mutations := mutations[i := hook.edit(mutations[i])];
        ghost var inside := Snapshot();
        err := Mutate(i, h + 1);
        ghost var below, came := Snapshot(), err;
        err := hook.after(err);
        trace := trace + [Leave(Wrap(i, h))];
        RanAround(env, Wrap(i, h), RunOf(env, ChainFrom(env, i, h + 1), inside.work), old(Snapshot()), inside, below, came);
      } else {
        err := stopped.value;
        trace := trace + [Leave(Wrap(i, h))];
      }
    }

    /** The builder's own mutator: check, make the spec and the node, call the next mutator or the batch, mark as done. */
    method Create(i: nat) returns (err: Failure)
      requires Sized(env, Snapshot()) && i < |env.hooks|
      modifies this
      ensures Ran(env, RunOf(env, ChainFrom(env, i, |env.hooks[i]|), old(Snapshot()).work), old(Snapshot()), Snapshot(), err)
      decreases |env.hooks| - i, 0, 0
    {
      err := CheckAll(env.validators, mutations[i].fields);
      if err.Some? {
        trace := trace + [Enter(Core(i)), Leave(Core(i))];
        return;
      }
      Build(i);
      ghost var inside := Snapshot();
      err := Next(i);
      ghost var below := Snapshot();
      Finish(i, err);
      RanAround(env, Core(i), RunOf(env, ChainFrom(env, i + 1, 0), inside.work), old(Snapshot()), inside, below, err);
    }

    method Build(i: nat)
      requires Sized(env, Snapshot()) && i < |env.hooks|
      modifies this
      ensures Snapshot() == old(Snapshot()).(work := Opened(env, Core(i), old(Snapshot()).work), trace := old(trace) + Open(Core(i)))
    {
      var builder := new Builder(mutations[i]);
      var node, spec := builder.CreateSpec();
      nodes, specs := nodes[i := Some(node)], specs[i := Some(spec)];
      trace := trace + [Enter(Core(i)), Built(i)];
    }

    /** Calls the mutator of the next builder; the last builder issues the batch. */
    method Next(i: nat) returns (err: Failure)
      requires Sized(env, Snapshot()) && i < |env.hooks|
      modifies this
      ensures Ran(env, RunOf(env, ChainFrom(env, i + 1, 0), old(Snapshot()).work), old(Snapshot()), Snapshot(), err)
      decreases |env.hooks| - i - 1, if i + 1 < |env.hooks| then |env.hooks[i + 1]| else 0, 2
    {
      if i + 1 < |env.hooks| {
        err := Mutate(i + 1, 0);
      } else {
        err := BatchCreate();
      }
    }

    /** Marks the builder as done, with the id from the batch, unless the call it made returned an error. */
    method Finish(i: nat, err: Failure)
      requires Sized(env, Snapshot()) && i < |env.hooks|
      modifies this
      ensures Snapshot() == Closed(env, Core(i), old(Snapshot()), err)
    {
      if err == None {
        nodes := nodes[i := WithID(nodes[i], ids[i])];
        done := done[i := true];
        trace := trace + [Mark(i)];
      }
      trace := trace + [Leave(Core(i))];
    }

    /** Issues the batch with the specs as they are. */
    method BatchCreate() returns (err: Failure)
      requires Sized(env, Snapshot())
      modifies this
      ensures Ran(env, RunOf(env, End, old(Snapshot()).work), old(Snapshot()), Snapshot(), err)
    {
      var answer := env.db(specs);
      trace := trace + [Batch(specs)];
      ids := IDs(answer, ids);
      err := BatchError(answer);
    }
  }

  /** The state in which the first mutator is called. */
  ghost function Started(env: Bulk, mutations: seq<TypedMutation>, done: seq<bool>, trace: seq<Event>): State {
    var n := |env.hooks|;
    State(Work(mutations, seq(n, _ => None), seq(n, _ => None)), seq(n, _ => None), done, trace)
  }

  /** What a save does: it runs the whole chain, unless there are no builders. */
  ghost predicate Saved(env: Bulk, before: State, after: State, err: Failure)
    requires Sized(env, before)
  {
    if env.hooks == [] then err == None && after == before
    else Ran(env, FullRun(env, before.work), before, after, err)
  }

  ghost predicate Defaulted(rt: Runtime, before: Mutation, after: Mutation) {
    && after == before.(fields := after.fields)
    && exists err, k :: DefaultedUpTo(rt, before.fields, after.fields, err, k)
  }

  ghost predicate AllDefaulted(rt: Runtime, before: seq<TypedMutation>, after: seq<TypedMutation>) {
    |before| == |after| && forall i :: 0 <= i < |before| ==> Defaulted(rt, before[i], after[i])
  }

  lemma DefaultsAreTyped(rt: Runtime, before: TypedMutation, after: Mutation)
    requires Defaulted(rt, before, after)
    ensures WellTyped(after)
  {
    forall c | c in after.fields
      ensures Settable(c) && Fits(after.fields[c], ScanKind(c))
    {
      if c !in before.fields {
        DefaultFits(rt, c);
      }
    }
  }

  lemma DefaultFits(rt: Runtime, c: Column)
    requires Default(rt, c).Some?
    ensures Settable(c) && Fits(Default(rt, c).value, ScanKind(c))
  {
  }

  ghost function Closed(env: Bulk, l: Level, s: State, e: Failure): (r: State)
    requires Sized(env, s) && Known(env, l)
    ensures Sized(env, r)
  {
    if l.Core? && e == None then
      State(s.work.(nodes := s.work.nodes[l.i := WithID(s.work.nodes[l.i], s.ids[l.i])]), s.ids, s.done[l.i := true],
            s.trace + Close(l, e))
    else s.(trace := s.trace + Close(l, e))
  }

  /** A call around a run. */
  lemma {:induction false} RanAround(env: Bulk, l: Level, run: Run, before: State, inside: State, below: State, came: Failure)
    requires Known(env, l) && Fit(env, run.bottom) && Sized(env, before) && Sized(env, inside) && Sized(env, below)
    requires inside == State(inside.work, before.ids, before.done, before.trace + Open(l))
    requires Ran(env, run, inside, below, came)
    ensures Ran(env, Around(env, l, run), before, Closed(env, l, below, came), Passed(env, l, came))
  {
    assert before.trace + Open(l) + run.trace + Close(l, came) == before.trace + (Open(l) + run.trace + Close(l, came));
    forall j: nat | j < |env.hooks|
      ensures Filled(Mark(j) in Around(env, l, run).trace, run.bottom.nodes[j], before.done[j], Closed(env, l, below, came), j)
    {
      MarkedAround(l, run.trace, came, j);
      FilledAround(env, l, below, came, Mark(j) in run.trace, run.bottom.nodes[j], before.done[j], j);
    }
  }

  lemma {:induction false} MarkedAround(l: Level, rest: seq<Event>, e: Failure, j: nat)
    ensures Mark(j) in Open(l) + rest + Close(l, e) <==> Mark(j) in rest || (l == Core(j) && e == None)
  {
  }

  lemma {:induction false} FilledAround(env: Bulk, l: Level, below: State, came: Failure, marked: bool, node: Option<Fields>,
                                        done: bool, j: nat)
    requires Sized(env, below) && Known(env, l) && j < |env.hooks| && Filled(marked, node, done, below, j)
    ensures Filled(marked || (l == Core(j) && came == None), node, done, Closed(env, l, below, came), j)
  {
    var id := below.ids[j];
    if node.Some? && id.Some? {
      assert node.value[ID := Int(id.value)][ID := Int(id.value)] == node.value[ID := Int(id.value)];
    }
  }

  // ---------- Nesting ----------

  /** A place in a chain: the open calls, innermost first, and the calls still to be made. */
  datatype Place = Place(open: Chain, next: Chain)

  /**
    One event of a perfectly nested trace. A call opens inside the call before it in the chain, and only the innermost open call
    closes; a builder is built and marked while its own mutator is innermost; the batch is issued while the whole chain is open.
    */
  function Moved(p: Place, e: Event): Option<Place> {
    match e
    case Enter(l) => if p.next.Call? && p.next.level == l then Some(Place(Call(l, p.open), p.next.rest)) else None
    case Leave(l) => if p.open.Call? && p.open.level == l then Some(Place(p.open.rest, Call(l, p.next))) else None
    case Built(i) => if p.open.Call? && p.open.level == Core(i) then Some(p) else None
    case Mark(i) => if p.open.Call? && p.open.level == Core(i) then Some(p) else None
    case Batch(_) => if p.next == End then Some(p) else None
  }

  function Replay(p: Place, t: seq<Event>): Option<Place>
    decreases |t|
  {
    if t == [] then Some(p)
    else if Moved(p, t[0]) == None then None
    else Replay(Moved(p, t[0]).value, t[1..])
  }

  lemma {:induction false} ReplayTwo(p: Place, t: seq<Event>, u: seq<Event>)
    ensures Replay(p, t + u) == if Replay(p, t) == None then None else Replay(Replay(p, t).value, u)
    decreases |t|
  {
    if t == [] {
      assert t + u == u;
    } else {
      assert (t + u)[1..] == t[1..] + u;
      if Moved(p, t[0]).Some? {
        ReplayTwo(Moved(p, t[0]).value, t[1..], u);
      }
    }
  }

  lemma ReplayPair(p: Place, e: Event, f: Event)
    ensures Replay(p, [e, f]) == if Moved(p, e) == None then None else Moved(Moved(p, e).value, f)
  {
    assert [e, f][1..] == [f];
    assert forall q :: Replay(q, [f]) == Moved(q, f);
  }

  lemma {:induction false} ReplayOpenClose(p: Place, e: Failure)
    requires p.next.Call?
    ensures var l := p.next.level;
            var inside := Place(Call(l, p.open), p.next.rest);
            Replay(p, Open(l)) == Some(inside) && Replay(inside, Close(l, e)) == Some(p)
  {
    var l := p.next.level;
    ReplayPair(p, Enter(l), Built(l.i));
    ReplayPair(Place(Call(l, p.open), p.next.rest), Mark(l.i), Leave(l));
  }

  /** The events of a run are perfectly nested, for any hooks, and end where they started. */
  lemma {:induction false} Nested(env: Bulk, chain: Chain, open: Chain, w: Work)
    requires AllKnown(env, chain) && Fit(env, w)
    ensures Replay(Place(open, chain), RunOf(env, chain, w).trace) == Some(Place(open, chain))
    decreases chain
  {
    var p := Place(open, chain);
    match chain
    case End =>
      assert RunOf(env, chain, w).trace[1..] == [];
    case Call(l, rest) =>
      if Blocked(env, l, w).Some? {
        ReplayPair(p, Enter(l), Leave(l));
      } else {
        var run := RunOf(env, rest, Opened(env, l, w));
        Nested(env, rest, Call(l, open), Opened(env, l, w));
        ReplayOpenClose(p, run.outcome);
        ReplayTwo(p, Open(l) + run.trace, Close(l, run.outcome));
        ReplayTwo(p, Open(l), run.trace);
      }
  }

  // ---------- One batch, after all checks ----------

  /** The builders that make their specs, in order. */
  ghost function Builders(t: seq<Event>): seq<nat> {
    if t == [] then [] else (if t[0].Built? then [t[0].i] else []) + Builders(t[1..])
  }

  /** i, i + 1, ..., n - 1. */
  ghost function Indices(i: nat, n: nat): seq<nat>
    requires i <= n
    decreases n - i
  {
    if i == n then [] else [i] + Indices(i + 1, n)
  }

  lemma {:induction false} BuildersOpen(l: Level, t: seq<Event>)
    ensures Builders(Open(l) + t) == (if l.Core? then [l.i] else []) + Builders(t)
  {
    if l.Core? {
      assert Open(l) + t == [Enter(l)] + ([Built(l.i)] + t);
      assert ([Built(l.i)] + t)[1..] == t && (Open(l) + t)[1..] == [Built(l.i)] + t;
    } else {
      assert (Open(l) + t)[1..] == t;
    }
  }

  /**
    Either there is no batch, or the events come down to it: `front` makes the specs of all builders from `i` on, and `back`
    only returns and marks.
    */
  ghost predicate BatchBetween(run: Run, front: seq<Event>, back: seq<Event>, i: nat, n: nat) {
    if !run.reached then forall e :: e in run.trace ==> !e.Batch?
    else
      && i <= n
      && run.trace == front + [Batch(run.bottom.specs)] + back
      && (forall e :: e in front ==> e.Enter? || e.Built?)
      && (forall e :: e in back ==> e.Leave? || e.Mark?)
      && Builders(front) == Indices(i, n)
  }

  lemma {:induction false} ReachesBatch(env: Bulk, chain: Chain, i: nat, w: Work) returns (front: seq<Event>, back: seq<Event>)
    requires AllKnown(env, chain) && InOrder(chain, i, |env.hooks|) && Fit(env, w)
    ensures BatchBetween(RunOf(env, chain, w), front, back, i, |env.hooks|)
    decreases chain
  {
    front, back := [], [];
    if chain.Call? && Blocked(env, chain.level, w) == None {
      var l := chain.level;
      var run := RunOf(env, chain.rest, Opened(env, l, w));
      front, back := ReachesBatch(env, chain.rest, After(l), Opened(env, l, w));
      BatchAround(env, l, run, front, back, |env.hooks|);
      front, back := Open(l) + front, back + Close(l, run.outcome);
    }
  }

  lemma {:induction false} BatchAround(env: Bulk, l: Level, run: Run, front: seq<Event>, back: seq<Event>, n: nat)
    requires Known(env, l) && l.i < n && BatchBetween(run, front, back, After(l), n)
    ensures BatchBetween(Around(env, l, run), Open(l) + front, back + Close(l, run.outcome), l.i, n)
  {
    BuildersOpen(l, front);
    if run.reached {
      assert Around(env, l, run).trace == Open(l) + front + [Batch(run.bottom.specs)] + (back + Close(l, run.outcome));
    }
  }

  /** Builder `j` has passed its check, and its spec and node are those of its mutation. */
  ghost predicate BuiltAt(env: Bulk, w: Work, j: nat) {
    && j < |w.mutations| && j < |w.specs| && j < |w.nodes|
    && CheckAll(env.validators, w.mutations[j].fields) == None
    && w.specs[j] == Some(SpecOf(w.mutations[j]))
    && w.nodes[j] == Some(NodeOf(w.mutations[j]))
  }

  ghost predicate SameAt(v: Work, w: Work, j: nat) {
    && j < |v.mutations| && j < |w.mutations| && v.mutations[j] == w.mutations[j]
    && j < |v.specs| && j < |w.specs| && v.specs[j] == w.specs[j]
    && j < |v.nodes| && j < |w.nodes| && v.nodes[j] == w.nodes[j]
  }

  /** When the chain reaches the batch, every builder has passed its check and has its spec in its own place. */
  lemma {:induction false} AllFilled(env: Bulk, chain: Chain, i: nat, w: Work, j: nat)
    requires AllKnown(env, chain) && InOrder(chain, i, |env.hooks|) && Fit(env, w) && j < |env.hooks|
    ensures var run := RunOf(env, chain, w);
            run.reached ==> if j < i then SameAt(w, run.bottom, j) else BuiltAt(env, run.bottom, j)
    decreases chain
  {
    if chain.Call? && Blocked(env, chain.level, w) == None {
      AllFilled(env, chain.rest, After(chain.level), Opened(env, chain.level, w), j);
    }
  }

  /** A batch in the trace of a save is the only one, comes after all specs were made in index order, and carries all of them. */
  lemma {:induction false} BatchOnce(env: Bulk, w: Work, q: nat)
    requires Fit(env, w) && q < |FullRun(env, w).trace| && FullRun(env, w).trace[q].Batch?
    ensures var run := FullRun(env, w);
            && run.reached
            && (forall r :: 0 <= r < |run.trace| && run.trace[r].Batch? ==> r == q)
            && Builders(run.trace[..q]) == Indices(0, |env.hooks|)
            && run.trace[q].specs == run.bottom.specs
            && forall j: nat :: j < |env.hooks| ==> BuiltAt(env, run.bottom, j)
  {
    var run := FullRun(env, w);
    ChainInOrder(env, 0, 0);
    var front, back := ReachesBatch(env, ChainFrom(env, 0, 0), 0, w);
    assert run.trace[q] in run.trace;
    OnlyBatch(run, front, back, |env.hooks|, q);
    forall j: nat | j < |env.hooks|
      ensures BuiltAt(env, run.bottom, j)
    {
      AllFilled(env, ChainFrom(env, 0, 0), 0, w, j);
    }
  }

  lemma {:induction false} OnlyBatch(run: Run, front: seq<Event>, back: seq<Event>, n: nat, q: nat)
    requires run.reached && BatchBetween(run, front, back, 0, n) && q < |run.trace| && run.trace[q].Batch?
    ensures forall r :: 0 <= r < |run.trace| && run.trace[r].Batch? ==> r == q
    ensures run.trace[..q] == front && run.trace[q] == Batch(run.bottom.specs)
  {
    var t := run.trace;
    forall r | 0 <= r < |t| && r != |front|
      ensures !t[r].Batch?
    {
      if r < |front| {
        assert t[r] == front[r] && front[r] in front;
      } else {
        assert t[r] == back[r - |front| - 1] && t[r] in back;
      }
    }
  }

  // ---------- Marks ----------

  /** No hook turns an error into success, or reports success by itself. */
  ghost predicate Propagates(env: Bulk) {
    && (forall i: nat, h: nat, e :: i < |env.hooks| && h < |env.hooks[i]| && e != None ==> env.hooks[i][h].after(e) != None)
    && (forall i: nat, h: nat, m :: i < |env.hooks| && h < |env.hooks[i]| ==> env.hooks[i][h].stop(m) != Some(None))
  }

  /** The chain is stopped, or turns round with the error of the batch. */
  ghost predicate Failed(env: Bulk, run: Run) {
    !run.reached || env.db(run.bottom.specs).Refused?
  }

  /** The marks that a run makes, as far as builder `j` goes: all from `i` on without an error, none after a failure. */
  ghost predicate MarksFit(env: Bulk, run: Run, i: nat, j: nat) {
    && (Failed(env, run) ==> run.outcome != None && Mark(j) !in run.trace)
    && (run.outcome == None && i <= j < |env.hooks| ==> Mark(j) in run.trace)
    && (Mark(j) in run.trace ==> i <= j < |env.hooks|)
  }

  lemma {:induction false} AllOrNone(env: Bulk, chain: Chain, i: nat, w: Work, j: nat)
    requires AllKnown(env, chain) && InOrder(chain, i, |env.hooks|) && Fit(env, w) && Propagates(env)
    ensures MarksFit(env, RunOf(env, chain, w), i, j)
    decreases chain
  {
    if chain.Call? && Blocked(env, chain.level, w) == None {
      var run := RunOf(env, chain.rest, Opened(env, chain.level, w));
      AllOrNone(env, chain.rest, After(chain.level), Opened(env, chain.level, w), j);
      MarkedAround(chain.level, run.trace, run.outcome, j);
    }
  }

  /** Among the first `q` events, builder `j` is marked only if the builder after it is. */
  ghost predicate SuffixAt(t: seq<Event>, q: nat, j: nat) {
    q <= |t| ==> Mark(j) in t[..q] ==> Mark(j + 1) in t[..q]
  }

  /** After any number of events of a run, the builders marked so far are the last ones of the list. */
  lemma {:induction false} MarkedSuffix(env: Bulk, chain: Chain, i: nat, w: Work, q: nat, j: nat)
    requires AllKnown(env, chain) && InOrder(chain, i, |env.hooks|) && Fit(env, w) && Propagates(env)
    requires j + 1 < |env.hooks|
    ensures SuffixAt(RunOf(env, chain, w).trace, q, j)
    decreases chain, 1
  {
    if chain.Call? && Blocked(env, chain.level, w) == None {
      SuffixStep(env, chain.level, chain.rest, Opened(env, chain.level, w), q, j);
    } else {
      NoMarks(RunOf(env, chain, w).trace, q, j);
    }
  }

  lemma {:induction false} SuffixStep(env: Bulk, l: Level, rest: Chain, inside: Work, q: nat, j: nat)
    requires Known(env, l) && AllKnown(env, rest) && InOrder(rest, After(l), |env.hooks|) && Fit(env, inside) && Propagates(env)
    requires j + 1 < |env.hooks|
    ensures SuffixAt(Around(env, l, RunOf(env, rest, inside)).trace, q, j)
    decreases rest, 2
  {
    var run := RunOf(env, rest, inside);
    MarkedSuffix(env, rest, After(l), inside, Within(q, |Open(l)|, |run.trace|), j);
    if l == Core(j) {
      MarkedIfPassed(env, rest, inside, j + 1);
    }
    SuffixAround(env, l, run, q, j);
  }

  lemma {:induction false} MarkedIfPassed(env: Bulk, chain: Chain, w: Work, j: nat)
    requires AllKnown(env, chain) && InOrder(chain, j, |env.hooks|) && Fit(env, w) && Propagates(env) && j < |env.hooks|
    ensures RunOf(env, chain, w).outcome == None ==> Mark(j) in RunOf(env, chain, w).trace
  {
    AllOrNone(env, chain, j, w, j);
  }

  lemma {:induction false} NoMarks(t: seq<Event>, q: nat, j: nat)
    requires Mark(j) !in t
    ensures SuffixAt(t, q, j)
  {
  }

  lemma {:induction false} SuffixAround(env: Bulk, l: Level, run: Run, q: nat, j: nat)
    requires Known(env, l) && (l == Core(j) && run.outcome == None ==> Mark(j + 1) in run.trace)
    requires SuffixAt(run.trace, Within(q, |Open(l)|, |run.trace|), j)
    ensures SuffixAt(Around(env, l, run).trace, q, j)
  {
    if q <= |Around(env, l, run).trace| {
      PrefixMarks(Open(l), run.trace, Close(l, run.outcome), q, j);
      PrefixMarks(Open(l), run.trace, Close(l, run.outcome), q, j + 1);
      assert run.trace[..|run.trace|] == run.trace;
    }
  }

  /** How many of the first `q` events fall into the middle one of three parts. */
  function Within(q: nat, before: nat, middle: nat): (r: nat)
    ensures r <= middle
  {
    if q < before then 0 else if q - before <= middle then q - before else middle
  }

  lemma {:induction false} PrefixMarks(open: seq<Event>, rest: seq<Event>, close: seq<Event>, q: nat, j: nat)
    requires q <= |open + rest + close| && Mark(j) !in open
    ensures Mark(j) in (open + rest + close)[..q]
       <==> Mark(j) in rest[..Within(q, |open|, |rest|)]
            || (q > |open| + |rest| && Mark(j) in close[..q - |open| - |rest|])
  {
    var t, r := (open + rest + close)[..q], Within(q, |open|, |rest|);
    if q <= |open| {
      assert t == open[..q];
    } else if q <= |open| + |rest| {
      assert t == open + rest[..r];
    } else {
      assert t == open + rest[..r] + close[..q - |open| - |rest|];
    }
  }

  // ---------- Whole saves ----------

  /** Without an error, the batch went through, and every builder is done, with the node of its mutation and the id of its row. */
  lemma {:induction false} SaveSucceeds(env: Bulk, before: State, after: State, j: nat)
    requires Sized(env, before) && Propagates(env) && j < |env.hooks|
    requires Saved(env, before, after, None)
    ensures env.db(after.work.specs).Inserted? && after.done[j]
    ensures CheckAll(env.validators, after.work.mutations[j].fields) == None
    ensures after.work.specs[j] == Some(SpecOf(after.work.mutations[j]))
    ensures after.work.nodes[j] == WithID(Some(NodeOf(after.work.mutations[j])), env.db(after.work.specs).ids(j))
  {
    ChainInOrder(env, 0, 0);
    AllOrNone(env, ChainFrom(env, 0, 0), 0, before.work, j);
    AllFilled(env, ChainFrom(env, 0, 0), 0, before.work, j);
    var run := FullRun(env, before.work);
    assert Filled(Mark(j) in run.trace, run.bottom.nodes[j], before.done[j], after, j);
  }

  /** When a hook or a check stops the chain, or the batch fails, the save fails and no builder is marked. */
  lemma {:induction false} SaveFails(env: Bulk, before: State, after: State, err: Failure)
    requires env.hooks != [] && Sized(env, before) && Propagates(env)
    requires Saved(env, before, after, err) && Failed(env, FullRun(env, before.work))
    ensures err != None && after.done == before.done
  {
    ChainInOrder(env, 0, 0);
    AllOrNone(env, ChainFrom(env, 0, 0), 0, before.work, 0);
    var run := FullRun(env, before.work);
    forall j | 0 <= j < |env.hooks|
      ensures after.done[j] == before.done[j]
    {
      AllOrNone(env, ChainFrom(env, 0, 0), 0, before.work, j);
      assert Filled(Mark(j) in run.trace, run.bottom.nodes[j], before.done[j], after, j);
    }
  }

  /** No batched spec lacks a required field, whatever the defaults did: each has passed its own check. */
  lemma {:induction false} BatchedSpecsAreComplete(env: Bulk, w: Work, q: nat, j: nat, c: Column)
    requires Fit(env, w) && j < |env.hooks| && c in REQUIRED
    requires q < |FullRun(env, w).trace| && FullRun(env, w).trace[q].Batch?
    ensures var specs := FullRun(env, w).trace[q].specs;
            && j < |specs| && specs[j].Some?
            && exists x :: x in specs[j].value.fields && x.column == c && Validates(env.validators, c, x.value)
  {
    BatchOnce(env, w, q);
    var bottom := FullRun(env, w).bottom;
    assert BuiltAt(env, bottom, j);
    HoldsRequired(env.validators, bottom.mutations[j], c);
  }

  lemma {:induction false} HoldsRequired(v: Validators, m: TypedMutation, c: Column)
    requires CheckAll(v, m.fields) == None && c in REQUIRED
    ensures exists x :: x in SpecOf(m).fields && x.column == c && Validates(v, c, x.value)
  {
    CheckAccepts(v, m.fields);
    SettableInOrder(c);
    var x := FieldSpec(c, m.fields[c]);
    SpecHoldsFields(m.fields, SPEC_ORDER, x);
    assert x in SpecOf(m).fields;
  }

  // ---------- What is saved ----------

  /** The hooks of one builder, each editing what the one around it has left. */
  function Edited(hooks: seq<Hook>, m: TypedMutation): TypedMutation {
    if hooks == [] then m else Edited(hooks[1..], hooks[0].edit(m))
  }

  /** What the calls of a chain make of the mutation of builder `j`. */
  ghost function EditedAlong(env: Bulk, chain: Chain, j: nat, m: TypedMutation): TypedMutation
    requires AllKnown(env, chain)
    decreases chain
  {
    match chain
    case End => m
    case Call(l, rest) =>
      EditedAlong(env, rest, j, if l.Wrap? && l.i == j then env.hooks[l.i][l.h].edit(m) else m)
  }

  lemma {:induction false} EditsReachBottom(env: Bulk, chain: Chain, w: Work, j: nat)
    requires AllKnown(env, chain) && Fit(env, w) && j < |env.hooks| && RunOf(env, chain, w).reached
    ensures RunOf(env, chain, w).bottom.mutations[j] == EditedAlong(env, chain, j, w.mutations[j])
    decreases chain
  {
    if chain.Call? {
      EditsReachBottom(env, chain.rest, Opened(env, chain.level, w), j);
    }
  }

  lemma {:induction false} AllHooksEdit(env: Bulk, i: nat, h: nat, j: nat, m: TypedMutation)
    requires i <= |env.hooks| && (i < |env.hooks| ==> h <= |env.hooks[i]|) && j < |env.hooks|
    ensures EditedAlong(env, ChainFrom(env, i, h), j, m)
         == if j < i then m else if j == i then Edited(env.hooks[j][h..], m) else Edited(env.hooks[j], m)
    decreases |env.hooks| - i, if i < |env.hooks| then |env.hooks[i]| - h else 0
  {
    if i < |env.hooks| {
      if h < |env.hooks[i]| {
        AllHooksEdit(env, i, h + 1, j, if i == j then env.hooks[i][h].edit(m) else m);
        assert env.hooks[i][h..][1..] == env.hooks[i][h + 1..];
      } else {
        AllHooksEdit(env, i + 1, 0, j, m);
        assert j < |env.hooks| ==> env.hooks[j][0..] == env.hooks[j];
      }
    }
  }

  /** A batch carries for each builder the spec of its mutation as all of its hooks have edited it, and that mutation is valid. */
  lemma {:induction false} BatchCarriesEdits(env: Bulk, w: Work, q: nat, j: nat)
    requires Fit(env, w) && j < |env.hooks| && q < |FullRun(env, w).trace| && FullRun(env, w).trace[q].Batch?
    ensures var specs, m := FullRun(env, w).trace[q].specs, Edited(env.hooks[j], w.mutations[j]);
            && |specs| == |env.hooks| && specs[j].Some? && CheckAll(env.validators, m.fields) == None
            && specs[j].value.fields == FieldSpecs(m.fields, SPEC_ORDER) && specs[j].value.edges == EdgeSpecs(m)
  {
    BatchOnce(env, w, q);
    EditsReachBottom(env, ChainFrom(env, 0, 0), w, j);
    AllHooksEdit(env, 0, 0, j, w.mutations[j]);
    assert env.hooks[j][0..] == env.hooks[j];
    assert BuiltAt(env, FullRun(env, w).bottom, j);
  }

  /** The node of a new entity has no id yet. */
  lemma {:induction false} NewNodeID(m: TypedMutation)
    ensures FieldOf(NodeOf(m), ID) == Some(Int(0))
  {
    OverlaidAt(ZERO_FIELDS, m.fields, ID);
    ZeroFields(ID);
    assert ID !in m.fields && ID !in KeyFields(m);
    assert FieldOf(NodeOf(m), ID) == FieldOf(OwnFields(m.fields), ID);
  }

  /** A save without error returns for each builder the node of its mutation, with the id that the batch reports for it, or zero. */
  lemma {:induction false} SavedNode(env: Bulk, before: State, after: State, j: nat, c: Column)
    requires Sized(env, before) && Propagates(env) && j < |env.hooks|
    requires Saved(env, before, after, None)
    ensures env.db(after.work.specs).Inserted? && after.work.nodes[j].Some?
    ensures FieldOf(after.work.nodes[j].value, ID)
         == Some(Int(match env.db(after.work.specs).ids(j) case Some(k) => k case None => 0))
    ensures c != ID ==> FieldOf(after.work.nodes[j].value, c) == FieldOf(NodeOf(after.work.mutations[j]), c)
  {
    SaveSucceeds(env, before, after, j);
    NewNodeID(after.work.mutations[j]);
  }

  /** Reading the row that the batch has written for a builder rebuilds the node that the save returned for it. */
  lemma {:induction false} SavedThenRead(env: Bulk, before: State, after: State, j: nat, id: int, row: StoredRow, slots: seq<Slot>)
    requires Sized(env, before) && Propagates(env) && j < |env.hooks|
    requires Saved(env, before, after, None)
    requires Executed(SpecOf(after.work.mutations[j]), id, row) && ScannedRow(ACCOUNT_COLUMNS, row, slots)
    requires env.db(after.work.specs).Inserted? && env.db(after.work.specs).ids(j) == Some(id)
    ensures after.work.specs[j] == Some(SpecOf(after.work.mutations[j]))
    ensures after.work.nodes[j] == Some(AllAssigned(ZERO_FIELDS, ACCOUNT_COLUMNS, slots))
  {
    SaveSucceeds(env, before, after, j);
    ReadAllColumns(after.work.mutations[j], id, row, slots);
  }

  /** A refusal is returned as it is, or as a constraint error if it is one. */
  lemma {:induction false} TurnByAnswer(env: Bulk, w: Work)
    requires Fit(env, w) && FullRun(env, w).reached
    ensures var answer := env.db(FullRun(env, w).bottom.specs);
            && (answer.Inserted? ==> Turn(env, ChainFrom(env, 0, 0), w) == None)
            && (answer.Refused? && answer.constraint ==> Turn(env, ChainFrom(env, 0, 0), w) == Some(Constraint(answer.cause)))
            && (answer.Refused? && !answer.constraint ==> Turn(env, ChainFrom(env, 0, 0), w) == Some(answer.cause))
  {
    ReachedTurn(env, ChainFrom(env, 0, 0), w);
  }

  // ---------- Hooks that swallow errors ----------

  /** What the hooks along a chain make of the error `e` at its inner end. */
  ghost function Through(env: Bulk, chain: Chain, e: Failure): Failure
    requires AllKnown(env, chain)
    decreases chain
  {
    match chain
    case End => e
    case Call(l, rest) => Passed(env, l, Through(env, rest, e))
  }

  /** The calls that are open where the chain turns round. */
  ghost function OpenCalls(env: Bulk, chain: Chain, w: Work): (open: Chain)
    requires AllKnown(env, chain) && Fit(env, w)
    ensures AllKnown(env, open)
    decreases chain
  {
    match chain
    case End => End
    case Call(l, rest) => if Blocked(env, l, w).Some? then End else Call(l, OpenCalls(env, rest, Opened(env, l, w)))
  }

  /** What the innermost open call gets: the error of the batch, or what the hook or the check that stops the chain returns. */
  ghost function Turn(env: Bulk, chain: Chain, w: Work): Failure
    requires AllKnown(env, chain) && Fit(env, w)
    decreases chain
  {
    match chain
    case End => BatchError(env.db(w.specs))
    case Call(l, rest) => if Blocked(env, l, w).Some? then Blocked(env, l, w).value else Turn(env, rest, Opened(env, l, w))
  }

  /** A run returns what the hooks of its open calls make of the error where it turned. */
  lemma {:induction false} OutcomeIsThrough(env: Bulk, chain: Chain, w: Work)
    requires AllKnown(env, chain) && Fit(env, w)
    ensures RunOf(env, chain, w).outcome == Through(env, OpenCalls(env, chain, w), Turn(env, chain, w))
    decreases chain
  {
    if chain.Call? && Blocked(env, chain.level, w) == None {
      OutcomeIsThrough(env, chain.rest, Opened(env, chain.level, w));
    }
  }

  /** The chain has the mutator of builder `j` itself. */
  predicate Holds(chain: Chain, j: nat) {
    chain.Call? && (chain.level == Core(j) || Holds(chain.rest, j))
  }

  /** The calls made from inside the mutator of builder `j`. */
  function Below(chain: Chain, j: nat): Chain {
    match chain
    case End => End
    case Call(l, rest) => if l == Core(j) then rest else Below(rest, j)
  }

  lemma {:induction false} BelowKnown(env: Bulk, chain: Chain, j: nat)
    requires AllKnown(env, chain)
    ensures AllKnown(env, Below(chain, j))
    decreases chain
  {
    if chain.Call? {
      BelowKnown(env, chain.rest, j);
    }
  }

  /** What builder `j` gets back from the call it makes. */
  ghost function GotBack(env: Bulk, chain: Chain, w: Work, j: nat): Failure
    requires AllKnown(env, chain) && Fit(env, w)
  {
    BelowKnown(env, OpenCalls(env, chain, w), j);
    Through(env, Below(OpenCalls(env, chain, w), j), Turn(env, chain, w))
  }

  lemma {:induction false} MarksLater(env: Bulk, chain: Chain, i: nat, w: Work, j: nat)
    requires AllKnown(env, chain) && InOrder(chain, i, |env.hooks|) && Fit(env, w) && j < i
    ensures Mark(j) !in RunOf(env, chain, w).trace
    decreases chain
  {
    if chain.Call? && Blocked(env, chain.level, w) == None {
      var run := RunOf(env, chain.rest, Opened(env, chain.level, w));
      MarksLater(env, chain.rest, After(chain.level), Opened(env, chain.level, w), j);
      MarkedAround(chain.level, run.trace, run.outcome, j);
    }
  }

  /** The mutator of builder `j` is among the open calls and gets no error back. */
  ghost predicate GetsNone(env: Bulk, chain: Chain, w: Work, j: nat)
    requires AllKnown(env, chain) && Fit(env, w)
  {
    Holds(OpenCalls(env, chain, w), j) && GotBack(env, chain, w, j) == None
  }

  /** A builder is marked exactly when its mutator is among the open calls and gets no error back, whatever the hooks do. */
  lemma {:induction false} MarkedIff(env: Bulk, chain: Chain, i: nat, w: Work, j: nat)
    requires AllKnown(env, chain) && InOrder(chain, i, |env.hooks|) && Fit(env, w)
    ensures Mark(j) in RunOf(env, chain, w).trace <==> GetsNone(env, chain, w, j)
    decreases chain
  {
    if chain.Call? && Blocked(env, chain.level, w) == None {
      var l, inside := chain.level, Opened(env, chain.level, w);
      var run := RunOf(env, chain.rest, inside);
      MarkedAround(l, run.trace, run.outcome, j);
      if l == Core(j) {
        MarksLater(env, chain.rest, After(l), inside, j);
        OutcomeIsThrough(env, chain.rest, inside);
      } else {
        MarkedIff(env, chain.rest, After(l), inside, j);
      }
    }
  }

  /** The same bulk create, with a given answer of the database. */
  function Under(env: Bulk, answer: Answer): Bulk {
    env.(db := _ => answer)
  }

  lemma {:induction false} KnownUnder(env: Bulk, answer: Answer, chain: Chain)
    requires AllKnown(env, chain)
    ensures AllKnown(Under(env, answer), chain)
    decreases chain
  {
    if chain.Call? {
      KnownUnder(env, answer, chain.rest);
    }
  }

  lemma {:induction false} ThroughUnder(env: Bulk, answer: Answer, chain: Chain, e: Failure)
    requires AllKnown(env, chain) && AllKnown(Under(env, answer), chain)
    ensures Through(Under(env, answer), chain, e) == Through(env, chain, e)
    decreases chain
  {
    if chain.Call? {
      ThroughUnder(env, answer, chain.rest, e);
    }
  }

  lemma {:induction false} ChainUnder(env: Bulk, answer: Answer, i: nat, h: nat)
    requires i <= |env.hooks| && (i < |env.hooks| ==> h <= |env.hooks[i]|)
    ensures ChainFrom(Under(env, answer), i, h) == ChainFrom(env, i, h)
    decreases |env.hooks| - i, if i < |env.hooks| then |env.hooks[i]| - h else 0
  {
    if i < |env.hooks| {
      if h < |env.hooks[i]| {
        ChainUnder(env, answer, i, h + 1);
      } else {
        ChainUnder(env, answer, i + 1, 0);
      }
    }
  }

  /** The answer of the database decides nothing but the error where a chain turns that has reached the batch. */
  lemma {:induction false} RunUnder(env: Bulk, answer: Answer, chain: Chain, w: Work)
    requires AllKnown(env, chain) && AllKnown(Under(env, answer), chain) && Fit(env, w)
    ensures RunOf(Under(env, answer), chain, w).reached == RunOf(env, chain, w).reached
    ensures OpenCalls(Under(env, answer), chain, w) == OpenCalls(env, chain, w)
    ensures Turn(Under(env, answer), chain, w)
         == if RunOf(env, chain, w).reached then BatchError(answer) else Turn(env, chain, w)
    ensures RunOf(env, chain, w).reached ==> OpenCalls(env, chain, w) == chain
    decreases chain
  {
    if chain.Call? && Blocked(env, chain.level, w) == None {
      RunUnder(env, answer, chain.rest, Opened(env, chain.level, w));
    }
  }

  lemma {:induction false} FullRunUnder(env: Bulk, answer: Answer, w: Work)
    requires Fit(env, w)
    ensures var chain := ChainFrom(env, 0, 0);
            var run := FullRun(Under(env, answer), w);
            && run.reached == FullRun(env, w).reached
            && run.outcome == Through(env, OpenCalls(env, chain, w), if run.reached then BatchError(answer) else Turn(env, chain, w))
            && (run.reached ==> OpenCalls(env, chain, w) == chain)
  {
    var chain := ChainFrom(env, 0, 0);
    ChainUnder(env, answer, 0, 0);
    RunUnder(env, answer, chain, w);
    OutcomeIsThrough(Under(env, answer), chain, w);
    ThroughUnder(env, answer, OpenCalls(env, chain, w), Turn(Under(env, answer), chain, w));
  }

  /** The hooks along the chain make an error of every error. */
  ghost predicate Relays(env: Bulk, chain: Chain)
    requires AllKnown(env, chain)
  {
    forall e :: e != None ==> Through(env, chain, e) != None
  }

  /** Under this answer, a save without error means that the batch was inserted. */
  ghost predicate SuccessIsReal(env: Bulk, w: Work, answer: Answer)
    requires Fit(env, w)
  {
    var run := FullRun(Under(env, answer), w);
    run.outcome == None ==> run.reached && answer.Inserted?
  }

  /**
    A save without error is certain to have inserted the batch, whatever the database answers, exactly when the hooks together
    relay every error of the batch; or, for a chain that a hook or a check stops, when those of the open calls make an error of
    what stopped it. A hook that stops the chain without an error is among these.
    */
  lemma {:induction false} SuccessIsRealIff(env: Bulk, w: Work)
    requires Fit(env, w)
    ensures (forall answer :: SuccessIsReal(env, w, answer))
       <==> var chain := ChainFrom(env, 0, 0);
            if FullRun(env, w).reached then Relays(env, chain)
            else Through(env, OpenCalls(env, chain, w), Turn(env, chain, w)) != None
  {
    var chain := ChainFrom(env, 0, 0);
    forall answer
      ensures SuccessIsReal(env, w, answer)
         <==> if FullRun(env, w).reached then answer.Inserted? || Through(env, chain, BatchError(answer)) != None
              else Through(env, OpenCalls(env, chain, w), Turn(env, chain, w)) != None
    {
      FullRunUnder(env, answer, w);
    }
    if FullRun(env, w).reached {
      forall e | e != None && Through(env, chain, e) == None
        ensures !SuccessIsReal(env, w, Refused(e.value, false))
      {
        assert BatchError(Refused(e.value, false)) == e;
      }
    } else {
      assert SuccessIsReal(env, w, Refused(Missing(Name), false))
        <==> Through(env, OpenCalls(env, chain, w), Turn(env, chain, w)) != None;
    }
  }

  lemma {:induction false} BelowIsRest(env: Bulk, i: nat, h: nat, j: nat)
    requires i <= j < |env.hooks| && h <= |env.hooks[i]|
    ensures Holds(ChainFrom(env, i, h), j) && Below(ChainFrom(env, i, h), j) == ChainFrom(env, j + 1, 0)
    decreases |env.hooks| - i, |env.hooks[i]| - h
  {
    if h < |env.hooks[i]| {
      BelowIsRest(env, i, h + 1, j);
    } else if i < j {
      BelowIsRest(env, i + 1, 0, j);
    }
  }

  lemma {:induction false} MarkedUnder(env: Bulk, answer: Answer, w: Work, j: nat)
    requires Fit(env, w) && j < |env.hooks|
    ensures var chain := ChainFrom(env, 0, 0);
            var run := FullRun(Under(env, answer), w);
            && run.reached == FullRun(env, w).reached
            && (Mark(j) in run.trace
                <==> if run.reached then Through(env, ChainFrom(env, j + 1, 0), BatchError(answer)) == None
                     else GetsNone(env, chain, w, j))
  {
    var chain := ChainFrom(env, 0, 0);
    ChainUnder(env, answer, 0, 0);
    RunUnder(env, answer, chain, w);
    ChainInOrder(env, 0, 0);
    MarkedIff(Under(env, answer), chain, 0, w, j);
    BelowIsRest(env, 0, 0, j);
    BelowKnown(env, OpenCalls(env, chain, w), j);
    KnownUnder(env, answer, Below(OpenCalls(env, chain, w), j));
    ThroughUnder(env, answer, Below(OpenCalls(env, chain, w), j), Turn(Under(env, answer), chain, w));
  }

  /** Under this answer, builder `j` is marked only for a batch that was inserted. */
  ghost predicate MarkIsReal(env: Bulk, w: Work, j: nat, answer: Answer)
    requires Fit(env, w)
  {
    var run := FullRun(Under(env, answer), w);
    Mark(j) in run.trace ==> run.reached && answer.Inserted?
  }

  /**
    Builder `j` is marked only for a batch that was inserted exactly when the hooks of the builders after it relay every error;
    for a stopped chain, when its mutator is not open or gets an error back. In a chain that reaches the batch, its own hooks
    and those before it do not matter.
    */
  lemma {:induction false} MarkIsRealIff(env: Bulk, w: Work, j: nat)
    requires Fit(env, w) && j < |env.hooks|
    ensures (forall answer :: MarkIsReal(env, w, j, answer))
       <==> var chain := ChainFrom(env, 0, 0);
            if FullRun(env, w).reached then Relays(env, ChainFrom(env, j + 1, 0))
            else !GetsNone(env, chain, w, j)
  {
    var chain, after := ChainFrom(env, 0, 0), ChainFrom(env, j + 1, 0);
    forall answer
      ensures MarkIsReal(env, w, j, answer)
         <==> if FullRun(env, w).reached then answer.Inserted? || Through(env, after, BatchError(answer)) != None
              else !GetsNone(env, chain, w, j)
    {
      MarkedUnder(env, answer, w, j);
    }
    if FullRun(env, w).reached {
      forall e | e != None && Through(env, after, e) == None
        ensures !MarkIsReal(env, w, j, Refused(e.value, false))
      {
        assert BatchError(Refused(e.value, false)) == e;
      }
    } else {
      assert MarkIsReal(env, w, j, Refused(Missing(Name), false))
        <==> !GetsNone(env, chain, w, j);
    }
  }

  // ---------- Marks and suffixes ----------

  /** Whatever the hooks do, builder `j + 1` is marked before builder `j`, if it is marked at all. */
  lemma {:induction false} MarksDescend(env: Bulk, chain: Chain, i: nat, w: Work, q: nat, j: nat)
    requires AllKnown(env, chain) && InOrder(chain, i, |env.hooks|) && Fit(env, w)
    ensures Mark(j + 1) in RunOf(env, chain, w).trace ==> SuffixAt(RunOf(env, chain, w).trace, q, j)
    decreases chain
  {
    if chain.Call? && Blocked(env, chain.level, w) == None {
      var l, inside := chain.level, Opened(env, chain.level, w);
      var run := RunOf(env, chain.rest, inside);
      if l == Core(j + 1) {
        MarksLater(env, chain.rest, After(l), inside, j);
        NoMarkAround(env, l, run, q, j);
      } else {
        MarksDescend(env, chain.rest, After(l), inside, Within(q, |Open(l)|, |run.trace|), j);
        DescendAround(env, l, run, q, j);
      }
    }
  }

  lemma {:induction false} DescendAround(env: Bulk, l: Level, run: Run, q: nat, j: nat)
    requires Known(env, l) && l != Core(j + 1)
    requires Mark(j + 1) in run.trace ==> SuffixAt(run.trace, Within(q, |Open(l)|, |run.trace|), j)
    ensures Mark(j + 1) in Around(env, l, run).trace ==> SuffixAt(Around(env, l, run).trace, q, j)
  {
    MarkedAround(l, run.trace, run.outcome, j + 1);
    if Mark(j + 1) in run.trace {
      SuffixAround(env, l, run, q, j);
    }
  }

  lemma {:induction false} NoMarkAround(env: Bulk, l: Level, run: Run, q: nat, j: nat)
    requires Known(env, l) && l != Core(j) && Mark(j) !in run.trace
    ensures SuffixAt(Around(env, l, run).trace, q, j)
  {
    MarkedAround(l, run.trace, run.outcome, j);
    NoMarks(Around(env, l, run).trace, q, j);
  }

  /** After any number of events, builder `j` is marked only if the builder after it is: at every moment if it is so in the end. */
  ghost predicate AlwaysSuffix(env: Bulk, w: Work, j: nat)
    requires Fit(env, w)
  {
    forall q: nat :: SuffixAt(FullRun(env, w).trace, q, j)
  }

  /**
    Whatever the hooks do, the marked builders form a suffix of the list at every moment, as far as builders `j` and `j + 1` go,
    exactly when `j + 1` gets no error back if `j` gets none.
    */
  lemma {:induction false} SuffixIff(env: Bulk, w: Work, j: nat)
    requires Fit(env, w) && j + 1 < |env.hooks|
    ensures var chain := ChainFrom(env, 0, 0);
            AlwaysSuffix(env, w, j) <==> (GetsNone(env, chain, w, j) ==> GetsNone(env, chain, w, j + 1))
  {
    MarkedFull(env, w, j);
    MarkedFull(env, w, j + 1);
    MarkOrder(env, w, j);
  }

  lemma {:induction false} MarkedFull(env: Bulk, w: Work, j: nat)
    requires Fit(env, w)
    ensures Mark(j) in FullRun(env, w).trace <==> GetsNone(env, ChainFrom(env, 0, 0), w, j)
  {
    ChainInOrder(env, 0, 0);
    MarkedIff(env, ChainFrom(env, 0, 0), 0, w, j);
  }

  lemma {:induction false} MarkOrder(env: Bulk, w: Work, j: nat)
    requires Fit(env, w)
    ensures var t := FullRun(env, w).trace; AlwaysSuffix(env, w, j) <==> (Mark(j) in t ==> Mark(j + 1) in t)
  {
    var chain, t := ChainFrom(env, 0, 0), FullRun(env, w).trace;
    ChainInOrder(env, 0, 0);
    forall q: nat
      ensures (Mark(j) in t ==> Mark(j + 1) in t) ==> SuffixAt(t, q, j)
    {
      if Mark(j + 1) in t {
        MarksDescend(env, chain, 0, w, q, j);
      } else if Mark(j) !in t {
        NoMarks(t, q, j);
      }
    }
    assert t[..|t|] == t;
    assert SuffixAt(t, |t|, j) <==> (Mark(j) in t ==> Mark(j + 1) in t);
  }

  /** In a chain that reaches the batch, a builder gets back what the hooks of the builders after it make of the batch's error. */
  lemma {:induction false} ReachedGotBack(env: Bulk, w: Work, j: nat)
    requires Fit(env, w) && j < |env.hooks| && FullRun(env, w).reached
    ensures var chain := ChainFrom(env, 0, 0);
            && Holds(OpenCalls(env, chain, w), j)
            && GotBack(env, chain, w, j) == Through(env, ChainFrom(env, j + 1, 0), BatchError(env.db(FullRun(env, w).bottom.specs)))
  {
    var chain := ChainFrom(env, 0, 0);
    ReachedTurn(env, chain, w);
    BelowIsRest(env, 0, 0, j);
  }

  lemma {:induction false} ReachedTurn(env: Bulk, chain: Chain, w: Work)
    requires AllKnown(env, chain) && Fit(env, w) && RunOf(env, chain, w).reached
    ensures OpenCalls(env, chain, w) == chain
    ensures Turn(env, chain, w) == BatchError(env.db(RunOf(env, chain, w).bottom.specs))
    decreases chain
  {
    if chain.Call? {
      ReachedTurn(env, chain.rest, Opened(env, chain.level, w));
    }
  }

  /** It is enough that every hook alone propagates errors, but not necessary. */
  lemma {:induction false} PropagatingHooksRelay(env: Bulk, chain: Chain, e: Failure)
    requires AllKnown(env, chain) && Propagates(env) && e != None
    ensures Through(env, chain, e) != None
    decreases chain
  {
    if chain.Call? {
      PropagatingHooksRelay(env, chain.rest, e);
    }
  }

  /** A hook that lets every mutation through as it is, and turns errors as `after` says. */
  function Passive(after: Failure -> Failure): Hook {
    Hook(_ => None, m => m, after)
  }

  /** One hook may swallow errors when another one around it makes an error of everything. */
  lemma NotEveryHookRelays(v: Validators, db: seq<Option<Spec>> -> Answer)
    ensures var env := Bulk([[Passive(_ => Some(Missing(Name))), Passive(_ => None)]], v, db);
            !Propagates(env) && Relays(env, ChainFrom(env, 0, 0))
  {
    var env := Bulk([[Passive(_ => Some(Missing(Name))), Passive(_ => None)]], v, db);
    assert env.hooks[0][1].after(Some(Missing(Name))) == None;
    assert ChainFrom(env, 0, 0) == Call(Wrap(0, 0), ChainFrom(env, 0, 1));
  }

  // ---------- An example ----------

  /** A value for a required column. */
  function Sample(c: Column): Value {
    match ScanKind(c)
    case NullInt64 => Int(0)
    case NullFloat64 => Float(1.0)
    case NullBool => Bool(true)
    case NullTime => Time(0)
    case ByteSlice => Json(Some(map[]))
    case _ => Str("global")
  }

  const SAMPLE: Mutation := Mutation(map c | c in REQUIRED :: Sample(c), {}, None, None, {}, {})

  const LENIENT := Validators(_ => true, _ => true, _ => true, _ => true, _ => true)

  lemma {:induction false} SampleIsValid()
    ensures WellTyped(SAMPLE) && CheckAll(LENIENT, SAMPLE.fields) == None
  {
    forall c | c in REQUIRED
      ensures Settable(c) && Fits(Sample(c), ScanKind(c)) && Validates(LENIENT, c, Sample(c))
    {
      SampleFits(c);
    }
    CheckAccepts(LENIENT, SAMPLE.fields);
  }

  lemma SampleFits(c: Column)
    requires c in REQUIRED
    ensures Settable(c) && Fits(Sample(c), ScanKind(c)) && Validates(LENIENT, c, Sample(c))
  {
  }

  /** One builder with one hook that swallows errors: the database refuses the batch, and the save returns no error. */
  lemma {:induction false} SwallowedError()
    ensures WellTyped(SAMPLE)
    ensures var env := Bulk([[Passive(_ => None)]], LENIENT, _ => Refused(Missing(Name), false));
            var run := FullRun(env, Work([SAMPLE], [None], [None]));
            run.reached && run.outcome == None && Mark(0) !in run.trace
  {
    SampleIsValid();
    var env := Bulk([[Passive(_ => None)]], LENIENT, _ => Refused(Missing(Name), false));
    var w := Work([SAMPLE], [None], [None]);
    assert ChainFrom(env, 0, 1) == Call(Core(0), ChainFrom(env, 1, 0));
    assert ChainFrom(env, 0, 0) == Call(Wrap(0, 0), ChainFrom(env, 0, 1));
    assert Opened(env, Wrap(0, 0), w) == w;
    var bottom := RunOf(env, End, Opened(env, Core(0), w));
    var inner := RunOf(env, ChainFrom(env, 0, 1), w);
    assert inner == Around(env, Core(0), bottom);
    MarkedAround(Core(0), bottom.trace, bottom.outcome, 0);
    MarkedAround(Wrap(0, 0), inner.trace, inner.outcome, 0);
  }

  /** A hook that returns success without calling the next mutator: the save returns no error, and no batch was issued. */
  lemma {:induction false} SilentStop(v: Validators, db: seq<Option<Spec>> -> Answer, m: TypedMutation)
    ensures var env := Bulk([[Hook(_ => Some(None), x => x, e => e)]], v, db);
            var run := FullRun(env, Work([m], [None], [None]));
            && run.outcome == None && !run.reached && run.trace == [Enter(Wrap(0, 0)), Leave(Wrap(0, 0))]
            && Relays(env, ChainFrom(env, 0, 0))
  {
    var env := Bulk([[Hook(_ => Some(None), x => x, e => e)]], v, db);
    assert ChainFrom(env, 0, 1) == Call(Core(0), ChainFrom(env, 1, 0));
    assert ChainFrom(env, 0, 0) == Call(Wrap(0, 0), ChainFrom(env, 0, 1));
  }
}

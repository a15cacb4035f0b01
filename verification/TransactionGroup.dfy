/**
 The transaction group of the add-in fixture
 (packages/addin-loopback-fixture/src/transactionGroup.ts): writes stay staged
 until the group is assimilated into the shared model.
 */
module TransactionGroups {
  import opened Wrappers
  import opened BatchReplies

  datatype GroupState = Unstarted | Started | Assimilated | RolledBackGroup | RollbackFailed

  datatype Write = Write(key: string, value: Json)

  type Model = map<string, Json>

  function Apply(m: Model, writes: seq<Write>): (next: Model) {
    if writes == [] then m
    else Apply(m, writes[..|writes| - 1])[writes[|writes| - 1].key := writes[|writes| - 1].value]
  }

  /** The newest staged value of a key, or the model's. */
  function Overlay(m: Model, writes: seq<Write>, k: string): (v: Option<Json>) {
    if writes == [] then (if k in m then Some(m[k]) else None)
    else if writes[|writes| - 1].key == k then Some(writes[|writes| - 1].value)
    else Overlay(m, writes[..|writes| - 1], k)
  }

  /** Reading through the overlay is reading what assimilation would leave. */
  lemma {:induction false} OverlayIsApplied(m: Model, writes: seq<Write>, k: string)
    ensures Overlay(m, writes, k) == if k in Apply(m, writes) then Some(Apply(m, writes)[k]) else None
  {
    if writes != [] { OverlayIsApplied(m, writes[..|writes| - 1], k); }
  }

  /** A group's own part; the model is shared. */
  datatype Group = Group(staged: seq<Write>, state: GroupState, failRollback: bool)

  function StartGroup(g: Group): (next: Group) {
    if g.state.Unstarted? then g.(state := Started) else g
  }

  function StageIn(g: Group, w: Write): (next: Group) {
    if g.state.Started? && w.key != "" then g.(staged := g.staged + [w]) else g
  }

  function AssimilateGroup(g: Group): (next: Group) {
    if g.state.Started? then g.(staged := [], state := Assimilated) else g
  }

  function RollbackGroup(g: Group): (next: Group) {
    if !g.state.Started? then g
    else if g.failRollback then g.(state := RollbackFailed)
    else g.(staged := [], state := RolledBackGroup)
  }

  /** The map shared by every group of the fixture. */
  class SharedModel {
    var entries: Model

    constructor (initial: Model)
      ensures entries == initial
    {
      entries := initial;
    }
  }

  class TestTransactionGroup {
    const model: SharedModel
    const failRollback: bool
    var staged: seq<Write>
    var state: GroupState

    ghost function Value(): (g: Group)
      reads this
    {
      Group(staged, state, failRollback)
    }

    constructor (model: SharedModel, failRollback: bool)
      ensures this.model == model && Value() == Group([], Unstarted, failRollback)
    {
      this.model := model;
      this.failRollback := failRollback;
      staged := [];
      state := Unstarted;
    }

    method Start() returns (ok: bool)
      modifies this
      ensures ok == old(state).Unstarted? && Value() == StartGroup(old(Value()))
    {
      ok := state.Unstarted?;
      if ok { state := Started; }
    }

    method Stage(key: string, value: Json) returns (ok: bool)
      modifies this
      ensures ok == (old(state).Started? && key != "") && Value() == StageIn(old(Value()), Write(key, value))
    {
      ok := state.Started? && key != "";
      if ok { staged := staged + [Write(key, value)]; }
    }

    method Read(key: string) returns (value: Option<Json>)
      ensures value == if key in Apply(model.entries, staged) then Some(Apply(model.entries, staged)[key]) else None
    {
      OverlayIsApplied(model.entries, staged, key);
      var index := |staged|;
      assert staged[..index] == staged;
      while index > 0
        invariant index <= |staged|
        invariant Overlay(model.entries, staged, key) == Overlay(model.entries, staged[..index], key)
      {
        index := index - 1;
        assert staged[..index + 1][..index] == staged[..index];
        if staged[index].key == key { return Some(staged[index].value); }
      }
      return if key in model.entries then Some(model.entries[key]) else None;
    }

    method Assimilate() returns (ok: bool)
      modifies this, model
      ensures ok == old(state).Started? && Value() == AssimilateGroup(old(Value()))
      ensures model.entries == if ok then Apply(old(model.entries), old(staged)) else old(model.entries)
    {
      ok := state.Started?;
      if ok {
        var index := 0;
        while index < |staged|
          invariant index <= |staged| && staged == old(staged) && state == old(state)
          invariant model.entries == Apply(old(model.entries), staged[..index])
        {
          model.entries := model.entries[staged[index].key := staged[index].value];
          index := index + 1;
          assert staged[..index][..index - 1] == staged[..index - 1];
        }
        assert staged[..index] == staged;
        staged := [];
        state := Assimilated;
      }
    }

    /** The model is untouched, whether the rollback succeeds or fails. */
    method Rollback() returns (ok: bool)
      modifies this
      ensures ok == (old(state).Started? && !failRollback) && Value() == RollbackGroup(old(Value()))
    {
      if !state.Started? { return false; }
      if failRollback {
        state := RollbackFailed;
        return false;
      }
      staged := [];
      state := RolledBackGroup;
      return true;
    }
  }
}

/** Concurrent batches over one model: any interleaving of the operations of `TestTransactionGroup`. */
module ConcurrentBatches {
  import opened Wrappers
  import opened Utf16
  import opened BatchReplies
  import opened FixtureBatch
  import opened TransactionGroups

  /** How a batch ends: its request, what its handlers did, and the fixture's environment. */
  datatype Ending = Ending(request: Request, attempts: seq<Attempt>, size: Reply -> nat, contract: Reply -> Option<Text>, message: Text)

  datatype Event =
    | Open(id: string, failRollback: bool)
    | StageWrite(id: string, write: Write)
    | Finish(id: string, ending: Ending)

  /** `answers` holds the reply of every finished batch, `commits` the staged writes in assimilation order. */
  datatype Fixture = Fixture(model: Model, groups: map<string, Group>, answers: map<string, Option<Reply>>, commits: seq<(string, seq<Write>)>)

  function Answer(e: Ending, rollbackFails: bool): (reply: Option<Reply>)
    requires |e.request.steps| == |e.attempts|
  {
    BatchReply(e.request, e.attempts, e.size, e.contract, rollbackFails, e.message)
  }

  predicate AnswersCommitted(reply: Option<Reply>) {
    reply.Some? && reply.value.transaction.TxCommitted?
  }

  /** The branch of `#executeBatch` that assimilates the group. */
  predicate Assimilates(e: Ending)
    requires |e.request.steps| == |e.attempts|
  {
    var done := Executed(e.request, e.attempts, e.size, |e.request.steps|);
    AllDone(done) && e.contract(Projection(e.request, done)).None?
  }

  lemma CommitsIffAnswered(e: Ending, rollbackFails: bool)
    requires |e.request.steps| == |e.attempts|
    ensures Assimilates(e) <==> AnswersCommitted(Answer(e, rollbackFails))
  {
    var done := Executed(e.request, e.attempts, e.size, |e.request.steps|);
    var settled := Settled(e.request, done, e.contract);
    if AllDone(done) && done != [] && e.contract(Projection(e.request, done)).Some? {
      assert !settled[|settled| - 1].Done?;
    }
  }

  /** The end of one started batch: its group is assimilated or rolled back, and it is answered. */
  function Conclude(f: Fixture, id: string, reply: Option<Reply>, assimilates: bool): (next: Fixture)
    requires id in f.groups
  {
    var g := f.groups[id];
    var answered := f.(answers := f.answers[id := reply]);
    if assimilates then
      answered.(model := Apply(f.model, g.staged),
                groups := f.groups[id := AssimilateGroup(g)],
                commits := f.commits + [(id, g.staged)])
    else answered.(groups := f.groups[id := RollbackGroup(g)])
  }

  function Step(f: Fixture, e: Event): (next: Fixture) {
    match e
    case Open(id, fail) =>
      if id in f.groups then f else f.(groups := f.groups[id := StartGroup(Group([], Unstarted, fail))])
    case StageWrite(id, w) =>
      if id !in f.groups then f else f.(groups := f.groups[id := StageIn(f.groups[id], w)])
    case Finish(id, ending) =>
      if id !in f.groups || !f.groups[id].state.Started? || |ending.request.steps| != |ending.attempts| then f
      else Conclude(f, id, Answer(ending, f.groups[id].failRollback), Assimilates(ending))
  }

  function Run(initial: Model, events: seq<Event>): (f: Fixture) {
    if events == [] then Fixture(initial, map[], map[], [])
    else Step(Run(initial, events[..|events| - 1]), events[|events| - 1])
  }

  function Replay(m: Model, commits: seq<(string, seq<Write>)>): (next: Model) {
    if commits == [] then m else Apply(Replay(m, commits[..|commits| - 1]), commits[|commits| - 1].1)
  }

  ghost predicate Committed(f: Fixture, id: string) {
    exists i :: 0 <= i < |f.commits| && f.commits[i].0 == id
  }

  ghost predicate AnswersInv(f: Fixture) {
    && (forall id :: id in f.answers <==> id in f.groups && !f.groups[id].state.Started?)
    && (forall id :: id in f.answers ==> (Committed(f, id) <==> AnswersCommitted(f.answers[id])))
  }

  ghost predicate CommitsInv(f: Fixture) {
    && (forall i :: 0 <= i < |f.commits| ==> f.commits[i].0 in f.answers)
    && (forall i, j :: 0 <= i < j < |f.commits| ==> f.commits[i].0 != f.commits[j].0)
  }

  ghost predicate FixtureInv(initial: Model, f: Fixture) {
    f.model == Replay(initial, f.commits) && AnswersInv(f) && CommitsInv(f)
  }

  lemma CommittedStep(f: Fixture, id: string, writes: seq<Write>, x: string)
    ensures Committed(f.(commits := f.commits + [(id, writes)]), x) <==> x == id || Committed(f, x)
  {
    var commits := f.commits + [(id, writes)];
    assert commits[|f.commits|].0 == id;
    if i :| 0 <= i < |f.commits| && f.commits[i].0 == x { assert commits[i].0 == x; }
  }

  lemma ConcludeCommits(f: Fixture, id: string, reply: Option<Reply>, assimilates: bool, x: string)
    requires id in f.groups
    ensures Committed(Conclude(f, id, reply, assimilates), x) <==> (assimilates && x == id) || Committed(f, x)
  {
    if assimilates { CommittedStep(f, id, f.groups[id].staged, x); }
  }

  lemma ConcludeAnswers(f: Fixture, id: string, reply: Option<Reply>, assimilates: bool)
    requires AnswersInv(f) && CommitsInv(f) && id in f.groups && f.groups[id].state.Started?
    requires assimilates <==> AnswersCommitted(reply)
    ensures AnswersInv(Conclude(f, id, reply, assimilates)) && CommitsInv(Conclude(f, id, reply, assimilates))
  {
    assert !Committed(f, id);
    forall x ensures Committed(Conclude(f, id, reply, assimilates), x) <==> (assimilates && x == id) || Committed(f, x) {
      ConcludeCommits(f, id, reply, assimilates, x);
    }
  }

  lemma ConcludeKeeps(initial: Model, f: Fixture, id: string, reply: Option<Reply>, assimilates: bool)
    requires FixtureInv(initial, f) && id in f.groups && f.groups[id].state.Started?
    requires assimilates <==> AnswersCommitted(reply)
    ensures FixtureInv(initial, Conclude(f, id, reply, assimilates))
  {
    ConcludeAnswers(f, id, reply, assimilates);
    assert (f.commits + [(id, f.groups[id].staged)])[..|f.commits|] == f.commits;
  }

  lemma {:induction false} RunInv(initial: Model, events: seq<Event>)
    ensures FixtureInv(initial, Run(initial, events))
  {
    if events != [] {
      var f, e := Run(initial, events[..|events| - 1]), events[|events| - 1];
      RunInv(initial, events[..|events| - 1]);
      match e
      case Finish(id, ending) =>
        if id in f.groups && f.groups[id].state.Started? && |ending.request.steps| == |ending.attempts| {
          CommitsIffAnswered(ending, f.groups[id].failRollback);
          ConcludeKeeps(initial, f, id, Answer(ending, f.groups[id].failRollback), Assimilates(ending));
        }
      case _ => QuietKeeps(initial, f, e);
    }
  }

  lemma QuietKeeps(initial: Model, f: Fixture, e: Event)
    requires FixtureInv(initial, f) && !e.Finish?
    ensures FixtureInv(initial, Step(f, e))
  {
    forall x ensures Committed(Step(f, e), x) <==> Committed(f, x) {}
  }

  /**
   In every interleaving the model is the initial map with the staged writes of exactly the
   batches that answered `committed`, each once, in assimilation order.
   */
  lemma ModelHoldsCommittedBatches(initial: Model, events: seq<Event>)
    ensures var f := Run(initial, events);
            && f.model == Replay(initial, f.commits)
            && (forall id :: Committed(f, id) <==> id in f.answers && AnswersCommitted(f.answers[id]))
            && (forall i, j :: 0 <= i < j < |f.commits| ==> f.commits[i].0 != f.commits[j].0)
  {
    RunInv(initial, events);
  }

  /** A commit takes exactly what the group had staged, read through its own overlay. */
  lemma CommitAppliesOverlay(f: Fixture, id: string, e: Ending, k: string)
    requires id in f.groups && f.groups[id].state.Started? && |e.request.steps| == |e.attempts| && Assimilates(e)
    ensures Overlay(f.model, f.groups[id].staged, k) ==
      if k in Step(f, Finish(id, e)).model then Some(Step(f, Finish(id, e)).model[k]) else None
  {
    OverlayIsApplied(f.model, f.groups[id].staged, k);
  }
}

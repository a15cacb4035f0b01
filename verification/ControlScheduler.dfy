/**
 The concurrent JSONL controller (packages/bridge-simulator/src/control.ts): a barrier
 scheduler and an in-order publisher, under every order in which operations and writes end.
 */
module ControlScheduler {
  import opened Wrappers

  /** `Finishing` is a task that has published and still awaits the write chain. */
  datatype Status = Waiting | Running | Finishing | Settled

  datatype Task = Task(barrier: bool, after: set<nat>, status: Status)

  datatype Writer = Idle | Looping | Writing(shutdown: bool)

  /** `responses` maps a sequence to whether its response is the shutdown response. */
  datatype Control = Control(
    tasks: seq<Task>, barrierTail: Option<nat>, responses: map<nat, bool>, nextResponse: nat, jobs: nat,
    writer: Writer, written: seq<(nat, bool)>, accepting: bool, closed: bool)

  datatype Event =
    | Schedule(barrier: bool)
    | Start(task: nat)
    | Publish(task: nat, shutdown: bool)
    | Settle(task: nat)
    | BeginJob
    | Advance
    | WriteDone
    | WriteFailed
    | Stop
    | Close

  const INITIAL := Control([], None, map[], 0, 0, Idle, [], true, false)

  function Unsettled(tasks: seq<Task>): (u: set<nat>) {
    set i | 0 <= i < |tasks| && !tasks[i].status.Settled? :: i
  }

  predicate Ready(c: Control, i: nat)
    requires i < |c.tasks|
  {
    forall j :: j in c.tasks[i].after ==> j < |c.tasks| && c.tasks[j].status.Settled?
  }

  function SetStatus(c: Control, i: nat, s: Status): (next: Control)
    requires i < |c.tasks|
  {
    c.(tasks := c.tasks[i := c.tasks[i].(status := s)])
  }

  function Enqueue(c: Control, barrier: bool): (next: Control) {
    var previous := if c.barrierTail.Some? then {c.barrierTail.value} else {};
    c.(tasks := c.tasks + [Task(barrier, previous + (if barrier then Unsettled(c.tasks) else {}), Waiting)],
       barrierTail := if barrier then Some(|c.tasks|) else c.barrierTail)
  }

  function Shut(c: Control): (next: Control) {
    c.(accepting := false, closed := true)
  }

  function TakeNext(c: Control): (next: Control) {
    if c.closed || c.nextResponse !in c.responses then c.(writer := Idle)
    else
      c.(responses := c.responses - {c.nextResponse},
         nextResponse := c.nextResponse + 1,
         written := c.written + [(c.nextResponse, c.responses[c.nextResponse])],
         writer := Writing(c.responses[c.nextResponse]))
  }

  /** One turn of the event loop; an event whose guard fails changes nothing. */
  function Step(c: Control, e: Event): (next: Control) {
    match e
    case Schedule(barrier) => if c.accepting then Enqueue(c, barrier) else c
    case Start(i) =>
      if i < |c.tasks| && c.tasks[i].status.Waiting? && Ready(c, i)
      then SetStatus(c, i, if c.closed then Settled else Running) else c
    case Publish(i, shutdown) =>
      if i < |c.tasks| && c.tasks[i].status.Running?
      then SetStatus(c, i, if shutdown then Finishing else Settled).(responses := c.responses[i := shutdown], jobs := c.jobs + 1)
      else c
    case Settle(i) => if i < |c.tasks| && c.tasks[i].status.Finishing? then SetStatus(c, i, Settled) else c
    case BeginJob => if c.jobs > 0 && c.writer.Idle? then c.(jobs := c.jobs - 1, writer := Looping) else c
    case Advance => if c.writer.Looping? then TakeNext(c) else c
    case WriteDone =>
      if !c.writer.Writing? then c else if c.writer.shutdown then Shut(c).(writer := Idle) else c.(writer := Looping)
    case WriteFailed => if c.writer.Writing? then Shut(c).(writer := Idle) else c
    case Stop => c.(accepting := false)
    case Close => Shut(c)
  }

  function Run(events: seq<Event>): (c: Control) {
    if events == [] then INITIAL else Step(Run(events[..|events| - 1]), events[|events| - 1])
  }

  // ----- Barriers -----

  predicate Started(c: Control, i: nat) {
    i < |c.tasks| && !c.tasks[i].status.Waiting?
  }

  /** `i` before `j` must have settled before `j` starts. */
  predicate Ordered(c: Control, i: nat, j: nat) {
    i < j < |c.tasks| && (c.tasks[i].barrier || c.tasks[j].barrier)
  }

  ghost predicate OrderKept(c: Control) {
    forall i: nat, j: nat :: Ordered(c, i, j) && Started(c, j) ==> c.tasks[i].status.Settled?
  }

  /** A later barrier that `j` waits for stands between. */
  ghost predicate BarrierBetween(c: Control, i: nat, j: nat)
    requires j < |c.tasks|
  {
    exists b :: b in c.tasks[j].after && i < b < j && c.tasks[b].barrier
  }

  ghost predicate WaitsFor(c: Control, i: nat, j: nat)
    requires j < |c.tasks| && i < |c.tasks|
  {
    c.tasks[i].status.Settled? || i in c.tasks[j].after || BarrierBetween(c, i, j)
  }

  ghost predicate WaitsKept(c: Control) {
    && (forall i: nat, j: nat :: Ordered(c, i, j) ==> WaitsFor(c, i, j))
    && (forall i, j :: 0 <= j < |c.tasks| && i in c.tasks[j].after ==> i < j)
  }

  ghost predicate TailKept(c: Control) {
    && (c.barrierTail.Some? ==> c.barrierTail.value < |c.tasks| && c.tasks[c.barrierTail.value].barrier)
    && (forall i :: 0 <= i < |c.tasks| && c.tasks[i].barrier ==> c.barrierTail.Some? && i <= c.barrierTail.value)
  }

  ghost predicate ScheduleInv(c: Control) {
    OrderKept(c) && WaitsKept(c) && TailKept(c)
  }

  /** Statuses move on; nothing else of the schedule changes. */
  ghost predicate StatusesAdvance(c: Control, d: Control) {
    && |d.tasks| == |c.tasks| && d.barrierTail == c.barrierTail
    && forall i :: 0 <= i < |c.tasks| ==>
         && d.tasks[i].barrier == c.tasks[i].barrier && d.tasks[i].after == c.tasks[i].after
         && (c.tasks[i].status.Settled? ==> d.tasks[i].status.Settled?)
  }

  lemma WaitsAdvance(c: Control, d: Control)
    requires WaitsKept(c) && TailKept(c) && StatusesAdvance(c, d)
    ensures WaitsKept(d) && TailKept(d)
  {
    forall i: nat, j: nat | Ordered(d, i, j) ensures WaitsFor(d, i, j) {
      assert Ordered(c, i, j) && WaitsFor(c, i, j);
      if b :| b in c.tasks[j].after && i < b < j && c.tasks[b].barrier {
        assert d.tasks[b].barrier && b in d.tasks[j].after;
        assert BarrierBetween(d, i, j);
      }
    }
  }

  /** A ready task has everything before it settled that must be. */
  lemma ReadyIsOrdered(c: Control, i: nat, j: nat)
    requires ScheduleInv(c) && Ordered(c, i, j) && Ready(c, j)
    ensures c.tasks[i].status.Settled?
  {
    assert WaitsFor(c, i, j);
    if b :| b in c.tasks[j].after && i < b < j && c.tasks[b].barrier {
      assert Ordered(c, i, b) && Started(c, b);
    }
  }

  lemma StartKeeps(c: Control, j: nat, s: Status)
    requires ScheduleInv(c) && j < |c.tasks| && c.tasks[j].status.Waiting? && Ready(c, j)
    ensures ScheduleInv(SetStatus(c, j, s))
  {
    var d := SetStatus(c, j, s);
    WaitsAdvance(c, d);
    forall i: nat, k: nat | Ordered(d, i, k) && Started(d, k) ensures d.tasks[i].status.Settled? {
      assert Ordered(c, i, k);
      if k == j { ReadyIsOrdered(c, i, j); } else { assert Started(c, k); }
    }
  }

  lemma StatusKeeps(c: Control, j: nat, s: Status)
    requires ScheduleInv(c) && j < |c.tasks| && Started(c, j) && !s.Waiting?
    requires c.tasks[j].status.Settled? ==> s.Settled?
    ensures ScheduleInv(SetStatus(c, j, s))
  {
    var d := SetStatus(c, j, s);
    WaitsAdvance(c, d);
    forall i: nat, k: nat | Ordered(d, i, k) && Started(d, k) ensures d.tasks[i].status.Settled? {
      assert Ordered(c, i, k) && Started(c, k);
    }
  }

  lemma EnqueueWaits(c: Control, barrier: bool, i: nat, j: nat)
    requires ScheduleInv(c) && Ordered(Enqueue(c, barrier), i, j)
    ensures WaitsFor(Enqueue(c, barrier), i, j)
  {
    var d := Enqueue(c, barrier);
    if j < |c.tasks| {
      assert Ordered(c, i, j) && WaitsFor(c, i, j);
      if b :| b in c.tasks[j].after && i < b < j && c.tasks[b].barrier {
        assert b in d.tasks[j].after && d.tasks[b].barrier;
        assert BarrierBetween(d, i, j);
      }
    } else if !barrier {
      var tail := c.barrierTail.value;
      assert tail in d.tasks[j].after && d.tasks[tail].barrier;
      if i != tail { assert BarrierBetween(d, i, j); }
    } else if !c.tasks[i].status.Settled? {
      assert i in Unsettled(c.tasks);
    }
  }

  lemma EnqueueKeeps(c: Control, barrier: bool)
    requires ScheduleInv(c)
    ensures ScheduleInv(Enqueue(c, barrier))
  {
    var d := Enqueue(c, barrier);
    forall i: nat, j: nat | Ordered(d, i, j) ensures WaitsFor(d, i, j) { EnqueueWaits(c, barrier, i, j); }
    forall i: nat, j: nat | Ordered(d, i, j) && Started(d, j) ensures d.tasks[i].status.Settled? {
      assert Ordered(c, i, j) && Started(c, j);
    }
    forall i, j | 0 <= j < |d.tasks| && i in d.tasks[j].after ensures i < j {
      if j < |c.tasks| { assert i in c.tasks[j].after; }
    }
  }

  lemma SameSchedule(c: Control, d: Control)
    requires ScheduleInv(c) && d.tasks == c.tasks && d.barrierTail == c.barrierTail
    ensures ScheduleInv(d)
  {
    WaitsAdvance(c, d);
    forall i: nat, j: nat | Ordered(d, i, j) && Started(d, j) ensures d.tasks[i].status.Settled? {
      assert Ordered(c, i, j) && Started(c, j);
    }
  }

  lemma StepKeepsSchedule(c: Control, e: Event)
    requires ScheduleInv(c)
    ensures ScheduleInv(Step(c, e))
  {
    match e
    case Schedule(barrier) => EnqueueKeeps(c, barrier);
    case Start(i) =>
      if Step(c, e) != c { StartKeeps(c, i, if c.closed then Settled else Running); }
    case Publish(i, shutdown) =>
      if i < |c.tasks| && c.tasks[i].status.Running? {
        var mid := SetStatus(c, i, if shutdown then Finishing else Settled);
        StatusKeeps(c, i, if shutdown then Finishing else Settled);
        SameSchedule(mid, Step(c, e));
      }
    case Settle(i) => if Step(c, e) != c { StatusKeeps(c, i, Settled); }
    case _ => SameSchedule(c, Step(c, e));
  }

  // ----- Responses -----

  /** Responses leave in request order, each once. */
  ghost predicate WrittenInOrder(c: Control) {
    |c.written| == c.nextResponse && forall i :: 0 <= i < |c.written| ==> c.written[i].0 == i
  }

  predicate Published(c: Control, i: nat) {
    i < c.nextResponse || i in c.responses
  }

  /** While open, exactly the tasks past their operation have a response. */
  ghost predicate ResponsesInv(c: Control) {
    && c.nextResponse <= |c.tasks|
    && (forall i :: i in c.responses ==> c.nextResponse <= i < |c.tasks|)
    && (forall i :: 0 <= i < |c.tasks| && Published(c, i) ==> c.tasks[i].status.Finishing? || c.tasks[i].status.Settled?)
    && (!c.closed ==> forall i :: 0 <= i < |c.tasks| && (c.tasks[i].status.Finishing? || c.tasks[i].status.Settled?) ==> Published(c, i))
  }

  ghost predicate WriterInv(c: Control) {
    && (!c.closed && c.writer.Idle? && c.jobs == 0 ==> c.nextResponse !in c.responses)
    && (forall i :: 0 <= i < |c.written| && c.written[i].1 ==>
          i == |c.written| - 1 && (c.closed || c.writer == Writing(true)))
    && (c.writer.Writing? ==> c.written != [] && c.written[|c.written| - 1].1 == c.writer.shutdown)
  }

  ghost predicate PublishInv(c: Control) {
    WrittenInOrder(c) && ResponsesInv(c) && WriterInv(c)
  }

  lemma TakeNextKeeps(c: Control)
    requires PublishInv(c) && c.writer.Looping?
    ensures PublishInv(TakeNext(c))
  {
    var d := TakeNext(c);
    forall i | 0 <= i < |c.tasks| ensures Published(d, i) <==> Published(c, i) {}
  }

  lemma PublishKeeps(c: Control, j: nat, shutdown: bool)
    requires PublishInv(c) && j < |c.tasks| && c.tasks[j].status.Running?
    ensures PublishInv(Step(c, Publish(j, shutdown)))
  {
    var d := Step(c, Publish(j, shutdown));
    assert !Published(c, j);
    forall i | 0 <= i < |d.tasks| ensures Published(d, i) <==> i == j || Published(c, i) {}
  }

  /** Status changes that neither publish nor take back. */
  lemma StatusKeepsPublish(c: Control, j: nat, s: Status)
    requires PublishInv(c) && j < |c.tasks|
    requires (c.tasks[j].status.Waiting? && s == (if c.closed then Settled else Running)) || (c.tasks[j].status.Finishing? && s.Settled?)
    ensures PublishInv(SetStatus(c, j, s))
  {
    var d := SetStatus(c, j, s);
    forall i | 0 <= i < |d.tasks| ensures Published(d, i) <==> Published(c, i) {}
  }

  lemma WriterKeepsPublish(c: Control, d: Control)
    requires PublishInv(c) && d == c.(writer := d.writer, jobs := d.jobs, accepting := d.accepting, closed := d.closed)
    requires (c.closed ==> d.closed) && WriterInv(d)
    ensures PublishInv(d)
  {
    forall i | 0 <= i < |d.tasks| ensures Published(d, i) <==> Published(c, i) {}
  }

  lemma EnqueueKeepsPublish(c: Control, barrier: bool)
    requires PublishInv(c)
    ensures PublishInv(Enqueue(c, barrier))
  {
    var d := Enqueue(c, barrier);
    forall i | 0 <= i < |d.tasks| ensures Published(d, i) <==> Published(c, i) {}
  }

  lemma StepKeepsPublish(c: Control, e: Event)
    requires PublishInv(c)
    ensures PublishInv(Step(c, e))
  {
    match e
    case Schedule(barrier) => EnqueueKeepsPublish(c, barrier);
    case Advance => if c.writer.Looping? { TakeNextKeeps(c); }
    case Publish(j, shutdown) => if j < |c.tasks| && c.tasks[j].status.Running? { PublishKeeps(c, j, shutdown); }
    case Start(j) => if Step(c, e) != c { StatusKeepsPublish(c, j, if c.closed then Settled else Running); }
    case Settle(j) => if Step(c, e) != c { StatusKeepsPublish(c, j, Settled); }
    case _ => WriterKeepsPublish(c, Step(c, e));
  }

  lemma {:induction false} RunKeeps(events: seq<Event>)
    ensures ScheduleInv(Run(events)) && PublishInv(Run(events))
  {
    if events != [] {
      RunKeeps(events[..|events| - 1]);
      StepKeepsSchedule(Run(events[..|events| - 1]), events[|events| - 1]);
      StepKeepsPublish(Run(events[..|events| - 1]), events[|events| - 1]);
    }
  }

  // ----- Theorems -----

  /** In every run, while a barrier operation runs no other operation does. */
  lemma BarrierRunsAlone(events: seq<Event>, i: nat, j: nat)
    requires i < |Run(events).tasks| && j < |Run(events).tasks| && i != j
    requires Run(events).tasks[i].barrier && Run(events).tasks[i].status.Running?
    ensures !Run(events).tasks[j].status.Running?
  {
    RunKeeps(events);
    var c := Run(events);
    assert Ordered(c, i, j) || Ordered(c, j, i);
  }

  /** In every run responses are written in request order, each once, and none after the shutdown response. */
  lemma ResponsesAreOrdered(events: seq<Event>, i: nat)
    requires i < |Run(events).written|
    ensures Run(events).written[i].0 == i
    ensures Run(events).written[i].1 ==> i == |Run(events).written| - 1
  {
    RunKeeps(events);
  }

  /** The state `stopAndDrain` waits for. */
  predicate Drained(c: Control) {
    !c.accepting && Unsettled(c.tasks) == {} && c.jobs == 0 && c.writer.Idle?
  }

  /** Drained without a shutdown, a close or a write error, every accepted request is answered. */
  lemma DrainedMeansAnswered(events: seq<Event>)
    requires Drained(Run(events)) && !Run(events).closed
    ensures |Run(events).written| == |Run(events).tasks|
  {
    RunKeeps(events);
    var c := Run(events);
    forall i | 0 <= i < |c.tasks| ensures Published(c, i) { assert i !in Unsettled(c.tasks); }
    assert c.nextResponse < |c.tasks| ==> Published(c, c.nextResponse);
  }

  // ----- No deadlock -----

  /** What the controller, its operations and its writes do by themselves. */
  predicate IsProgress(e: Event) {
    e.Start? || e.Publish? || e.Settle? || e.BeginJob? || e.Advance? || e.WriteDone? || e.WriteFailed?
  }

  predicate Quiescent(c: Control) {
    Unsettled(c.tasks) == {} && c.jobs == 0 && c.writer.Idle?
  }

  function StatusWeight(s: Status): (w: nat) {
    match s
    case Waiting => 8
    case Running => 7
    case Finishing => 1
    case Settled => 0
  }

  function TasksWeight(tasks: seq<Task>): (w: nat) {
    if tasks == [] then 0 else TasksWeight(tasks[..|tasks| - 1]) + StatusWeight(tasks[|tasks| - 1].status)
  }

  function WriterWeight(w: Writer): (n: nat) {
    match w
    case Idle => 0
    case Looping => 1
    case Writing(_) => 2
  }

  /** How much is left to do. */
  function Work(c: Control): (w: nat) {
    TasksWeight(c.tasks) + 2 * |c.responses| + 2 * c.jobs + WriterWeight(c.writer)
  }

  lemma {:induction false} WeightUpdate(tasks: seq<Task>, i: nat, t: Task)
    requires i < |tasks|
    ensures TasksWeight(tasks[i := t]) + StatusWeight(tasks[i].status) == TasksWeight(tasks) + StatusWeight(t.status)
  {
    var n := |tasks| - 1;
    if i == n {
      assert tasks[i := t][..n] == tasks[..n];
    } else {
      assert tasks[i := t][..n] == tasks[..n][i := t];
      WeightUpdate(tasks[..n], i, t);
    }
  }

  lemma {:induction false} FirstUnsettled(tasks: seq<Task>) returns (i: nat)
    requires Unsettled(tasks) != {}
    ensures i < |tasks| && !tasks[i].status.Settled? && forall j :: 0 <= j < i ==> tasks[j].status.Settled?
  {
    var u :| u in Unsettled(tasks);
    i := 0;
    while tasks[i].status.Settled?
      invariant i <= u < |tasks| && forall j :: 0 <= j < i ==> tasks[j].status.Settled?
      decreases u - i
    {
      i := i + 1;
    }
  }

  /** The first task that has not settled can always move. */
  lemma TaskMoves(c: Control) returns (e: Event)
    requires ScheduleInv(c) && Unsettled(c.tasks) != {}
    ensures IsProgress(e) && Work(Step(c, e)) < Work(c)
  {
    var i := FirstUnsettled(c.tasks);
    var t := c.tasks[i];
    WeightUpdate(c.tasks, i, t.(status := Settled));
    match t.status
    case Waiting =>
      e := Start(i);
      assert Ready(c, i);
      WeightUpdate(c.tasks, i, t.(status := Running));
    case Running =>
      e := Publish(i, false);
      assert |c.responses[i := false]| <= |c.responses| + 1 by { OneMoreResponse(c.responses, i); }
    case Finishing => e := Settle(i);
  }

  lemma OneMoreResponse(m: map<nat, bool>, k: nat)
    ensures |m[k := false]| <= |m| + 1
  {
    assert m[k := false].Keys == m.Keys + {k};
    assert |m[k := false]| == |m[k := false].Keys| && |m| == |m.Keys|;
  }

  lemma WriterMoves(c: Control) returns (e: Event)
    requires c.jobs > 0 || !c.writer.Idle?
    ensures IsProgress(e) && Work(Step(c, e)) < Work(c)
  {
    match c.writer
    case Idle => e := BeginJob;
    case Looping =>
      e := Advance;
      if c.nextResponse in c.responses { FewerResponses(c.responses, c.nextResponse); }
    case Writing(_) => e := WriteDone;
  }

  /** In every run, as long as anything is left to do, the controller can do some of it. */
  lemma NoDeadlock(events: seq<Event>)
    requires !Quiescent(Run(events))
    ensures exists e :: IsProgress(e) && Work(Run(events + [e])) < Work(Run(events))
  {
    RunKeeps(events);
    var e: Event;
    if Unsettled(Run(events).tasks) != {} { e := TaskMoves(Run(events)); } else { e := WriterMoves(Run(events)); }
    assert (events + [e])[..|events|] == events;
  }

  ghost predicate AllProgress(more: seq<Event>) {
    forall e :: e in more ==> IsProgress(e)
  }

  ghost predicate LeadsToRest(events: seq<Event>, more: seq<Event>) {
    AllProgress(more) && Quiescent(Run(events + more))
  }

  lemma RestOneStepEarlier(events: seq<Event>, e: Event, rest: seq<Event>)
    requires IsProgress(e) && LeadsToRest(events + [e], rest)
    ensures LeadsToRest(events, [e] + rest)
  {
    assert events + ([e] + rest) == events + [e] + rest;
  }

  lemma AtRest(events: seq<Event>)
    requires Quiescent(Run(events))
    ensures LeadsToRest(events, [])
  {
    assert events + [] == events;
  }

  /** Every run can be brought to rest. */
  lemma {:induction false} ComesToRest(events: seq<Event>, work: nat) returns (more: seq<Event>)
    requires work == Work(Run(events))
    ensures LeadsToRest(events, more)
    decreases work
  {
    if Quiescent(Run(events)) {
      more := [];
      AtRest(events);
    } else {
      NoDeadlock(events);
      var e :| IsProgress(e) && Work(Run(events + [e])) < Work(Run(events));
      var rest := ComesToRest(events + [e], Work(Run(events + [e])));
      RestOneStepEarlier(events, e, rest);
      more := [e] + rest;
    }
  }

  lemma {:induction false} ProgressKeepsStopped(events: seq<Event>, more: seq<Event>)
    requires AllProgress(more) && !Run(events).accepting
    ensures !Run(events + more).accepting && |Run(events + more).tasks| == |Run(events).tasks|
  {
    if more == [] {
      assert events + more == events;
    } else {
      var n := |more| - 1;
      assert more[n] in more && forall e :: e in more[..n] ==> e in more;
      ProgressKeepsStopped(events, more[..n]);
      assert (events + more)[..|events + more| - 1] == events + more[..n];
    }
  }

  predicate EndsDrained(c: Control, requests: nat) {
    Drained(c) && (c.closed || |c.written| == |c.tasks| == requests)
  }

  /** From every run, stopping can end with the controller drained: answered in full, or closed. */
  lemma StopCanDrain(events: seq<Event>)
    ensures exists more :: AllProgress(more) && EndsDrained(Run(events + [Stop] + more), |Run(events).tasks|)
  {
    var stopped := events + [Stop];
    assert stopped[..|events|] == events;
    var more := ComesToRest(stopped, Work(Run(stopped)));
    ProgressKeepsStopped(stopped, more);
    if !Run(stopped + more).closed { DrainedMeansAnswered(stopped + more); }
    assert EndsDrained(Run(stopped + more), |Run(events).tasks|);
  }

  // ----- Every way of going on ends -----

  lemma StatusDecreases(c: Control, i: nat, s: Status)
    requires i < |c.tasks|
    ensures TasksWeight(SetStatus(c, i, s).tasks) + StatusWeight(c.tasks[i].status) == TasksWeight(c.tasks) + StatusWeight(s)
  {
    WeightUpdate(c.tasks, i, c.tasks[i].(status := s));
  }

  lemma PublishDecreases(c: Control, i: nat, shutdown: bool)
    requires i < |c.tasks| && c.tasks[i].status.Running?
    ensures Work(Step(c, Publish(i, shutdown))) < Work(c)
  {
    StatusDecreases(c, i, if shutdown then Finishing else Settled);
    assert c.responses[i := shutdown].Keys == c.responses.Keys + {i};
    assert |c.responses[i := shutdown]| == |c.responses[i := shutdown].Keys| && |c.responses| == |c.responses.Keys|;
  }

  lemma AdvanceDecreases(c: Control)
    requires c.writer.Looping?
    ensures Work(Step(c, Advance)) < Work(c)
  {
    if c.nextResponse in c.responses { FewerResponses(c.responses, c.nextResponse); }
  }

  /** Whatever the controller does by itself, it leaves less to do. */
  lemma ProgressDecreases(c: Control, e: Event)
    requires IsProgress(e) && Step(c, e) != c
    ensures Work(Step(c, e)) < Work(c)
  {
    match e
    case Start(i) => StatusDecreases(c, i, if c.closed then Settled else Running);
    case Publish(i, shutdown) => PublishDecreases(c, i, shutdown);
    case Settle(i) => StatusDecreases(c, i, Settled);
    case Advance => AdvanceDecreases(c);
    case _ =>
  }

  /** Events of the controller's own, each of which changes something. */
  ghost predicate Effective(events: seq<Event>, more: seq<Event>) {
    forall n :: 0 <= n < |more| ==> IsProgress(more[n]) && Step(Run(events + more[..n]), more[n]) != Run(events + more[..n])
  }

  lemma RunOneMore(events: seq<Event>, more: seq<Event>)
    requires more != []
    ensures Run(events + more) == Step(Run(events + more[..|more| - 1]), more[|more| - 1])
  {
    assert (events + more)[..|events + more| - 1] == events + more[..|more| - 1];
  }

  /** However it goes on, it goes on for no longer than the work that was left. */
  lemma {:induction false} EffectiveIsBounded(events: seq<Event>, more: seq<Event>)
    requires Effective(events, more)
    ensures |more| + Work(Run(events + more)) <= Work(Run(events))
  {
    if more == [] {
      assert events + more == events;
    } else {
      var n := |more| - 1;
      var rest := more[..n];
      assert forall i :: 0 <= i < n ==> rest[..i] == more[..i] && rest[i] == more[i];
      EffectiveIsBounded(events, rest);
      ProgressDecreases(Run(events + rest), more[n]);
      RunOneMore(events, more);
    }
  }

  /** Nothing the controller can do changes anything. */
  ghost predicate Exhausted(c: Control) {
    forall e :: IsProgress(e) ==> Step(c, e) == c
  }

  lemma UnfinishedCanMove(events: seq<Event>)
    requires !Quiescent(Run(events))
    ensures !Exhausted(Run(events))
  {
    NoDeadlock(events);
    var e :| IsProgress(e) && Work(Run(events + [e])) < Work(Run(events));
    assert (events + [e])[..|events|] == events;
  }

  lemma EffectiveIsProgress(events: seq<Event>, more: seq<Event>)
    requires Effective(events, more)
    ensures AllProgress(more)
  {
  }

  lemma StopOnlyStops(events: seq<Event>)
    ensures var c := Run(events + [Stop]);
            !c.accepting && Work(c) == Work(Run(events)) && |c.tasks| == |Run(events).tasks|
  {
    assert (events + [Stop])[..|events|] == events;
  }

  lemma ExhaustedEndsDrained(events: seq<Event>, requests: nat)
    requires Exhausted(Run(events)) && !Run(events).accepting && |Run(events).tasks| == requests
    ensures EndsDrained(Run(events), requests)
  {
    if !Quiescent(Run(events)) { UnfinishedCanMove(events); }
    if !Run(events).closed { DrainedMeansAnswered(events); }
  }

  /**
   After a stop, every way of going on is finite, and where it cannot go on the controller is drained:
   answered in full, or closed.
   */
  lemma StopAlwaysDrains(events: seq<Event>, more: seq<Event>)
    requires Effective(events + [Stop], more)
    ensures |more| <= Work(Run(events))
    ensures Exhausted(Run(events + [Stop] + more)) ==> EndsDrained(Run(events + [Stop] + more), |Run(events).tasks|)
  {
    var stopped := events + [Stop];
    StopOnlyStops(events);
    EffectiveIsBounded(stopped, more);
    EffectiveIsProgress(stopped, more);
    ProgressKeepsStopped(stopped, more);
    if Exhausted(Run(stopped + more)) { ExhaustedEndsDrained(stopped + more, |Run(events).tasks|); }
  }

  // ----- The controller object -----

  predicate CanWrite(c: Control) {
    c.writer.Looping? && !c.closed && c.nextResponse in c.responses
  }

  /** The next response is written; `failAt` is the response whose write fails, if any. */
  function WriteOne(c: Control, failAt: Option<nat>): (d: Control)
    requires CanWrite(c)
  {
    var n := c.nextResponse;
    var ends := c.responses[n] || failAt == Some(n);
    c.(responses := c.responses - {n}, nextResponse := n + 1, written := c.written + [(n, c.responses[n])],
       writer := if ends then Idle else Looping, accepting := c.accepting && !ends, closed := ends)
  }

  lemma WriteOneIsTwoSteps(c: Control, failAt: Option<nat>)
    requires CanWrite(c)
    ensures WriteOne(c, failAt) == Step(Step(c, Advance), if failAt == Some(c.nextResponse) then WriteFailed else WriteDone)
  {
  }

  /** One write job. */
  function RunJob(c: Control, failAt: Option<nat>): (d: Control)
    decreases |c.responses|
  {
    if !CanWrite(c) then c.(writer := Idle)
    else
      assert |c.responses - {c.nextResponse}| < |c.responses| by { FewerResponses(c.responses, c.nextResponse); }
      RunJob(WriteOne(c, failAt), failAt)
  }

  lemma FewerResponses(m: map<nat, bool>, k: nat)
    requires k in m
    ensures |m - {k}| < |m|
  {
    assert (m - {k}).Keys == m.Keys - {k};
    assert |(m - {k}).Keys| == |m - {k}| && |m.Keys| == |m|;
  }

  lemma WriteOneKeeps(c: Control, failAt: Option<nat>)
    requires CanWrite(c) && PublishInv(c)
    ensures PublishInv(WriteOne(c, failAt)) && |WriteOne(c, failAt).responses| < |c.responses|
  {
    WriteOneIsTwoSteps(c, failAt);
    FewerResponses(c.responses, c.nextResponse);
    StepKeepsPublish(c, Advance);
    StepKeepsPublish(Step(c, Advance), if failAt == Some(c.nextResponse) then WriteFailed else WriteDone);
  }

  lemma IdleKeeps(c: Control)
    requires PublishInv(c) && !CanWrite(c) && !c.writer.Writing? && (c.writer.Idle? ==> c.closed)
    ensures PublishInv(c.(writer := Idle))
  {
    WriterKeepsPublish(c, c.(writer := Idle));
  }

  /** A job writes everything that is ready: it stops at a gap, behind the shutdown response or at a failed write. */
  lemma {:induction false} JobWritesAllReady(c: Control, failAt: Option<nat>)
    requires PublishInv(c) && !c.writer.Writing? && (c.writer.Idle? ==> c.closed)
    ensures var d := RunJob(c, failAt);
            && PublishInv(d) && d.writer.Idle? && c.written <= d.written
            && (d.closed || d.nextResponse !in d.responses)
            && (failAt.Some? && c.nextResponse <= failAt.value < d.nextResponse ==>
                  d.closed && d.nextResponse == failAt.value + 1)
    decreases |c.responses|
  {
    if CanWrite(c) {
      WriteOneKeeps(c, failAt);
      JobWritesAllReady(WriteOne(c, failAt), failAt);
      if failAt == Some(c.nextResponse) { assert !CanWrite(WriteOne(c, failAt)); }
    } else {
      IdleKeeps(c);
    }
  }

  class BridgeJsonlControl {
    var tasks: seq<Task>
    var barrierTail: Option<nat>
    var responses: map<nat, bool>
    var nextResponse: nat
    var jobs: nat
    var writer: Writer
    var written: seq<(nat, bool)>
    var accepting: bool
    var closed: bool

    ghost function State(): (c: Control)
      reads this
    {
      Control(tasks, barrierTail, responses, nextResponse, jobs, writer, written, accepting, closed)
    }

    constructor ()
      ensures State() == INITIAL
    {
      tasks, barrierTail, responses, nextResponse, jobs := [], None, map[], 0, 0;
      writer, written, accepting, closed := Idle, [], true, false;
    }

    method ScheduleTask(barrier: bool)
      modifies this
      ensures State() == Step(old(State()), Schedule(barrier))
    {
      if !accepting { return; }
      var preceding: set<nat> := {};
      if barrier {
        for i := 0 to |tasks|
          invariant unchanged(this)
          invariant preceding == set j | 0 <= j < i && !tasks[j].status.Settled? :: j
        {
          if !tasks[i].status.Settled? { preceding := preceding + {i}; }
        }
      }
      var previous := if barrierTail.Some? then {barrierTail.value} else {};
      var sequence := |tasks|;
      tasks := tasks + [Task(barrier, previous + preceding, Waiting)];
      if barrier { barrierTail := Some(sequence); }
    }

    method PublishResponse(i: nat, shutdown: bool)
      requires i < |tasks| && tasks[i].status.Running?
      modifies this
      ensures State() == Step(old(State()), Publish(i, shutdown))
    {
      responses := responses[i := shutdown];
      jobs := jobs + 1;
      tasks := tasks[i := tasks[i].(status := if shutdown then Finishing else Settled)];
    }

    /** Writes the next response in order; the shutdown response and a failed write close the controller. */
    method WriteNext(failAt: Option<nat>)
      requires CanWrite(State())
      modifies this
      ensures State() == WriteOne(old(State()), failAt)
      ensures |responses| < old(|responses|)
    {
      FewerResponses(responses, nextResponse);
      var shutdown, fails := responses[nextResponse], failAt == Some(nextResponse);
      written := written + [(nextResponse, shutdown)];
      responses := responses - {nextResponse};
      nextResponse := nextResponse + 1;
      if fails || shutdown { accepting, closed, writer := false, true, Idle; }
    }

    /** The loop of one write job. */
    method WriteAllReady(failAt: Option<nat>)
      requires writer.Looping?
      modifies this
      ensures LeadsTo(old(State()), failAt, State())
    {
      ghost var all := RunJob(State(), failAt);
      while writer.Looping? && !closed && nextResponse in responses
        invariant LeadsTo(State(), failAt, all)
        decreases |responses|
      {
        JobGoesOn(State(), failAt, all);
        WriteNext(failAt);
      }
      JobStops(State(), failAt, all);
      writer := Idle;
    }

    method RunWriteJob(failAt: Option<nat>)
      requires jobs > 0 && writer.Idle?
      modifies this
      ensures State() == RunJob(Step(old(State()), BeginJob), failAt)
    {
      jobs := jobs - 1;
      writer := Looping;
      WriteAllReady(failAt);
    }
  }

  /** What is left of the job ends in `all`. */
  ghost predicate LeadsTo(c: Control, failAt: Option<nat>, all: Control) {
    RunJob(c, failAt) == all
  }

  lemma JobGoesOn(c: Control, failAt: Option<nat>, all: Control)
    requires LeadsTo(c, failAt, all) && CanWrite(c)
    ensures LeadsTo(WriteOne(c, failAt), failAt, all)
  {
  }

  lemma JobStops(c: Control, failAt: Option<nat>, all: Control)
    requires LeadsTo(c, failAt, all) && !CanWrite(c)
    ensures all == c.(writer := Idle)
  {
  }
}

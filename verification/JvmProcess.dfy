/**
 `process` of internal/javacworker/worker.go: one JVM child, the requests `send` registers with
 it and the reader that hands out their replies. A step is one lock section, one channel
 operation or one line of the JVM's output. The JVM may print anything and exit at any time;
 `kill` may come from any goroutine between any two steps.
 */
module JvmProcess {

  datatype Option<T> = None | Some(value: T)

  datatype Result = Report(report: string) | Failure(message: string) | Restarted

  /** A line of output as `read` decodes it. Unreadable: too long, cut off by the end of output, or not such a record. */
  datatype Line = Decoded(id: nat, report: string, error: Option<string>) | Unreadable

  predicate HasReport(l: Line)
    requires l.Decoded?
  {
    |l.report| > 0 && l.report != "null"
  }

  /** A reply names a request and holds a report or an error message, not both. */
  predicate Valid(l: Line) {
    l.Decoded? && l.id != 0 && HasReport(l) != l.error.Some?
  }

  function ResultOf(l: Line): Result
    requires Valid(l)
  {
    if HasReport(l) then Report(l.report) else Failure(l.error.value)
  }

  /** A registered request and its channel of capacity 1. Request ids count from 1. */
  datatype Request = Request(
    owner: Option<nat>,    // the call that reads the channel; None for the warm-up
    since: nat,            // replies looked up before it was registered
    queue: seq<Result>,    // what the channel holds
    got: seq<Result>)      // what its owner has received

  datatype Reader =
    | Reading
    | Found(line: Line)               // a valid reply, not looked up yet
    | Delivering(id: nat, r: Result)  // its request left the map, the channel is next
    | Refusing                        // an invalid line, kill is next
    | Draining
    | Exiting                         // in Wait
    | Exited                          // Wait is back, the pid is no longer the JVM's
    | Failing(left: set<nat>)         // these requests still get ErrRestarted
    | Done

  datatype Process = Process(
    dead: bool,
    reaped: bool,
    pending: Option<set<nat>>,   // the keys of the map; None once it is nil
    requests: seq<Request>,
    history: seq<Line>,          // the replies looked up so far
    reader: Reader,
    panicked: bool,              // an entry was added to the nil map
    strays: nat)                 // SIGKILLs sent after Wait had returned

  datatype Step =
    | Send(owner: Option<nat>)
    | Kill
    | Receive(id: nat)
    | Read(line: Line)
    | Look
    | Deliver
    | Refuse
    | Eof
    | WaitReturns
    | Reap
    | FailOne(id: nat)
    | CloseDone

  predicate HasRequest(p: Process, id: nat) { 1 <= id <= |p.requests| }

  /** A channel operation on request id's channel is possible: there is room, or something to take. */
  predicate Enabled(p: Process, step: Step) {
    match step
    case Send(_) => true
    case Kill => true
    case Receive(id) => HasRequest(p, id) && |p.requests[id - 1].queue| > 0
    case Read(_) => p.reader.Reading?
    case Look => p.reader.Found? && p.reader.line.Decoded?
    case Deliver => p.reader.Delivering? && HasRequest(p, p.reader.id) && |p.requests[p.reader.id - 1].queue| < 1
    case Refuse => p.reader.Refusing?
    case Eof => p.reader.Reading? || p.reader.Draining?
    case WaitReturns => p.reader.Exiting?
    case Reap => p.reader.Exited?
    case FailOne(id) => p.reader.Failing? && id in p.reader.left && HasRequest(p, id) && |p.requests[id - 1].queue| < 1
    case CloseDone => p.reader.Failing? && p.reader.left == {}
  }

  function Put(p: Process, id: nat, r: Result): Process
    requires HasRequest(p, id)
  {
    p.(requests := p.requests[id - 1 := p.requests[id - 1].(queue := p.requests[id - 1].queue + [r])])
  }

  function Register(p: Process, owner: Option<nat>): Process {
    if p.dead then p
    else if p.pending.None? then p.(panicked := true)
    else p.(pending := Some(p.pending.value + {|p.requests| + 1}), requests := p.requests + [Request(owner, |p.history|, [], [])])
  }

  /** The operating system has the pid back. */
  predicate PidReleased(p: Process) { p.reader.Exited? || p.reader.Failing? || p.reader.Done? }

  /** kill signals the process group unless it knows the JVM was reaped. */
  function Killed(p: Process): Process {
    p.(dead := true, strays := p.strays + (if !p.reaped && PidReleased(p) then 1 else 0))
  }

  function LookUp(p: Process): Process
    requires p.reader.Found? && p.reader.line.Decoded?
  {
    var line := p.reader.line;
    var p' := p.(history := p.history + [line]);
    if p.pending.Some? && line.id in p.pending.value && Valid(line)
    then p'.(pending := Some(p.pending.value - {line.id}), reader := Delivering(line.id, ResultOf(line)))
    else p'.(reader := Reading)
  }

  function Apply(p: Process, step: Step): Process
    requires Enabled(p, step)
  {
    match step
    case Send(owner) => Register(p, owner)
    case Kill => Killed(p)
    case Receive(id) =>
      var q := p.requests[id - 1];
      p.(requests := p.requests[id - 1 := q.(queue := q.queue[1..], got := q.got + [q.queue[0]])])
    case Read(line) => p.(reader := if Valid(line) then Found(line) else Refusing)
    case Look => LookUp(p)
    case Deliver => Put(p, p.reader.id, p.reader.r).(reader := Reading)
    case Refuse => Killed(p).(reader := Draining)
    case Eof => p.(reader := Exiting)
    case WaitReturns => p.(reader := Exited)
    case Reap =>
      p.(dead := true, reaped := true, pending := None, reader := Failing(if p.pending.Some? then p.pending.value else {}))
    case FailOne(id) => Put(p, id, Restarted).(reader := Failing(p.reader.left - {id}))
    case CloseDone => p.(reader := Done)
  }

  const Spawned: Process := Process(false, false, Some({}), [], [], Reading, false, 0)

  predicate Executable(p: Process, steps: seq<Step>)
    decreases |steps|
  {
    steps == [] || (Enabled(p, steps[0]) && Executable(Apply(p, steps[0]), steps[1..]))
  }

  function Exec(p: Process, steps: seq<Step>): Process
    requires Executable(p, steps)
    decreases |steps|
  {
    if steps == [] then p else Exec(Apply(p, steps[0]), steps[1..])
  }

  // ----- the invariant

  /** history[k] is the first reply with this id since the request was registered. */
  ghost predicate First(history: seq<Line>, since: nat, id: nat, k: nat) {
    && since <= k < |history| && Valid(history[k]) && history[k].id == id
    && forall j: nat :: since <= j < k ==> !(Valid(history[j]) && history[j].id == id)
  }

  ghost predicate Unanswered(history: seq<Line>, since: nat, id: nat) {
    forall j: nat :: since <= j < |history| ==> !(Valid(history[j]) && history[j].id == id)
  }

  /** r is the result a request deserves: its own first reply, or ErrRestarted from a JVM that is gone without one. */
  ghost predicate Deserves(p: Process, id: nat, r: Result)
    requires HasRequest(p, id)
  {
    var since := p.requests[id - 1].since;
    || (exists k: nat :: First(p.history, since, id, k) && r == ResultOf(p.history[k]))
    || (r == Restarted && p.reaped && Unanswered(p.history, since, id))
  }

  function Received(q: Request): seq<Result> { q.got + q.queue }

  predicate Waits(p: Process, id: nat) {
    (p.pending.Some? && id in p.pending.value) || (p.reader.Failing? && id in p.reader.left)
  }

  ghost predicate RequestOk(p: Process, id: nat)
    requires HasRequest(p, id)
  {
    var q := p.requests[id - 1];
    && q.since <= |p.history|
    && if Waits(p, id) then
         Received(q) == [] && Unanswered(p.history, q.since, id) && !(p.reader.Delivering? && p.reader.id == id)
       else if p.reader.Delivering? && p.reader.id == id then
         Received(q) == [] && Deserves(p, id, p.reader.r)
       else
         |Received(q)| == 1 && Deserves(p, id, Received(q)[0])
  }

  ghost predicate ReaderOk(p: Process) {
    && !p.panicked
    && (p.pending.Some? <==> !p.reaped)
    && (p.reaped <==> p.reader.Failing? || p.reader.Done?)
    && (p.reaped ==> p.dead)
    && (forall id :: Waits(p, id) ==> HasRequest(p, id))
    && (p.reader.Delivering? ==> HasRequest(p, p.reader.id))
    && (p.reader.Found? ==> Valid(p.reader.line))
  }

  ghost predicate Inv(p: Process) {
    && ReaderOk(p)
    && forall id: nat :: HasRequest(p, id) ==> RequestOk(p, id)
  }

  lemma SpawnedInv()
    ensures Inv(Spawned)
  {}

  lemma DeservesStays(p: Process, p': Process, id: nat, r: Result)
    requires HasRequest(p, id) && HasRequest(p', id) && Deserves(p, id, r)
    requires p'.requests[id - 1].since == p.requests[id - 1].since && p.history <= p'.history
    requires p.reaped ==> p'.reaped && p'.history == p.history
    ensures Deserves(p', id, r)
  {
    var since := p.requests[id - 1].since;
    if k: nat :| First(p.history, since, id, k) && r == ResultOf(p.history[k]) {
      assert First(p'.history, since, id, k);
    }
  }

  lemma LookKeeps(p: Process, id: nat)
    requires Inv(p) && Enabled(p, Look) && HasRequest(p, id)
    ensures RequestOk(Apply(p, Look), id)
  {
    var p' := Apply(p, Look);
    var q := p.requests[id - 1];
    assert RequestOk(p, id);
    if Waits(p, id) {
      if p.reader.line.id == id {
        assert First(p'.history, q.since, id, |p.history|);
      }
    } else {
      DeservesStays(p, p', id, Received(q)[0]);
    }
  }

  lemma SendKeeps(p: Process, owner: Option<nat>, id: nat)
    requires Inv(p) && HasRequest(Register(p, owner), id)
    ensures RequestOk(Register(p, owner), id)
  {
    var p' := Register(p, owner);
    if HasRequest(p, id) {
      assert RequestOk(p, id);
      OtherRequestKeeps(p, p', id);
    }
  }

  /** A request whose result is not touched, by a step that looks nothing up. */
  lemma OtherRequestKeeps(p: Process, p': Process, id: nat)
    requires HasRequest(p, id) && HasRequest(p', id) && RequestOk(p, id)
    requires p'.history == p.history && (p.reaped ==> p'.reaped)
    requires Received(p'.requests[id - 1]) == Received(p.requests[id - 1]) && p'.requests[id - 1].since == p.requests[id - 1].since
    requires Waits(p', id) <==> Waits(p, id)
    requires (p'.reader.Delivering? && p'.reader.id == id) <==> (p.reader.Delivering? && p.reader.id == id)
    requires p'.reader.Delivering? && p'.reader.id == id ==> p'.reader == p.reader
    ensures RequestOk(p', id)
  {
    if p.reader.Delivering? && p.reader.id == id {
      DeservesStays(p, p', id, p.reader.r);
    } else if !Waits(p, id) {
      DeservesStays(p, p', id, Received(p.requests[id - 1])[0]);
    }
  }

  lemma ReceiveKeeps(p: Process, mine: nat, id: nat)
    requires Inv(p) && Enabled(p, Receive(mine)) && HasRequest(p, id)
    ensures RequestOk(Apply(p, Receive(mine)), id)
  {
    var p' := Apply(p, Receive(mine));
    assert RequestOk(p, id);
    assert Received(p'.requests[id - 1]) == Received(p.requests[id - 1]);
    OtherRequestKeeps(p, p', id);
  }

  lemma DeliverKeeps(p: Process, id: nat)
    requires Inv(p) && Enabled(p, Deliver) && HasRequest(p, id)
    ensures RequestOk(Apply(p, Deliver), id)
  {
    var p' := Apply(p, Deliver);
    assert RequestOk(p, id);
    if id == p.reader.id {
      DeservesStays(p, p', id, p.reader.r);
      assert Received(p'.requests[id - 1]) == [p.reader.r];
    } else {
      OtherRequestKeeps(p, p', id);
    }
  }

  lemma FailOneKeeps(p: Process, mine: nat, id: nat)
    requires Inv(p) && Enabled(p, FailOne(mine)) && HasRequest(p, id)
    ensures RequestOk(Apply(p, FailOne(mine)), id)
  {
    var p' := Apply(p, FailOne(mine));
    assert RequestOk(p, id);
    if id == mine {
      assert Waits(p, id) && Deserves(p', id, Restarted);
      assert Received(p'.requests[id - 1]) == [Restarted];
    } else {
      OtherRequestKeeps(p, p', id);
    }
  }

  lemma ReaderMoves(p: Process, step: Step, id: nat)
    requires Inv(p) && Enabled(p, step) && HasRequest(p, id)
    requires !step.Send? && !step.Receive? && !step.Deliver? && !step.FailOne? && !step.Look?
    ensures RequestOk(Apply(p, step), id)
  {
    assert RequestOk(p, id);
    OtherRequestKeeps(p, Apply(p, step), id);
  }

  lemma StepKeeps(p: Process, step: Step)
    requires Inv(p) && Enabled(p, step)
    ensures Inv(Apply(p, step))
  {
    ReaderKeeps(p, step);
    forall id: nat | HasRequest(Apply(p, step), id) ensures RequestOk(Apply(p, step), id) {
      match step
      case Look => LookKeeps(p, id);
      case Send(owner) => SendKeeps(p, owner, id);
      case Receive(mine) => ReceiveKeeps(p, mine, id);
      case Deliver => DeliverKeeps(p, id);
      case FailOne(mine) => FailOneKeeps(p, mine, id);
      case _ => ReaderMoves(p, step, id);
    }
  }

  lemma ReaderKeeps(p: Process, step: Step)
    requires Inv(p) && Enabled(p, step)
    ensures ReaderOk(Apply(p, step))
  {
    var p' := Apply(p, step);
    forall id: nat | Waits(p', id) ensures HasRequest(p', id) {
      assert Waits(p, id) || id == |p'.requests|;
    }
    assert p.reader.Found? && Waits(p, p.reader.line.id) ==> HasRequest(p, p.reader.line.id);
  }

  lemma {:induction false} ExecKeeps(p: Process, steps: seq<Step>)
    requires Inv(p) && Executable(p, steps)
    ensures Inv(Exec(p, steps))
    decreases |steps|
  {
    hide Inv, Enabled, Apply;
    if steps != [] {
      StepKeeps(p, steps[0]);
      ExecKeeps(Apply(p, steps[0]), steps[1..]);
    }
  }

  // ----- what holds in every run

  /**
   Every registered request gets at most one result, and exactly one by the time done closes: the first reply with its
   own id that was looked up after it registered, or ErrRestarted when there is none.
   */
  lemma OneResultEach(steps: seq<Step>, id: nat)
    requires Executable(Spawned, steps) && HasRequest(Exec(Spawned, steps), id)
    ensures var p := Exec(Spawned, steps); var all := Received(p.requests[id - 1]);
      && |all| <= 1 && (p.reader.Done? ==> |all| == 1)
      && forall r :: r in all ==> Deserves(p, id, r)
  {
    SpawnedInv();
    ExecKeeps(Spawned, steps);
    assert RequestOk(Exec(Spawned, steps), id);
  }

  /** The channel the reader is about to send on has room: it never blocks on a request, before the reap or after it. */
  lemma ReaderNeverBlocks(steps: seq<Step>)
    requires Executable(Spawned, steps)
    ensures var p := Exec(Spawned, steps);
      && (p.reader.Found? ==> Enabled(p, Look))
      && (p.reader.Delivering? ==> Enabled(p, Deliver))
      && (p.reader.Failing? ==> forall id :: id in p.reader.left ==> Enabled(p, FailOne(id)))
  {
    SpawnedInv();
    ExecKeeps(Spawned, steps);
    var p := Exec(Spawned, steps);
    if p.reader.Delivering? { assert RequestOk(p, p.reader.id); }
    forall id | p.reader.Failing? && id in p.reader.left ensures Enabled(p, FailOne(id)) {
      assert Waits(p, id) && RequestOk(p, id);
    }
  }

  /** send never adds to the map once the reaper has set it to nil. */
  lemma NeverAddsToNil(steps: seq<Step>)
    requires Executable(Spawned, steps)
    ensures !Exec(Spawned, steps).panicked
  {
    SpawnedInv();
    ExecKeeps(Spawned, steps);
  }

  /** Once Wait has returned, the reader alone gets to close done, whatever it still has to fail. */
  lemma DoneCloses(p: Process) returns (steps: seq<Step>)
    requires Inv(p) && p.reader.Exited?
    ensures |steps| == |p.pending.value| + 2
    ensures Executable(p, steps) && Exec(p, steps).reader.Done?
    ensures forall k :: 0 <= k < |steps| ==> !steps[k].Send? && !steps[k].Receive?
  {
    StepKeeps(p, Reap);
    var rest := FailsTheRest(Apply(p, Reap));
    steps := [Reap] + rest;
    assert steps[1..] == rest;
  }

  lemma {:induction false} FailsTheRest(p: Process) returns (steps: seq<Step>)
    requires Inv(p) && p.reader.Failing?
    ensures |steps| == |p.reader.left| + 1
    ensures Executable(p, steps) && Exec(p, steps).reader.Done?
    ensures forall k :: 0 <= k < |steps| ==> !steps[k].Send? && !steps[k].Receive?
    decreases |p.reader.left|
  {
    if p.reader.left == {} {
      steps := [CloseDone];
      assert Executable(Apply(p, CloseDone), steps[1..]);
    } else {
      var id :| id in p.reader.left;
      assert Waits(p, id) && RequestOk(p, id);
      StepKeeps(p, FailOne(id));
      var rest := FailsTheRest(Apply(p, FailOne(id)));
      steps := [FailOne(id)] + rest;
      assert steps[1..] == rest;
    }
  }

  function ReaderRank(r: Reader): nat {
    match r
    case Found(_) => 6
    case Delivering(_, _) => 5
    case Refusing => 5
    case Reading => 4
    case Draining => 4
    case Exiting => 3
    case Exited => 2
    case Failing(_) => 1
    case Done => 0
  }

  /** Steps that lead to done with nothing sent or received. */
  predicate Finishes(p: Process, steps: seq<Step>) {
    && Executable(p, steps) && Exec(p, steps).reader.Done?
    && forall k :: 0 <= k < |steps| ==> !steps[k].Send? && !steps[k].Receive?
  }

  /** From every reachable state, the end of the JVM's output and the reader's own steps lead to done. */
  lemma DoneIsReachable(run: seq<Step>)
    requires Executable(Spawned, run)
    ensures exists steps :: Finishes(Exec(Spawned, run), steps)
  {
    SpawnedInv();
    ExecKeeps(Spawned, run);
    var steps := CanFinish(Exec(Spawned, run));
    assert Finishes(Exec(Spawned, run), steps);
  }

  lemma {:induction false} CanFinish(p: Process) returns (steps: seq<Step>)
    requires Inv(p)
    ensures Executable(p, steps) && Exec(p, steps).reader.Done?
    ensures forall k :: 0 <= k < |steps| ==> !steps[k].Send? && !steps[k].Receive?
    decreases ReaderRank(p.reader)
  {
    if p.reader.Done? {
      steps := [];
    } else if p.reader.Exited? || p.reader.Failing? {
      steps := FinishesAfterWait(p);
    } else {
      if p.reader.Delivering? { assert RequestOk(p, p.reader.id); }
      var step :=
        if p.reader.Found? then Look else if p.reader.Delivering? then Deliver
        else if p.reader.Refusing? then Refuse else if p.reader.Exiting? then WaitReturns else Eof;
      StepKeeps(p, step);
      var rest := CanFinish(Apply(p, step));
      steps := [step] + rest;
      assert steps[1..] == rest;
    }
  }

  lemma FinishesAfterWait(p: Process) returns (steps: seq<Step>)
    requires Inv(p) && (p.reader.Exited? || p.reader.Failing?)
    ensures Executable(p, steps) && Exec(p, steps).reader.Done?
    ensures forall k :: 0 <= k < |steps| ==> !steps[k].Send? && !steps[k].Receive?
  {
    if p.reader.Exited? { steps := DoneCloses(p); } else { steps := FailsTheRest(p); }
  }

  /** A kill signals a pid that Wait has already given back exactly when it falls between that return and the reaper's lock. */
  lemma StrayKillIff(steps: seq<Step>)
    requires Executable(Spawned, steps)
    ensures var p := Exec(Spawned, steps);
      && (Apply(p, Kill).strays > p.strays <==> p.reader.Exited?)
      && (p.reaped ==> Apply(p, Kill) == p)
  {
    SpawnedInv();
    ExecKeeps(Spawned, steps);
  }

  /** That window is reachable. */
  lemma KillCanBeStray()
    ensures exists steps :: Executable(Spawned, steps) && Exec(Spawned, steps).strays == 1
  {
    var steps := [Eof, WaitReturns, Kill];
    var p1 := Apply(Spawned, Eof);
    var p2 := Apply(p1, WaitReturns);
    assert steps[1..] == [WaitReturns, Kill] && [WaitReturns, Kill][1..] == [Kill] && [Kill][1..] == [];
    assert Exec(p2, [Kill]) == Apply(p2, Kill);
    assert Exec(p1, [WaitReturns, Kill]) == Exec(p2, [Kill]);
    assert Executable(Spawned, steps) && Exec(Spawned, steps).strays == 1;
  }

  // ----- the object

  class Channel {
    var queue: seq<Result>

    constructor ()
      ensures queue == []
    {
      queue := [];
    }
  }

  /** The fields of `process` that its mutex guards, with the channels in them. */
  class Jvm {
    var nextID: nat
    var pending: Option<map<nat, Channel>>
    var dead: bool
    var reaped: bool
    var reason: string
    ghost var log: seq<Channel>   // the channel of every request ever registered

    ghost predicate In(p: Process)
      reads this, log
    {
      && nextID == |log| == |p.requests|
      && dead == p.dead && reaped == p.reaped
      && (pending.Some? <==> p.pending.Some?)
      && (pending.Some? ==> pending.value.Keys == p.pending.value)
      && (pending.Some? ==> forall id :: id in pending.value ==> 1 <= id <= |log| && pending.value[id] == log[id - 1])
      && (forall i, j :: 0 <= i < j < |log| ==> log[i] != log[j])
      && (forall i :: 0 <= i < |log| ==> log[i].queue == p.requests[i].queue)
    }

    constructor ()
      ensures In(Spawned) && reason == ""
    {
      nextID, pending, dead, reaped, reason, log := 0, Some(map[]), false, false, "", [];
    }

    /** A fresh channel under the next id, or null from a process marked dead. */
    method Send(ghost p: Process, ghost owner: Option<nat>) returns (ch: Channel?)
      requires In(p) && Inv(p)
      modifies this`nextID, this`pending, this`log
      ensures In(Apply(p, Step.Send(owner)))
      ensures ch == null <==> dead
      ensures ch != null ==> fresh(ch) && log == old(log) + [ch] && ch.queue == []
    {
      if dead { return null; }
      ch := new Channel();
      nextID := nextID + 1;
      pending := Some(pending.value[nextID := ch]);
      log := log + [ch];
    }

    /** No new requests; returns whether the process group is signalled. The first reason is kept. */
    method Kill(why: string, ghost p: Process) returns (signal: bool)
      requires In(p) && Inv(p)
      modifies this`dead, this`reason
      ensures In(Apply(p, Step.Kill))
      ensures reason == (if old(reason) == "" then why else old(reason))
      ensures signal <==> !p.reader.Failing? && !p.reader.Done?
    {
      if reason == "" { reason := why; }
      dead := true;
      signal := !reaped;
    }

    /** The lookup of one reply: its request's channel, taken out of the map, or null for an unknown id. */
    method Look(id: nat, ghost p: Process) returns (ch: Channel?)
      requires In(p) && Inv(p) && p.reader.Found? && id == p.reader.line.id
      modifies this`pending
      ensures In(Apply(p, Step.Look))
      ensures ch != null <==> Apply(p, Step.Look).reader.Delivering?
      ensures ch != null ==> 1 <= id <= |log| && ch == log[id - 1]
    {
      if pending.Some? && id in pending.value {
        ch := pending.value[id];
        pending := Some(pending.value - {id});
      } else {
        ch := null;
      }
    }

    method Deliver(ch: Channel, r: Result, ghost p: Process)
      requires In(p) && Enabled(p, Step.Deliver) && ch == log[p.reader.id - 1] && r == p.reader.r
      modifies ch
      ensures In(Apply(p, Step.Deliver)) && |ch.queue| == 1
    {
      ch.queue := ch.queue + [r];
    }

    /** After Wait: no more requests, and what was pending is the caller's to fail. */
    method Reap(ghost p: Process) returns (left: map<nat, Channel>)
      requires In(p) && Inv(p) && Enabled(p, Step.Reap)
      modifies this`dead, this`reaped, this`pending
      ensures In(Apply(p, Step.Reap)) && left.Keys == p.pending.value
      ensures forall id :: id in left ==> 1 <= id <= |log| && left[id] == log[id - 1]
    {
      dead, reaped := true, true;
      left := pending.value;
      pending := None;
    }
  }
}

/**
 `Worker` of internal/javacworker/worker.go as a machine of interleaved goroutines: any number of
 Check calls with the goroutines that `finish` them, the supervisor, the JVMs it starts with
 their readers, Close, and a clock. A step is one lock section, one channel operation or one
 firing of a timer.
 */
module WorkerModel {
  import opened Sums
  import J = JvmProcess

  type Option<T> = J.Option<T>

  datatype Context = Live | Expired | Cancelled

  /** The run budget's timer and its channel of one tick. */
  datatype Timer = Unset | Armed(at: int) | Ticked(at: int) | Taken(at: int, byFinish: bool) | Stopped

  datatype Answer = Output(r: J.Result) | TimedOut | WasCancelled | WasRestarted | HasFailed | IsClosed

  /** A request on a JVM: which, under what id, and when it was sent. */
  datatype Sent = Sent(proc: nat, id: nat, at: int)

  datatype Phase =
    | Queued                                   // in the select for a slot
    | Looping                                  // about to read the worker's fields
    | Looked(seen: Option<nat>, ch: nat)       // has read current and changed; isDead is next
    | Blocked(seen: Option<nat>, ch: nat)      // in the select of await
    | Chosen(proc: nat)                        // await returned; the context test is next
    | Sending(proc: nat)
    | Tracking
    | Waiting                                  // in the select of wait, or of finish
    | Racing                                   // the deadline passed; one last look at the reply
    | Poisoning                                // took the budget's tick; poison looks at the reply
    | Condemning                               // there was none; kill is next
    | Burying                                  // until the JVM is done
    | Settled(r: J.Result)
    | Untracking
    | Leaving                                  // the slot's release is next
    | Gone

  /** A Check call; after `handedOff` its steps are those of its finish goroutine. */
  datatype Call = Call(
    deadline: Option<int>,
    ctx: Context,
    phase: Phase,
    sent: Option<Sent>,
    budget: Timer,
    handedOff: bool,
    answer: Option<Answer>,
    taken: nat,        // sends on the semaphore
    released: nat)     // receives from it

  datatype Supervisor =
    | Launching                                // the first lock section of launch
    | Spawning
    | Launched(proc: nat)                      // the second
    | Greeting(proc: nat)                      // sends the warm-up
    | Warming(proc: nat, id: nat, until: int)
    | Dropping(proc: nat)                      // the start failed: kill is next
    | Dropped(proc: nat)                       // until it is done
    | StartFailed
    | Pausing(until: int)
    | Publishing(proc: nat)
    | Serving(proc: nat)
    | Shutting(proc: nat)                      // closed: kill is next
    | Shut(proc: nat)                          // until it is done
    | Returned

  datatype Config = Config(threads: nat, runBudget: int, warmupTimeout: int, backoff: seq<nat>)

  datatype State = State(
    cfg: Config,
    now: int,
    sem: nat,
    calls: seq<Call>,
    procs: seq<J.Process>,      // every JVM ever started
    current: Option<nat>,
    starting: Option<nat>,
    changed: nat,               // the channels closed so far: channel ch is open while ch == changed
    failErr: bool,
    closed: bool,
    ready: nat,                 // how often each of these channels was closed
    failed: nat,
    done: nat,
    inFlight: map<nat, int>,    // send times by call
    sup: Supervisor,
    failures: nat,
    starts: seq<bool>)          // the outcome of every start so far

  datatype CallStep =
    | Expire | Cancel | BudgetFires
    | TakeSlot | ContextEndsQueue | QuitEndsQueue
    | Look | Judge | Wake | ContextEndsAwait | TestContext | Send | Track
    | TakeReply | TakeTick | DeadlinePasses | LastLook
    | PoisonLook | PoisonKill | Buried
    | Settle | Untrack | Leave

  datatype SupervisorStep =
    | Launch | Spawn(ok: bool) | Start | Greet | WarmReply(valid: bool) | WarmTimeout
    | Drop | StartOver | NoteFailure | Resume | QuitPause
    | Publish | Retire | ShutKill | ShutDone

  datatype Step =
    | Arrive(deadline: Option<int>)
    | Act(c: nat, a: CallStep)
    | Supervise(move: SupervisorStep)
    | Jvm(p: nat, j: J.Step)
    | Close
    | Pass(d: nat)

  // ----- calls

  predicate ContextDone(x: Call) { !x.ctx.Live? }

  function ContextAnswer(x: Call): Answer { if x.ctx.Cancelled? then WasCancelled else TimedOut }

  /** The phases of a request whose reply has not been received. */
  predicate Outstanding(p: Phase) {
    p.Tracking? || p.Waiting? || p.Racing? || p.Poisoning? || p.Condemning? || p.Burying?
  }

  predicate HoldsSlot(p: Phase) { !p.Queued? && !p.Gone? }

  const Slot: Call -> int := (x: Call) => if HoldsSlot(x.phase) then 1 else 0

  predicate IsSent(s: State, x: Call) {
    x.sent.Some? && x.sent.value.proc < |s.procs| && J.HasRequest(s.procs[x.sent.value.proc], x.sent.value.id)
  }

  function Channel(s: State, x: Call): seq<J.Result>
    requires IsSent(s, x)
  {
    s.procs[x.sent.value.proc].requests[x.sent.value.id - 1].queue
  }

  /** The steps of a call up to its JVM, and those of its context and its timer. */
  predicate IsAwait(a: CallStep) {
    a.Expire? || a.Cancel? || a.BudgetFires? || a.TakeSlot? || a.ContextEndsQueue? || a.QuitEndsQueue?
    || a.Look? || a.Judge? || a.Wake? || a.ContextEndsAwait? || a.TestContext?
  }

  predicate AwaitEnabled(s: State, x: Call, a: CallStep)
    requires IsAwait(a)
  {
    match a
    case Expire => x.ctx.Live? && x.deadline.Some? && s.now >= x.deadline.value
    case Cancel => x.ctx.Live?
    case BudgetFires => x.budget.Armed? && s.now >= x.budget.at
    case TakeSlot => x.phase.Queued? && s.sem < s.cfg.threads
    case ContextEndsQueue => x.phase.Queued? && ContextDone(x)
    case QuitEndsQueue => x.phase.Queued? && s.closed
    case Look => x.phase.Looping?
    case Judge => x.phase.Looked? && (x.phase.seen.Some? ==> x.phase.seen.value < |s.procs|)
    case Wake => x.phase.Blocked? && x.phase.ch < s.changed
    case ContextEndsAwait => x.phase.Blocked? && ContextDone(x)
    case TestContext => x.phase.Chosen?
  }

  /** The steps from the send on. */
  predicate RunEnabled(s: State, x: Call, a: CallStep)
    requires !IsAwait(a)
  {
    match a
    case Send => x.phase.Sending? && x.phase.proc < |s.procs|
    case Track => x.phase.Tracking?
    case TakeReply => x.phase.Waiting? && IsSent(s, x) && |Channel(s, x)| > 0
    case TakeTick => x.phase.Waiting? && x.budget.Ticked?
    case DeadlinePasses => x.phase.Waiting? && !x.handedOff && x.deadline.Some? && s.now >= x.deadline.value
    case LastLook => x.phase.Racing? && IsSent(s, x)
    case PoisonLook => x.phase.Poisoning? && IsSent(s, x)
    case PoisonKill => x.phase.Condemning? && IsSent(s, x)
    case Buried => x.phase.Burying? && IsSent(s, x) && s.procs[x.sent.value.proc].reader.Done?
    case Settle => x.phase.Settled?
    case Untrack => x.phase.Untracking?
    case Leave => x.phase.Leaving? && s.sem > 0
  }

  predicate CallEnabled(s: State, c: nat, a: CallStep) {
    c < |s.calls| && if IsAwait(a) then AwaitEnabled(s, s.calls[c], a) else RunEnabled(s, s.calls[c], a)
  }

  function PutCall(s: State, c: nat, x: Call): State
    requires c < |s.calls|
  {
    s.(calls := s.calls[c := x])
  }

  function PutProc(s: State, p: nat, j: J.Step): State
    requires p < |s.procs| && J.Enabled(s.procs[p], j)
  {
    s.(procs := s.procs[p := J.Apply(s.procs[p], j)])
  }

  /** The answer of a call that ends here; a finish goroutine has none to give. */
  function Ends(x: Call, a: Answer, phase: Phase): Call {
    x.(phase := phase, answer := if x.handedOff then x.answer else J.Some(a))
  }

  /** Receives the reply the channel holds. */
  function Receives(s: State, c: nat): State
    requires c < |s.calls| && IsSent(s, s.calls[c]) && |Channel(s, s.calls[c])| > 0
  {
    var x := s.calls[c];
    PutCall(PutProc(s, x.sent.value.proc, J.Receive(x.sent.value.id)), c, x.(phase := Settled(Channel(s, x)[0])))
  }

  /** `output`; closed is read under the lock once the reply is in hand. */
  function OutputOf(s: State, r: J.Result): Answer {
    if !r.Restarted? then Output(r) else if s.closed then IsClosed else WasRestarted
  }

  function DoLook(s: State, x: Call): Call {
    if s.closed then Ends(x, IsClosed, Leaving)
    else if s.failErr then Ends(x, HasFailed, Leaving)
    else x.(phase := Looked(s.current, s.changed))
  }

  function DoSend(s: State, c: nat, p: nat): State
    requires c < |s.calls| && p < |s.procs|
  {
    var x := s.calls[c];
    if s.procs[p].dead then PutCall(s, c, x.(phase := Looping))
    else
      var s' := PutProc(s, p, J.Send(J.Some(c)));
      PutCall(s', c, x.(phase := Tracking, sent := J.Some(Sent(p, |s'.procs[p].requests|, s.now))))
  }

  /** track, and the run budget's timer. */
  function DoTrack(s: State, c: nat): State
    requires c < |s.calls|
  {
    var x := s.calls[c].(phase := Waiting, budget := Armed(s.now + s.cfg.runBudget));
    PutCall(s, c, x).(inFlight := s.inFlight[c := s.now])
  }

  function DoUntrack(s: State, c: nat): State
    requires c < |s.calls|
  {
    var b := s.calls[c].budget;
    PutCall(s, c, s.calls[c].(phase := Leaving, budget := if b.Taken? then b else Stopped)).(inFlight := s.inFlight - {c})
  }

  function AwaitCall(s: State, x: Call, a: CallStep): Call
    requires IsAwait(a) && AwaitEnabled(s, x, a)
  {
    match a
    case Expire => x.(ctx := Expired)
    case Cancel => x.(ctx := Cancelled)
    case BudgetFires => x.(budget := Ticked(x.budget.at))
    case TakeSlot => x.(phase := Looping, taken := x.taken + 1)
    case ContextEndsQueue => Ends(x, ContextAnswer(x), Gone)
    case QuitEndsQueue => Ends(x, IsClosed, Gone)
    case Look => DoLook(s, x)
    case Judge =>
      x.(phase :=
        if x.phase.seen.Some? && !s.procs[x.phase.seen.value].dead then Chosen(x.phase.seen.value)
        else Blocked(x.phase.seen, x.phase.ch))
    case Wake => x.(phase := Looping)
    case ContextEndsAwait => Ends(x, ContextAnswer(x), Leaving)
    case TestContext => if ContextDone(x) then Ends(x, ContextAnswer(x), Leaving) else x.(phase := Sending(x.phase.proc))
  }

  function AwaitApply(s: State, c: nat, a: CallStep): State
    requires IsAwait(a) && c < |s.calls| && AwaitEnabled(s, s.calls[c], a)
  {
    PutCall(s, c, AwaitCall(s, s.calls[c], a)).(sem := if a.TakeSlot? then s.sem + 1 else s.sem)
  }

  function RunApply(s: State, c: nat, a: CallStep): State
    requires !IsAwait(a) && c < |s.calls| && RunEnabled(s, s.calls[c], a)
  {
    var x := s.calls[c];
    match a
    case Send => DoSend(s, c, x.phase.proc)
    case Track => DoTrack(s, c)
    case TakeReply => Receives(s, c)
    case TakeTick => PutCall(s, c, x.(phase := Poisoning, budget := Taken(x.budget.at, x.handedOff)))
    case DeadlinePasses => PutCall(s, c, x.(phase := Racing))
    case LastLook =>
      if |Channel(s, x)| > 0 then Receives(s, c)
      else PutCall(s, c, x.(phase := Waiting, handedOff := true, answer := J.Some(TimedOut)))
    case PoisonLook => if |Channel(s, x)| > 0 then Receives(s, c) else PutCall(s, c, x.(phase := Condemning))
    case PoisonKill => PutCall(PutProc(s, x.sent.value.proc, J.Kill), c, x.(phase := Burying))
    case Buried => PutCall(s, c, Ends(x, TimedOut, Untracking))
    case Settle => PutCall(s, c, Ends(x, OutputOf(s, x.phase.r), Untracking))
    case Untrack => DoUntrack(s, c)
    case Leave => PutCall(s, c, x.(phase := Gone, released := x.released + 1)).(sem := s.sem - 1)
  }

  function CallApply(s: State, c: nat, a: CallStep): State
    requires CallEnabled(s, c, a)
  {
    if IsAwait(a) then AwaitApply(s, c, a) else RunApply(s, c, a)
  }

  // ----- the supervisor

  predicate HasWarmReply(s: State, p: nat, id: nat) {
    p < |s.procs| && J.HasRequest(s.procs[p], id) && |s.procs[p].requests[id - 1].queue| > 0
  }

  predicate Done(s: State, p: nat) { p < |s.procs| && s.procs[p].reader.Done? }

  predicate SupervisorEnabled(s: State, a: SupervisorStep) {
    match a
    case Launch => s.sup.Launching?
    case Spawn(_) => s.sup.Spawning?
    case Start => s.sup.Launched?
    case Greet => s.sup.Greeting? && s.sup.proc < |s.procs|
    case WarmReply(_) => s.sup.Warming? && HasWarmReply(s, s.sup.proc, s.sup.id)
    case WarmTimeout => s.sup.Warming? && s.now >= s.sup.until
    case Drop => s.sup.Dropping? && s.sup.proc < |s.procs|
    case StartOver => s.sup.Dropped? && Done(s, s.sup.proc)
    case NoteFailure => s.sup.StartFailed? && s.failures <= |s.cfg.backoff|
    case Resume => s.sup.Pausing? && s.now >= s.sup.until
    case QuitPause => s.sup.Pausing? && s.closed
    case Publish => s.sup.Publishing?
    case Retire => s.sup.Serving? && Done(s, s.sup.proc)
    case ShutKill => s.sup.Shutting? && s.sup.proc < |s.procs|
    case ShutDone => s.sup.Shut? && Done(s, s.sup.proc)
  }

  function Broadcast(s: State): State { s.(changed := s.changed + 1) }

  /** supervise returns; its deferred call closes done. */
  function Return(s: State): State { s.(sup := Returned, done := s.done + 1) }

  function DoGreet(s: State, p: nat): State
    requires p < |s.procs|
  {
    if s.procs[p].dead then s.(sup := Dropping(p))
    else PutProc(s, p, J.Send(J.None)).(sup := Warming(p, |s.procs[p].requests| + 1, s.now + s.cfg.warmupTimeout))
  }

  /** One more failed start: a pause, or after the last one the end. */
  function DoNoteFailure(s: State): State
    requires s.failures <= |s.cfg.backoff|
  {
    var s' := s.(failures := s.failures + 1, starts := s.starts + [false]);
    if s'.failures > |s.cfg.backoff| then Return(Broadcast(s'.(failErr := true, failed := s.failed + 1)))
    else s'.(sup := Pausing(s.now + s.cfg.backoff[s'.failures - 1]))
  }

  function DoPublish(s: State, p: nat): State {
    var s' := s.(failures := 0, starts := s.starts + [true], starting := J.None);
    if s.closed then s'.(sup := Shutting(p))
    else Broadcast(s'.(current := J.Some(p), ready := if s.ready == 0 then 1 else s.ready, sup := Serving(p)))
  }

  function DoRetire(s: State): State {
    var s' := Broadcast(s.(current := J.None));
    if s.closed then Return(s') else s'.(sup := Launching)
  }

  function SupervisorApply(s: State, a: SupervisorStep): State
    requires SupervisorEnabled(s, a)
  {
    match a
    case Launch => if s.closed then Return(s) else s.(sup := Spawning)
    case Spawn(ok) => if ok then s.(procs := s.procs + [J.Spawned], sup := Launched(|s.procs|)) else s.(sup := StartFailed)
    case Start =>
      if s.closed then s.(sup := Shutting(s.sup.proc)) else s.(starting := J.Some(s.sup.proc), sup := Greeting(s.sup.proc))
    case Greet => DoGreet(s, s.sup.proc)
    case WarmReply(valid) =>
      var r := s.procs[s.sup.proc].requests[s.sup.id - 1].queue[0];
      PutProc(s, s.sup.proc, J.Receive(s.sup.id)).(sup := if r.Report? && valid then Publishing(s.sup.proc) else Dropping(s.sup.proc))
    case WarmTimeout => s.(sup := Dropping(s.sup.proc))
    case Drop => PutProc(s, s.sup.proc, J.Kill).(sup := Dropped(s.sup.proc))
    case StartOver => if s.closed then Return(s.(starting := J.None)) else s.(starting := J.None, sup := StartFailed)
    case NoteFailure => DoNoteFailure(s)
    case Resume => s.(sup := Launching)
    case QuitPause => Return(s)
    case Publish => DoPublish(s, s.sup.proc)
    case Retire => DoRetire(s)
    case ShutKill => PutProc(s, s.sup.proc, J.Kill).(sup := Shut(s.sup.proc))
    case ShutDone => Return(s)
  }

  // ----- everything

  function KillOne(s: State, p: Option<nat>): State {
    if p.Some? && p.value < |s.procs| then PutProc(s, p.value, J.Kill) else s
  }

  function DoClose(s: State): State {
    if s.closed then s else KillOne(KillOne(s.(closed := true), s.current), s.starting)
  }

  /** What a JVM, its reader and the goroutines writing requests to it do on their own; Kill is a failed write. */
  predicate OnItsOwn(j: J.Step) { !j.Send? && !j.Receive? }

  predicate Enabled(s: State, step: Step) {
    match step
    case Arrive(_) => true
    case Act(c, a) => CallEnabled(s, c, a)
    case Supervise(a) => SupervisorEnabled(s, a)
    case Jvm(p, j) => p < |s.procs| && OnItsOwn(j) && J.Enabled(s.procs[p], j)
    case Close => true
    case Pass(_) => true
  }

  function Apply(s: State, step: Step): State
    requires Enabled(s, step)
  {
    match step
    case Arrive(deadline) =>
      s.(calls := s.calls + [Call(deadline, Live, Queued, J.None, Unset, false, J.None, 0, 0)])
    case Act(c, a) => CallApply(s, c, a)
    case Supervise(a) => SupervisorApply(s, a)
    case Jvm(p, j) => PutProc(s, p, j)
    case Close => DoClose(s)
    case Pass(d) => s.(now := s.now + d)
  }

  /** Start refuses fewer than one thread and replaces a budget that is not positive. */
  predicate ConfigOk(cfg: Config) { cfg.threads >= 1 && cfg.runBudget > 0 }

  function Init(cfg: Config, now: int): State {
    State(cfg, now, 0, [], [], J.None, J.None, 0, false, false, 0, 0, 0, map[], Launching, 0, [])
  }

  predicate Executable(s: State, steps: seq<Step>)
    decreases |steps|
  {
    steps == [] || (Enabled(s, steps[0]) && Executable(Apply(s, steps[0]), steps[1..]))
  }

  function Exec(s: State, steps: seq<Step>): State
    requires Executable(s, steps)
    decreases |steps|
  {
    if steps == [] then s else Exec(Apply(s, steps[0]), steps[1..])
  }
}

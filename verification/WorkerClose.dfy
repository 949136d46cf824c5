/**
 Close and the callers asleep in await. Close sets closed without a broadcast, so it does not
 wake them. Whether the supervisor's own way out does depends on where it is: CloseWakesIff says
 when it surely does, CloseMayWakeIff when it possibly does.
 */
module WorkerClose {
  import opened WorkerModel
  import opened WorkerInvariant
  import opened WorkerSteps
  import opened WorkerRuns
  import J = JvmProcess

  /** The supervisor has, or may have, one more broadcast to make: it retires a JVM, or a start fails for the last time. */
  predicate CanBroadcast(s: State) {
    s.sup.Serving? || (s.failures == |s.cfg.backoff| && (s.sup.Spawning? || s.sup.StartFailed?))
  }

  predicate Asleep(s: State, c: nat) {
    c < |s.calls| && s.calls[c].phase.Blocked? && s.calls[c].phase.ch == s.changed
  }

  /** Nothing happens to call c's context, by its deadline or by its caller. */
  predicate ContextIsLeftAlone(steps: seq<Step>, c: nat) {
    forall i :: 0 <= i < |steps| ==>
      steps[i] != Act(c, Expire) && steps[i] != Act(c, Cancel) && steps[i] != Act(c, ContextEndsAwait)
  }

  /** These steps get call c its ErrClosed without its context ending. */
  predicate Wakes(s: State, c: nat, steps: seq<Step>) {
    && Executable(s, steps) && ContextIsLeftAlone(steps, c)
    && c < |Exec(s, steps).calls| && Exec(s, steps).calls[c].answer == J.Some(IsClosed)
  }

  // ----- asleep for good

  lemma SilentSupervisor(s: State, a: SupervisorStep)
    requires SupervisorEnabled(s, a) && FieldsOk(s) && s.closed && !CanBroadcast(s)
    ensures var s' := SupervisorApply(s, a); s'.closed && !CanBroadcast(s') && s'.changed == s.changed
  {
    hide J.Apply, J.Enabled;
  }

  lemma SleeperStays(s: State, c: nat, a: CallStep)
    requires CallEnabled(s, c, a) && CallOk(s, c) && Asleep(s, c) && !a.ContextEndsAwait?
    ensures CallApply(s, c, a).calls[c].phase == s.calls[c].phase && CallApply(s, c, a).calls[c].answer.None?
  {
    if IsAwait(a) { hide RunEnabled, RunApply; } else { hide AwaitEnabled, AwaitCall, RunApply; }
  }

  lemma SilentOnce(s: State, step: Step, c: nat)
    requires Inv(s) && Enabled(s, step) && s.closed && !CanBroadcast(s) && Asleep(s, c) && step != Act(c, ContextEndsAwait)
    ensures var s' := Apply(s, step); s'.closed && !CanBroadcast(s') && Asleep(s', c) && s'.calls[c].answer.None?
  {
    assert CallOk(s, c) && FieldsOk(s);
    hide Inv, CallOk, FieldsOk, CallApply, CallEnabled, SupervisorApply, SupervisorEnabled, PutProc;
    AsleepHasNoAnswer(s, c);
    match step
    case Act(d, a) =>
      ActShape(s, d, a);
      if d == c { SleeperStays(s, c, a); }
    case Supervise(a) => SupervisorShape(s, a); SilentSupervisor(s, a);
    case Jvm(p, j) => JvmStepShape(s, p, j);
    case Close =>
    case Arrive(_) =>
    case Pass(_) =>
  }

  lemma AsleepHasNoAnswer(s: State, c: nat)
    requires CallOk(s, c) && Asleep(s, c)
    ensures s.calls[c].answer.None?
  {}

  lemma JvmStepShape(s: State, p: nat, j: J.Step)
    requires p < |s.procs| && J.Enabled(s.procs[p], j)
    ensures PutProc(s, p, j) == s.(procs := PutProc(s, p, j).procs)
  {}

  lemma {:induction false} SleepsOn(s: State, steps: seq<Step>, c: nat)
    requires Inv(s) && Executable(s, steps) && s.closed && !CanBroadcast(s) && Asleep(s, c) && ContextIsLeftAlone(steps, c)
    ensures Asleep(Exec(s, steps), c) && (steps != [] ==> Exec(s, steps).calls[c].answer.None?)
    decreases |steps|
  {
    hide Inv, Enabled, Apply, CanBroadcast;
    if steps != [] {
      StepKeeps(s, steps[0]);
      SilentOnce(s, steps[0], c);
      SleepsOn(Apply(s, steps[0]), steps[1..], c);
    }
  }

  // ----- woken after all

  lemma LastFailure(s: State) returns (steps: seq<Step>)
    requires s.failures == |s.cfg.backoff| && (s.sup.Spawning? || s.sup.StartFailed?)
    ensures Executable(s, steps) && (forall i :: 0 <= i < |steps| ==> steps[i].Supervise?)
    ensures var t := Exec(s, steps); t.calls == s.calls && t.closed == s.closed && t.changed == s.changed + 1
  {
    if s.sup.StartFailed? {
      steps := [Supervise(NoteFailure)];
      ExecOne(s, steps[0]);
    } else {
      var t := s.(sup := StartFailed);
      ExecOne(s, Supervise(Spawn(false)));
      ExecOne(t, Supervise(NoteFailure));
      ExecConcat(s, [Supervise(Spawn(false))], [Supervise(NoteFailure)]);
      steps := [Supervise(Spawn(false))] + [Supervise(NoteFailure)];
    }
  }

  lemma LastRetirement(s: State) returns (steps: seq<Step>)
    requires s.sup.Serving? && s.sup.proc < |s.procs| && J.Inv(s.procs[s.sup.proc])
    ensures Executable(s, steps) && (forall i :: 0 <= i < |steps| ==> steps[i].Supervise? || steps[i].Jvm?)
    ensures var t := Exec(s, steps); t.calls == s.calls && t.closed == s.closed && t.changed == s.changed + 1
  {
    var p := s.sup.proc;
    var js := J.CanFinish(s.procs[p]);
    hide J.Inv, CallApply, CallEnabled;
    JvmRun(s, p, js);
    var t := Exec(s, OfJvm(p, js));
    ExecOne(t, Supervise(Retire));
    ExecConcat(s, OfJvm(p, js), [Supervise(Retire)]);
    steps := OfJvm(p, js) + [Supervise(Retire)];
  }

  /** Once a broadcast has closed its channel, the sleeper gets up, looks again and leaves. */
  lemma GetsUp(s: State, c: nat)
    requires c < |s.calls| && s.calls[c].phase.Blocked? && s.calls[c].phase.ch < s.changed && s.closed && !s.calls[c].handedOff
    ensures Wakes(s, c, [Act(c, Wake), Act(c, Look)])
  {
    hide SupervisorApply, SupervisorEnabled, RunApply, RunEnabled;
    var t := Apply(s, Act(c, Wake));
    ExecOne(s, Act(c, Wake));
    ExecOne(t, Act(c, Look));
    ExecConcat(s, [Act(c, Wake)], [Act(c, Look)]);
    assert [Act(c, Wake)] + [Act(c, Look)] == [Act(c, Wake), Act(c, Look)];
  }

  lemma FactsOfASleeper(s: State, c: nat)
    requires Inv(s) && Asleep(s, c)
    ensures !s.calls[c].handedOff
    ensures s.sup.Serving? ==> s.sup.proc < |s.procs| && J.Inv(s.procs[s.sup.proc])
  {
    assert CallOk(s, c) && OneJvm(s);
  }

  lemma WokenByBroadcast(s: State, c: nat) returns (steps: seq<Step>)
    requires Inv(s) && s.closed && CanBroadcast(s) && Asleep(s, c)
    ensures Wakes(s, c, steps)
  {
    FactsOfASleeper(s, c);
    hide Inv, J.Inv, Apply, Enabled;
    var first: seq<Step>;
    if s.sup.Serving? {
      first := LastRetirement(s);
    } else {
      first := LastFailure(s);
    }
    GetsUp(Exec(s, first), c);
    ExecConcat(s, first, [Act(c, Wake), Act(c, Look)]);
    steps := first + [Act(c, Wake), Act(c, Look)];
  }

  /**
   A caller asleep when the worker is closed may be woken, short of its own context ending, exactly when the supervisor
   still can make a broadcast. In every other case it sleeps on, whatever else happens.
   */
  lemma CloseMayWakeIff(cfg: Config, now: int, run: seq<Step>, c: nat)
    requires Executable(Init(cfg, now), run)
    requires var s := Exec(Init(cfg, now), run); s.closed && Asleep(s, c)
    ensures var s := Exec(Init(cfg, now), run); CanBroadcast(s) <==> exists steps :: Wakes(s, c, steps)
  {
    RunKeeps(cfg, now, run);
    var s := Exec(Init(cfg, now), run);
    hide Inv;
    if CanBroadcast(s) {
      var steps := WokenByBroadcast(s, c);
    } else {
      forall steps | Wakes(s, c, steps) ensures false {
        SleepsOn(s, steps, c);
        CalmAnswer(s, c);
      }
    }
  }

  lemma CalmAnswer(s: State, c: nat)
    requires Inv(s) && Asleep(s, c)
    ensures s.calls[c].answer.None?
  {
    assert CallOk(s, c);
  }

  // ----- surely woken

  /** The supervisor cannot leave without one more broadcast: it serves, or is about to record that it failed for good. */
  predicate MustBroadcast(s: State) {
    s.sup.Serving? || (s.sup.StartFailed? && s.failures == |s.cfg.backoff|)
  }

  /** In a closed worker the caller is up, or on its way, and will not lie down again. */
  predicate UpForGood(s: State, c: nat) {
    && c < |s.calls| && !s.calls[c].phase.Looked?
    && (s.calls[c].phase.Blocked? ==> s.calls[c].phase.ch < s.changed)
  }

  predicate WillBeUp(s: State, c: nat) {
    s.closed && ((Asleep(s, c) && MustBroadcast(s)) || UpForGood(s, c))
  }

  lemma SupervisorLeavesLoudly(s: State, a: SupervisorStep)
    requires SupervisorEnabled(s, a) && s.closed
    ensures var s' := SupervisorApply(s, a);
      && s'.closed && s'.changed >= s.changed
      && (MustBroadcast(s) ==> s'.changed > s.changed)
  {
    hide J.Apply, J.Enabled;
  }

  predicate StaysUp(s: State, s': State, c: nat) {
    UpForGood(s', c) || (Asleep(s, c) && Asleep(s', c))
  }

  lemma AwaiterStaysUp(s: State, c: nat, a: CallStep)
    requires CallEnabled(s, c, a) && WillBeUp(s, c) && IsAwait(a)
    ensures StaysUp(s, CallApply(s, c, a), c)
  {
    hide RunEnabled, RunApply, MustBroadcast;
  }

  lemma RunnerStaysUp(s: State, c: nat, a: CallStep)
    requires CallEnabled(s, c, a) && WillBeUp(s, c) && !IsAwait(a)
    ensures StaysUp(s, CallApply(s, c, a), c)
  {
    hide AwaitEnabled, AwaitCall, J.Apply, J.Enabled, MustBroadcast;
  }

  lemma CallerStaysUp(s: State, c: nat, a: CallStep)
    requires CallEnabled(s, c, a) && WillBeUp(s, c)
    ensures StaysUp(s, CallApply(s, c, a), c)
  {
    hide CallApply, AwaitEnabled, RunEnabled, WillBeUp, StaysUp;
    if IsAwait(a) { AwaiterStaysUp(s, c, a); } else { RunnerStaysUp(s, c, a); }
  }

  lemma WillBeUpOnce(s: State, step: Step, c: nat)
    requires Enabled(s, step) && WillBeUp(s, c)
    ensures WillBeUp(Apply(s, step), c)
  {
    hide CallApply, CallEnabled, SupervisorApply, SupervisorEnabled, PutProc;
    match step
    case Act(d, a) =>
      ActShape(s, d, a);
      if d == c { CallerStaysUp(s, c, a); }
    case Supervise(a) => SupervisorShape(s, a); SupervisorLeavesLoudly(s, a);
    case Jvm(p, j) => JvmStepShape(s, p, j);
    case Close =>
    case Arrive(_) =>
    case Pass(_) =>
  }

  lemma {:induction false} WillBeUpStays(s: State, steps: seq<Step>, c: nat)
    requires Executable(s, steps) && WillBeUp(s, c)
    ensures WillBeUp(Exec(s, steps), c)
    decreases |steps|
  {
    hide Enabled, Apply, WillBeUp;
    if steps != [] {
      WillBeUpOnce(s, steps[0], c);
      WillBeUpStays(Apply(s, steps[0]), steps[1..], c);
    }
  }

  // ----- a way out without a broadcast

  /** How far the supervisor of a closed worker is from its return. */
  function WayOut(sup: Supervisor): nat {
    match sup
    case Returned => 0
    case Launching => 1
    case Pausing(_) => 1
    case StartFailed => 2
    case Dropped(_) => 3
    case Shut(_) => 3
    case Dropping(_) => 4
    case Shutting(_) => 4
    case Greeting(_) => 5
    case Warming(_, _, _) => 5
    case Publishing(_) => 5
    case Launched(_) => 6
    case Spawning => 7
    case Serving(_) => 8
  }

  function QuietStep(sup: Supervisor): SupervisorStep
    requires !sup.Returned? && !sup.Serving?
  {
    match sup
    case Launching => Launch
    case Pausing(_) => QuitPause
    case StartFailed => NoteFailure
    case Dropped(_) => StartOver
    case Shut(_) => ShutDone
    case Dropping(_) => Drop
    case Shutting(_) => ShutKill
    case Greeting(_) => Greet
    case Warming(_, _, _) => WarmTimeout
    case Publishing(_) => Publish
    case Launched(_) => Start
    case Spawning => Spawn(true)
  }

  predicate NotByACaller(steps: seq<Step>) {
    forall i :: 0 <= i < |steps| ==> !steps[i].Act?
  }

  /** The supervisor and the callers are as they were. */
  ghost predicate Undisturbed(s: State, t: State) {
    && t.calls == s.calls && t.changed == s.changed && t.closed == s.closed && t.sup == s.sup
    && t.failures == s.failures && t.cfg == s.cfg
  }

  lemma JvmGetsDone(s: State, p: nat) returns (steps: seq<Step>)
    requires p < |s.procs| && J.Inv(s.procs[p])
    ensures Executable(s, steps) && NotByACaller(steps)
    ensures Undisturbed(s, Exec(s, steps)) && Done(Exec(s, steps), p)
  {
    var js := J.CanFinish(s.procs[p]);
    steps := OfJvm(p, js);
    hide J.Inv, Enabled, Apply;
    JvmRun(s, p, js);
  }

  lemma TimeRunsOut(s: State, until: int) returns (steps: seq<Step>)
    ensures Executable(s, steps) && NotByACaller(steps)
    ensures Undisturbed(s, Exec(s, steps)) && Exec(s, steps).now >= until
  {
    var d: nat := if until > s.now then until - s.now else 0;
    steps := [Pass(d)];
    hide CallEnabled, CallApply, SupervisorApply, SupervisorEnabled;
    ExecOne(s, Pass(d));
  }

  /** Before its next step: a killed JVM gets to its end, or the warm-up's time runs out. */
  lemma SupervisorGetsReady(s: State) returns (steps: seq<Step>)
    requires Inv(s) && s.closed && !s.sup.Returned? && !s.sup.Serving?
    ensures Executable(s, steps) && NotByACaller(steps)
    ensures Undisturbed(s, Exec(s, steps)) && SupervisorEnabled(Exec(s, steps), QuietStep(s.sup))
  {
    assert OneJvm(s) && FieldsOk(s);
    assert Own(s.sup).Some? ==> s.sup.proc < |s.procs| && J.Inv(s.procs[s.sup.proc]);
    hide Inv, J.Inv, Enabled, Apply;
    if s.sup.Dropped? || s.sup.Shut? {
      steps := JvmGetsDone(s, s.sup.proc);
    } else if s.sup.Warming? {
      steps := TimeRunsOut(s, s.sup.until);
    } else {
      steps := [];
    }
  }

  lemma QuietStepIsQuiet(s: State)
    requires s.closed && !s.sup.Returned? && !MustBroadcast(s) && SupervisorEnabled(s, QuietStep(s.sup))
    requires FieldsOk(s) && OneJvm(s) && WarmUpOk(s)
    ensures var s' := SupervisorApply(s, QuietStep(s.sup));
      && s'.calls == s.calls && s'.changed == s.changed && s'.closed && !MustBroadcast(s')
      && WayOut(s'.sup) < WayOut(s.sup)
  {
    hide J.Apply, J.Enabled, Trailing;
  }

  lemma FieldsOf(s: State)
    requires Inv(s)
    ensures FieldsOk(s) && OneJvm(s) && WarmUpOk(s)
  {}

  lemma QuietlyOn(s: State) returns (steps: seq<Step>)
    requires Inv(s) && s.closed && !s.sup.Returned? && !MustBroadcast(s)
    ensures Executable(s, steps) && NotByACaller(steps)
    ensures var t := Exec(s, steps);
      && Inv(t) && t.calls == s.calls && t.changed == s.changed && t.closed && !MustBroadcast(t)
      && WayOut(t.sup) < WayOut(s.sup)
  {
    var a := QuietStep(s.sup);
    var first := SupervisorGetsReady(s);
    var t := Exec(s, first);
    ExecKeeps(s, first);
    FieldsOf(t);
    hide Inv, FieldsOk, OneJvm, WarmUpOk, SupervisorApply, SupervisorEnabled;
    QuietStepIsQuiet(t);
    StepKeeps(t, Supervise(a));
    ExecOne(t, Supervise(a));
    ExecConcat(s, first, [Supervise(a)]);
    steps := first + [Supervise(a)];
  }

  lemma {:induction false} LeavesQuietly(s: State) returns (steps: seq<Step>)
    requires Inv(s) && s.closed && !MustBroadcast(s)
    ensures Executable(s, steps) && NotByACaller(steps)
    ensures var t := Exec(s, steps); t.calls == s.calls && t.changed == s.changed && t.sup.Returned?
    decreases WayOut(s.sup)
  {
    hide Inv, Enabled, Apply, MustBroadcast;
    if s.sup.Returned? {
      steps := [];
    } else {
      var first := QuietlyOn(s);
      var rest := LeavesQuietly(Exec(s, first));
      ExecConcat(s, first, rest);
      steps := first + rest;
    }
  }

  /** By the time the supervisor has returned, and so Close with it, the caller is not asleep. */
  ghost predicate UpByTheEnd(s: State, c: nat) {
    forall steps ::
      Executable(s, steps) && ContextIsLeftAlone(steps, c) && Exec(s, steps).sup.Returned? ==> !Asleep(Exec(s, steps), c)
  }

  /**
   When Close wakes a caller that is asleep: it is surely up by the time Close returns, however things go and short of
   its own context ending, if and only if the supervisor serves a JVM, or is about to record that it failed for good.
   */
  lemma CloseWakesIff(cfg: Config, now: int, run: seq<Step>, c: nat)
    requires Executable(Init(cfg, now), run)
    requires var s := Exec(Init(cfg, now), run); s.closed && Asleep(s, c)
    ensures var s := Exec(Init(cfg, now), run);
      UpByTheEnd(s, c) <==> s.sup.Serving? || (s.sup.StartFailed? && s.failures == |s.cfg.backoff|)
  {
    RunKeeps(cfg, now, run);
    var s := Exec(Init(cfg, now), run);
    hide Inv;
    if MustBroadcast(s) {
      forall steps | Executable(s, steps) && Exec(s, steps).sup.Returned? ensures !Asleep(Exec(s, steps), c) {
        WillBeUpStays(s, steps, c);
      }
    } else {
      var steps := LeavesQuietly(s);
      assert ContextIsLeftAlone(steps, c) && Asleep(Exec(s, steps), c);
    }
  }

  // ----- a caller left behind

  /** Close has returned and nothing will ever wake the caller. */
  predicate Stranded(s: State, c: nat) {
    s.closed && s.done == 1 && Asleep(s, c) && !CanBroadcast(s)
  }

  /** A worker just started, and one caller already asleep. */
  function EarlyCaller(cfg: Config, now: int): State {
    var x := Call(J.None, Live, Blocked(J.None, 0), J.None, Unset, false, J.None, 1, 0);
    Init(cfg, now).(sem := 1, calls := [x])
  }

  lemma FallsAsleep(cfg: Config, now: int, rest: seq<Step>) returns (run: seq<Step>)
    requires ConfigOk(cfg) && Executable(EarlyCaller(cfg, now), rest)
    ensures Executable(Init(cfg, now), run) && Exec(Init(cfg, now), run) == Exec(EarlyCaller(cfg, now), rest)
  {
    var s0 := Init(cfg, now);
    var s1 := Apply(s0, Arrive(J.None));
    var s2 := Apply(s1, Act(0, TakeSlot));
    var s3 := Apply(s2, Act(0, Look));
    assert Apply(s3, Act(0, Judge)) == EarlyCaller(cfg, now);
    ExecOne(s0, Arrive(J.None));
    ExecOne(s1, Act(0, TakeSlot));
    ExecOne(s2, Act(0, Look));
    ExecOne(s3, Act(0, Judge));
    hide Enabled, Apply, EarlyCaller;
    ExecConcat(s3, [Act(0, Judge)], rest);
    ExecConcat(s2, [Act(0, Look)], [Act(0, Judge)] + rest);
    ExecConcat(s1, [Act(0, TakeSlot)], [Act(0, Look)] + ([Act(0, Judge)] + rest));
    run := [Act(0, TakeSlot)] + ([Act(0, Look)] + ([Act(0, Judge)] + rest));
    ExecConcat(s0, [Arrive(J.None)], run);
    run := [Arrive(J.None)] + run;
  }

  /** It does happen: a caller waits for the first start, Close returns, and the caller is still asleep. */
  lemma CloseCanStrand(cfg: Config, now: int)
    requires ConfigOk(cfg)
    ensures exists run :: Executable(Init(cfg, now), run) && Stranded(Exec(Init(cfg, now), run), 0)
  {
    var s := EarlyCaller(cfg, now);
    var t := Apply(s, Close);
    ExecOne(s, Close);
    ExecOne(t, Supervise(Launch));
    assert Stranded(Apply(t, Supervise(Launch)), 0);
    hide Enabled, Apply, Stranded, EarlyCaller;
    ExecConcat(s, [Close], [Supervise(Launch)]);
    var run := FallsAsleep(cfg, now, [Close] + [Supervise(Launch)]);
  }
}

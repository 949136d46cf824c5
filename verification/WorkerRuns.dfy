/**
 Runs of the worker looked at as a whole: what had happened before a JVM was killed, how a slot
 comes back, and whom Close wakes.
 */
module WorkerRuns {
  import opened Sums
  import opened WorkerModel
  import opened WorkerInvariant
  import opened WorkerSteps
  import J = JvmProcess

  // ----- putting runs together

  lemma {:induction false} ExecConcat(s: State, a: seq<Step>, b: seq<Step>)
    requires Executable(s, a) && Executable(Exec(s, a), b)
    ensures Executable(s, a + b) && Exec(s, a + b) == Exec(Exec(s, a), b)
    decreases |a|
  {
    hide Enabled, Apply;
    if a == [] {
      assert a + b == b;
    } else {
      assert (a + b)[0] == a[0] && (a + b)[1..] == a[1..] + b;
      ExecConcat(Apply(s, a[0]), a[1..], b);
    }
  }

  lemma {:induction false} ExecLast(s: State, steps: seq<Step>)
    requires Executable(s, steps) && steps != []
    ensures var n := |steps| - 1;
      Executable(s, steps[..n]) && Enabled(Exec(s, steps[..n]), steps[n]) && Exec(s, steps) == Apply(Exec(s, steps[..n]), steps[n])
    decreases |steps|
  {
    hide Enabled, Apply;
    var n := |steps| - 1;
    if n > 0 {
      assert steps[..n][0] == steps[0] && steps[..n][1..] == steps[1..][..n - 1];
      ExecLast(Apply(s, steps[0]), steps[1..]);
    }
  }

  lemma ExecOne(s: State, step: Step)
    requires Enabled(s, step)
    ensures Executable(s, [step]) && Exec(s, [step]) == Apply(s, step)
  {
    hide Apply, Enabled;
    assert [step][1..] == [];
    assert Exec(Apply(s, step), []) == Apply(s, step);
  }

  function OfJvm(p: nat, js: seq<J.Step>): (steps: seq<Step>)
    ensures |steps| == |js| && forall i :: 0 <= i < |js| ==> steps[i] == Jvm(p, js[i])
  {
    seq(|js|, i requires 0 <= i < |js| => Jvm(p, js[i]))
  }

  /** What a JVM can do on its own it can do inside the worker. */
  lemma {:induction false} JvmRun(s: State, p: nat, js: seq<J.Step>)
    requires p < |s.procs| && J.Executable(s.procs[p], js) && forall i :: 0 <= i < |js| ==> OnItsOwn(js[i])
    ensures Executable(s, OfJvm(p, js)) && Exec(s, OfJvm(p, js)) == s.(procs := s.procs[p := J.Exec(s.procs[p], js)])
    decreases |js|
  {
    hide J.Enabled, J.Apply;
    if js == [] {
      assert s.procs[p := s.procs[p]] == s.procs;
    } else {
      var s' := PutProc(s, p, js[0]);
      JvmRun(s', p, js[1..]);
      assert OfJvm(p, js)[1..] == OfJvm(p, js[1..]);
      assert s.procs[p := s'.procs[p]][p := J.Exec(s'.procs[p], js[1..])] == s.procs[p := J.Exec(s.procs[p], js)];
    }
  }

  // ----- poison

  /** Call c's request has had its whole run budget and no reply to it has arrived. */
  predicate Overrun(s: State, c: nat) {
    c < |s.calls| && IsSent(s, s.calls[c]) &&
    var x := s.calls[c];
    && s.now >= x.sent.value.at + s.cfg.runBudget
    && J.Received(s.procs[x.sent.value.proc].requests[x.sent.value.id - 1]) == []
  }

  predicate Condemned(s: State, c: nat) {
    c < |s.calls| && (s.calls[c].phase.Condemning? || s.calls[c].phase.Burying?)
  }

  lemma CondemnedOnce(s: State, step: Step, c: nat)
    requires Inv(s) && Enabled(s, step) && Condemned(Apply(s, step), c)
    ensures c < |s.calls| && s.calls[c].sent == Apply(s, step).calls[c].sent
    ensures Condemned(s, c) || Overrun(s, c)
  {
    hide SupervisorApply, SupervisorEnabled;
    match step
    case Act(d, a) =>
      if d == c {
        assert CallOk(s, c);
        hide Inv;
        CondemnedByPoison(s, c, a);
      } else {
        ActShape(s, d, a);
      }
    case Supervise(a) => SupervisorShape(s, a);
    case _ =>
  }

  lemma CondemnedByPoison(s: State, c: nat, a: CallStep)
    requires CallEnabled(s, c, a) && CallOk(s, c) && Condemned(CallApply(s, c, a), c)
    ensures s.calls[c].sent == CallApply(s, c, a).calls[c].sent
    ensures Condemned(s, c) || Overrun(s, c)
  {
    hide CallOk, AwaitEnabled, RunEnabled, AwaitApply, RunApply, Overrun;
    if IsAwait(a) { CondemnedBefore(s, c, a); }
    else if a.PoisonLook? { PoisonLooks(s, c); }
    else { OnlyPoisonCondemns(s, c, a); }
  }

  lemma CondemnedBefore(s: State, c: nat, a: CallStep)
    requires CallEnabled(s, c, a) && IsAwait(a) && Condemned(AwaitApply(s, c, a), c)
    ensures Condemned(s, c) && s.calls[c].sent == AwaitApply(s, c, a).calls[c].sent
  {
    hide RunEnabled;
  }

  lemma PoisonLooks(s: State, c: nat)
    requires CallEnabled(s, c, PoisonLook) && CallOk(s, c) && Condemned(RunApply(s, c, PoisonLook), c)
    ensures Overrun(s, c) && s.calls[c].sent == RunApply(s, c, PoisonLook).calls[c].sent
  {
    hide AwaitEnabled, J.Apply, J.Enabled;
  }

  lemma OnlyPoisonCondemns(s: State, c: nat, a: CallStep)
    requires CallEnabled(s, c, a) && !IsAwait(a) && !a.PoisonLook? && Condemned(RunApply(s, c, a), c)
    ensures Condemned(s, c) && s.calls[c].sent == RunApply(s, c, a).calls[c].sent
  {
    hide AwaitEnabled, J.Apply, J.Enabled;
  }

  /**
   A JVM is killed as poisoned only for an overrun: before a call kills its JVM there was a moment at least RunBudget
   after its send when its request had no reply.
   */
  lemma {:induction false} PoisonedOnlyWhenOverrun(cfg: Config, now: int, steps: seq<Step>, c: nat) returns (k: nat)
    requires Executable(Init(cfg, now), steps) && Condemned(Exec(Init(cfg, now), steps), c)
    ensures k <= |steps| && Executable(Init(cfg, now), steps[..k])
    ensures Overrun(Exec(Init(cfg, now), steps[..k]), c)
    ensures Exec(Init(cfg, now), steps[..k]).calls[c].sent == Exec(Init(cfg, now), steps).calls[c].sent
    decreases |steps|
  {
    hide Apply, Enabled, Inv, Overrun;
    var n := |steps| - 1;
    ExecLast(Init(cfg, now), steps);
    var s := Exec(Init(cfg, now), steps[..n]);
    RunKeeps(cfg, now, steps[..n]);
    CondemnedOnce(s, steps[n], c);
    if Condemned(s, c) {
      k := PoisonedOnlyWhenOverrun(cfg, now, steps[..n], c);
      assert steps[..n][..k] == steps[..k];
    } else {
      k := n;
    }
  }

  /** The worker has started JVM p and has not given it up. */
  predicate InCharge(sup: Supervisor, p: nat) {
    (sup.Launched? || sup.Greeting? || sup.Warming? || sup.Publishing? || sup.Serving?) && sup.proc == p
  }

  /** Neither Close nor JVM p itself, by a bad line, a refused write or its exit. */
  predicate Harmless(step: Step, p: nat) {
    step != Close && !(step.Jvm? && step.p == p && (step.j.Kill? || step.j.Refuse? || step.j.Reap?))
  }

  lemma KilledOnce(s: State, step: Step, p: nat)
    requires Inv(s) && Enabled(s, step) && Harmless(step, p)
    requires var s' := Apply(s, step); InCharge(s'.sup, p) && p < |s'.procs| && s'.procs[p].dead
    ensures (InCharge(s.sup, p) && p < |s.procs| && s.procs[p].dead)
      || (step.Act? && Condemned(s, step.c) && s.calls[step.c].sent.Some? && s.calls[step.c].sent.value.proc == p)
  {
    hide Inv, CallApply, CallEnabled, SupervisorApply, SupervisorEnabled, PutProc, Condemned, J.Enabled;
    match step
    case Act(c, a) => ActShape(s, c, a); KilledByCall(s, c, a, p);
    case Supervise(a) => OneJvmInv(s); KilledBySupervisor(s, a, p);
    case Jvm(q, j) => KilledByItself(s, q, j, p);
    case Arrive(_) =>
    case Pass(_) =>
  }

  lemma OneJvmInv(s: State)
    requires Inv(s)
    ensures OneJvm(s)
  {}

  lemma KilledByItself(s: State, q: nat, j: J.Step, p: nat)
    requires q < |s.procs| && J.Enabled(s.procs[q], j) && OnItsOwn(j) && Harmless(Jvm(q, j), p)
    requires p < |PutProc(s, q, j).procs| && PutProc(s, q, j).procs[p].dead
    ensures p < |s.procs| && s.procs[p].dead && PutProc(s, q, j).sup == s.sup
  {}

  lemma KilledByCall(s: State, c: nat, a: CallStep, p: nat)
    requires CallEnabled(s, c, a)
    requires var s' := CallApply(s, c, a); p < |s'.procs| && s'.procs[p].dead
    ensures p < |s.procs|
    ensures s.procs[p].dead || (Condemned(s, c) && s.calls[c].sent.Some? && s.calls[c].sent.value.proc == p)
  {
    ActShape(s, c, a);
    if IsAwait(a) { hide RunEnabled, RunApply; } else { hide AwaitEnabled, AwaitCall, RunApply; }
  }

  lemma KilledBySupervisor(s: State, a: SupervisorStep, p: nat)
    requires SupervisorEnabled(s, a) && OneJvm(s)
    requires var s' := SupervisorApply(s, a); InCharge(s'.sup, p) && p < |s'.procs| && s'.procs[p].dead
    ensures InCharge(s.sup, p) && p < |s.procs| && s.procs[p].dead
  {}

  /**
   Neither a deadline nor a cancelled or waiting caller ever kills: when the worker gives up the serving JVM
   though nobody called Close and the JVM neither exited nor misbehaved, some request on it was overrun.
   */
  lemma {:induction false} ServingJvmDiesOnlyOfOverrun(cfg: Config, now: int, steps: seq<Step>, p: nat) returns (k: nat, c: nat)
    requires Executable(Init(cfg, now), steps) && forall i :: 0 <= i < |steps| ==> Harmless(steps[i], p)
    requires var s := Exec(Init(cfg, now), steps); InCharge(s.sup, p) && p < |s.procs| && s.procs[p].dead
    ensures k <= |steps| && Executable(Init(cfg, now), steps[..k])
    ensures var t := Exec(Init(cfg, now), steps[..k]); Overrun(t, c) && t.calls[c].sent.value.proc == p
    decreases |steps|
  {
    hide Apply, Enabled, Inv, Overrun, Condemned, Harmless;
    var n := |steps| - 1;
    ExecLast(Init(cfg, now), steps);
    var s := Exec(Init(cfg, now), steps[..n]);
    RunKeeps(cfg, now, steps[..n]);
    KilledOnce(s, steps[n], p);
    if InCharge(s.sup, p) && p < |s.procs| && s.procs[p].dead {
      k, c := ServingJvmDiesOnlyOfOverrun(cfg, now, steps[..n], p);
    } else {
      c := steps[n].c;
      k := PoisonedOnlyWhenOverrun(cfg, now, steps[..n], c);
    }
    assert steps[..n][..k] == steps[..k];
  }

  // ----- a slot comes back

  /** The clock, the JVM, and the call's own steps but for its context and its deadline. */
  predicate WithoutItsCaller(step: Step, c: nat) {
    || step.Pass?
    || step.Jvm?
    || (step.Act? && step.c == c && !step.a.Expire? && !step.a.Cancel? && !step.a.DeadlinePasses?)
  }

  function SlotRank(x: Call): nat {
    match x.phase
    case Tracking => 10
    case Racing => 9
    case Waiting => if x.budget.Ticked? then 7 else 8
    case Poisoning => 6
    case Condemning => 5
    case Burying => 4
    case Settled(_) => 3
    case Untracking => 2
    case Leaving => 1
    case _ => 0
  }

  /** The call's next step when nobody helps it along. */
  function NextStep(x: Call): CallStep {
    match x.phase
    case Tracking => Track
    case Racing => LastLook
    case Waiting => if x.budget.Ticked? then TakeTick else BudgetFires
    case Poisoning => PoisonLook
    case Condemning => PoisonKill
    case Burying => Buried
    case Settled(_) => Settle
    case Untracking => Untrack
    case _ => Leave
  }

  /** Before that step: time passes until the budget fires, or the killed JVM gets to its end. */
  lemma GetsReady(s: State, c: nat) returns (steps: seq<Step>)
    requires Inv(s) && c < |s.calls| && s.calls[c].sent.Some? && !s.calls[c].phase.Gone?
    ensures Executable(s, steps) && forall i :: 0 <= i < |steps| ==> WithoutItsCaller(steps[i], c)
    ensures var t := Exec(s, steps); t.calls == s.calls && CallEnabled(t, c, NextStep(s.calls[c]))
  {
    assert CallOk(s, c);
    var x := s.calls[c];
    if x.phase.Waiting? && x.budget.Armed? {
      hide Inv, CallOk;
      steps := TimePasses(s, c);
    } else if x.phase.Burying? {
      assert J.Inv(s.procs[x.sent.value.proc]);
      hide Inv, CallOk;
      steps := JvmEnds(s, c);
    } else {
      steps := [];
      SlotsAt(s, c);
      hide Inv;
      IsReady(s, c);
    }
  }

  lemma TimePasses(s: State, c: nat) returns (steps: seq<Step>)
    requires c < |s.calls| && s.calls[c].phase.Waiting? && s.calls[c].budget.Armed?
    ensures Executable(s, steps) && forall i :: 0 <= i < |steps| ==> WithoutItsCaller(steps[i], c)
    ensures var t := Exec(s, steps); t.calls == s.calls && CallEnabled(t, c, BudgetFires)
  {
    var x := s.calls[c];
    var d: nat := if x.budget.at > s.now then x.budget.at - s.now else 0;
    steps := [Pass(d)];
    ExecOne(s, Pass(d));
    hide RunEnabled, CallApply, SupervisorApply, SupervisorEnabled;
  }

  lemma JvmEnds(s: State, c: nat) returns (steps: seq<Step>)
    requires c < |s.calls| && s.calls[c].phase.Burying? && IsSent(s, s.calls[c])
    requires J.Inv(s.procs[s.calls[c].sent.value.proc])
    ensures Executable(s, steps) && forall i :: 0 <= i < |steps| ==> WithoutItsCaller(steps[i], c)
    ensures var t := Exec(s, steps); t.calls == s.calls && CallEnabled(t, c, Buried)
  {
    var p := s.calls[c].sent.value.proc;
    var js := J.CanFinish(s.procs[p]);
    steps := OfJvm(p, js);
    hide J.Inv, Apply, Enabled, AwaitEnabled;
    JvmRun(s, p, js);
    FinishKeepsRequests(s.procs[p], js);
  }

  lemma IsReady(s: State, c: nat)
    requires CallOk(s, c) && s.calls[c].sent.Some? && !s.calls[c].phase.Gone? && !s.calls[c].phase.Burying?
    requires !(s.calls[c].phase.Waiting? && s.calls[c].budget.Armed?) && (s.calls[c].phase.Leaving? ==> s.sem > 0)
    ensures CallEnabled(s, c, NextStep(s.calls[c]))
  {
    hide AwaitEnabled;
  }

  lemma {:induction false} FinishKeepsRequests(p: J.Process, js: seq<J.Step>)
    requires J.Executable(p, js) && forall i :: 0 <= i < |js| ==> OnItsOwn(js[i])
    ensures |J.Exec(p, js).requests| == |p.requests|
    decreases |js|
  {
    if js != [] {
      OwnStep(p, js[0]);
      hide J.Apply, J.Enabled;
      FinishKeepsRequests(J.Apply(p, js[0]), js[1..]);
    }
  }

  lemma SlotsAt(s: State, c: nat)
    requires Inv(s) && c < |s.calls|
    ensures s.calls[c].phase.Leaving? ==> s.sem > 0
  {
    SumAtLeast(s.calls, c, Slot);
  }

  predicate GetsOn(x: Call, x': Call) {
    x'.sent == x.sent && (x'.phase.Gone? || SlotRank(x') < SlotRank(x))
  }

  lemma NextStepGetsOn(s: State, c: nat)
    requires CallOk(s, c) && s.calls[c].sent.Some? && !s.calls[c].phase.Gone? && CallEnabled(s, c, NextStep(s.calls[c]))
    ensures GetsOn(s.calls[c], CallApply(s, c, NextStep(s.calls[c])).calls[c])
  {
    var x := s.calls[c];
    assert (Outstanding(x.phase) || x.phase.Settled? || x.phase.Untracking? || x.phase.Leaving?)
      && (x.phase.Waiting? ==> x.budget.Armed? || x.budget.Ticked?);
    hide GetsOn, AwaitEnabled, RunEnabled, AwaitApply, RunApply, CallOk;
    if x.phase.Waiting? && !x.budget.Ticked? { FiringGetsOn(s, c); }
    else if x.phase.Racing? || x.phase.Poisoning? { LookingGetsOn(s, c); }
    else if x.phase.Tracking? || x.phase.Waiting? || x.phase.Condemning? { StartingGetsOn(s, c); }
    else { EndingGetsOn(s, c); }
  }

  lemma FiringGetsOn(s: State, c: nat)
    requires c < |s.calls| && s.calls[c].phase.Waiting? && AwaitEnabled(s, s.calls[c], BudgetFires)
    ensures GetsOn(s.calls[c], AwaitApply(s, c, BudgetFires).calls[c])
  {}

  lemma LookingGetsOn(s: State, c: nat)
    requires c < |s.calls| && (s.calls[c].phase.Racing? || s.calls[c].phase.Poisoning?)
    requires RunEnabled(s, s.calls[c], NextStep(s.calls[c]))
    ensures GetsOn(s.calls[c], RunApply(s, c, NextStep(s.calls[c])).calls[c])
  {
    hide J.Apply, J.Enabled;
  }

  lemma StartingGetsOn(s: State, c: nat)
    requires c < |s.calls|
    requires var x := s.calls[c]; x.phase.Tracking? || (x.phase.Waiting? && x.budget.Ticked?) || x.phase.Condemning?
    requires RunEnabled(s, s.calls[c], NextStep(s.calls[c]))
    ensures GetsOn(s.calls[c], RunApply(s, c, NextStep(s.calls[c])).calls[c])
  {
    hide J.Apply, J.Enabled, Receives;
  }

  lemma EndingGetsOn(s: State, c: nat)
    requires c < |s.calls|
    requires var x := s.calls[c].phase; x.Burying? || x.Settled? || x.Untracking? || x.Leaving?
    requires RunEnabled(s, s.calls[c], NextStep(s.calls[c]))
    ensures GetsOn(s.calls[c], RunApply(s, c, NextStep(s.calls[c])).calls[c])
  {
    hide J.Apply, J.Enabled, Receives;
  }

  /** The call's next step, with what has to happen before it. */
  lemma OneMore(s: State, c: nat) returns (steps: seq<Step>)
    requires Inv(s) && c < |s.calls| && s.calls[c].sent.Some? && !s.calls[c].phase.Gone?
    ensures Executable(s, steps) && forall i :: 0 <= i < |steps| ==> WithoutItsCaller(steps[i], c)
    ensures var t := Exec(s, steps); Inv(t) && c < |t.calls| && GetsOn(s.calls[c], t.calls[c])
  {
    var a := NextStep(s.calls[c]);
    var first := GetsReady(s, c);
    var t := Exec(s, first);
    ExecKeeps(s, first);
    assert CallOk(t, c);
    hide Inv, CallOk, CallApply, CallEnabled, GetsOn;
    NextStepGetsOn(t, c);
    StepKeeps(t, Act(c, a));
    ActShape(t, c, a);
    ExecOne(t, Act(c, a));
    ExecConcat(s, first, [Act(c, a)]);
    steps := first + [Act(c, a)];
  }

  lemma GoneIsReleased(s: State, c: nat)
    requires Inv(s) && c < |s.calls| && s.calls[c].phase.Gone?
    ensures s.calls[c].released == s.calls[c].taken
  {
    assert CallOk(s, c);
  }

  lemma {:induction false} FreesItsSlot(s: State, c: nat) returns (steps: seq<Step>)
    requires Inv(s) && c < |s.calls| && s.calls[c].sent.Some?
    ensures Executable(s, steps) && forall i :: 0 <= i < |steps| ==> WithoutItsCaller(steps[i], c)
    ensures var t := Exec(s, steps); c < |t.calls| && t.calls[c].phase.Gone? && t.calls[c].released == t.calls[c].taken
    decreases if c < |s.calls| then SlotRank(s.calls[c]) else 0
  {
    hide Inv, Apply, Enabled;
    if s.calls[c].phase.Gone? {
      steps := [];
      GoneIsReleased(s, c);
    } else {
      var first := OneMore(s, c);
      var t := Exec(s, first);
      var rest: seq<Step> := [];
      if t.calls[c].phase.Gone? { GoneIsReleased(t, c); } else { rest := FreesItsSlot(t, c); }
      ExecConcat(s, first, rest);
      steps := first + rest;
    }
  }

  /** After these steps, none of them its caller's, the call has given its slot back. */
  predicate Frees(s: State, c: nat, steps: seq<Step>) {
    && Executable(s, steps) && (forall i :: 0 <= i < |steps| ==> WithoutItsCaller(steps[i], c))
    && var t := Exec(s, steps); c < |t.calls| && t.calls[c].phase.Gone? && t.calls[c].released == t.calls[c].taken
  }

  /**
   Slots do not leak: whoever waits for a reply that never comes, the caller or finish, the run budget and the exit of
   the killed JVM suffice for the slot to come back.
   */
  lemma SlotComesBack(cfg: Config, now: int, run: seq<Step>, c: nat)
    requires Executable(Init(cfg, now), run)
    requires var s := Exec(Init(cfg, now), run); c < |s.calls| && s.calls[c].sent.Some?
    ensures exists steps :: Frees(Exec(Init(cfg, now), run), c, steps)
  {
    RunKeeps(cfg, now, run);
    hide Inv;
    var steps := FreesItsSlot(Exec(Init(cfg, now), run), c);
    assert Frees(Exec(Init(cfg, now), run), c, steps);
  }
}

/** What holds in every run of the worker. */
module WorkerTheorems {
  import opened Sums
  import opened WorkerModel
  import opened WorkerInvariant
  import opened WorkerSteps
  import J = JvmProcess

  // ----- slots

  /** The occupied slots are the calls and finish goroutines that own one; each slot taken is released once and in time. */
  lemma SlotsAreOwned(cfg: Config, now: int, steps: seq<Step>, c: nat)
    requires Executable(Init(cfg, now), steps) && c < |Exec(Init(cfg, now), steps).calls|
    ensures var s := Exec(Init(cfg, now), steps); var x := s.calls[c];
      && s.sem == Sum(s.calls, Slot) && s.sem <= cfg.threads
      && x.taken <= 1 && x.released == x.taken - Slot(x)
      && (x.phase.Leaving? ==> Enabled(s, Act(c, Leave)))
  {
    RunKeeps(cfg, now, steps);
    var s := Exec(Init(cfg, now), steps);
    SumAtLeast(s.calls, c, Slot);
    assert CallOk(s, c);
  }

  /** Different calls that own a slot are at most as many as the slots taken. */
  lemma {:induction false} OwnersWithinSlots(calls: seq<Call>, owners: set<nat>)
    requires forall c :: c in owners ==> c < |calls| && HoldsSlot(calls[c].phase)
    ensures |owners| <= Sum(calls, Slot)
  {
    if calls == [] {
      assert owners == {};
    } else {
      var last := |calls| - 1;
      OwnersWithinSlots(calls[..last], owners - {last});
    }
  }

  /** The call owns a slot and its request is one of these on JVM p. */
  predicate OnProcess(x: Call, p: nat, ids: set<nat>) {
    HoldsSlot(x.phase) && x.sent.Some? && x.sent.value.proc == p && x.sent.value.id in ids
  }

  /** The owners of a set of requests, one each. */
  lemma {:induction false} OwnersOf(s: State, p: nat, ids: set<nat>) returns (owners: set<nat>)
    requires p < |s.procs|
    requires forall id :: id in ids ==>
      && J.HasRequest(s.procs[p], id) && s.procs[p].requests[id - 1].owner.Some?
      && var c := s.procs[p].requests[id - 1].owner.value;
        c < |s.calls| && OnProcess(s.calls[c], p, {id})
    ensures |owners| == |ids|
    ensures forall c :: c in owners ==> c < |s.calls| && OnProcess(s.calls[c], p, ids)
    decreases |ids|
  {
    if ids == {} {
      owners := {};
    } else {
      var id :| id in ids;
      var rest := OwnersOf(s, p, ids - {id});
      var c := s.procs[p].requests[id - 1].owner.value;
      assert c !in rest;
      owners := rest + {c};
    }
  }

  /** A request pending on the serving JVM belongs to a call, or to the finish goroutine of a call already answered. */
  lemma PendingIsOwned(s: State, p: nat, id: nat)
    requires Inv(s) && s.current == J.Some(p) && p < |s.procs| && s.procs[p].pending.Some? && id in s.procs[p].pending.value
    ensures J.HasRequest(s.procs[p], id) && s.procs[p].requests[id - 1].owner.Some?
    ensures var c := s.procs[p].requests[id - 1].owner.value;
      && c < |s.calls| && Outstanding(s.calls[c].phase)
      && s.calls[c].sent.Some? && s.calls[c].sent.value.proc == p && s.calls[c].sent.value.id == id
  {
    var q := s.procs[p];
    assert J.Inv(q) && J.Waits(q, id) && J.RequestOk(q, id);
    assert q.requests[id - 1].got == [];
    assert OwnedOk(s, p, id);
  }

  /** At most Threads requests are on the serving JVM, those of answered callers included, each with a slot of its own. */
  lemma PendingWithinThreads(cfg: Config, now: int, steps: seq<Step>) returns (owners: set<nat>)
    requires Executable(Init(cfg, now), steps)
    requires var s := Exec(Init(cfg, now), steps);
      s.current.Some? && s.current.value < |s.procs| && s.procs[s.current.value].pending.Some?
    ensures var s := Exec(Init(cfg, now), steps); var pending := s.procs[s.current.value].pending.value;
      && |owners| == |pending| <= s.sem <= cfg.threads
      && forall c :: c in owners ==> c < |s.calls| && OnProcess(s.calls[c], s.current.value, pending)
  {
    RunKeeps(cfg, now, steps);
    var s := Exec(Init(cfg, now), steps);
    var p := s.current.value;
    forall id | id in s.procs[p].pending.value ensures J.HasRequest(s.procs[p], id) { PendingIsOwned(s, p, id); }
    forall id | id in s.procs[p].pending.value
      ensures var c := s.procs[p].requests[id - 1].owner; c.Some? && c.value < |s.calls|
      ensures OnProcess(s.calls[s.procs[p].requests[id - 1].owner.value], p, {id})
    {
      PendingIsOwned(s, p, id);
    }
    hide Inv;
    owners := OwnersOf(s, p, s.procs[p].pending.value);
    OwnersWithinSlots(s.calls, owners);
    assert s.sem == Sum(s.calls, Slot) && s.sem <= cfg.threads by { RunKeeps(cfg, now, steps); SlotsInv(s); }
  }

  lemma SlotsInv(s: State)
    requires Inv(s)
    ensures s.sem == Sum(s.calls, Slot) && s.sem <= s.cfg.threads
  {}

  /** The requests LongestInFlight counts all hold a slot, so there are at most Threads of them. */
  lemma InFlightWithinThreads(cfg: Config, now: int, steps: seq<Step>)
    requires Executable(Init(cfg, now), steps)
    ensures var s := Exec(Init(cfg, now), steps); |s.inFlight| <= s.sem <= cfg.threads
    ensures var s := Exec(Init(cfg, now), steps);
      forall c :: c in s.inFlight ==> c < |s.calls| && HoldsSlot(s.calls[c].phase) && s.calls[c].sent.Some?
  {
    RunKeeps(cfg, now, steps);
    var s := Exec(Init(cfg, now), steps);
    forall c | c in s.inFlight ensures c < |s.calls| && HoldsSlot(s.calls[c].phase) && s.calls[c].sent.Some? {
      assert InFlightOk(s, c) && (c < |s.calls| ==> CallOk(s, c));
    }
    OwnersWithinSlots(s.calls, s.inFlight.Keys);
  }

  // ----- replies

  /** Check's output is its own reply: the first with its request's id that was looked up after the send. */
  lemma OutputIsOwnReply(cfg: Config, now: int, steps: seq<Step>, c: nat)
    requires Executable(Init(cfg, now), steps)
    requires var s := Exec(Init(cfg, now), steps);
      c < |s.calls| && s.calls[c].answer.Some? && s.calls[c].answer.value.Output?
    ensures var s := Exec(Init(cfg, now), steps); var x := s.calls[c];
      && IsSent(s, x)
      && var p, id := s.procs[x.sent.value.proc], x.sent.value.id;
        && p.requests[id - 1].owner == J.Some(c)
        && exists k: nat :: J.First(p.history, p.requests[id - 1].since, id, k) && x.answer.value.r == J.ResultOf(p.history[k])
  {
    RunKeeps(cfg, now, steps);
    var s := Exec(Init(cfg, now), steps);
    assert CallOk(s, c);
    var x := s.calls[c];
    var p, id := s.procs[x.sent.value.proc], x.sent.value.id;
    assert J.Inv(p) && J.RequestOk(p, id);
    assert J.Received(p.requests[id - 1])[0] == x.answer.value.r;
  }

  /** ErrRestarted is the truth: the JVM is reaped, and no reply to this request was ever looked up. */
  lemma RestartedMeansUnanswered(cfg: Config, now: int, steps: seq<Step>, c: nat)
    requires Executable(Init(cfg, now), steps)
    requires var s := Exec(Init(cfg, now), steps); c < |s.calls| && s.calls[c].answer == J.Some(WasRestarted)
    ensures var s := Exec(Init(cfg, now), steps); var x := s.calls[c];
      && IsSent(s, x)
      && var p, id := s.procs[x.sent.value.proc], x.sent.value.id;
        p.reaped && J.Unanswered(p.history, p.requests[id - 1].since, id)
  {
    RunKeeps(cfg, now, steps);
    var s := Exec(Init(cfg, now), steps);
    assert CallOk(s, c);
    var x := s.calls[c];
    var p, id := s.procs[x.sent.value.proc], x.sent.value.id;
    assert J.Inv(p) && J.RequestOk(p, id);
    assert J.Received(p.requests[id - 1])[0] == J.Restarted;
  }

  /** Answers are given, and ticks taken, for good. */
  predicate Final(x: Call, x': Call) {
    (x.answer.Some? ==> x'.answer == x.answer) && (x.budget.Taken? ==> x'.budget == x.budget)
  }

  lemma AwaitFinal(s: State, c: nat, a: CallStep)
    requires CallEnabled(s, c, a) && CallOk(s, c) && IsAwait(a)
    ensures Final(s.calls[c], CallApply(s, c, a).calls[c])
  {
    hide RunEnabled, RunApply;
  }

  lemma ReplyFinal(s: State, c: nat, a: CallStep)
    requires CallEnabled(s, c, a) && CallOk(s, c) && (a.TakeReply? || a.LastLook? || a.PoisonLook?)
    ensures Final(s.calls[c], CallApply(s, c, a).calls[c])
  {
    hide AwaitEnabled, AwaitCall, J.Apply, J.Enabled;
  }

  lemma SendFinal(s: State, c: nat)
    requires CallEnabled(s, c, Send) && CallOk(s, c)
    ensures Final(s.calls[c], CallApply(s, c, Send).calls[c])
  {
    hide AwaitEnabled, AwaitCall, J.Apply, J.Enabled, Receives;
  }

  lemma RunFinal(s: State, c: nat, a: CallStep)
    requires CallEnabled(s, c, a) && CallOk(s, c)
    requires !IsAwait(a) && !a.Send? && !a.TakeReply? && !a.LastLook? && !a.PoisonLook?
    ensures Final(s.calls[c], CallApply(s, c, a).calls[c])
  {
    hide AwaitEnabled, AwaitCall, J.Apply, J.Enabled, Receives, DoSend;
  }

  lemma FinalOnce(s: State, step: Step, c: nat)
    requires Inv(s) && Enabled(s, step) && c < |s.calls|
    ensures c < |Apply(s, step).calls| && Final(s.calls[c], Apply(s, step).calls[c])
  {
    assert CallOk(s, c);
    hide Inv, CallApply, CallEnabled, SupervisorApply, SupervisorEnabled, Final, CallOk;
    match step
    case Act(d, a) =>
      ActShape(s, d, a);
      if d != c { SameIsFinal(s.calls[c]); }
      else if IsAwait(a) { AwaitFinal(s, c, a); }
      else if a.TakeReply? || a.LastLook? || a.PoisonLook? { ReplyFinal(s, c, a); }
      else if a.Send? { SendFinal(s, c); }
      else { RunFinal(s, c, a); }
    case Supervise(a) => SupervisorShape(s, a); SameIsFinal(s.calls[c]);
    case _ => SameIsFinal(s.calls[c]);
  }

  lemma SameIsFinal(x: Call)
    ensures Final(x, x)
  {}

  /** A caller is answered once: nothing changes an answer, least of all the late reply of a request that timed out. */
  lemma {:induction false} AnswerIsFinal(s: State, steps: seq<Step>, c: nat)
    requires Inv(s) && Executable(s, steps) && c < |s.calls| && s.calls[c].answer.Some?
    ensures c < |Exec(s, steps).calls| && Exec(s, steps).calls[c].answer == s.calls[c].answer
    decreases |steps|
  {
    hide Inv, Enabled, Apply;
    if steps != [] {
      StepKeeps(s, steps[0]);
      FinalOnce(s, steps[0], c);
      AnswerIsFinal(Apply(s, steps[0]), steps[1..], c);
    }
  }

  /** A sent request that is unanswered, or has its reply, a timeout or ErrClosed. */
  predicate ClosedAnswer(x: Call) {
    x.sent.Some? &&
    (x.answer.None? || x.answer.value.Output? || x.answer == J.Some(TimedOut) || x.answer == J.Some(IsClosed))
  }

  lemma AwaitAnswersClosed(s: State, c: nat, a: CallStep)
    requires CallEnabled(s, c, a) && CallOk(s, c) && ClosedAnswer(s.calls[c]) && IsAwait(a)
    ensures ClosedAnswer(CallApply(s, c, a).calls[c])
  {
    hide RunEnabled, RunApply;
  }

  lemma ReplyAnswersClosed(s: State, c: nat, a: CallStep)
    requires CallEnabled(s, c, a) && CallOk(s, c) && ClosedAnswer(s.calls[c]) && (a.TakeReply? || a.LastLook? || a.PoisonLook?)
    ensures ClosedAnswer(CallApply(s, c, a).calls[c])
  {
    hide AwaitEnabled, AwaitCall, J.Apply, J.Enabled, DoSend;
    if |Channel(s, s.calls[c])| > 0 {
      ReceivedFrom(s, c);
      hide CallOk, Receives;
    } else {
      hide CallOk, Receives;
    }
  }

  lemma RunAnswersClosed(s: State, c: nat, a: CallStep)
    requires CallEnabled(s, c, a) && CallOk(s, c) && s.closed && ClosedAnswer(s.calls[c])
    requires !IsAwait(a) && !a.TakeReply? && !a.LastLook? && !a.PoisonLook?
    ensures ClosedAnswer(CallApply(s, c, a).calls[c])
  {
    hide AwaitEnabled, AwaitCall, J.Apply, J.Enabled, Receives, DoSend;
  }

  lemma AnswersClosedOnce(s: State, step: Step, c: nat)
    requires Inv(s) && Enabled(s, step) && s.closed && c < |s.calls| && ClosedAnswer(s.calls[c])
    ensures var s' := Apply(s, step); s'.closed && c < |s'.calls| && ClosedAnswer(s'.calls[c])
  {
    assert CallOk(s, c);
    hide Inv, CallApply, CallEnabled, SupervisorApply, SupervisorEnabled, ClosedAnswer, CallOk;
    match step
    case Act(d, a) =>
      ActShape(s, d, a);
      if d == c {
        if IsAwait(a) { AwaitAnswersClosed(s, c, a); }
        else if a.TakeReply? || a.LastLook? || a.PoisonLook? { ReplyAnswersClosed(s, c, a); }
        else { RunAnswersClosed(s, c, a); }
      }
    case Supervise(a) => SupervisorShape(s, a); StaysClosed(s, a);
    case _ =>
  }

  lemma StaysClosed(s: State, a: SupervisorStep)
    requires SupervisorEnabled(s, a)
    ensures SupervisorApply(s, a).closed == s.closed
  {}

  lemma {:induction false} AnswersClosed(s: State, steps: seq<Step>, c: nat)
    requires Inv(s) && Executable(s, steps) && s.closed && c < |s.calls| && ClosedAnswer(s.calls[c])
    ensures c < |Exec(s, steps).calls| && ClosedAnswer(Exec(s, steps).calls[c])
    decreases |steps|
  {
    hide Inv, Enabled, Apply, ClosedAnswer;
    if steps != [] {
      StepKeeps(s, steps[0]);
      AnswersClosedOnce(s, steps[0], c);
      AnswersClosed(Apply(s, steps[0]), steps[1..], c);
    }
  }

  /** A request in flight when the worker is closed ends with its reply, a timeout or ErrClosed, never with ErrRestarted. */
  lemma InFlightAtCloseIsClosed(cfg: Config, now: int, run: seq<Step>, steps: seq<Step>, c: nat)
    requires Executable(Init(cfg, now), run)
    requires var s := Exec(Init(cfg, now), run);
      s.closed && c < |s.calls| && s.calls[c].sent.Some? && s.calls[c].answer.None? && Executable(s, steps)
    ensures var s' := Exec(Exec(Init(cfg, now), run), steps); c < |s'.calls| && ClosedAnswer(s'.calls[c])
  {
    RunKeeps(cfg, now, run);
    AnswersClosed(Exec(Init(cfg, now), run), steps, c);
  }

  /** The budget's tick is taken once: the goroutine that took it, wait or finish, is the one on record ever after. */
  lemma {:induction false} TickIsTakenOnce(s: State, steps: seq<Step>, c: nat)
    requires Inv(s) && Executable(s, steps) && c < |s.calls| && s.calls[c].budget.Taken?
    ensures c < |Exec(s, steps).calls| && Exec(s, steps).calls[c].budget == s.calls[c].budget
    decreases |steps|
  {
    hide Inv, Enabled, Apply;
    if steps != [] {
      StepKeeps(s, steps[0]);
      FinalOnce(s, steps[0], c);
      TickIsTakenOnce(Apply(s, steps[0]), steps[1..], c);
    }
  }

  /** The call's context ended before its context test, or it is on its way out without having sent. */
  predicate Unsendable(x: Call) {
    && x.sent.None?
    && (x.phase.Leaving? || x.phase.Gone?
        || (ContextDone(x) && (x.phase.Queued? || x.phase.Looping? || x.phase.Looked? || x.phase.Blocked? || x.phase.Chosen?)))
  }

  lemma UnsendableStays(s: State, c: nat, a: CallStep)
    requires CallEnabled(s, c, a) && Unsendable(s.calls[c])
    ensures Unsendable(CallApply(s, c, a).calls[c])
  {
    if IsAwait(a) { hide RunEnabled, RunApply; } else { hide AwaitEnabled, AwaitCall, J.Apply, J.Enabled, Receives, DoSend; }
  }

  lemma UnsendableOnce(s: State, step: Step, c: nat)
    requires Enabled(s, step) && c < |s.calls| && Unsendable(s.calls[c])
    ensures c < |Apply(s, step).calls| && Unsendable(Apply(s, step).calls[c])
  {
    hide CallApply, CallEnabled, SupervisorApply, SupervisorEnabled, Unsendable;
    match step
    case Act(d, a) =>
      ActShape(s, d, a);
      if d == c { UnsendableStays(s, c, a); }
    case Supervise(a) => SupervisorShape(s, a);
    case _ =>
  }

  /** A request whose context is done before the test that follows await is never sent, whatever serves later. */
  lemma {:induction false} ExpiredIsNotSent(s: State, steps: seq<Step>, c: nat)
    requires Executable(s, steps) && c < |s.calls| && Unsendable(s.calls[c])
    ensures c < |Exec(s, steps).calls| && Exec(s, steps).calls[c].sent.None?
    decreases |steps|
  {
    if steps != [] {
      hide Enabled, Apply, Unsendable;
      UnsendableOnce(s, steps[0], c);
      ExpiredIsNotSent(Apply(s, steps[0]), steps[1..], c);
    }
  }

  // ----- waking up

  /**
   No lost wake-up: a caller asleep on a channel that is still open has read the current JVM, which is nil or dead, and
   nothing has failed for good. So whenever a live JVM serves or the worker has failed, every sleeper can get up.
   */
  lemma NoLostWakeUp(cfg: Config, now: int, steps: seq<Step>, c: nat)
    requires Executable(Init(cfg, now), steps)
    requires var s := Exec(Init(cfg, now), steps); c < |s.calls| && s.calls[c].phase.Blocked?
    ensures var s := Exec(Init(cfg, now), steps); var x := s.calls[c];
      && x.phase.ch <= s.changed
      && (x.phase.ch == s.changed ==>
            && x.phase.seen == s.current && !s.failErr
            && (s.current.Some? ==> s.current.value < |s.procs| && s.procs[s.current.value].dead))
      && (s.failErr || (s.current.Some? && s.current.value < |s.procs| && !s.procs[s.current.value].dead) ==>
            Enabled(s, Act(c, Wake)))
  {
    RunKeeps(cfg, now, steps);
    assert CallOk(Exec(Init(cfg, now), steps), c);
  }

  /** Publishing a JVM, retiring one and failing for good each wake every sleeper. */
  lemma BroadcastWakesAll(cfg: Config, now: int, steps: seq<Step>, a: SupervisorStep, c: nat)
    requires Executable(Init(cfg, now), steps)
    requires var s := Exec(Init(cfg, now), steps);
      && Enabled(s, Supervise(a)) && c < |s.calls| && s.calls[c].phase.Blocked?
      && (a.Retire? || (a.Publish? && !s.closed) || (a.NoteFailure? && s.failures == |s.cfg.backoff|))
    ensures Enabled(Apply(Exec(Init(cfg, now), steps), Supervise(a)), Act(c, Wake))
  {
    RunKeeps(cfg, now, steps);
    assert CallOk(Exec(Init(cfg, now), steps), c);
  }

  // ----- the supervisor

  /** At most one JVM is alive or unreaped; when supervise has returned there is none: Close waits for the exit. */
  lemma OneUnreaped(cfg: Config, now: int, steps: seq<Step>, p: nat, q: nat)
    requires Executable(Init(cfg, now), steps)
    requires var s := Exec(Init(cfg, now), steps);
      p < |s.procs| && q < |s.procs| && !s.procs[p].reaped && !s.procs[q].reaped
    ensures p == q && !Exec(Init(cfg, now), steps).sup.Returned?
  {
    RunKeeps(cfg, now, steps);
    var s := Exec(Init(cfg, now), steps);
    assert J.Inv(s.procs[p]) && J.Inv(s.procs[q]);
  }

  /**
   The worker has failed exactly when its last len(Backoff) + 1 starts failed in a row, and never lets more fail. Its
   channels are closed once each, and the pause after a failure short of that is in range.
   */
  lemma FailsAfterAllStarts(cfg: Config, now: int, steps: seq<Step>)
    requires Executable(Init(cfg, now), steps)
    ensures var s := Exec(Init(cfg, now), steps);
      && (s.failErr <==> Trailing(s.starts) == |cfg.backoff| + 1)
      && Trailing(s.starts) <= |cfg.backoff| + 1
      && s.failed == (if s.failErr then 1 else 0) && s.ready <= 1 && s.done <= 1
      && (s.failErr ==> s.done == 1 && s.current.None? && s.starting.None?)
      && (s.sup.StartFailed? ==> s.failures <= |cfg.backoff|)
  {
    RunKeeps(cfg, now, steps);
  }

  /** Trailing counts the failed starts since the last good one. */
  lemma {:induction false} TrailingCounts(starts: seq<bool>)
    ensures var n := Trailing(starts);
      && n <= |starts| && (forall i :: |starts| - n <= i < |starts| ==> !starts[i])
      && (n < |starts| ==> starts[|starts| - n - 1])
  {
    if starts != [] && !starts[|starts| - 1] { TrailingCounts(starts[..|starts| - 1]); }
  }

  lemma FailureStaysOnce(s: State, step: Step)
    requires Inv(s) && Enabled(s, step) && s.failErr
    ensures var s' := Apply(s, step); s'.failErr && s'.current.None? && s'.starts == s.starts && |s'.procs| == |s.procs|
  {
    match step
    case Act(c, a) => ActShape(s, c, a);
    case _ =>
  }

  /** After failing for good there is never a JVM again. */
  lemma {:induction false} FailureIsFinal(s: State, steps: seq<Step>)
    requires Inv(s) && Executable(s, steps) && s.failErr
    ensures var s' := Exec(s, steps); s'.failErr && s'.current.None? && s'.starts == s.starts && |s'.procs| == |s.procs|
    decreases |steps|
  {
    hide Enabled, Apply;
    if steps != [] {
      StepKeeps(s, steps[0]);
      FailureStaysOnce(s, steps[0]);
      hide Inv;
      FailureIsFinal(Apply(s, steps[0]), steps[1..]);
    }
  }
}

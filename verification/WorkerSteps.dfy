/** Every step of the worker keeps its invariant. */
module WorkerSteps {
  import opened Sums
  import opened WorkerModel
  import opened WorkerInvariant
  import J = JvmProcess

  // ----- the steps of a call

  datatype Move = Still | Move(proc: nat, j: J.Step)

  /** What a call's step does to a JVM. */
  function CallMove(s: State, c: nat, a: CallStep): Move
    requires CallEnabled(s, c, a)
  {
    if IsAwait(a) then Still else RunMove(s, c, s.calls[c], a)
  }

  function RunMove(s: State, c: nat, x: Call, a: CallStep): Move
    requires !IsAwait(a) && RunEnabled(s, x, a)
  {
    match a
    case Send => if s.procs[x.phase.proc].dead then Still else Move(x.phase.proc, J.Send(J.Some(c)))
    case TakeReply => Move(x.sent.value.proc, J.Receive(x.sent.value.id))
    case LastLook => if |Channel(s, x)| > 0 then Move(x.sent.value.proc, J.Receive(x.sent.value.id)) else Still
    case PoisonLook => if |Channel(s, x)| > 0 then Move(x.sent.value.proc, J.Receive(x.sent.value.id)) else Still
    case PoisonKill => Move(x.sent.value.proc, J.Kill)
    case _ => Still
  }

  ghost predicate Moved(s: State, s': State, m: Move) {
    if m.Still? then s'.procs == s.procs
    else m.proc < |s.procs| && J.Enabled(s.procs[m.proc], m.j) && s'.procs == s.procs[m.proc := J.Apply(s.procs[m.proc], m.j)]
  }

  /** A call's step changes its own record, at most one JVM, the slots and the record of requests in flight. */
  lemma ActShape(s: State, c: nat, a: CallStep)
    requires CallEnabled(s, c, a)
    ensures var s' := CallApply(s, c, a);
      && Moved(s, s', CallMove(s, c, a))
      && |s'.calls| == |s.calls| && s'.calls == s.calls[c := s'.calls[c]]
      && s' == s.(calls := s'.calls, procs := s'.procs, sem := s'.sem, inFlight := s'.inFlight)
      && (forall d :: d != c ==> (d in s'.inFlight <==> d in s.inFlight))
  {
    if IsAwait(a) { hide RunEnabled, RunApply, RunMove; } else { hide AwaitEnabled, AwaitCall; }
  }

  lemma MovedOnward(s: State, s': State, m: Move)
    requires Moved(s, s', m)
    requires s'.cfg == s.cfg && s'.now == s.now && s'.changed == s.changed && s'.current == s.current && s'.failErr == s.failErr
    requires s'.sup == s.sup
    ensures Onward(s, s')
  {
    if m.Move? { ProcEvolves(s.procs[m.proc], m.j); }
  }

  lemma MovedInv(s: State, s': State, m: Move)
    requires Moved(s, s', m) && forall p: nat :: p < |s.procs| ==> J.Inv(s.procs[p])
    ensures forall p: nat :: p < |s'.procs| ==> J.Inv(s'.procs[p])
  {
    if m.Move? {
      hide J.Inv, J.Apply;
      J.StepKeeps(s.procs[m.proc], m.j);
    }
  }

  lemma ActOthers(s: State, c: nat, a: CallStep, d: nat)
    requires CallEnabled(s, c, a) && c != d && d < |s.calls| && CallOk(s, c) && CallOk(s, d)
    ensures CallOk(CallApply(s, c, a), d)
  {
    var s', m := CallApply(s, c, a), CallMove(s, c, a);
    ActShape(s, c, a);
    MovedOnward(s, s', m);
    if m.Move? { ProcEvolves(s.procs[m.proc], m.j); }
    CallStays(s, s', d);
  }

  lemma ActSelfTimers(s: State, c: nat, a: CallStep)
    requires CallEnabled(s, c, a) && CallOk(s, c)
    requires a.Expire? || a.Cancel? || a.BudgetFires?
    ensures CallOk(CallApply(s, c, a), c)
  {
    hide RunEnabled, RunApply;
  }

  lemma ActSelfQueue(s: State, c: nat, a: CallStep)
    requires CallEnabled(s, c, a) && CallOk(s, c)
    requires a.TakeSlot? || a.ContextEndsQueue? || a.QuitEndsQueue?
    ensures CallOk(CallApply(s, c, a), c)
  {
    hide RunEnabled, RunApply;
  }

  lemma ActSelfAwait(s: State, c: nat, a: CallStep)
    requires CallEnabled(s, c, a) && CallOk(s, c)
    requires a.Judge? || a.Wake? || a.ContextEndsAwait? || a.TestContext?
    ensures CallOk(CallApply(s, c, a), c)
  {
    hide RunEnabled, RunApply;
  }

  lemma ActSelfLook(s: State, c: nat)
    requires CallEnabled(s, c, Look) && CallOk(s, c) && FieldsOk(s) && OneJvm(s)
    ensures CallOk(CallApply(s, c, Look), c)
  {
    hide RunEnabled, RunApply;
  }

  /** A live JVM registers the request under the next id, for the call that sent it. */
  lemma SentTo(s: State, c: nat, p: nat)
    requires p < |s.procs| && J.Inv(s.procs[p]) && !s.procs[p].dead
    ensures J.Enabled(s.procs[p], J.Send(J.Some(c)))
    ensures var s' := PutProc(s, p, J.Send(J.Some(c)));
      && s' == s.(procs := s'.procs) && |s'.procs| == |s.procs| && |s'.procs[p].requests| == |s.procs[p].requests| + 1
      && var q := s'.procs[p].requests[|s.procs[p].requests|]; q.owner == J.Some(c) && q.got == []
  {}

  lemma HasSent(s: State, s': State, c: nat, p: nat)
    requires CallOk(s, c) && s.calls[c].phase == Sending(p) && s' == s.(procs := s'.procs, calls := s'.calls)
    requires p < |s'.procs| && |s'.procs| == |s.procs| && |s'.procs[p].requests| == |s.procs[p].requests| + 1
    requires var q := s'.procs[p].requests[|s.procs[p].requests|]; q.owner == J.Some(c) && q.got == []
    requires var x := s.calls[c].(phase := Tracking, sent := J.Some(Sent(p, |s'.procs[p].requests|, s.now)));
      s'.calls == s.calls[c := x]
    ensures CallOk(s', c)
  {}

  lemma SendFailed(s: State, c: nat)
    requires CallOk(s, c) && s.calls[c].phase.Sending?
    ensures CallOk(PutCall(s, c, s.calls[c].(phase := Looping)), c)
  {}

  lemma ActSelfSend(s: State, c: nat)
    requires CallEnabled(s, c, Send) && CallOk(s, c) && J.Inv(s.procs[s.calls[c].phase.proc])
    ensures CallOk(CallApply(s, c, Send), c)
  {
    var p := s.calls[c].phase.proc;
    if s.procs[p].dead {
      hide CallOk, J.Inv, J.Apply, J.Enabled;
      SendFailed(s, c);
    } else {
      SentTo(s, c, p);
      hide CallOk, J.Inv, J.Apply, J.Enabled, PutProc;
      HasSent(s, CallApply(s, c, Send), c, p);
    }
  }

  /** What a receive leaves in the channel's request, and where. */
  lemma ReceivedFrom(s: State, c: nat)
    requires c < |s.calls| && IsSent(s, s.calls[c]) && |Channel(s, s.calls[c])| > 0
    ensures var s', x := Receives(s, c), s.calls[c];
      && s' == s.(procs := s'.procs, calls := s.calls[c := x.(phase := Settled(Channel(s, x)[0]))]) && |s'.procs| == |s.procs|
      && IsSent(s', x)
      && var q, q' := s.procs[x.sent.value.proc].requests[x.sent.value.id - 1], s'.procs[x.sent.value.proc].requests[x.sent.value.id - 1];
        q'.owner == q.owner && q'.got == q.got + [Channel(s, x)[0]]
  {}

  lemma ReceivesKeeps(s: State, c: nat)
    requires c < |s.calls| && CallOk(s, c) && Outstanding(s.calls[c].phase) && |Channel(s, s.calls[c])| > 0
    requires !s.calls[c].phase.Tracking?
    ensures CallOk(Receives(s, c), c)
  {
    ReceivedFrom(s, c);
    hide Receives;
  }

  lemma ActSelfReply(s: State, c: nat, a: CallStep)
    requires CallEnabled(s, c, a) && CallOk(s, c)
    requires a.TakeReply? || a.LastLook? || a.PoisonLook?
    ensures CallOk(CallApply(s, c, a), c)
  {
    hide J.Apply, J.Enabled, AwaitEnabled, AwaitCall;
    if |Channel(s, s.calls[c])| > 0 {
      hide CallOk, Receives;
      ReceivesKeeps(s, c);
    } else {
      hide Receives;
    }
  }

  lemma ActSelfTrack(s: State, c: nat)
    requires CallEnabled(s, c, Track) && CallOk(s, c)
    ensures CallOk(CallApply(s, c, Track), c)
  {
    hide AwaitEnabled, AwaitCall, J.Apply, J.Enabled, Receives, DoSend;
  }

  lemma ActSelfWait(s: State, c: nat, a: CallStep)
    requires CallEnabled(s, c, a) && CallOk(s, c) && (a.TakeTick? || a.DeadlinePasses?)
    ensures CallOk(CallApply(s, c, a), c)
  {
    hide AwaitEnabled, AwaitCall, J.Apply, J.Enabled, Receives, DoSend;
  }

  lemma ActSelfKill(s: State, c: nat)
    requires CallEnabled(s, c, PoisonKill) && CallOk(s, c)
    ensures CallOk(CallApply(s, c, PoisonKill), c)
  {
    hide AwaitEnabled, AwaitCall;
  }

  lemma ActSelfAnswer(s: State, c: nat, a: CallStep)
    requires CallEnabled(s, c, a) && CallOk(s, c)
    requires a.Buried? || a.Settle?
    ensures CallOk(CallApply(s, c, a), c)
  {
    hide AwaitEnabled, AwaitCall, J.Apply, J.Enabled;
  }

  lemma ActSelfEnd(s: State, c: nat, a: CallStep)
    requires CallEnabled(s, c, a) && CallOk(s, c)
    requires a.Untrack? || a.Leave?
    ensures CallOk(CallApply(s, c, a), c)
  {
    hide AwaitEnabled, AwaitCall, J.Apply, J.Enabled;
  }

  lemma ActSelf(s: State, c: nat, a: CallStep)
    requires CallEnabled(s, c, a) && CallOk(s, c) && FieldsOk(s) && OneJvm(s)
    requires forall p: nat :: p < |s.procs| ==> J.Inv(s.procs[p])
    ensures CallOk(CallApply(s, c, a), c)
  {
    hide CallOk, FieldsOk, OneJvm, CallApply, J.Inv;
    if a.Expire? || a.Cancel? || a.BudgetFires? {
      ActSelfTimers(s, c, a);
    } else if a.TakeSlot? || a.ContextEndsQueue? || a.QuitEndsQueue? {
      ActSelfQueue(s, c, a);
    } else if a.Look? {
      ActSelfLook(s, c);
    } else if a.Judge? || a.Wake? || a.ContextEndsAwait? || a.TestContext? {
      ActSelfAwait(s, c, a);
    } else if a.Send? {
      ActSelfSend(s, c);
    } else if a.TakeReply? || a.LastLook? || a.PoisonLook? {
      ActSelfReply(s, c, a);
    } else if a.Track? {
      ActSelfTrack(s, c);
    } else if a.TakeTick? || a.DeadlinePasses? {
      ActSelfWait(s, c, a);
    } else if a.PoisonKill? {
      ActSelfKill(s, c);
    } else if a.Buried? || a.Settle? {
      ActSelfAnswer(s, c, a);
    } else {
      ActSelfEnd(s, c, a);
    }
  }

  /** A call gets its one request when it sends, and waits for it until it receives the reply or the JVM is done. */
  ghost predicate Keeps(s: State, c: nat, m: Move, x: Call, x': Call) {
    && (x.sent.Some? ==> x'.sent == x.sent && !(m.Move? && m.j.Send?))
    && (m.Move? && m.j.Send? && m.proc < |s.procs| && s.procs[m.proc].pending.Some? ==>
          && m.j.owner == J.Some(c) && Outstanding(x'.phase)
          && x'.sent == J.Some(Sent(m.proc, |s.procs[m.proc].requests| + 1, s.now)))
    && (Outstanding(x.phase) && x.sent.Some? && x.sent.value.proc < |s.procs| ==>
          || Outstanding(x'.phase)
          || s.procs[x.sent.value.proc].reader.Done?
          || (m == Move(x.sent.value.proc, J.Receive(x.sent.value.id))))
  }

  lemma ActRecord(s: State, c: nat, a: CallStep)
    requires CallEnabled(s, c, a) && CallOk(s, c)
    ensures Keeps(s, c, CallMove(s, c, a), s.calls[c], CallApply(s, c, a).calls[c])
  {
    hide CallOk, Keeps, AwaitEnabled, AwaitCall, RunEnabled, RunApply, RunMove;
    if IsAwait(a) { AwaitRecord(s, c, a); }
    else if a.Send? { SendRecord(s, c); }
    else { RunRecord(s, c, a); }
  }

  lemma AwaitRecord(s: State, c: nat, a: CallStep)
    requires CallEnabled(s, c, a) && CallOk(s, c) && IsAwait(a)
    ensures Keeps(s, c, Still, s.calls[c], AwaitApply(s, c, a).calls[c])
  {
    hide RunEnabled, RunApply;
  }

  lemma SendRecord(s: State, c: nat)
    requires CallEnabled(s, c, Send) && CallOk(s, c)
    ensures Keeps(s, c, RunMove(s, c, s.calls[c], Send), s.calls[c], RunApply(s, c, Send).calls[c])
  {
    hide AwaitEnabled, AwaitCall;
  }

  lemma RunRecord(s: State, c: nat, a: CallStep)
    requires CallEnabled(s, c, a) && CallOk(s, c) && !IsAwait(a) && !a.Send?
    ensures Keeps(s, c, RunMove(s, c, s.calls[c], a), s.calls[c], RunApply(s, c, a).calls[c])
  {
    hide AwaitEnabled, AwaitCall, J.Apply, J.Enabled, DoSend;
  }

  lemma LiveMapIsThere(s: State, c: nat, a: CallStep)
    requires CallEnabled(s, c, a) && forall p: nat :: p < |s.procs| ==> J.Inv(s.procs[p])
    ensures var m := CallMove(s, c, a); m.Move? && m.j.Send? ==> m.proc < |s.procs| && s.procs[m.proc].pending.Some?
  {}

  lemma OwnedMoves(s: State, s': State, c: nat, m: Move, p: nat, id: nat)
    requires c < |s.calls| && |s'.calls| == |s.calls| && s'.calls == s.calls[c := s'.calls[c]]
    requires Moved(s, s', m) && Keeps(s, c, m, s.calls[c], s'.calls[c]) && OwnedOk(s, p, id)
    requires m.Move? && m.j.Send? ==> s.procs[m.proc].pending.Some?
    ensures OwnedOk(s', p, id)
  {
    if m.Move? {
      ProcEvolves(s.procs[m.proc], m.j);
      assert |J.Apply(s.procs[m.proc], m.j).requests| ==
        |s.procs[m.proc].requests| + if m.j.Send? && !s.procs[m.proc].dead then 1 else 0;
      assert m.j.Send? && !s.procs[m.proc].dead ==>
        J.Apply(s.procs[m.proc], m.j).requests[|s.procs[m.proc].requests|].owner == m.j.owner;
      hide J.Apply, J.Enabled;
    }
  }

  lemma ActOwned(s: State, c: nat, a: CallStep, p: nat, id: nat)
    requires CallEnabled(s, c, a) && CallOk(s, c) && OwnedOk(s, p, id)
    requires var m := CallMove(s, c, a); m.Move? && m.j.Send? ==> m.proc < |s.procs| && s.procs[m.proc].pending.Some?
    ensures OwnedOk(CallApply(s, c, a), p, id)
  {
    ActShape(s, c, a);
    ActRecord(s, c, a);
    hide CallApply, CallMove, CallOk, OwnedOk, Keeps, Moved;
    OwnedMoves(s, CallApply(s, c, a), c, CallMove(s, c, a), p, id);
  }

  lemma AwaitSlots(s: State, c: nat, a: CallStep)
    requires CallEnabled(s, c, a) && IsAwait(a)
    ensures var s' := CallApply(s, c, a);
      s'.sem - s.sem == Slot(s'.calls[c]) - Slot(s.calls[c]) && (s.sem <= s.cfg.threads ==> s'.sem <= s.cfg.threads)
  {
    hide RunEnabled, RunApply;
  }

  lemma ProcSlots(s: State, c: nat, a: CallStep)
    requires CallEnabled(s, c, a) && (a.Send? || a.PoisonKill?)
    ensures var s' := CallApply(s, c, a);
      s'.sem - s.sem == Slot(s'.calls[c]) - Slot(s.calls[c]) && (s.sem <= s.cfg.threads ==> s'.sem <= s.cfg.threads)
  {
    hide AwaitEnabled, AwaitCall, J.Apply, J.Enabled, Receives;
  }

  lemma RunSlots(s: State, c: nat, a: CallStep)
    requires CallEnabled(s, c, a) && !IsAwait(a) && !a.Send? && !a.PoisonKill? && !a.TakeReply? && !a.LastLook? && !a.PoisonLook?
    ensures var s' := CallApply(s, c, a);
      s'.sem - s.sem == Slot(s'.calls[c]) - Slot(s.calls[c]) && (s.sem <= s.cfg.threads ==> s'.sem <= s.cfg.threads)
  {
    hide AwaitEnabled, AwaitCall, J.Apply, J.Enabled, Receives, PutProc, DoSend, Channel;
  }

  lemma ReplySlots(s: State, c: nat, a: CallStep)
    requires CallEnabled(s, c, a) && (a.TakeReply? || a.LastLook? || a.PoisonLook?)
    ensures var s' := CallApply(s, c, a);
      s'.sem - s.sem == Slot(s'.calls[c]) - Slot(s.calls[c]) && (s.sem <= s.cfg.threads ==> s'.sem <= s.cfg.threads)
  {
    hide AwaitEnabled, AwaitCall, J.Apply, J.Enabled;
  }

  lemma ActSlots(s: State, c: nat, a: CallStep)
    requires CallEnabled(s, c, a) && s.sem == Sum(s.calls, Slot) && s.sem <= s.cfg.threads
    ensures var s' := CallApply(s, c, a); s'.sem == Sum(s'.calls, Slot) && s'.sem <= s'.cfg.threads
  {
    ActShape(s, c, a);
    if IsAwait(a) { AwaitSlots(s, c, a); }
    else if a.Send? || a.PoisonKill? { ProcSlots(s, c, a); }
    else if a.TakeReply? || a.LastLook? || a.PoisonLook? { ReplySlots(s, c, a); }
    else { RunSlots(s, c, a); }
    hide CallApply, CallEnabled, CallMove;
    SumUpdate(s.calls, c, CallApply(s, c, a).calls[c], Slot);
  }

  lemma WarmUpStaysOver(p: J.Process, j: J.Step)
    requires WarmUpOver(p) && J.Enabled(p, j) && (j.Send? ==> j.owner.Some?)
    ensures WarmUpOver(J.Apply(p, j))
  {
    var p' := J.Apply(p, j);
    forall id: nat | J.HasRequest(p', id) && p'.requests[id - 1].owner.None? ensures p'.requests[id - 1].got != [] {
      assert J.HasRequest(p, id);
    }
  }

  lemma ActFields(s: State, c: nat, a: CallStep)
    requires CallEnabled(s, c, a) && CallOk(s, c) && OneJvm(s) && FieldsOk(s) && WarmUpOk(s)
    ensures var s' := CallApply(s, c, a); OneJvm(s') && FieldsOk(s') && WarmUpOk(s')
  {
    var s', m := CallApply(s, c, a), CallMove(s, c, a);
    ActShape(s, c, a);
    if m.Move? {
      ProcEvolves(s.procs[m.proc], m.j);
      if WarmUpOver(s.procs[m.proc]) { WarmUpStaysOver(s.procs[m.proc], m.j); }
    }
  }

  lemma AwaitInFlight(s: State, c: nat, a: CallStep)
    requires CallEnabled(s, c, a) && CallOk(s, c) && InFlightOk(s, c) && IsAwait(a)
    ensures InFlightOk(CallApply(s, c, a), c)
  {
    hide RunEnabled, RunApply;
  }

  lemma TrackInFlight(s: State, c: nat, a: CallStep)
    requires CallEnabled(s, c, a) && CallOk(s, c) && InFlightOk(s, c) && (a.Send? || a.Track? || a.Untrack? || a.Leave?)
    ensures InFlightOk(CallApply(s, c, a), c)
  {
    hide AwaitEnabled, AwaitCall, J.Apply, J.Enabled;
  }

  lemma RunInFlight(s: State, c: nat, a: CallStep)
    requires CallEnabled(s, c, a) && CallOk(s, c) && InFlightOk(s, c)
    requires !IsAwait(a) && !a.Send? && !a.Track? && !a.Untrack? && !a.Leave?
    ensures InFlightOk(CallApply(s, c, a), c)
  {
    hide AwaitEnabled, AwaitCall, J.Apply, J.Enabled;
  }

  lemma ActSelfInFlight(s: State, c: nat, a: CallStep)
    requires CallEnabled(s, c, a) && CallOk(s, c) && InFlightOk(s, c)
    ensures InFlightOk(CallApply(s, c, a), c)
  {
    hide CallOk, InFlightOk, CallApply, AwaitEnabled, RunEnabled;
    if IsAwait(a) { AwaitInFlight(s, c, a); }
    else if a.Send? || a.Track? || a.Untrack? || a.Leave? { TrackInFlight(s, c, a); }
    else { RunInFlight(s, c, a); }
  }

  lemma ActInFlight(s: State, c: nat, a: CallStep, d: nat)
    requires CallEnabled(s, c, a) && CallOk(s, c) && InFlightOk(s, c) && InFlightOk(s, d)
    ensures InFlightOk(CallApply(s, c, a), d)
  {
    ActShape(s, c, a);
    ActSelfInFlight(s, c, a);
    hide CallApply, CallEnabled, CallMove, CallOk;
  }

  lemma ActKeeps(s: State, c: nat, a: CallStep)
    requires Inv(s) && CallEnabled(s, c, a)
    ensures Inv(CallApply(s, c, a))
  {
    var s', m := CallApply(s, c, a), CallMove(s, c, a);
    ActShape(s, c, a);
    assert CallOk(s, c) && InFlightOk(s, c);
    LiveMapIsThere(s, c, a);
    hide CallApply, CallMove, CallEnabled, CallOk, OwnedOk, InFlightOk, OneJvm, WarmUpOk, FieldsOk, J.Inv;
    MovedInv(s, s', m);
    ActSlots(s, c, a);
    ActFields(s, c, a);
    ActSelf(s, c, a);
    forall d: nat | d < |s'.calls| ensures CallOk(s', d) {
      if d != c { ActOthers(s, c, a, d); }
    }
    forall p: nat, id: nat ensures OwnedOk(s', p, id) { ActOwned(s, c, a, p, id); }
    forall d: nat ensures InFlightOk(s', d) { ActInFlight(s, c, a, d); }
  }

  // ----- the supervisor's steps

  /** What a step of the supervisor does to the JVM it looks after. */
  function SupervisorMove(s: State, a: SupervisorStep): Move
    requires SupervisorEnabled(s, a)
  {
    match a
    case Greet => if s.procs[s.sup.proc].dead then Still else Move(s.sup.proc, J.Send(J.None))
    case WarmReply(_) => Move(s.sup.proc, J.Receive(s.sup.id))
    case Drop => Move(s.sup.proc, J.Kill)
    case ShutKill => Move(s.sup.proc, J.Kill)
    case _ => Still
  }

  lemma SupervisorShape(s: State, a: SupervisorStep)
    requires SupervisorEnabled(s, a)
    ensures var s', m := SupervisorApply(s, a), SupervisorMove(s, a);
      && s'.calls == s.calls && s'.sem == s.sem && s'.inFlight == s.inFlight && s'.cfg == s.cfg && s'.now == s.now
      && (if a == Spawn(true) then s'.procs == s.procs + [J.Spawned] else Moved(s, s', m))
      && (m.Move? ==> IsStarting(s.sup) && m.proc == s.sup.proc)
  {}

  lemma SupervisorOnward(s: State, a: SupervisorStep)
    requires SupervisorEnabled(s, a) && FieldsOk(s) && OneJvm(s)
    ensures Onward(s, SupervisorApply(s, a))
  {
    var s', m := SupervisorApply(s, a), SupervisorMove(s, a);
    SupervisorShape(s, a);
    if m.Move? { ProcEvolves(s.procs[m.proc], m.j); }
    forall p: nat | p < |s.procs| ensures Evolves(s.procs[p], s'.procs[p]) {
      hide SupervisorApply, SupervisorMove, SupervisorEnabled;
    }
  }

  lemma SupervisorCalls(s: State, a: SupervisorStep, d: nat)
    requires SupervisorEnabled(s, a) && CallOk(s, d) && FieldsOk(s) && OneJvm(s)
    ensures CallOk(SupervisorApply(s, a), d)
  {
    var s', m := SupervisorApply(s, a), SupervisorMove(s, a);
    SupervisorShape(s, a);
    SupervisorOnward(s, a);
    hide SupervisorApply, SupervisorMove, SupervisorEnabled;
    if m.Move? { ProcEvolves(s.procs[m.proc], m.j); }
    CallStays(s, s', d);
  }

  lemma SupervisorOwned(s: State, a: SupervisorStep, p: nat, id: nat)
    requires SupervisorEnabled(s, a) && OwnedOk(s, p, id)
    ensures OwnedOk(SupervisorApply(s, a), p, id)
  {
    var s', m := SupervisorApply(s, a), SupervisorMove(s, a);
    SupervisorShape(s, a);
    assert m.Move? && m.j.Send? ==> m.j.owner.None?;
    hide SupervisorApply, SupervisorMove, SupervisorEnabled;
    if m.Move? { ProcEvolves(s.procs[m.proc], m.j); }
  }

  lemma SupervisorInvs(s: State, a: SupervisorStep)
    requires SupervisorEnabled(s, a) && forall p: nat :: p < |s.procs| ==> J.Inv(s.procs[p])
    ensures forall p: nat :: p < |SupervisorApply(s, a).procs| ==> J.Inv(SupervisorApply(s, a).procs[p])
  {
    SupervisorShape(s, a);
    hide SupervisorApply, SupervisorMove, SupervisorEnabled;
    J.SpawnedInv();
    if a != Spawn(true) { MovedInv(s, SupervisorApply(s, a), SupervisorMove(s, a)); }
  }

  lemma LaunchFields(s: State, a: SupervisorStep)
    requires SupervisorEnabled(s, a) && OneJvm(s) && WarmUpOk(s) && FieldsOk(s)
    requires a.Launch? || a.Spawn? || a.Start?
    ensures var s' := SupervisorApply(s, a); OneJvm(s') && WarmUpOk(s') && FieldsOk(s')
  {
    hide Trailing, J.Apply, J.Enabled;
  }

  lemma GreetFields(s: State)
    requires SupervisorEnabled(s, Greet) && OneJvm(s) && WarmUpOk(s) && FieldsOk(s)
    requires s.procs[s.sup.proc].dead || s.procs[s.sup.proc].pending.Some?
    ensures var s' := SupervisorApply(s, Greet); OneJvm(s') && WarmUpOk(s') && FieldsOk(s')
  {
    hide Trailing;
  }

  lemma WarmFields(s: State, a: SupervisorStep)
    requires SupervisorEnabled(s, a) && OneJvm(s) && WarmUpOk(s) && FieldsOk(s)
    requires a.WarmReply?
    ensures var s' := SupervisorApply(s, a); OneJvm(s') && WarmUpOk(s') && FieldsOk(s')
  {
    hide Trailing;
  }

  lemma DropFields(s: State, a: SupervisorStep)
    requires SupervisorEnabled(s, a) && OneJvm(s) && WarmUpOk(s) && FieldsOk(s)
    requires a.WarmTimeout? || a.Drop? || a.StartOver?
    ensures var s' := SupervisorApply(s, a); OneJvm(s') && WarmUpOk(s') && FieldsOk(s')
  {
    hide Trailing;
  }

  lemma CountFields(s: State, a: SupervisorStep)
    requires SupervisorEnabled(s, a) && OneJvm(s) && WarmUpOk(s) && FieldsOk(s)
    requires a.NoteFailure? || a.Publish?
    ensures var s' := SupervisorApply(s, a); OneJvm(s') && WarmUpOk(s') && FieldsOk(s')
  {
    TrailingMore(s.starts);
    hide Trailing, J.Apply, J.Enabled;
  }

  lemma ServeFields(s: State, a: SupervisorStep)
    requires SupervisorEnabled(s, a) && OneJvm(s) && WarmUpOk(s) && FieldsOk(s)
    requires a.Resume? || a.QuitPause? || a.Retire?
    ensures var s' := SupervisorApply(s, a); OneJvm(s') && WarmUpOk(s') && FieldsOk(s')
  {
    hide Trailing, J.Apply, J.Enabled;
  }

  lemma ShutFields(s: State, a: SupervisorStep)
    requires SupervisorEnabled(s, a) && OneJvm(s) && WarmUpOk(s) && FieldsOk(s)
    requires a.ShutKill? || a.ShutDone?
    ensures var s' := SupervisorApply(s, a); OneJvm(s') && WarmUpOk(s') && FieldsOk(s')
  {
    hide Trailing;
  }

  lemma TrailingMore(starts: seq<bool>)
    ensures Trailing(starts + [false]) == Trailing(starts) + 1 && Trailing(starts + [true]) == 0
  {
    assert (starts + [false])[..|starts|] == starts;
  }

  lemma SupervisorFields(s: State, a: SupervisorStep)
    requires SupervisorEnabled(s, a) && OneJvm(s) && WarmUpOk(s) && FieldsOk(s)
    requires forall p: nat :: p < |s.procs| ==> J.Inv(s.procs[p])
    ensures var s' := SupervisorApply(s, a); OneJvm(s') && WarmUpOk(s') && FieldsOk(s')
  {
    if a.Greet? { assert J.Inv(s.procs[s.sup.proc]); }
    hide OneJvm, WarmUpOk, FieldsOk, SupervisorApply, J.Inv;
    if a.Greet? { GreetFields(s); }
    else if a.Launch? || a.Spawn? || a.Start? { LaunchFields(s, a); }
    else if a.WarmReply? { WarmFields(s, a); }
    else if a.WarmTimeout? || a.Drop? || a.StartOver? { DropFields(s, a); }
    else if a.NoteFailure? || a.Publish? { CountFields(s, a); }
    else if a.ShutKill? || a.ShutDone? { ShutFields(s, a); }
    else { ServeFields(s, a); }
  }

  lemma SupervisorKeeps(s: State, a: SupervisorStep)
    requires Inv(s) && SupervisorEnabled(s, a)
    ensures Inv(SupervisorApply(s, a))
  {
    var s' := SupervisorApply(s, a);
    SupervisorShape(s, a);
    hide SupervisorApply, SupervisorMove, SupervisorEnabled, CallOk, OwnedOk, InFlightOk, OneJvm, WarmUpOk, FieldsOk, J.Inv;
    SupervisorInvs(s, a);
    SupervisorFields(s, a);
    forall d: nat | d < |s'.calls| ensures CallOk(s', d) { SupervisorCalls(s, a, d); }
    forall p: nat, id: nat ensures OwnedOk(s', p, id) { SupervisorOwned(s, a, p, id); }
    forall d: nat ensures InFlightOk(s', d) {
      assert InFlightOk(s, d);
      SupervisorInFlight(s, a, d);
    }
  }

  lemma SupervisorInFlight(s: State, a: SupervisorStep, d: nat)
    requires SupervisorEnabled(s, a) && InFlightOk(s, d)
    ensures InFlightOk(SupervisorApply(s, a), d)
  {
    SupervisorShape(s, a);
    hide SupervisorApply, SupervisorMove, SupervisorEnabled;
  }

  // ----- the JVMs, Close, the clock and new calls

  /** A JVM moves on its own, or is killed: nothing is registered and nothing is received. */
  lemma ProcKeeps(s: State, p: nat, j: J.Step)
    requires Inv(s) && p < |s.procs| && OnItsOwn(j) && J.Enabled(s.procs[p], j)
    ensures Inv(PutProc(s, p, j))
  {
    var s' := PutProc(s, p, j);
    ProcFields(s, p, j);
    ProcEvolves(s.procs[p], j);
    hide OwnedOk, InFlightOk, CallOk, OneJvm, WarmUpOk, FieldsOk, J.Apply, J.Inv;
    J.StepKeeps(s.procs[p], j);
    forall d: nat | d < |s'.calls| ensures CallOk(s', d) { ProcCall(s, p, j, d); }
    forall q: nat, id: nat ensures OwnedOk(s', q, id) { ProcOwned(s, p, j, q, id); }
    forall d: nat ensures InFlightOk(s', d) {
      assert InFlightOk(s, d);
      ProcInFlight(s, p, j, d);
    }
  }

  lemma ProcCall(s: State, p: nat, j: J.Step, d: nat)
    requires p < |s.procs| && OnItsOwn(j) && J.Enabled(s.procs[p], j) && CallOk(s, d)
    ensures CallOk(PutProc(s, p, j), d)
  {
    ProcEvolves(s.procs[p], j);
    hide J.Apply;
    CallStays(s, PutProc(s, p, j), d);
  }

  lemma ProcOwned(s: State, p: nat, j: J.Step, q: nat, id: nat)
    requires p < |s.procs| && OnItsOwn(j) && J.Enabled(s.procs[p], j) && OwnedOk(s, q, id)
    ensures OwnedOk(PutProc(s, p, j), q, id)
  {
    ProcEvolves(s.procs[p], j);
    assert |J.Apply(s.procs[p], j).requests| == |s.procs[p].requests|;
    hide J.Apply;
  }

  lemma ProcFields(s: State, p: nat, j: J.Step)
    requires OneJvm(s) && WarmUpOk(s) && FieldsOk(s) && p < |s.procs| && OnItsOwn(j) && J.Enabled(s.procs[p], j)
    ensures OneJvm(PutProc(s, p, j)) && WarmUpOk(PutProc(s, p, j)) && FieldsOk(PutProc(s, p, j))
  {
    ProcEvolves(s.procs[p], j);
    hide J.Apply, J.Enabled, Trailing, WarmUpOk;
    ProcWarmUp(s, p, j);
  }

  lemma OwnStep(p: J.Process, j: J.Step)
    requires OnItsOwn(j) && J.Enabled(p, j)
    ensures var p' := J.Apply(p, j);
      |p'.requests| == |p.requests| && (p.dead ==> p'.dead) && (p.requests != [] ==> p'.requests[0].owner == p.requests[0].owner)
    ensures forall id: nat :: J.HasRequest(p, id) ==> SameGot(p, J.Apply(p, j), id)
  {}

  lemma ProcWarmUp(s: State, p: nat, j: J.Step)
    requires WarmUpOk(s) && p < |s.procs| && OnItsOwn(j) && J.Enabled(s.procs[p], j)
    ensures WarmUpOk(PutProc(s, p, j))
  {
    OwnStep(s.procs[p], j);
    if WarmUpOver(s.procs[p]) { WarmUpStaysOver(s.procs[p], j); }
    assert J.HasRequest(s.procs[p], 1) ==> SameGot(s.procs[p], J.Apply(s.procs[p], j), 1);
    hide J.Apply, J.Enabled, WarmUpOver;
  }

  lemma ProcInFlight(s: State, p: nat, j: J.Step, d: nat)
    requires p < |s.procs| && J.Enabled(s.procs[p], j) && InFlightOk(s, d)
    ensures InFlightOk(PutProc(s, p, j), d)
  {
    hide J.Apply, J.Enabled;
  }

  lemma PassKeeps(s: State, d: nat)
    requires Inv(s)
    ensures Inv(s.(now := s.now + d))
  {
    var s' := s.(now := s.now + d);
    forall c: nat | c < |s'.calls| ensures CallOk(s', c) { CallStays(s, s', c); }
    forall c: nat ensures InFlightOk(s', c) { assert InFlightOk(s, c); }
    forall p: nat, id: nat ensures OwnedOk(s', p, id) { assert OwnedOk(s, p, id); }
  }

  lemma ArriveKeeps(s: State, x: Call)
    requires Inv(s) && x == Call(x.deadline, Live, Queued, J.None, Unset, false, J.None, 0, 0)
    ensures Inv(s.(calls := s.calls + [x]))
  {
    var s' := s.(calls := s.calls + [x]);
    SumAppend(s.calls, x, Slot);
    forall c: nat | c < |s'.calls| ensures CallOk(s', c) {
      if c < |s.calls| { CallStays(s, s', c); }
    }
    forall c: nat ensures InFlightOk(s', c) { assert InFlightOk(s, c); }
    forall p: nat, id: nat ensures OwnedOk(s', p, id) { assert OwnedOk(s, p, id); }
  }

  lemma KillOneKeeps(s: State, p: Option<nat>)
    requires Inv(s)
    ensures Inv(KillOne(s, p)) && (p.Some? && p.value < |s.procs| ==> KillOne(s, p).procs[p.value].dead)
  {
    hide Inv;
    if p.Some? && p.value < |s.procs| { ProcKeeps(s, p.value, J.Kill); }
  }

  lemma CloseKeeps(s: State)
    requires Inv(s)
    ensures Inv(DoClose(s))
  {
    var t := KillOne(KillOne(s, s.current), s.starting);
    KillOneKeeps(s, s.current);
    KillOneKeeps(KillOne(s, s.current), s.starting);
    if !s.closed {
      assert DoClose(s) == t.(closed := true);
      assert s.current.Some? ==> s.starting.None?;
      hide J.Apply, J.Inv, DoClose, KillOne;
      ClosedKeeps(t);
    }
  }

  lemma ClosedKeeps(s: State)
    requires Inv(s)
    requires s.current.Some? && s.current.value < |s.procs| ==> s.procs[s.current.value].dead
    requires s.starting.Some? && s.starting.value < |s.procs| ==> s.procs[s.starting.value].dead
    ensures Inv(s.(closed := true))
  {
    var s' := s.(closed := true);
    forall c: nat | c < |s'.calls| ensures CallOk(s', c) { CallStays(s, s', c); }
    forall c: nat ensures InFlightOk(s', c) { assert InFlightOk(s, c); }
    forall p: nat, id: nat ensures OwnedOk(s', p, id) { assert OwnedOk(s, p, id); }
  }

  lemma StepKeeps(s: State, step: Step)
    requires Inv(s) && Enabled(s, step)
    ensures Inv(Apply(s, step))
  {
    hide Inv, CallEnabled, CallApply, SupervisorEnabled, SupervisorApply, PutProc, DoClose;
    match step
    case Arrive(deadline) => ArriveKeeps(s, Call(deadline, Live, Queued, J.None, Unset, false, J.None, 0, 0));
    case Act(c, a) => ActKeeps(s, c, a);
    case Supervise(a) => SupervisorKeeps(s, a);
    case Jvm(p, j) => ProcKeeps(s, p, j);
    case Close => CloseKeeps(s);
    case Pass(d) => PassKeeps(s, d);
  }

  lemma {:induction false} ExecKeeps(s: State, steps: seq<Step>)
    requires Inv(s) && Executable(s, steps)
    ensures Inv(Exec(s, steps))
    decreases |steps|
  {
    hide Inv, Enabled, Apply;
    if steps != [] {
      StepKeeps(s, steps[0]);
      ExecKeeps(Apply(s, steps[0]), steps[1..]);
    }
  }

  lemma {:induction false} RunKeeps(cfg: Config, now: int, steps: seq<Step>)
    requires Executable(Init(cfg, now), steps)
    ensures Inv(Exec(Init(cfg, now), steps)) && Exec(Init(cfg, now), steps).cfg == cfg
  {
    InitInv(cfg, now);
    ExecKeeps(Init(cfg, now), steps);
    ConfigStays(Init(cfg, now), steps);
  }

  lemma {:induction false} ConfigStays(s: State, steps: seq<Step>)
    requires Executable(s, steps)
    ensures Exec(s, steps).cfg == s.cfg
    decreases |steps|
  {
    if steps != [] {
      ConfigStaysOnce(s, steps[0]);
      ConfigStays(Apply(s, steps[0]), steps[1..]);
    }
  }

  lemma ConfigStaysOnce(s: State, step: Step)
    requires Enabled(s, step)
    ensures Apply(s, step).cfg == s.cfg
  {
    match step
    case Act(c, a) => ActShape(s, c, a);
    case Supervise(a) => SupervisorShape(s, a);
    case _ =>
  }
}

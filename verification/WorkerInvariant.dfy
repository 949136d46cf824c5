/** The inductive invariant of the worker: slots, calls, requests and their owners, the supervisor. */
module WorkerInvariant {
  import opened Sums
  import opened WorkerModel
  import J = JvmProcess

  // ----- how a JVM and the worker may change around a call

  ghost predicate Evolves(a: J.Process, b: J.Process) {
    && (a.dead ==> b.dead)
    && (a.reader.Done? ==> b.reader.Done?)
    && |a.requests| <= |b.requests|
    && forall id: nat :: J.HasRequest(a, id) ==> a.requests[id - 1].owner == b.requests[id - 1].owner
  }

  predicate SameGot(a: J.Process, b: J.Process, id: nat) {
    J.HasRequest(a, id) && J.HasRequest(b, id) && a.requests[id - 1].got == b.requests[id - 1].got
  }

  /** The JVM the supervisor looks after. */
  function Own(sup: Supervisor): Option<nat> {
    if sup.Serving? || IsStarting(sup) then J.Some(sup.proc) else J.None
  }

  /** The JVM is not, or not to be, handed to callers. */
  predicate IsStarting(sup: Supervisor) {
    sup.Launched? || sup.Greeting? || sup.Warming? || sup.Dropping? || sup.Dropped? || sup.Publishing? || sup.Shutting? || sup.Shut?
  }

  predicate Published(s: State, p: nat) {
    p < |s.procs| && !(IsStarting(s.sup) && s.sup.proc == p)
  }

  ghost predicate Onward(s: State, s': State) {
    && s'.cfg == s.cfg && s.now <= s'.now && s.changed <= s'.changed
    && (s.changed == s'.changed ==> s'.current == s.current && s'.failErr == s.failErr)
    && |s.procs| <= |s'.procs|
    && (forall p: nat :: p < |s.procs| ==> Evolves(s.procs[p], s'.procs[p]))
    && (forall p: nat :: Published(s, p) ==> Published(s', p))
  }

  // ----- one call

  /** The record on its own: what it has sent, answered and taken fits its phase. */
  predicate PhaseOk(x: Call) {
    && (Outstanding(x.phase) || x.phase.Settled? || x.phase.Untracking? ==> x.sent.Some?)
    && (x.sent.Some? ==> Outstanding(x.phase) || x.phase.Settled? || x.phase.Untracking? || x.phase.Leaving? || x.phase.Gone?)
    && (x.handedOff ==> x.sent.Some? && x.answer == J.Some(TimedOut) && !x.phase.Tracking? && !x.phase.Racing?)
    && (x.answer.Some? <==> x.handedOff || x.phase.Untracking? || x.phase.Leaving? || x.phase.Gone?)
    && x.taken <= 1 && x.taken == x.released + Slot(x) && (x.phase.Queued? ==> x.taken == 0)
  }

  /** The budget runs from the send; its tick is taken on the way to poison. */
  predicate BudgetOk(s: State, x: Call) {
    && (x.sent.None? || x.phase.Tracking? ==> x.budget.Unset?)
    && (x.phase.Waiting? || x.phase.Racing? ==> x.budget.Armed? || x.budget.Ticked?)
    && (x.phase.Poisoning? || x.phase.Condemning? || x.phase.Burying? ==> x.budget.Taken? && x.budget.byFinish == x.handedOff)
    && (x.sent.Some? && (x.budget.Armed? || x.budget.Ticked? || x.budget.Taken?) ==> x.budget.at >= x.sent.value.at + s.cfg.runBudget)
    && (x.budget.Ticked? || x.budget.Taken? ==> x.budget.at <= s.now)
  }

  predicate Got(s: State, x: Call, got: seq<J.Result>) {
    IsSent(s, x) && s.procs[x.sent.value.proc].requests[x.sent.value.id - 1].got == got
  }

  predicate SentOk(s: State, c: nat, x: Call) {
    x.sent.Some? ==>
      && IsSent(s, x) && Published(s, x.sent.value.proc) && x.sent.value.at <= s.now
      && s.procs[x.sent.value.proc].requests[x.sent.value.id - 1].owner == J.Some(c)
      && (Outstanding(x.phase) ==> Got(s, x, []))
      && (x.phase.Settled? ==> Got(s, x, [x.phase.r]))
  }

  predicate AnswerOk(s: State, x: Call) {
    && (x.answer.Some? && x.answer.value.Output? ==> Got(s, x, [x.answer.value.r]) && !x.answer.value.r.Restarted?)
    && (x.answer == J.Some(WasRestarted) ==> Got(s, x, [J.Restarted]))
  }

  /** What await read is still so, or a broadcast has closed the channel it read. */
  predicate AwaitOk(s: State, x: Call) {
    && (x.phase.Looked? || x.phase.Blocked? ==>
          && x.phase.ch <= s.changed
          && (x.phase.ch == s.changed ==> x.phase.seen == s.current && !s.failErr)
          && (x.phase.seen.Some? ==> Published(s, x.phase.seen.value))
          && (x.phase.Blocked? && x.phase.seen.Some? ==> s.procs[x.phase.seen.value].dead))
    && (x.phase.Chosen? || x.phase.Sending? ==> Published(s, x.phase.proc))
  }

  ghost predicate CallOk(s: State, c: nat) {
    c < |s.calls| &&
    var x := s.calls[c];
    PhaseOk(x) && BudgetOk(s, x) && SentOk(s, c, x) && AnswerOk(s, x) && AwaitOk(s, x)
  }

  // ----- requests

  /** A call's request that has not been received on a JVM that is not done is still that call's, and its only one. */
  ghost predicate OwnedOk(s: State, p: nat, id: nat) {
    p < |s.procs| && J.HasRequest(s.procs[p], id) ==>
    var q := s.procs[p].requests[id - 1];
    q.owner.Some? ==>
      && q.owner.value < |s.calls|
      && var x := s.calls[q.owner.value];
        && x.sent.Some? && x.sent.value.proc == p && x.sent.value.id == id
        && (q.got == [] && !s.procs[p].reader.Done? ==> Outstanding(x.phase))
  }

  // ----- the supervisor

  function Trailing(starts: seq<bool>): nat {
    if starts == [] || starts[|starts| - 1] then 0 else Trailing(starts[..|starts| - 1]) + 1
  }

  ghost predicate WarmUpOver(p: J.Process) {
    forall id: nat :: J.HasRequest(p, id) && p.requests[id - 1].owner.None? ==> p.requests[id - 1].got != []
  }

  /** At most one JVM is not done, the last one, and it is the supervisor's. */
  ghost predicate OneJvm(s: State) {
    && (Own(s.sup).Some? ==> Own(s.sup).value + 1 == |s.procs|)
    && forall p: nat :: p < |s.procs| && !s.procs[p].reader.Done? ==> Own(s.sup) == J.Some(p)
  }

  ghost predicate WarmUpOk(s: State) {
    Own(s.sup).Some? && Own(s.sup).value < |s.procs| ==>
      var p := s.procs[Own(s.sup).value];
      && (s.sup.Launched? || s.sup.Greeting? ==> p.requests == [])
      && (s.sup.Warming? ==> s.sup.id == 1 && |p.requests| == 1 && p.requests[0].owner.None? && p.requests[0].got == [])
      && (s.sup.Publishing? || s.sup.Serving? ==> WarmUpOver(p))
      && (s.closed && (s.current.Some? || s.starting.Some?) ==> p.dead)
      && (s.sup.Dropped? || s.sup.Shut? ==> p.dead)
  }

  ghost predicate FieldsOk(s: State) {
    && s.current == (if s.sup.Serving? then J.Some(s.sup.proc) else J.None)
    && s.starting == (if s.sup.Greeting? || s.sup.Warming? || s.sup.Dropping? || s.sup.Dropped? || s.sup.Publishing?
                      then J.Some(s.sup.proc) else J.None)
    && (s.sup.Shutting? || s.sup.Shut? ==> s.closed)
    && s.ready <= 1 && (s.sup.Serving? ==> s.ready == 1)
    && s.failed == (if s.failErr then 1 else 0)
    && s.done == (if s.sup.Returned? then 1 else 0)
    && (s.failErr ==> s.sup.Returned?) && (s.sup.Returned? ==> s.failErr || s.closed)
    && s.failures == Trailing(s.starts)
    && (s.failErr <==> s.failures > |s.cfg.backoff|)
    && s.failures <= |s.cfg.backoff| + 1
  }

  ghost predicate InFlightOk(s: State, c: nat) {
    c in s.inFlight <==> c < |s.calls| && s.calls[c].sent.Some? && s.calls[c].phase != Tracking
                          && !s.calls[c].phase.Leaving? && !s.calls[c].phase.Gone?
  }

  ghost predicate Inv(s: State) {
    && (forall p: nat :: p < |s.procs| ==> J.Inv(s.procs[p]))
    && s.sem == Sum(s.calls, Slot) && s.sem <= s.cfg.threads
    && (forall c: nat :: c < |s.calls| ==> CallOk(s, c))
    && (forall p: nat, id: nat :: OwnedOk(s, p, id))
    && OneJvm(s) && WarmUpOk(s) && FieldsOk(s)
    && (forall c: nat :: InFlightOk(s, c))
  }

  lemma InitInv(cfg: Config, now: int)
    ensures Inv(Init(cfg, now))
  {}

  // ----- what stays

  lemma ProcEvolves(p: J.Process, j: J.Step)
    requires J.Enabled(p, j)
    ensures Evolves(p, J.Apply(p, j))
    ensures forall id: nat :: J.HasRequest(p, id) && j != J.Receive(id) ==> SameGot(p, J.Apply(p, j), id)
  {}

  /** A call that does not move keeps its part while the rest of the worker moves on. */
  lemma CallStays(s: State, s': State, c: nat)
    requires c < |s.calls| && CallOk(s, c) && Onward(s, s')
    requires c < |s'.calls| && s'.calls[c] == s.calls[c]
    requires var x := s.calls[c];
      x.sent.Some? ==> IsSent(s', x) && SameGot(s.procs[x.sent.value.proc], s'.procs[x.sent.value.proc], x.sent.value.id)
    ensures CallOk(s', c)
  {
    var x := s.calls[c];
    if x.sent.Some? {
      assert Evolves(s.procs[x.sent.value.proc], s'.procs[x.sent.value.proc]);
    }
    if x.phase.Blocked? && x.phase.seen.Some? {
      assert Evolves(s.procs[x.phase.seen.value], s'.procs[x.phase.seen.value]);
    }
  }
}

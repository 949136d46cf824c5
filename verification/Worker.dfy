/**
 `Worker` of internal/javacworker/worker.go in its own form: the fields its mutex guards and the
 sections that hold it. Each method carries the machine of WorkerModel one step on. A channel
 that is only ever closed is a Signal; closing one twice would panic.
 */
module Worker {
  import opened WorkerModel
  import opened WorkerInvariant
  import J = JvmProcess

  class Signal {
    var closed: bool

    constructor ()
      ensures !closed
    {
      closed := false;
    }

    method Close()
      requires !closed
      modifies this
      ensures closed
    {
      closed := true;
    }
  }

  class Worker {
    const backoff: nat       // len(Backoff)
    var current: J.Jvm?
    var starting: J.Jvm?
    var changed: Signal
    var ready: Signal
    var failed: Signal
    var failErr: bool
    var closed: bool
    var nextReq: nat
    var inFlight: map<nat, int>
    ghost var jvms: seq<J.Jvm>          // every JVM ever started
    ghost var changes: seq<Signal>      // every `changed` so far
    ghost var reqOf: map<nat, nat>      // the request number of each call in flight

    ghost predicate Names(j: J.Jvm?, p: Option<nat>)
      reads this
    {
      if p.None? then j == null else p.value < |jvms| && j == jvms[p.value]
    }

    ghost predicate Signals(s: State)
      reads this, changes, ready, failed
    {
      && |changes| == s.changed + 1 && changed == changes[s.changed]
      && (forall i, j :: 0 <= i < j < |changes| ==> changes[i] != changes[j])
      && (forall i :: 0 <= i < |changes| ==> changes[i] != ready && changes[i] != failed)
      && ready != failed
      && (forall i :: 0 <= i < |changes| ==> (changes[i].closed <==> i < s.changed))
      && (ready.closed <==> s.ready > 0) && (failed.closed <==> s.failed > 0)
    }

    ghost predicate Tracks(s: State)
      reads this
    {
      Numbered(reqOf, inFlight, nextReq, s.inFlight)
    }

    ghost predicate Fields(s: State)
      reads this, changes, ready, failed
    {
      && backoff == |s.cfg.backoff| && failErr == s.failErr && closed == s.closed
      && |jvms| == |s.procs| && (forall i, j :: 0 <= i < j < |jvms| ==> jvms[i] != jvms[j])
      && Names(current, s.current) && Names(starting, s.starting) && Signals(s)
    }

    /** The object is in state s of the machine. */
    ghost predicate In(s: State)
      reads this, changes, ready, failed
    {
      Fields(s) && Tracks(s)
    }

    constructor (ghost cfg: Config, backoff: nat, ghost now: int)
      requires backoff == |cfg.backoff|
      ensures In(Init(cfg, now)) && fresh(changes) && fresh(ready) && fresh(failed)
    {
      this.backoff := backoff;
      current, starting := null, null;
      var c := new Signal();
      var r := new Signal();
      var f := new Signal();
      changed, ready, failed := c, r, f;
      failErr, closed, nextReq, inFlight := false, false, 0, map[];
      jvms, changes, reqOf := [], [c], map[];
    }

    // ----- calls

    /** The locked read of await: an error ends the call, else it has the JVM and the channel that goes with it. */
    method Look(ghost s: State, ghost c: nat) returns (failure: Option<Answer>, p: J.Jvm?, ch: Signal)
      requires In(s) && Enabled(s, Act(c, CallStep.Look)) && !s.calls[c].handedOff
      ensures var x := Apply(s, Act(c, CallStep.Look)).calls[c];
        && x.answer == (if failure.Some? then failure else s.calls[c].answer)
        && (failure.None? <==> x.phase.Looked?)
        && (x.phase.Looked? ==> Names(p, x.phase.seen) && x.phase.ch < |changes| && ch == changes[x.phase.ch] && !ch.closed)
    {
      p, ch := current, changed;
      failure := if closed then J.Some(IsClosed) else if failErr then J.Some(HasFailed) else J.None;
    }

    method Track(now: int, ghost s: State, ghost c: nat) returns (id: nat)
      requires In(s) && c < |s.calls| && s.calls[c].phase.Tracking? && c !in s.inFlight && now == s.now
      modifies this`nextReq, this`inFlight, this`reqOf
      ensures In(DoTrack(s, c)) && c in reqOf && id == reqOf[c]
    {
      hide Numbered;
      id := nextReq + 1;
      NumberedMore(reqOf, inFlight, nextReq, s.inFlight, c, now);
      nextReq, inFlight, reqOf := id, inFlight[id := now], reqOf[c := id];
      assert Fields(s);
      hide Fields;
      FieldsOnly(s, DoTrack(s, c));
    }

    method Untrack(id: nat, ghost s: State, ghost c: nat)
      requires In(s) && c < |s.calls| && s.calls[c].phase.Untracking? && c in reqOf && id == reqOf[c]
      modifies this`inFlight, this`reqOf
      ensures In(DoUntrack(s, c))
    {
      hide Numbered;
      NumberedLess(reqOf, inFlight, nextReq, s.inFlight, c);
      inFlight, reqOf := inFlight - {id}, reqOf - {c};
      assert Fields(s) && Tracks(DoUntrack(s, c));
      hide Fields, Tracks;
      FieldsOnly(s, DoUntrack(s, c));
    }

    lemma FieldsOnly(s: State, s': State)
      requires Fields(s)
      requires s' == s.(calls := s'.calls, inFlight := s'.inFlight, sup := s'.sup, failures := s'.failures, starts := s'.starts)
      ensures Fields(s')
    {}

    lemma InOnly(s: State, s': State)
      requires In(s) && s' == s.(sup := s'.sup, failures := s'.failures, starts := s'.starts)
      ensures In(s')
    {
      hide Numbered;
    }

    /** The greatest age among the recorded send times, at least zero. */
    method LongestInFlight(now: int, ghost s: State) returns (longest: int)
      requires In(s)
      ensures longest >= 0 && forall c :: c in s.inFlight ==> now - s.inFlight[c] <= longest
      ensures longest > 0 ==> exists c :: c in s.inFlight && now - s.inFlight[c] == longest
    {
      longest := 0;
      var left := inFlight.Keys;
      while left != {}
        invariant left <= inFlight.Keys && longest >= 0
        invariant forall id :: id in inFlight && id !in left ==> now - inFlight[id] <= longest
        invariant longest > 0 ==> exists id :: id in inFlight && now - inFlight[id] == longest
        decreases left
      {
        var id :| id in left;
        left := left - {id};
        if now - inFlight[id] > longest { longest := now - inFlight[id]; }
      }
      if longest > 0 {
        ghost var id :| id in inFlight && now - inFlight[id] == longest;
        assert id in reqOf.Values;
        ghost var c :| c in reqOf && reqOf[c] == id;
        assert c in s.inFlight;
      }
    }

    // ----- the supervisor

    /** broadcastLocked: closes changed and puts a new channel in its place. */
    method BroadcastLocked(ghost s: State)
      requires In(s)
      modifies this`changed, this`changes, changed
      ensures In(Broadcast(s)) && fresh(changed) && changes == old(changes) + [changed]
    {
      hide Numbered;
      changed.Close();
      changed := new Signal();
      changes := changes + [changed];
    }

    /** Enters a newly started JVM, unless the worker was closed meanwhile. */
    method Start(p: J.Jvm, ghost s: State) returns (ok: bool)
      requires In(s) && Enabled(s, Supervise(SupervisorStep.Start)) && s.sup.proc < |jvms| && p == jvms[s.sup.proc]
      modifies this`starting
      ensures In(Apply(s, Supervise(SupervisorStep.Start)))
      ensures ok <==> Apply(s, Supervise(SupervisorStep.Start)).sup.Greeting?
    {
      hide Numbered;
      ok := !closed;
      if ok { starting := p; }
    }

    /** The JVM is warmed up: it serves from here, unless the worker was closed meanwhile. */
    method Publish(p: J.Jvm, ghost s: State) returns (ok: bool)
      requires In(s) && s.sup.Publishing? && s.sup.proc < |jvms| && p == jvms[s.sup.proc]
      modifies this`current, this`starting, this`changed, this`changes, changed, ready
      ensures In(DoPublish(s, s.sup.proc))
      ensures ok <==> DoPublish(s, s.sup.proc).sup.Serving?
      ensures ok ==> ready.closed
    {
      hide Numbered;
      starting := null;
      ok := !closed;
      if ok {
        current := p;
        if !ready.closed { ready.Close(); }
        ghost var t := s.(starting := J.None, current := J.Some(s.sup.proc), ready := if s.ready == 0 then 1 else s.ready);
        assert In(t);
        hide In, Fields, Tracks;
        BroadcastLocked(t);
        InOnly(Broadcast(t), DoPublish(s, s.sup.proc));
      }
    }

    /** The serving JVM is gone. */
    method Retire(ghost s: State) returns (stop: bool)
      requires In(s) && s.sup.Serving?
      modifies this`current, this`changed, this`changes, changed
      ensures In(DoRetire(s))
      ensures stop <==> DoRetire(s).sup.Returned?
    {
      hide Numbered;
      current := null;
      BroadcastLocked(s.(current := J.None));
      stop := closed;
    }

    /** The start has failed; the first lock section after its JVM's end. */
    method StartOver(ghost s: State) returns (stop: bool)
      requires In(s) && Enabled(s, Supervise(SupervisorStep.StartOver))
      modifies this`starting
      ensures In(Apply(s, Supervise(SupervisorStep.StartOver)))
      ensures stop <==> Apply(s, Supervise(SupervisorStep.StartOver)).sup.Returned?
    {
      hide Numbered;
      starting := null;
      stop := closed;
    }

    /** Counts a failed start; after the last one tolerated the worker has failed, and everybody is told. */
    method NoteFailure(failures: nat, ghost s: State) returns (n: nat, giveUp: bool)
      requires In(s) && FieldsOk(s) && s.sup.StartFailed? && failures == s.failures <= backoff
      modifies this`failErr, this`changed, this`changes, changed, failed
      ensures In(DoNoteFailure(s)) && n == DoNoteFailure(s).failures
      ensures giveUp <==> DoNoteFailure(s).failErr
      ensures !giveUp ==> 1 <= n <= backoff
    {
      hide Numbered;
      n := failures + 1;
      giveUp := n > backoff;
      if giveUp {
        failErr := true;
        failed.Close();
        BroadcastLocked(s.(failErr := true, failed := s.failed + 1));
      }
    }

    // ----- Close

    method KillIfAny(j: J.Jvm?, ghost s: State, ghost p: Option<nat>)
      requires |jvms| == |s.procs| && (forall i, k :: 0 <= i < k < |jvms| ==> jvms[i] != jvms[k]) && Names(j, p)
      requires forall i :: 0 <= i < |jvms| ==> jvms[i].In(s.procs[i]) && J.Inv(s.procs[i])
      modifies jvms
      ensures forall i :: 0 <= i < |jvms| ==> jvms[i].In(KillOne(s, p).procs[i]) && J.Inv(KillOne(s, p).procs[i])
      ensures j != null ==> j.dead
      ensures forall q :: q in jvms && old(q.dead) ==> q.dead
    {
      hide J.Inv;
      if j != null {
        var _ := j.Kill("closing", s.procs[p.value]);
        J.StepKeeps(s.procs[p.value], J.Step.Kill);
      }
    }

    method KillBoth(ghost s: State)
      requires |jvms| == |s.procs| && Names(current, s.current) && Names(starting, s.starting)
      requires forall i :: 0 <= i < |jvms| ==> jvms[i].In(s.procs[i]) && J.Inv(s.procs[i])
      requires forall i, k :: 0 <= i < k < |jvms| ==> jvms[i] != jvms[k]
      modifies jvms
      ensures |KillOne(KillOne(s, s.current), s.starting).procs| == |jvms|
      ensures forall i :: 0 <= i < |jvms| ==> jvms[i].In(KillOne(KillOne(s, s.current), s.starting).procs[i])
      ensures (current != null ==> current.dead) && (starting != null ==> starting.dead)
    {
      ghost var t := KillOne(s, s.current);
      assert |t.procs| == |s.procs| && |KillOne(t, s.starting).procs| == |s.procs|;
      hide KillOne, Names, J.Inv, J.Jvm.In;
      KillIfAny(current, s, s.current);
      KillIfAny(starting, t, s.starting);
    }

    /** Kills what runs or starts; false when the worker was closed already. Nothing is broadcast. */
    method Close(ghost s: State) returns (first: bool)
      requires In(s) && forall i :: 0 <= i < |jvms| ==> jvms[i].In(s.procs[i]) && J.Inv(s.procs[i])
      modifies this`closed, jvms
      ensures In(DoClose(s)) && first == !old(closed) && changed == old(changed)
      ensures forall i :: 0 <= i < |jvms| ==> jvms[i].In(DoClose(s).procs[i])
      ensures current != null && first ==> current.dead
      ensures starting != null && first ==> starting.dead
    {
      first := !closed;
      if first {
        closed := true;
        CloseShape(s);
        assert In(DoClose(s));
        hide In, J.Jvm.In, J.Inv, KillOne, DoClose;
        KillBoth(s.(closed := true));
      }
    }
  }

  /** reqOf numbers the calls in flight, and inFlight has their times under those numbers. */
  ghost predicate Numbered(reqOf: map<nat, nat>, inFlight: map<nat, int>, nextReq: nat, flights: map<nat, int>) {
    && reqOf.Keys == flights.Keys && reqOf.Values == inFlight.Keys
    && (forall c :: c in reqOf ==> reqOf[c] <= nextReq && reqOf[c] in inFlight && inFlight[reqOf[c]] == flights[c])
    && (forall c, d :: c in reqOf && d in reqOf && c != d ==> reqOf[c] != reqOf[d])
  }

  lemma NumberedMore(reqOf: map<nat, nat>, inFlight: map<nat, int>, nextReq: nat, flights: map<nat, int>, c: nat, now: int)
    requires Numbered(reqOf, inFlight, nextReq, flights) && c !in flights
    ensures Numbered(reqOf[c := nextReq + 1], inFlight[nextReq + 1 := now], nextReq + 1, flights[c := now])
  {
    assert nextReq + 1 !in reqOf.Values;
    Renumbered(reqOf, c, nextReq + 1);
  }

  lemma NumberedLess(reqOf: map<nat, nat>, inFlight: map<nat, int>, nextReq: nat, flights: map<nat, int>, c: nat)
    requires Numbered(reqOf, inFlight, nextReq, flights) && c in reqOf
    ensures Numbered(reqOf - {c}, inFlight - {reqOf[c]}, nextReq, flights - {c})
  {
    Unnumbered(reqOf, c);
  }

  lemma CloseShape(s: State)
    ensures var s' := DoClose(s); s' == s.(closed := true, procs := s'.procs) && |s'.procs| == |s.procs|
    ensures var t := s.(closed := true); !s.closed ==> DoClose(s) == KillOne(KillOne(t, t.current), t.starting)
  {}

  lemma Renumbered(m: map<nat, nat>, c: nat, id: nat)
    requires c !in m
    ensures m[c := id].Values == m.Values + {id}
  {
    forall v | v in m.Values + {id} ensures v in m[c := id].Values {
      if v == id {
        assert m[c := id][c] == id;
      } else {
        var d :| d in m && m[d] == v;
        assert m[c := id][d] == v;
      }
    }
  }

  lemma Unnumbered(m: map<nat, nat>, c: nat)
    requires c in m && forall d, e :: d in m && e in m && d != e ==> m[d] != m[e]
    ensures (m - {c}).Values == m.Values - {m[c]}
  {
    forall v | v in m.Values - {m[c]} ensures v in (m - {c}).Values {
      var d :| d in m && m[d] == v;
      assert (m - {c})[d] == v;
    }
  }
}

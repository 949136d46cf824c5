/**
 The compiler rebuilds of internal/javacworker/java/JavacWorker.java: each pool thread has its
 own compiler, and the REBUILDING flag lets one thread at a time replace its compiler and serve
 the first, cold request with the new one. A step is the code between two accesses to the flag.
 The heap's crossings of its threshold are an arbitrary input.
 */
module CompilerRebuild {
  import opened Sums

  /** A `Compiler`; cold from its rebuild until its first request is over. */
  datatype Compiler = Compiler(uses: nat, cold: bool, crossings: nat)

  datatype Phase =
    | Idle
    | Wanting     // the test asked for a rebuild; next the compare-and-set
    | Building    // won the flag, constructing the new compiler
    | Closing     // new compiler installed, closing the old one
    | Counting    // about to count the use
    | Serving     // in analyze, until warmed

  datatype Thread = Thread(phase: Phase, compiler: Compiler)

  datatype State = State(rebuilding: bool, threads: seq<Thread>, maxUses: nat, minUses: nat)

  datatype Step =
    | Begin(t: nat, crossings: nat)       // a request takes the thread's compiler and tests it
    | CompareAndSet(t: nat)
    | Built(t: nat, crossings: nat)
    | BuildFails(t: nat)                  // the constructor throws: the flag is released
    | Closed(t: nat)
    | CloseFails(t: nat)                  // an Error while closing the old compiler ends the request
    | Count(t: nat)
    | Warmed(t: nat)                      // the request is over, however analyze ended

  predicate WantsRebuild(c: Compiler, maxUses: nat, minUses: nat, crossings: nat) {
    c.uses >= maxUses || (c.uses >= minUses && crossings > c.crossings)
  }

  predicate Enabled(s: State, step: Step) {
    step.t < |s.threads| &&
    var p := s.threads[step.t].phase;
    match step
    case Begin(_, _) => p.Idle?
    case CompareAndSet(_) => p.Wanting?
    case Built(_, _) => p.Building?
    case BuildFails(_) => p.Building?
    case Closed(_) => p.Closing?
    case CloseFails(_) => p.Closing?
    case Count(_) => p.Counting?
    case Warmed(_) => p.Serving?
  }

  function Put(s: State, t: nat, th: Thread): State
    requires t < |s.threads|
  {
    s.(threads := s.threads[t := th])
  }

  function Apply(s: State, step: Step): State
    requires Enabled(s, step)
  {
    var t, th := step.t, s.threads[step.t];
    match step
    case Begin(_, crossings) =>
      Put(s, t, th.(phase := if WantsRebuild(th.compiler, s.maxUses, s.minUses, crossings) then Wanting else Counting))
    case CompareAndSet(_) =>
      if s.rebuilding then Put(s, t, th.(phase := Counting))
      else Put(s, t, th.(phase := Building)).(rebuilding := true)
    case Built(_, crossings) => Put(s, t, Thread(Closing, Compiler(0, true, crossings)))
    case BuildFails(_) => Put(s, t, th.(phase := Idle)).(rebuilding := false)
    case Closed(_) => Put(s, t, th.(phase := Counting))
    case CloseFails(_) => Put(s, t, th.(phase := Idle))
    case Count(_) => Put(s, t, th.(phase := Serving, compiler := th.compiler.(uses := th.compiler.uses + 1)))
    case Warmed(_) =>
      if th.compiler.cold then Put(s, t, Thread(Idle, th.compiler.(cold := false))).(rebuilding := false)
      else Put(s, t, th.(phase := Idle))
  }

  predicate Executable(s: State, steps: seq<Step>)
    decreases |steps|
  {
    steps == [] || (Enabled(s, steps[0]) && Executable(Apply(s, steps[0]), steps[1..]))
  }

  function Exec(s: State, steps: seq<Step>): State
    requires Executable(s, steps)
    decreases |steps|
  {
    if steps == [] then s else Exec(Apply(s, steps[0]), steps[1..])
  }

  function Init(threads: nat, maxUses: nat, minUses: nat): State {
    State(false, seq(threads, _ => Thread(Idle, Compiler(0, false, 0))), maxUses, minUses)
  }

  /** Between winning the flag and the end of the first request with the new compiler. */
  predicate Rebuilder(th: Thread) { th.phase.Building? || th.compiler.cold }

  const Rebuilders: Thread -> int := (th: Thread) => if Rebuilder(th) then 1 else 0

  /** The flag is up exactly while one thread rebuilds. */
  ghost predicate Inv(s: State) {
    && Sum(s.threads, Rebuilders) == (if s.rebuilding then 1 else 0)
    && forall th :: th in s.threads ==> th.phase.Building? ==> !th.compiler.cold
  }

  lemma OthersKeep(s: State, t: nat, th: Thread)
    requires t < |s.threads|
    ensures forall x :: x in s.threads[t := th] ==> x in s.threads || x == th
  {}

  lemma StepKeeps(s: State, step: Step)
    requires Inv(s) && Enabled(s, step)
    ensures Inv(Apply(s, step))
  {
    var t := step.t;
    var th := Apply(s, step).threads[t];
    SumUpdate(s.threads, t, th, Rebuilders);
    OthersKeep(s, t, th);
    SumAtLeast(s.threads, t, Rebuilders);
    assert s.threads[t] in s.threads;
  }

  lemma {:induction false} ExecKeeps(s: State, steps: seq<Step>)
    requires Inv(s) && Executable(s, steps)
    ensures Inv(Exec(s, steps))
    decreases |steps|
  {
    hide Inv, Enabled, Apply;
    if steps != [] {
      StepKeeps(s, steps[0]);
      ExecKeeps(Apply(s, steps[0]), steps[1..]);
    }
  }

  lemma InitInv(threads: nat, maxUses: nat, minUses: nat)
    ensures Inv(Init(threads, maxUses, minUses))
  {
    SumZero(Init(threads, maxUses, minUses).threads, Rebuilders);
  }

  /** Rebuilds exclude one another: in every run at most one thread builds or has a cold compiler, and then the flag is up. */
  lemma RebuildsAreExclusive(threads: nat, maxUses: nat, minUses: nat, steps: seq<Step>, t: nat, u: nat)
    requires Executable(Init(threads, maxUses, minUses), steps)
    requires var s := Exec(Init(threads, maxUses, minUses), steps);
      t < |s.threads| && u < |s.threads| && Rebuilder(s.threads[t]) && Rebuilder(s.threads[u])
    ensures t == u && Exec(Init(threads, maxUses, minUses), steps).rebuilding
  {
    InitInv(threads, maxUses, minUses);
    ExecKeeps(Init(threads, maxUses, minUses), steps);
    var s := Exec(Init(threads, maxUses, minUses), steps);
    SumAtLeast(s.threads, t, Rebuilders);
    if t < u { SumAtLeastTwo(s.threads, t, u, Rebuilders); }
    if u < t { SumAtLeastTwo(s.threads, u, t, Rebuilders); }
  }

  /** How many of the holder's own steps are left, at most, until it lowers the flag. */
  function StepsLeft(p: Phase): nat {
    match p
    case Serving => 1
    case Counting => 2
    case Wanting => 3
    case Closing => 3
    case Building => 4
    case Idle => 4
  }

  function NextOf(t: nat, p: Phase): Step {
    match p
    case Idle => Begin(t, 0)
    case Wanting => CompareAndSet(t)
    case Building => Built(t, 0)
    case Closing => Closed(t)
    case Counting => Count(t)
    case Serving => Warmed(t)
  }

  lemma HolderGetsOn(s: State, t: nat)
    requires s.rebuilding && t < |s.threads| && Rebuilder(s.threads[t])
    ensures Enabled(s, NextOf(t, s.threads[t].phase))
    ensures var r := Apply(s, NextOf(t, s.threads[t].phase));
      r.rebuilding ==>
        (|r.threads| == |s.threads| && Rebuilder(r.threads[t]) && StepsLeft(r.threads[t].phase) < StepsLeft(s.threads[t].phase))
  {}

  lemma {:induction false} HolderReleases(s: State, t: nat) returns (steps: seq<Step>)
    requires s.rebuilding && t < |s.threads| && Rebuilder(s.threads[t])
    ensures |steps| <= StepsLeft(s.threads[t].phase) && forall k :: 0 <= k < |steps| ==> steps[k].t == t
    ensures Executable(s, steps) && !Exec(s, steps).rebuilding
    decreases StepsLeft(s.threads[t].phase)
  {
    HolderGetsOn(s, t);
    var step := NextOf(t, s.threads[t].phase);
    var r := Apply(s, step);
    var rest: seq<Step> := [];
    if r.rebuilding { rest := HolderReleases(r, t); }
    steps := [step] + rest;
    assert steps[1..] == rest;
  }

  /** Thread t alone holds the flag, and these few steps of its own lower it. */
  ghost predicate Releases(s: State, t: nat, more: seq<Step>) {
    && t < |s.threads| && (forall u: nat :: u < |s.threads| ==> (Rebuilder(s.threads[u]) <==> u == t))
    && |more| <= 4 && (forall k :: 0 <= k < |more| ==> more[k].t == t)
    && Executable(s, more) && !Exec(s, more).rebuilding
  }

  /**
   The flag is never lost: whenever a run leaves it up, exactly one thread holds it, and at most
   four steps of that thread alone, its next request included, lower it again.
   */
  lemma FlagIsReleased(threads: nat, maxUses: nat, minUses: nat, steps: seq<Step>)
    requires Executable(Init(threads, maxUses, minUses), steps)
    requires Exec(Init(threads, maxUses, minUses), steps).rebuilding
    ensures exists t, more :: Releases(Exec(Init(threads, maxUses, minUses), steps), t, more)
  {
    InitInv(threads, maxUses, minUses);
    ExecKeeps(Init(threads, maxUses, minUses), steps);
    var s := Exec(Init(threads, maxUses, minUses), steps);
    var t := SumIsOne(s.threads, Rebuilders);
    forall u: nat | u < |s.threads| && u != t ensures !Rebuilder(s.threads[u]) {
      assert Rebuilders(s.threads[u]) == 0;
    }
    var more := HolderReleases(s, t);
    assert Releases(s, t, more);
  }

  // ----- how many rebuilds

  lemma {:induction false} ProductGrows(a: nat, b: nat, m: nat)
    ensures a < b ==> a * m + m <= b * m
    decreases b
  {
    if a + 1 < b {
      ProductGrows(a, b - 1, m);
      assert b * m == (b - 1) * m + m;
    } else if a + 1 == b {
      assert b * m == a * m + m;
    }
  }

  lemma QuotientIs(n: nat, m: nat, q: nat, r: nat)
    requires m >= 1 && n == q * m + r && r < m
    ensures n / m == q
  {
    ProductGrows(n / m, q, m);
    ProductGrows(q, n / m, m);
    assert (n / m) * m + n % m == n;
  }

  function Rebuilds(steps: seq<Step>): nat {
    if steps == [] then 0 else (if steps[0].Built? then 1 else 0) + Rebuilds(steps[1..])
  }

  function Requests(steps: seq<Step>): nat {
    if steps == [] then 0 else (if steps[0].Warmed? then 1 else 0) + Requests(steps[1..])
  }

  /** The heap crosses no threshold and no constructor or close throws. */
  predicate Uneventful(step: Step) {
    match step
    case Begin(_, crossings) => crossings == 0
    case Built(_, crossings) => crossings == 0
    case BuildFails(_) => false
    case CloseFails(_) => false
    case _ => true
  }

  /** One thread after b rebuilds and r finished requests. */
  predicate Paced(s: State, b: nat, r: nat) {
    && |s.threads| == 1
    && var p, c := s.threads[0].phase, s.threads[0].compiler;
      && c.crossings == 0 && c.uses <= s.maxUses
      && b * s.maxUses + c.uses == r + (if p.Serving? then 1 else 0)
      && (p.Idle? ==> !c.cold && !s.rebuilding && (b == 0 || c.uses > 0))
      && (p.Wanting? ==> !c.cold && !s.rebuilding && c.uses == s.maxUses)
      && (p.Building? ==> !c.cold && s.rebuilding && c.uses == s.maxUses)
      && (p.Closing? ==> c.cold && s.rebuilding && c.uses == 0 && b > 0)
      && (p.Counting? ==> c.uses < s.maxUses && c.cold == s.rebuilding && (b == 0 || c.cold || c.uses > 0))
      && (p.Serving? ==> c.uses > 0 && c.cold == s.rebuilding)
  }

  lemma PacedOnce(s: State, step: Step, b: nat, r: nat)
    requires s.maxUses >= 1 && Paced(s, b, r) && Enabled(s, step) && Uneventful(step)
    ensures Paced(Apply(s, step), b + (if step.Built? then 1 else 0), r + if step.Warmed? then 1 else 0)
    ensures Apply(s, step).maxUses == s.maxUses
  {
    assert (b + 1) * s.maxUses == b * s.maxUses + s.maxUses;
  }

  lemma {:induction false} PacedStays(s: State, steps: seq<Step>, b: nat, r: nat)
    requires s.maxUses >= 1 && Paced(s, b, r) && Executable(s, steps) && forall k :: 0 <= k < |steps| ==> Uneventful(steps[k])
    ensures Paced(Exec(s, steps), b + Rebuilds(steps), r + Requests(steps)) && Exec(s, steps).maxUses == s.maxUses
    decreases |steps|
  {
    hide Paced, Uneventful, Enabled, Apply;
    if steps != [] {
      PacedOnce(s, steps[0], b, r);
      PacedStays(Apply(s, steps[0]), steps[1..],
        b + (if steps[0].Built? then 1 else 0), r + if steps[0].Warmed? then 1 else 0);
    }
  }

  /** In every uneventful run of one thread, k finished requests have caused floor((k - 1) / maxUses) rebuilds. */
  lemma OneThreadRebuilds(maxUses: nat, minUses: nat, steps: seq<Step>)
    requires maxUses >= 1 && Executable(Init(1, maxUses, minUses), steps)
    requires forall k :: 0 <= k < |steps| ==> Uneventful(steps[k])
    requires var s := Exec(Init(1, maxUses, minUses), steps); |s.threads| == 1 && s.threads[0].phase.Idle?
    ensures Rebuilds(steps) == if Requests(steps) == 0 then 0 else (Requests(steps) - 1) / maxUses
  {
    PacedStays(Init(1, maxUses, minUses), steps, 0, 0);
    var uses := Exec(Init(1, maxUses, minUses), steps).threads[0].compiler.uses;
    if Requests(steps) == 0 {
      ProductGrows(0, Rebuilds(steps), maxUses);
    } else if uses > 0 {
      QuotientIs(Requests(steps) - 1, maxUses, Rebuilds(steps), uses - 1);
    }
  }

  // ----- the thread's own code

  /** What `compiler` does when no other thread comes between its accesses to the flag. */
  function TakeSteps(s: State, t: nat, crossings: nat): seq<Step>
    requires t < |s.threads|
  {
    if !WantsRebuild(s.threads[t].compiler, s.maxUses, s.minUses, crossings) then [Begin(t, crossings), Count(t)]
    else if s.rebuilding then [Begin(t, crossings), CompareAndSet(t), Count(t)]
    else [Begin(t, crossings), CompareAndSet(t), Built(t, crossings), Closed(t), Count(t)]
  }

  lemma Prepend(s: State, step: Step, rest: seq<Step>)
    requires Enabled(s, step) && Executable(Apply(s, step), rest)
    ensures Executable(s, [step] + rest) && Exec(s, [step] + rest) == Exec(Apply(s, step), rest)
  {
    assert ([step] + rest)[1..] == rest;
  }

  /** The state compiler leaves: the thread serves, with one use more, on a new cold compiler if one was due and free. */
  function Taken(s: State, t: nat, crossings: nat): State
    requires t < |s.threads|
  {
    var c := s.threads[t].compiler;
    var due := WantsRebuild(c, s.maxUses, s.minUses, crossings) && !s.rebuilding;
    var taken := if due then Compiler(1, true, crossings) else c.(uses := c.uses + 1);
    Put(s, t, Thread(Serving, taken)).(rebuilding := s.rebuilding || due)
  }

  lemma TakeRuns(s: State, t: nat, crossings: nat)
    requires t < |s.threads| && s.threads[t].phase.Idle?
    ensures Executable(s, TakeSteps(s, t, crossings)) && Exec(s, TakeSteps(s, t, crossings)) == Taken(s, t, crossings)
  {
    var s1 := Apply(s, Begin(t, crossings));
    if !WantsRebuild(s.threads[t].compiler, s.maxUses, s.minUses, crossings) {
      Prepend(s1, Count(t), []);
      Prepend(s, Begin(t, crossings), [Count(t)] + []);
      assert TakeSteps(s, t, crossings) == [Begin(t, crossings)] + ([Count(t)] + []);
    } else {
      var s2 := Apply(s1, CompareAndSet(t));
      if s.rebuilding {
        Prepend(s2, Count(t), []);
        Prepend(s1, CompareAndSet(t), [Count(t)] + []);
        Prepend(s, Begin(t, crossings), [CompareAndSet(t)] + ([Count(t)] + []));
        assert TakeSteps(s, t, crossings) == [Begin(t, crossings)] + ([CompareAndSet(t)] + ([Count(t)] + []));
      } else {
        RebuildRuns(s2, t, crossings);
        Prepend(s1, CompareAndSet(t), [Built(t, crossings), Closed(t), Count(t)]);
        Prepend(s, Begin(t, crossings), [CompareAndSet(t)] + [Built(t, crossings), Closed(t), Count(t)]);
        assert TakeSteps(s, t, crossings)
          == [Begin(t, crossings)] + ([CompareAndSet(t)] + [Built(t, crossings), Closed(t), Count(t)]);
      }
    }
  }

  lemma RebuildRuns(s: State, t: nat, crossings: nat)
    requires t < |s.threads| && s.threads[t].phase.Building?
    ensures var steps := [Built(t, crossings), Closed(t), Count(t)];
      Executable(s, steps) && Exec(s, steps) == Put(s, t, Thread(Serving, Compiler(1, true, crossings)))
  {
    var s1 := Apply(s, Built(t, crossings));
    var s2 := Apply(s1, Closed(t));
    Prepend(s2, Count(t), []);
    Prepend(s1, Closed(t), [Count(t)] + []);
    Prepend(s, Built(t, crossings), [Closed(t)] + ([Count(t)] + []));
    assert [Built(t, crossings), Closed(t), Count(t)] == [Built(t, crossings)] + ([Closed(t)] + ([Count(t)] + []));
  }

  /** A pool thread's compiler and the flag, as `compiler` and `warmed` update them. */
  class Worker {
    const maxUses: nat
    const minUses: nat
    var compiler: Compiler
    var rebuilding: bool

    /** The object is thread t of state s. */
    ghost predicate In(s: State, t: nat)
      reads this
    {
      && maxUses == s.maxUses && minUses == s.minUses && rebuilding == s.rebuilding
      && t < |s.threads| && compiler == s.threads[t].compiler
    }

    constructor (ghost threads: nat, maxUses: nat, minUses: nat, ghost t: nat)
      requires t < threads
      ensures In(Init(threads, maxUses, minUses), t)
    {
      this.maxUses, this.minUses := maxUses, minUses;
      compiler, rebuilding := Compiler(0, false, 0), false;
    }

    /** The steps of `compiler`, made without a break: a due rebuild if the flag is free, and the count of the use. */
    method Take(crossings: nat, ghost s: State, ghost t: nat)
      requires In(s, t) && s.threads[t].phase.Idle?
      modifies this
      ensures Executable(s, TakeSteps(s, t, crossings)) && In(Exec(s, TakeSteps(s, t, crossings)), t)
    {
      TakeRuns(s, t, crossings);
      hide Exec, Executable, TakeSteps;
      if WantsRebuild(compiler, maxUses, minUses, crossings) && !rebuilding {
        rebuilding := true;
        compiler := Compiler(0, true, crossings);
      }
      compiler := compiler.(uses := compiler.uses + 1);
    }

    /** The end of a request: a compiler that was cold is so no more, and the flag is free. */
    method Warm(ghost s: State, ghost t: nat)
      requires In(s, t) && s.threads[t].phase.Serving?
      modifies this`compiler, this`rebuilding
      ensures In(Apply(s, Warmed(t)), t)
    {
      if compiler.cold {
        compiler := compiler.(cold := false);
        rebuilding := false;
      }
    }

    /** k requests one after the other on a thread alone in the pool: the run it makes of the machine, and its rebuilds. */
    method Serve(k: nat) returns (ghost run: seq<Step>)
      requires maxUses >= 1 && In(Init(1, maxUses, minUses), 0)
      modifies this
      ensures Executable(Init(1, maxUses, minUses), run) && In(Exec(Init(1, maxUses, minUses), run), 0)
      ensures Requests(run) == k && Rebuilds(run) == if k == 0 then 0 else (k - 1) / maxUses
    {
      ghost var s := Init(1, maxUses, minUses);
      run := [];
      for i := 0 to k
        invariant Executable(s, run) && In(Exec(s, run), 0)
        invariant |Exec(s, run).threads| == 1 && Exec(s, run).threads[0].phase.Idle?
        invariant Requests(run) == i && forall j :: 0 <= j < |run| ==> Uneventful(run[j])
      {
        ghost var now := Exec(s, run);
        ghost var more := TakeSteps(now, 0, 0) + [Warmed(0)];
        ServedOnce(now, 0);
        Take(0, now, 0);
        Warm(Exec(now, TakeSteps(now, 0, 0)), 0);
        ExecConcat(s, run, more);
        RequestsConcat(run, more);
        run := run + more;
      }
      OneThreadRebuilds(maxUses, minUses, run);
    }
  }

  /** A request from taking the compiler to warming it. */
  lemma ServedOnce(s: State, t: nat)
    requires t < |s.threads| && s.threads[t].phase.Idle?
    ensures var steps := TakeSteps(s, t, 0) + [Warmed(t)];
      && Executable(s, TakeSteps(s, t, 0)) && Executable(s, steps)
      && Exec(s, TakeSteps(s, t, 0)) == Taken(s, t, 0)
      && Exec(s, steps) == Apply(Exec(s, TakeSteps(s, t, 0)), Warmed(t))
      && Exec(s, steps).threads[t].phase.Idle?
      && Requests(steps) == 1 && forall j :: 0 <= j < |steps| ==> Uneventful(steps[j])
  {
    TakeRuns(s, t, 0);
    NoneWarmed(TakeSteps(s, t, 0));
    assert forall j :: 0 <= j < |TakeSteps(s, t, 0)| ==> Uneventful(TakeSteps(s, t, 0)[j]);
    hide TakeSteps;
    Prepend(Taken(s, t, 0), Warmed(t), []);
    assert [Warmed(t)] + [] == [Warmed(t)];
    ExecConcat(s, TakeSteps(s, t, 0), [Warmed(t)]);
    assert Requests([Warmed(t)]) == 1;
    RequestsConcat(TakeSteps(s, t, 0), [Warmed(t)]);
  }

  lemma {:induction false} NoneWarmed(steps: seq<Step>)
    requires forall k :: 0 <= k < |steps| ==> !steps[k].Warmed?
    ensures Requests(steps) == 0
    decreases |steps|
  {
    if steps != [] { NoneWarmed(steps[1..]); }
  }

  lemma {:induction false} ExecConcat(s: State, a: seq<Step>, b: seq<Step>)
    requires Executable(s, a) && Executable(Exec(s, a), b)
    ensures Executable(s, a + b) && Exec(s, a + b) == Exec(Exec(s, a), b)
    decreases |a|
  {
    hide Enabled, Apply;
    if a == [] {
      assert a + b == b;
    } else {
      assert (a + b)[0] == a[0] && (a + b)[1..] == a[1..] + b;
      ExecConcat(Apply(s, a[0]), a[1..], b);
    }
  }

  lemma {:induction false} RequestsConcat(a: seq<Step>, b: seq<Step>)
    ensures Requests(a + b) == Requests(a) + Requests(b)
    decreases |a|
  {
    if a == [] {
      assert a + b == b;
    } else {
      assert (a + b)[0] == a[0] && (a + b)[1..] == a[1..] + b;
      RequestsConcat(a[1..], b);
    }
  }
}

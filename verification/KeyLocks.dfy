/**
 The reference-counted key locks of internal/serve/cache.go. `lockKey` registers under the
 cache mutex, then waits for the key's own lock; its unlock releases that lock, then
 deregisters under the cache mutex. Other calls interleave between those four steps.
 */
module KeyLocks {
  import opened Sums

  type Key = string

  datatype Holder = Free | HeldBy(t: nat)

  /** A `keyLock`. Lock objects are never reused, so they are named by index. */
  datatype Lock = Lock(refs: int, holder: Holder)

  datatype Phase =
    | Idle
    | Waiting(key: Key, lock: nat)
    | Holding(key: Key, lock: nat)
    | Leaving(key: Key, lock: nat)   // unlocked, not yet deregistered

  datatype State = State(locks: seq<Lock>, byKey: map<Key, nat>, threads: seq<Phase>)

  datatype Step = Register(t: nat, key: Key) | Enter(t: nat) | Exit(t: nat) | Deregister(t: nat)

  predicate Enabled(s: State, step: Step) {
    step.t < |s.threads| &&
    var p := s.threads[step.t];
    match step
    case Register(_, _) => p.Idle?
    case Enter(_) => p.Waiting? && p.lock < |s.locks| && s.locks[p.lock].holder.Free?
    case Exit(_) => p.Holding? && p.lock < |s.locks|
    case Deregister(_) => p.Leaving? && p.lock < |s.locks|
  }

  function SetLock(s: State, i: nat, l: Lock): State
    requires i < |s.locks|
  {
    s.(locks := s.locks[i := l])
  }

  function Apply(s: State, step: Step): State
    requires Enabled(s, step)
  {
    var t, p := step.t, s.threads[step.t];
    match step
    case Register(_, key) =>
      var found := key in s.byKey && s.byKey[key] < |s.locks|;
      var i := if found then s.byKey[key] else |s.locks|;
      var locks := if found then s.locks else s.locks + [Lock(0, Free)];
      State(locks[i := locks[i].(refs := locks[i].refs + 1)], s.byKey[key := i], s.threads[t := Waiting(key, i)])
    case Enter(_) => SetLock(s, p.lock, s.locks[p.lock].(holder := HeldBy(t))).(threads := s.threads[t := Holding(p.key, p.lock)])
    case Exit(_) => SetLock(s, p.lock, s.locks[p.lock].(holder := Free)).(threads := s.threads[t := Leaving(p.key, p.lock)])
    case Deregister(_) =>
      var l := s.locks[p.lock].(refs := s.locks[p.lock].refs - 1);
      SetLock(s, p.lock, l).(byKey := if l.refs == 0 then s.byKey - {p.key} else s.byKey, threads := s.threads[t := Idle])
  }

  function Init(threads: nat): State { State([], map[], seq(threads, _ => Idle)) }

  predicate Executable(s: State, steps: seq<Step>)
    decreases |steps|
  {
    steps == [] || (Enabled(s, steps[0]) && Executable(Apply(s, steps[0]), steps[1..]))
  }

  function Exec(s: State, steps: seq<Step>): State
    requires Executable(s, steps)
    decreases |steps|
  {
    if steps == [] then s else Exec(Apply(s, steps[0]), steps[1..])
  }

  // ----- the invariant

  function Uses(i: nat): Phase -> int { (p: Phase) => if !p.Idle? && p.lock == i then 1 else 0 }

  /** The callers between registering for key and deregistering. */
  function Registered(key: Key): Phase -> int { (p: Phase) => if !p.Idle? && p.key == key then 1 else 0 }

  ghost predicate MapOk(s: State) {
    && (forall k :: k in s.byKey ==> s.byKey[k] < |s.locks| && s.locks[s.byKey[k]].refs > 0)
    && (forall j, k :: j in s.byKey && k in s.byKey && j != k ==> s.byKey[j] != s.byKey[k])
  }

  ghost predicate PhaseOk(s: State, p: Phase) {
    !p.Idle? ==> p.key in s.byKey && s.byKey[p.key] == p.lock
  }

  ghost predicate LockOk(s: State, i: nat)
    requires i < |s.locks|
  {
    && s.locks[i].refs == Sum(s.threads, Uses(i))
    && (forall t: nat :: t < |s.threads| ==>
          (s.locks[i].holder == HeldBy(t) <==> s.threads[t].Holding? && s.threads[t].lock == i))
  }

  ghost predicate Inv(s: State) {
    && MapOk(s)
    && (forall t: nat :: t < |s.threads| ==> PhaseOk(s, s.threads[t]))
    && (forall i: nat :: i < |s.locks| ==> LockOk(s, i))
  }

  lemma UsesCount(s: State, t: nat, i: nat)
    requires t < |s.threads| && !s.threads[t].Idle? && s.threads[t].lock == i
    ensures Sum(s.threads, Uses(i)) >= 1
  {
    SumAtLeast(s.threads, t, Uses(i));
  }

  lemma RegisterKeeps(s: State, step: Step)
    requires Inv(s) && step.Register? && Enabled(s, step)
    ensures Inv(Apply(s, step))
  {
    var t, s' := step.t, Apply(s, step);
    forall i: nat | i < |s'.locks| ensures LockOk(s', i) {
      SumUpdate(s.threads, t, s'.threads[t], Uses(i));
      if i == |s.locks| {
        forall p | p in s.threads ensures Uses(i)(p) == 0 {
          var u: nat :| u < |s.threads| && s.threads[u] == p;
          assert PhaseOk(s, s.threads[u]);
        }
        SumZero(s.threads, Uses(i));
      } else {
        assert LockOk(s, i);
      }
    }
    forall u: nat | u < |s'.threads| ensures PhaseOk(s', s'.threads[u]) { assert PhaseOk(s, s.threads[u]); }
  }

  lemma EnterExitKeeps(s: State, step: Step)
    requires Inv(s) && (step.Enter? || step.Exit?) && Enabled(s, step)
    ensures Inv(Apply(s, step))
  {
    var t, s' := step.t, Apply(s, step);
    forall i: nat | i < |s'.locks| ensures LockOk(s', i) {
      assert LockOk(s, i);
      SumUpdate(s.threads, t, s'.threads[t], Uses(i));
    }
    forall u: nat | u < |s'.threads| ensures PhaseOk(s', s'.threads[u]) { assert PhaseOk(s, s.threads[u]); }
  }

  lemma DeregisterKeeps(s: State, step: Step)
    requires Inv(s) && step.Deregister? && Enabled(s, step)
    ensures Inv(Apply(s, step))
  {
    var t, s' := step.t, Apply(s, step);
    var p := s.threads[t];
    assert PhaseOk(s, p) && LockOk(s, p.lock);
    SumUpdate(s.threads, t, Idle, Uses(p.lock));
    forall i: nat | i < |s'.locks| ensures LockOk(s', i) {
      assert LockOk(s, i);
      SumUpdate(s.threads, t, Idle, Uses(i));
    }
    forall q | q in s'.threads ensures Uses(p.lock)(q) >= 0 {}
    SumMono(s'.threads, (q: Phase) => 0, Uses(p.lock));
    SumZero(s'.threads, (q: Phase) => 0);
    forall u: nat | u < |s'.threads| ensures PhaseOk(s', s'.threads[u]) {
      assert PhaseOk(s, s.threads[u]);
      if u != t && !s'.threads[u].Idle? && s'.threads[u].key == p.key {
        UsesCount(s', u, p.lock);
      }
    }
  }

  lemma StepKeeps(s: State, step: Step)
    requires Inv(s) && Enabled(s, step)
    ensures Inv(Apply(s, step))
  {
    match step
    case Register(_, _) => RegisterKeeps(s, step);
    case Enter(_) => EnterExitKeeps(s, step);
    case Exit(_) => EnterExitKeeps(s, step);
    case Deregister(_) => DeregisterKeeps(s, step);
  }

  lemma {:induction false} ExecKeeps(s: State, steps: seq<Step>)
    requires Inv(s) && Executable(s, steps)
    ensures Inv(Exec(s, steps))
    decreases |steps|
  {
    hide Inv, Enabled, Apply;
    if steps != [] {
      StepKeeps(s, steps[0]);
      ExecKeeps(Apply(s, steps[0]), steps[1..]);
    }
  }

  lemma InitInv(threads: nat)
    ensures Inv(Init(threads))
  {}

  // ----- what holds in every run

  /** At most one caller holds a key. */
  lemma MutualExclusion(threads: nat, steps: seq<Step>, t: nat, u: nat)
    requires Executable(Init(threads), steps)
    requires var s := Exec(Init(threads), steps);
      && t < |s.threads| && u < |s.threads|
      && s.threads[t].Holding? && s.threads[u].Holding? && s.threads[t].key == s.threads[u].key
    ensures t == u
  {
    InitInv(threads);
    ExecKeeps(Init(threads), steps);
    var s := Exec(Init(threads), steps);
    assert PhaseOk(s, s.threads[t]) && PhaseOk(s, s.threads[u]) && LockOk(s, s.threads[t].lock);
  }

  lemma SameCount(s: State, key: Key)
    requires Inv(s) && key in s.byKey
    ensures Sum(s.threads, Uses(s.byKey[key])) == Sum(s.threads, Registered(key))
  {
    var i := s.byKey[key];
    forall p | p in s.threads ensures Uses(i)(p) == Registered(key)(p) {
      var u: nat :| u < |s.threads| && s.threads[u] == p;
      assert PhaseOk(s, s.threads[u]);
    }
    SumMono(s.threads, Uses(i), Registered(key));
    SumMono(s.threads, Registered(key), Uses(i));
  }

  /** The count of a key's lock is its registered callers, and the key is in the map exactly while there is one. */
  lemma CountIsRegistered(threads: nat, steps: seq<Step>, key: Key)
    requires Executable(Init(threads), steps)
    ensures var s := Exec(Init(threads), steps);
      && (key in s.byKey <==> Sum(s.threads, Registered(key)) > 0)
      && (key in s.byKey ==> s.byKey[key] < |s.locks| && s.locks[s.byKey[key]].refs == Sum(s.threads, Registered(key)))
  {
    InitInv(threads);
    ExecKeeps(Init(threads), steps);
    var s := Exec(Init(threads), steps);
    if key in s.byKey {
      assert LockOk(s, s.byKey[key]);
      SameCount(s, key);
    } else {
      forall p | p in s.threads ensures Registered(key)(p) == 0 {
        var u: nat :| u < |s.threads| && s.threads[u] == p;
        assert PhaseOk(s, s.threads[u]);
      }
      SumZero(s.threads, Registered(key));
    }
  }

  /** While a caller waits for, holds or leaves a key, the map keeps the lock object it registered with. */
  lemma {:induction false} LockStays(s: State, steps: seq<Step>, t: nat)
    requires Inv(s) && Executable(s, steps) && Deregister(t) !in steps
    requires t < |s.threads| && !s.threads[t].Idle?
    ensures var s' := Exec(s, steps); var p := s.threads[t];
      && t < |s'.threads| && !s'.threads[t].Idle? && s'.threads[t].key == p.key && s'.threads[t].lock == p.lock
      && p.key in s'.byKey && s'.byKey[p.key] == p.lock
    decreases |steps|
  {
    hide Inv, Enabled, Apply;
    if steps == [] {
      Looks(s, t);
    } else {
      StepKeeps(s, steps[0]);
      LockStaysOnce(s, steps[0], t);
      LockStays(Apply(s, steps[0]), steps[1..], t);
    }
  }

  lemma Looks(s: State, t: nat)
    requires Inv(s) && t < |s.threads| && !s.threads[t].Idle?
    ensures s.threads[t].key in s.byKey && s.byKey[s.threads[t].key] == s.threads[t].lock
  {
    assert PhaseOk(s, s.threads[t]);
  }

  lemma LockStaysOnce(s: State, step: Step, t: nat)
    requires Enabled(s, step) && step != Deregister(t) && t < |s.threads| && !s.threads[t].Idle?
    ensures var p, s' := s.threads[t], Apply(s, step);
      t < |s'.threads| && !s'.threads[t].Idle? && s'.threads[t].key == p.key && s'.threads[t].lock == p.lock
  {}

  // ----- the object

  /** A registration finds the key's lock or makes one, and counts on it. */
  lemma RegisterIs(s: State, t: nat, key: Key)
    requires t < |s.threads| && Enabled(s, Register(t, key)) && (key in s.byKey ==> s.byKey[key] < |s.locks|)
    ensures var s' := Apply(s, Register(t, key));
      && t < |s'.threads|
      && (key in s.byKey ==>
            && s'.threads[t] == Waiting(key, s.byKey[key]) && s'.byKey == s.byKey
            && s'.locks == s.locks[s.byKey[key] := s.locks[s.byKey[key]].(refs := s.locks[s.byKey[key]].refs + 1)])
      && (key !in s.byKey ==>
            && s'.threads[t] == Waiting(key, |s.locks|) && s'.byKey == s.byKey[key := |s.locks|]
            && s'.locks == s.locks + [Lock(1, Free)])
  {
    assert (s.locks + [Lock(0, Free)])[|s.locks| := Lock(1, Free)] == s.locks + [Lock(1, Free)];
  }

  class KeyLock {
    var refs: int

    constructor ()
      ensures refs == 0
    {
      refs := 0;
    }
  }

  /** The `keyLocks` map with its lock objects; the mutex inside a lock is the machine's `holder`. */
  class KeyLockTable {
    var keyLocks: map<Key, KeyLock>
    ghost var log: seq<KeyLock>

    ghost predicate In(s: State)
      reads this, log
    {
      && |s.locks| == |log|
      && (forall i, j :: 0 <= i < j < |log| ==> log[i] != log[j])
      && keyLocks.Keys == s.byKey.Keys
      && (forall k :: k in keyLocks ==> s.byKey[k] < |log| && keyLocks[k] == log[s.byKey[k]])
      && (forall i :: 0 <= i < |log| ==> log[i].refs == s.locks[i].refs)
    }

    constructor (ghost threads: nat)
      ensures In(Init(threads))
    {
      keyLocks, log := map[], [];
    }

    /** The first lock section of lockKey. */
    method Register(key: Key, ghost s: State, ghost t: nat) returns (l: KeyLock)
      requires In(s) && Enabled(s, Step.Register(t, key))
      modifies this, log
      ensures In(Apply(s, Step.Register(t, key)))
      ensures var p := Apply(s, Step.Register(t, key)).threads[t]; p.lock < |log| && l == log[p.lock]
    {
      RegisterIs(s, t, key);
      hide Apply, Enabled;
      if key in keyLocks {
        l := keyLocks[key];
      } else {
        l := new KeyLock();
        keyLocks := keyLocks[key := l];
        log := log + [l];
      }
      l.refs := l.refs + 1;
    }

    /** The last lock section of the unlock function. */
    method Deregister(key: Key, l: KeyLock, ghost s: State, ghost t: nat)
      requires In(s) && Enabled(s, Step.Deregister(t)) && key == s.threads[t].key && l == log[s.threads[t].lock]
      modifies this`keyLocks, log
      ensures In(Apply(s, Step.Deregister(t)))
    {
      l.refs := l.refs - 1;
      if l.refs == 0 {
        keyLocks := keyLocks - {key};
      }
    }
  }
}

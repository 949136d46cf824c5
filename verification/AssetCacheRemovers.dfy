/**
 Who removes a retired set. In every run the one thread that lists it is the one whose step
 retired it unread or gave up its last reading, and that thread's own steps delete it and return
 its bytes.
 */
module AssetCacheRemovers {
  import opened Sums
  import opened AssetCacheModel
  import opened AssetCacheInvariant
  import opened AssetCacheSteps
  import opened AssetCacheTheorems

  predicate Lists(s: State, u: nat, i: nat) {
    u < |s.threads| && exists v :: v in Gone(s.threads[u]) && v.id == i
  }

  /** Set i is current and nobody reads it. */
  ghost predicate CurrentUnread(s: State, i: nat) {
    i < |s.sets| && !s.sets[i].stale && s.sets[i].readers == 0
  }

  /** Thread u's step gives up the last reading of a set that is stale already. */
  ghost predicate LastReaderLeaves(s: State, step: Step, u: nat, i: nat) {
    && step == Release(u) && u < |s.threads| && s.threads[u] == Reading(i)
    && i < |s.sets| && s.sets[i].stale && s.sets[i].readers == 1
  }

  /** Thread u's upload replaces a current set nobody reads. */
  ghost predicate Replaces(s: State, step: Step, u: nat, i: nat) {
    && step.Install? && step.t == u && u < |s.threads| && s.threads[u].Extracting?
    && CurrentUnread(s, i) && s.sets[i].key == s.threads[u].up.key
  }

  /** Thread u's reserve chooses a current set nobody reads. */
  ghost predicate EvictsIt(s: State, step: Step, u: nat, i: nat) {
    && step.ReserveNext? && step.t == u && CurrentUnread(s, i)
    && u < |s.threads| && s.threads[u].Extracting? && s.threads[u].up.done < |s.threads[u].up.archive|
    && exists keys ::
         && Shortest(s, s.threads[u].up.archive[s.threads[u].up.done].declared, step.order, keys)
         && s.sets[i].key in keys
  }

  ghost predicate BecomesRemover(s: State, step: Step, u: nat, i: nat) {
    LastReaderLeaves(s, step, u, i) || Replaces(s, step, u, i) || EvictsIt(s, step, u, i)
  }

  // ----- one step

  lemma {:induction false} RetiredFrom(s: State, t: nat, keys: seq<Key>, i: nat)
    requires MapOk(s) && t < |s.threads| && s.threads[t].Evicting? && AllUnread(s, keys) && Lists(RetireAll(s, t, keys), t, i)
    ensures Lists(s, t, i) || exists k :: k in keys && k in s.current && s.current[k] == i
    decreases |keys|
  {
    if keys != [] {
      var k := keys[0];
      assert Unread(s, k);
      var s1 := RetireInto(s, t, k);
      RestUnread(s, t, keys);
      RetiredFrom(s1, t, keys[1..], i);
      if Lists(s1, t, i) {
        var v :| v in Gone(s1.threads[t]) && v.id == i;
        assert v in Gone(s.threads[t]) || v == Victim(s.current[k], s.sets[s.current[k]].size);
        assert k in keys;
      } else {
        var x :| x in keys[1..] && x in s1.current && s1.current[x] == i;
        assert x in keys && x in s.current && s.current[x] == i;
      }
    }
  }

  lemma ReserveLists(s: State, step: Step, i: nat)
    requires Inv(s) && step.ReserveNext? && Enabled(s, step) && Lists(Apply(s, step), step.t, i)
    ensures EvictsIt(s, step, step.t, i)
  {
    var t, up := step.t, s.threads[step.t].up;
    var n := up.archive[up.done].declared;
    ReserveCases(s, t, step.order);
    ReserveChoice(s, up.key, n, step.order);
    match Reserve(s, n, step.order)
    case Fits =>
    case Full =>
    case Evicts(keys) =>
      PrefixUnread(s, up.key, step.order, |keys|);
      ClaimedUnread(s, t, keys);
      RetiredFrom(Claimed(s, t), t, keys, i);
      var k :| k in keys && k in s.current && s.current[k] == i;
      assert Unread(s, k) && SetOk(s, i);
      assert Shortest(s, n, step.order, keys) && s.sets[i].key in keys;
  }

  lemma InstallLists(s: State, step: Step, i: nat)
    requires Inv(s) && step.Install? && Enabled(s, step) && Lists(Apply(s, step), step.t, i)
    ensures Replaces(s, step, step.t, i)
  {
    var key := s.threads[step.t].up.key;
    assert key in s.current ==> SetOk(s, s.current[key]);
  }

  lemma ReleaseLists(s: State, step: Step, i: nat)
    requires Inv(s) && step.Release? && Enabled(s, step) && Lists(Apply(s, step), step.t, i)
    ensures LastReaderLeaves(s, step, step.t, i)
  {}

  /** A set comes onto a thread's list only by that thread's own step, in one of three ways. */
  lemma ListedBy(s: State, step: Step, u: nat, i: nat)
    requires Inv(s) && Enabled(s, step) && Lists(Apply(s, step), u, i) && !Lists(s, u, i)
    ensures step.t == u && BecomesRemover(s, step, u, i)
  {
    StepKeepsThreads(s, step);
    if u != step.t { OthersStay(s, step, u); }
    hide BecomesRemover, LastReaderLeaves, Replaces, EvictsIt, Inv;
    match step
    case ReserveNext(_, _) => ReserveLists(s, step, i); IsRemover(s, step, u, i);
    case Install(_, _) => InstallLists(s, step, i); IsRemover(s, step, u, i);
    case Release(_) => ReleaseLists(s, step, i); IsRemover(s, step, u, i);
    case _ =>
  }

  lemma IsRemover(s: State, step: Step, u: nat, i: nat)
    requires LastReaderLeaves(s, step, u, i) || Replaces(s, step, u, i) || EvictsIt(s, step, u, i)
    ensures BecomesRemover(s, step, u, i)
  {}

  // ----- over a run

  lemma {:induction false} ExecLast(s: State, steps: seq<Step>)
    requires Executable(s, steps) && steps != []
    ensures var n := |steps| - 1;
      Executable(s, steps[..n]) && Enabled(Exec(s, steps[..n]), steps[n]) && Exec(s, steps) == Apply(Exec(s, steps[..n]), steps[n])
    decreases |steps|
  {
    hide Enabled, Apply;
    var n := |steps| - 1;
    if n > 0 {
      assert steps[..n][0] == steps[0] && steps[..n][1..] == steps[1..][..n - 1];
      ExecLast(Apply(s, steps[0]), steps[1..]);
    }
  }

  lemma {:induction false} ListedSince(max: nat, threads: nat, steps: seq<Step>, t: nat, i: nat) returns (k: nat)
    requires Executable(Init(max, threads), steps) && Lists(Exec(Init(max, threads), steps), t, i)
    ensures k < |steps| && Executable(Init(max, threads), steps[..k])
    ensures steps[k].t == t && BecomesRemover(Exec(Init(max, threads), steps[..k]), steps[k], t, i)
    decreases |steps|
  {
    hide Inv, Apply, Enabled, BecomesRemover;
    var n := |steps| - 1;
    assert !Lists(Init(max, threads), t, i);
    ExecLast(Init(max, threads), steps);
    var s := Exec(Init(max, threads), steps[..n]);
    InitInv(max, threads);
    ExecKeeps(Init(max, threads), steps[..n]);
    if Lists(s, t, i) {
      k := ListedSince(max, threads, steps[..n], t, i);
      assert steps[..n][..k] == steps[..k];
    } else {
      ListedBy(s, steps[n], t, i);
      k := n;
    }
  }

  /** The set is retired, unread and not yet deducted, and thread t alone lists it. */
  ghost predicate AwaitsOnly(s: State, t: nat, i: nat) {
    && i < |s.sets| && Doomed(s.sets[i])
    && t < |s.threads| && Owns(i)(s.threads[t]) == 1 && Lists(s, t, i)
    && forall u: nat :: u < |s.threads| && u != t ==> !Lists(s, u, i)
  }

  /**
   In every run a retired set nobody reads, until it is deducted, is listed by exactly one thread, once: the one whose
   step evicted it, replaced it or, as its last reader, released it.
   */
  lemma RemoverIsItsRetirer(max: nat, threads: nat, steps: seq<Step>, i: nat) returns (t: nat, k: nat)
    requires Executable(Init(max, threads), steps)
    requires var s := Exec(Init(max, threads), steps); i < |s.sets| && Doomed(s.sets[i])
    ensures AwaitsOnly(Exec(Init(max, threads), steps), t, i)
    ensures k < |steps| && Executable(Init(max, threads), steps[..k])
    ensures steps[k].t == t && BecomesRemover(Exec(Init(max, threads), steps[..k]), steps[k], t, i)
  {
    var s := Exec(Init(max, threads), steps);
    InitInv(max, threads);
    ExecKeeps(Init(max, threads), steps);
    t := OneRemover(s, i);
    OwnerCounts(s, t, i);
    k := ListedSince(max, threads, steps, t, i);
  }

  // ----- the removal

  /** A step by which thread t gets on with its removal. */
  predicate Removing(step: Step, t: nat) { step.t == t && (step.DeleteSome? || step.Deduct?) }

  /** How far down t's list the set is. */
  function Ahead(gone: seq<Victim>, i: nat): nat {
    if gone == [] || gone[0].id == i then 0 else 1 + Ahead(gone[1..], i)
  }

  /** The directory at the head of t's list goes, unless it is gone. */
  lemma DeletesFirst(s: State, t: nat) returns (steps: seq<Step>)
    requires Inv(s) && t < |s.threads| && Gone(s.threads[t]) != []
    ensures Executable(s, steps) && forall k :: 0 <= k < |steps| ==> Removing(steps[k], t)
    ensures var s' := Exec(s, steps); Inv(s') && s'.threads == s.threads && Enabled(s', Deduct(t))
  {
    HeadIsDoomed(s, t);
    hide Inv, SetOk, Sum;
    if s.sets[Gone(s.threads[t])[0].id].dir.Present? {
      CanDelete(s, t);
      steps := [DeleteSome(t, Absent)];
      StepKeeps(s, DeleteSome(t, Absent));
      OneStep(s, DeleteSome(t, Absent));
    } else {
      steps := [];
    }
  }

  lemma CanDelete(s: State, t: nat)
    requires t < |s.threads| && Gone(s.threads[t]) != [] && Gone(s.threads[t])[0].id < |s.sets|
    requires s.sets[Gone(s.threads[t])[0].id].dir.Present?
    ensures Enabled(s, DeleteSome(t, Absent))
    ensures var s' := Apply(s, DeleteSome(t, Absent)); s'.threads == s.threads && Enabled(s', Deduct(t))
  {
    BytesNonNegative(s.sets[Gone(s.threads[t])[0].id].dir.files);
  }

  lemma OneStep(s: State, step: Step)
    requires Enabled(s, step)
    ensures Executable(s, [step]) && Exec(s, [step]) == Apply(s, step)
  {
    hide Enabled, Apply;
    assert [step][1..] == [];
    assert Exec(Apply(s, step), []) == Apply(s, step);
  }

  lemma Deducted(s: State, t: nat)
    requires Enabled(s, Deduct(t))
    ensures var s', v := Apply(s, Deduct(t)), Gone(s.threads[t])[0];
      && t < |s'.threads| && Gone(s'.threads[t]) == Gone(s.threads[t])[1..] && v.id < |s'.sets| && s'.sets[v.id].deducted
  {}

  lemma DeductedIsGone(s: State, i: nat)
    requires Inv(s) && i < |s.sets| && s.sets[i].deducted
    ensures s.sets[i].dir.Absent?
  {
    assert SetOk(s, i);
  }

  /** Thread t deletes the first set of its list and returns its bytes. */
  lemma RemovesFirst(s: State, t: nat) returns (steps: seq<Step>)
    requires Inv(s) && t < |s.threads| && Gone(s.threads[t]) != []
    ensures Executable(s, steps) && forall k :: 0 <= k < |steps| ==> Removing(steps[k], t)
    ensures var s', v := Exec(s, steps), Gone(s.threads[t])[0];
      && Inv(s') && t < |s'.threads| && Gone(s'.threads[t]) == Gone(s.threads[t])[1..]
      && v.id < |s'.sets| && s'.sets[v.id].deducted && s'.sets[v.id].dir.Absent?
  {
    hide Inv, Enabled, Apply, Gone;
    var first := DeletesFirst(s, t);
    var s1 := Exec(s, first);
    StepKeeps(s1, Deduct(t));
    Deducted(s1, t);
    DeductedIsGone(Apply(s1, Deduct(t)), Gone(s.threads[t])[0].id);
    OneStep(s1, Deduct(t));
    ExecConcat(s, first, [Deduct(t)]);
    steps := first + [Deduct(t)];
  }

  lemma {:induction false} RemovesUpTo(s: State, t: nat, i: nat) returns (steps: seq<Step>)
    requires Inv(s) && Lists(s, t, i)
    ensures Executable(s, steps) && forall k :: 0 <= k < |steps| ==> Removing(steps[k], t)
    ensures i < |Exec(s, steps).sets| && Exec(s, steps).sets[i].deducted && Exec(s, steps).sets[i].dir.Absent?
    decreases Ahead(Gone(s.threads[t]), i)
  {
    hide Inv, Enabled, Apply;
    var gone := Gone(s.threads[t]);
    var first := RemovesFirst(s, t);
    if gone[0].id == i {
      steps := first;
    } else {
      var v :| v in gone && v.id == i;
      assert v in gone[1..];
      var rest := RemovesUpTo(Exec(s, first), t, i);
      ExecConcat(s, first, rest);
      steps := first + rest;
    }
  }

  lemma {:induction false} ExecConcat(s: State, a: seq<Step>, b: seq<Step>)
    requires Executable(s, a) && Executable(Exec(s, a), b)
    ensures Executable(s, a + b) && Exec(s, a + b) == Exec(Exec(s, a), b)
    decreases |a|
  {
    hide Enabled, Apply;
    if a == [] {
      assert a + b == b;
    } else {
      assert (a + b)[0] == a[0] && (a + b)[1..] == a[1..] + b;
      ExecConcat(Apply(s, a[0]), a[1..], b);
    }
  }

  /** These steps, all of them thread t's own removal, delete the set and return its bytes. */
  ghost predicate Removes(s: State, t: nat, i: nat, steps: seq<Step>) {
    && Executable(s, steps) && (forall k :: 0 <= k < |steps| ==> Removing(steps[k], t))
    && var s' := Exec(s, steps); i < |s'.sets| && s'.sets[i].deducted && s'.sets[i].dir.Absent?
  }

  /** Once a set is stale and unread, wherever the run stands, its one remover needs nobody else to delete and deduct it. */
  lemma StaleSetGoes(max: nat, threads: nat, run: seq<Step>, i: nat)
    requires Executable(Init(max, threads), run)
    requires var s := Exec(Init(max, threads), run); i < |s.sets| && Doomed(s.sets[i])
    ensures var s := Exec(Init(max, threads), run);
      exists t, steps :: AwaitsOnly(s, t, i) && Removes(s, t, i, steps)
  {
    var s := Exec(Init(max, threads), run);
    InitInv(max, threads);
    ExecKeeps(Init(max, threads), run);
    var t, k := RemoverIsItsRetirer(max, threads, run, i);
    hide Inv;
    var steps := RemovesUpTo(s, t, i);
    assert Removes(s, t, i, steps);
  }
}

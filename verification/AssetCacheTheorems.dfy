/** What holds in every run of the asset cache. */
module AssetCacheTheorems {
  import opened Sums
  import opened AssetCacheModel
  import opened AssetCacheInvariant
  import opened AssetCacheSteps

  lemma {:induction false} InitInv(max: nat, threads: nat)
    ensures Inv(Init(max, threads))
  {
    var s := Init(max, threads);
    forall p | p in s.threads ensures p == Idle {}
    SumZero(s.threads, Reserved);
    SumZero(s.threads, Due);
    SumZero(s.threads, Claim);
    SumZero(s.threads, Short);
  }

  lemma {:induction false} ExecKeeps(s: State, steps: seq<Step>)
    requires Inv(s) && Executable(s, steps)
    ensures Inv(Exec(s, steps))
    decreases |steps|
  {
    hide Inv, Enabled, Apply;
    if steps != [] {
      StepKeeps(s, steps[0]);
      ExecKeeps(Apply(s, steps[0]), steps[1..]);
    }
  }

  lemma {:induction false} ExecKeepsMax(s: State, steps: seq<Step>)
    requires Executable(s, steps)
    ensures Exec(s, steps).max == s.max && |Exec(s, steps).threads| == |s.threads|
    decreases |steps|
  {
    if steps != [] {
      ExecKeepsMax(Apply(s, steps[0]), steps[1..]);
    }
  }

  // ----- the budget

  const Settled: Phase -> int := (p: Phase) => Reserved(p) - Claim(p)
  const ShortPlusDue: Phase -> int := (p: Phase) => Short(p) + Due(p)
  const NegatedClaim: Phase -> int := (p: Phase) => -Claim(p)

  lemma StagedSettled(s: State, p: Phase)
    requires PhaseOk(s, p)
    ensures 0 <= Staged(p) <= Settled(p)
  {
    if p.Extracting? || p.Writing? || p.Evicting? {
      StagedWithinReserved(p.up);
    }
  }

  lemma {:induction false} SumNegated(threads: seq<Phase>)
    ensures Sum(threads, NegatedClaim) == -Sum(threads, Claim)
  {
    if threads != [] { SumNegated(threads[..|threads| - 1]); }
  }

  /** File bytes are at most the counter without the pending claims. */
  lemma FilesWithinSettled(s: State)
    requires Shape(s) && Ledger(s)
    ensures FileBytes(s) <= s.used - Sum(s.threads, Claim)
    ensures Sum(s.sets, Charged) <= s.used - Sum(s.threads, Claim)
  {
    forall a | a in s.sets ensures OnDisk(a) <= Charged(a) {
      var i: nat :| i < |s.sets| && s.sets[i] == a;
      assert SetOk(s, i);
    }
    SumMono(s.sets, OnDisk, Charged);
    forall p | p in s.threads ensures 0 <= Staged(p) <= Settled(p) {
      var t: nat :| t < |s.threads| && s.threads[t] == p;
      StagedSettled(s, p);
    }
    SumMono(s.threads, Staged, Settled);
    SumAdd(s.threads, Reserved, NegatedClaim, Settled);
    SumNegated(s.threads);
    SumMono(s.threads, (p: Phase) => 0, Staged);
    SumZero(s.threads, (p: Phase) => 0);
  }

  lemma CounterWithinTwice(s: State)
    requires Inv(s)
    ensures s.used <= 2 * s.max
  {
    FilesWithinSettled(s);
    forall p: Phase ensures Claim(p) <= ShortPlusDue(p) && 0 <= Due(p) { DueNonNegative(p); }
    SumMono(s.threads, Claim, ShortPlusDue);
    SumAdd(s.threads, Short, Due, ShortPlusDue);
    forall a | a in s.sets ensures Retiring(a) <= Charged(a) {
      var i: nat :| i < |s.sets| && s.sets[i] == a;
      assert SetOk(s, i);
      BytesNonNegative(a.files);
    }
    SumMono(s.sets, Retiring, Charged);
    SumMono(s.threads, (p: Phase) => 0, Short);
    SumZero(s.threads, (p: Phase) => 0);
  }

  /** In every interleaving the files fit the budget and the counter at most doubles it. */
  lemma FilesNeverExceedMax(max: nat, threads: nat, steps: seq<Step>)
    requires Executable(Init(max, threads), steps)
    ensures FileBytes(Exec(Init(max, threads), steps)) <= max
    ensures Exec(Init(max, threads), steps).used <= 2 * max
  {
    var s := Exec(Init(max, threads), steps);
    InitInv(max, threads);
    ExecKeeps(Init(max, threads), steps);
    ExecKeepsMax(Init(max, threads), steps);
    FilesWithinSettled(s);
    SumMono(s.threads, (p: Phase) => 0, Short);
    SumZero(s.threads, (p: Phase) => 0);
    CounterWithinTwice(s);
  }

  /** The part of a pending claim that victims still to be removed will pay for. */
  const OnCredit: Phase -> int := (p: Phase) => Claim(p) - Short(p)

  /** The counter exceeds the budget by no more than what pending claims wait for, and not at all when no reserve is removing. */
  lemma ExcessIsOnCredit(max: nat, threads: nat, steps: seq<Step>)
    requires Executable(Init(max, threads), steps)
    ensures var s := Exec(Init(max, threads), steps);
      && s.used <= max + Sum(s.threads, OnCredit)
      && (forall p :: p in s.threads ==> 0 <= OnCredit(p) <= Due(p))
      && ((forall p :: p in s.threads ==> !p.Evicting?) ==> s.used <= max)
  {
    var s := Exec(Init(max, threads), steps);
    InitInv(max, threads);
    ExecKeeps(Init(max, threads), steps);
    ExecKeepsMax(Init(max, threads), steps);
    forall p | p in s.threads ensures 0 <= OnCredit(p) <= Due(p) { DueNonNegative(p); }
    SumAdd(s.threads, OnCredit, Short, Claim);
    if forall p :: p in s.threads ==> !p.Evicting? { SumZero(s.threads, OnCredit); }
  }

  // ----- the ledger

  const CurrentSize: AssetSet -> int := (a: AssetSet) => if a.stale then 0 else a.size
  const RetiredSize: AssetSet -> int := (a: AssetSet) => if a.stale && !a.deducted then a.size else 0

  /** The counter is the current entries, the retired ones not yet deducted, and the uploads' reservations. */
  lemma CounterIsExact(max: nat, threads: nat, steps: seq<Step>)
    requires Executable(Init(max, threads), steps)
    ensures var s := Exec(Init(max, threads), steps);
      s.used == Sum(s.sets, CurrentSize) + Sum(s.sets, RetiredSize) + Sum(s.threads, Reserved)
  {
    var s := Exec(Init(max, threads), steps);
    InitInv(max, threads);
    ExecKeeps(Init(max, threads), steps);
    forall a | a in s.sets ensures Charged(a) == CurrentSize(a) + RetiredSize(a) {
      var i: nat :| i < |s.sets| && s.sets[i] == a;
      assert SetOk(s, i);
    }
    SumAdd(s.sets, CurrentSize, RetiredSize, Charged);
  }

  predicate Deducts(s: State, step: Step, i: nat) {
    step.Deduct? && step.t < |s.threads| && |Gone(s.threads[step.t])| > 0 && Gone(s.threads[step.t])[0].id == i
  }

  /** How many steps of the run return set i's bytes. */
  ghost function Deductions(s: State, steps: seq<Step>, i: nat): nat
    requires Executable(s, steps)
    decreases |steps|
  {
    if steps == [] then 0
    else (if Deducts(s, steps[0], i) then 1 else 0) + Deductions(Apply(s, steps[0]), steps[1..], i)
  }

  predicate WasDeducted(s: State, i: nat) { i < |s.sets| && s.sets[i].deducted }

  lemma RetireAllFrame(s: State, t: nat, keys: seq<Key>, i: nat)
    requires t < |s.threads| && i < |s.sets|
    ensures var a, b := s.sets[i], RetireAll(s, t, keys).sets[i]; b == a.(stale := b.stale)
    decreases |keys|
  {}

  /** No other step touches the flag. */
  lemma OnlyDeductDeducts(s: State, step: Step, i: nat)
    requires Enabled(s, step) && !step.Deduct?
    ensures WasDeducted(Apply(s, step), i) <==> WasDeducted(s, i)
  {
    if step.ReserveNext? && i < |s.sets| {
      var up := s.threads[step.t].up;
      match Reserve(s, up.archive[up.done].declared, step.order)
      case Evicts(keys) => RetireAllFrame(Claimed(s, step.t), step.t, keys, i);
      case _ =>
    }
  }

  lemma DeductStep(s: State, step: Step, i: nat)
    requires Inv(s) && Enabled(s, step)
    ensures WasDeducted(Apply(s, step), i) <==> WasDeducted(s, i) || Deducts(s, step, i)
    ensures !(WasDeducted(s, i) && Deducts(s, step, i))
  {
    if step.Deduct? {
      HeadIsDoomed(s, step.t);
    } else {
      OnlyDeductDeducts(s, step, i);
    }
  }

  lemma {:induction false} DeductionsFrom(s: State, steps: seq<Step>, i: nat)
    requires Inv(s) && Executable(s, steps)
    ensures Deductions(s, steps, i) + (if WasDeducted(s, i) then 1 else 0) == if WasDeducted(Exec(s, steps), i) then 1 else 0
    decreases |steps|
  {
    hide Inv, Enabled, Apply, WasDeducted, Deducts;
    if steps != [] {
      StepKeeps(s, steps[0]);
      DeductStep(s, steps[0], i);
      DeductionsFrom(Apply(s, steps[0]), steps[1..], i);
    }
  }

  /** Every set is deducted once at most, and its flag says whether it was. */
  lemma DeductedOnce(max: nat, threads: nat, steps: seq<Step>, i: nat)
    requires Executable(Init(max, threads), steps)
    ensures Deductions(Init(max, threads), steps, i) == if WasDeducted(Exec(Init(max, threads), steps), i) then 1 else 0
  {
    InitInv(max, threads);
    DeductionsFrom(Init(max, threads), steps, i);
  }

  /** Until it is deducted, a stale set nobody reads is on the list of exactly one thread, once. */
  lemma OneRemover(s: State, i: nat) returns (t: nat)
    requires Inv(s) && i < |s.sets| && s.sets[i].stale && s.sets[i].readers == 0 && !s.sets[i].deducted
    ensures t < |s.threads| && Owns(i)(s.threads[t]) == 1
    ensures forall u: nat :: u < |s.threads| && u != t ==> forall v :: v in Gone(s.threads[u]) ==> v.id != i
  {
    assert SetOk(s, i);
    forall p | p in s.threads ensures 0 <= Owns(i)(p) {
      var u: nat :| u < |s.threads| && s.threads[u] == p;
      OwnerCounts(s, u, i);
    }
    t := SumIsOne(s.threads, Owns(i));
    forall u: nat | u < |s.threads| && u != t ensures forall v :: v in Gone(s.threads[u]) ==> v.id != i {
      OwnerCounts(s, u, i);
    }
  }

  // ----- readers

  /** What a thread that acquired a set relies on. */
  ghost predicate Whole(s: State, t: nat, i: nat, a: AssetSet) {
    && t < |s.threads| && s.threads[t] == Reading(i)
    && i < |s.sets| && s.sets[i].dir == Present(a.files)
    && s.sets[i].files == a.files && s.sets[i].key == a.key && s.sets[i].fingerprint == a.fingerprint
  }

  predicate SameIdentity(a: AssetSet, b: AssetSet) {
    a.files == b.files && a.key == b.key && a.fingerprint == b.fingerprint && a.size == b.size
  }

  lemma StepKeepsIdentity(s: State, step: Step, i: nat)
    requires Enabled(s, step) && i < |s.sets|
    ensures i < |Apply(s, step).sets| && SameIdentity(s.sets[i], Apply(s, step).sets[i])
  {
    if step.ReserveNext? {
      var up := s.threads[step.t].up;
      match Reserve(s, up.archive[up.done].declared, step.order)
      case Evicts(keys) => RetireAllFrame(Claimed(s, step.t), step.t, keys, i);
      case _ =>
    }
  }

  lemma OthersStay(s: State, step: Step, t: nat)
    requires Enabled(s, step) && t < |s.threads| && t != step.t
    ensures t < |Apply(s, step).threads| && Apply(s, step).threads[t] == s.threads[t]
  {
    if step.ReserveNext? {
      var up := s.threads[step.t].up;
      match Reserve(s, up.archive[up.done].declared, step.order)
      case Evicts(keys) => RetireAllOthers(Claimed(s, step.t), step.t, keys, t);
      case _ =>
    }
  }

  lemma RetireAllOthers(s: State, t: nat, keys: seq<Key>, u: nat)
    requires t < |s.threads| && u < |s.threads| && u != t
    ensures RetireAll(s, t, keys).threads[u] == s.threads[u]
    decreases |keys|
  {}

  lemma ReadingIsWhole(s: State, t: nat)
    requires Inv(s) && t < |s.threads| && s.threads[t].Reading?
    ensures var i := s.threads[t].id; i < |s.sets| && Whole(s, t, i, s.sets[i])
  {
    assert PhaseOk(s, s.threads[t]);
    assert SetOk(s, s.threads[t].id);
    ReaderCounts(s, t, s.threads[t].id);
  }

  /** acquire hands out a set only under its own key and fingerprint, with its directory whole. */
  lemma AcquireIsWhole(s: State, step: Step)
    requires Inv(s) && step.Acquire? && Enabled(s, step) && Apply(s, step) != s
    ensures var s' := Apply(s, step);
      && s'.threads[step.t].Reading? && s'.threads[step.t].id < |s'.sets|
      && var a := s'.sets[s'.threads[step.t].id];
         a.key == step.key && a.fingerprint == step.fingerprint && a.dir == Present(a.files)
  {
    assert SetOk(s, s.current[step.key]);
  }

  /** From acquire until its own release, whatever the other threads do, the reader's set stays whole. */
  lemma {:induction false} ReaderKeepsItsSet(s: State, steps: seq<Step>, t: nat)
    requires Inv(s) && Executable(s, steps)
    requires t < |s.threads| && s.threads[t].Reading? && s.threads[t].id < |s.sets|
    requires Release(t) !in steps
    ensures Whole(Exec(s, steps), t, s.threads[t].id, s.sets[s.threads[t].id])
    decreases |steps|
  {
    hide Inv, Enabled, Apply;
    var i := s.threads[t].id;
    if steps == [] {
      ReadingIsWhole(s, t);
    } else {
      var s1 := Apply(s, steps[0]);
      ReaderMoves(s, steps[0], t);
      StepKeeps(s, steps[0]);
      StepKeepsIdentity(s, steps[0], i);
      ReaderKeepsItsSet(s1, steps[1..], t);
    }
  }

  lemma ReaderMoves(s: State, step: Step, t: nat)
    requires Enabled(s, step) && t < |s.threads| && s.threads[t].Reading? && step != Release(t)
    ensures t < |Apply(s, step).threads| && Apply(s, step).threads[t] == s.threads[t]
  {
    if step.t != t { OthersStay(s, step, t); }
  }

  // ----- what a set holds

  /** The set is the complete contents of one archive put under its key and fingerprint. */
  ghost predicate Uploaded(past: seq<Step>, key: Key, fingerprint: Fingerprint, archive: seq<Member>) {
    exists t: nat :: StartPut(t, key, fingerprint, archive) in past
  }

  ghost predicate SetUploaded(past: seq<Step>, a: AssetSet) {
    exists archive :: Uploaded(past, a.key, a.fingerprint, archive) && a.files == Contents(archive)
  }

  predicate HasUpload(p: Phase) { p.Extracting? || p.Writing? || p.Evicting? }

  ghost predicate History(past: seq<Step>, s: State) {
    && (forall p :: p in s.threads && HasUpload(p) ==> Uploaded(past, p.up.key, p.up.fingerprint, p.up.archive))
    && (forall a :: a in s.sets ==> SetUploaded(past, a))
  }

  lemma UploadFrom(s: State, step: Step)
    requires Enabled(s, step)
    ensures var p, p' := s.threads[step.t], Apply(s, step).threads[step.t];
      HasUpload(p') ==>
        || (HasUpload(p) && p'.up.key == p.up.key && p'.up.fingerprint == p.up.fingerprint && p'.up.archive == p.up.archive)
        || step == StartPut(step.t, p'.up.key, p'.up.fingerprint, p'.up.archive)
  {
    if step.ReserveNext? {
      var up := s.threads[step.t].up;
      match Reserve(s, up.archive[up.done].declared, step.order)
      case Evicts(keys) => RetireAllPhase(Claimed(s, step.t), step.t, keys);
      case _ =>
    }
  }

  lemma RetireAllPhase(s: State, t: nat, keys: seq<Key>)
    requires t < |s.threads| && s.threads[t].Evicting?
    ensures var p' := RetireAll(s, t, keys).threads[t]; p'.Evicting? && p'.up == s.threads[t].up
    decreases |keys|
  {}

  ghost predicate Fills(up: Upload, a: AssetSet) {
    a.key == up.key && a.fingerprint == up.fingerprint && a.files == Contents(up.archive)
  }

  /** At the end of the archive the staging directory holds all of it. */
  lemma InstallFills(s: State, t: nat, now: int, i: nat)
    requires t < |s.threads| && s.threads[t].Extracting? && PhaseOk(s, s.threads[t])
    requires s.threads[t].up.done == |s.threads[t].up.archive| && i == |s.sets| && i < |DoInstall(s, t, now).sets|
    ensures Fills(s.threads[t].up, DoInstall(s, t, now).sets[i])
  {
    var up := s.threads[t].up;
    assert up.archive[..up.done] == up.archive;
  }

  /** No step but an install adds a set, and none changes what a set holds. */
  lemma SetFrom(s: State, step: Step, i: nat)
    requires Enabled(s, step) && i < |Apply(s, step).sets| && PhaseOk(s, s.threads[step.t])
    ensures var a := Apply(s, step).sets[i];
      (i < |s.sets| && SameIdentity(s.sets[i], a)) || (step.Install? && Fills(s.threads[step.t].up, a))
  {
    if i < |s.sets| {
      StepKeepsIdentity(s, step, i);
    } else {
      OnlyInstallAdds(s, step);
      hide PhaseOk, Fills;
      InstallFills(s, step.t, step.now, i);
    }
  }

  lemma OnlyInstallAdds(s: State, step: Step)
    requires Enabled(s, step)
    ensures |Apply(s, step).sets| == |s.sets| + if step.Install? then 1 else 0
  {}

  lemma UploadedStays(past: seq<Step>, step: Step)
    ensures forall k, f, archive :: Uploaded(past, k, f, archive) ==> Uploaded(past + [step], k, f, archive)
    ensures forall t, k, f, archive :: step == StartPut(t, k, f, archive) ==> Uploaded(past + [step], k, f, archive)
    ensures forall a :: SetUploaded(past, a) ==> SetUploaded(past + [step], a)
  {
    forall k, f, archive | Uploaded(past, k, f, archive) ensures Uploaded(past + [step], k, f, archive) {
      var t: nat :| StartPut(t, k, f, archive) in past;
      assert StartPut(t, k, f, archive) in past + [step];
    }
    forall t, k, f, archive | step == StartPut(t, k, f, archive) ensures Uploaded(past + [step], k, f, archive) {
      assert StartPut(t, k, f, archive) in past + [step];
    }
  }

  lemma UploadKeepsHistory(past: seq<Step>, s: State, step: Step, t: nat)
    requires History(past, s) && Enabled(s, step) && t < |Apply(s, step).threads|
    ensures var p := Apply(s, step).threads[t];
      HasUpload(p) ==> Uploaded(past + [step], p.up.key, p.up.fingerprint, p.up.archive)
  {
    UploadedStays(past, step);
    StepKeepsThreads(s, step);
    hide Enabled, Uploaded;
    if t == step.t { UploadFrom(s, step); } else { OthersStay(s, step, t); }
    assert s.threads[t] in s.threads;
    hide Apply;
  }

  lemma StepKeepsHistory(past: seq<Step>, s: State, step: Step)
    requires Inv(s) && History(past, s) && Enabled(s, step)
    ensures History(past + [step], Apply(s, step))
  {
    var s' := Apply(s, step);
    StepKeepsThreads(s, step);
    assert PhaseOk(s, s.threads[step.t]);
    hide Inv, Apply, Enabled, Uploaded, PhaseOk, SetUploaded;
    forall p | p in s'.threads && HasUpload(p)
      ensures Uploaded(past + [step], p.up.key, p.up.fingerprint, p.up.archive)
    {
      var t: nat :| t < |s'.threads| && s'.threads[t] == p;
      UploadKeepsHistory(past, s, step, t);
    }
    forall a | a in s'.sets ensures SetUploaded(past + [step], a) {
      var i: nat :| i < |s'.sets| && s'.sets[i] == a;
      SetFrom(s, step, i);
      SetKeepsHistory(past, s, step, i, a);
    }
  }

  lemma SetKeepsHistory(past: seq<Step>, s: State, step: Step, i: nat, a: AssetSet)
    requires History(past, s) && Enabled(s, step)
    requires (i < |s.sets| && SameIdentity(s.sets[i], a)) || (step.Install? && Fills(s.threads[step.t].up, a))
    ensures SetUploaded(past + [step], a)
  {
    UploadedStays(past, step);
    InstallHasUpload(s, step);
    hide Enabled, Uploaded;
    if i < |s.sets| && SameIdentity(s.sets[i], a) {
      assert SetUploaded(past, s.sets[i]);
    } else {
      assert s.threads[step.t] in s.threads;
    }
  }

  lemma StepKeepsThreads(s: State, step: Step)
    requires Enabled(s, step)
    ensures step.t < |s.threads| && |Apply(s, step).threads| == |s.threads|
  {}

  lemma InstallHasUpload(s: State, step: Step)
    requires Enabled(s, step)
    ensures step.Install? ==> s.threads[step.t].Extracting?
  {}

  lemma {:induction false} ExecKeepsHistory(past: seq<Step>, s: State, steps: seq<Step>)
    requires Inv(s) && History(past, s) && Executable(s, steps)
    ensures History(past + steps, Exec(s, steps))
    decreases |steps|
  {
    hide Inv, Apply, Enabled, History;
    if steps == [] {
      assert past + steps == past;
    } else {
      StepKeeps(s, steps[0]);
      StepKeepsHistory(past, s, steps[0]);
      ExecKeepsHistory(past + [steps[0]], Apply(s, steps[0]), steps[1..]);
      assert past + [steps[0]] + steps[1..] == past + steps;
    }
  }

  /** Every set ever installed is the whole archive of one put of its key and fingerprint. */
  lemma SetsAreWholeUploads(max: nat, threads: nat, steps: seq<Step>)
    requires Executable(Init(max, threads), steps)
    ensures forall a :: a in Exec(Init(max, threads), steps).sets ==> SetUploaded(steps, a)
  {
    InitInv(max, threads);
    ExecKeepsHistory([], Init(max, threads), steps);
    assert [] + steps == steps;
  }

  /** What a reader sees: the directory holds, file for file, one archive uploaded under the set's key and fingerprint. */
  lemma ReaderSeesAnUpload(max: nat, threads: nat, steps: seq<Step>, t: nat)
    requires Executable(Init(max, threads), steps)
    requires var s := Exec(Init(max, threads), steps); t < |s.threads| && s.threads[t].Reading?
    ensures var s := Exec(Init(max, threads), steps); var i := s.threads[t].id;
      i < |s.sets| && exists archive ::
        Uploaded(steps, s.sets[i].key, s.sets[i].fingerprint, archive) && s.sets[i].dir == Present(Contents(archive))
  {
    var s := Exec(Init(max, threads), steps);
    InitInv(max, threads);
    ExecKeeps(Init(max, threads), steps);
    ReadingIsWhole(s, t);
    SetsAreWholeUploads(max, threads, steps);
    hide Inv, Uploaded;
    assert SetUploaded(steps, s.sets[s.threads[t].id]);
  }

  // ----- at rest

  /** With every thread idle, nothing stale is left on the disk and the counter is the file bytes. */
  lemma QuietCacheIsExact(s: State)
    requires Inv(s) && forall p :: p in s.threads ==> p.Idle?
    ensures s.used == FileBytes(s) == Sum(s.sets, CurrentSize) <= s.max
    ensures forall a :: a in s.sets ==> if a.stale then a.deducted && a.dir.Absent? else a.dir == Present(a.files)
  {
    forall a | a in s.sets
      ensures if a.stale then a.deducted && a.dir.Absent? else a.dir == Present(a.files)
      ensures OnDisk(a) == Charged(a) == CurrentSize(a)
    {
      var i: nat :| i < |s.sets| && s.sets[i] == a;
      assert SetOk(s, i);
      SumZero(s.threads, Reads(i));
      SumZero(s.threads, Owns(i));
    }
    SumMono(s.sets, OnDisk, Charged);
    SumMono(s.sets, Charged, OnDisk);
    SumMono(s.sets, CurrentSize, Charged);
    SumMono(s.sets, Charged, CurrentSize);
    SumZero(s.threads, Reserved);
    SumZero(s.threads, Staged);
    SumZero(s.threads, Claim);
    SumZero(s.threads, Short);
  }

  // ----- reserve

  /** Bytes of the current entries nobody reads: all that eviction can free. */
  const UnreadSize: AssetSet -> int := (a: AssetSet) => if !a.stale && a.readers == 0 then a.size else 0

  function ListedSize(keys: seq<Key>): AssetSet -> int {
    (a: AssetSet) => if !a.stale && a.key in keys then a.size else 0
  }

  lemma ListedOnce(s: State, rest: seq<Key>, k: Key, j: nat)
    requires MapOk(s) && j < |s.sets| && SetOk(s, j) && k in s.current && k !in rest
    ensures ListedSize(rest + [k])(s.sets[j]) == ListedSize(rest)(s.sets[j]) + if j == s.current[k] then KeySize(s)(k) else 0
  {}

  /** Distinct keys free the sizes of their own sets, in whatever order. */
  lemma {:induction false} FreedIsListed(s: State, keys: seq<Key>)
    requires Shape(s) && AllUnread(s, keys)
    ensures Freed(s, keys) == Sum(s.sets, ListedSize(keys))
  {
    if keys == [] {
      SumZero(s.sets, ListedSize(keys));
    } else {
      var last := |keys| - 1;
      var rest, k := keys[..last], keys[last];
      assert Unread(s, k) && keys == rest + [k];
      FreedIsListed(s, rest);
      hide SetOk, PhaseOk, ListedSize;
      forall j: nat | j < |s.sets|
        ensures ListedSize(keys)(s.sets[j]) == ListedSize(rest)(s.sets[j]) + if j == s.current[k] then KeySize(s)(k) else 0
      {
        assert SetOk(s, j);
        ListedOnce(s, rest, k, j);
      }
      SumDiffersAt(s.sets, s.current[k], ListedSize(keys), ListedSize(rest));
    }
  }

  lemma AllUnreadFreed(s: State, key: Key, order: seq<Key>)
    requires Shape(s) && LruOrder(s, key, order)
    ensures Freed(s, order) == Sum(s.sets, UnreadSize)
  {
    PrefixUnread(s, key, order, |order|);
    assert order[..|order|] == order;
    FreedIsListed(s, order);
    forall a | a in s.sets ensures ListedSize(order)(a) == UnreadSize(a) {
      var i: nat :| i < |s.sets| && s.sets[i] == a;
      assert SetOk(s, i);
      if !a.stale { assert a.key in order <==> Unread(s, a.key); }
    }
    SumMono(s.sets, ListedSize(order), UnreadSize);
    SumMono(s.sets, UnreadSize, ListedSize(order));
  }

  lemma {:induction false} FreedGrows(s: State, order: seq<Key>, e: nat)
    requires Shape(s) && e <= |order|
    ensures Freed(s, order[..e]) <= Freed(s, order)
  {
    assert order == order[..e] + order[e..];
    SumConcat(order[..e], order[e..], KeySize(s));
    SumMono(order[e..], (k: Key) => 0, KeySize(s));
    SumZero(order[e..], (k: Key) => 0);
  }

  /** The choice alone: fits at once, the shortest sufficient prefix of the order, or nothing. */
  lemma ReserveChoice(s: State, key: Key, n: nat, order: seq<Key>)
    requires Shape(s) && LruOrder(s, key, order)
    ensures var r := Reserve(s, n, order);
      && (r.Fits? <==> s.used + n <= s.max)
      && (r.Full? <==> s.used + n > s.max && s.used + n - Sum(s.sets, UnreadSize) > s.max)
      && (r.Evicts? ==> Shortest(s, n, order, r.keys))
  {
    EvictCountLeast(s, n, order, 0);
    AllUnreadFreed(s, key, order);
    var c := EvictCount(s, n, order, 0);
    assert order[..|order|] == order;
    assert order[..0] == [];
    if s.used + n > s.max && s.used - Freed(s, order) + n <= s.max && c == |order| {
      assert s.used - Freed(s, order[..c]) + n <= s.max;
    }
    if c < |order| && s.used - Freed(s, order) + n > s.max {
      FreedGrows(s, order, c);
    }
  }

  /** The least prefix of the order without which the claim does not fit. */
  ghost predicate Shortest(s: State, n: nat, order: seq<Key>, keys: seq<Key>) {
    && 0 < |keys| <= |order| && keys == order[..|keys|]
    && s.used - Freed(s, keys) + n <= s.max
    && forall e: nat :: e < |keys| ==> s.used - Freed(s, order[..e]) + n > s.max
  }

  /** The thread alone has moved on. */
  predicate OnlyThread(s: State, s': State, t: nat) {
    t < |s.threads| && |s'.threads| == |s.threads| && s' == SetPhase(s, t, s'.threads[t])
  }

  lemma {:induction false} RetireAllCurrent(s: State, t: nat, keys: seq<Key>)
    requires MapOk(s) && t < |s.threads| && AllUnread(s, keys)
    ensures RetireAll(s, t, keys).current == s.current - (set k | k in keys)
    decreases |keys|
  {
    if keys != [] {
      assert Unread(s, keys[0]);
      RestUnread(s, t, keys);
      RetireAllCurrent(RetireInto(s, t, keys[0]), t, keys[1..]);
      assert (set k | k in keys) == {keys[0]} + set k | k in keys[1..];
    }
  }

  /** The victims of one reserve: the shortest sufficient prefix leaves the map, and nothing else does. */
  ghost predicate EvictsShortest(s: State, s': State, n: nat, order: seq<Key>) {
    exists keys ::
      && Shortest(s, n, order, keys)
      && s'.current == s.current - (set k | k in keys)
      && s'.used == s.used + n
  }

  /**
   One `reserve` is all or nothing and minimal. It claims at once what fits; else it evicts the shortest prefix of the
   unread entries in LRU order that makes the claim fit; and exactly when evicting all of them would not do, it fails,
   and nothing has changed but the upload that failed.
   */
  lemma ReserveIsMinimal(s: State, step: Step)
    requires Shape(s) && step.ReserveNext? && Enabled(s, step)
    ensures var s', n := Apply(s, step), s.threads[step.t].up.archive[s.threads[step.t].up.done].declared;
      if s.used + n <= s.max then s'.used == s.used + n && OnlyThread(s.(used := s.used + n), s', step.t)
      else if s.used + n - Sum(s.sets, UnreadSize) <= s.max then EvictsShortest(s, s', n, step.order)
      else OnlyThread(s, s', step.t) && s'.threads[step.t].Discarding?
  {
    var t, up := step.t, s.threads[step.t].up;
    var n := up.archive[up.done].declared;
    ReserveChoice(s, up.key, n, step.order);
    ReserveCases(s, t, step.order);
    match Reserve(s, n, step.order)
    case Fits =>
    case Full =>
    case Evicts(keys) =>
      PrefixUnread(s, up.key, step.order, |keys|);
      ClaimedUnread(s, t, keys);
      hide Shape, LruOrder;
      RetireAllCurrent(Claimed(s, t), t, keys);
  }

  lemma ClaimedUnread(s: State, t: nat, keys: seq<Key>)
    requires MapOk(s) && AllUnread(s, keys)
    requires t < |s.threads| && s.threads[t].Extracting? && s.threads[t].up.done < |s.threads[t].up.archive|
    ensures MapOk(Claimed(s, t)) && AllUnread(Claimed(s, t), keys)
  {
    forall k | k in keys ensures Unread(Claimed(s, t), k) { assert Unread(s, k); }
  }

  // ----- when the counter exceeds the budget

  lemma InstallGivesBack(s: State, t: nat, now: int)
    requires Inv(s) && Enabled(s, Install(t, now))
    ensures Apply(s, Install(t, now)).used <= s.used
  {
    var up := s.threads[t].up;
    assert PhaseOk(s, s.threads[t]);
    StagedWithinReserved(up);
    ReplaceFrame(SetPhase(s, t, Removing([])).(used := s.used - up.reserved), t, up.key);
  }

  /** A reserve whose claim does not fit as it is, and would with every unread entry gone. */
  ghost predicate FitsOnlyByEviction(s: State, step: Step)
    requires Enabled(s, step)
  {
    step.ReserveNext? &&
    var n := s.threads[step.t].up.archive[s.threads[step.t].up.done].declared;
    s.used + n > s.max && s.used + n - Sum(s.sets, UnreadSize) <= s.max
  }

  lemma StepCrossesIff(s: State, step: Step)
    requires Inv(s) && Enabled(s, step) && s.used <= s.max
    ensures Apply(s, step).used > s.max <==> FitsOnlyByEviction(s, step)
  {
    var t := step.t;
    match step
    case ReserveNext(_, order) =>
      var up := s.threads[t].up;
      ReserveCases(s, t, order);
      ReserveChoice(s, up.key, up.archive[up.done].declared, order);
    case Install(_, now) => InstallGivesBack(s, t, now);
    case Deduct(_) => HeadIsDoomed(s, t);
    case _ =>
  }

  /** A step takes the counter over the budget exactly when it reserves what fits only by eviction. */
  lemma CounterCrossesIff(max: nat, threads: nat, steps: seq<Step>, step: Step)
    requires Executable(Init(max, threads), steps) && Enabled(Exec(Init(max, threads), steps), step)
    requires Exec(Init(max, threads), steps).used <= max
    ensures var s := Exec(Init(max, threads), steps); Apply(s, step).used > max <==> FitsOnlyByEviction(s, step)
  {
    var s := Exec(Init(max, threads), steps);
    InitInv(max, threads);
    ExecKeeps(Init(max, threads), steps);
    ExecKeepsMax(Init(max, threads), steps);
    hide Inv, Enabled, Apply, FitsOnlyByEviction;
    StepCrossesIff(s, step);
  }

  lemma Prepend(s: State, step: Step, rest: seq<Step>)
    requires Enabled(s, step) && Executable(Apply(s, step), rest)
    ensures Executable(s, [step] + rest) && Exec(s, [step] + rest) == Exec(Apply(s, step), rest)
  {
    assert ([step] + rest)[1..] == rest;
  }

  function OneFile(max: nat): seq<Member> { [Member("f", max, seq(max, _ => 0))] }

  /** The cache after an upload of max bytes under key "a". */
  function Filled(max: nat): State {
    State(max, max, map["a" := 0], [AssetSet("a", "1", Contents(OneFile(max)), max, 0, 0, false, Present(Contents(OneFile(max))), false)], [Idle])
  }

  lemma OneFileBytes(max: nat)
    ensures DataBytes(OneFile(max)) == max && OneFile(max)[..1] == OneFile(max) && OneFile(max)[..0] == []
  {
    SumOne(OneFile(max)[0], DataSize);
  }

  /** The upload of key "a" has written its file. */
  function Copied(max: nat): State {
    State(max, max, map[], [], [Extracting(Upload("a", "1", OneFile(max), 1, Contents(OneFile(max)), max, max))])
  }

  /** It has reserved the file's bytes. */
  function Admitted(max: nat): State {
    State(max, max, map[], [], [Writing(Upload("a", "1", OneFile(max), 0, [File("f", [])], 0, max))])
  }

  /** It has begun. */
  function Begun(max: nat): State {
    State(max, 0, map[], [], [Extracting(Upload("a", "1", OneFile(max), 0, [], 0, 0))])
  }

  lemma ClaimFile(max: nat, rest: seq<Step>) returns (steps: seq<Step>)
    requires Executable(Admitted(max), rest)
    ensures Executable(Begun(max), steps) && Exec(Begun(max), steps) == Exec(Admitted(max), rest)
  {
    var s1 := Begun(max);
    assert LruOrder(s1, "a", []);
    hide Sum, Freed, LruOrder;
    var s2 := Apply(s1, ReserveNext(0, []));
    assert [] + [File("f", [])] == [File("f", [])];
    assert Apply(s2, RemoveReturns(0)) == Admitted(max);
    Prepend(s2, RemoveReturns(0), rest);
    Prepend(s1, ReserveNext(0, []), [RemoveReturns(0)] + rest);
    steps := [ReserveNext(0, [])] + ([RemoveReturns(0)] + rest);
  }

  lemma ReserveFile(max: nat, rest: seq<Step>) returns (steps: seq<Step>)
    requires Executable(Admitted(max), rest)
    ensures Executable(Init(max, 1), steps) && Exec(Init(max, 1), steps) == Exec(Admitted(max), rest)
  {
    hide Sum;
    steps := ClaimFile(max, rest);
    assert Apply(Init(max, 1), StartPut(0, "a", "1", OneFile(max))) == Begun(max);
    Prepend(Init(max, 1), StartPut(0, "a", "1", OneFile(max)), steps);
    steps := [StartPut(0, "a", "1", OneFile(max))] + steps;
  }

  lemma WriteFile(max: nat, rest: seq<Step>) returns (steps: seq<Step>)
    requires Executable(Copied(max), rest)
    ensures Executable(Admitted(max), steps) && Exec(Admitted(max), steps) == Exec(Copied(max), rest)
  {
    OneFileBytes(max);
    var s1 := Apply(Admitted(max), WriteChunk(0, max));
    var data := OneFile(max)[0].data;
    assert [] + data[0..max] == data;
    assert s1.threads[0].up.staged == Contents(OneFile(max));
    assert Apply(s1, EndMember(0)) == Copied(max);
    Prepend(s1, EndMember(0), rest);
    Prepend(Admitted(max), WriteChunk(0, max), [EndMember(0)] + rest);
    steps := [WriteChunk(0, max)] + ([EndMember(0)] + rest);
  }

  lemma InstallFile(max: nat, rest: seq<Step>) returns (steps: seq<Step>)
    requires Executable(Filled(max), rest)
    ensures Executable(Copied(max), steps) && Exec(Copied(max), steps) == Exec(Filled(max), rest)
  {
    OneFileBytes(max);
    var s1 := Apply(Copied(max), Install(0, 0));
    assert Apply(s1, RemoveReturns(0)) == Filled(max);
    Prepend(s1, RemoveReturns(0), rest);
    Prepend(Copied(max), Install(0, 0), [RemoveReturns(0)] + rest);
    steps := [Install(0, 0)] + ([RemoveReturns(0)] + rest);
  }

  lemma EvictFilled(max: nat) returns (steps: seq<Step>)
    requires max > 0
    ensures Executable(Filled(max), steps) && Exec(Filled(max), steps).used == 2 * max
  {
    OneFileBytes(max);
    var s1 := Apply(Filled(max), StartPut(0, "b", "1", OneFile(max)));
    assert LruOrder(s1, "b", ["a"]);
    assert ["a"][..0] == [] && ["a"][..1] == ["a"];
    SumOne("a", KeySize(s1));
    assert EvictCount(s1, max, ["a"], 1) == 1;
    Prepend(s1, ReserveNext(0, ["a"]), []);
    Prepend(Filled(max), StartPut(0, "b", "1", OneFile(max)), [ReserveNext(0, ["a"])]);
    steps := [StartPut(0, "b", "1", OneFile(max))] + [ReserveNext(0, ["a"])];
  }

  /** An upload of max bytes that evicts another of max bytes takes the counter to twice the budget: the bound is tight. */
  lemma CounterCanDoubleMax(max: nat)
    requires max > 0
    ensures exists steps :: Executable(Init(max, 1), steps) && Exec(Init(max, 1), steps).used == 2 * max
  {
    var steps := EvictFilled(max);
    steps := InstallFile(max, steps);
    steps := WriteFile(max, steps);
    steps := ReserveFile(max, steps);
  }
}

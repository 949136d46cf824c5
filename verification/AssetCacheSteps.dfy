/** Every step of the asset cache keeps its invariant. */
module AssetCacheSteps {
  import opened Sums
  import opened AssetCacheModel
  import opened AssetCacheInvariant

  /** Thread t goes on without touching a set; `used` follows its reservation. */
  lemma MoveKeepsShape(s: State, t: nat, p: Phase, s': State)
    requires Shape(s) && Ledger(s) && t < |s.threads|
    requires s' == SetPhase(s, t, p).(used := s.used + Reserved(p) - Reserved(s.threads[t]))
    requires PhaseOk(s, p) && Gone(p) == Gone(s.threads[t])
    requires !p.Reading? && !s.threads[t].Reading?
    ensures Shape(s') && Ledger(s')
  {
    hide Sum;
    ThreadMoves(s, t, p);
    forall i: nat | i < |s'.sets| ensures SetOk(s', i) {
      assert SetOk(s, i);
      CountsMove(s, t, p, i);
    }
    forall u: nat | u < |s'.threads| ensures PhaseOk(s', s'.threads[u]) { assert PhaseOk(s, s.threads[u]); }
  }

  lemma MoveKeepsInv(s: State, t: nat, p: Phase, s': State)
    requires Inv(s) && t < |s.threads|
    requires s' == SetPhase(s, t, p).(used := s.used + Reserved(p) - Reserved(s.threads[t]))
    requires PhaseOk(s, p) && Gone(p) == Gone(s.threads[t])
    requires !p.Reading? && !s.threads[t].Reading?
    requires Reserved(p) - Claim(p) + Short(p) <= Reserved(s.threads[t]) - Claim(s.threads[t]) + Short(s.threads[t])
    ensures Inv(s')
  {
    hide Sum;
    MoveKeepsShape(s, t, p, s');
    ThreadMoves(s, t, p);
  }

  /** The claim is granted and the member's file created: nothing of it is written yet. */
  lemma OpenKeeps(up: Upload, claim: nat)
    requires UploadOk(up) && up.done < |up.archive| && claim == up.archive[up.done].declared
    ensures WritingOk(Opened(up, claim))
  {
    hide Sum;
    assert Opened(up, claim).staged[..up.done] == up.staged;
  }

  lemma RemoveReturnsKeeps(s: State, t: nat)
    requires Inv(s) && Enabled(s, RemoveReturns(t))
    ensures Inv(Apply(s, RemoveReturns(t)))
  {
    var p := s.threads[t];
    assert PhaseOk(s, p);
    OwnsNothing(p);
    hide Sum, Inv;
    if p.Evicting? {
      OpenKeeps(p.up, p.claim);
      hide UploadOk, WritingOk;
      MoveKeepsInv(s, t, Writing(Opened(p.up, p.claim)), Apply(s, RemoveReturns(t)));
    } else {
      MoveKeepsInv(s, t, Idle, Apply(s, RemoveReturns(t)));
    }
  }

  lemma DeclaredNext(up: Upload)
    requires up.done < |up.archive|
    ensures DeclaredBytes(up.archive[..up.done + 1]) == DeclaredBytes(up.archive[..up.done]) + up.archive[up.done].declared
    ensures DataBytes(up.archive[..up.done + 1]) == DataBytes(up.archive[..up.done]) + |up.archive[up.done].data|
  {
    hide Sum;
    assert up.archive[..up.done + 1] == up.archive[..up.done] + [up.archive[up.done]];
    SumAppend(up.archive[..up.done], up.archive[up.done], DeclaredSize);
    SumAppend(up.archive[..up.done], up.archive[up.done], DataSize);
  }

  lemma {:induction false} ContentsBytes(archive: seq<Member>)
    ensures Bytes(Contents(archive)) == DataBytes(archive)
  {
    if archive != [] {
      var last := |archive| - 1;
      ContentsBytes(archive[..last]);
      assert Contents(archive)[..last] == Contents(archive[..last]);
    }
  }

  lemma DeclaredCovers(archive: seq<Member>)
    requires TarYields(archive)
    ensures DataBytes(archive) <= DeclaredBytes(archive)
  {
    hide Sum;
    SumMono(archive, DataSize, DeclaredSize);
  }

  /** What is on disk is what was counted, and is paid for. */
  lemma StagedWithinReserved(up: Upload)
    requires UploadOk(up) || WritingOk(up)
    ensures Bytes(up.staged) == up.total + (if |up.staged| > up.done then Written(up) else 0)
    ensures Bytes(up.staged) <= up.reserved
  {
    ContentsBytes(up.archive[..up.done]);
    DeclaredCovers(up.archive[..up.done]);
    if WritingOk(up) { assert up.archive[up.done] in up.archive; }
  }

  lemma StartPutKeeps(s: State, step: Step)
    requires Inv(s) && step.StartPut? && Enabled(s, step)
    ensures Inv(Apply(s, step))
  {
    var s' := Apply(s, step);
    if s' != s {
      assert DeclaredBytes([]) == 0 && DataBytes([]) == 0;
      hide Sum;
      MoveKeepsInv(s, step.t, s'.threads[step.t], s');
    }
  }

  lemma WriteChunkKeeps(s: State, step: Step)
    requires Inv(s) && step.WriteChunk? && Enabled(s, step)
    ensures Inv(Apply(s, step))
  {
    hide Sum;
    var p, s' := s.threads[step.t], Apply(s, step);
    assert PhaseOk(s, p);
    ChunkKeeps(p.up, step.n);
    MoveKeepsInv(s, step.t, s'.threads[step.t], s');
  }

  /** Another chunk: the open file is still the start of its member. */
  lemma ChunkKeeps(up: Upload, n: nat)
    requires WritingOk(up) && Written(up) + n <= |up.archive[up.done].data|
    ensures WritingOk(AppendToLast(up, n))
  {
    hide Sum;
    var f, data := up.staged[up.done], up.archive[up.done].data;
    assert f.data == data[..|f.data|];
    assert f.data + data[|f.data|..|f.data| + n] == data[..|f.data| + n];
    assert AppendToLast(up, n).staged[..up.done] == up.staged[..up.done];
  }

  /** The member is read to its end: its file is complete. */
  lemma EndKeeps(up: Upload)
    requires WritingOk(up) && Written(up) == |up.archive[up.done].data|
    ensures UploadOk(up.(done := up.done + 1, total := up.total + Written(up)))
  {
    hide Sum;
    DeclaredNext(up);
    assert up.archive[..up.done + 1] == up.archive[..up.done] + [up.archive[up.done]];
    assert up.staged == up.staged[..up.done] + [up.staged[up.done]];
    assert up.staged[up.done] == File(up.archive[up.done].name, up.archive[up.done].data);
    assert up.staged == Contents(up.archive[..up.done + 1]);
  }

  lemma EndMemberKeeps(s: State, step: Step)
    requires Inv(s) && step.EndMember? && Enabled(s, step)
    ensures Inv(Apply(s, step))
  {
    hide Sum;
    var p, s' := s.threads[step.t], Apply(s, step);
    assert PhaseOk(s, p);
    EndKeeps(p.up);
    MoveKeepsInv(s, step.t, s'.threads[step.t], s');
  }

  lemma AbandonKeeps(s: State, step: Step)
    requires Inv(s) && step.Abandon? && Enabled(s, step)
    ensures Inv(Apply(s, step))
  {
    hide Sum;
    var p, s' := s.threads[step.t], Apply(s, step);
    assert PhaseOk(s, p);
    StagedWithinReserved(p.up);
    MoveKeepsInv(s, step.t, s'.threads[step.t], s');
  }

  lemma DiscardKeeps(s: State, step: Step)
    requires Inv(s) && step.DiscardSome? && Enabled(s, step)
    ensures Inv(Apply(s, step))
  {
    hide Sum;
    var p, s' := s.threads[step.t], Apply(s, step);
    assert PhaseOk(s, p);
    MoveKeepsInv(s, step.t, s'.threads[step.t], s');
  }

  lemma UnreserveKeeps(s: State, step: Step)
    requires Inv(s) && step.Unreserve? && Enabled(s, step)
    ensures Inv(Apply(s, step))
  {
    hide Sum;
    assert PhaseOk(s, s.threads[step.t]);
    MoveKeepsInv(s, step.t, Idle, Apply(s, step));
  }

  // ----- one thread and one set move together

  /** All the other sets keep their counts, all the other threads keep their victims. */
  lemma OneSetMoves(s: State, s': State, t: nat, i: nat)
    requires Shape(s) && t < |s.threads| && i < |s.sets|
    requires |s'.threads| == |s.threads| && s'.threads == s.threads[t := s'.threads[t]]
    requires |s'.sets| == |s.sets| && s'.sets == s.sets[i := s'.sets[i]]
    requires MapOk(s')
    requires forall k :: k in s.current && s.current[k] != i ==> k in s'.current && s'.current[k] == s.current[k]
    requires forall k :: k in s'.current ==> k in s.current && s'.current[k] == s.current[k]
    requires forall j: nat :: j != i ==> Owns(j)(s'.threads[t]) == Owns(j)(s.threads[t])
    requires forall j: nat :: j != i ==> Reads(j)(s'.threads[t]) == Reads(j)(s.threads[t])
    requires s'.sets[i].size == s.sets[i].size
    requires SetOk(s', i) && PhaseOk(s', s'.threads[t])
    requires Doomed(s.sets[i]) ==> Doomed(s'.sets[i]) || Sum(s'.threads, Owns(i)) == 0
    ensures Shape(s')
  {
    hide Sum;
    forall j: nat | j < |s'.sets| ensures SetOk(s', j) {
      if j != i {
        assert SetOk(s, j);
        CountsMove(s, t, s'.threads[t], j);
      }
    }
    forall u: nat | u < |s'.threads| ensures PhaseOk(s', s'.threads[u]) {
      if u != t {
        assert PhaseOk(s, s.threads[u]);
        OwnerCounts(s', u, i);
      }
    }
  }

  // ----- readers

  lemma AcquireKeepsShape(s: State, step: Step)
    requires Shape(s) && step.Acquire? && Enabled(s, step)
    ensures Shape(Apply(s, step))
  {
    hide Sum;
    var t, s' := step.t, Apply(s, step);
    if Holds(s, step.key, step.fingerprint) {
      var i := s.current[step.key];
      assert SetOk(s, i);
      CountsMove(s, t, Reading(i), i);
      OneSetMoves(s, s', t, i);
    }
  }

  lemma AcquireKeeps(s: State, step: Step)
    requires Inv(s) && step.Acquire? && Enabled(s, step)
    ensures Inv(Apply(s, step))
  {
    hide Sum;
    AcquireKeepsShape(s, step);
    if Holds(s, step.key, step.fingerprint) {
      assert SetOk(s, s.current[step.key]);
      AcquireKeepsLedger(s, step);
    }
  }

  lemma AcquireKeepsLedger(s: State, step: Step)
    requires Ledger(s) && Budget(s) && step.Acquire? && Enabled(s, step) && Holds(s, step.key, step.fingerprint)
    requires !s.sets[s.current[step.key]].stale
    ensures Ledger(Apply(s, step)) && Budget(Apply(s, step))
  {
    hide Sum;
    var s', i := Apply(s, step), s.current[step.key];
    ThreadMoves(s, step.t, Reading(i));
    SetChanges(s, i, s'.sets[i]);
  }

  lemma SumOne<T>(x: T, f: T -> int)
    ensures Sum([x], f) == f(x)
  {
    SumAppend([], x, f);
    assert [] + [x] == [x];
  }

  lemma OwnsNothing(p: Phase)
    requires Gone(p) == []
    ensures Due(p) == 0 && forall j: nat :: Owns(j)(p) == 0
  {}

  lemma ReleaseOwners(s: State, step: Step)
    requires step.Release? && Enabled(s, step)
    ensures var p := Apply(s, step).threads[step.t];
      forall j: nat :: Owns(j)(p) == if j == s.threads[step.t].id && p.gone != [] then 1 else 0
  {
    var p := Apply(s, step).threads[step.t];
    forall j: nat ensures Owns(j)(p) == if j == s.threads[step.t].id && p.gone != [] then 1 else 0 {
      if p.gone != [] { SumOne(p.gone[0], Is(j)); }
    }
  }

  lemma ReleaseKeepsSet(s: State, step: Step)
    requires step.Release? && Enabled(s, step)
    requires var a := s.sets[s.threads[step.t].id]; SetOk(s, s.threads[step.t].id) && a.readers > 0
    ensures SetOk(Apply(s, step), s.threads[step.t].id)
  {
    ReleaseOwners(s, step);
    CountsMove(s, step.t, Apply(s, step).threads[step.t], s.threads[step.t].id);
  }

  lemma ReleaseIs(s: State, step: Step)
    requires step.Release? && Enabled(s, step)
    ensures var s', i := Apply(s, step), s.threads[step.t].id;
      && s' == s.(sets := s.sets[i := s'.sets[i]], threads := s.threads[step.t := s'.threads[step.t]])
      && |s'.threads| == |s.threads| && |s'.sets| == |s.sets| && s'.threads[step.t].Removing?
      && s'.sets[i] == s.sets[i].(readers := s.sets[i].readers - 1)
  {}

  lemma ReleaseKeepsPhase(s: State, step: Step)
    requires step.Release? && Enabled(s, step)
    requires SetOk(s, s.threads[step.t].id) && s.sets[s.threads[step.t].id].readers > 0
    ensures PhaseOk(Apply(s, step), Apply(s, step).threads[step.t])
  {
    hide Sum;
  }

  lemma ReleaseKeepsShape(s: State, step: Step)
    requires Shape(s) && step.Release? && Enabled(s, step)
    ensures Shape(Apply(s, step))
  {
    var i := s.threads[step.t].id;
    assert SetOk(s, i);
    ReaderCounts(s, step.t, i);
    OwnsNothing(s.threads[step.t]);
    ReleaseOwners(s, step);
    ReleaseKeepsSet(s, step);
    ReleaseKeepsPhase(s, step);
    ReleaseIs(s, step);
    hide Sum, Apply, SetOk, PhaseOk;
    OneSetMoves(s, Apply(s, step), step.t, i);
  }

  lemma ReleaseKeepsLedger(s: State, step: Step)
    requires Ledger(s) && Budget(s) && step.Release? && Enabled(s, step)
    requires var a := s.sets[s.threads[step.t].id]; a.readers > 0 && !a.deducted
    ensures Ledger(Apply(s, step)) && Budget(Apply(s, step))
  {
    var s', i := Apply(s, step), s.threads[step.t].id;
    var p := s'.threads[step.t];
    ThreadMoves(s, step.t, p);
    SetChanges(s, i, s'.sets[i]);
    if p.gone != [] { SumOne(p.gone[0], VictimSize); }
  }

  lemma ReleaseKeeps(s: State, step: Step)
    requires Inv(s) && step.Release? && Enabled(s, step)
    ensures Inv(Apply(s, step))
  {
    hide Sum;
    ReleaseKeepsShape(s, step);
    var i := s.threads[step.t].id;
    assert SetOk(s, i);
    ReaderCounts(s, step.t, i);
    ReleaseKeepsLedger(s, step);
  }

  // ----- remove

  lemma DeleteSomeKeeps(s: State, step: Step)
    requires Inv(s) && step.DeleteSome? && Enabled(s, step)
    ensures Inv(Apply(s, step))
  {
    hide Sum;
    var t, s' := step.t, Apply(s, step);
    var v := Gone(s.threads[t])[0];
    assert v in Gone(s.threads[t]);
    assert PhaseOk(s, s.threads[t]) && SetOk(s, v.id);
    SetChanges(s, v.id, s'.sets[v.id]);
    OneSetMoves(s, s', t, v.id);
  }

  lemma DropFirst(gone: seq<Victim>, f: Victim -> int)
    requires gone != []
    ensures Sum(gone[1..], f) == Sum(gone, f) - f(gone[0])
  {
    hide Sum;
    assert gone == [gone[0]] + gone[1..];
    SumConcat([gone[0]], gone[1..], f);
    SumOne(gone[0], f);
  }

  lemma DueNonNegative(p: Phase)
    ensures Due(p) >= 0
  {
    hide Sum;
    SumMono(Gone(p), (v: Victim) => 0, VictimSize);
    SumZero(Gone(p), (v: Victim) => 0);
  }

  lemma DeductOwners(s: State, step: Step)
    requires step.Deduct? && Enabled(s, step)
    ensures var p, p' := s.threads[step.t], Apply(s, step).threads[step.t];
      && Gone(p') == Gone(p)[1..]
      && (forall i: nat :: Owns(i)(p') == Owns(i)(p) - (if i == Gone(p)[0].id then 1 else 0))
      && Due(p') == Due(p) - Gone(p)[0].size
  {
    hide Sum;
    var p, p' := s.threads[step.t], Apply(s, step).threads[step.t];
    forall i: nat ensures Owns(i)(p') == Owns(i)(p) - (if i == Gone(p)[0].id then 1 else 0) {
      DropFirst(Gone(p), Is(i));
    }
    DropFirst(Gone(p), VictimSize);
  }

  /** The head of the list is doomed and charged at its own size. */
  lemma HeadIsDoomed(s: State, t: nat)
    requires Shape(s) && t < |s.threads| && |Gone(s.threads[t])| > 0
    ensures var v := Gone(s.threads[t])[0];
      && v.id < |s.sets| && Doomed(s.sets[v.id]) && v.size == s.sets[v.id].size && SetOk(s, v.id)
  {
    hide Sum;
    assert Gone(s.threads[t])[0] in Gone(s.threads[t]);
    assert PhaseOk(s, s.threads[t]);
  }

  lemma DeductKeepsSet(s: State, step: Step)
    requires step.Deduct? && Enabled(s, step)
    requires var v := Gone(s.threads[step.t])[0]; Doomed(s.sets[v.id]) && SetOk(s, v.id)
    ensures var v := Gone(s.threads[step.t])[0];
      SetOk(Apply(s, step), v.id) && Owns(v.id)(Apply(s, step).threads[step.t]) == 0
  {
    hide Sum;
    var s', v := Apply(s, step), Gone(s.threads[step.t])[0];
    DeductOwners(s, step);
    CountsMove(s, step.t, s'.threads[step.t], v.id);
    OwnerCounts(s', step.t, v.id);
  }

  lemma DeductIs(s: State, step: Step)
    requires step.Deduct? && Enabled(s, step)
    ensures var s', i := Apply(s, step), Gone(s.threads[step.t])[0].id;
      && s' == s.(used := s'.used, sets := s.sets[i := s.sets[i].(deducted := true)], threads := s.threads[step.t := s'.threads[step.t]])
      && |s'.threads| == |s.threads| && !s'.threads[step.t].Reading? && !s.threads[step.t].Reading?
  {}

  lemma DeductKeepsPhase(s: State, step: Step)
    requires step.Deduct? && Enabled(s, step) && PhaseOk(s, s.threads[step.t])
    requires var s', v := Apply(s, step), Gone(s.threads[step.t])[0]; Owns(v.id)(s'.threads[step.t]) == 0
    ensures PhaseOk(Apply(s, step), Apply(s, step).threads[step.t])
  {
    hide Sum;
    var s', v := Apply(s, step), Gone(s.threads[step.t])[0];
    OwnerCounts(s', step.t, v.id);
  }

  lemma DeductKeepsShape(s: State, step: Step)
    requires Shape(s) && step.Deduct? && Enabled(s, step)
    ensures Shape(Apply(s, step))
  {
    hide Sum;
    var t, s' := step.t, Apply(s, step);
    var v := Gone(s.threads[t])[0];
    HeadIsDoomed(s, t);
    DeductOwners(s, step);
    DeductKeepsSet(s, step);
    DeductKeepsPhase(s, step);
    DeductIs(s, step);
    hide Apply, Enabled;
    OneSetMoves(s, s', t, v.id);
  }

  lemma DeductKeepsLedger(s: State, step: Step)
    requires Ledger(s) && Budget(s) && step.Deduct? && Enabled(s, step)
    requires var v := Gone(s.threads[step.t])[0]; Doomed(s.sets[v.id]) && v.size == s.sets[v.id].size
    ensures Ledger(Apply(s, step)) && Budget(Apply(s, step))
  {
    hide Sum;
    var s', v := Apply(s, step), Gone(s.threads[step.t])[0];
    DeductOwners(s, step);
    ThreadMoves(s, step.t, s'.threads[step.t]);
    SetChanges(s, v.id, s'.sets[v.id]);
  }

  lemma DeductKeeps(s: State, step: Step)
    requires Inv(s) && step.Deduct? && Enabled(s, step)
    ensures Inv(Apply(s, step))
  {
    hide Sum;
    HeadIsDoomed(s, step.t);
    DeductKeepsShape(s, step);
    DeductKeepsLedger(s, step);
  }

  // ----- retiring

  /** One set, one thread and one key change. */
  lemma RetireIntoIs(s: State, t: nat, key: Key)
    requires t < |s.threads| && key in s.current && s.current[key] < |s.sets|
    ensures var s', i := RetireInto(s, t, key), s.current[key];
      && s' == State(s.max, s.used, s.current - {key}, s.sets[i := s.sets[i].(stale := true)], s.threads[t := s'.threads[t]])
      && |s'.threads| == |s.threads|
      && (!s.threads[t].Reading? ==> !s'.threads[t].Reading?)
  {}

  lemma RetireOwners(s: State, t: nat, key: Key)
    requires t < |s.threads| && Unread(s, key) && (s.threads[t].Evicting? || s.threads[t].Removing?)
    ensures var p, p' := s.threads[t], RetireInto(s, t, key).threads[t];
      && (forall j: nat :: Owns(j)(p') == Owns(j)(p) + (if j == s.current[key] then 1 else 0))
      && Due(p') == Due(p) + KeySize(s)(key)
  {
    hide Sum;
    var p, p' := s.threads[t], RetireInto(s, t, key).threads[t];
    var v := Victim(s.current[key], s.sets[s.current[key]].size);
    assert Gone(p') == Gone(p) + [v];
    forall j: nat ensures Owns(j)(p') == Owns(j)(p) + (if j == s.current[key] then 1 else 0) { SumAppend(Gone(p), v, Is(j)); }
    SumAppend(Gone(p), v, VictimSize);
  }

  lemma RetireIntoKeepsSet(s: State, t: nat, key: Key)
    requires t < |s.threads| && Unread(s, key) && SetOk(s, s.current[key]) && MapOk(s)
    requires s.threads[t].Evicting? || s.threads[t].Removing?
    requires !s.sets[s.current[key]].stale
    ensures SetOk(RetireInto(s, t, key), s.current[key])
  {
    hide Sum;
    RetireOwners(s, t, key);
    RetireIntoIs(s, t, key);
    hide RetireInto, Unread;
    CountsMove(s, t, RetireInto(s, t, key).threads[t], s.current[key]);
  }

  lemma RetireIntoKeepsPhase(s: State, t: nat, key: Key)
    requires t < |s.threads| && Unread(s, key) && PhaseOk(s, s.threads[t])
    requires s.threads[t].Evicting? || s.threads[t].Removing?
    requires !s.sets[s.current[key]].stale && !s.sets[s.current[key]].deducted
    ensures var s' := RetireInto(s, t, key); PhaseOk(s', s'.threads[t])
  {
    hide Sum;
    var s' := RetireInto(s, t, key);
    forall v | v in Gone(s'.threads[t]) ensures v.id < |s'.sets| && v.size == s'.sets[v.id].size && Doomed(s'.sets[v.id]) {
      assert v in Gone(s.threads[t]) || v == Victim(s.current[key], s.sets[s.current[key]].size);
    }
  }

  lemma RetireIntoKeeps(s: State, t: nat, key: Key)
    requires Shape(s) && Ledger(s) && t < |s.threads| && Unread(s, key)
    requires s.threads[t].Evicting? || s.threads[t].Removing?
    ensures var s' := RetireInto(s, t, key);
      && Shape(s') && Ledger(s')
      && Due(s'.threads[t]) == Due(s.threads[t]) + KeySize(s)(key)
  {
    hide Sum;
    var s', i := RetireInto(s, t, key), s.current[key];
    assert SetOk(s, i) && PhaseOk(s, s.threads[t]);
    RetireOwners(s, t, key);
    RetireIntoKeepsSet(s, t, key);
    RetireIntoKeepsPhase(s, t, key);
    RetireIntoKeepsLedger(s, t, key);
    RetireIntoIs(s, t, key);
    hide RetireInto, Ledger;
    OneSetMoves(s, s', t, i);
  }

  lemma RetireIntoKeepsLedger(s: State, t: nat, key: Key)
    requires Ledger(s) && t < |s.threads| && Unread(s, key)
    requires s.threads[t].Evicting? || s.threads[t].Removing?
    requires !s.sets[s.current[key]].stale && !s.sets[s.current[key]].deducted
    requires var s' := RetireInto(s, t, key); Due(s'.threads[t]) == Due(s.threads[t]) + KeySize(s)(key)
    ensures Ledger(RetireInto(s, t, key))
  {
    hide Sum;
    var s', i := RetireInto(s, t, key), s.current[key];
    RetireIntoIs(s, t, key);
    assert Reserved(s'.threads[t]) == Reserved(s.threads[t]);
    hide RetireInto;
    ThreadMoves(s, t, s'.threads[t]);
    SetChanges(s, i, s'.sets[i]);
  }

  ghost predicate AllUnread(s: State, keys: seq<Key>) {
    && (forall k :: k in keys ==> Unread(s, k))
    && (forall i, j :: 0 <= i < j < |keys| ==> keys[i] != keys[j])
  }

  lemma {:induction false} FreedFrame(s: State, s': State, keys: seq<Key>)
    requires forall k :: k in keys ==> KeySize(s)(k) == KeySize(s')(k)
    ensures Freed(s, keys) == Freed(s', keys)
  {
    hide Sum;
    SumMono(keys, KeySize(s), KeySize(s'));
    SumMono(keys, KeySize(s'), KeySize(s));
  }

  /** Retiring one key leaves the other entries as they were. */
  lemma RetireIntoFrame(s: State, t: nat, k: Key, x: Key)
    requires MapOk(s) && t < |s.threads| && Unread(s, k) && Unread(s, x) && x != k
    ensures Unread(RetireInto(s, t, k), x) && KeySize(RetireInto(s, t, k))(x) == KeySize(s)(x)
  {
    hide Sum;
    assert s.sets[s.current[x]].key == x && s.sets[s.current[k]].key == k;
  }

  lemma RestUnread(s: State, t: nat, keys: seq<Key>)
    requires MapOk(s) && t < |s.threads| && keys != [] && AllUnread(s, keys) && Unread(s, keys[0])
    ensures AllUnread(RetireInto(s, t, keys[0]), keys[1..])
    ensures Freed(RetireInto(s, t, keys[0]), keys[1..]) == Freed(s, keys) - KeySize(s)(keys[0])
  {
    hide Sum;
    var k, rest := keys[0], keys[1..];
    forall x | x in rest ensures Unread(RetireInto(s, t, k), x) && KeySize(s)(x) == KeySize(RetireInto(s, t, k))(x) {
      assert x in keys && x != k;
      RetireIntoFrame(s, t, k, x);
    }
    FreedFrame(s, RetireInto(s, t, k), rest);
    assert keys == [k] + rest;
    SumConcat([k], rest, KeySize(s));
    SumOne(k, KeySize(s));
  }

  lemma {:induction false} RetireAllKeeps(s: State, t: nat, keys: seq<Key>)
    requires Shape(s) && Ledger(s) && t < |s.threads| && s.threads[t].Evicting? && AllUnread(s, keys)
    ensures var s' := RetireAll(s, t, keys);
      && Shape(s') && Ledger(s')
      && s'.threads[t] == WithGone(s.threads[t], Gone(s'.threads[t])) && s'.threads == s.threads[t := s'.threads[t]]
      && Due(s'.threads[t]) == Due(s.threads[t]) + Freed(s, keys)
    decreases |keys|
  {
    hide SetOk, PhaseOk, Ledger;
    if keys != [] {
      assert Unread(s, keys[0]);
      RetireIntoKeeps(s, t, keys[0]);
      RestUnread(s, t, keys);
      RetireAllKeeps(RetireInto(s, t, keys[0]), t, keys[1..]);
    }
  }

  // ----- reserve

  lemma ShortWithinClaims(s: State)
    ensures Sum(s.threads, Short) <= Sum(s.threads, Claim)
  {
    hide Sum;
    forall p: Phase | p in s.threads ensures Short(p) <= Claim(p) { DueNonNegative(p); }
    SumMono(s.threads, Short, Claim);
  }

  lemma PrefixUnread(s: State, key: Key, order: seq<Key>, e: nat)
    requires LruOrder(s, key, order) && e <= |order|
    ensures AllUnread(s, order[..e])
  {
    hide Sum;
    forall k | k in order[..e] ensures Unread(s, k) { assert k in order; }
  }

  /** What `reserve` decides, without naming how it counts. */
  lemma {:induction false} EvictCountLeast(s: State, n: nat, order: seq<Key>, from: nat)
    requires from <= |order|
    requires forall e: nat :: e < from ==> s.used - Freed(s, order[..e]) + n > s.max
    ensures var c := EvictCount(s, n, order, from);
      && (forall e: nat :: e < c ==> s.used - Freed(s, order[..e]) + n > s.max)
      && (c < |order| ==> s.used - Freed(s, order[..c]) + n <= s.max)
    decreases |order| - from
  {
    hide Sum;
    if s.used - Freed(s, order[..from]) + n > s.max && from < |order| {
      EvictCountLeast(s, n, order, from + 1);
    }
  }

  lemma RefusedKeeps(s: State, t: nat)
    requires Inv(s) && t < |s.threads| && s.threads[t].Extracting? && PhaseOk(s, s.threads[t])
    ensures var up := s.threads[t].up; Inv(SetPhase(s, t, Discarding(StagedBytes(up), up.reserved)))
  {
    hide Sum;
    var up := s.threads[t].up;
    StagedWithinReserved(up);
    MoveKeepsInv(s, t, Discarding(StagedBytes(up), up.reserved), SetPhase(s, t, Discarding(StagedBytes(up), up.reserved)));
  }

  lemma ClaimedKeeps(s: State, t: nat)
    requires Shape(s) && Ledger(s) && t < |s.threads| && s.threads[t].Extracting? && PhaseOk(s, s.threads[t])
    requires s.threads[t].up.done < |s.threads[t].up.archive|
    ensures Shape(Claimed(s, t)) && Ledger(Claimed(s, t))
  {
    hide Sum;
    MoveKeepsShape(s, t, Claimed(s, t).threads[t], Claimed(s, t));
  }

  lemma EvictionKeeps(s: State, t: nat, keys: seq<Key>)
    requires Inv(s) && t < |s.threads| && s.threads[t].Extracting? && PhaseOk(s, s.threads[t])
    requires s.threads[t].up.done < |s.threads[t].up.archive| && AllUnread(s, keys)
    requires var up := s.threads[t].up; s.used - Freed(s, keys) + up.archive[up.done].declared <= s.max
    ensures Inv(RetireAll(Claimed(s, t), t, keys))
  {
    hide Shape, Ledger, Budget, PhaseOk;
    var up, s1 := s.threads[t].up, Claimed(s, t);
    ClaimedKeeps(s, t);
    forall k | k in keys ensures KeySize(s)(k) == KeySize(s1)(k) && Unread(s1, k) { assert Unread(s, k); }
    RetireAllKeeps(s1, t, keys);
    FreedFrame(s, s1, keys);
    var s' := RetireAll(s1, t, keys);
    assert s'.threads == s.threads[t := s'.threads[t]];
    ReserveKeepsBudget(s, t, s', up.archive[up.done].declared, Freed(s, keys));
  }

  lemma ReserveKeeps(s: State, step: Step)
    requires Inv(s) && step.ReserveNext? && Enabled(s, step)
    ensures Inv(Apply(s, step))
  {
    var t, up := step.t, s.threads[step.t].up;
    var n := up.archive[up.done].declared;
    assert PhaseOk(s, s.threads[t]);
    hide Inv, PhaseOk, RetireAll;
    match Reserve(s, n, step.order)
    case Full => RefusedKeeps(s, t);
    case Fits =>
      EvictionKeeps(s, t, []);
      NothingRetired(Claimed(s, t), t);
    case Evicts(keys) =>
      PrefixUnread(s, up.key, step.order, EvictCount(s, n, step.order, 0));
      EvictionKeeps(s, t, keys);
  }

  lemma ReserveKeepsBudget(s: State, t: nat, s': State, n: nat, freed: int)
    requires Budget(s) && t < |s.threads| && s.threads[t].Extracting?
    requires |s'.threads| == |s.threads| && s'.threads == s.threads[t := s'.threads[t]]
    requires s'.threads[t].Evicting? && s'.threads[t].claim == n && Due(s'.threads[t]) == freed
    requires s'.used == s.used + n && s'.max == s.max && s.used - freed + n <= s.max
    ensures Budget(s')
  {
    hide Sum;
    ThreadMoves(s, t, s'.threads[t]);
    ShortWithinClaims(s);
  }

  // ----- install

  lemma NobodyKnows(s: State, i: nat)
    requires Shape(s) && i == |s.sets|
    ensures Sum(s.threads, Owns(i)) == 0 && Sum(s.threads, Reads(i)) == 0
  {
    hide Sum;
    forall p | p in s.threads ensures Owns(i)(p) == 0 && Reads(i)(p) == 0 {
      var t: nat :| t < |s.threads| && s.threads[t] == p;
      assert PhaseOk(s, s.threads[t]);
      OwnerCounts(s, t, i);
    }
    SumZero(s.threads, Owns(i));
    SumZero(s.threads, Reads(i));
  }

  ghost predicate NewAndWhole(s: State, a: AssetSet) {
    && a.key !in s.current
    && !a.stale && !a.deducted && a.readers == 0 && a.dir == Present(a.files) && Bytes(a.files) == a.size
  }

  lemma EnterSetKeepsSets(s: State, a: AssetSet, i: nat)
    requires Shape(s) && NewAndWhole(s, a) && i <= |s.sets|
    ensures SetOk(EnterSet(s, a), i)
  {
    hide Sum;
    if i < |s.sets| { assert SetOk(s, i); } else { NobodyKnows(s, i); }
  }

  lemma EnterSetKeepsPhase(s: State, a: AssetSet, p: Phase)
    requires PhaseOk(s, p)
    ensures PhaseOk(EnterSet(s, a), p)
  {}

  lemma EnterSetKeeps(s: State, a: AssetSet)
    requires Shape(s) && Ledger(s) && NewAndWhole(s, a)
    ensures Shape(EnterSet(s, a)) && Ledger(EnterSet(s, a))
  {
    hide Sum;
    hide SetOk, PhaseOk;
    var s' := EnterSet(s, a);
    SumAppend(s.sets, a, Charged);
    SumAppend(s.sets, a, Retiring);
    forall i: nat | i < |s'.sets| ensures SetOk(s', i) { EnterSetKeepsSets(s, a, i); }
    forall t: nat | t < |s'.threads| ensures PhaseOk(s', s'.threads[t]) { EnterSetKeepsPhase(s, a, s.threads[t]); }
  }

  /** Retiring a set that is still read leaves it to its last reader. */
  lemma RetireReadKeeps(s: State, t: nat, key: Key)
    requires Shape(s) && Ledger(s) && t < |s.threads| && key in s.current && s.sets[s.current[key]].readers != 0
    ensures Shape(RetireLocked(s, key)) && Ledger(RetireLocked(s, key))
  {
    hide Sum;
    var s', i := RetireLocked(s, key), s.current[key];
    assert SetOk(s, i) && PhaseOk(s, s.threads[t]);
    SetChanges(s, i, s'.sets[i]);
    OneSetMoves(s, s', t, i);
  }

  lemma ReplaceKeeps(s: State, t: nat, key: Key)
    requires Shape(s) && Ledger(s) && t < |s.threads| && s.threads[t].Removing?
    ensures Shape(Replace(s, t, key)) && Ledger(Replace(s, t, key))
    ensures key !in Replace(s, t, key).current
  {
    hide Sum;
    if key in s.current {
      if s.sets[s.current[key]].readers == 0 { RetireIntoKeeps(s, t, key); } else { RetireReadKeeps(s, t, key); }
    }
  }

  lemma StagedKeeps(s: State, t: nat, up: Upload)
    requires Shape(s) && Ledger(s) && t < |s.threads| && s.threads[t] == Extracting(up)
    ensures var staged := SetPhase(s, t, Removing([])).(used := s.used - up.reserved); Shape(staged) && Ledger(staged)
  {
    hide Sum;
    MoveKeepsShape(s, t, Removing([]), SetPhase(s, t, Removing([])).(used := s.used - up.reserved));
  }

  lemma EnterNewKeeps(s: State, up: Upload, now: int)
    requires Shape(s) && Ledger(s) && up.key !in s.current && Bytes(up.staged) == up.total
    ensures Shape(EnterSet(s, NewSet(up, now))) && Ledger(EnterSet(s, NewSet(up, now)))
  {
    hide Sum;
    EnterSetKeeps(s, NewSet(up, now));
  }

  lemma InstallKeepsShape(s: State, t: nat, now: int)
    requires Shape(s) && Ledger(s) && t < |s.threads| && s.threads[t].Extracting?
    requires Bytes(s.threads[t].up.staged) == s.threads[t].up.total
    ensures Shape(DoInstall(s, t, now)) && Ledger(DoInstall(s, t, now))
  {
    hide Sum;
    hide Shape, Ledger;
    var up := s.threads[t].up;
    var staged := SetPhase(s, t, Removing([])).(used := s.used - up.reserved);
    StagedKeeps(s, t, up);
    ReplaceKeeps(staged, t, up.key);
    EnterNewKeeps(Replace(staged, t, up.key), up, now);
  }

  lemma ReplaceFrame(s: State, t: nat, key: Key)
    requires t < |s.threads| && s.threads[t].Removing?
    ensures var s' := Replace(s, t, key);
      && |s'.threads| == |s.threads| && s'.threads == s.threads[t := s'.threads[t]] && s'.threads[t].Removing?
      && s'.used == s.used && s'.max == s.max
  {}

  lemma InstallKeepsBudget(s: State, t: nat, now: int)
    requires Budget(s) && t < |s.threads| && s.threads[t].Extracting?
    requires s.threads[t].up.total <= s.threads[t].up.reserved
    ensures Budget(DoInstall(s, t, now))
  {
    hide Sum;
    var up, s' := s.threads[t].up, DoInstall(s, t, now);
    var staged := SetPhase(s, t, Removing([])).(used := s.used - up.reserved);
    ReplaceFrame(staged, t, up.key);
    assert s'.threads == s.threads[t := s'.threads[t]];
    ThreadMoves(s, t, s'.threads[t]);
  }

  lemma InstallKeeps(s: State, step: Step)
    requires Inv(s) && step.Install? && Enabled(s, step)
    ensures Inv(Apply(s, step))
  {
    hide Sum;
    var up := s.threads[step.t].up;
    assert PhaseOk(s, s.threads[step.t]);
    StagedWithinReserved(up);
    InstallKeepsShape(s, step.t, step.now);
    InstallKeepsBudget(s, step.t, step.now);
  }

  // ----- all steps

  lemma StepKeeps(s: State, step: Step)
    requires Inv(s) && Enabled(s, step)
    ensures Inv(Apply(s, step))
  {
    hide Inv, Enabled;
    match step
    case Acquire(_, _, _, _) => AcquireKeeps(s, step);
    case Release(_) => ReleaseKeeps(s, step);
    case DeleteSome(_, _) => DeleteSomeKeeps(s, step);
    case Deduct(_) => DeductKeeps(s, step);
    case RemoveReturns(t) => RemoveReturnsKeeps(s, t);
    case StartPut(_, _, _, _) => StartPutKeeps(s, step);
    case ReserveNext(_, _) => ReserveKeeps(s, step);
    case WriteChunk(_, _) => WriteChunkKeeps(s, step);
    case EndMember(_) => EndMemberKeeps(s, step);
    case Abandon(_) => AbandonKeeps(s, step);
    case Install(_, _) => InstallKeeps(s, step);
    case DiscardSome(_, _) => DiscardKeeps(s, step);
    case Unreserve(_) => UnreserveKeeps(s, step);
  }
}

/** What every step of the asset cache keeps. */
module AssetCacheInvariant {
  import opened Sums
  import opened AssetCacheModel

  // ----- measures of a thread

  const VictimSize: Victim -> int := (v: Victim) => v.size

  /** Budget bytes an upload has claimed and not given back or turned into a set. */
  const Reserved: Phase -> int := (p: Phase) =>
    match p
    case Extracting(up) => up.reserved
    case Writing(up) => up.reserved
    case Evicting(up, claim, _) => up.reserved + claim
    case Discarding(_, reserved) => reserved
    case Unreserving(reserved) => reserved
    case _ => 0

  /** The claim of a `reserve` that has not returned. */
  const Claim: Phase -> int := (p: Phase) => if p.Evicting? then p.claim else 0

  /** Evicted or retired bytes the thread has still to give back. */
  const Due: Phase -> int := (p: Phase) => Sum(Gone(p), VictimSize)

  /** The part of a pending claim that its own victims do not pay for. */
  const Short: Phase -> int := (p: Phase) => if p.Evicting? && p.claim > Due(p) then p.claim - Due(p) else 0

  /** File bytes in the thread's staging directory. */
  const Staged: Phase -> int := (p: Phase) =>
    match p
    case Extracting(up) => StagedBytes(up)
    case Writing(up) => StagedBytes(up)
    case Evicting(up, _, _) => StagedBytes(up)
    case Discarding(left, _) => left
    case _ => 0

  function Is(i: nat): Victim -> int { (v: Victim) => if v.id == i then 1 else 0 }

  /** How often the thread lists set i for removal. */
  function Owns(i: nat): Phase -> int { (p: Phase) => Sum(Gone(p), Is(i)) }

  function Reads(i: nat): Phase -> int { (p: Phase) => if p == Reading(i) then 1 else 0 }

  // ----- measures of a set

  const Charged: AssetSet -> int := (a: AssetSet) => if a.deducted then 0 else a.size

  predicate Doomed(a: AssetSet) { a.stale && a.readers == 0 && !a.deducted }

  const Retiring: AssetSet -> int := (a: AssetSet) => if Doomed(a) then a.size else 0

  const OnDisk: AssetSet -> int := (a: AssetSet) => DirBytes(a.dir)

  /** Every file byte under the cache directory: sets and staging directories. */
  function FileBytes(s: State): int { Sum(s.sets, OnDisk) + Sum(s.threads, Staged) }

  // ----- the invariant

  /** The finished members are on disk as the reader yielded them, and counted. */
  ghost predicate UploadOk(up: Upload) {
    && TarYields(up.archive) && up.done <= |up.archive|
    && up.reserved == DeclaredBytes(up.archive[..up.done])
    && up.staged == Contents(up.archive[..up.done])
    && up.total == DataBytes(up.archive[..up.done])
  }

  /** Besides, the open file is the start of the next member. */
  ghost predicate WritingOk(up: Upload) {
    && TarYields(up.archive) && up.done < |up.archive|
    && up.reserved == DeclaredBytes(up.archive[..up.done]) + up.archive[up.done].declared
    && |up.staged| == up.done + 1
    && up.staged[..up.done] == Contents(up.archive[..up.done])
    && up.staged[up.done].name == up.archive[up.done].name
    && up.staged[up.done].data <= up.archive[up.done].data
    && up.total == DataBytes(up.archive[..up.done])
  }

  ghost predicate PhaseOk(s: State, p: Phase) {
    && (forall v :: v in Gone(p) ==> v.id < |s.sets| && v.size == s.sets[v.id].size && Doomed(s.sets[v.id]))
    && match p
       case Reading(id) => id < |s.sets|
       case Extracting(up) => UploadOk(up)
       case Evicting(up, claim, _) => UploadOk(up) && up.done < |up.archive| && claim == up.archive[up.done].declared
       case Writing(up) => WritingOk(up)
       case Discarding(left, reserved) => left <= reserved
       case _ => true
  }

  /** One set: its counters are those of the threads, its directory is whole until nobody can read it. */
  ghost predicate SetOk(s: State, i: nat)
    requires i < |s.sets|
  {
    var a := s.sets[i];
    && a.readers == Sum(s.threads, Reads(i))
    && Sum(s.threads, Owns(i)) == (if Doomed(a) then 1 else 0)
    && (a.deducted ==> a.stale && a.readers == 0 && a.dir.Absent?)
    && (!(a.stale && a.readers == 0) ==> a.dir == Present(a.files))
    && Bytes(a.files) == a.size
    && DirBytes(a.dir) <= a.size
    && (!a.stale <==> a.key in s.current && s.current[a.key] == i)
  }

  ghost predicate MapOk(s: State) {
    forall k :: k in s.current ==> s.current[k] < |s.sets| && s.sets[s.current[k]].key == k
  }

  ghost predicate Shape(s: State) {
    && MapOk(s)
    && (forall t: nat :: t < |s.threads| ==> PhaseOk(s, s.threads[t]))
    && (forall i: nat :: i < |s.sets| ==> SetOk(s, i))
  }

  /** The counter: sets not yet deducted plus what uploads hold; and the due lists cover the doomed sets. */
  ghost predicate Ledger(s: State) {
    && s.used == Sum(s.sets, Charged) + Sum(s.threads, Reserved)
    && Sum(s.threads, Due) == Sum(s.sets, Retiring)
  }

  /** Without the pending claims, and with what their victims do not pay for, the counter fits. */
  ghost predicate Budget(s: State) {
    s.used - Sum(s.threads, Claim) + Sum(s.threads, Short) <= s.max
  }

  ghost predicate Inv(s: State) { Shape(s) && Ledger(s) && Budget(s) }

  // ----- one thread moves

  lemma ThreadMoves(s: State, t: nat, p: Phase)
    requires t < |s.threads|
    ensures Sum(s.threads[t := p], Reserved) == Sum(s.threads, Reserved) - Reserved(s.threads[t]) + Reserved(p)
    ensures Sum(s.threads[t := p], Due) == Sum(s.threads, Due) - Due(s.threads[t]) + Due(p)
    ensures Sum(s.threads[t := p], Claim) == Sum(s.threads, Claim) - Claim(s.threads[t]) + Claim(p)
    ensures Sum(s.threads[t := p], Short) == Sum(s.threads, Short) - Short(s.threads[t]) + Short(p)
  {
    SumUpdate(s.threads, t, p, Reserved);
    SumUpdate(s.threads, t, p, Due);
    SumUpdate(s.threads, t, p, Claim);
    SumUpdate(s.threads, t, p, Short);
  }

  lemma CountsMove(s: State, t: nat, p: Phase, i: nat)
    requires t < |s.threads|
    ensures Sum(s.threads[t := p], Owns(i)) == Sum(s.threads, Owns(i)) - Owns(i)(s.threads[t]) + Owns(i)(p)
    ensures Sum(s.threads[t := p], Reads(i)) == Sum(s.threads, Reads(i)) - Reads(i)(s.threads[t]) + Reads(i)(p)
  {
    SumUpdate(s.threads, t, p, Owns(i));
    SumUpdate(s.threads, t, p, Reads(i));
  }

  lemma SetChanges(s: State, i: nat, a: AssetSet)
    requires i < |s.sets|
    ensures Sum(s.sets[i := a], Charged) == Sum(s.sets, Charged) - Charged(s.sets[i]) + Charged(a)
    ensures Sum(s.sets[i := a], Retiring) == Sum(s.sets, Retiring) - Retiring(s.sets[i]) + Retiring(a)
  {
    SumUpdate(s.sets, i, a, Charged);
    SumUpdate(s.sets, i, a, Retiring);
  }

  /** A thread that lists set i owns it at least once. */
  lemma OwnerCounts(s: State, t: nat, i: nat)
    requires t < |s.threads|
    ensures 0 <= Owns(i)(s.threads[t]) <= Sum(s.threads, Owns(i))
    ensures (exists v :: v in Gone(s.threads[t]) && v.id == i) <==> Owns(i)(s.threads[t]) > 0
  {
    forall p: Phase ensures Owns(i)(p) >= 0 && ((exists v :: v in Gone(p) && v.id == i) <==> Owns(i)(p) > 0) {
      var gone := Gone(p);
      SumMono(gone, (v: Victim) => 0, Is(i));
      SumZero(gone, (v: Victim) => 0);
      if exists v :: v in gone && v.id == i {
        var k: nat :| k < |gone| && gone[k].id == i;
        SumAtLeast(gone, k, Is(i));
      } else {
        SumZero(gone, Is(i));
      }
    }
    SumAtLeast(s.threads, t, Owns(i));
  }

  lemma ReaderCounts(s: State, t: nat, i: nat)
    requires t < |s.threads| && s.threads[t] == Reading(i)
    ensures Sum(s.threads, Reads(i)) >= 1
  {
    SumAtLeast(s.threads, t, Reads(i));
  }
}

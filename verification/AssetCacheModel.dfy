/**
 The asset cache of internal/serve/cache.go as a machine of interleaved threads.
 One step is the code between two lock operations, or one visible effect on the
 disk. Any number of lints and uploads run at once; `Exec` follows one
 interleaving of them.
 */
module AssetCacheModel {
  import opened Sums

  type Key = string
  type Fingerprint = string

  datatype File = File(name: string, data: seq<bv8>)

  /** A regular member of an uploaded archive: its header size and what the tar reader yields for it. */
  datatype Member = Member(name: string, declared: nat, data: seq<bv8>)

  datatype Dir = Absent | Present(files: seq<File>)

  /** A `cacheEntry` and its directory. Directory names are fresh, so a set is named by its index. */
  datatype AssetSet = AssetSet(
    key: Key,
    fingerprint: Fingerprint,
    files: seq<File>,   // what the upload put there
    size: nat,
    lastUsed: int,
    readers: int,
    stale: bool,
    dir: Dir,           // what the directory holds now
    deducted: bool)     // its bytes were returned to the budget

  /** A retired set in the list `remove` works through. */
  datatype Victim = Victim(id: nat, size: nat)

  /** A `put` call and its staging directory. */
  datatype Upload = Upload(
    key: Key,
    fingerprint: Fingerprint,
    archive: seq<Member>,   // what the body will yield
    done: nat,              // members read to their end
    staged: seq<File>,      // the files on disk; while one is written it is the last
    total: nat,             // bytes the finished files took, as counted while copying
    reserved: nat)

  datatype Phase =
    | Idle
    | Reading(id: nat)                                          // between acquire and release
    | Removing(gone: seq<Victim>)                               // remove, called by release or install
    | Extracting(up: Upload)                                    // at an archive header
    | Evicting(up: Upload, claim: nat, gone: seq<Victim>)       // reserve claimed and removes what it evicted
    | Writing(up: Upload)                                       // copying member `done` into its file
    | Discarding(left: nat, reserved: nat)                      // deleting the staging directory of a failed upload
    | Unreserving(reserved: nat)

  datatype State = State(
    max: nat,
    used: int,
    current: map<Key, nat>,   // the `entries` map
    sets: seq<AssetSet>,      // every set ever installed
    threads: seq<Phase>)

  // ----- bytes

  const FileSize: File -> int := (f: File) => |f.data|
  const DataSize: Member -> int := (m: Member) => |m.data|
  const DeclaredSize: Member -> int := (m: Member) => m.declared

  function Bytes(files: seq<File>): int { Sum(files, FileSize) }

  function DirBytes(d: Dir): int { if d.Present? then Bytes(d.files) else 0 }

  function Contents(archive: seq<Member>): seq<File> {
    seq(|archive|, i requires 0 <= i < |archive| => File(archive[i].name, archive[i].data))
  }

  function DataBytes(archive: seq<Member>): int { Sum(archive, DataSize) }

  function DeclaredBytes(archive: seq<Member>): int { Sum(archive, DeclaredSize) }

  /** The tar reader never yields more than the header declares. */
  ghost predicate TarYields(archive: seq<Member>) {
    forall m :: m in archive ==> |m.data| <= m.declared
  }

  lemma BytesNonNegative(files: seq<File>)
    ensures 0 <= Bytes(files)
  {
    SumMono(files, (f: File) => 0, FileSize);
    SumZero(files, (f: File) => 0);
  }

  function StagedBytes(up: Upload): (n: nat)
    ensures n == Bytes(up.staged)
  {
    BytesNonNegative(up.staged);
    Bytes(up.staged)
  }

  /** The file being written gets the reader's next n bytes. */
  function AppendToLast(up: Upload, n: nat): Upload
    requires up.done < |up.archive| && up.staged != []
    requires |up.staged[|up.staged| - 1].data| + n <= |up.archive[up.done].data|
  {
    var last := |up.staged| - 1;
    var f := up.staged[last];
    up.(staged := up.staged[last := f.(data := f.data + up.archive[up.done].data[|f.data|..|f.data| + n])])
  }

  /** `reserve` has returned with its claim: the member's file is created, empty. */
  function Opened(up: Upload, claim: nat): Upload
    requires up.done < |up.archive|
  {
    up.(reserved := up.reserved + claim, staged := up.staged + [File(up.archive[up.done].name, [])])
  }

  /** Bytes the open file holds so far. */
  function Written(up: Upload): nat
    requires up.staged != []
  {
    |up.staged[|up.staged| - 1].data|
  }

  // ----- reserve

  function KeySize(s: State): Key -> int {
    k => if k in s.current && s.current[k] < |s.sets| then s.sets[s.current[k]].size else 0
  }

  function Freed(s: State, keys: seq<Key>): int { Sum(keys, KeySize(s)) }

  ghost predicate Unread(s: State, k: Key) {
    k in s.current && s.current[k] < |s.sets| && s.sets[s.current[k]].readers == 0
  }

  ghost predicate Before(s: State, key: Key, a: Key, b: Key)
    requires Unread(s, a) && Unread(s, b)
  {
    a != key && (b == key || s.sets[s.current[a]].lastUsed <= s.sets[s.current[b]].lastUsed)
  }

  /** `order` is the unread entries as the sort leaves them: least recently used first, key's own entry last. */
  ghost predicate LruOrder(s: State, key: Key, order: seq<Key>) {
    && (forall k :: k in order <==> Unread(s, k))
    && (forall i, j :: 0 <= i < j < |order| ==> order[i] != order[j] && Before(s, key, order[i], order[j]))
  }

  function EvictCount(s: State, n: nat, order: seq<Key>, from: nat): (e: nat)
    requires from <= |order|
    ensures from <= e <= |order|
    decreases |order| - from
  {
    if s.used - Freed(s, order[..from]) + n > s.max && from < |order|
    then EvictCount(s, n, order, from + 1) else from
  }

  datatype Reservation = Fits | Evicts(keys: seq<Key>) | Full

  function Reserve(s: State, n: nat, order: seq<Key>): Reservation {
    if s.used + n <= s.max then Fits else
      var e := EvictCount(s, n, order, 0);
      if s.used - Freed(s, order[..e]) + n > s.max then Full else Evicts(order[..e])
  }

  // ----- small state changes

  function Gone(p: Phase): seq<Victim> {
    match p
    case Removing(gone) => gone
    case Evicting(_, _, gone) => gone
    case _ => []
  }

  function WithGone(p: Phase, gone: seq<Victim>): Phase {
    match p
    case Removing(_) => Removing(gone)
    case Evicting(up, claim, _) => Evicting(up, claim, gone)
    case _ => p
  }

  function SetPhase(s: State, t: nat, p: Phase): State
    requires t < |s.threads|
  {
    s.(threads := s.threads[t := p])
  }

  function SetSet(s: State, i: nat, a: AssetSet): State
    requires i < |s.sets|
  {
    s.(sets := s.sets[i := a])
  }

  predicate Holds(s: State, key: Key, fingerprint: Fingerprint) {
    key in s.current && s.current[key] < |s.sets| && s.sets[s.current[key]].fingerprint == fingerprint
  }

  /** `retireLocked`: key's set leaves the map and goes stale. */
  function RetireLocked(s: State, key: Key): State
    requires key in s.current && s.current[key] < |s.sets|
  {
    var i := s.current[key];
    SetSet(s, i, s.sets[i].(stale := true)).(current := s.current - {key})
  }

  /** Retires key's set and puts it on the list thread t removes. */
  function RetireInto(s: State, t: nat, key: Key): State
    requires t < |s.threads| && key in s.current && s.current[key] < |s.sets|
  {
    var i := s.current[key];
    SetPhase(RetireLocked(s, key), t, WithGone(s.threads[t], Gone(s.threads[t]) + [Victim(i, s.sets[i].size)]))
  }

  function RetireAll(s: State, t: nat, keys: seq<Key>): (s': State)
    requires t < |s.threads|
    ensures |s'.threads| == |s.threads| && |s'.sets| == |s.sets| && s'.max == s.max && s'.used == s.used
    decreases |keys|
  {
    if keys == [] then s
    else if keys[0] in s.current && s.current[keys[0]] < |s.sets| then RetireAll(RetireInto(s, t, keys[0]), t, keys[1..])
    else RetireAll(s, t, keys[1..])
  }

  lemma RetireAllNext(s: State, t: nat, keys: seq<Key>)
    requires t < |s.threads| && keys != [] && keys[0] in s.current && s.current[keys[0]] < |s.sets|
    ensures RetireAll(s, t, keys) == RetireAll(RetireInto(s, t, keys[0]), t, keys[1..])
    ensures RetireInto(s, t, keys[0]).threads[t].Evicting? <==> s.threads[t].Evicting?
  {}

  lemma NothingRetired(s: State, t: nat)
    requires t < |s.threads|
    ensures RetireAll(s, t, []) == s
  {}

  // ----- steps

  datatype Step =
    | Acquire(t: nat, key: Key, fingerprint: Fingerprint, now: int)
    | Release(t: nat)
    | DeleteSome(t: nat, left: Dir)      // RemoveAll of the first listed directory gets on
    | Deduct(t: nat)                     // its bytes return to the budget
    | RemoveReturns(t: nat)
    | StartPut(t: nat, key: Key, fingerprint: Fingerprint, archive: seq<Member>)
    | ReserveNext(t: nat, order: seq<Key>)
    | WriteChunk(t: nat, n: nat)
    | EndMember(t: nat)
    | Abandon(t: nat)                    // any error ends the upload
    | Install(t: nat, now: int)
    | DiscardSome(t: nat, n: nat)
    | Unreserve(t: nat)

  ghost predicate Enabled(s: State, step: Step) {
    step.t < |s.threads| &&
    var p := s.threads[step.t];
    match step
    case Acquire(_, _, _, _) => p.Idle?
    case Release(_) => p.Reading? && p.id < |s.sets|
    case DeleteSome(_, left) =>
      && |Gone(p)| > 0 && Gone(p)[0].id < |s.sets| && s.sets[Gone(p)[0].id].dir.Present?
      && DirBytes(left) <= DirBytes(s.sets[Gone(p)[0].id].dir)
    case Deduct(_) => |Gone(p)| > 0 && Gone(p)[0].id < |s.sets| && s.sets[Gone(p)[0].id].dir.Absent?
    case RemoveReturns(_) => (p.Removing? || (p.Evicting? && p.up.done < |p.up.archive|)) && |Gone(p)| == 0
    case StartPut(_, _, _, archive) => p.Idle? && TarYields(archive)
    case ReserveNext(_, order) =>
      && p.Extracting? && p.up.done < |p.up.archive| && LruOrder(s, p.up.key, order)
      && p.up.archive[p.up.done].declared <= s.max - p.up.total
    case WriteChunk(_, n) =>
      p.Writing? && p.up.done < |p.up.archive| && p.up.staged != [] && Written(p.up) + n <= |p.up.archive[p.up.done].data|
    case EndMember(_) =>
      p.Writing? && p.up.done < |p.up.archive| && p.up.staged != [] && Written(p.up) == |p.up.archive[p.up.done].data|
    case Abandon(_) => p.Extracting? || p.Writing?
    case Install(_, _) => p.Extracting? && p.up.done == |p.up.archive|
    case DiscardSome(_, n) => p.Discarding? && n <= p.left
    case Unreserve(_) => p.Unreserving?
  }

  function DoRelease(s: State, t: nat): State
    requires t < |s.threads| && s.threads[t].Reading? && s.threads[t].id < |s.sets|
  {
    var i := s.threads[t].id;
    var a := s.sets[i].(readers := s.sets[i].readers - 1);
    SetPhase(SetSet(s, i, a), t, Removing(if a.stale && a.readers == 0 then [Victim(i, a.size)] else []))
  }

  /** The thread's claim is in the counter, its victims are not yet chosen. */
  function Claimed(s: State, t: nat): State
    requires t < |s.threads| && s.threads[t].Extracting? && s.threads[t].up.done < |s.threads[t].up.archive|
  {
    var up := s.threads[t].up;
    var n := up.archive[up.done].declared;
    SetPhase(s.(used := s.used + n), t, Evicting(up, n, []))
  }

  function DoReserve(s: State, t: nat, order: seq<Key>): State
    requires t < |s.threads| && s.threads[t].Extracting? && s.threads[t].up.done < |s.threads[t].up.archive|
  {
    var up := s.threads[t].up;
    var n := up.archive[up.done].declared;
    match Reserve(s, n, order)
    case Fits => Claimed(s, t)
    case Evicts(keys) => RetireAll(Claimed(s, t), t, keys)
    case Full => SetPhase(s, t, Discarding(StagedBytes(up), up.reserved))
  }

  lemma ClaimedThread(s: State, t: nat)
    requires t < |s.threads| && s.threads[t].Extracting? && s.threads[t].up.done < |s.threads[t].up.archive|
    ensures Claimed(s, t).threads[t].Evicting? && Gone(Claimed(s, t).threads[t]) == [] && |Claimed(s, t).threads| == |s.threads|
  {}

  lemma ReserveCases(s: State, t: nat, order: seq<Key>)
    requires t < |s.threads| && s.threads[t].Extracting? && s.threads[t].up.done < |s.threads[t].up.archive|
    ensures var up := s.threads[t].up;
      var n := up.archive[up.done].declared;
      var e := EvictCount(s, n, order, 0);
      && (s.used + n <= s.max ==> Reserve(s, n, order) == Fits && DoReserve(s, t, order) == Claimed(s, t))
      && (s.used + n > s.max && s.used - Freed(s, order[..e]) + n > s.max ==>
            && Reserve(s, n, order) == Full
            && DoReserve(s, t, order) == SetPhase(s, t, Discarding(StagedBytes(up), up.reserved)))
      && (s.used + n > s.max && s.used - Freed(s, order[..e]) + n <= s.max ==>
            && Reserve(s, n, order) == Evicts(order[..e])
            && DoReserve(s, t, order) == RetireAll(Claimed(s, t), t, order[..e]))
  {}

  /** The staging directory, renamed, as `install` enters it. */
  function NewSet(up: Upload, now: int): AssetSet {
    AssetSet(up.key, up.fingerprint, up.staged, up.total, now, 0, false, Present(up.staged), false)
  }

  /** key's entry, if any, is retired: onto the list t removes when nobody reads it, else left to its last reader. */
  function Replace(s: State, t: nat, key: Key): (s': State)
    requires t < |s.threads|
    ensures |s'.threads| == |s.threads|
  {
    if key !in s.current || s.current[key] >= |s.sets| then s
    else if s.sets[s.current[key]].readers == 0 then RetireInto(s, t, key) else RetireLocked(s, key)
  }

  function EnterSet(s: State, a: AssetSet): State {
    s.(current := s.current[a.key := |s.sets|], sets := s.sets + [a], used := s.used + a.size)
  }

  /** `install`: the reserved bytes become the new set's size. */
  function DoInstall(s: State, t: nat, now: int): State
    requires t < |s.threads| && s.threads[t].Extracting?
  {
    var up := s.threads[t].up;
    var staged := SetPhase(s, t, Removing([])).(used := s.used - up.reserved);
    EnterSet(Replace(staged, t, up.key), NewSet(up, now))
  }

  function Apply(s: State, step: Step): State
    requires Enabled(s, step)
  {
    var t := step.t;
    var p := s.threads[t];
    match step
    case Acquire(_, key, fingerprint, now) =>
      if Holds(s, key, fingerprint) then
        var i := s.current[key];
        SetPhase(SetSet(s, i, s.sets[i].(readers := s.sets[i].readers + 1, lastUsed := now)), t, Reading(i))
      else s
    case Release(_) => DoRelease(s, t)
    case DeleteSome(_, left) =>
      var i := Gone(p)[0].id;
      SetSet(s, i, s.sets[i].(dir := left))
    case Deduct(_) =>
      var v := Gone(p)[0];
      SetPhase(SetSet(s.(used := s.used - v.size), v.id, s.sets[v.id].(deducted := true)), t, WithGone(p, Gone(p)[1..]))
    case RemoveReturns(_) =>
      SetPhase(s, t, if p.Evicting? then Writing(Opened(p.up, p.claim)) else Idle)
    case StartPut(_, key, fingerprint, archive) =>
      if Holds(s, key, fingerprint) then s else SetPhase(s, t, Extracting(Upload(key, fingerprint, archive, 0, [], 0, 0)))
    case ReserveNext(_, order) => DoReserve(s, t, order)
    case WriteChunk(_, n) => SetPhase(s, t, Writing(AppendToLast(p.up, n)))
    case EndMember(_) => SetPhase(s, t, Extracting(p.up.(done := p.up.done + 1, total := p.up.total + Written(p.up))))
    case Abandon(_) => SetPhase(s, t, Discarding(StagedBytes(p.up), p.up.reserved))
    case Install(_, now) => DoInstall(s, t, now)
    case DiscardSome(_, n) => SetPhase(s, t, if n == p.left then Unreserving(p.reserved) else Discarding(p.left - n, p.reserved))
    case Unreserve(_) => SetPhase(s.(used := s.used - p.reserved), t, Idle)
  }

  // ----- runs

  function Init(max: nat, threads: nat): State {
    State(max, 0, map[], [], seq(threads, _ => Idle))
  }

  ghost predicate Executable(s: State, steps: seq<Step>)
    decreases |steps|
  {
    steps == [] || (Enabled(s, steps[0]) && Executable(Apply(s, steps[0]), steps[1..]))
  }

  ghost function Exec(s: State, steps: seq<Step>): State
    requires Executable(s, steps)
    decreases |steps|
  {
    if steps == [] then s else Exec(Apply(s, steps[0]), steps[1..])
  }
}

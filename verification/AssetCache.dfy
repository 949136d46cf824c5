/**
 `assetCache` of internal/serve/cache.go in its own form: an object whose methods update
 its fields and the entries it points to. Each method is one lock section and carries the
 machine of AssetCacheModel one step on: what is proved of the machine holds of the object.
 */
module AssetCache {
  import opened Sums
  import opened AssetCacheModel

  class CacheEntry {
    const fingerprint: Fingerprint
    const size: nat
    var lastUsed: int
    var readers: int
    var stale: bool

    constructor (fingerprint: Fingerprint, size: nat, lastUsed: int)
      ensures this.fingerprint == fingerprint && this.size == size && this.lastUsed == lastUsed
      ensures readers == 0 && !stale
    {
      this.fingerprint, this.size, this.lastUsed := fingerprint, size, lastUsed;
      readers, stale := 0, false;
    }

    ghost predicate Is(a: AssetSet)
      reads this
    {
      && fingerprint == a.fingerprint && size == a.size
      && lastUsed == a.lastUsed && readers == a.readers && stale == a.stale
    }
  }

  class AssetCache {
    const max: nat
    var entries: map<Key, CacheEntry>
    var used: int
    ghost var log: seq<CacheEntry>   // every entry ever installed

    /** The object is in state s of the machine. */
    ghost predicate In(s: State)
      reads this, log
    {
      && s.max == max && s.used == used && |s.sets| == |log|
      && (forall i, j :: 0 <= i < j < |log| ==> log[i] != log[j])
      && entries.Keys == s.current.Keys
      && (forall k :: k in entries ==> s.current[k] < |log| && entries[k] == log[s.current[k]])
      && (forall i :: 0 <= i < |log| ==> log[i].Is(s.sets[i]))
    }

    /** The entries are those of a thread's list of victims. */
    ghost predicate Lists(gone: seq<CacheEntry>, victims: seq<Victim>)
      reads this
    {
      |gone| == |victims|
      && forall i :: 0 <= i < |gone| ==> victims[i].id < |log| && gone[i] == log[victims[i].id] && gone[i].size == victims[i].size
    }

    constructor (max: nat, ghost threads: nat)
      ensures this.max == max && In(Init(max, threads))
    {
      this.max, entries, used, log := max, map[], 0, [];
    }

    /** A hit is stamped and gains a reader; a miss, or another fingerprint, changes nothing. */
    method Acquire(key: Key, fingerprint: Fingerprint, now: int, ghost s: State, ghost t: nat) returns (e: CacheEntry?)
      requires In(s) && Enabled(s, Step.Acquire(t, key, fingerprint, now))
      modifies log
      ensures In(Apply(s, Step.Acquire(t, key, fingerprint, now)))
      ensures e != null <==> key in entries && entries[key].fingerprint == fingerprint
      ensures e != null ==> e == entries[key] && Apply(s, Step.Acquire(t, key, fingerprint, now)).threads[t] == Reading(s.current[key])
    {
      if key !in entries || entries[key].fingerprint != fingerprint {
        return null;
      }
      e := entries[key];
      e.readers := e.readers + 1;
      e.lastUsed := now;
    }

    /** release: true when the caller was the last reader of a stale entry and must remove it. */
    method Release(e: CacheEntry, ghost s: State, ghost t: nat) returns (remove: bool)
      requires In(s) && Enabled(s, Step.Release(t)) && e == log[s.threads[t].id]
      modifies log
      ensures In(Apply(s, Step.Release(t)))
      ensures Lists(if remove then [e] else [], Gone(Apply(s, Step.Release(t)).threads[t]))
    {
      e.readers := e.readers - 1;
      remove := e.stale && e.readers == 0;
    }

    /** One turn of remove: the directory is gone, its bytes return to the budget. */
    method Deduct(e: CacheEntry, ghost s: State, ghost t: nat)
      requires In(s) && Enabled(s, Step.Deduct(t)) && Lists([e], Gone(s.threads[t])[..1])
      modifies this`used
      ensures In(Apply(s, Step.Deduct(t)))
    {
      used := used - e.size;
    }

    method Unreserve(n: nat, ghost s: State, ghost t: nat)
      requires In(s) && Enabled(s, Step.Unreserve(t)) && n == s.threads[t].reserved
      modifies this`used
      ensures In(Apply(s, Step.Unreserve(t)))
    {
      used := used - n;
    }

    method RetireLocked(key: Key, ghost s: State) returns (e: CacheEntry)
      requires In(s) && key in entries
      modifies this`entries, log
      ensures In(AssetCacheModel.RetireLocked(s, key)) && log == old(log) && used == old(used)
      ensures e == old(entries[key]) && entries == old(entries) - {key}
    {
      e := entries[key];
      entries := entries - {key};
      e.stale := true;
    }

    // ----- reserve

    predicate Less(key: Key, a: Key, b: Key)
      requires a in entries && b in entries
      reads this, entries.Values
    {
      a != key && (b == key || entries[a].lastUsed <= entries[b].lastUsed)
    }

    ghost predicate Sorted(key: Key, order: seq<Key>)
      reads this, entries.Values
    {
      && (forall k :: k in order ==> k in entries)
      && forall i, j :: 0 <= i < j < |order| ==> order[i] != order[j] && Less(key, order[i], order[j])
    }

    /** Everything from position i on comes after k when the element there does not come before it. */
    lemma RestComesAfter(key: Key, order: seq<Key>, k: Key, i: nat, b: nat)
      requires Sorted(key, order) && k in entries && k !in order && i <= b < |order| && !Less(key, order[i], k)
      ensures Less(key, k, order[b])
    {
      assert order[i] in order && order[b] in order;
      if i < b { assert Less(key, order[i], order[b]); }
    }

    lemma InsertPair(key: Key, order: seq<Key>, k: Key, i: nat, a: nat, b: nat)
      requires Sorted(key, order) && k in entries && k !in order && i <= |order|
      requires forall j :: 0 <= j < i ==> Less(key, order[j], k)
      requires i < |order| ==> !Less(key, order[i], k)
      requires a < b <= |order|
      ensures var longer := order[..i] + [k] + order[i..];
        longer[a] in entries && longer[b] in entries && longer[a] != longer[b] && Less(key, longer[a], longer[b])
    {
      if b == i {
        assert order[a] in order;
      } else if a == i {
        assert order[b - 1] in order;
        RestComesAfter(key, order, k, i, b - 1);
      } else {
        var a', b' := if a < i then a else a - 1, if b < i then b else b - 1;
        assert order[a'] in order && order[b'] in order;
      }
    }

    /** Puts k where the sort puts it: behind everything that comes before it. */
    method Insert(key: Key, order: seq<Key>, k: Key) returns (longer: seq<Key>)
      requires Sorted(key, order) && k in entries && k !in order
      ensures Sorted(key, longer) && forall x :: x in longer <==> x in order || x == k
    {
      var i := 0;
      while i < |order| && Less(key, order[i], k)
        invariant i <= |order|
        invariant forall j :: 0 <= j < i ==> Less(key, order[j], k)
      {
        i := i + 1;
      }
      longer := order[..i] + [k] + order[i..];
      assert order == order[..i] + order[i..];
      hide Less;
      forall a, b | 0 <= a < b < |longer| ensures longer[a] != longer[b] && Less(key, longer[a], longer[b]) {
        InsertPair(key, order, k, i, a, b);
      }
    }

    /** The unread entries, least recently used first, key's own last. */
    method Candidates(key: Key) returns (order: seq<Key>)
      ensures Sorted(key, order) && forall k :: k in order <==> k in entries && entries[k].readers == 0
    {
      order := [];
      var rest := entries.Keys;
      while rest != {}
        invariant rest <= entries.Keys && Sorted(key, order)
        invariant forall k :: k in order <==> k in entries.Keys - rest && entries[k].readers == 0
      {
        var k :| k in rest;
        if entries[k].readers == 0 {
          order := Insert(key, order, k);
        }
        rest := rest - {k};
      }
    }
  
    /** The sort's result is an order the machine's `reserve` may use. */
    lemma SortedIsLru(s: State, key: Key, order: seq<Key>)
      requires In(s) && Sorted(key, order)
      requires forall k :: k in order <==> k in entries && entries[k].readers == 0
      ensures LruOrder(s, key, order)
    {
      forall k ensures k in order <==> Unread(s, k) {
        if k in entries { assert log[s.current[k]].Is(s.sets[s.current[k]]); }
      }
      forall i, j | 0 <= i < j < |order| ensures order[i] != order[j] && Before(s, key, order[i], order[j]) {
        assert Less(key, order[i], order[j]);
        assert log[s.current[order[i]]].Is(s.sets[s.current[order[i]]]) && log[s.current[order[j]]].Is(s.sets[s.current[order[j]]]);
      }
    }

    lemma EntrySize(s: State, k: Key)
      requires In(s) && k in entries
      ensures KeySize(s)(k) == entries[k].size
    {
      assert log[s.current[k]].Is(s.sets[s.current[k]]);
    }

    lemma FreedNext(s: State, order: seq<Key>, e: nat)
      requires In(s) && e < |order| && order[e] in entries
      ensures Freed(s, order[..e + 1]) == Freed(s, order[..e]) + entries[order[e]].size
    {
      assert order[..e + 1] == order[..e] + [order[e]];
      SumAppend(order[..e], order[e], KeySize(s));
      EntrySize(s, order[e]);
    }

    /** How many candidates to evict, and what they free: the loop of reserve. */
    method CountVictims(n: nat, candidates: seq<Key>, ghost s: State) returns (evict: nat, freed: int)
      requires In(s) && forall k :: k in candidates ==> k in entries
      ensures evict == EvictCount(s, n, candidates, 0) && freed == Freed(s, candidates[..evict])
    {
      freed, evict := 0, 0;
      assert candidates[..0] == [];
      while used - freed + n > max && evict < |candidates|
        invariant evict <= |candidates| && freed == Freed(s, candidates[..evict])
        invariant EvictCount(s, n, candidates, evict) == EvictCount(s, n, candidates, 0)
      {
        FreedNext(s, candidates, evict);
        freed := freed + entries[candidates[evict]].size;
        evict := evict + 1;
      }
    }

    /** Retires one victim and lists it. */
    method RetireOne(key: Key, listed: seq<CacheEntry>, ghost s: State, ghost t: nat) returns (gone: seq<CacheEntry>)
      requires In(s) && t < |s.threads| && (s.threads[t].Evicting? || s.threads[t].Removing?) && key in entries
      requires Lists(listed, Gone(s.threads[t]))
      modifies this`entries, log
      ensures log == old(log) && used == old(used) && entries == old(entries) - {key}
      ensures In(RetireInto(s, t, key)) && Lists(gone, Gone(RetireInto(s, t, key).threads[t]))
    {
      assert entries[key].Is(s.sets[s.current[key]]);
      var e := RetireLocked(key, s);
      gone := listed + [e];
    }

    /** After i turns of the retiring loop: the machine is at `now`, which the other keys take to the end. */
    ghost predicate Retired(keys: seq<Key>, i: nat, gone: seq<CacheEntry>, now: State, s: State, t: nat)
      reads this, log
    {
      && i <= |keys| && t < |s.threads|
      && In(now) && t < |now.threads| && now.threads[t].Evicting?
      && (forall j :: i <= j < |keys| ==> keys[j] in entries)
      && (forall j, k :: 0 <= j < k < |keys| ==> keys[j] != keys[k])
      && RetireAll(now, t, keys[i..]) == RetireAll(s, t, keys)
      && Lists(gone, Gone(now.threads[t]))
    }

    method RetireNext(keys: seq<Key>, i: nat, listed: seq<CacheEntry>, ghost now: State, ghost s: State, ghost t: nat)
      returns (gone: seq<CacheEntry>, ghost next: State)
      requires i < |keys| && Retired(keys, i, listed, now, s, t)
      modifies this`entries, log
      ensures log == old(log) && used == old(used)
      ensures Retired(keys, i + 1, gone, next, s, t)
    {
      assert keys[i..][1..] == keys[i + 1..];
      assert keys[i] in entries;
      RetireAllNext(now, t, keys[i..]);
      next := RetireInto(now, t, keys[i]);
      hide RetireInto, RetireAll, In, Lists;
      gone := RetireOne(keys[i], listed, now, t);
    }

    /** The retiring loop of reserve. */
    method RetireMany(keys: seq<Key>, ghost s: State, ghost t: nat) returns (gone: seq<CacheEntry>)
      requires In(s) && t < |s.threads| && s.threads[t].Evicting? && s.threads[t].gone == []
      requires forall j :: 0 <= j < |keys| ==> keys[j] in entries
      requires forall j, k :: 0 <= j < k < |keys| ==> keys[j] != keys[k]
      modifies this`entries, log
      ensures log == old(log) && used == old(used)
      ensures In(RetireAll(s, t, keys)) && Lists(gone, Gone(RetireAll(s, t, keys).threads[t]))
    {
      gone := [];
      ghost var now := s;
      assert keys[0..] == keys;
      assert Retired(keys, 0, gone, now, s, t);
      for i := 0 to |keys|
        invariant log == old(log) && used == old(used)
        invariant Retired(keys, i, gone, now, s, t)
      {
        hide Retired;
        gone, now := RetireNext(keys, i, gone, now, s, t);
      }
      assert keys[|keys|..] == [];
      NothingRetired(now, t);
    }

    /** The claim enters the counter. */
    method Claim(n: nat, ghost s: State, ghost t: nat)
      requires In(s) && t < |s.threads| && s.threads[t].Extracting? && s.threads[t].up.done < |s.threads[t].up.archive|
      requires n == s.threads[t].up.archive[s.threads[t].up.done].declared
      modifies this`used
      ensures In(Claimed(s, t)) && Lists([], Gone(Claimed(s, t).threads[t]))
    {
      used := used + n;
    }

    /**
     The lock section of reserve: claims n bytes, taking out of the map the entries that have to
     go for it. The caller deletes those, `gone`, before it writes.
     */
    method Reserve(key: Key, n: nat, ghost s: State, ghost t: nat)
      returns (ok: bool, gone: seq<CacheEntry>, ghost order: seq<Key>)
      requires In(s) && t < |s.threads| && s.threads[t].Extracting? && s.threads[t].up.done < |s.threads[t].up.archive|
      requires key == s.threads[t].up.key && n == s.threads[t].up.archive[s.threads[t].up.done].declared
      modifies this`used, this`entries, log
      ensures log == old(log)
      ensures LruOrder(s, key, order) && In(DoReserve(s, t, order))
      ensures ok <==> !AssetCacheModel.Reserve(s, n, order).Full?
      ensures Lists(gone, Gone(DoReserve(s, t, order).threads[t]))
    {
      hide LruOrder, EvictCount, Freed, Claimed, Gone, RetireAll, Lists;
      var candidates := Candidates(key);
      order := candidates;
      SortedIsLru(s, key, order);
      ReserveCases(s, t, order);
      hide DoReserve, AssetCacheModel.Reserve;
      if used + n <= max {
        Claim(n, s, t);
        return true, [], order;
      }
      ok, gone := ReserveShort(n, candidates, s, t);
    }

    /** reserve when the budget is short. */
    method ReserveShort(n: nat, candidates: seq<Key>, ghost s: State, ghost t: nat) returns (ok: bool, gone: seq<CacheEntry>)
      requires In(s) && t < |s.threads| && s.threads[t].Extracting? && s.threads[t].up.done < |s.threads[t].up.archive|
      requires n == s.threads[t].up.archive[s.threads[t].up.done].declared && used + n > max
      requires forall k :: k in candidates ==> k in entries
      requires forall i, j :: 0 <= i < j < |candidates| ==> candidates[i] != candidates[j]
      modifies this`used, this`entries, log
      ensures log == old(log)
      ensures In(DoReserve(s, t, candidates))
      ensures ok <==> !AssetCacheModel.Reserve(s, n, candidates).Full?
      ensures Lists(gone, Gone(DoReserve(s, t, candidates).threads[t]))
    {
      ReserveCases(s, t, candidates);
      hide DoReserve, AssetCacheModel.Reserve, EvictCount, Freed, Claimed, Gone, RetireAll, Lists;
      var evict, freed := CountVictims(n, candidates, s);
      if used - freed + n > max {
        Refused(s, t);
        return false, [];
      }
      gone := ClaimAndRetire(n, candidates[..evict], s, t);
      ok := true;
    }

    /** The claim of a reserve that evicts these keys. */
    method ClaimAndRetire(n: nat, keys: seq<Key>, ghost s: State, ghost t: nat) returns (gone: seq<CacheEntry>)
      requires In(s) && t < |s.threads| && s.threads[t].Extracting? && s.threads[t].up.done < |s.threads[t].up.archive|
      requires n == s.threads[t].up.archive[s.threads[t].up.done].declared
      requires forall j :: 0 <= j < |keys| ==> keys[j] in entries
      requires forall i, j :: 0 <= i < j < |keys| ==> keys[i] != keys[j]
      modifies this`used, this`entries, log
      ensures log == old(log)
      ensures In(RetireAll(Claimed(s, t), t, keys)) && Lists(gone, Gone(RetireAll(Claimed(s, t), t, keys).threads[t]))
    {
      ClaimedThread(s, t);
      hide RetireAll, Lists;
      Claim(n, s, t);
      hide In, Claimed, Gone;
      gone := RetireMany(keys, Claimed(s, t), t);
    }

    lemma Refused(s: State, t: nat)
      requires In(s) && t < |s.threads| && s.threads[t].Extracting? && s.threads[t].up.done < |s.threads[t].up.archive|
      ensures var up := s.threads[t].up;
        var s' := SetPhase(s, t, Discarding(StagedBytes(up), up.reserved));
        In(s') && Lists([], Gone(s'.threads[t]))
    {}

    // ----- install

    /** The replaced entry of key, if any: listed for removal unless a lint still reads it. */
    method ReplaceEntry(key: Key, ghost s: State, ghost t: nat) returns (gone: seq<CacheEntry>)
      requires In(s) && t < |s.threads| && s.threads[t] == Phase.Removing([])
      modifies this`entries, log
      ensures log == old(log) && used == old(used)
      ensures In(Replace(s, t, key)) && Lists(gone, Gone(Replace(s, t, key).threads[t]))
    {
      gone := [];
      if key in entries {
        assert entries[key].Is(s.sets[s.current[key]]);
        var e := RetireLocked(key, s);
        if e.readers == 0 {
          gone := [e];
        }
      }
    }

    method EnterEntry(key: Key, fingerprint: Fingerprint, size: nat, now: int,
                      ghost s: State, ghost a: AssetSet, ghost gone: seq<CacheEntry>, ghost victims: seq<Victim>)
      requires In(s) && Lists(gone, victims)
      requires a.key == key && a.fingerprint == fingerprint && a.size == size && a.lastUsed == now && a.readers == 0 && !a.stale
      modifies this
      ensures In(EnterSet(s, a)) && Lists(gone, victims)
    {
      var e := new CacheEntry(fingerprint, size, now);
      entries := entries[key := e];
      used := used + size;
      log := log + [e];
      forall i | 0 <= i < |s.sets| ensures log[i].Is(s.sets[i]) {
        assert old(log[i].Is(s.sets[i]));
      }
    }

    method Swap(key: Key, fingerprint: Fingerprint, size: nat, now: int, ghost s: State, ghost t: nat, ghost a: AssetSet)
      returns (gone: seq<CacheEntry>)
      requires In(s) && t < |s.threads| && s.threads[t] == Phase.Removing([])
      requires a.key == key && a.fingerprint == fingerprint && a.size == size && a.lastUsed == now && a.readers == 0 && !a.stale
      modifies this, log
      ensures In(EnterSet(Replace(s, t, key), a)) && Lists(gone, Gone(Replace(s, t, key).threads[t]))
    {
      hide Replace, In, EnterSet, Lists;
      gone := ReplaceEntry(key, s, t);
      EnterEntry(key, fingerprint, size, now, Replace(s, t, key), a, gone, Gone(Replace(s, t, key).threads[t]));
    }

    /** install: swaps the entry of key; the reserved bytes become the new entry's size. */
    method Install(key: Key, fingerprint: Fingerprint, size: nat, reserved: nat, now: int, ghost s: State, ghost t: nat)
      returns (gone: seq<CacheEntry>)
      requires In(s) && t < |s.threads| && s.threads[t].Extracting?
      requires var up := s.threads[t].up;
        key == up.key && fingerprint == up.fingerprint && size == up.total && reserved == up.reserved
      modifies this, log
      ensures In(DoInstall(s, t, now))
      ensures Lists(gone, Gone(DoInstall(s, t, now).threads[t]))
    {
      ghost var staged := SetPhase(s, t, Phase.Removing([])).(used := s.used - reserved);
      ghost var a := NewSet(s.threads[t].up, now);
      used := used - reserved;
      assert In(staged);
      hide In, Lists;
      gone := Swap(key, fingerprint, size, now, staged, t, a);
    }

    /** remove without interference: every listed entry's bytes return to the budget. */
    method Remove(gone: seq<CacheEntry>)
      modifies this`used
      ensures used == old(used) - Sum(gone, (e: CacheEntry) => e.size)
    {
      ghost var size := (e: CacheEntry) => e.size;
      for i := 0 to |gone|
        invariant used == old(used) - Sum(gone[..i], size)
      {
        assert gone[..i + 1] == gone[..i] + [gone[i]];
        SumAppend(gone[..i], gone[i], size);
        used := used - gone[i].size;
      }
      assert gone[..|gone|] == gone;
    }
  }
}

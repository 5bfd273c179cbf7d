/** The sweep that reclaims expired chunks and interrupted uploads. */
module Gc {
  import opened Text
  import opened Disk
  import opened VarDir
  import opened Calendar
  import opened Machine
  import Q = Quota
  import S = Store
  import Safety

  /** The temporary files a sweep at a given time reaps. */
  function Stale(d: Disk, now: nat): set<Id>
  {
    set id | id in d.temps && d.temps[id].StaleAt(now)
  }

  /** The files that the file system does not let go of. */
  datatype Stuck = Stuck(blobs: set<Id>, sidecars: set<Id>, temps: set<Id>)

  const FREE: Stuck := Stuck({}, {}, {})

  /** A file of a chunk cannot be removed. */
  predicate Sticks(d: Disk, id: Id, stuck: Stuck)
  {
    (id in d.blobs && id in stuck.blobs) || (id in d.sidecars && id in stuck.sidecars)
  }

  /** What is due and can be removed whole. */
  function Takeable(d: Disk, now: nat, stuck: Stuck): set<Id>
  {
    set id | id in S.Due(d, now) && !Sticks(d, id, stuck)
  }

  /**
   * The chunks after a sweep with a budget of k. Of those that were due it touched some: each of their files
   * went that could, and those that went whole count as removed. It stopped at the budget, and went through
   * everything that was due if that was not reached.
   */
  ghost predicate Reclaimed(d: Disk, t: Disk, touched: set<Id>, removed: set<Id>, k: nat, now: nat, stuck: Stuck)
  {
    && touched <= S.Due(d, now) && removed == touched * Takeable(d, now, stuck)
    && |removed| == Min(|Takeable(d, now, stuck)|, k)
    && (|removed| < k ==> touched == S.Due(d, now)) && (k == 0 ==> touched == {})
    && t.blobs == d.blobs - (touched - stuck.blobs)
    && t.sidecars == d.sidecars - (touched - stuck.sidecars)
  }

  /** A finished sweep: the chunks, and every stale temporary file that can be removed. */
  ghost predicate Swept(d: Disk, t: Disk, touched: set<Id>, removed: set<Id>, k: nat, now: nat, stuck: Stuck)
  {
    Reclaimed(d, t, touched, removed, k, now, stuck) && t.temps == d.temps - (Stale(d, now) - stuck.temps)
  }

  /** If every file can be removed, what a sweep touches is what it removes. */
  lemma NothingSticks(d: Disk, t: Disk, touched: set<Id>, removed: set<Id>, k: nat, now: nat)
    requires Swept(d, t, touched, removed, k, now, FREE)
    ensures Takeable(d, now, FREE) == S.Due(d, now) && touched == removed
  {
  }

  const STAMP: Octets := "gc-last.txt"
  const COUNTERS: Octets := "quota-"

  /** How long a counter file is kept, in nanoseconds. */
  const QUOTA_MAX_AGE: nat := 7 * DAY

  /** How the write of the stamp turns out. */
  datatype StampIo = Stamped | NotStamped | StampCut(kept: nat)

  /** The files of the var directory once a sweep has stamped its start. */
  function WithStamp(files: map<Octets, Octets>, now: nat, io: StampIo): map<Octets, Octets>
  {
    var text := Decimal(Unix(now));
    match io
    case Stamped => files[STAMP := text]
    case NotStamped => files
    case StampCut(kept) => files[STAMP := text[..Min(kept, |text|)]]
  }

  /** The counters a sweep reaps. */
  function OldCounters(mtimes: map<Octets, nat>, now: nat): set<Octets>
  {
    Aged(mtimes, COUNTERS, QUOTA_MAX_AGE, now)
  }

  /** The stamp is no counter, so writing it makes none of them older or younger. */
  lemma StampIsNoCounter(mtimes: map<Octets, nat>, at: nat, now: nat)
    ensures OldCounters(mtimes[STAMP := at], now) == OldCounters(mtimes, now)
  {
    StampIsOutside(mtimes, now);
    StampIsOutside(mtimes[STAMP := at], now);
  }

  lemma StampIsOutside(mtimes: map<Octets, nat>, now: nat)
    ensures STAMP !in OldCounters(mtimes, now)
  {
    assert !HasPrefix(STAMP, COUNTERS) by {
      assert STAMP[0] != COUNTERS[0];
      assert |COUNTERS| <= |STAMP| ==> STAMP[..|COUNTERS|][0] == STAMP[0];
    }
  }

  /** A counter is reaped at least seven days after the day it was last written on, so never on its own day. */
  lemma OldCountersAreOld(mtimes: map<Octets, nat>, now: nat, name: Octets)
    requires name in OldCounters(mtimes, now)
    ensures name in mtimes && now / DAY >= mtimes[name] / DAY + 7
  {
  }

  /** What LastSweepAt makes of the stamp file: a positive number of seconds, or nothing. */
  function LastSweep(files: map<Octets, Octets>): Option<int>
  {
    if STAMP !in files then None
    else
      var seconds := ParseInt(TrimSpace(files[STAMP]));
      if seconds.Some? && seconds.value > 0 then seconds else None
  }

  /** A stamp reads back as the time it was written at, exactly when that is a positive int64. */
  lemma StampRoundTrip(files: map<Octets, Octets>, now: nat)
    ensures LastSweep(WithStamp(files, now, Stamped)) == Some(Unix(now)) <==> 0 < Unix(now) <= MAX_INT64
  {
    hide Decimal, Value, TrimSpace;
    var text := Decimal(Unix(now));
    ValueOfDecimal(Unix(now));
    assert IsDigit(text[0]) && IsDigit(text[|text| - 1]);
    TrimKeeps(text);
  }

  class Gc {
    const store: S.Store
    const dir: Directory
    const quota: Q.Quota?

    constructor (store: S.Store, dir: Directory, quota: Q.Quota?)
      ensures this.store == store && this.dir == dir && this.quota == quota
    {
      this.store := store;
      this.dir := dir;
      this.quota := quota;
    }

    method RecordSweep(now: nat, io: StampIo)
      requires dir.Valid()
      modifies dir
      ensures dir.Valid() && dir.files == WithStamp(old(dir.files), now, io)
      ensures dir.mtimes == if io.NotStamped? then old(dir.mtimes) else old(dir.mtimes)[STAMP := now]
    {
      var text := Decimal(Unix(now));
      match io
      case Stamped => dir.Put(STAMP, text, now);
      case NotStamped =>
      case StampCut(kept) => dir.Put(STAMP, text[..Min(kept, |text|)], now);
    }

    /** reapByPrefix over the shards: stale temporary files go, unless their directory is stuck. */
    method ReapTemps(now: nat, stuck: set<Id>) returns (reaped: nat)
      modifies store
      ensures store.disk == old(store.disk).(temps := old(store.disk.temps) - (Stale(old(store.disk), now) - stuck))
      ensures reaped == |Stale(old(store.disk), now) - stuck|
    {
      hide Stale;
      ghost var before := store.disk;
      ghost var taken: set<Id> := {};
      reaped := 0;
      var names := store.disk.temps.Keys;
      assert before.temps - {} == before.temps;
      StaleIsThere(before, now);
      while names != {}
        invariant names <= before.temps.Keys
        invariant forall id :: id in taken <==> id in Stale(before, now) && id !in stuck && id !in names
        invariant reaped == |taken|
        invariant store.disk == before.(temps := before.temps - taken)
        decreases |names|
      {
        var id :| id in names;
        names := names - {id};
        IsStale(before, now, id);
        if store.disk.temps[id].StaleAt(now) && id !in stuck {
          MinusOneMore(before.temps, taken, id);
          store.disk := store.disk.(temps := store.disk.temps - {id});
          reaped := reaped + 1;
          taken := taken + {id};
        }
      }
      assert taken == Stale(before, now) - stuck;
    }

    /** reapByPrefix over the var directory. */
    method ReapCounters(now: nat, stuck: set<Octets>) returns (reaped: nat)
      requires dir.Valid()
      modifies dir
      ensures var counters := OldCounters(old(dir.mtimes), now) - stuck;
              dir.Valid() && dir.files == old(dir.files) - counters && reaped == |counters|
    {
      reaped := dir.ReapByPrefix(COUNTERS, QUOTA_MAX_AGE, now, stuck);
    }

    method LastSweepAt() returns (seconds: Option<int>)
      ensures seconds == LastSweep(dir.files)
    {
      if STAMP !in dir.files {
        return None;
      }
      seconds := ParseInt(TrimSpace(dir.files[STAMP]));
      if seconds.None? || seconds.value <= 0 {
        return None;
      }
    }

    /** The part of Sweep that goes through the chunks. */
    method ReclaimChunks(maxDeletes: int, now: nat, stuck: Stuck)
      returns (deleted: nat, ghost touched: set<Id>, ghost removed: set<Id>)
      modifies store
      ensures deleted == |removed| && (removed == {} <==> deleted == 0)
      ensures Reclaimed(old(store.disk), store.disk, touched, removed, if maxDeletes < 0 then 0 else maxDeletes, now,
                stuck)
      ensures store.disk.temps == old(store.disk.temps)
    {
      hide *;
      ghost var before := store.disk;
      ghost var k: nat := if maxDeletes < 0 then 0 else maxDeletes;
      deleted := 0;
      touched, removed := {}, {};
      var ids := store.AllIDs();
      var i := 0;
      assert ids[..0] == [];
      SweepStarts(before, now, stuck);
      while i < |ids| && deleted < maxDeletes
        invariant 0 <= i <= |ids| && deleted == |removed| <= k && (k == 0 ==> i == 0)
        invariant Progress(before, store.disk, now, stuck, ids[..i], touched, removed)
      {
        var id := ids[i];
        assert ids[..i + 1] == ids[..i] + [id] && id !in ids[..i] && id in ids;
        SweepOne(before, store.disk, now, stuck, ids[..i], touched, removed, id);
        var expiresAt := store.RawExpiresAt(id);
        if !(expiresAt.Some? && expiresAt.value > Unix(now)) {
          Dropped(store.disk, id);
          var gone := store.Delete(id, S.DeleteIo(true, true, id !in stuck.blobs, id !in stuck.sidecars));
          touched := touched + {id};
          if gone {
            deleted := deleted + 1;
            removed := removed + {id};
          }
        }
        i := i + 1;
      }
      SweepEnds(before, store.disk, now, stuck, ids, i, touched, removed, k);
    }

    /**
     * Sweep: returns how many chunks, temporary files and old counters went, and what the expiry hook is
     * told. Only the gates of the day it started on stay, and from then on LastSweepAt says when that was.
     */
    method Sweep(maxDeletes: int, now: nat, stuck: Stuck, stampIo: StampIo, stuckCounters: set<Octets>)
      returns (deleted: nat, reported: Option<nat>, ghost touched: set<Id>, ghost removed: set<Id>)
      requires dir.Valid()
      modifies store, dir, if quota == null then {} else {quota}
      ensures Swept(old(store.disk), store.disk, touched, removed, if maxDeletes < 0 then 0 else maxDeletes, now, stuck)
      ensures reported == if removed == {} then None else Some(|removed|)
      ensures var counters := OldCounters(old(dir.mtimes), now) - stuckCounters;
              && deleted == |removed| + |Stale(old(store.disk), now) - stuck.temps| + |counters|
              && dir.Valid() && dir.files == WithStamp(old(dir.files), now, stampIo) - counters
      ensures stampIo.Stamped? && 0 < Unix(now) <= MAX_INT64 ==> LastSweep(dir.files) == Some(Unix(now))
      ensures stampIo.NotStamped? ==> LastSweep(dir.files) == LastSweep(old(dir.files))
      ensures quota != null ==>
                && (forall path ::
                      path in quota.locks <==> path in old(quota.locks) && Q.HasSuffix(path, Q.DayEnding(DateAt(now))))
                && (forall path :: path in quota.locks ==> quota.locks[path] == old(quota.locks)[path])
    {
      hide *;
      RecordSweep(now, stampIo);
      OldCountersStay(old(dir.mtimes), dir.mtimes, now);
      deleted, touched, removed := ReclaimChunks(maxDeletes, now, stuck);
      reported := None;
      if deleted > 0 {
        reported := Some(deleted);
      }
      StaleReadsTemps(old(store.disk), store.disk, now);
      var reaped := ReapTemps(now, stuck.temps);
      SweptWhole(old(store.disk), store.disk, now, stuck, touched, removed, if maxDeletes < 0 then 0 else maxDeletes);
      ghost var stamped := dir.files;
      var counters := ReapCounters(now, stuckCounters);
      StampStays(old(dir.mtimes), old(dir.files), now, stampIo, stuckCounters);
      deleted := deleted + reaped + counters;
      if quota != null {
        quota.ForgetStaleGates(now);
      }
    }
  }

  /** Reaping counters leaves the stamp of the sweep. */
  lemma StampStays(mtimes: map<Octets, nat>, files: map<Octets, Octets>, now: nat, io: StampIo, stuck: set<Octets>)
    ensures var left := WithStamp(files, now, io) - (OldCounters(mtimes, now) - stuck);
            && (io.Stamped? && 0 < Unix(now) <= MAX_INT64 ==> LastSweep(left) == Some(Unix(now)))
            && (io.NotStamped? ==> LastSweep(left) == LastSweep(files))
  {
    StampRoundTrip(files, now);
    StampIsOutside(mtimes, now);
    hide Decimal, TrimSpace, OldCounters;
  }

  lemma OldCountersStay(before: map<Octets, nat>, after: map<Octets, nat>, now: nat)
    requires after == before || after == before[STAMP := now]
    ensures OldCounters(after, now) == OldCounters(before, now)
  {
    StampIsNoCounter(before, now, now);
  }

  /** A disk without each file of some chunks that can be removed. */
  function Without(d: Disk, ids: set<Id>, stuck: Stuck): Disk
  {
    d.(blobs := d.blobs - (ids - stuck.blobs), sidecars := d.sidecars - (ids - stuck.sidecars))
  }

  lemma Dropped(d: Disk, id: Id)
    ensures id !in d.blobs ==> d.blobs - {id} == d.blobs
    ensures id !in d.sidecars ==> d.sidecars - {id} == d.sidecars
  {
  }

  /** A sweep has looked at some ids, touched those of them that were due, and removed those that can go whole. */
  ghost predicate Progress(before: Disk, d: Disk, now: nat, stuck: Stuck, seen: seq<Id>, touched: set<Id>,
      removed: set<Id>)
  {
    && d == Without(before, touched, stuck)
    && (forall id :: id in touched <==> id in S.Due(before, now) && id in seen)
    && (forall id :: id in removed <==> id in touched && !Sticks(before, id, stuck))
  }

  lemma SweepStarts(d: Disk, now: nat, stuck: Stuck)
    ensures Progress(d, d, now, stuck, [], {}, {})
  {
    assert Without(d, {}, stuck) == d;
  }

  /** What a delete leaves of a disk on which these files can be removed. */
  function AfterDelete(d: Disk, id: Id, stuck: Stuck): Disk
  {
    d.(blobs := if id in stuck.blobs then d.blobs else d.blobs - {id},
       sidecars := if id in stuck.sidecars then d.sidecars else d.sidecars - {id})
  }

  /** The next id is still there, is due now exactly if it was at the start, and is removed if it can be. */
  lemma SweepOne(before: Disk, d: Disk, now: nat, stuck: Stuck, seen: seq<Id>, touched: set<Id>, removed: set<Id>,
      id: Id)
    requires Progress(before, d, now, stuck, seen, touched, removed)
    requires id in before.sidecars && IsValidId(id) && id !in seen
    ensures IsValidId(id) && id in d.sidecars && |removed + {id}| == |removed| + 1
    ensures (id in d.blobs && id in stuck.blobs) || id in stuck.sidecars <==> Sticks(before, id, stuck)
    ensures if Reclaimable(d, id, now)
            then Progress(before, AfterDelete(d, id, stuck), now, stuck, seen + [id], touched + {id},
              if Sticks(before, id, stuck) then removed else removed + {id})
            else Progress(before, d, now, stuck, seen + [id], touched, removed)
    ensures AfterDelete(d, id, stuck) ==
            d.(blobs := if id in d.blobs && id !in stuck.blobs then d.blobs - {id} else d.blobs,
               sidecars := if id !in stuck.sidecars then d.sidecars - {id} else d.sidecars)
  {
    hide IsValidId, S.Due;
    assert id !in touched;
    IsDue(before, now, id, touched, stuck);
    WithoutOneMore(before, touched, id, stuck);
    Dropped(d, id);
  }

  /** Stopping at the end of the list or at the budget leaves as many chunks removed as both allow. */
  lemma SweepEnds(before: Disk, d: Disk, now: nat, stuck: Stuck, ids: seq<Id>, i: nat, touched: set<Id>,
      removed: set<Id>, k: nat)
    requires i <= |ids| && Progress(before, d, now, stuck, ids[..i], touched, removed)
    requires forall id :: id in ids <==> id in before.sidecars && IsValidId(id)
    requires |removed| <= k && (|removed| < k ==> i == |ids|) && (k == 0 ==> i == 0)
    ensures Reclaimed(before, d, touched, removed, k, now, stuck) && d.temps == before.temps
    ensures |removed| == 0 <==> removed == {}
  {
    hide IsValidId, S.Due, Sticks;
    var takeable := Takeable(before, now, stuck);
    assert removed == touched * takeable;
    SubsetSize(removed, takeable);
    assert k == 0 ==> touched == {};
    if i == |ids| {
      assert ids[..i] == ids;
      DueIsListed(before, now, ids);
      assert touched == S.Due(before, now) && removed == takeable;
    }
  }

  lemma SweptWhole(before: Disk, t: Disk, now: nat, stuck: Stuck, touched: set<Id>, removed: set<Id>, k: nat)
    requires Reclaimed(before, t.(temps := before.temps), touched, removed, k, now, stuck)
    requires t.temps == before.temps - (Stale(before, now) - stuck.temps)
    ensures Swept(before, t, touched, removed, k, now, stuck)
  {
  }

  lemma WithoutOneMore(d: Disk, touched: set<Id>, id: Id, stuck: Stuck)
    ensures AfterDelete(Without(d, touched, stuck), id, stuck) == Without(d, touched + {id}, stuck)
  {
  }

  /** What happens to other chunks does not change whether an id is due. */
  lemma IsDue(d: Disk, now: nat, id: Id, touched: set<Id>, stuck: Stuck)
    requires id in d.sidecars && IsValidId(id) && id !in touched
    ensures var t := Without(d, touched, stuck);
            && (id in S.Due(d, now) <==> Reclaimable(t, id, now))
            && id in t.sidecars && (id in t.blobs <==> id in d.blobs)
  {
  }

  lemma DueIsListed(d: Disk, now: nat, ids: seq<Id>)
    requires forall id :: id in ids <==> id in d.sidecars && IsValidId(id)
    ensures forall id :: id in S.Due(d, now) ==> id in ids
  {
  }

  lemma IsStale(d: Disk, now: nat, id: Id)
    requires id in d.temps
    ensures id in Stale(d, now) <==> d.temps[id].StaleAt(now)
  {
  }

  lemma StaleIsThere(d: Disk, now: nat)
    ensures Stale(d, now) <= d.temps.Keys
  {
  }

  lemma StaleReadsTemps(d: Disk, t: Disk, now: nat)
    requires t.temps == d.temps
    ensures Stale(t, now) == Stale(d, now)
  {
  }

  lemma {:induction false} SubsetSize<T>(a: set<T>, b: set<T>)
    requires a <= b
    ensures |a| <= |b| && (|a| == |b| ==> a == b)
    decreases |a|
  {
    if a == {} {
    } else {
      var x :| x in a;
      SubsetSize(a - {x}, b - {x});
      assert |b - {x}| == |b| - 1 && |a - {x}| == |a| - 1;
      if |a| == |b| {
        assert a == (a - {x}) + {x} && b == (b - {x}) + {x};
      }
    }
  }

  // ---- a sweep and the usage figures ----------------------------------------------------------

  /**
   * With nobody else at work, no removal refused and a budget for all that is due, a sweep lowers the
   * chunks and bytes of the usage figures by exactly the expired ones, and leaves nothing expired.
   */
  lemma SweepTakesWhatUsageCalledExpired(d: Disk, t: Disk, touched: set<Id>, removed: set<Id>, k: nat, now: nat)
    requires Swept(d, t, touched, removed, k, now, FREE) && k >= |S.Due(d, now)|
    ensures var before, after := S.UsageOf(d, now), S.UsageOf(t, now);
            && after.chunks == before.chunks - before.expiredChunks
            && after.bytes == before.bytes - before.expiredBytes
            && after.expiredChunks == 0 && after.expiredBytes == 0
  {
    hide S.Footprint;
    var all, due := S.Present(d), S.Due(d, now);
    NothingSticks(d, t, touched, removed, k, now);
    SubsetSize(removed, due);
    var expired := all * due;
    PresentAfter(d, t, now);
    S.FootprintSplits(all, expired, d.blobs);
    S.FootprintFrame(all - expired, d.blobs, t.blobs);
    Parts(all, expired);
    EmptyFootprint(t.blobs);
  }

  lemma EmptyFootprint(blobs: map<Id, Octets>)
    ensures S.Footprint({}, blobs) == 0
  {
  }

  lemma Parts(all: set<Id>, part: set<Id>)
    requires part <= all
    ensures |all| == |part| + |all - part|
  {
  }

  lemma PresentAfter(d: Disk, t: Disk, now: nat)
    requires t.blobs == d.blobs - S.Due(d, now) && t.sidecars == d.sidecars - S.Due(d, now)
    ensures S.Present(t) == S.Present(d) - S.Present(d) * S.Due(d, now)
    ensures S.Present(t) * S.Due(t, now) == {}
  {
  }

  // ---- draining -------------------------------------------------------------------------------

  /** Nothing a sweep can find on this disk is worth keeping: every sidecar is due, every temporary file stale. */
  ghost predicate Drainable(d: Disk, now: nat)
  {
    && (forall id :: id in d.sidecars ==> IsValidId(id) && Reclaimable(d, id, now))
    && (forall id :: id in d.temps ==> d.temps[id].StaleAt(now))
  }

  /** The blobs no listing of sidecars leads to. */
  function Orphans(d: Disk): map<Id, Octets>
  {
    d.blobs - d.sidecars.Keys
  }

  /** Sweeps of budget k one after the other, at times that never run backwards. */
  ghost predicate Sweeps(disks: seq<Disk>, removed: seq<set<Id>>, times: seq<nat>, k: nat)
  {
    && |disks| == |removed| + 1 == |times| + 1
    && (forall i :: 0 <= i < |removed| ==> Swept(disks[i], disks[i + 1], removed[i], removed[i], k, times[i], FREE))
    && (forall i, j :: 0 <= i < j < |times| ==> times[i] <= times[j])
  }

  lemma SweepDrains(d: Disk, t: Disk, removed: set<Id>, k: nat, now: nat)
    requires Drainable(d, now) && Swept(d, t, removed, removed, k, now, FREE)
    ensures Drainable(t, now) && t.temps == map[] && Orphans(t) == Orphans(d)
    ensures |removed| == Min(k, |d.sidecars|) && |t.sidecars| == |d.sidecars| - Min(k, |d.sidecars|)
  {
    hide Drainable, Swept;
    DrainedFiles(d, t, removed, k, now);
    Parts(d.sidecars.Keys, removed);
    assert t.sidecars.Keys == d.sidecars.Keys - removed;
    assert |t.sidecars| == |t.sidecars.Keys| && |d.sidecars| == |d.sidecars.Keys|;
    StillDrainable(d, t, removed, now);
  }

  lemma DrainedFiles(d: Disk, t: Disk, removed: set<Id>, k: nat, now: nat)
    requires Drainable(d, now) && Swept(d, t, removed, removed, k, now, FREE)
    ensures removed <= d.sidecars.Keys && |removed| == Min(k, |d.sidecars.Keys|)
    ensures t == Disk(d.blobs - removed, d.sidecars - removed, map[])
  {
    NothingSticks(d, t, removed, removed, k, now);
    EverythingIsDue(d, now);
    hide Drainable, Takeable, Stale, S.Due;
    assert removed - {} == removed && Stale(d, now) - {} == Stale(d, now);
    assert t.temps == map[];
  }

  lemma EverythingIsDue(d: Disk, now: nat)
    requires Drainable(d, now)
    ensures S.Due(d, now) == d.sidecars.Keys && Stale(d, now) == d.temps.Keys
  {
  }

  lemma StillDrainable(d: Disk, t: Disk, removed: set<Id>, now: nat)
    requires Drainable(d, now) && removed <= d.sidecars.Keys
    requires t == Disk(d.blobs - removed, d.sidecars - removed, map[])
    ensures Drainable(t, now) && Orphans(t) == Orphans(d)
  {
  }

  /** How many of n ids are left after m sweeps of budget k. */
  function Left(n: nat, k: nat, m: nat): nat
  {
    if m == 0 then n else Left(n, k, m - 1) - Min(k, Left(n, k, m - 1))
  }

  lemma {:induction false} LeftIsTheRest(n: nat, k: nat, m: nat)
    ensures Left(n, k, m) == n - Min(m * k, n)
  {
    if m > 0 {
      LeftIsTheRest(n, k, m - 1);
      assert m * k == (m - 1) * k + k;
    }
  }

  /** A disk on which m sweeps have been at work since it held what it did at first. */
  ghost predicate DrainedTo(d: Disk, now: nat, first: Disk, k: nat, m: nat)
  {
    && Drainable(d, now) && Orphans(d) == Orphans(first)
    && |d.sidecars| == Left(|first.sidecars|, k, m) && (m > 0 ==> d.temps == map[])
  }

  lemma OneSweep(d: Disk, t: Disk, removed: set<Id>, now: nat, first: Disk, k: nat, m: nat)
    requires DrainedTo(d, now, first, k, m) && Swept(d, t, removed, removed, k, now, FREE)
    ensures |removed| == Min(k, |d.sidecars|) && DrainedTo(t, now, first, k, m + 1)
  {
    hide Drainable, Swept, Min, Orphans;
    SweepDrains(d, t, removed, k, now);
  }

  lemma DrainedLater(d: Disk, now: nat, later: nat, first: Disk, k: nat, m: nat)
    requires DrainedTo(d, now, first, k, m) && now <= later
    ensures DrainedTo(d, later, first, k, m)
  {
  }

  lemma {:induction false} DrainStep(disks: seq<Disk>, removed: seq<set<Id>>, times: seq<nat>, first: Disk, k: nat,
      m: nat)
    requires Sweeps(disks, removed, times, k) && |disks| - 1 == |removed| == |times|
    requires m < |removed| && DrainedTo(disks[0], times[0], first, k, 0)
    ensures |removed[m]| == Min(k, |disks[m].sidecars|)
    ensures DrainedTo(disks[m + 1], times[m], first, k, m + 1)
  {
    hide DrainedTo, Swept, Min, Sweeps;
    if m > 0 {
      DrainStep(disks, removed, times, first, k, m - 1);
      SweepAt(disks, removed, times, k, m - 1);
      DrainedLater(disks[m], times[m - 1], times[m], first, k, m);
    }
    SweepAt(disks, removed, times, k, m);
    OneSweep(disks[m], disks[m + 1], removed[m], times[m], first, k, m);
  }

  lemma SweepAt(disks: seq<Disk>, removed: seq<set<Id>>, times: seq<nat>, k: nat, i: nat)
    requires Sweeps(disks, removed, times, k) && i < |removed|
    ensures Swept(disks[i], disks[i + 1], removed[i], removed[i], k, times[i], FREE)
    ensures i + 1 < |times| ==> times[i] <= times[i + 1]
  {
  }

  /**
   * From any state the store can reach, whatever the world did, once uploads have stopped and everything has
   * lapsed: each sweep of budget k takes min(k, remaining) ids, and ceil(n / k) sweeps, and at least one, leave
   * the orphans there were and nothing else. So they leave no file exactly if there were none, as in sound runs.
   */
  lemma StoreDrains(env: Env, s: State, disks: seq<Disk>, removed: seq<set<Id>>, times: seq<nat>, k: nat)
    requires Reachable(env, s) && k > 0
    requires Sweeps(disks, removed, times, k) && |disks| - 1 == |removed| == |times| > 0 && disks[0] == s.disk
    requires forall id :: id in s.disk.sidecars && s.disk.sidecars[id].Readable? ==>
        s.disk.sidecars[id].meta.ExpiredAt(times[0])
    requires forall id :: id in s.disk.temps ==> s.disk.temps[id].StaleAt(times[0])
    ensures forall i :: 0 <= i < |removed| ==> |removed[i]| == Min(k, |disks[i].sidecars|)
    ensures |removed| >= (|s.disk.sidecars| + k - 1) / k ==>
              && disks[|removed|] == Disk(Orphans(s.disk), map[], map[])
              && (disks[|removed|] == BLANK <==> Safety.NoOrphans(s))
              && (env.Sound() ==> disks[|removed|] == BLANK)
  {
    hide Sweeps, Reachable, DrainedTo, Min, Orphans, Safety.NoOrphans;
    var m, first := |removed|, s.disk;
    LapsedIsDrainable(env, s, times[0], k);
    forall i | 0 <= i < |removed|
      ensures |removed[i]| == Min(k, |disks[i].sidecars|)
    {
      DrainStep(disks, removed, times, first, k, i);
    }
    DrainStep(disks, removed, times, first, k, m - 1);
    if m >= (|first.sidecars| + k - 1) / k {
      OrphansAreLeft(disks[m], times[m - 1], first, k, m);
      Orphaned(env, s);
      if env.Sound() {
        Safety.SoundRunsLeaveNoOrphans(env, s);
      }
    }
  }

  lemma OrphansAreLeft(d: Disk, now: nat, first: Disk, k: nat, m: nat)
    requires DrainedTo(d, now, first, k, m) && m > 0 && k > 0 && m >= (|first.sidecars| + k - 1) / k
    ensures d == Disk(Orphans(first), map[], map[])
  {
    hide Drainable, Left;
    NoneIsLeft(|first.sidecars|, k, m);
    assert d.sidecars == map[];
    assert d.blobs == Orphans(d);
  }

  lemma NoneIsLeft(n: nat, k: nat, m: nat)
    requires k > 0 && m >= (n + k - 1) / k
    ensures Left(n, k, m) == 0
  {
    CeilingCovers(n, k, m);
    LeftIsTheRest(n, k, m);
    hide Left;
  }

  lemma Orphaned(env: Env, s: State)
    requires Reachable(env, s)
    ensures Orphans(s.disk) == map[] <==> Safety.NoOrphans(s)
  {
    hide Reachable, IsValidId;
    Safety.SidecarIdsAreValid(env, s);
    assert forall id :: id in s.disk.blobs && id !in s.disk.sidecars ==> id in Orphans(s.disk);
    if Safety.NoOrphans(s) {
      assert Orphans(s.disk) == map[];
    }
  }

  lemma LapsedIsDrainable(env: Env, s: State, now: nat, k: nat)
    requires Reachable(env, s)
    requires forall id :: id in s.disk.sidecars && s.disk.sidecars[id].Readable? ==>
        s.disk.sidecars[id].meta.ExpiredAt(now)
    requires forall id :: id in s.disk.temps ==> s.disk.temps[id].StaleAt(now)
    ensures DrainedTo(s.disk, now, s.disk, k, 0)
  {
    Safety.SidecarIdsAreValid(env, s);
    hide IsValidId, Reachable;
  }

  lemma CeilingCovers(n: nat, k: nat, m: nat)
    requires k > 0 && m >= (n + k - 1) / k
    ensures m * k >= n
  {
  }
}

/** The chunk store as one process sees it: each operation from start to finish, with nothing in between. */
module Store {
  import opened Text
  import opened Disk

  // ---- request bodies -------------------------------------------------------------------------

  datatype ReadEnd = More | Eof | Broken

  /** What one read of a request body returns. */
  datatype Read = Read(data: Octets, end: ReadEnd)

  /** The octets a body delivers before it ends, well or badly. */
  function Delivered(body: seq<Read>): Octets
  {
    if body == [] then []
    else if body[0].end.More? then body[0].data + Delivered(body[1..])
    else body[0].data
  }

  /** One read takes its data off the front of what is still to come. */
  lemma DeliveredNext(body: seq<Read>, i: nat, fed: Octets)
    requires i < |body|
    ensures fed + Delivered(body[i..]) == if body[i].end.More? then fed + body[i].data + Delivered(body[i + 1..])
        else fed + body[i].data
    ensures |Delivered(body[i..])| >= |body[i].data|
    ensures BreaksOff(body[i..]) <==> body[i].end.Broken? || (body[i].end.More? && BreaksOff(body[i + 1..]))
  {
  }

  lemma DeliveredAll(body: seq<Read>, fed: Octets)
    ensures fed + Delivered(body[|body|..]) == fed && !BreaksOff(body[|body|..])
  {
  }

  /** Whether a body stops for any other reason than having ended. */
  predicate BreaksOff(body: seq<Read>)
  {
    body != [] && (body[0].end.Broken? || (body[0].end.More? && BreaksOff(body[1..])))
  }

  /** Of a body that passes a limit, the read that takes it past comes while there is still room. */
  ghost predicate LimitComesFirst(body: seq<Read>, limit: nat, room: nat)
  {
    exists k :: 0 <= k < |body| && PassesAt(body, k, limit, room)
  }

  predicate PassesAt(body: seq<Read>, k: nat, limit: nat, room: nat)
    requires k < |body|
  {
    |Delivered(body[..k])| <= Min(limit, room) && |Delivered(body[..k + 1])| > limit
  }

  /** No read before some place ends a body. */
  predicate GoesOn(body: seq<Read>, i: nat)
    requires i <= |body|
  {
    forall j :: 0 <= j < i ==> body[j].end.More?
  }

  lemma {:induction false} DeliveredSoFar(body: seq<Read>, i: nat)
    requires i < |body| && GoesOn(body, i)
    ensures Delivered(body[..i + 1]) == Delivered(body[..i]) + body[i].data
    decreases i
  {
    assert body[..i + 1][0] == body[0];
    if i > 0 {
      DeliveredSoFar(body[1..], i - 1);
      assert body[..i + 1][1..] == body[1..][..i] && body[..i][1..] == body[1..][..i - 1];
      assert body[0].data + (Delivered(body[1..][..i - 1]) + body[i].data)
          == (body[0].data + Delivered(body[1..][..i - 1])) + body[i].data;
    }
  }

  lemma {:induction false} DeliveredGrows(body: seq<Read>, i: nat, j: nat)
    requires i <= j <= |body|
    ensures |Delivered(body[..i])| <= |Delivered(body[..j])| <= |Delivered(body)|
    decreases |body|
  {
    if i > 0 {
      DeliveredGrows(body[1..], i - 1, j - 1);
      assert body[..i][1..] == body[1..][..i - 1] && body[..j][1..] == body[1..][..j - 1];
    } else if j > 0 {
      DeliveredGrows(body[1..], 0, j - 1);
      assert body[..j][1..] == body[1..][..j - 1];
    }
  }

  lemma NothingRead(body: seq<Read>)
    ensures GoesOn(body, 0) && Delivered(body[..0]) == []
  {
  }

  lemma GoesOnOneMore(body: seq<Read>, i: nat)
    requires i < |body| && GoesOn(body, i) && body[i].end.More?
    ensures GoesOn(body, i + 1)
  {
  }

  lemma LimitIsPassedAt(body: seq<Read>, i: nat, limit: nat, room: nat)
    requires i < |body| && |Delivered(body[..i])| <= limit && |Delivered(body[..i])| <= room
    requires |Delivered(body[..i + 1])| > limit
    ensures LimitComesFirst(body, limit, room)
  {
    hide Delivered;
    assert PassesAt(body, i, limit, room);
  }

  lemma LimitIsPassed(body: seq<Read>, limit: nat, room: nat)
    requires LimitComesFirst(body, limit, room)
    ensures |Delivered(body)| > limit
  {
    hide Delivered;
    var k :| 0 <= k < |body| && PassesAt(body, k, limit, room);
    DeliveredGrows(body, k + 1, k + 1);
  }

  /** A read that passes the room and not the limit leaves no read to pass the limit first. */
  lemma RoomComesFirst(body: seq<Read>, i: nat, limit: nat, room: nat)
    requires i < |body| && room < |Delivered(body[..i + 1])| <= limit
    ensures !LimitComesFirst(body, limit, room) && |Delivered(body)| > room
  {
    hide Delivered;
    DeliveredGrows(body, i + 1, i + 1);
    forall k | 0 <= k < |body|
      ensures !PassesAt(body, k, limit, room)
    {
      if k <= i {
        DeliveredGrows(body, k + 1, i + 1);
      } else {
        DeliveredGrows(body, i + 1, k);
      }
    }
  }

  datatype Error = EmptyBody | LengthMismatch | TooLarge | NoStorage

  datatype Result<+T> = Ok(value: T) | Err(error: Error, status: nat)

  // ---- what the world lets an operation do ----------------------------------------------------

  datatype SidecarWrite = Whole | Partial | Nothing

  /** How the file operations of one upload turn out; room is how many octets still fit on the volume. */
  datatype IngestIo = IngestIo(dirOk: bool, openOk: bool, room: nat, syncOk: bool, sidecar: SidecarWrite,
      renameOk: bool)
  {
    predicate AllWell(length: nat)
    {
      dirOk && openOk && length <= room && syncOk && sidecar.Whole? && renameOk
    }
  }

  /** What the file system answers one delete: whether it admits to each file, and whether it lets go of it. */
  datatype DeleteIo = DeleteIo(seesBlob: bool, seesMeta: bool, dropsBlob: bool, dropsMeta: bool)
  {
    predicate SeesAll()
    {
      seesBlob && seesMeta
    }
  }

  /** The temporary file of an upload can be created. */
  predicate Opens(d: Disk, id: Id, io: IngestIo)
  {
    io.dirOk && io.openOk && id !in d.temps
  }

  /** A body that is not the one announced: it broke off, is empty, or has another length. */
  predicate IsBadBody(body: seq<Read>, declared: int)
  {
    BreaksOff(body) || Delivered(body) == [] || (declared >= 0 && |Delivered(body)| != declared)
  }

  // ---- footprints -----------------------------------------------------------------------------

  /** The chunks on disk: a sidecar with a well-formed id, and its blob. */
  function Present(d: Disk): set<Id>
  {
    set id | id in d.sidecars && IsValidId(id) && id in d.blobs
  }

  /** What a sweep at a given time may take. */
  function Due(d: Disk, now: nat): set<Id>
  {
    set id | id in d.sidecars && IsValidId(id) && Reclaimable(d, id, now)
  }

  ghost function Footprint(ids: set<Id>, blobs: map<Id, Octets>): nat
    requires ids <= blobs.Keys
  {
    if ids == {} then 0 else var id :| id in ids; |blobs[id]| + Footprint(ids - {id}, blobs)
  }

  lemma {:induction false} FootprintWithout(ids: set<Id>, id: Id, blobs: map<Id, Octets>)
    requires ids <= blobs.Keys && id in ids
    ensures Footprint(ids, blobs) == |blobs[id]| + Footprint(ids - {id}, blobs)
    decreases |ids|
  {
    var first :| first in ids && Footprint(ids, blobs) == |blobs[first]| + Footprint(ids - {first}, blobs);
    if first != id {
      FootprintWithout(ids - {first}, id, blobs);
      FootprintWithout(ids - {id}, first, blobs);
      assert ids - {first} - {id} == ids - {id} - {first};
    }
  }

  lemma FootprintWith(ids: set<Id>, id: Id, blobs: map<Id, Octets>)
    requires ids <= blobs.Keys && id !in ids && id in blobs
    ensures |ids + {id}| == |ids| + 1 && Footprint(ids + {id}, blobs) == |blobs[id]| + Footprint(ids, blobs)
  {
    FootprintWithout(ids + {id}, id, blobs);
    assert ids + {id} - {id} == ids;
  }

  /** The footprint of a set is that of any part and that of the rest. */
  lemma {:induction false} FootprintSplits(ids: set<Id>, part: set<Id>, blobs: map<Id, Octets>)
    requires ids <= blobs.Keys && part <= ids
    ensures Footprint(ids, blobs) == Footprint(part, blobs) + Footprint(ids - part, blobs)
    decreases |part|
  {
    if part == {} {
      assert ids - part == ids;
    } else {
      var id :| id in part;
      FootprintWithout(ids, id, blobs);
      FootprintWithout(part, id, blobs);
      FootprintSplits(ids - {id}, part - {id}, blobs);
      assert (ids - {id}) - (part - {id}) == ids - part;
    }
  }

  /** A footprint reads only the blobs it counts. */
  lemma {:induction false} FootprintFrame(ids: set<Id>, a: map<Id, Octets>, b: map<Id, Octets>)
    requires ids <= a.Keys && ids <= b.Keys && forall id :: id in ids ==> a[id] == b[id]
    ensures Footprint(ids, a) == Footprint(ids, b)
    decreases |ids|
  {
    if ids != {} {
      var id :| id in ids;
      FootprintWithout(ids, id, a);
      FootprintWithout(ids, id, b);
      FootprintFrame(ids - {id}, a, b);
    }
  }

  /** The ids seen so far, split into those with a blob and those of them a sweep would take. */
  ghost predicate Counted(d: Disk, now: nat, seen: seq<Id>, all: set<Id>, due: set<Id>)
  {
    && (forall id :: id in all <==> id in seen && id in d.blobs)
    && (forall id :: id in due <==> id in all && Reclaimable(d, id, now))
  }

  lemma CountNone(d: Disk, now: nat)
    ensures Counted(d, now, [], {}, {}) && Footprint({}, d.blobs) == 0
  {
  }

  lemma CountAll(d: Disk, now: nat, seen: seq<Id>, all: set<Id>, due: set<Id>)
    requires Counted(d, now, seen, all, due) && all <= d.blobs.Keys && due <= d.blobs.Keys
    requires forall id :: id in seen <==> id in d.sidecars && IsValidId(id)
    ensures UsageOf(d, now) == Usage(|all|, Footprint(all, d.blobs), |due|, Footprint(due, d.blobs))
  {
    assert all == Present(d);
    assert due == Present(d) * Due(d, now);
  }

  lemma CountOne(d: Disk, now: nat, seen: seq<Id>, all: set<Id>, due: set<Id>, id: Id)
    requires Counted(d, now, seen, all, due) && id !in seen && all <= d.blobs.Keys && due <= d.blobs.Keys
    ensures id !in d.blobs ==> Counted(d, now, seen + [id], all, due)
    ensures id in d.blobs ==>
              && |all + {id}| == |all| + 1 && Footprint(all + {id}, d.blobs) == |d.blobs[id]| + Footprint(all, d.blobs)
              && |due + {id}| == |due| + 1 && Footprint(due + {id}, d.blobs) == |d.blobs[id]| + Footprint(due, d.blobs)
              && Counted(d, now, seen + [id], all + {id}, if Reclaimable(d, id, now) then due + {id} else due)
  {
    hide Footprint, Reclaimable;
    if id in d.blobs {
      FootprintWith(all, id, d.blobs);
      FootprintWith(due, id, d.blobs);
    }
  }

  datatype Usage = Usage(chunks: nat, bytes: nat, expiredChunks: nat, expiredBytes: nat)

  /** The figures of a disk at a time. */
  ghost function UsageOf(d: Disk, now: nat): Usage
  {
    var all, due := Present(d), Present(d) * Due(d, now);
    Usage(|all|, Footprint(all, d.blobs), |due|, Footprint(due, d.blobs))
  }

  // ---- the store ------------------------------------------------------------------------------

  class Store {
    var disk: Disk
    const maxChunkSize: nat
    const hash: Octets -> Octets

    constructor (disk: Disk, maxChunkSize: nat, hash: Octets -> Octets)
      ensures this.disk == disk && this.maxChunkSize == maxChunkSize && this.hash == hash
    {
      this.disk := disk;
      this.maxChunkSize := maxChunkSize;
      this.hash := hash;
    }

    method Meta(id: Id, now: nat) returns (meta: Option<ChunkMeta>)
      ensures meta.Some? <==> IsValidId(id) && LiveSidecar(disk, id, now) && id in disk.blobs
      ensures meta.Some? ==>
                meta.value == (var m := disk.sidecars[id].meta; if m.id == [] then m.(id := id) else m)
    {
      if !IsValidId(id) || id !in disk.sidecars || disk.sidecars[id].Torn? {
        return None;
      }
      var m := disk.sidecars[id].meta;
      if m.id == [] {
        m := m.(id := id);
      }
      if m.ExpiredAt(now) || id !in disk.blobs {
        return None;
      }
      return Some(m);
    }

    /** Fills the temporary file with what a body delivers; on success with all of it, and its digest. */
    method CopyBody(id: Id, body: seq<Read>, room: nat, now: nat) returns (r: Result<(nat, Octets)>)
      requires id in disk.temps && disk.temps[id].body == []
      modifies this
      ensures id in disk.temps && disk == old(disk).(temps := old(disk.temps)[id := disk.temps[id]])
      ensures r.Ok? <==> !BreaksOff(body) && |Delivered(body)| <= maxChunkSize && |Delivered(body)| <= room
      ensures r.Ok? ==> r.value == (|Delivered(body)|, hash(Delivered(body))) && disk.temps[id].body == Delivered(body)
      ensures r.Err? ==> match r.error
                case TooLarge => r.status == 413 && LimitComesFirst(body, maxChunkSize, room)
                case NoStorage =>
                  r.status == 507 && |Delivered(body)| > room && !LimitComesFirst(body, maxChunkSize, room)
                case LengthMismatch =>
                  r.status == 400 && BreaksOff(body) && |Delivered(body)| <= maxChunkSize && |Delivered(body)| <= room
                case EmptyBody => false
    {
      hide Delivered, BreaksOff, LimitComesFirst, GoesOn;
      ghost var before := disk;
      var fed: Octets := [];
      var total, i := 0, 0;
      assert body[0..] == body;
      NothingRead(body);
      while true
        invariant 0 <= i <= |body|
        invariant id in disk.temps && disk == before.(temps := before.temps[id := disk.temps[id]])
        invariant disk.temps[id].body == fed && |fed| == total && total <= maxChunkSize && total <= room
        invariant Delivered(body) == fed + Delivered(body[i..])
        invariant BreaksOff(body) == BreaksOff(body[i..])
        invariant GoesOn(body, i) && fed == Delivered(body[..i])
        decreases |body| - i
      {
        if i == |body| {
          DeliveredAll(body, fed);
          break;
        }
        ghost var fedBefore := fed;
        var read := body[i];
        DeliveredNext(body, i, fed);
        DeliveredSoFar(body, i);
        if |read.data| > 0 {
          total := total + |read.data|;
          if total > maxChunkSize {
            LimitIsPassedAt(body, i, maxChunkSize, room);
            return Err(TooLarge, 413);
          }
          if total > room {
            RoomComesFirst(body, i, maxChunkSize, room);
            return Err(NoStorage, 507);
          }
          fed := fed + read.data;
          disk := disk.(temps := disk.temps[id := Temp(fed, now)]);
        }
        assert fed == fedBefore + read.data;
        if !read.end.More? {
          if read.end.Eof? {
            break;
          }
          return Err(LengthMismatch, 400);
        }
        GoesOnOneMore(body, i);
        i := i + 1;
      }
      return Ok((total, hash(fed)));
    }

    /**
     * Ingest. A failed upload leaves the disk as it found it, but for the torn sidecar of a write cut
     * short, and a sidecar already there under its id; a stored one leaves exactly the delivered body and a
     * sidecar that describes it.
     */
    method Ingest(drawn: Option<Id>, body: seq<Read>, owner: Octets, ttl: nat, declared: int, now: nat, io: IngestIo)
      returns (r: Result<ChunkMeta>)
      modifies this
      ensures r.Ok? <==>
              var length := |Delivered(body)|;
              && drawn.Some? && drawn.value !in old(disk.temps) && io.AllWell(length) && !BreaksOff(body)
              && 1 <= length <= maxChunkSize && (declared >= 0 ==> length == declared)
      ensures r.Ok? ==>
              var id, text := drawn.value, Delivered(body);
              && r.value == ChunkMeta(id, |text|, hash(text), owner, Unix(now), Unix(now + ttl))
              && disk == old(disk).(blobs := old(disk.blobs)[id := text],
                 sidecars := old(disk.sidecars)[id := Readable(r.value)])
      ensures r.Err? ==> disk.blobs == old(disk.blobs) && disk.temps == old(disk.temps)
      ensures r.Err? && drawn.Some? ==>
                || disk.sidecars == old(disk.sidecars)
                || (io.sidecar.Partial? && disk.sidecars == old(disk.sidecars)[drawn.value := Torn])
                || (io.sidecar.Whole? && !io.renameOk && disk.sidecars == old(disk.sidecars) - {drawn.value})
      ensures r.Err? && drawn.None? ==> disk == old(disk) && r.error.NoStorage? && r.status == 500
      ensures r.Err? && drawn.Some? ==>
                match r.error
                case EmptyBody => r.status == 400 && Delivered(body) == []
                case LengthMismatch => r.status == 400 && (BreaksOff(body) || |Delivered(body)| != declared)
                case TooLarge => r.status == 413
                case NoStorage => r.status == 507
      ensures r.Err? && drawn.Some? ==>
                var opens, length := Opens(old(disk), drawn.value, io), |Delivered(body)|;
                var fits := length <= maxChunkSize && length <= io.room;
                && (r.status == 400 <==> opens && fits && IsBadBody(body, declared))
                && (r.status == 413 <==> opens && LimitComesFirst(body, maxChunkSize, io.room))
                && (r.status == 507 <==>
                      || !opens || (length > io.room && !LimitComesFirst(body, maxChunkSize, io.room))
                      || (fits && !IsBadBody(body, declared) && !io.AllWell(length)))
    {
      if drawn.None? {
        return Err(NoStorage, 500);
      }
      var id := drawn.value;
      if !io.dirOk {
        return Err(NoStorage, 507);
      }
      if !io.openOk || id in disk.temps {
        return Err(NoStorage, 507);
      }
      disk := disk.(temps := disk.temps[id := Temp([], now)]);
      var committed := false;
      label Attempt: {
        var copied := CopyBody(id, body, io.room, now);
        if LimitComesFirst(body, maxChunkSize, io.room) {
          LimitIsPassed(body, maxChunkSize, io.room);
        }
        if copied.Err? {
          r := Err(copied.error, copied.status);
          break Attempt;
        }
        var (total, digest) := copied.value;
        if total == 0 {
          r := Err(EmptyBody, 400);
          break Attempt;
        }
        if declared >= 0 && total != declared {
          r := Err(LengthMismatch, 400);
          break Attempt;
        }
        if !io.syncOk {
          r := Err(NoStorage, 507);
          break Attempt;
        }
        var meta := ChunkMeta(id, total, digest, owner, Unix(now), Unix(now + ttl));
        if !io.sidecar.Whole? {
          if io.sidecar.Partial? {
            disk := disk.(sidecars := disk.sidecars[id := Torn]);
          }
          r := Err(NoStorage, 507);
          break Attempt;
        }
        disk := disk.(sidecars := disk.sidecars[id := Readable(meta)]);
        if !io.renameOk {
          disk := disk.(sidecars := disk.sidecars - {id});
          assert disk.sidecars == old(disk.sidecars) - {id};
          r := Err(NoStorage, 507);
          break Attempt;
        }
        disk := disk.(blobs := disk.blobs[id := disk.temps[id].body], temps := disk.temps - {id});
        committed := true;
        r := Ok(meta);
      }
      if !committed {
        disk := disk.(temps := disk.temps - {id});
      }
    }

    method Exists(id: Id, seesBlob: bool, seesMeta: bool) returns (there: bool)
      ensures there <==> IsValidId(id) && ((id in disk.blobs && seesBlob) || (id in disk.sidecars && seesMeta))
    {
      if !IsValidId(id) {
        return false;
      }
      if id in disk.blobs && seesBlob {
        return true;
      }
      return id in disk.sidecars && seesMeta;
    }

    /**
     * Delete takes each file it sees, if the file system lets go of it, whatever became of the other, and
     * reports whether all it saw went. As long as it sees what is there, that is: true exactly when there was
     * something to remove and nothing is left.
     */
    method Delete(id: Id, io: DeleteIo) returns (gone: bool)
      modifies this
      ensures var d := old(disk);
              var sawBlob, sawMeta := id in d.blobs && io.seesBlob, id in d.sidecars && io.seesMeta;
              && (gone <==>
                    IsValidId(id) && (sawBlob || sawMeta) && (sawBlob ==> io.dropsBlob) && (sawMeta ==> io.dropsMeta))
              && disk == if !IsValidId(id) then d
                         else d.(blobs := if sawBlob && io.dropsBlob then d.blobs - {id} else d.blobs,
                                 sidecars := if sawMeta && io.dropsMeta then d.sidecars - {id} else d.sidecars)
      ensures io.SeesAll() ==>
                (gone <==> IsValidId(id) && (id in old(disk.blobs) || id in old(disk.sidecars))
                           && id !in disk.blobs && id !in disk.sidecars)
    {
      if !IsValidId(id) {
        return false;
      }
      var sawBlob, sawMeta := id in disk.blobs && io.seesBlob, id in disk.sidecars && io.seesMeta;
      if !sawBlob && !sawMeta {
        return false;
      }
      var blobGone := !sawBlob;
      if sawBlob && io.dropsBlob {
        disk := disk.(blobs := disk.blobs - {id});
        blobGone := true;
      }
      var metaGone := !sawMeta;
      if sawMeta && io.dropsMeta {
        disk := disk.(sidecars := disk.sidecars - {id});
        metaGone := true;
      }
      return blobGone && metaGone;
    }

    /** Every chunk id on disk, expired or not, in the order the directories happen to be read. */
    method AllIDs() returns (ids: seq<Id>)
      ensures forall i, j :: 0 <= i < j < |ids| ==> ids[i] != ids[j]
      ensures forall id :: id in ids <==> id in disk.sidecars && IsValidId(id)
    {
      ids := [];
      var names := disk.sidecars.Keys;
      while names != {}
        invariant names <= disk.sidecars.Keys
        invariant forall i, j :: 0 <= i < j < |ids| ==> ids[i] != ids[j]
        invariant forall id :: id in ids <==> id in disk.sidecars && id !in names && IsValidId(id)
        decreases |names|
      {
        var name :| name in names;
        names := names - {name};
        if IsValidId(name) {
          ids := ids + [name];
        }
      }
    }

    method RawExpiresAt(id: Id) returns (expiresAt: Option<nat>)
      ensures forall now :: (expiresAt.None? || expiresAt.value <= Unix(now)) <==> Reclaimable(disk, id, now)
    {
      if id !in disk.sidecars || disk.sidecars[id].Torn? {
        return None;
      }
      return Some(disk.sidecars[id].meta.expiresAt);
    }

    method Measure(now: nat) returns (usage: Usage)
      ensures usage == UsageOf(disk, now)
    {
      hide Counted, Footprint, Reclaimable, IsValidId, UsageOf;
      var chunks, bytes, expiredChunks, expiredBytes := 0, 0, 0, 0;
      var ids := AllIDs();
      ghost var all, due: set<Id> := {}, {};
      CountNone(disk, now);
      assert ids[..0] == [];
      for i := 0 to |ids|
        invariant Counted(disk, now, ids[..i], all, due)
        invariant all <= disk.blobs.Keys && due <= disk.blobs.Keys
        invariant chunks == |all| && bytes == Footprint(all, disk.blobs)
        invariant expiredChunks == |due| && expiredBytes == Footprint(due, disk.blobs)
      {
        var id := ids[i];
        assert ids[..i + 1] == ids[..i] + [id] && id !in ids[..i];
        CountOne(disk, now, ids[..i], all, due, id);
        if id in disk.blobs {
          var size := |disk.blobs[id]|;
          chunks := chunks + 1;
          bytes := bytes + size;
          all := all + {id};
          var expiresAt := RawExpiresAt(id);
          if expiresAt.None? || expiresAt.value <= Unix(now) {
            expiredChunks := expiredChunks + 1;
            expiredBytes := expiredBytes + size;
            due := due + {id};
          }
        }
      }
      assert ids[..|ids|] == ids;
      CountAll(disk, now, ids, all, due);
      return Usage(chunks, bytes, expiredChunks, expiredBytes);
    }
  }
}

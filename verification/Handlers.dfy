/** The upload and delete handlers, from request to response, with nobody else at work. */
module Handlers {
  import opened Text
  import opened Disk
  import Calendar
  import Keys
  import Q = Quota
  import S = Store
  import Ttl

  /** Who an upload is charged to: the key presented, or nobody in particular on an open server. */
  method UploaderKeyId(keys: seq<Keys.ApiKey>, presented: Octets, openUpload: bool, ghost raw: map<Octets, Keys.RawKey>)
    returns (id: Option<Octets>)
    requires Keys.IsNormalised(raw, keys)
    ensures forall key :: key != Keys.ANONYMOUS ==> (id == Some(key) <==> Keys.Greatest(raw, presented, key))
    ensures id == Some(Keys.ANONYMOUS) <==> openUpload && presented == []
  {
    Keys.IdentifiesTheGreatest(raw, keys, presented);
    id := Keys.Identify(keys, presented);
    if id.None? && openUpload && presented == [] {
      id := Some(Keys.ANONYMOUS);
    }
  }

  /** What the upload handler reads off a request: who sent it, its Content-Length and its X-Chunk-TTL. */
  datatype Upload = Upload(key: Option<Octets>, declared: Option<Q.Int64>, ttl: Octets, body: seq<S.Read>)
  {
    predicate Valid()
    {
      declared.Some? ==> declared.value >= 0
    }
  }

  /** What the outside world has in store for one upload. */
  datatype World = World(
    room: bool, consumedAt: nat, dirOk: bool, consumeIo: Q.CounterIo, drawn: Option<Id>, now: nat,
      storeIo: S.IngestIo,
    refundedAt: nat, refundIo: Q.CounterIo)

  /** Whether the quota lets an upload in. */
  predicate Granted(quotaFor: Octets -> Q.Int64, files: map<Octets, Octets>, key: Octets, size: Q.Int64, w: World)
  {
    quotaFor(key) <= 0 ||
    (w.dirOk && w.consumeIo.Fine? && Q.Reserve(quotaFor(key), size,
      Q.Used(files, Q.CounterAt(key, w.consumedAt))).Some?)
  }

  /** Whether an upload gets as far as the store. */
  predicate Admitted(quotaFor: Octets -> Q.Int64, files: map<Octets, Octets>, maxChunkSize: nat, r: Upload, w: World)
  {
    r.key.Some? && r.declared.Some? && r.declared.value <= maxChunkSize && w.room
    && Granted(quotaFor, files, r.key.value, r.declared.value, w)
  }

  /** Whether the store takes a body of a declared length. */
  predicate Storable(d: Disk, maxChunkSize: nat, size: Q.Int64, body: seq<S.Read>, w: World)
  {
    var length := |S.Delivered(body)|;
    && w.drawn.Some? && S.Opens(d, w.drawn.value, w.storeIo) && w.storeIo.AllWell(length)
    && length <= maxChunkSize && !S.IsBadBody(body, size)
  }

  /** What an upload that is turned away before the store is answered. */
  predicate TurnedAway(quotaFor: Octets -> Q.Int64, files: map<Octets, Octets>, maxChunkSize: nat, r: Upload, w: World,
      status: nat)
  {
    if r.key.None? then status == 401
    else if r.declared.None? then status == 411
    else if r.declared.value > maxChunkSize then status == 413
    else if !w.room then status == 507
    else status == 429 && !Granted(quotaFor, files, r.key.value, r.declared.value, w)
  }

  /** What an upload that the store was offered and did not take is answered, and why. */
  ghost predicate Failed(d: Disk, maxChunkSize: nat, size: Q.Int64, body: seq<S.Read>, w: World, status: nat)
  {
    var length := |S.Delivered(body)|;
    var opens := w.drawn.Some? && S.Opens(d, w.drawn.value, w.storeIo);
    var fits := length <= maxChunkSize && length <= w.storeIo.room;
    && status in {400, 413, 500, 507}
    && (status == 500 <==> w.drawn.None?)
    && (status == 400 <==> opens && fits && S.IsBadBody(body, size))
    && (status == 413 <==> opens && S.LimitComesFirst(body, maxChunkSize, w.storeIo.room))
    && (status == 507 <==>
          w.drawn.Some? && (|| !opens
                            || (length > w.storeIo.room && !S.LimitComesFirst(body, maxChunkSize, w.storeIo.room))
                            || (fits && !S.IsBadBody(body, size) && !w.storeIo.AllWell(length))))
  }

  /**
   * handleUpload. A 201 stores the whole body and charges its length; anything else stores nothing, and
   * leaves every counter as it was unless the counter file failed or midnight passed in between. Every
   * other status has its cause.
   */
  method HandleUpload(quota: Q.Quota, store: S.Store, r: Upload, w: World, defaultTtl: Q.Int64, maxTtl: Q.Int64)
    returns (status: nat)
    requires quota.dir.Valid() && r.Valid() && Ttl.Valid(defaultTtl, maxTtl)
    modifies quota`locks, quota.dir, store
    ensures quota.dir.Valid()
    ensures var before, counters, max := old(store.disk), old(quota.dir.files), store.maxChunkSize;
            if !Admitted(quota.quotaFor, counters, max, r, w)
              then TurnedAway(quota.quotaFor, counters, max, r, w, status)
            else if Storable(before, max, r.declared.value, r.body, w) then status == 201
            else Failed(before, max, r.declared.value, r.body, w, status)
    ensures status == 201 ==>
              var id, text, size, key := w.drawn.value, S.Delivered(r.body), r.declared.value, r.key.value;
              var ttl := Ttl.Clamp(Ttl.Requested(r.ttl), defaultTtl, maxTtl);
              var meta := ChunkMeta(id, size, store.hash(text), key, Unix(w.now), Unix(w.now + ttl));
              var before, path := old(store.disk), Q.CounterAt(key, w.consumedAt);
              && store.disk.blobs == before.blobs[id := text]
              && store.disk.sidecars == before.sidecars[id := Readable(meta)] && store.disk.temps == before.temps
              && (quota.quotaFor(key) > 0 ==>
                    && Some(Q.Used(quota.dir.files, path)) ==
                         Q.Reserve(quota.quotaFor(key), size, Q.Used(old(quota.dir.files), path))
                    && (forall other :: other != path ==>
                          Q.Used(quota.dir.files, other) == Q.Used(old(quota.dir.files), other)))
    ensures r.key.None? || quota.quotaFor(r.key.value) <= 0 ==> quota.dir.files == old(quota.dir.files)
    ensures status != 201 ==> store.disk.blobs == old(store.disk.blobs) && store.disk.temps == old(store.disk.temps)
    ensures status != 201 && w.consumeIo.Fine? && w.refundIo.Fine?
            && w.consumedAt / Calendar.DAY == w.refundedAt / Calendar.DAY
            && (r.key.Some? ==> Q.Used(old(quota.dir.files), Q.CounterAt(r.key.value, w.consumedAt)) >= 0) ==>
              forall other :: Q.Used(quota.dir.files, other) == Q.Used(old(quota.dir.files), other)
  {
    hide Q.Used, Q.CounterAt, S.LimitComesFirst, Q.Reserve, Q.GiveBack, S.Delivered, S.BreaksOff;
    hide Ttl.Clamp, Ttl.Requested;
    if r.key.None? {
      return 401;
    }
    var key := r.key.value;
    if r.declared.None? {
      return 411;
    }
    var size := r.declared.value;
    if size > store.maxChunkSize {
      return 413;
    }
    if !w.room {
      return 507;
    }
    var granted := quota.Consume(key, size, w.consumedAt, w.now, w.dirOk, w.consumeIo);
    if !granted {
      return 429;
    }
    ghost var charged := quota.dir.files;
    var ttl := Ttl.Clamp(Ttl.Requested(r.ttl), defaultTtl, maxTtl);
    Ttl.KeptWithinMaximum(r.ttl, defaultTtl, maxTtl);
    var stored := store.Ingest(w.drawn, r.body, key, ttl, size, w.now, w.storeIo);
    if stored.Err? {
      SameCounter(key, w.consumedAt, w.refundedAt);
      quota.Refund(key, size, w.refundedAt, w.now, w.refundIo);
      FailedUploadIsUncharged(quota.quotaFor(key), size, Q.CounterAt(key, w.consumedAt), old(quota.dir.files),
        charged);
      return stored.status;
    }
    return 201;
  }

  lemma SameCounter(key: Octets, at: nat, later: nat)
    ensures at / Calendar.DAY == later / Calendar.DAY ==> Q.CounterAt(key, at) == Q.CounterAt(key, later)
  {
    hide Calendar.DateAt, Q.CounterName;
    Calendar.SameDate(at, later);
  }

  /** Charging and giving back leave a counter that was not negative as it was. */
  lemma FailedUploadIsUncharged(limit: Q.Int64, size: Q.Int64, path: Octets, before: map<Octets, Octets>,
      charged: map<Octets, Octets>)
    requires limit > 0 ==> Some(Q.Used(charged, path)) == Q.Reserve(limit, size, Q.Used(before, path))
    ensures limit > 0 && Q.Used(before, path) >= 0 && size >= 0 ==>
              (if size <= 0 then Q.Used(charged, path) else Q.GiveBack(size, Q.Used(charged, path)).value) ==
                Q.Used(before, path)
  {
    hide Q.Used;
    if limit > 0 {
      Q.RefundUndoesReserve(limit, size, Q.Used(before, path));
    }
  }

  /** What the file system answers one DELETE request: to Store.Delete, and to the look that follows a failed one. */
  datatype DeleteWorld = DeleteWorld(now: nat, io: S.DeleteIo, seesBlob: bool, seesMeta: bool)
  {
    predicate SeesAll()
    {
      io.SeesAll() && seesBlob && seesMeta
    }
  }

  /**
   * handleDelete. A chunk that is not the caller's looks like no chunk at all. As long as the file system
   * admits to what is there, a 204 means that both files of a chunk that was live and the caller's are gone,
   * and a 500 that one of them, at least, is not.
   */
  method HandleDelete(store: S.Store, id: Id, key: Option<Octets>, w: DeleteWorld) returns (status: nat)
    modifies store
    ensures var before := old(store.disk);
            var owned := key.Some? && LiveSidecar(before, id, w.now) && id in before.blobs
                && before.sidecars[id].meta.owner == key.value;
            && status in {204, 401, 404, 500}
            && (status == 401 <==> IsValidId(id) && key.None?)
            && (status == 404 <==> !IsValidId(id) || (key.Some? && !owned))
            && (status in {401, 404} ==> store.disk == before)
            && (status in {204, 500} ==>
                  && store.disk.temps == before.temps
                  && store.disk.blobs == (if w.io.seesBlob && w.io.dropsBlob then before.blobs - {id} else before.blobs)
                  && store.disk.sidecars == (if w.io.seesMeta && w.io.dropsMeta then before.sidecars - {id}
                     else before.sidecars))
    ensures status == 500 ==> id in store.disk.blobs || id in store.disk.sidecars
    ensures w.SeesAll() && status == 204 ==> id !in store.disk.blobs && id !in store.disk.sidecars
  {
    hide IsValidId;
    if !IsValidId(id) {
      return 404;
    }
    if key.None? {
      return 401;
    }
    var meta := store.Meta(id, w.now);
    if meta.None? || meta.value.owner != key.value {
      return 404;
    }
    var gone := store.Delete(id, w.io);
    if !gone {
      var there := store.Exists(id, w.seesBlob, w.seesMeta);
      if there {
        return 500;
      }
    }
    return 204;
  }
}

/** The pieces that runs of the store with one chunk are put together from. */
module Runs {
  import opened Text
  import opened Disk
  import opened Machine
  import Keys

  /** The id of the chunk. */
  const ID: Id := "0123456789abcdef0123456789abcdef"

  lemma IdIsValid()
    ensures IsValidId(ID)
  {
  }

  // ---- one event ------------------------------------------------------------------------------

  lemma {:induction false} RunSnoc(env: Env, s: State, events: seq<Event>, e: Event)
    requires Run(env, s, events).Some?
    ensures Run(env, s, events + [e]) == Apply(env, Run(env, s, events).value, e)
    decreases |events|
  {
    hide Apply;
    if events == [] {
      assert [] + [e] == [e] && [e][1..] == [];
    } else {
      RunSnoc(env, Apply(env, s, events[0]).value, events[1..], e);
      assert (events + [e])[1..] == events[1..] + [e];
    }
  }

  lemma NothingLeads(env: Env, s: State)
    ensures Leads(env, s, s)
  {
    assert Run(env, s, []) == Some(s);
  }

  /** One more event of a run. */
  lemma Next(env: Env, r: State, s: State, e: Event) returns (t: State)
    requires Leads(env, r, s) && Apply(env, s, e).Some?
    ensures Leads(env, r, t) && Apply(env, s, e) == Some(t)
  {
    hide Apply;
    t := Apply(env, s, e).value;
    var events :| Run(env, r, events) == Some(s);
    RunSnoc(env, r, events, e);
  }

  lemma Step(env: Env, r: State, s: State, p: Pid, ok: bool) returns (t: State)
    requires Leads(env, r, s) && p in s.procs && Advance(env, s, p, ok).Some?
    ensures Leads(env, r, t) && Advance(env, s, p, ok) == Some(t)
  {
    hide Advance, Leads;
    t := Next(env, r, s, Do(p, ok));
  }

  lemma DeleteStep(env: Env, r: State, s: State, p: Pid, ok: bool) returns (t: State)
    requires Leads(env, r, s) && p in s.procs && s.procs[p].Deleting? && Delete(env, s, p, s.procs[p], ok).Some?
    ensures Leads(env, r, t) && Delete(env, s, p, s.procs[p], ok) == Some(t)
  {
    hide Delete, Leads;
    t := Step(env, r, s, p, ok);
  }

  lemma SweepStep(env: Env, r: State, s: State, p: Pid, ok: bool) returns (t: State)
    requires Leads(env, r, s) && p in s.procs && (s.procs[p].Listing? || s.procs[p].Scanning?)
    requires Sweep(env, s, p, s.procs[p], ok).Some?
    ensures Leads(env, r, t) && Sweep(env, s, p, s.procs[p], ok) == Some(t)
  {
    hide Sweep, Leads;
    t := Step(env, r, s, p, ok);
  }

  lemma AnswerStep(env: Env, r: State, s: State, p: Pid, ok: bool) returns (t: State)
    requires Leads(env, r, s) && p in s.procs && HandleDelete(env, s, p, s.procs[p], ok).Some?
    ensures Leads(env, r, t) && HandleDelete(env, s, p, s.procs[p], ok) == Some(t)
  {
    hide Leads;
    t := Step(env, r, s, p, ok);
  }

  predicate Uploads(proc: Proc)
  {
    proc.Receiving? || proc.Stamping? || proc.Describing? || proc.HalfDescribed? || proc.Renaming? || proc.Retracting?
  }

  lemma IngestStep(env: Env, r: State, s: State, p: Pid, ok: bool) returns (t: State)
    requires Leads(env, r, s) && p in s.procs && Uploads(s.procs[p]) && Ingest(env, s, p, s.procs[p], ok).Some?
    ensures Leads(env, r, t) && Ingest(env, s, p, s.procs[p], ok) == Some(t)
  {
    hide Ingest, Leads;
    t := Step(env, r, s, p, ok);
  }

  lemma DownloadStep(env: Env, r: State, s: State, p: Pid, ok: bool) returns (t: State)
    requires Leads(env, r, s) && p in s.procs && Download(s, p, s.procs[p], ok).Some?
    ensures Leads(env, r, t) && Download(s, p, s.procs[p], ok) == Some(t)
  {
    hide Leads, Asked;
    t := Step(env, r, s, p, ok);
  }

  lemma Wait(env: Env, r: State, s: State, to: nat) returns (t: State)
    requires Leads(env, r, s) && (env.steadyClock ==> s.clock <= to)
    ensures Leads(env, r, t) && t == s.(clock := to)
  {
    hide Leads;
    t := Next(env, r, s, Tick(to));
  }

  // ---- an upload whose body arrives at once ---------------------------------------------------

  lemma Open(env: Env, r: State, s: State, p: Pid, owner: Octets, declared: nat, ttl: nat) returns (t: State)
    requires Leads(env, r, s) && declared <= env.maxChunkSize && p !in s.procs && ID !in s.disk.temps
    requires env.freshIds ==> ID !in s.fate
    ensures Leads(env, r, t)
    ensures t == s.(disk := s.disk.(temps := s.disk.temps[ID := Temp([], s.clock)]),
                    procs := s.procs[p := Receiving(ID, owner, ttl, declared, [])],
                    fate := s.fate[ID := Writing(p)], promised := s.promised[ID := declared])
  {
    hide Advance, Leads, Send, Receive, Keys.Greatest, IsValidId;
    IdIsValid();
    t := Next(env, r, s, StartIngest(p, ID, owner, ttl, declared));
  }

  lemma ReceiveBody(env: Env, r: State, s: State, p: Pid, owner: Octets, body: Octets, ttl: nat) returns (t: State)
    requires Leads(env, r, s) && |body| <= env.maxChunkSize
    requires p in s.procs && s.procs[p] == Receiving(ID, owner, ttl, |body|, [])
    requires ID in s.disk.temps && s.disk.temps[ID].body == []
    ensures Leads(env, r, t)
    ensures t == s.(disk := s.disk.(temps := s.disk.temps[ID := Temp(body, s.clock)]),
                    procs := s.procs[p := Receiving(ID, owner, ttl, |body|, body)])
  {
    hide Advance, Leads, Send, Keys.Greatest;
    assert [] + body == body;
    t := Next(env, r, s, Arrive(p, body));
  }

  /** The upload is about to write its sidecar. */
  lemma Upload(env: Env, r: State, s: State, p: Pid, owner: Octets, body: Octets, ttl: nat) returns (t: State)
    requires Leads(env, r, s) && 1 <= |body| <= env.maxChunkSize && p !in s.procs && ID !in s.disk.temps
    requires env.freshIds ==> ID !in s.fate
    ensures Leads(env, r, t)
    ensures t == s.(disk := s.disk.(temps := s.disk.temps[ID := Temp(body, s.clock)]),
                    procs := s.procs[p := Describing(ID, Describe(env, ID, owner, ttl, body, s.clock), body)],
                    fate := s.fate[ID := Writing(p)], promised := s.promised[ID := |body|])
  {
    hide Leads, Describe;
    var s1 := Open(env, r, s, p, owner, |body|, ttl);
    var s2 := ReceiveBody(env, r, s1, p, owner, body, ttl);
    var s3 := IngestStep(env, r, s2, p, true);
    t := IngestStep(env, r, s3, p, true);
    assert t.procs == s.procs[p := Describing(ID, Describe(env, ID, owner, ttl, body, s.clock), body)];
    assert t.disk.temps == s.disk.temps[ID := Temp(body, s.clock)];
  }

  /** The sidecar is created but not yet whole. */
  lemma HalfPublish(env: Env, r: State, s: State, p: Pid, meta: ChunkMeta, body: Octets) returns (t: State)
    requires Leads(env, r, s) && !env.wholeSidecars && p in s.procs && s.procs[p] == Describing(ID, meta, body)
    ensures Leads(env, r, t)
    ensures t == s.(disk := s.disk.(sidecars := s.disk.sidecars[ID := Torn]),
                    procs := s.procs[p := HalfDescribed(ID, meta, body)], fate := s.fate[ID := Announced(p, meta)])
  {
    hide Leads;
    t := IngestStep(env, r, s, p, true);
  }

  lemma FinishPublish(env: Env, r: State, s: State, p: Pid, meta: ChunkMeta, body: Octets) returns (t: State)
    requires Leads(env, r, s) && p in s.procs && s.procs[p] == HalfDescribed(ID, meta, body) && ID in s.disk.sidecars
    ensures Leads(env, r, t)
    ensures t == s.(disk := s.disk.(sidecars := s.disk.sidecars[ID := Readable(meta)]),
                    procs := s.procs[p := Renaming(ID, meta, body)])
  {
    hide Leads;
    t := IngestStep(env, r, s, p, true);
  }

  /** The sidecar is written, in one step or in two. */
  lemma Publish(env: Env, r: State, s: State, p: Pid, meta: ChunkMeta, body: Octets) returns (t: State)
    requires Leads(env, r, s) && p in s.procs && s.procs[p] == Describing(ID, meta, body)
    ensures Leads(env, r, t)
    ensures t == s.(disk := s.disk.(sidecars := s.disk.sidecars[ID := Readable(meta)]),
                    procs := s.procs[p := Renaming(ID, meta, body)], fate := s.fate[ID := Announced(p, meta)])
  {
    hide Leads;
    if env.wholeSidecars {
      t := IngestStep(env, r, s, p, true);
    } else {
      var half := HalfPublish(env, r, s, p, meta, body);
      t := FinishPublish(env, r, half, p, meta, body);
      assert t.procs == s.procs[p := Renaming(ID, meta, body)];
      assert t.disk.sidecars == s.disk.sidecars[ID := Readable(meta)];
    }
  }

  lemma Commit(env: Env, r: State, s: State, p: Pid) returns (t: State)
    requires Leads(env, r, s) && p in s.procs && s.procs[p].Renaming? && s.procs[p].id == ID && ID in s.disk.temps
    requires env.timelyRename ==> !s.procs[p].meta.ExpiredAt(s.clock)
    ensures Leads(env, r, t)
    ensures t == s.(disk := s.disk.(blobs := s.disk.blobs[ID := s.disk.temps[ID].body], temps := s.disk.temps - {ID}),
                    procs := s.procs - {p}, fate := s.fate[ID := Committed(s.disk.temps[ID].body, s.procs[p].meta)],
                    stored := s.stored + {(ID, s.disk.temps[ID].body)})
  {
    hide Leads;
    t := IngestStep(env, r, s, p, true);
  }

  /** A whole upload. */
  lemma Store(env: Env, r: State, s: State, p: Pid, owner: Octets, body: Octets, ttl: nat) returns (t: State)
    requires Leads(env, r, s) && 1 <= |body| <= env.maxChunkSize && p !in s.procs && ID !in s.disk.temps
    requires env.freshIds ==> ID !in s.fate
    requires ttl >= NANOS
    ensures Leads(env, r, t)
    ensures var meta := Describe(env, ID, owner, ttl, body, s.clock);
            t == s.(disk := s.disk.(blobs := s.disk.blobs[ID := body],
                                    sidecars := s.disk.sidecars[ID := Readable(meta)]),
                    fate := s.fate[ID := Committed(body, meta)], promised := s.promised[ID := |body|],
                    stored := s.stored + {(ID, body)})
  {
    hide Leads;
    var s1 := Upload(env, r, s, p, owner, body, ttl);
    var s2 := Publish(env, r, s1, p, Describe(env, ID, owner, ttl, body, s.clock), body);
    assert !s2.procs[p].meta.ExpiredAt(s2.clock);
    t := Commit(env, r, s2, p);
    assert t.procs == s.procs;
    assert t.disk.temps == s.disk.temps;
    assert t.fate == s.fate[ID := Committed(body, Describe(env, ID, owner, ttl, body, s.clock))];
  }

  // ---- a sweep --------------------------------------------------------------------------------

  lemma StartSweeping(env: Env, r: State, s: State, p: Pid) returns (t: State)
    requires Leads(env, r, s) && p !in s.procs
    ensures Leads(env, r, t) && t == s.(procs := s.procs[p := Listing(s.clock, [], 1)])
  {
    hide Leads;
    t := Next(env, r, s, StartSweep(p, 1));
  }

  lemma FindSidecar(env: Env, r: State, s: State, p: Pid, now: nat) returns (t: State)
    requires Leads(env, r, s) && p in s.procs && s.procs[p] == Listing(now, [], 1) && ID in s.disk.sidecars
    ensures Leads(env, r, t) && t == s.(procs := s.procs[p := Listing(now, [ID], 1)])
  {
    hide Leads, Advance, Send, Receive, Keys.Greatest, IsValidId;
    IdIsValid();
    assert [] + [ID] == [ID];
    t := Next(env, r, s, Find(p, ID));
  }

  /** The sweep lists the one sidecar. */
  lemma List(env: Env, r: State, s: State, p: Pid, now: nat) returns (t: State)
    requires Leads(env, r, s) && p in s.procs && s.procs[p] == Listing(now, [], 1) && ID in s.disk.sidecars
    ensures Leads(env, r, t) && t == s.(procs := s.procs[p := Scanning(now, [ID], 0, 1)])
  {
    hide Leads;
    var s1 := FindSidecar(env, r, s, p, now);
    t := SweepStep(env, r, s1, p, true);
    assert t.procs == s.procs[p := Scanning(now, [ID], 0, 1)];
  }

  /** A sweep that has read the clock, and is done with the chunk. */
  function OneOff(now: nat): Caller
  {
    BySweep(now, [], 0, 1)
  }

  /** The sweep takes the chunk for one to be reclaimed. */
  lemma Judge(env: Env, r: State, s: State, p: Pid, now: nat, ok: bool) returns (t: State)
    requires Leads(env, r, s) && p in s.procs && s.procs[p] == Scanning(now, [ID], 0, 1)
    requires if ok then Reclaimable(s.disk, ID, now) else !env.faithfulReads
    ensures Leads(env, r, t) && t == s.(procs := s.procs[p := Deleting(ID, OneOff(now), StatBlob)])
  {
    hide Leads, Reclaimable;
    assert [ID][1..] == [];
    t := SweepStep(env, r, s, p, ok);
  }

  // ---- Store.Delete ---------------------------------------------------------------------------

  /** The two stats of a delete, of which one at least sees its file. */
  lemma Look(env: Env, r: State, s: State, p: Pid, caller: Caller) returns (t: State)
    requires Leads(env, r, s) && p in s.procs && s.procs[p] == Deleting(ID, caller, StatBlob)
    requires ID in s.disk.blobs || ID in s.disk.sidecars
    ensures Leads(env, r, t)
    ensures var point := DropBlob(ID in s.disk.blobs, ID in s.disk.sidecars);
            t == s.(procs := s.procs[p := Deleting(ID, caller, point)])
  {
    hide Leads, Return;
    var s1 := DeleteStep(env, r, s, p, true);
    t := DeleteStep(env, r, s1, p, true);
    assert t.procs == s.procs[p := Deleting(ID, caller, DropBlob(ID in s.disk.blobs, ID in s.disk.sidecars))];
  }

  /** A delete drops the blob it saw. */
  lemma TakeBlob(env: Env, r: State, s: State, p: Pid, caller: Caller, sawMeta: bool) returns (t: State)
    requires Leads(env, r, s) && p in s.procs && s.procs[p] == Deleting(ID, caller, DropBlob(true, sawMeta))
    requires ID in s.disk.blobs
    ensures Leads(env, r, t) && Delete(env, s, p, s.procs[p], true) == Some(t)
    ensures t == s.(disk := s.disk.(blobs := s.disk.blobs - {ID}),
                    procs := s.procs[p := Deleting(ID, caller, DropMeta(sawMeta, true, false))])
  {
    hide Leads, Return;
    t := DeleteStep(env, r, s, p, true);
  }

  /** A delete has done with the blob and drops the sidecar. */
  lemma TakeSidecar(env: Env, r: State, s: State, p: Pid, caller: Caller, blobGone: bool, refused: bool)
    returns (t: State)
    requires Leads(env, r, s) && p in s.procs && s.procs[p] == Deleting(ID, caller, DropMeta(true, blobGone, refused))
    requires ID in s.disk.sidecars && (env.pairedRemoval ==> !refused)
    ensures Leads(env, r, t) && t == Return(DropSidecar(s, ID), p, ID, caller, blobGone)
  {
    hide Leads, Return;
    t := DeleteStep(env, r, s, p, true);
  }

  /** A delete takes both files. */
  lemma TakeBoth(env: Env, r: State, s: State, p: Pid, caller: Caller) returns (t: State)
    requires Leads(env, r, s) && p in s.procs && s.procs[p] == Deleting(ID, caller, StatBlob)
    requires ID in s.disk.blobs && ID in s.disk.sidecars
    ensures Leads(env, r, t)
    ensures t == s.(disk := s.disk.(blobs := s.disk.blobs - {ID}, sidecars := s.disk.sidecars - {ID}),
                    procs := t.procs, reclaimed := s.reclaimed + multiset{ID},
                    gone := if caller.ByOwner? then s.gone + {ID} else s.gone)
    ensures t.procs - {p} == s.procs - {p}
  {
    hide Leads;
    var s1 := Look(env, r, s, p, caller);
    var s2 := TakeBlob(env, r, s1, p, caller, true);
    t := TakeSidecar(env, r, s2, p, caller, true, false);
  }

  // ---- handleDelete ---------------------------------------------------------------------------

  const KEY: Octets := "k"

  const SECRET: Octets := "s"

  const KEYS: map<Octets, Keys.RawKey> := map[KEY := Keys.RawKey(SECRET, 0, None)]

  lemma KeyIsGreatest()
    ensures Keys.Greatest(KEYS, SECRET, KEY)
  {
    assert Keys.Holds(KEYS, KEY, SECRET);
  }

  lemma StartDeleting(env: Env, r: State, s: State, p: Pid) returns (t: State)
    requires Leads(env, r, s) && p !in s.procs
    ensures Leads(env, r, t) && t == s.(procs := s.procs[p := DeleteReads(ID, KEY)])
  {
    hide Leads, Advance, Send, Receive, Keys.Greatest, IsValidId, ID, KEYS;
    IdIsValid();
    KeyIsGreatest();
    t := Next(env, r, s, StartDelete(p, ID, KEYS, SECRET, KEY));
  }

  /** The owner of a live chunk asks for its deletion, and is let through. */
  lemma AskToDelete(env: Env, r: State, s: State, p: Pid) returns (t: State)
    requires Leads(env, r, s) && p !in s.procs
    requires LiveSidecar(s.disk, ID, s.clock) && ID in s.disk.blobs && s.disk.sidecars[ID].meta.owner == KEY
    ensures Leads(env, r, t) && t == s.(procs := s.procs[p := Deleting(ID, ByOwner(KEY), StatBlob)])
  {
    hide Leads;
    var s1 := StartDeleting(env, r, s, p);
    var s2 := AnswerStep(env, r, s1, p, true);
    t := AnswerStep(env, r, s2, p, true);
    assert t.procs == s.procs[p := Deleting(ID, ByOwner(KEY), StatBlob)];
  }
}

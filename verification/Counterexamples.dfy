/** Each thing the store's results take for granted is needed: without it some run goes wrong. */
module Counterexamples {
  import opened Text
  import opened Disk
  import opened Machine
  import opened Runs
  import opened Safety
  import ByteRange
  import Keys
  import Once
  import Promises

  // ---- a sweep that is misled -----------------------------------------------------------------

  /**
   * Upload 0 is about to rename its blob into place; sweep 1 has taken its sidecar for one to be reclaimed;
   * sweep 2, whose clock reading is before the expiry, has the chunk on its list.
   */
  predicate Misled(env: Env, s: State, meta: ChunkMeta, now: nat, early: nat)
  {
    && s.procs == map[0 := Renaming(ID, meta, "x"), 1 := Deleting(ID, OneOff(now), StatBlob),
                      2 := Scanning(early, [ID], 0, 1)]
    && ID in s.disk.temps && s.disk.temps[ID].body == "x" && ID !in s.disk.blobs
    && ID in s.disk.sidecars && s.disk.sidecars[ID] == Readable(meta)
    && !meta.ExpiredAt(early) && (env.timelyRename ==> !meta.ExpiredAt(s.clock))
    && s.reclaimed == multiset{} && (s.fate.Keys == {ID})
  }

  /** An upload that starts when no other has. */
  lemma Begin(env: Env, s: State, ttl: nat) returns (t: State)
    requires Leads(env, START, s) && env.maxChunkSize >= 1 && 0 !in s.procs && ttl >= NANOS
    requires s == START.(clock := s.clock, procs := s.procs)
    ensures Leads(env, START, t)
    ensures t == s.(disk := BLANK.(temps := map[ID := Temp("x", s.clock)]),
                    procs := s.procs[0 := Describing(ID, Describe(env, ID, KEY, ttl, "x", s.clock), "x")],
                    fate := map[ID := Writing(0)], promised := map[ID := 1])
  {
    hide Leads, Describe;
    t := Upload(env, START, s, 0, KEY, "x", ttl);
  }

  /** The two sweeps list the one sidecar, and the first takes it for one to be reclaimed. */
  lemma ListAndJudge(env: Env, s: State, proc: Proc, now: nat, early: nat, ok: bool) returns (t: State)
    requires Leads(env, START, s) && ID in s.disk.sidecars
    requires s.procs == map[0 := proc, 1 := Listing(now, [], 1), 2 := Listing(early, [], 1)]
    requires if ok then Reclaimable(s.disk, ID, now) else !env.faithfulReads
    ensures Leads(env, START, t)
    ensures t == s.(procs := map[0 := proc, 1 := Deleting(ID, OneOff(now), StatBlob), 2 := Scanning(early, [ID], 0, 1)])
  {
    hide Leads, Reclaimable;
    var s1 := List(env, START, s, 1, now);
    var s2 := List(env, START, s1, 2, early);
    t := Judge(env, START, s2, 1, now, ok);
  }

  lemma TwoSweeps(env: Env) returns (t: State)
    ensures Leads(env, START, t)
    ensures t == START.(procs := map[1 := Listing(0, [], 1), 2 := Listing(0, [], 1)])
  {
    hide Leads;
    NothingLeads(env, START);
    var s1 := StartSweeping(env, START, START, 1);
    t := StartSweeping(env, START, s1, 2);
  }

  lemma Lifetimes(env: Env)
    ensures var meta := Describe(env, ID, KEY, 10 * NANOS, "x", 0); !meta.ExpiredAt(0) && meta.ExpiredAt(100 * NANOS)
    ensures var meta := Describe(env, ID, KEY, NANOS, "x", 0); !meta.ExpiredAt(0) && meta.ExpiredAt(NANOS)
  {
  }

  /** An upload has half written its sidecar, and two sweeps are listing. */
  lemma HalfUploaded(env: Env, meta: ChunkMeta) returns (t: State)
    requires !env.wholeSidecars && env.maxChunkSize >= 1 && meta == Describe(env, ID, KEY, 10 * NANOS, "x", 0)
    ensures Leads(env, START, t) && t.clock == 0 && t.reclaimed == multiset{} && t.fate.Keys == {ID}
    ensures t.procs == map[0 := HalfDescribed(ID, meta, "x"), 1 := Listing(0, [], 1), 2 := Listing(0, [], 1)]
    ensures t.disk == Disk(map[], map[ID := Torn], map[ID := Temp("x", 0)])
  {
    hide Leads, Describe, Unix;
    var s2 := TwoSweeps(env);
    var s3 := Begin(env, s2, 10 * NANOS);
    t := HalfPublish(env, START, s3, 0, meta, "x");
  }

  /** A sweep reads a half-written sidecar. */
  lemma MisledByTornSidecar(env: Env) returns (t: State, meta: ChunkMeta)
    requires !env.wholeSidecars && env.maxChunkSize >= 1
    ensures Leads(env, START, t) && Misled(env, t, meta, 0, 0) && !meta.ExpiredAt(t.clock)
  {
    hide Leads, Describe, Unix;
    meta := Describe(env, ID, KEY, 10 * NANOS, "x", 0);
    Lifetimes(env);
    var s4 := HalfUploaded(env, meta);
    var s5 := ListAndJudge(env, s4, HalfDescribed(ID, meta, "x"), 0, 0, true);
    t := FinishPublish(env, START, s5, 0, meta, "x");
  }

  /** A sweep starts after the expiry of an upload that has yet to rename its blob. */
  lemma MisledByLateRename(env: Env) returns (t: State, meta: ChunkMeta)
    requires !env.timelyRename && env.maxChunkSize >= 1
    ensures Leads(env, START, t) && Misled(env, t, meta, NANOS, 0)
  {
    hide Leads, Describe, Unix;
    meta := Describe(env, ID, KEY, NANOS, "x", 0);
    Lifetimes(env);
    NothingLeads(env, START);
    var s1 := StartSweeping(env, START, START, 2);
    var s2 := Begin(env, s1, NANOS);
    var s3 := Publish(env, START, s2, 0, meta, "x");
    var s4 := Wait(env, START, s3, NANOS);
    var s5 := StartSweeping(env, START, s4, 1);
    t := ListAndJudge(env, s5, Renaming(ID, meta, "x"), NANOS, 0, true);
  }

  /** A sweep started before the clock was set back. */
  lemma MisledByClock(env: Env) returns (t: State, meta: ChunkMeta)
    requires !env.steadyClock && env.maxChunkSize >= 1
    ensures Leads(env, START, t) && Misled(env, t, meta, 100 * NANOS, 0) && !meta.ExpiredAt(t.clock)
  {
    hide Leads, Describe, Unix;
    meta := Describe(env, ID, KEY, 10 * NANOS, "x", 0);
    Lifetimes(env);
    NothingLeads(env, START);
    var s1 := Wait(env, START, START, 100 * NANOS);
    var s2 := StartSweeping(env, START, s1, 1);
    var s3 := Wait(env, START, s2, 0);
    var s4 := StartSweeping(env, START, s3, 2);
    var s5 := Begin(env, s4, 10 * NANOS);
    var s6 := Publish(env, START, s5, 0, meta, "x");
    t := ListAndJudge(env, s6, Renaming(ID, meta, "x"), 100 * NANOS, 0, true);
  }

  /** A sweep fails to read a good sidecar. */
  lemma MisledByFailedRead(env: Env) returns (t: State, meta: ChunkMeta)
    requires !env.faithfulReads && env.maxChunkSize >= 1
    ensures Leads(env, START, t) && Misled(env, t, meta, 0, 0) && !meta.ExpiredAt(t.clock)
  {
    hide Leads, Describe, Unix;
    meta := Describe(env, ID, KEY, 10 * NANOS, "x", 0);
    Lifetimes(env);
    var s2 := TwoSweeps(env);
    var s3 := Begin(env, s2, 10 * NANOS);
    var s4 := Publish(env, START, s3, 0, meta, "x");
    t := ListAndJudge(env, s4, Renaming(ID, meta, "x"), 0, 0, false);
  }

  /** A chunk is committed whose sidecar is gone, and sweep 2, which started before its expiry, has it on its list. */
  predicate Stranded(s: State, meta: ChunkMeta, early: nat)
  {
    && ID in s.fate && s.fate[ID] == Committed("x", meta) && !meta.ExpiredAt(early)
    && ID in s.disk.blobs && ID !in s.disk.sidecars
    && 2 in s.procs && s.procs[2] == Scanning(early, [ID], 0, 1)
  }

  /** The sweep that was misled takes the sidecar, and the rename still succeeds. */
  lemma Strand(env: Env, s: State, meta: ChunkMeta, now: nat, early: nat) returns (t: State)
    requires Leads(env, START, s) && Misled(env, s, meta, now, early)
    ensures Leads(env, START, t) && Stranded(t, meta, early) && t.reclaimed[ID] == 1
  {
    hide Leads;
    var s1 := Look(env, START, s, 1, OneOff(now));
    var s2 := SkipBlob(env, s1, now);
    var s3 := TakeSidecar(env, START, s2, 1, OneOff(now), true, false);
    t := Commit(env, START, s3, 0);
  }

  lemma SkipBlob(env: Env, s: State, now: nat) returns (t: State)
    requires Leads(env, START, s) && 1 in s.procs && s.procs[1] == Deleting(ID, OneOff(now), DropBlob(false, true))
    ensures Leads(env, START, t)
    ensures t == s.(procs := s.procs[1 := Deleting(ID, OneOff(now), DropMeta(true, true, false))])
  {
    hide Leads, Return;
    t := DeleteStep(env, START, s, 1, true);
  }

  lemma StrandedIsOrphaned(s: State, meta: ChunkMeta, early: nat)
    requires Stranded(s, meta, early)
    ensures !NoOrphans(s)
  {
  }

  // ---- what else goes wrong -------------------------------------------------------------------

  /** Some step of some run removes a file of a committed chunk it has no business with. */
  ghost predicate RemovesUnduly(env: Env)
  {
    exists s, e, t, id :: UnduePair(env, s, e, t, id)
  }

  ghost predicate UnduePair(env: Env, s: State, e: Event, t: State, id: Id)
  {
    && Reachable(env, s) && Apply(env, s, e) == Some(t) && Loses(s, t, id)
    && id in s.fate && s.fate[id].Committed? && !Due(s, e, id)
  }

  /** Sweep 2 misses the sidecar, and takes the blob though the chunk has not expired. */
  lemma StrandedIsTaken(env: Env, s: State, meta: ChunkMeta, early: nat) returns (u: State)
    requires Leads(env, START, s) && Stranded(s, meta, early)
    ensures RemovesUnduly(env)
    ensures Leads(env, START, u) && u.reclaimed == s.reclaimed + multiset{ID}
  {
    hide Leads;
    var s1 := Judge(env, START, s, 2, early, true);
    var s2 := Look(env, START, s1, 2, OneOff(early));
    var s3 := TakeBlob(env, START, s2, 2, OneOff(early), false);
    Undue(env, s2, s3, 2, early);
    u := DeleteStep(env, START, s3, 2, true);
  }

  lemma Undue(env: Env, s: State, t: State, p: Pid, now: nat)
    requires Leads(env, START, s) && p in s.procs && s.procs[p].Deleting? && s.procs[p].caller == OneOff(now)
    requires ID in s.fate && s.fate[ID].Committed? && !s.fate[ID].meta.ExpiredAt(now)
    requires ID in s.disk.blobs && ID !in t.disk.blobs && Delete(env, s, p, s.procs[p], true) == Some(t)
    ensures RemovesUnduly(env)
  {
    hide Delete;
    assert UnduePair(env, s, Do(p, true), t, ID);
  }

  // ---- removals that are refused for one file only --------------------------------------------

  /** A chunk has expired that sweep 2 has had on its list since before, and sweep 1 finds it so. */
  lemma Expired(env: Env, meta: ChunkMeta) returns (t: State)
    requires env.maxChunkSize >= 1 && meta == Describe(env, ID, KEY, NANOS, "x", 0)
    ensures Leads(env, START, t) && t.fate == map[ID := Committed("x", meta)]
    ensures t.procs == map[1 := Deleting(ID, OneOff(NANOS), StatBlob), 2 := Scanning(0, [ID], 0, 1)]
    ensures t.disk == Disk(map[ID := "x"], map[ID := Readable(meta)], map[])
  {
    hide Leads, Describe, Unix;
    Lifetimes(env);
    NothingLeads(env, START);
    var s1 := StartSweeping(env, START, START, 2);
    var s2 := Store(env, START, s1, 0, KEY, "x", NANOS);
    var s3 := List(env, START, s2, 2, 0);
    var s4 := Wait(env, START, s3, NANOS);
    var s5 := StartSweeping(env, START, s4, 1);
    var s6 := List(env, START, s5, 1, NANOS);
    t := Judge(env, START, s6, 1, NANOS, true);
  }

  /** A directory refuses to drop the blob of an expired chunk, and drops its sidecar. */
  lemma StrandedByRefusal(env: Env) returns (t: State, meta: ChunkMeta)
    requires !env.pairedRemoval && env.maxChunkSize >= 1
    ensures Leads(env, START, t) && Stranded(t, meta, 0)
  {
    hide Leads, Describe, Unix;
    meta := Describe(env, ID, KEY, NANOS, "x", 0);
    Lifetimes(env);
    var s7 := Expired(env, meta);
    t := RefuseBlob(env, s7, NANOS);
    assert 2 in t.procs - {1} && t.procs[2] == (t.procs - {1})[2] == (s7.procs - {1})[2];
  }

  lemma RefuseBlob(env: Env, s: State, now: nat) returns (t: State)
    requires Leads(env, START, s) && !env.pairedRemoval
    requires 1 in s.procs && s.procs[1] == Deleting(ID, OneOff(now), StatBlob)
    requires ID in s.disk.blobs && ID in s.disk.sidecars
    ensures Leads(env, START, t) && t.fate == s.fate && t.procs - {1} == s.procs - {1}
    ensures t.disk == s.disk.(sidecars := s.disk.sidecars - {ID})
  {
    hide Leads;
    var s1 := Look(env, START, s, 1, OneOff(now));
    var s2 := DeleteStep(env, START, s1, 1, false);
    t := TakeSidecar(env, START, s2, 1, OneOff(now), false, true);
  }

  // ---- ids drawn twice ------------------------------------------------------------------------

  /** The second upload's failed rename takes the first one's sidecar with it. */
  lemma OrphanedByRedraw(env: Env) returns (t: State)
    requires !env.freshIds && env.maxChunkSize >= 1
    ensures Leads(env, START, t) && !NoOrphans(t)
  {
    hide Leads, Describe;
    NothingLeads(env, START);
    var s1 := Store(env, START, START, 0, KEY, "x", 10 * NANOS);
    var s2 := Upload(env, START, s1, 0, KEY, "x", 10 * NANOS);
    var s3 := Publish(env, START, s2, 0, Describe(env, ID, KEY, 10 * NANOS, "x", 0), "x");
    t := FailedRename(env, s3);
  }

  lemma FailedRename(env: Env, s: State) returns (t: State)
    requires Leads(env, START, s) && 0 in s.procs && s.procs[0].Renaming? && s.procs[0].id == ID && ID in s.disk.blobs
    ensures Leads(env, START, t) && !NoOrphans(t)
  {
    hide Leads;
    var s1 := IngestStep(env, START, s, 0, false);
    t := IngestStep(env, START, s1, 0, true);
    assert ID in t.disk.blobs && ID !in t.disk.sidecars;
  }

  /** Sweep p is about to delete a chunk that is complete, and live. */
  predicate Misjudged(s: State, p: Pid, now: nat)
  {
    && p in s.procs && s.procs[p] == Deleting(ID, OneOff(now), StatBlob)
    && ID in s.disk.blobs && LiveSidecar(s.disk, ID, s.clock)
  }

  /** Both sweeps find a chunk expired, one deletes it, and the id is drawn again. */
  lemma MisjudgedByRedraw(env: Env) returns (t: State)
    requires !env.freshIds && env.maxChunkSize >= 1
    ensures Leads(env, START, t) && Misjudged(t, 2, NANOS) && t.reclaimed[ID] == 1
    ensures ID in t.fate && t.fate[ID].Committed? && !t.fate[ID].meta.ExpiredAt(NANOS)
  {
    hide Leads, Describe;
    Lifetimes(env);
    NothingLeads(env, START);
    var s1 := Store(env, START, START, 0, KEY, "x", NANOS);
    var s2 := Wait(env, START, s1, NANOS);
    var s3 := JudgeTwice(env, s2, NANOS);
    var s4 := TakeBoth(env, START, s3, 1, OneOff(NANOS));
    assert 2 in s4.procs - {1} && s4.procs[2] == (s4.procs - {1})[2] == (s3.procs - {1})[2];
    assert 0 !in s4.procs - {1} && 0 !in s4.procs;
    t := Store(env, START, s4, 0, KEY, "x", 10 * NANOS);
    LivesOn(env);
  }

  lemma LivesOn(env: Env)
    ensures !Describe(env, ID, KEY, 10 * NANOS, "x", NANOS).ExpiredAt(NANOS)
  {
  }

  lemma JudgeTwice(env: Env, s: State, now: nat) returns (t: State)
    requires Leads(env, START, s) && s.procs == map[] && s.clock == now
    requires ID in s.disk.sidecars && Reclaimable(s.disk, ID, now)
    ensures Leads(env, START, t)
    ensures t == s.(procs := map[1 := Deleting(ID, OneOff(now), StatBlob), 2 := Deleting(ID, OneOff(now), StatBlob)])
  {
    hide Leads, Reclaimable;
    var s1 := StartSweeping(env, START, s, 1);
    var s2 := List(env, START, s1, 1, now);
    var s3 := Judge(env, START, s2, 1, now, true);
    var s4 := StartSweeping(env, START, s3, 2);
    var s5 := List(env, START, s4, 2, now);
    t := Judge(env, START, s5, 2, now, true);
  }

  /** Some step of some run takes a file of a live chunk other than on behalf of its owner. */
  ghost predicate TakesLive(env: Env)
  {
    exists s, e, t, id :: LivePair(env, s, e, t, id)
  }

  ghost predicate LivePair(env: Env, s: State, e: Event, t: State, id: Id)
  {
    && Reachable(env, s) && Apply(env, s, e) == Some(t) && Loses(s, t, id)
    && LiveSidecar(s.disk, id, s.clock) && id in s.disk.blobs
    && !TakenByOwner(s, e, id)
  }

  predicate TakenByOwner(s: State, e: Event, id: Id)
    requires id in s.disk.sidecars && s.disk.sidecars[id].Readable?
  {
    && e.Do? && e.p in s.procs && s.procs[e.p].Deleting? && s.procs[e.p].id == id
    && s.procs[e.p].caller == ByOwner(s.disk.sidecars[id].meta.owner)
  }

  lemma MisjudgedIsTaken(env: Env, s: State, p: Pid, now: nat) returns (u: State)
    requires Leads(env, START, s) && Misjudged(s, p, now)
    ensures TakesLive(env)
    ensures ID in s.fate && s.fate[ID].Committed? && !s.fate[ID].meta.ExpiredAt(now) ==> RemovesUnduly(env)
    ensures Leads(env, START, u) && u.reclaimed == s.reclaimed + multiset{ID}
  {
    hide Leads, RemovesUnduly, TakesLive, Unix;
    var s1 := Look(env, START, s, p, OneOff(now));
    var s2 := TakeBlob(env, START, s1, p, OneOff(now), true);
    LiveTaken(env, s1, s2, p);
    if ID in s.fate && s.fate[ID].Committed? && !s.fate[ID].meta.ExpiredAt(now) {
      Undue(env, s1, s2, p, now);
    }
    u := TakeSidecar(env, START, s2, p, OneOff(now), true, false);
  }

  lemma LiveTaken(env: Env, s: State, t: State, p: Pid)
    requires Leads(env, START, s) && p in s.procs && s.procs[p].Deleting? && s.procs[p].caller.BySweep?
    requires LiveSidecar(s.disk, ID, s.clock)
    requires ID in s.disk.blobs && ID !in t.disk.blobs && Delete(env, s, p, s.procs[p], true) == Some(t)
    ensures TakesLive(env)
  {
    hide Delete;
    assert LivePair(env, s, Do(p, true), t, ID);
  }

  // ---- answers, downloads and contents --------------------------------------------------------

  /** All four stats of a DELETE fail, and it is answered with a 204 though both files are there. */
  lemma GoneUnseen(env: Env) returns (t: State)
    requires !env.faithfulReads && env.maxChunkSize >= 1
    ensures Leads(env, START, t) && ID in t.gone && ID in t.disk.blobs && ID in t.disk.sidecars
  {
    hide Leads;
    NothingLeads(env, START);
    var s1 := Store(env, START, START, 0, KEY, "x", NANOS);
    var s2 := AskToDelete(env, START, s1, 3);
    var s3 := SeeNothing(env, s2, ByOwner(KEY));
    var s4 := AnswerStep(env, START, s3, 3, false);
    t := AnswerStep(env, START, s4, 3, false);
  }

  lemma SeeNothing(env: Env, s: State, caller: Caller) returns (t: State)
    requires Leads(env, START, s) && !env.faithfulReads && 3 in s.procs && s.procs[3] == Deleting(ID, caller, StatBlob)
    ensures Leads(env, START, t) && t == Return(s, 3, ID, caller, false).(procs := t.procs)
    ensures caller.ByOwner? ==> t.procs == s.procs[3 := ExistsBlob(ID)]
  {
    hide Leads;
    var s1 := DeleteStep(env, START, s, 3, false);
    t := DeleteStep(env, START, s1, 3, false);
  }

  /** A chunk is deleted, and its id drawn again. */
  lemma GoneAndBack(env: Env) returns (t: State)
    requires !env.freshIds && env.maxChunkSize >= 1
    ensures Leads(env, START, t) && ID in t.gone && ID in t.disk.blobs
  {
    hide Leads;
    NothingLeads(env, START);
    var s1 := Store(env, START, START, 0, KEY, "x", NANOS);
    var s2 := AskToDelete(env, START, s1, 3);
    var s3 := TakeBoth(env, START, s2, 3, ByOwner(KEY));
    assert 0 !in s3.procs - {3} && 0 !in s3.procs;
    t := Store(env, START, s3, 0, KEY, "x", NANOS);
  }

  /** A download has read the sidecar of a chunk of one octet. */
  lemma ReadBefore(env: Env) returns (t: State, meta: ChunkMeta)
    requires env.maxChunkSize >= 1
    ensures Leads(env, START, t) && t.clock == 0 && t.stored == {(ID, "x")} && ID !in t.disk.temps
    ensures t.procs == map[4 := GetStats(ID, "", meta)] && meta.size == 1
  {
    hide Leads;
    NothingLeads(env, START);
    var s1 := Store(env, START, START, 0, KEY, "x", NANOS);
    var s2 := StartGetting(env, s1);
    t := DownloadStep(env, START, s2, 4, true);
    meta := s1.disk.sidecars[ID].meta;
  }

  /** A download of which the size is known opens the chunk that is there by then. */
  lemma OpenAfter(env: Env, s: State, meta: ChunkMeta) returns (t: State)
    requires Leads(env, START, s) && 4 in s.procs && s.procs[4] == GetStats(ID, "", meta) && meta.size == 1
    requires ID in s.disk.blobs
    ensures Leads(env, START, t) && t == s.(procs := s.procs[4 := Sending(ID, "", ALL, s.disk.blobs[ID], [])])
  {
    hide Leads, Asked;
    OneIsAsked();
    var s1 := DownloadStep(env, START, s, 4, true);
    t := DownloadStep(env, START, s1, 4, true);
    assert t.procs == s.procs[4 := Sending(ID, "", ALL, s.disk.blobs[ID], [])];
  }

  /**
   * A download reads the sidecar of a body of one octet; the id is drawn again for a body of two; the download
   * opens that one and sends half of it as the whole, which is neither body.
   */
  lemma DeliversHalf(env: Env) returns (t: State)
    requires !env.freshIds && env.maxChunkSize >= 2
    ensures Leads(env, START, t) && t.stored == {(ID, "x"), (ID, "yz")}
    ensures t.procs == map[4 := Sent(ID, "", ALL, "y")]
  {
    hide Leads;
    var s1, meta := ReadBefore(env);
    var s2 := Store(env, START, s1, 0, KEY, "yz", NANOS);
    var s3 := OpenAfter(env, s2, meta);
    t := FetchOctet(env, s3, "yz");
    assert "yz"[0..1] == "y";
  }

  lemma HalfIsNeither()
    ensures !IsAsked("x", "", ALL, "y") && !IsAsked("yz", "", ALL, "y")
  {
    OneIsAsked();
    TwoAreAsked();
    hide Asked;
    assert "x"[0..1] == "x" && "x"[0] != "y"[0];
  }

  const ALL: ByteRange.Span := ByteRange.Span(0, 0)

  lemma OneIsAsked()
    ensures Asked("", 1) == Some(ALL)
  {
  }

  lemma TwoAreAsked()
    ensures Asked("", 2) == Some(ByteRange.Span(0, 1))
  {
  }

  lemma StartGetting(env: Env, s: State) returns (t: State)
    requires Leads(env, START, s) && 4 !in s.procs
    ensures Leads(env, START, t) && t == s.(procs := s.procs[4 := GetReads(ID, "")])
  {
    hide Leads, Advance, Send, Receive, Keys.Greatest, IsValidId, ID;
    IdIsValid();
    t := Next(env, START, s, StartGet(4, ID, ""));
  }

  lemma FetchOctet(env: Env, s: State, file: Octets) returns (t: State)
    requires Leads(env, START, s) && |file| >= 1 && 4 in s.procs && s.procs[4] == Sending(ID, "", ALL, file, [])
    ensures Leads(env, START, t) && t == s.(procs := s.procs[4 := Sent(ID, "", ALL, file[0..1])])
  {
    hide Leads, Advance, Keys.Greatest, Receive;
    assert [] + file[0..1] == file[0..1];
    t := Next(env, START, s, Fetch(4, 1));
  }

  /** The second upload to an id replaces the body of the first. */
  lemma Overwrites(env: Env) returns (s: State, t: State)
    requires !env.freshIds && env.maxChunkSize >= 1
    ensures Leads(env, START, s) && Leads(env, s, t)
    ensures ID in s.fate && s.fate[ID].Committed? && !AsCommitted(s, t, ID)
  {
    hide Leads;
    NothingLeads(env, START);
    s := Store(env, START, START, 0, KEY, "x", NANOS);
    NothingLeads(env, s);
    t := Store(env, s, s, 0, KEY, "y", NANOS);
  }

  /** An owner's DELETE that was let through removes what somebody else, anonymous, has uploaded meanwhile. */
  lemma TakesAnothers(env: Env) returns (s: State, t: State)
    requires !env.freshIds && env.maxChunkSize >= 1
    ensures Leads(env, START, s) && Apply(env, s, Do(3, true)) == Some(t) && Loses(s, t, ID)
    ensures ID in s.fate && s.fate[ID].Committed? && s.fate[ID].meta.owner == Keys.ANONYMOUS
    ensures !Entitled(s, Do(3, true), ID)
  {
    hide Leads;
    NothingLeads(env, START);
    var s1 := Store(env, START, START, 0, KEY, "x", NANOS);
    var s2 := AskToDelete(env, START, s1, 3);
    var s3 := Store(env, START, s2, 0, Keys.ANONYMOUS, "x", NANOS);
    s := Look(env, START, s3, 3, ByOwner(KEY));
    t := TakeBlob(env, START, s, 3, ByOwner(KEY), true);
  }

  // ---- the exact conditions -------------------------------------------------------------------

  /**
   * No run leaves an orphan exactly when the environment is sound: fresh ids, sidecars that appear in one
   * step, renames before expiry, removals that are refused together, a clock that never runs backwards,
   * and reads that fail only for missing files. Each of the six is needed.
   */
  lemma NoOrphansExactly(env: Env)
    requires env.maxChunkSize >= 1
    ensures (forall s :: Reachable(env, s) ==> NoOrphans(s)) <==> env.Sound()
  {
    hide Leads, NoOrphans;
    if env.Sound() {
      forall s | Reachable(env, s)
        ensures NoOrphans(s)
      {
        SoundRunsLeaveNoOrphans(env, s);
      }
    } else if env.Prudent() && env.timelyRename {
      var t, meta := StrandedByRefusal(env);
      StrandedIsOrphaned(t, meta, 0);
    } else if !env.freshIds {
      var t := OrphanedByRedraw(env);
    } else {
      var t, meta := StrandedByDoubt(env);
      StrandedIsOrphaned(t, meta, 0);
    }
  }

  /** Without one of four conditions a chunk is stranded after a delete that returned true. */
  lemma StrandedByDoubt(env: Env) returns (t: State, meta: ChunkMeta)
    requires env.freshIds && !(env.Prudent() && env.timelyRename) && env.maxChunkSize >= 1
    ensures Leads(env, START, t) && Stranded(t, meta, 0) && t.reclaimed[ID] == 1
  {
    hide Leads, Misled, Stranded;
    if !env.wholeSidecars {
      var s, m := MisledByTornSidecar(env);
      meta := m;
      t := Strand(env, s, m, 0, 0);
    } else if !env.timelyRename {
      var s, m := MisledByLateRename(env);
      meta := m;
      t := Strand(env, s, m, NANOS, 0);
    } else if !env.steadyClock {
      var s, m := MisledByClock(env);
      meta := m;
      t := Strand(env, s, m, 100 * NANOS, 0);
    } else {
      var s, m := MisledByFailedRead(env);
      meta := m;
      t := Strand(env, s, m, 0, 0);
    }
  }

  /**
   * A committed chunk loses its files only to its owner, or to a sweep that started after its expiry,
   * exactly when the environment is sound.
   */
  lemma OnlyOwnersAndExpiryExactly(env: Env)
    requires env.maxChunkSize >= 1
    ensures !RemovesUnduly(env) <==> env.Sound()
  {
    hide Leads, Due, Stranded, Misjudged;
    if env.Sound() {
      forall s, e, t, id
        ensures !UnduePair(env, s, e, t, id)
      {
        if UnduePair(env, s, e, t, id) {
          OnlyOwnersAndExpiryRemove(env, s, e, t, id);
        }
      }
    } else if env.Prudent() && env.timelyRename {
      var s, meta := StrandedByRefusal(env);
      var u := StrandedIsTaken(env, s, meta, 0);
    } else if !env.freshIds {
      var s := MisjudgedByRedraw(env);
      var u := MisjudgedIsTaken(env, s, 2, NANOS);
    } else {
      var s, meta := StrandedByDoubt(env);
      var u := StrandedIsTaken(env, s, meta, 0);
    }
  }

  /**
   * Store.Delete returns true at most once for an id exactly when ids are fresh, sidecars whole, renames
   * timely, the clock steady and reads faithful: removals need not be paired.
   */
  lemma TrueOnceExactly(env: Env)
    requires env.maxChunkSize >= 1
    ensures (forall s, id :: Reachable(env, s) ==> s.reclaimed[id] <= 1) <==> env.Prudent() && env.timelyRename
  {
    hide Leads, Stranded, Misjudged;
    if env.Prudent() && env.timelyRename {
      forall s, id | Reachable(env, s)
        ensures s.reclaimed[id] <= 1
      {
        Once.DeleteIsTrueOnce(env, s);
      }
    } else {
      var u: State;
      if !env.freshIds {
        var s := MisjudgedByRedraw(env);
        u := MisjudgedIsTaken(env, s, 2, NANOS);
      } else {
        var s, meta := StrandedByDoubt(env);
        u := StrandedIsTaken(env, s, meta, 0);
      }
      assert Reachable(env, u) && u.reclaimed[ID] == 2;
    }
  }

  /** No sweep takes a file of a live chunk exactly when ids are fresh, sidecars whole, clock steady, reads faithful. */
  lemma LiveChunksAreSafeExactly(env: Env)
    requires env.maxChunkSize >= 1
    ensures !TakesLive(env) <==> env.Prudent()
  {
    hide Leads, Misjudged;
    if env.Prudent() {
      forall s, e, t, id
        ensures !LivePair(env, s, e, t, id)
      {
        if LivePair(env, s, e, t, id) {
          LiveChunksAreSafeFromSweeps(env, s, e, t, id);
        }
      }
    } else {
      var s, p, now := MisjudgedByDoubt(env);
      var u := MisjudgedIsTaken(env, s, p, now);
    }
  }

  lemma MisjudgedByDoubt(env: Env) returns (s: State, p: Pid, now: nat)
    requires !env.Prudent() && env.maxChunkSize >= 1
    ensures Leads(env, START, s) && Misjudged(s, p, now)
  {
    hide Leads, Misled, Misjudged;
    if !env.freshIds {
      s := MisjudgedByRedraw(env);
      p, now := 2, NANOS;
    } else {
      var u: State, meta: ChunkMeta;
      p := 1;
      if !env.wholeSidecars {
        now := 0;
        u, meta := MisledByTornSidecar(env);
      } else if !env.steadyClock {
        now := 100 * NANOS;
        u, meta := MisledByClock(env);
      } else {
        now := 0;
        u, meta := MisledByFailedRead(env);
      }
      s := MisledCommits(env, u, meta, now);
    }
  }

  lemma MisledCommits(env: Env, s: State, meta: ChunkMeta, now: nat) returns (t: State)
    requires Leads(env, START, s) && Misled(env, s, meta, now, 0) && !meta.ExpiredAt(s.clock)
    ensures Leads(env, START, t) && Misjudged(t, 1, now)
  {
    hide Leads;
    t := Commit(env, START, s, 0);
  }

  /** A 204 means that nothing is left, then and later, exactly when ids are fresh and reads are faithful. */
  lemma GoneExactly(env: Env)
    requires env.maxChunkSize >= 1
    ensures (forall s :: Reachable(env, s) ==> GoneIsGone(s)) <==> env.freshIds && env.faithfulReads
  {
    hide Leads;
    if env.freshIds && env.faithfulReads {
      forall s | Reachable(env, s)
        ensures GoneIsGone(s)
      {
        ReachableIsGone(env, s);
      }
    } else {
      var t: State;
      if !env.faithfulReads {
        t := GoneUnseen(env);
      } else {
        t := GoneAndBack(env);
      }
      assert Reachable(env, t) && !GoneIsGone(t);
    }
  }

  /** What a download sent is what it was asked for of some body that was ever committed under its id. */
  ghost predicate OfSomeBody(s: State, id: Id, range: Octets, span: ByteRange.Span, sent: Octets)
  {
    exists body :: (id, body) in s.stored && IsAsked(body, range, span, sent)
  }

  /** Every download that finished has delivered what it was asked for of one body or another. */
  ghost predicate DownloadsAreExact(s: State)
  {
    forall p :: p in s.procs && s.procs[p].Sent? ==>
      var Sent(id, range, span, sent) := s.procs[p]; OfSomeBody(s, id, range, span, sent)
  }

  /** With fresh ids so has every download in every run; and with a limit of two octets or more only then. */
  lemma DownloadsExactly(env: Env)
    ensures env.freshIds ==> forall s :: Reachable(env, s) ==> DownloadsAreExact(s)
    ensures env.maxChunkSize >= 2 ==> ((forall s :: Reachable(env, s) ==> DownloadsAreExact(s)) <==> env.freshIds)
  {
    hide Leads, IsAsked;
    if env.freshIds {
      forall s | Reachable(env, s)
        ensures DownloadsAreExact(s)
      {
        forall p | p in s.procs && s.procs[p].Sent?
          ensures var Sent(id, range, span, sent) := s.procs[p]; OfSomeBody(s, id, range, span, sent)
        {
          FinishedGetsAreExact(env, s, p);
          Promises.ReachableKeepsPromises(env, s);
          assert Promises.Fulfilled(s, s.procs[p].id);
        }
      }
    } else if env.maxChunkSize >= 2 {
      var t := DeliversHalf(env);
      HalfIsNeither();
      assert !OfSomeBody(t, ID, "", ALL, "y");
      assert Reachable(env, t) && t.procs[4].Sent? && !DownloadsAreExact(t);
    }
  }

  /** What is on disk of every chunk committed before is what was committed. */
  ghost predicate ContentsStay(s: State, t: State)
  {
    forall id :: id in s.fate && s.fate[id].Committed? ==> AsCommitted(s, t, id)
  }

  /** So it is exactly when ids are fresh. */
  lemma ContentsExactly(env: Env)
    requires env.maxChunkSize >= 1
    ensures (forall s, t :: Reachable(env, s) && Leads(env, s, t) ==> ContentsStay(s, t)) <==> env.freshIds
  {
    hide AsCommitted, Run;
    if env.freshIds {
      forall s, t | Reachable(env, s) && Leads(env, s, t)
        ensures ContentsStay(s, t)
      {
        forall id | id in s.fate && s.fate[id].Committed?
          ensures AsCommitted(s, t, id)
        {
          var events :| Run(env, s, events) == Some(t);
          CommittedIsImmutable(env, s, id, events, t);
        }
      }
    } else {
      var s, t := Overwrites(env);
      assert Reachable(env, s) && Leads(env, s, t) && !ContentsStay(s, t);
    }
  }

  /** Some step of some run takes a file of a committed chunk for an API DELETE of somebody else. */
  ghost predicate TakesForeign(env: Env)
  {
    exists s, e, t, id :: ForeignPair(env, s, e, t, id)
  }

  ghost predicate ForeignPair(env: Env, s: State, e: Event, t: State, id: Id)
  {
    && Reachable(env, s) && Apply(env, s, e) == Some(t) && Loses(s, t, id)
    && id in s.fate && s.fate[id].Committed? && !Entitled(s, e, id)
  }

  /** API DELETEs remove only what their caller uploaded, and nothing anonymous, exactly when ids are fresh. */
  lemma OwnersExactly(env: Env)
    requires env.maxChunkSize >= 1
    ensures !TakesForeign(env) <==> env.freshIds
  {
    hide Leads, Entitled, Apply;
    if env.freshIds {
      forall s, e, t, id
        ensures !ForeignPair(env, s, e, t, id)
      {
        if ForeignPair(env, s, e, t, id) {
          OnlyOwnersAndSweepsRemove(env, s, e, t, id);
        }
      }
    } else {
      var s, t := TakesAnothers(env);
      assert ForeignPair(env, s, Do(3, true), t, ID);
    }
  }
}

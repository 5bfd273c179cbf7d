/** What the store promises in every run: the main results about the step machine. */
module Safety {
  import opened Text
  import opened Disk
  import opened Machine
  import opened Facts
  import opened Order
  import ByteRange
  import Keys
  import Promises

  // ---- no orphans -----------------------------------------------------------------------------

  /** Every blob has a sidecar beside it under a well-formed id, so a listing of sidecars misses none. */
  ghost predicate NoOrphans(s: State)
  {
    forall id :: id in s.disk.blobs ==> id in s.disk.sidecars && IsValidId(id)
  }

  lemma SoundRunsLeaveNoOrphans(env: Env, s: State)
    requires env.Sound() && Reachable(env, s)
    ensures NoOrphans(s)
  {
    ReachableFits(env, s);
    forall id | id in s.disk.blobs
      ensures id in s.disk.sidecars && IsValidId(id)
    {
      assert IdOk(env, id, ViewOf(s, id)) && IdFits(env, ViewOf(s, id), s.clock);
      assert ViewOf(s, id).blob.Some?;
    }
  }

  /** Every sidecar, and every upload under way, has a well-formed id. */
  ghost predicate Addressed(s: State)
  {
    && (forall id :: id in s.disk.sidecars ==> IsValidId(id))
    && (forall p :: p in s.procs && Promises.Uploads(s.procs[p]) ==> IsValidId(s.procs[p].id))
  }

  /** A step of an upload, which adds no sidecar but its own. */
  ghost predicate AddsItsOwn(s: State, t: State, p: Pid, id: Id)
  {
    && t.disk.sidecars.Keys <= s.disk.sidecars.Keys + {id}
    && (p in t.procs && Promises.Uploads(t.procs[p]) ==> t.procs[p].id == id)
    && (forall q :: q in t.procs && q != p ==> q in s.procs && t.procs[q] == s.procs[q])
  }

  lemma IngestAddsItsOwn(env: Env, s: State, p: Pid, proc: Proc, ok: bool)
    requires Ingest(env, s, p, proc, ok).Some?
    ensures AddsItsOwn(s, Ingest(env, s, p, proc, ok).value, p, proc.id)
    ensures !Promises.Uploads(proc) ==>
              Ingest(env, s, p, proc, ok).value.disk.sidecars.Keys <= s.disk.sidecars.Keys
              && (p in Ingest(env, s, p, proc, ok).value.procs ==>
                    !Promises.Uploads(Ingest(env, s, p, proc, ok).value.procs[p]))
  {
    hide Describe;
  }

  lemma ReceiveAddsItsOwn(env: Env, s: State, p: Pid, proc: Proc, slice: Octets)
    requires proc.Receiving?
    ensures AddsItsOwn(s, Receive(env, s, p, proc, slice), p, proc.id)
  {
  }

  lemma ApplyKeepsAddressed(env: Env, s: State, e: Event, t: State)
    requires Addressed(s) && Apply(env, s, e) == Some(t)
    ensures Addressed(t)
  {
    hide Advance, Receive, Send, Ingest, Keys.Greatest, IsValidId, Promises.Uploads;
    if e.Do? && Promises.Bystands(s.procs[e.p]) {
      Promises.BystanderIsIdle(env, s, e.p, e.ok, t);
    } else if e.Do? {
      IngestAdvances(env, s, e.p, e.ok);
      IngestAddsItsOwn(env, s, e.p, s.procs[e.p], e.ok);
    } else if e.Arrive? {
      ReceiveAddsItsOwn(env, s, e.p, s.procs[e.p], e.slice);
      ReceivingUploads(s.procs[e.p]);
    } else if !e.Tick? && !e.StartIngest? {
      Promises.OtherIsIdle(env, s, e, t);
    }
  }

  lemma ReceivingUploads(proc: Proc)
    requires proc.Receiving?
    ensures Promises.Uploads(proc)
  {
  }

  lemma IngestAdvances(env: Env, s: State, p: Pid, ok: bool)
    requires p in s.procs && !Promises.Bystands(s.procs[p])
    ensures Advance(env, s, p, ok) == Ingest(env, s, p, s.procs[p], ok)
  {
    hide Ingest;
  }

  lemma {:induction false} RunKeepsAddressed(env: Env, s: State, events: seq<Event>, t: State)
    requires Addressed(s) && Run(env, s, events) == Some(t)
    ensures Addressed(t)
    decreases |events|
  {
    hide Addressed, Apply;
    if events != [] {
      var next := Apply(env, s, events[0]).value;
      ApplyKeepsAddressed(env, s, events[0], next);
      RunKeepsAddressed(env, next, events[1..], t);
    }
  }

  lemma SidecarIdsAreValid(env: Env, s: State)
    requires Reachable(env, s)
    ensures forall id :: id in s.disk.sidecars ==> IsValidId(id)
  {
    hide Apply;
    var events :| Run(env, START, events) == Some(s);
    RunKeepsAddressed(env, START, events, s);
  }

  // ---- later states ---------------------------------------------------------------------------

  /** What one event can never undo: a commitment, and an answer of 204. */
  ghost predicate Remembers(s: State, t: State)
  {
    && (forall id :: id in s.fate && s.fate[id].Committed? ==> id in t.fate && t.fate[id] == s.fate[id])
    && s.gone <= t.gone
  }

  lemma ApplyRemembers(env: Env, s: State, e: Event, t: State)
    requires env.freshIds && Sane(env, s) && Apply(env, s, e) == Some(t)
    ensures Remembers(s, t)
  {
    hide Sane, Advance, Receive, ProcOk, Keys.Greatest;
    match e
    case Do(p, ok) =>
      ProcIsSane(env, s, p);
      if Scans(s.procs[p]) {
        ScanRemembers(env, s, p, s.procs[p], ok, t);
      } else {
        WorkRemembers(env, s, p, s.procs[p], ok, t);
      }
    case Arrive(p, slice) =>
      ProcIsSane(env, s, p);
      ReceiveRemembers(env, s, p, s.procs[p], slice);
    case _ =>
  }

  lemma ReceiveRemembers(env: Env, s: State, p: Pid, proc: Proc, slice: Octets)
    requires proc.Receiving? && ProcOk(env, s, p, proc)
    ensures Remembers(s, Receive(env, s, p, proc, slice))
  {
  }

  /** Processes whose next operation reads, and changes nothing but their own place. */
  predicate Scans(proc: Proc)
  {
    proc.Listing? || proc.Scanning? || proc.Reaping? || proc.GetReads? || proc.GetStats? || proc.Opening?
  }

  lemma ScanRemembers(env: Env, s: State, p: Pid, proc: Proc, ok: bool, t: State)
    requires p in s.procs && s.procs[p] == proc && Scans(proc) && Advance(env, s, p, ok) == Some(t)
    ensures Remembers(s, t)
  {
  }

  lemma ProcIsSane(env: Env, s: State, p: Pid)
    requires Sane(env, s) && p in s.procs
    ensures ProcOk(env, s, p, s.procs[p])
  {
  }

  lemma WorkRemembers(env: Env, s: State, p: Pid, proc: Proc, ok: bool, t: State)
    requires p in s.procs && s.procs[p] == proc && ProcOk(env, s, p, proc) && Advance(env, s, p, ok) == Some(t)
    requires !Scans(proc)
    ensures Remembers(s, t)
  {
    hide Ingest, Delete, HandleDelete, Sweep, Download, ProcOk;
    if proc.Deleting? {
      DeleteRemembers(env, s, p, proc, ok);
    } else if proc.ReapingOne? {
      ReapRemembers(env, s, p, proc, ok);
    } else if Answers(proc) {
      AnswerRemembers(env, s, p, proc, ok);
    } else {
      IngestRemembers(env, s, p, proc, ok);
    }
  }

  lemma IngestRemembers(env: Env, s: State, p: Pid, proc: Proc, ok: bool)
    requires ProcOk(env, s, p, proc) && Ingest(env, s, p, proc, ok).Some?
    ensures Remembers(s, Ingest(env, s, p, proc, ok).value)
  {
  }

  lemma AnswerRemembers(env: Env, s: State, p: Pid, proc: Proc, ok: bool)
    requires HandleDelete(env, s, p, proc, ok).Some?
    ensures Remembers(s, HandleDelete(env, s, p, proc, ok).value)
  {
  }

  lemma ReapRemembers(env: Env, s: State, p: Pid, proc: Proc, ok: bool)
    requires proc.ReapingOne? && Sweep(env, s, p, proc, ok).Some?
    ensures Remembers(s, Sweep(env, s, p, proc, ok).value)
  {
  }

  lemma DeleteRemembers(env: Env, s: State, p: Pid, proc: Proc, ok: bool)
    requires proc.Deleting? && Delete(env, s, p, proc, ok).Some?
    ensures Remembers(s, Delete(env, s, p, proc, ok).value)
  {
    hide Return;
    var Deleting(id, caller, point) := proc;
    ReturnRemembers(s, p, id, caller, true);
    ReturnRemembers(s, p, id, caller, false);
    ReturnRemembers(DropSidecar(s, id), p, id, caller, true);
    ReturnRemembers(DropSidecar(s, id), p, id, caller, false);
  }

  lemma ReturnRemembers(s: State, p: Pid, id: Id, caller: Caller, deleted: bool)
    ensures var t := Return(s, p, id, caller, deleted); t.fate == s.fate && s.gone <= t.gone
  {
  }

  lemma {:induction false} RunRemembers(env: Env, s: State, events: seq<Event>, t: State)
    requires env.freshIds && Sane(env, s) && Run(env, s, events) == Some(t)
    ensures Remembers(s, t) && Sane(env, t)
    decreases |events|
  {
    hide Sane, Apply;
    if events != [] {
      var next := Apply(env, s, events[0]).value;
      ApplyKeepsSane(env, s, events[0], next);
      ApplyRemembers(env, s, events[0], next);
      RunRemembers(env, next, events[1..], t);
    }
  }

  // ---- deletion -------------------------------------------------------------------------------

  /** Nothing is left of a chunk whose DELETE was answered with a 204. */
  ghost predicate GoneIsGone(s: State)
  {
    forall id :: id in s.gone ==> id !in s.disk.blobs && id !in s.disk.sidecars
  }

  lemma ReachableIsGone(env: Env, s: State)
    requires env.freshIds && env.faithfulReads && Reachable(env, s)
    ensures GoneIsGone(s)
  {
    ReachableIsSane(env, s);
    forall id | id in s.gone
      ensures id !in s.disk.blobs && id !in s.disk.sidecars
    {
      assert IdOk(env, id, ViewOf(s, id));
    }
  }

  /** Once a DELETE has been answered with a 204, neither file of the chunk exists, then or at any later time. */
  lemma GoneForGood(env: Env, s: State, id: Id, events: seq<Event>, t: State)
    requires env.freshIds && env.faithfulReads && Reachable(env, s) && id in s.gone && Run(env, s, events) == Some(t)
    ensures id !in t.disk.blobs && id !in t.disk.sidecars
  {
    ReachableIsSane(env, s);
    RunRemembers(env, s, events, t);
    assert IdOk(env, id, ViewOf(t, id));
  }

  /** A file of an id disappears in a step. */
  ghost predicate Loses(s: State, t: State, id: Id)
  {
    (id in s.disk.blobs && id !in t.disk.blobs) || (id in s.disk.sidecars && id !in t.disk.sidecars)
  }

  /** A step removes a file of a chunk on behalf of its owner, or for a sweep. */
  predicate Entitled(s: State, e: Event, id: Id)
  {
    && id in s.fate && s.fate[id].Committed?
    && e.Do? && e.p in s.procs && s.procs[e.p].Deleting? && s.procs[e.p].id == id
    && match s.procs[e.p].caller
       case ByOwner(key) => key == s.fate[id].meta.owner && key != Keys.ANONYMOUS
       case BySweep(_, _, _, _) => true
  }

  /**
   * A file of a committed chunk is only ever removed on behalf of the chunk's owner, who is never anonymous,
   * or by a sweep: no API DELETE, whatever the keys were when it was authenticated, removes a chunk of
   * somebody else or one uploaded anonymously.
   */
  lemma OnlyOwnersAndSweepsRemove(env: Env, s: State, e: Event, t: State, id: Id)
    requires env.freshIds && Reachable(env, s) && Apply(env, s, e) == Some(t) && Loses(s, t, id)
    requires id in s.fate && s.fate[id].Committed?
    ensures Entitled(s, e, id)
  {
    ReachableIsSane(env, s);
    if e.Do? {
      ProcIsSane(env, s, e.p);
    }
    hide Sane, Keys.Greatest, IdOk;
    OnlyDeleteLoses(env, s, e, t, id);
  }

  /** What entitles a sweep to a removal is a clock reading, taken when it started, at or past the chunk's expiry. */
  predicate Due(s: State, e: Event, id: Id)
  {
    Entitled(s, e, id) && match s.procs[e.p].caller
      case ByOwner(_) => true
      case BySweep(now, _, _, _) => now <= s.clock && s.fate[id].meta.ExpiredAt(now)
  }

  /** A file of a committed chunk is only ever removed by its owner, or by a sweep that started after its expiry. */
  lemma OnlyOwnersAndExpiryRemove(env: Env, s: State, e: Event, t: State, id: Id)
    requires env.Sound() && Reachable(env, s) && Apply(env, s, e) == Some(t) && Loses(s, t, id)
    requires id in s.fate && s.fate[id].Committed?
    ensures Due(s, e, id)
  {
    OnlyOwnersAndSweepsRemove(env, s, e, t, id);
    hide Apply;
    ReachableFits(env, s);
    assert ProcFits(env, s, s.procs[e.p]);
    assert IdFits(env, ViewOf(s, id), s.clock);
    assert id in s.disk.blobs ==> ViewOf(s, id).blob.Some?;
  }

  lemma OnlyDeleteLoses(env: Env, s: State, e: Event, t: State, id: Id)
    requires Apply(env, s, e) == Some(t) && Loses(s, t, id)
    requires id in s.fate && s.fate[id].Committed?
    requires e.Do? && e.p in s.procs ==> ProcOk(env, s, e.p, s.procs[e.p])
    ensures e.Do? && e.p in s.procs && s.procs[e.p].Deleting? && s.procs[e.p].id == id
  {
    hide Keys.Greatest, ProcOk;
    if e.Do? {
      hide Advance;
      AdvanceLoses(env, s, e.p, e.ok, t, id);
    }
  }

  lemma AdvanceLoses(env: Env, s: State, p: Pid, ok: bool, t: State, id: Id)
    requires p in s.procs && ProcOk(env, s, p, s.procs[p]) && Advance(env, s, p, ok) == Some(t) && Loses(s, t, id)
    requires id in s.fate && s.fate[id].Committed?
    ensures s.procs[p].Deleting? && s.procs[p].id == id
  {
    hide Delete, Asked, AllListed;
    var proc := s.procs[p];
    if proc.Deleting? {
      hide ProcOk;
      DeleteTouchesFiles(env, s, p, proc, ok, id);
    }
  }

  lemma DeleteTouchesFiles(env: Env, s: State, p: Pid, proc: Proc, ok: bool, id: Id)
    requires proc.Deleting? && Delete(env, s, p, proc, ok).Some? && Loses(s, Delete(env, s, p, proc, ok).value, id)
    ensures proc.id == id
  {
    DeleteApart(env, s, p, proc, ok, p, id);
    hide Delete;
  }

  /** A chunk that Store.Meta reports is never taken by a sweep, whenever that sweep started. */
  lemma LiveChunksAreSafeFromSweeps(env: Env, s: State, e: Event, t: State, id: Id)
    requires env.Prudent() && Reachable(env, s) && Apply(env, s, e) == Some(t) && Loses(s, t, id)
    requires LiveSidecar(s.disk, id, s.clock) && id in s.disk.blobs
    ensures e.Do? && e.p in s.procs && s.procs[e.p].Deleting? && s.procs[e.p].id == id
        && s.procs[e.p].caller == ByOwner(s.disk.sidecars[id].meta.owner)
  {
    ReachableFits(env, s);
    var v := ViewOf(s, id);
    assert IdOk(env, id, v);
    assert v.blob.Some? && v.sidecar.Some?;
    OnlyOwnersAndSweepsRemove(env, s, e, t, id);
    assert ProcFits(env, s, s.procs[e.p]);
  }

  /** Neither an API DELETE nor, before the expiry, a sweep removes a chunk uploaded anonymously. */
  lemma AnonymousChunksOnlyExpire(env: Env, s: State, e: Event, t: State, id: Id)
    requires env.freshIds && Reachable(env, s) && Apply(env, s, e) == Some(t) && Loses(s, t, id)
    requires id in s.fate && s.fate[id].Committed? && s.fate[id].meta.owner == Keys.ANONYMOUS
    ensures e.Do? && e.p in s.procs && s.procs[e.p].Deleting? && s.procs[e.p].caller.BySweep?
    ensures env.Sound() ==> s.fate[id].meta.ExpiredAt(s.clock)
  {
    OnlyOwnersAndSweepsRemove(env, s, e, t, id);
    if env.Sound() {
      OnlyOwnersAndExpiryRemove(env, s, e, t, id);
      UnixIsMonotone(s.procs[e.p].caller.now, s.clock);
    }
  }

  // ---- content --------------------------------------------------------------------------------

  /** What is on disk of a chunk that was committed earlier is what was committed. */
  predicate AsCommitted(s: State, t: State, id: Id)
    requires id in s.fate && s.fate[id].Committed?
  {
    && (id in t.disk.blobs ==> t.disk.blobs[id] == s.fate[id].body)
    && (id in t.disk.sidecars ==> t.disk.sidecars[id] == Readable(s.fate[id].meta))
  }

  /**
   * A committed chunk is immutable: at any later time its blob, if it is still there, holds the uploaded
   * body and its sidecar, if it is still there, what the upload wrote, the size, the digest and the length
   * declared among it, between one octet and the configured limit. In sound runs the blob has a sidecar.
   */
  lemma CommittedIsImmutable(env: Env, s: State, id: Id, events: seq<Event>, t: State)
    requires env.freshIds && Reachable(env, s) && id in s.fate && s.fate[id].Committed?
    requires Run(env, s, events) == Some(t)
    ensures var c := s.fate[id];
            && id in t.fate && t.fate[id] == c && AsCommitted(s, t, id)
            && c.meta.size == |c.body| && 1 <= |c.body| <= env.maxChunkSize && c.meta.sha256 == env.hash(c.body)
            && id in s.promised && id in t.promised && t.promised[id] == s.promised[id] == |c.body|
    ensures env.Sound() && id in t.disk.blobs ==> id in t.disk.sidecars
  {
    hide Sane, Run, Reachable, Promises.Recorded;
    ReachableIsSane(env, s);
    RunRemembers(env, s, events, t);
    Promises.ReachableKeepsPromises(env, s);
    Promises.RunKeepsPromises(env, s, events, t);
    assert Promises.Fulfilled(s, id);
    CommittedStays(env, s, id, t);
    if env.Sound() {
      LaterIsReachable(env, s, events, t);
      SoundRunsLeaveNoOrphans(env, t);
    }
  }

  lemma LaterIsReachable(env: Env, s: State, events: seq<Event>, t: State)
    requires Reachable(env, s) && Run(env, s, events) == Some(t)
    ensures Reachable(env, t)
  {
    hide Apply;
    var before :| Run(env, START, before) == Some(s);
    RunAppend(env, START, before, events);
  }

  lemma {:induction false} RunAppend(env: Env, s: State, before: seq<Event>, events: seq<Event>)
    requires Run(env, s, before).Some?
    ensures Run(env, s, before + events) == Run(env, Run(env, s, before).value, events)
    decreases |before|
  {
    hide Apply;
    if before == [] {
      assert before + events == events;
    } else {
      RunAppend(env, Apply(env, s, before[0]).value, before[1..], events);
      assert (before + events)[1..] == before[1..] + events;
    }
  }

  lemma CommittedStays(env: Env, s: State, id: Id, t: State)
    requires Sane(env, t) && Remembers(s, t) && id in s.fate && s.fate[id].Committed?
    ensures var c := s.fate[id];
            && id in t.fate && t.fate[id] == c && AsCommitted(s, t, id)
            && c.meta.size == |c.body| && 1 <= |c.body| <= env.maxChunkSize && c.meta.sha256 == env.hash(c.body)
  {
    var v := ViewOf(t, id);
    assert IdOk(env, id, v);
    assert id in t.disk.blobs ==> v.blob.Some?;
    assert id in t.disk.sidecars ==> v.sidecar.Some?;
  }

  /** The octets sent are those of the span that a Range header makes of a body. */
  predicate IsAsked(body: Octets, range: Octets, span: ByteRange.Span, sent: Octets)
  {
    Asked(range, |body|) == Some(span) && sent == body[span.from..span.to + 1]
  }

  /** What a download sent is what it was asked for of the chunk its id stands for. */
  predicate ExactlyAsked(s: State, id: Id, range: Octets, span: ByteRange.Span, sent: Octets)
  {
    && id in s.fate && s.fate[id].Committed? && s.fate[id].meta.size == |s.fate[id].body|
    && IsAsked(s.fate[id].body, range, span, sent)
  }

  lemma SentIsExact(env: Env, s: State, p: Pid, proc: Proc)
    requires proc.Sent? && ProcOk(env, s, p, proc) && IdOk(env, proc.id, ViewOf(s, proc.id))
    ensures ExactlyAsked(s, proc.id, proc.range, proc.span, proc.sent)
  {
    hide Asked;
  }

  /**
   * Whatever sweeps and deletes run meanwhile, a GET that sends its last slice has delivered exactly the
   * span its Range header makes of the body that was uploaded.
   */
  lemma FinishedGetsAreExact(env: Env, s: State, p: Pid)
    requires env.freshIds && Reachable(env, s) && p in s.procs && s.procs[p].Sent?
    ensures var Sent(id, range, span, sent) := s.procs[p]; ExactlyAsked(s, id, range, span, sent)
  {
    hide ProcOk, IdOk, ExactlyAsked, Reachable;
    var proc := s.procs[p];
    ReachableIsSane(env, s);
    ProcIsSane(env, s, p);
    assert IdOk(env, proc.id, ViewOf(s, proc.id));
    SentIsExact(env, s, p, proc);
  }
}

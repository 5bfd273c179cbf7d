/** What every run keeps as long as no id is drawn twice, whatever else the world does. */
module Facts {
  import opened Text
  import opened Disk
  import opened Machine
  import ByteRange
  import Keys

  // ---- one id at a time -----------------------------------------------------------------------

  /** Everything the state says about one id. */
  datatype View =
    View(fate: Option<Fate>, blob: Option<Octets>, sidecar: Option<Sidecar>, temp: Option<Octets>, gone: bool)

  function ViewOf(s: State, id: Id): View
  {
    View(if id in s.fate then Some(s.fate[id]) else None,
         if id in s.disk.blobs then Some(s.disk.blobs[id]) else None,
         if id in s.disk.sidecars then Some(s.disk.sidecars[id]) else None,
         if id in s.disk.temps then Some(s.disk.temps[id].body) else None,
         id in s.gone)
  }

  /** A sidecar of this id has been on disk at some time. */
  predicate WasListed(v: View)
  {
    v.fate.Some? && !v.fate.value.Writing?
  }

  predicate IsCommitted(v: View)
  {
    v.fate.Some? && v.fate.value.Committed?
  }

  /** A sidecar of this id could only ever have said this. */
  predicate Bound(v: View, meta: ChunkMeta)
  {
    WasListed(v) && match v.fate.value
      case Announced(_, m) => m == meta
      case Committed(_, m) => m == meta
      case Dead => true
      case Writing(_) => false
  }

  predicate Describes(env: Env, meta: ChunkMeta, id: Id, body: Octets)
  {
    meta.id == id && meta.size == |body| && 1 <= |body| <= env.maxChunkSize && meta.sha256 == env.hash(body)
  }

  /** Blobs are committed bodies, sidecars say what their upload said, what was answered with a 204 was committed. */
  predicate IdOk(env: Env, id: Id, v: View)
  {
    && (v.fate.Some? ==> IsValidId(id))
    && (v.blob.Some? ==> IsCommitted(v) && v.blob.value == v.fate.value.body)
    && (v.sidecar.Some? ==> WasListed(v) && (v.sidecar.value.Readable? ==> Bound(v, v.sidecar.value.meta)))
    && (IsCommitted(v) ==> Describes(env, v.fate.value.meta, id, v.fate.value.body) && v.sidecar != Some(Torn))
    && (v.gone ==> IsCommitted(v) && (env.faithfulReads ==> v.blob.None? && v.sidecar.None?))
  }

  // ---- one process at a time ------------------------------------------------------------------

  predicate TempHolds(v: View, written: Octets)
  {
    v.temp.Some? ==> v.temp.value == written
  }

  predicate CallerOk(v: View, caller: Caller)
  {
    match caller
    case ByOwner(key) => IsCommitted(v) && v.fate.value.meta.owner == key && key != Keys.ANONYMOUS
    case BySweep(_, _, _, _) => WasListed(v)
  }

  /** What a call of Store.Delete has learnt is so, and stays so once nothing of the id can appear any more. */
  predicate PointOk(v: View, point: Point)
  {
    match point
    case StatBlob => true
    case StatMeta(sawBlob) => !sawBlob ==> v.blob.None?
    case DropBlob(sawBlob, sawMeta) => (!sawBlob ==> v.blob.None?) && (!sawMeta ==> v.sidecar.None?)
    case DropMeta(sawMeta, blobGone, refused) =>
      (!refused || blobGone ==> v.blob.None?) && (!sawMeta ==> v.sidecar.None?)
  }

  predicate AllListed(s: State, todo: seq<Id>)
  {
    forall i :: 0 <= i < |todo| ==> WasListed(ViewOf(s, todo[i]))
  }

  predicate SpanOk(v: View, range: Octets, span: ByteRange.Span)
  {
    IsCommitted(v) && Asked(range, |v.fate.value.body|) == Some(span)
  }

  predicate ProcOk(env: Env, s: State, p: Pid, proc: Proc)
  {
    match proc
    case Receiving(id, _, _, declared, written) =>
      var v := ViewOf(s, id);
      v.fate == Some(Writing(p)) && v.sidecar.None? && TempHolds(v, written) && |written| <= env.maxChunkSize
    case Stamping(id, _, _, written) =>
      var v := ViewOf(s, id);
      v.fate == Some(Writing(p)) && v.sidecar.None? && TempHolds(v, written) && 1 <= |written| <= env.maxChunkSize
    case Describing(id, meta, written) =>
      var v := ViewOf(s, id);
      v.fate == Some(Writing(p)) && v.sidecar.None? && TempHolds(v, written) && Describes(env, meta, id, written)
    case HalfDescribed(id, meta, written) =>
      var v := ViewOf(s, id);
      v.fate == Some(Announced(p, meta)) && TempHolds(v, written) && Describes(env, meta, id, written)
    case Renaming(id, meta, written) =>
      var v := ViewOf(s, id);
      v.fate == Some(Announced(p, meta)) && TempHolds(v, written) && Describes(env, meta, id, written)
      && v.sidecar != Some(Torn)
    case Retracting(id) => ViewOf(s, id).fate == Some(Dead)
    case Discarding(id) => ViewOf(s, id).fate == Some(Dead)
    case DeleteReads(id, key) => key != Keys.ANONYMOUS
    case DeleteStats(id, key, meta) => key != Keys.ANONYMOUS && Bound(ViewOf(s, id), meta)
    case Deleting(id, caller, point) =>
      var v := ViewOf(s, id);
      && CallerOk(v, caller)
      && (caller.ByOwner? && env.faithfulReads ==> PointOk(v, point))
      && (caller.BySweep? ==> AllListed(s, caller.todo))
    case ExistsBlob(id) => IsCommitted(ViewOf(s, id))
    case ExistsMeta(id) => IsCommitted(ViewOf(s, id)) && (env.faithfulReads ==> ViewOf(s, id).blob.None?)
    case Listing(now, todo, _) => AllListed(s, todo)
    case Scanning(now, todo, _, _) => AllListed(s, todo)
    case Reaping(now) => true
    case ReapingOne(now, id) => true
    case GetReads(id, range) => true
    case GetStats(id, range, meta) => Bound(ViewOf(s, id), meta)
    case Opening(id, range, span) => SpanOk(ViewOf(s, id), range, span)
    case Sending(id, range, span, file, sent) =>
      var v := ViewOf(s, id);
      SpanOk(v, range, span) && file == v.fate.value.body && span.from + |sent| <= span.to
      && sent == file[span.from..span.from + |sent|]
    case Sent(id, range, span, sent) =>
      var v := ViewOf(s, id);
      SpanOk(v, range, span) && sent == v.fate.value.body[span.from..span.to + 1]
  }

  ghost predicate Sane(env: Env, s: State)
  {
    && (forall id :: IdOk(env, id, ViewOf(s, id)))
    && (forall p :: p in s.procs ==> ProcOk(env, s, p, s.procs[p]))
  }

  // ---- how the rest of the world may change under a process -----------------------------------

  /** What a step of process p may do to one id, as every other process sees it. */
  predicate Evolves(v: View, w: View, p: Pid)
  {
    && (v.fate.Some? ==>
      && w.fate.Some?
      && (match v.fate.value
          case Writing(q) => w.fate == v.fate || (q == p && !w.fate.value.Writing? && !w.fate.value.Committed?)
          case Announced(q, meta) =>
            || w.fate == v.fate
            || (q == p && (w.fate.value.Dead? || (w.fate.value.Committed? && w.fate.value.meta == meta)))
          case _ => w.fate == v.fate)
      && (v.sidecar.None? && !v.fate.value.Writing? ==> w.sidecar.None?)
      && (w.fate == v.fate ==> (v.blob.None? ==> w.blob.None?) && (v.sidecar.None? ==> w.sidecar.None?))
      && (v.fate.value.Announced? && v.fate.value.pid != p ==> w.sidecar == v.sidecar || w.sidecar.None?)
      && (w.fate == v.fate && !(v.fate.value.Writing? && v.fate.value.pid == p) ==> w.temp == v.temp || w.temp.None?))
  }

  ghost predicate WorldEvolves(s: State, t: State, p: Pid)
  {
    forall id :: Evolves(ViewOf(s, id), ViewOf(t, id), p)
  }

  lemma EvolvesFor(s: State, t: State, p: Pid, id: Id)
    requires WorldEvolves(s, t, p)
    ensures Evolves(ViewOf(s, id), ViewOf(t, id), p)
  {
  }

  /** A step of one process keeps what every other process relies on. */
  lemma ProcFrame(env: Env, s: State, t: State, p: Pid, q: Pid, proc: Proc)
    requires WorldEvolves(s, t, p) && q != p && ProcOk(env, s, q, proc)
    ensures ProcOk(env, t, q, proc)
  {
    hide ProcOk, Evolves, WorldEvolves, ViewOf;
    if proc.Listing? || proc.Scanning? {
      ListFrame(env, s, t, p, q, proc);
    } else if proc.Reaping? {
      ReapFrame(env, s, t, q, proc);
    } else {
      EvolvesFor(s, t, p, proc.id);
      if proc.Deleting? {
        DeleteFrame(env, s, t, p, q, proc);
      } else {
        WorkFrame(env, s, t, p, q, proc);
      }
    }
  }

  lemma ListFrame(env: Env, s: State, t: State, p: Pid, q: Pid, proc: Proc)
    requires (proc.Listing? || proc.Scanning?) && WorldEvolves(s, t, p) && ProcOk(env, s, q, proc)
    ensures ProcOk(env, t, q, proc)
  {
    hide AllListed, WorldEvolves;
    ListedFrame(s, t, p, proc.todo);
  }

  lemma ReapFrame(env: Env, s: State, t: State, q: Pid, proc: Proc)
    requires proc.Reaping? && ProcOk(env, s, q, proc)
    ensures ProcOk(env, t, q, proc)
  {
  }

  lemma DeleteFrame(env: Env, s: State, t: State, p: Pid, q: Pid, proc: Proc)
    requires proc.Deleting? && WorldEvolves(s, t, p) && ProcOk(env, s, q, proc)
    requires Evolves(ViewOf(s, proc.id), ViewOf(t, proc.id), p)
    ensures ProcOk(env, t, q, proc)
  {
    hide AllListed, WorldEvolves, ViewOf;
    if proc.caller.BySweep? {
      ListedFrame(s, t, p, proc.caller.todo);
    }
  }

  lemma WorkFrame(env: Env, s: State, t: State, p: Pid, q: Pid, proc: Proc)
    requires !(proc.Listing? || proc.Scanning? || proc.Reaping? || proc.Deleting?) && q != p && ProcOk(env, s, q, proc)
    requires Evolves(ViewOf(s, proc.id), ViewOf(t, proc.id), p)
    ensures ProcOk(env, t, q, proc)
  {
    hide Asked, ViewOf;
  }

  lemma ListedFrame(s: State, t: State, p: Pid, todo: seq<Id>)
    requires WorldEvolves(s, t, p) && AllListed(s, todo)
    ensures AllListed(t, todo)
  {
  }

  lemma ListedAlike(s: State, t: State, todo: seq<Id>)
    requires t.fate == s.fate && AllListed(s, todo)
    ensures AllListed(t, todo)
  {
  }

  // ---- steps ----------------------------------------------------------------------------------

  /** A step of p leaves p itself, and the one id it works on, as they should be. */
  predicate StepOk(env: Env, s: State, t: State, p: Pid, id: Id)
  {
    && Evolves(ViewOf(s, id), ViewOf(t, id), p)
    && IdOk(env, id, ViewOf(t, id))
    && (p in t.procs ==> ProcOk(env, t, p, t.procs[p]))
  }

  /** A step of p on one id leaves every other id and process alone. */
  predicate Apart(s: State, t: State, p: Pid, id: Id, q: Pid, other: Id)
  {
    && (other != id ==> ViewOf(t, other) == ViewOf(s, other))
    && (q != p && q in t.procs ==> q in s.procs && t.procs[q] == s.procs[q])
  }

  lemma StepKeepsSane(env: Env, s: State, t: State, p: Pid, id: Id)
    requires Sane(env, s) && StepOk(env, s, t, p, id)
    requires forall q, other :: Apart(s, t, p, id, q, other)
    ensures Sane(env, t)
  {
    hide IdOk, ProcOk, ViewOf;
    forall other
      ensures Evolves(ViewOf(s, other), ViewOf(t, other), p)
      ensures IdOk(env, other, ViewOf(t, other))
    {
      assert Apart(s, t, p, id, p, other);
      assert IdOk(env, other, ViewOf(s, other));
    }
    forall q | q in t.procs && q != p
      ensures ProcOk(env, t, q, t.procs[q])
    {
      assert Apart(s, t, p, id, q, id);
      ProcFrame(env, s, t, p, q, s.procs[q]);
    }
  }

  /** A step that changes nothing but p's own entry. */
  lemma QuietStep(env: Env, s: State, t: State, p: Pid)
    requires Sane(env, s) && t == s.(procs := t.procs, reports := t.reports)
    requires forall q :: q != p && q in t.procs ==> q in s.procs && t.procs[q] == s.procs[q]
    requires p in t.procs ==> ProcOk(env, t, p, t.procs[p])
    ensures Sane(env, t)
  {
    hide ProcOk;
    assert forall id :: ViewOf(t, id) == ViewOf(s, id);
    assert IdOk(env, [], ViewOf(s, []));
    StepKeepsSane(env, s, t, p, []);
  }

  lemma TickKeepsSane(env: Env, s: State, to: nat)
    requires Sane(env, s)
    ensures Sane(env, s.(clock := to))
  {
    var t := s.(clock := to);
    forall id
      ensures ViewOf(t, id) == ViewOf(s, id) && IdOk(env, id, ViewOf(t, id))
    {
      assert IdOk(env, id, ViewOf(s, id));
    }
    forall q | q in t.procs
      ensures ProcOk(env, t, q, t.procs[q])
    {
      assert WorldEvolves(s, t, q + 1);
      ProcFrame(env, s, t, q + 1, q, s.procs[q]);
    }
  }

  // Store.Ingest

  lemma IngestStep(env: Env, s: State, p: Pid, proc: Proc, ok: bool)
    requires ProcOk(env, s, p, proc) && Ingest(env, s, p, proc, ok).Some?
    requires IdOk(env, proc.id, ViewOf(s, proc.id))
    ensures StepOk(env, s, Ingest(env, s, p, proc, ok).value, p, proc.id)
  {
    hide *;
    if proc.Describing? || proc.HalfDescribed? {
      DescribeStep(env, s, p, proc, ok);
    } else if proc.Renaming? {
      RenameStep(env, s, p, proc, ok);
    } else {
      OtherIngestStep(env, s, p, proc, ok);
    }
  }

  lemma DescribeStep(env: Env, s: State, p: Pid, proc: Proc, ok: bool)
    requires proc.Describing? || proc.HalfDescribed?
    requires ProcOk(env, s, p, proc) && Ingest(env, s, p, proc, ok).Some?
    requires IdOk(env, proc.id, ViewOf(s, proc.id))
    ensures StepOk(env, s, Ingest(env, s, p, proc, ok).value, p, proc.id)
  {
    hide Describes, IsValidId;
  }

  lemma RenameStep(env: Env, s: State, p: Pid, proc: Proc, ok: bool)
    requires proc.Renaming? && ProcOk(env, s, p, proc) && Ingest(env, s, p, proc, ok).Some?
    requires IdOk(env, proc.id, ViewOf(s, proc.id))
    ensures StepOk(env, s, Ingest(env, s, p, proc, ok).value, p, proc.id)
  {
    hide Describes, IsValidId;
  }

  lemma OtherIngestStep(env: Env, s: State, p: Pid, proc: Proc, ok: bool)
    requires !(proc.Describing? || proc.HalfDescribed? || proc.Renaming?)
    requires ProcOk(env, s, p, proc) && Ingest(env, s, p, proc, ok).Some?
    requires IdOk(env, proc.id, ViewOf(s, proc.id))
    ensures StepOk(env, s, Ingest(env, s, p, proc, ok).value, p, proc.id)
  {
    hide IsValidId;
  }

  lemma IngestApart(env: Env, s: State, p: Pid, proc: Proc, ok: bool, q: Pid, other: Id)
    requires Ingest(env, s, p, proc, ok).Some?
    ensures Apart(s, Ingest(env, s, p, proc, ok).value, p, proc.id, q, other)
  {
    hide *;
    if proc.Describing? || proc.HalfDescribed? || proc.Renaming? {
      PublishApart(env, s, p, proc, ok, q, other);
    } else {
      OtherIngestApart(env, s, p, proc, ok, q, other);
    }
  }

  lemma PublishApart(env: Env, s: State, p: Pid, proc: Proc, ok: bool, q: Pid, other: Id)
    requires (proc.Describing? || proc.HalfDescribed? || proc.Renaming?) && Ingest(env, s, p, proc, ok).Some?
    ensures Apart(s, Ingest(env, s, p, proc, ok).value, p, proc.id, q, other)
  {
    hide *;
    if proc.Renaming? {
      RenameApart(env, s, p, proc, ok, q, other);
    } else {
      DescribeApart(env, s, p, proc, ok, q, other);
    }
  }

  lemma RenameApart(env: Env, s: State, p: Pid, proc: Proc, ok: bool, q: Pid, other: Id)
    requires proc.Renaming? && Ingest(env, s, p, proc, ok).Some?
    ensures Apart(s, Ingest(env, s, p, proc, ok).value, p, proc.id, q, other)
  {
    hide Describe;
    assert Ingest(env, s, p, proc, ok).value.gone == s.gone;
  }

  lemma DescribeApart(env: Env, s: State, p: Pid, proc: Proc, ok: bool, q: Pid, other: Id)
    requires (proc.Describing? || proc.HalfDescribed?) && Ingest(env, s, p, proc, ok).Some?
    ensures Apart(s, Ingest(env, s, p, proc, ok).value, p, proc.id, q, other)
  {
    hide Describe;
    var t := Ingest(env, s, p, proc, ok).value;
    assert t.gone == s.gone && t.disk.blobs == s.disk.blobs && t.disk.temps == s.disk.temps;
  }

  lemma OtherIngestApart(env: Env, s: State, p: Pid, proc: Proc, ok: bool, q: Pid, other: Id)
    requires !(proc.Describing? || proc.HalfDescribed? || proc.Renaming?) && Ingest(env, s, p, proc, ok).Some?
    ensures Apart(s, Ingest(env, s, p, proc, ok).value, p, proc.id, q, other)
  {
    hide Describe;
  }

  lemma ReceiveStep(env: Env, s: State, p: Pid, proc: Proc, slice: Octets)
    requires proc.Receiving? && ProcOk(env, s, p, proc) && IdOk(env, proc.id, ViewOf(s, proc.id))
    ensures StepOk(env, s, Receive(env, s, p, proc, slice), p, proc.id)
  {
  }

  lemma ReceiveApart(env: Env, s: State, p: Pid, proc: Proc, slice: Octets, q: Pid, other: Id)
    requires proc.Receiving?
    ensures Apart(s, Receive(env, s, p, proc, slice), p, proc.id, q, other)
  {
  }

  lemma StartIngestKeepsSane(env: Env, s: State, e: Event, t: State)
    requires Sane(env, s) && env.freshIds && e.StartIngest? && Apply(env, s, e) == Some(t)
    ensures Sane(env, t)
  {
    assert IdOk(env, e.id, ViewOf(s, e.id));
    assert StepOk(env, s, t, e.p, e.id);
    forall q, other
      ensures Apart(s, t, e.p, e.id, q, other)
    {
    }
    hide StepOk, Apart;
    StepKeepsSane(env, s, t, e.p, e.id);
  }

  // Store.Delete and handleDelete

  /** What the caller of Store.Delete relies on when the call returns. */
  predicate CallerWaits(s: State, id: Id, caller: Caller)
  {
    match caller
    case ByOwner(_) => IsCommitted(ViewOf(s, id))
    case BySweep(_, todo, _, _) => AllListed(s, todo)
  }

  lemma ReturnStep(env: Env, s: State, p: Pid, id: Id, caller: Caller, deleted: bool)
    requires CallerWaits(s, id, caller)
    ensures var t := Return(s, p, id, caller, deleted);
            && (p in t.procs ==> ProcOk(env, t, p, t.procs[p]))
            && ViewOf(t, id) == ViewOf(s, id).(gone := ViewOf(s, id).gone || (deleted && caller.ByOwner?))
  {
  }

  lemma ReturnApart(s: State, p: Pid, id: Id, caller: Caller, deleted: bool, q: Pid, other: Id)
    ensures Apart(s, Return(s, p, id, caller, deleted), p, id, q, other)
  {
  }

  /** A call of Store.Delete: what it learns is true for good. */
  lemma DeleteStep(env: Env, s: State, p: Pid, proc: Proc, ok: bool)
    requires proc.Deleting? && ProcOk(env, s, p, proc) && Delete(env, s, p, proc, ok).Some?
    requires IdOk(env, proc.id, ViewOf(s, proc.id))
    ensures StepOk(env, s, Delete(env, s, p, proc, ok).value, p, proc.id)
  {
    hide Return, AllListed;
    var Deleting(id, caller, point) := proc;
    assert CallerWaits(s, id, caller);
    match point
    case StatBlob => DeleteGoesOn(env, s, p, proc, ok);
    case DropBlob(_, _) => DeleteGoesOn(env, s, p, proc, ok);
    case StatMeta(sawBlob) =>
      if sawBlob || (id in s.disk.sidecars && ok) {
        DeleteGoesOn(env, s, p, proc, ok);
      } else {
        ReturnStep(env, s, p, id, caller, false);
        ReturnApart(s, p, id, caller, false, p, id);
      }
    case DropMeta(_, blobGone, _) =>
      DeleteEnds(env, s, p, proc, ok);
  }

  lemma DeleteEnds(env: Env, s: State, p: Pid, proc: Proc, ok: bool)
    requires proc.Deleting? && proc.point.DropMeta? && ProcOk(env, s, p, proc)
        && Delete(env, s, p, proc, ok).Some?
    requires IdOk(env, proc.id, ViewOf(s, proc.id))
    ensures StepOk(env, s, Delete(env, s, p, proc, ok).value, p, proc.id)
  {
    hide Return, AllListed;
    var Deleting(id, caller, DropMeta(sawMeta, blobGone, _)) := proc;
    var mid := DropSidecar(s, id);
    assert CallerWaits(mid, id, caller) by {
      if caller.BySweep? {
        ListedAlike(s, mid, caller.todo);
      }
    }
    if sawMeta && id in s.disk.sidecars && ok {
      ReturnStep(env, mid, p, id, caller, blobGone);
      ReturnApart(mid, p, id, caller, blobGone, p, id);
    } else {
      var deleted := !sawMeta && blobGone;
      ReturnStep(env, s, p, id, caller, deleted);
      ReturnApart(s, p, id, caller, deleted, p, id);
    }
  }

  /** A call of Store.Delete that does not return yet has learnt what its next point relies on. */
  lemma DeleteGoesOn(env: Env, s: State, p: Pid, proc: Proc, ok: bool)
    requires proc.Deleting? && ProcOk(env, s, p, proc) && Delete(env, s, p, proc, ok).Some?
    requires IdOk(env, proc.id, ViewOf(s, proc.id))
    requires match proc.point
             case StatMeta(sawBlob) => sawBlob || (proc.id in s.disk.sidecars && ok)
             case DropMeta(_, _, _) => false
             case _ => true
    ensures StepOk(env, s, Delete(env, s, p, proc, ok).value, p, proc.id)
  {
    hide Return;
    var t := Delete(env, s, p, proc, ok).value;
    if proc.caller.BySweep? {
      ListedAlike(s, t, proc.caller.todo);
    }
    hide AllListed;
    if proc.point.DropBlob? {
      BlobDropped(env, s, p, proc, ok);
    } else {
      assert ViewOf(t, proc.id) == ViewOf(s, proc.id);
    }
  }

  lemma BlobDropped(env: Env, s: State, p: Pid, proc: Proc, ok: bool)
    requires proc.Deleting? && proc.point.DropBlob? && ProcOk(env, s, p, proc)
    requires Delete(env, s, p, proc, ok).Some? && IdOk(env, proc.id, ViewOf(s, proc.id))
    requires proc.caller.BySweep? ==> AllListed(Delete(env, s, p, proc, ok).value, proc.caller.todo)
    ensures StepOk(env, s, Delete(env, s, p, proc, ok).value, p, proc.id)
  {
    hide AllListed, IdOk, Evolves;
    var Deleting(id, caller, DropBlob(sawBlob, sawMeta)) := proc;
    var t := Delete(env, s, p, proc, ok).value;
    if sawBlob && id in s.disk.blobs && ok {
      BlobGoes(env, s, t, p, id);
    } else {
      assert ViewOf(t, id) == ViewOf(s, id);
      NothingEvolves(ViewOf(s, id), p);
    }
    hide ViewOf;
  }

  lemma NothingEvolves(v: View, p: Pid)
    ensures Evolves(v, v, p)
  {
  }

  lemma BlobGoes(env: Env, s: State, t: State, p: Pid, id: Id)
    requires IdOk(env, id, ViewOf(s, id)) && t == DropTheBlob(s, id).(procs := t.procs)
    ensures ViewOf(t, id) == ViewOf(s, id).(blob := None)
    ensures IdOk(env, id, ViewOf(t, id)) && Evolves(ViewOf(s, id), ViewOf(t, id), p)
  {
  }

  lemma DeleteApart(env: Env, s: State, p: Pid, proc: Proc, ok: bool, q: Pid, other: Id)
    requires proc.Deleting? && Delete(env, s, p, proc, ok).Some?
    ensures Apart(s, Delete(env, s, p, proc, ok).value, p, proc.id, q, other)
  {
    hide Return, MayStat;
    var Deleting(id, caller, point) := proc;
    match point
    case StatBlob =>
      assert forall x :: ViewOf(Delete(env, s, p, proc, ok).value, x) == ViewOf(s, x);
    case StatMeta(_) =>
      ReturnApart(s, p, id, caller, false, q, other);
    case DropBlob(_, _) =>
      BlobApart(env, s, p, proc, ok, q, other);
    case DropMeta(_, _, _) =>
      LastStepApart(env, s, p, proc, ok, q, other);
  }

  lemma BlobApart(env: Env, s: State, p: Pid, proc: Proc, ok: bool, q: Pid, other: Id)
    requires proc.Deleting? && proc.point.DropBlob? && Delete(env, s, p, proc, ok).Some?
    ensures Apart(s, Delete(env, s, p, proc, ok).value, p, proc.id, q, other)
  {
    hide Return, MayStat;
  }

  lemma LastStepApart(env: Env, s: State, p: Pid, proc: Proc, ok: bool, q: Pid, other: Id)
    requires proc.Deleting? && proc.point.DropMeta? && Delete(env, s, p, proc, ok).Some?
    ensures Apart(s, Delete(env, s, p, proc, ok).value, p, proc.id, q, other)
  {
    hide Return, MayStat;
    var Deleting(id, caller, DropMeta(_, blobGone, _)) := proc;
    ReturnApart(s, p, id, caller, blobGone, q, other);
    ReturnApart(s, p, id, caller, false, q, other);
    ReturnApart(DropSidecar(s, id), p, id, caller, blobGone, q, other);
  }

  lemma HandleDeleteStep(env: Env, s: State, p: Pid, proc: Proc, ok: bool)
    requires ProcOk(env, s, p, proc) && HandleDelete(env, s, p, proc, ok).Some?
    requires IdOk(env, proc.id, ViewOf(s, proc.id))
    ensures StepOk(env, s, HandleDelete(env, s, p, proc, ok).value, p, proc.id)
  {
    hide *;
    if proc.DeleteReads? || proc.DeleteStats? {
      AuthoriseStep(env, s, p, proc, ok);
    } else {
      ExistsStep(env, s, p, proc, ok);
    }
  }

  lemma AuthoriseStep(env: Env, s: State, p: Pid, proc: Proc, ok: bool)
    requires (proc.DeleteReads? || proc.DeleteStats?) && ProcOk(env, s, p, proc)
    requires HandleDelete(env, s, p, proc, ok).Some? && IdOk(env, proc.id, ViewOf(s, proc.id))
    ensures StepOk(env, s, HandleDelete(env, s, p, proc, ok).value, p, proc.id)
  {
    hide Describes, IsValidId, Evolves;
    var t := HandleDelete(env, s, p, proc, ok).value;
    assert ViewOf(t, proc.id) == ViewOf(s, proc.id);
    NothingEvolves(ViewOf(s, proc.id), p);
    assert p in t.procs ==> t.procs[p].id == proc.id;
    if proc.DeleteReads? {
      assert proc.id in s.disk.sidecars ==> ViewOf(s, proc.id).sidecar == Some(s.disk.sidecars[proc.id]);
    } else {
      assert proc.id in s.disk.blobs ==> IsCommitted(ViewOf(s, proc.id));
    }
    hide ViewOf;
  }

  lemma ExistsStep(env: Env, s: State, p: Pid, proc: Proc, ok: bool)
    requires !(proc.DeleteReads? || proc.DeleteStats?) && ProcOk(env, s, p, proc)
    requires HandleDelete(env, s, p, proc, ok).Some? && IdOk(env, proc.id, ViewOf(s, proc.id))
    ensures StepOk(env, s, HandleDelete(env, s, p, proc, ok).value, p, proc.id)
  {
    hide Describes, IsValidId;
  }

  lemma HandleDeleteApart(env: Env, s: State, p: Pid, proc: Proc, ok: bool, q: Pid, other: Id)
    requires HandleDelete(env, s, p, proc, ok).Some?
    ensures Apart(s, HandleDelete(env, s, p, proc, ok).value, p, proc.id, q, other)
  {
  }

  // Gc.Sweep

  lemma ReapStep(env: Env, s: State, p: Pid, proc: Proc, ok: bool)
    requires proc.ReapingOne? && Sweep(env, s, p, proc, ok).Some?
    requires IdOk(env, proc.id, ViewOf(s, proc.id))
    ensures StepOk(env, s, Sweep(env, s, p, proc, ok).value, p, proc.id)
  {
  }

  lemma ReapApart(env: Env, s: State, p: Pid, proc: Proc, ok: bool, q: Pid, other: Id)
    requires proc.ReapingOne? && Sweep(env, s, p, proc, ok).Some?
    ensures Apart(s, Sweep(env, s, p, proc, ok).value, p, proc.id, q, other)
  {
  }

  lemma SweepStep(env: Env, s: State, p: Pid, proc: Proc, ok: bool)
    requires !proc.ReapingOne? && ProcOk(env, s, p, proc) && Sweep(env, s, p, proc, ok).Some?
    requires proc.Scanning? && proc.todo != [] ==> IdOk(env, proc.todo[0], ViewOf(s, proc.todo[0]))
    ensures var t := Sweep(env, s, p, proc, ok).value; p in t.procs ==> ProcOk(env, t, p, t.procs[p])
  {
    var t := Sweep(env, s, p, proc, ok).value;
    match proc
    case Listing(_, todo, _) => ListedAlike(s, t, todo);
    case Scanning(now, todo, deleted, budget) =>
      if todo != [] {
        ListedAlike(s, t, todo);
        assert WasListed(ViewOf(s, todo[0]));
        assert AllListed(t, todo[1..]);
        assert ViewOf(t, todo[0]) == ViewOf(s, todo[0]);
        hide AllListed, ViewOf;
      }
    case Reaping(_) =>
  }

  lemma SweepKeepsSane(env: Env, s: State, p: Pid, ok: bool)
    requires Sane(env, s) && p in s.procs && !s.procs[p].ReapingOne?
        && Sweep(env, s, p, s.procs[p], ok).Some?
    ensures Sane(env, Sweep(env, s, p, s.procs[p], ok).value)
  {
    var proc := s.procs[p];
    assert ProcOk(env, s, p, proc);
    if proc.Scanning? && proc.todo != [] {
      assert IdOk(env, proc.todo[0], ViewOf(s, proc.todo[0]));
    }
    SweepStep(env, s, p, proc, ok);
    hide Sane, ProcOk;
    QuietStep(env, s, Sweep(env, s, p, proc, ok).value, p);
  }

  lemma FindStep(env: Env, s: State, e: Event, t: State)
    requires e.Find? && Apply(env, s, e) == Some(t) && ProcOk(env, s, e.p, s.procs[e.p])
    requires IdOk(env, e.id, ViewOf(s, e.id))
    ensures ProcOk(env, t, e.p, t.procs[e.p])
  {
    hide Advance, Send, Receive, Keys.Greatest, Asked;
  }

  lemma FindKeepsSane(env: Env, s: State, e: Event, t: State)
    requires Sane(env, s) && e.Find? && Apply(env, s, e) == Some(t)
    ensures Sane(env, t)
  {
    assert ProcOk(env, s, e.p, s.procs[e.p]);
    assert IdOk(env, e.id, ViewOf(s, e.id));
    FindStep(env, s, e, t);
    hide Sane, ProcOk;
    QuietStep(env, s, t, e.p);
  }

  // handleDownload

  lemma DownloadStep(env: Env, s: State, p: Pid, proc: Proc, ok: bool)
    requires Download(s, p, proc, ok).Some? && ProcOk(env, s, p, proc)
        && IdOk(env, proc.id, ViewOf(s, proc.id))
    ensures var t := Download(s, p, proc, ok).value; p in t.procs ==> ProcOk(env, t, p, t.procs[p])
  {
  }

  lemma DownloadKeepsSane(env: Env, s: State, p: Pid, ok: bool)
    requires Sane(env, s) && p in s.procs && Download(s, p, s.procs[p], ok).Some?
    ensures Sane(env, Download(s, p, s.procs[p], ok).value)
  {
    hide Asked;
    var proc := s.procs[p];
    assert ProcOk(env, s, p, proc);
    assert IdOk(env, proc.id, ViewOf(s, proc.id));
    DownloadStep(env, s, p, proc, ok);
    hide Sane, ProcOk;
    QuietStep(env, s, Download(s, p, proc, ok).value, p);
  }

  lemma SpanGrows(file: Octets, from: nat, a: nat, got: nat)
    requires from + a + got <= |file|
    ensures file[from..from + a] + file[from + a..from + a + got] == file[from..from + a + got]
  {
  }

  /** One more slice continues the part of the file that was sent so far. */
  lemma SendContinues(s: State, p: Pid, proc: Proc, n: nat)
    requires proc.Sending? && Send(s, p, proc, n).Some?
    requires var Sending(_, _, span, file, sent) := proc;
             span.from + |sent| <= span.to < |file| && sent == file[span.from..span.from + |sent|]
    ensures var t := Send(s, p, proc, n).value;
            && t == s.(procs := t.procs)
            && (p in t.procs ==>
                  var Sending(id, range, span, file, _) := proc;
                  var end := if t.procs[p].Sent? then span.to + 1 else span.from + |t.procs[p].sent|;
                  && (t.procs[p].Sent? || t.procs[p].Sending?) && span.from <= end <= span.to + 1
                  && (t.procs[p].Sending? ==> end <= span.to)
                  && var total := file[span.from..end];
                     t.procs[p] == if t.procs[p].Sent? then Sent(id, range, span, total)
                       else Sending(id, range, span, file, total))
  {
    var Sending(_, _, span, file, sent) := proc;
    var t := Send(s, p, proc, n).value;
    if p in t.procs {
      SpanGrows(file, span.from, |sent|, |t.procs[p].sent| - |sent|);
    }
  }

  /** What it takes for a download to be in order, sending or done. */
  lemma SendingOk(env: Env, s: State, p: Pid, proc: Proc)
    requires proc.Sending? || proc.Sent?
    ensures ProcOk(env, s, p, proc) <==>
              var v := ViewOf(s, proc.id);
              && SpanOk(v, proc.range, proc.span)
              && if proc.Sent? then proc.sent == v.fate.value.body[proc.span.from..proc.span.to + 1]
                 else && proc.file == v.fate.value.body && proc.span.from + |proc.sent| <= proc.span.to
                      && proc.sent == proc.file[proc.span.from..proc.span.from + |proc.sent|]
  {
    hide Asked, ViewOf;
  }

  lemma SendStep(env: Env, s: State, p: Pid, proc: Proc, n: nat)
    requires proc.Sending? && Send(s, p, proc, n).Some? && ProcOk(env, s, p, proc)
    ensures var t := Send(s, p, proc, n).value; p in t.procs ==> ProcOk(env, t, p, t.procs[p])
  {
    hide Asked, ProcOk;
    var t := Send(s, p, proc, n).value;
    SendingOk(env, s, p, proc);
    SendContinues(s, p, proc, n);
    assert ViewOf(t, proc.id) == ViewOf(s, proc.id);
    hide Send, ViewOf;
    if p in t.procs {
      SendingOk(env, t, p, t.procs[p]);
    }
  }

  lemma SendKeepsSane(env: Env, s: State, p: Pid, n: nat)
    requires Sane(env, s) && p in s.procs && s.procs[p].Sending? && Send(s, p, s.procs[p], n).Some?
    ensures Sane(env, Send(s, p, s.procs[p], n).value)
  {
    assert ProcOk(env, s, p, s.procs[p]);
    SendStep(env, s, p, s.procs[p], n);
    hide Sane, ProcOk;
    QuietStep(env, s, Send(s, p, s.procs[p], n).value, p);
  }

  // ---- runs -----------------------------------------------------------------------------------

  lemma StartKeepsSane(env: Env, s: State, e: Event, t: State)
    requires Sane(env, s) && (e.StartDelete? || e.StartSweep? || e.StartGet?) && Apply(env, s, e) == Some(t)
    ensures Sane(env, t)
  {
    if e.StartDelete? {
      assert Keys.Holds(e.raw, e.key, e.presented);
    }
    assert ProcOk(env, t, e.p, t.procs[e.p]);
    hide Sane, ProcOk;
    QuietStep(env, s, t, e.p);
  }

  lemma CrashKeepsSane(env: Env, s: State, p: Pid)
    requires Sane(env, s)
    ensures Sane(env, Exit(s, p))
  {
    hide Sane, ProcOk;
    QuietStep(env, s, Exit(s, p), p);
  }

  /** The operations that may touch an id, collected. */
  lemma WorkKeepsSane(env: Env, s: State, p: Pid, ok: bool, t: State)
    requires Sane(env, s) && p in s.procs && Advance(env, s, p, ok) == Some(t)
    requires var proc := s.procs[p];
             !(proc.Listing? || proc.Scanning? || proc.Reaping? || proc.GetReads? || proc.GetStats? || proc.Opening?)
    ensures Sane(env, t)
  {
    hide Ingest, Delete, HandleDelete, Sweep;
    var proc := s.procs[p];
    var id := proc.id;
    assert ProcOk(env, s, p, proc);
    assert IdOk(env, id, ViewOf(s, id));
    hide Sane, ProcOk, IdOk, ViewOf, Evolves, StepOk, Apart;
    if proc.Deleting? {
      DeleteStep(env, s, p, proc, ok);
    } else if proc.ReapingOne? {
      ReapStep(env, s, p, proc, ok);
    } else if Answers(proc) {
      HandleDeleteStep(env, s, p, proc, ok);
    } else {
      IngestStep(env, s, p, proc, ok);
    }
    forall q, other
      ensures Apart(s, t, p, id, q, other)
    {
      if proc.Deleting? {
        DeleteApart(env, s, p, proc, ok, q, other);
      } else if proc.ReapingOne? {
        ReapApart(env, s, p, proc, ok, q, other);
      } else if Answers(proc) {
        HandleDeleteApart(env, s, p, proc, ok, q, other);
      } else {
        IngestApart(env, s, p, proc, ok, q, other);
      }
    }
    StepKeepsSane(env, s, t, p, id);
  }

  lemma AdvanceKeepsSane(env: Env, s: State, p: Pid, ok: bool, t: State)
    requires Sane(env, s) && p in s.procs && Advance(env, s, p, ok) == Some(t)
    ensures Sane(env, t)
  {
    hide Sane, Ingest, Delete, HandleDelete, Sweep, Download;
    var proc := s.procs[p];
    if proc.Listing? || proc.Scanning? || proc.Reaping? {
      SweepKeepsSane(env, s, p, ok);
    } else if proc.GetReads? || proc.GetStats? || proc.Opening? {
      DownloadKeepsSane(env, s, p, ok);
    } else {
      WorkKeepsSane(env, s, p, ok, t);
    }
  }

  lemma ReceiveKeepsSane(env: Env, s: State, p: Pid, slice: Octets)
    requires Sane(env, s) && p in s.procs && s.procs[p].Receiving?
    ensures Sane(env, Receive(env, s, p, s.procs[p], slice))
  {
    var proc := s.procs[p];
    var t := Receive(env, s, p, proc, slice);
    assert ProcOk(env, s, p, proc);
    assert IdOk(env, proc.id, ViewOf(s, proc.id));
    hide Sane, Receive, ProcOk, IdOk, ViewOf, StepOk, Apart;
    ReceiveStep(env, s, p, proc, slice);
    forall q, other
      ensures Apart(s, t, p, proc.id, q, other)
    {
      ReceiveApart(env, s, p, proc, slice, q, other);
    }
    StepKeepsSane(env, s, t, p, proc.id);
  }

  /** Every event keeps the facts, as long as ids are fresh. */
  lemma ApplyKeepsSane(env: Env, s: State, e: Event, t: State)
    requires Sane(env, s) && env.freshIds && Apply(env, s, e) == Some(t)
    ensures Sane(env, t)
  {
    hide Sane, Advance, Receive, Send;
    match e
    case Tick(to) => TickKeepsSane(env, s, to);
    case Crash(p) => CrashKeepsSane(env, s, p);
    case StartIngest(_, _, _, _, _) => StartIngestKeepsSane(env, s, e, t);
    case StartDelete(_, _, _, _, _) => StartKeepsSane(env, s, e, t);
    case StartSweep(_, _) => StartKeepsSane(env, s, e, t);
    case StartGet(_, _, _) => StartKeepsSane(env, s, e, t);
    case Arrive(p, slice) => ReceiveKeepsSane(env, s, p, slice);
    case Find(_, _) => FindKeepsSane(env, s, e, t);
    case Fetch(p, n) => SendKeepsSane(env, s, p, n);
    case Do(p, ok) => AdvanceKeepsSane(env, s, p, ok, t);
  }

  lemma {:induction false} RunKeepsSane(env: Env, s: State, events: seq<Event>, t: State)
    requires Sane(env, s) && env.freshIds && Run(env, s, events) == Some(t)
    ensures Sane(env, t)
    decreases |events|
  {
    hide Sane, Apply;
    if events != [] {
      var next := Apply(env, s, events[0]).value;
      ApplyKeepsSane(env, s, events[0], next);
      RunKeepsSane(env, next, events[1..], t);
    }
  }

  lemma StartIsSane(env: Env)
    ensures Sane(env, START)
  {
  }

  /** The facts hold in every state a run with fresh ids can reach. */
  lemma ReachableIsSane(env: Env, s: State)
    requires env.freshIds && Reachable(env, s)
    ensures Sane(env, s)
  {
    hide Sane, Apply;
    var events :| Run(env, START, events) == Some(s);
    StartIsSane(env);
    RunKeepsSane(env, START, events, s);
  }
}

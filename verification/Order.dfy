/** What every run keeps besides, when sidecars appear whole, the clock is steady and reads are faithful. */
module Order {
  import opened Text
  import opened Disk
  import opened Machine
  import opened Facts
  import Keys

  // ---- one id at a time -----------------------------------------------------------------------

  predicate IsAnnounced(v: View)
  {
    v.fate.Some? && v.fate.value.Announced?
  }

  /** No blob that is missing now can ever appear, if renames are timely: the upload is over, or too late to finish. */
  predicate Settled(v: View, clock: nat)
  {
    WasListed(v) && (IsAnnounced(v) ==> v.fate.value.meta.ExpiredAt(clock))
  }

  /** A sidecar that is gone for good, or past its expiry. */
  predicate Doomed(v: View, clock: nat)
  {
    WasListed(v) && (v.fate.value.Dead? || v.sidecar.None? || v.fate.value.meta.ExpiredAt(clock))
  }

  predicate IdFits(env: Env, v: View, clock: nat)
  {
    && (v.sidecar.Some? ==> v.sidecar.value.Readable?)
    && (env.timelyRename && IsAnnounced(v) ==> v.sidecar.Some? || v.fate.value.meta.ExpiredAt(clock))
    && (env.timelyRename && env.pairedRemoval && v.blob.Some? ==> v.sidecar.Some?)
  }

  lemma DoomedIsSettled(env: Env, v: View, clock: nat)
    requires env.timelyRename && IdFits(env, v, clock) && Doomed(v, clock)
    ensures Settled(v, clock)
  {
  }

  // ---- one process at a time ------------------------------------------------------------------

  /** A sweep goes after a chunk only once it is doomed and, with paired removals, if its own clock reading says so. */
  predicate SweepFits(env: Env, v: View, clock: nat, now: nat)
  {
    && now <= clock && Doomed(v, clock)
    && (env.timelyRename && env.pairedRemoval && IsCommitted(v) ==> v.fate.value.meta.ExpiredAt(now) || v.sidecar.None?)
  }

  predicate ProcFits(env: Env, s: State, proc: Proc)
  {
    match proc
    case HalfDescribed(_, _, _) => false
    case Listing(now, _, _) => now <= s.clock
    case Scanning(now, _, _, _) => now <= s.clock
    case Deleting(id, caller, point) =>
      && (caller.BySweep? ==> SweepFits(env, ViewOf(s, id), s.clock, caller.now))
      && (env.timelyRename ==> PointOk(ViewOf(s, id), point))
    case _ => true
  }

  ghost predicate Fits(env: Env, s: State)
  {
    && (forall id :: IdFits(env, ViewOf(s, id), s.clock))
    && (forall p :: p in s.procs ==> ProcFits(env, s, s.procs[p]))
  }

  // ---- how the rest of the world may change under a process -----------------------------------

  /** What a step may do to one id, with renames that are late ruled out if they are. */
  predicate Moves(env: Env, v: View, w: View, clock: nat, p: Pid)
  {
    Evolves(v, w, p) && (env.timelyRename && IsAnnounced(v) && v.fate.value.meta.ExpiredAt(clock) ==> !IsCommitted(w))
  }

  /** What is missing of a settled id stays missing. */
  ghost predicate Fading(s: State, t: State)
  {
    forall id :: Settled(ViewOf(s, id), s.clock) ==> Fades(ViewOf(s, id), ViewOf(t, id), t.clock)
  }

  ghost predicate FitsNext(env: Env, s: State, t: State)
  {
    Fits(env, t) && (env.timelyRename ==> Fading(s, t))
  }

  predicate Fades(v: View, w: View, clock: nat)
  {
    Settled(w, clock) && (v.blob.None? ==> w.blob.None?) && (v.sidecar.None? ==> w.sidecar.None?)
  }

  lemma MovedFades(env: Env, id: Id, v: View, w: View, clock: nat, later: nat, p: Pid)
    requires env.timelyRename && Moves(env, v, w, clock, p) && Settled(v, clock) && clock <= later && IdOk(env, id, w)
    requires v.blob.Some? ==> IsCommitted(v)
    ensures Fades(v, w, later)
  {
    UnixIsMonotone(clock, later);
  }

  /** What a call of Store.Delete by another process relies on stays so. */
  lemma DeleteFitsStill(env: Env, s: State, t: State, p: Pid, q: Pid, proc: Proc)
    requires proc.Deleting? && ProcFits(env, s, proc) && ProcOk(env, s, q, proc) && s.clock <= t.clock
    requires IdFits(env, ViewOf(s, proc.id), s.clock) && IdOk(env, proc.id, ViewOf(t, proc.id))
    requires Moves(env, ViewOf(s, proc.id), ViewOf(t, proc.id), s.clock, p)
    ensures ProcFits(env, t, proc)
  {
    hide ViewOf, AllListed, Describes, IsValidId;
    UnixIsMonotone(s.clock, t.clock);
  }

  /** A step of p on one id leaves p and that id as they should be. */
  ghost predicate StepFits(env: Env, s: State, t: State, p: Pid, id: Id)
  {
    && s.clock <= t.clock
    && Moves(env, ViewOf(s, id), ViewOf(t, id), s.clock, p)
    && IdFits(env, ViewOf(t, id), t.clock)
    && (p in t.procs ==> ProcFits(env, t, t.procs[p]))
  }

  lemma StaysFit(env: Env, v: View, clock: nat, later: nat)
    requires IdFits(env, v, clock) && clock <= later
    ensures IdFits(env, v, later)
  {
    UnixIsMonotone(clock, later);
  }

  lemma StepKeepsFits(env: Env, s: State, t: State, p: Pid, id: Id)
    requires Fits(env, s) && Sane(env, s) && Sane(env, t) && StepFits(env, s, t, p, id)
    requires forall q, other :: Apart(s, t, p, id, q, other)
    ensures FitsNext(env, s, t)
  {
    hide IdFits, ProcFits, IdOk, ProcOk, ViewOf, Evolves;
    forall other
      ensures IdFits(env, ViewOf(t, other), t.clock) && Moves(env, ViewOf(s, other), ViewOf(t, other), s.clock, p)
    {
      assert Apart(s, t, p, id, p, other);
      assert IdFits(env, ViewOf(s, other), s.clock);
      StaysFit(env, ViewOf(s, other), s.clock, t.clock);
      NothingMoves(env, ViewOf(s, other), s.clock, p);
    }
    if env.timelyRename {
      WorldFades(env, s, t, p);
    }
    forall q | q in t.procs
      ensures ProcFits(env, t, t.procs[q])
    {
      if q != p {
        assert Apart(s, t, p, id, q, id);
        assert ProcFits(env, s, s.procs[q]) && ProcOk(env, s, q, s.procs[q]);
        if s.procs[q].Deleting? {
          assert IdFits(env, ViewOf(s, s.procs[q].id), s.clock) && IdOk(env, s.procs[q].id, ViewOf(t, s.procs[q].id));
          DeleteFitsStill(env, s, t, p, q, s.procs[q]);
        } else {
          OtherFitsStill(env, s, t, s.procs[q]);
        }
      }
    }
  }

  lemma WorldFades(env: Env, s: State, t: State, p: Pid)
    requires env.timelyRename && Sane(env, s) && Sane(env, t) && s.clock <= t.clock
    requires forall id :: Moves(env, ViewOf(s, id), ViewOf(t, id), s.clock, p)
    ensures Fading(s, t)
  {
    hide Moves, Fades, ViewOf;
    forall id | Settled(ViewOf(s, id), s.clock)
      ensures Fades(ViewOf(s, id), ViewOf(t, id), t.clock)
    {
      assert IdOk(env, id, ViewOf(s, id)) && IdOk(env, id, ViewOf(t, id));
      MovedFades(env, id, ViewOf(s, id), ViewOf(t, id), s.clock, t.clock, p);
    }
  }

  lemma NothingMoves(env: Env, v: View, clock: nat, p: Pid)
    ensures Moves(env, v, v, clock, p)
  {
  }

  lemma OtherFitsStill(env: Env, s: State, t: State, proc: Proc)
    requires !proc.Deleting? && ProcFits(env, s, proc) && s.clock <= t.clock
    ensures ProcFits(env, t, proc)
  {
  }

  // ---- steps ----------------------------------------------------------------------------------

  lemma IngestFits(env: Env, s: State, p: Pid, proc: Proc, ok: bool)
    requires env.Prudent() && ProcFits(env, s, proc) && ProcOk(env, s, p, proc) && Ingest(env, s, p, proc, ok).Some?
    requires IdOk(env, proc.id, ViewOf(s, proc.id)) && IdFits(env, ViewOf(s, proc.id), s.clock)
    requires Evolves(ViewOf(s, proc.id), ViewOf(Ingest(env, s, p, proc, ok).value, proc.id), p)
    ensures StepFits(env, s, Ingest(env, s, p, proc, ok).value, p, proc.id)
  {
    hide Describes, Describe, Evolves, IsValidId;
  }

  /** A step after which p does nothing that this invariant speaks of, and no blob, sidecar or fate has changed. */
  ghost predicate Still(s: State, t: State, p: Pid)
  {
    && t.clock == s.clock && t.fate == s.fate && t.disk.blobs == s.disk.blobs && t.disk.sidecars == s.disk.sidecars
    && (forall q :: q in t.procs && q != p ==> q in s.procs && t.procs[q] == s.procs[q])
  }

  lemma StillFades(s: State, t: State, p: Pid)
    requires Still(s, t, p)
    ensures Fading(s, t)
  {
  }

  lemma StillKeepsFits(env: Env, s: State, t: State, p: Pid)
    requires Fits(env, s) && Still(s, t, p) && (p in t.procs ==> ProcFits(env, t, t.procs[p]))
    ensures FitsNext(env, s, t)
  {
    StillFades(s, t, p);
    forall id
      ensures IdFits(env, ViewOf(t, id), t.clock)
    {
      assert IdFits(env, ViewOf(s, id), s.clock);
    }
    forall q | q in t.procs
      ensures ProcFits(env, t, t.procs[q])
    {
      if q != p {
        assert ProcFits(env, s, s.procs[q]);
      }
    }
  }

  lemma ReceiveFits(env: Env, s: State, p: Pid, proc: Proc, slice: Octets)
    requires proc.Receiving? && ProcOk(env, s, p, proc)
    requires IdOk(env, proc.id, ViewOf(s, proc.id)) && IdFits(env, ViewOf(s, proc.id), s.clock)
    ensures StepFits(env, s, Receive(env, s, p, proc, slice), p, proc.id)
  {
    hide Describes, IsValidId;
  }

  lemma StartIngestKeepsFits(env: Env, s: State, e: Event, t: State)
    requires Fits(env, s) && Sane(env, s) && Sane(env, t) && env.freshIds
    requires e.StartIngest? && Apply(env, s, e) == Some(t)
    ensures FitsNext(env, s, t)
  {
    assert IdOk(env, e.id, ViewOf(s, e.id)) && IdFits(env, ViewOf(s, e.id), s.clock);
    assert StepFits(env, s, t, e.p, e.id) by {
      hide Sane, Fits;
    }
    forall q, other
      ensures Apart(s, t, e.p, e.id, q, other)
    {
    }
    hide StepFits, Apart, Fits, Sane;
    StepKeepsFits(env, s, t, e.p, e.id);
  }

  // Store.Delete

  lemma ReturnFits(env: Env, s: State, p: Pid, id: Id, caller: Caller, deleted: bool)
    requires caller.BySweep? ==> caller.now <= s.clock
    ensures var t := Return(s, p, id, caller, deleted);
            && t.clock == s.clock && t.fate == s.fate && t.disk == s.disk
            && (p in t.procs ==> ProcFits(env, t, t.procs[p]))
  {
  }

  /** A call of Store.Delete that has yet to touch a file. */
  lemma LookingFits(env: Env, s: State, p: Pid, proc: Proc, ok: bool)
    requires env.Prudent() && proc.Deleting? && (proc.point.StatBlob? || proc.point.StatMeta?)
    requires ProcFits(env, s, proc) && Delete(env, s, p, proc, ok).Some? && IdFits(env, ViewOf(s, proc.id), s.clock)
    ensures StepFits(env, s, Delete(env, s, p, proc, ok).value, p, proc.id)
  {
    hide Return, IdFits;
    var Deleting(id, caller, point) := proc;
    var t := Delete(env, s, p, proc, ok).value;
    ReturnFits(env, s, p, id, caller, false);
    ReturnSees(s, p, id, caller, false);
    assert ViewOf(t, id) == ViewOf(s, id).(gone := ViewOf(t, id).gone);
    FlagsFit(env, ViewOf(s, id), s.clock);
    NothingMoves(env, ViewOf(s, id), s.clock, p);
    FlagsMove(env, ViewOf(s, id), s.clock, p);
    hide Moves;
  }

  lemma DroppingFits(env: Env, s: State, p: Pid, proc: Proc, ok: bool)
    requires env.Prudent() && proc.Deleting? && proc.point.DropBlob?
    requires ProcFits(env, s, proc) && Delete(env, s, p, proc, ok).Some?
    requires IdFits(env, ViewOf(s, proc.id), s.clock)
    ensures StepFits(env, s, Delete(env, s, p, proc, ok).value, p, proc.id)
  {
    hide IdFits, Moves;
    var Deleting(id, caller, DropBlob(sawBlob, sawMeta)) := proc;
    var t := Delete(env, s, p, proc, ok).value;
    if sawBlob && id in s.disk.blobs && ok {
      assert ViewOf(t, id) == ViewOf(s, id).(blob := None);
      DroppedBlobFits(env, ViewOf(s, id), s.clock, p);
    } else {
      assert ViewOf(t, id) == ViewOf(s, id);
      NothingMoves(env, ViewOf(s, id), s.clock, p);
    }
    hide ViewOf;
  }

  lemma DroppedBlobFits(env: Env, v: View, clock: nat, p: Pid)
    requires IdFits(env, v, clock)
    ensures IdFits(env, v.(blob := None), clock) && Moves(env, v, v.(blob := None), clock, p)
  {
  }

  lemma DroppedSidecarFits(env: Env, v: View, clock: nat, proc: Proc, p: Pid)
    requires proc.Deleting? && proc.point.DropMeta? && v.sidecar.Some? && IdFits(env, v, clock)
    requires env.timelyRename ==> PointOk(v, proc.point)
    requires env.pairedRemoval ==> !proc.point.refused
    requires IsCommitted(v) || Doomed(v, clock)
    ensures IdFits(env, v.(sidecar := None), clock) && Moves(env, v, v.(sidecar := None), clock, p)
  {
  }

  lemma EndingFits(env: Env, s: State, p: Pid, proc: Proc, ok: bool)
    requires proc.Deleting? && proc.point.DropMeta? && ProcOk(env, s, p, proc)
    requires ProcFits(env, s, proc) && Delete(env, s, p, proc, ok).Some? && IdFits(env, ViewOf(s, proc.id), s.clock)
    ensures StepFits(env, s, Delete(env, s, p, proc, ok).value, p, proc.id)
  {
    hide Return, IdFits, Moves;
    var Deleting(id, caller, DropMeta(sawMeta, blobGone, _)) := proc;
    var v := ViewOf(s, id);
    if sawMeta && id in s.disk.sidecars && ok {
      DroppedSidecarFits(env, v, s.clock, proc, p);
      ReturnFits(env, DropSidecar(s, id), p, id, caller, blobGone);
      ReturnSees(DropSidecar(s, id), p, id, caller, blobGone);
      FlagsFit(env, v.(sidecar := None), s.clock);
    } else {
      var deleted := !sawMeta && blobGone;
      ReturnFits(env, s, p, id, caller, deleted);
      NothingMoves(env, v, s.clock, p);
      ReturnSees(s, p, id, caller, deleted);
      FlagsFit(env, v, s.clock);
    }
    FlagsMove(env, v, s.clock, p);
  }

  lemma ReturnSees(s: State, p: Pid, id: Id, caller: Caller, deleted: bool)
    ensures var t := Return(s, p, id, caller, deleted);
            ViewOf(t, id) == ViewOf(s, id).(gone := ViewOf(t, id).gone)
  {
  }

  /** Whether a 204 was answered is nothing this invariant speaks of. */
  lemma FlagsFit(env: Env, v: View, clock: nat)
    ensures forall gone :: IdFits(env, v.(gone := gone), clock) == IdFits(env, v, clock)
  {
  }

  lemma FlagsMove(env: Env, v: View, clock: nat, p: Pid)
    ensures forall w: View, gone :: Moves(env, v, w.(gone := gone), clock, p) == Moves(env, v, w, clock, p)
  {
  }

  lemma DeleteFits(env: Env, s: State, p: Pid, proc: Proc, ok: bool)
    requires env.Prudent() && proc.Deleting? && ProcOk(env, s, p, proc)
    requires ProcFits(env, s, proc) && Delete(env, s, p, proc, ok).Some? && IdFits(env, ViewOf(s, proc.id), s.clock)
    ensures StepFits(env, s, Delete(env, s, p, proc, ok).value, p, proc.id)
  {
    hide Delete, ProcFits, ProcOk, IdFits, StepFits, ViewOf;
    match proc.point
    case DropBlob(_, _) => DroppingFits(env, s, p, proc, ok);
    case DropMeta(_, _, _) => EndingFits(env, s, p, proc, ok);
    case _ => LookingFits(env, s, p, proc, ok);
  }

  // steps that touch no file

  /** What a sweep goes on to delete is doomed. */
  lemma DueIsDoomed(env: Env, s: State, id: Id, now: nat)
    requires WasListed(ViewOf(s, id)) && now <= s.clock && Reclaimable(s.disk, id, now)
    requires IdOk(env, id, ViewOf(s, id)) && IdFits(env, ViewOf(s, id), s.clock)
    ensures SweepFits(env, ViewOf(s, id), s.clock, now)
  {
    UnixIsMonotone(now, s.clock);
    assert ViewOf(s, id).sidecar.Some? <==> id in s.disk.sidecars;
  }

  lemma SweepKeepsFits(env: Env, s: State, p: Pid, ok: bool)
    requires env.Prudent() && Fits(env, s) && Sane(env, s) && p in s.procs && Sweep(env, s, p, s.procs[p], ok).Some?
    ensures FitsNext(env, s, Sweep(env, s, p, s.procs[p], ok).value)
  {
    hide Sweep, Still, SweepFits, FitsNext;
    var proc := s.procs[p];
    assert ProcFits(env, s, proc) && ProcOk(env, s, p, proc);
    if IsDue(s, proc) {
      var id := proc.todo[0];
      assert IdOk(env, id, ViewOf(s, id)) && IdFits(env, ViewOf(s, id), s.clock);
      DueIsDoomed(env, s, id, proc.now);
    }
    hide Fits, Sane, ViewOf, ProcFits, ProcOk;
    SweepIsStill(env, s, p, proc, ok);
    SweepGoesOn(env, s, p, proc, ok);
    StillKeepsFits(env, s, Sweep(env, s, p, proc, ok).value, p);
  }

  /** The next id on a sweep's list is to be reclaimed. */
  predicate IsDue(s: State, proc: Proc)
  {
    proc.Scanning? && proc.todo != [] && Reclaimable(s.disk, proc.todo[0], proc.now)
  }

  lemma SweepGoesOn(env: Env, s: State, p: Pid, proc: Proc, ok: bool)
    requires env.Prudent() && ProcFits(env, s, proc) && Sweep(env, s, p, proc, ok).Some?
    requires IsDue(s, proc) ==> SweepFits(env, ViewOf(s, proc.todo[0]), s.clock, proc.now)
    ensures var t := Sweep(env, s, p, proc, ok).value; p in t.procs ==> ProcFits(env, t, t.procs[p])
  {
    hide SweepFits, ViewOf;
    var t := Sweep(env, s, p, proc, ok).value;
    if IsDue(s, proc) {
      SameView(s, t, proc.todo[0]);
    }
  }

  lemma SameView(s: State, t: State, id: Id)
    requires t.disk == s.disk && t.fate == s.fate && t.gone == s.gone
    ensures ViewOf(t, id) == ViewOf(s, id)
  {
  }

  lemma SweepIsStill(env: Env, s: State, p: Pid, proc: Proc, ok: bool)
    requires Sweep(env, s, p, proc, ok).Some?
    ensures Still(s, Sweep(env, s, p, proc, ok).value, p)
  {
  }

  lemma HandleDeleteKeepsFits(env: Env, s: State, p: Pid, ok: bool)
    requires env.Prudent() && Fits(env, s) && Sane(env, s) && p in s.procs
    requires HandleDelete(env, s, p, s.procs[p], ok).Some?
    ensures FitsNext(env, s, HandleDelete(env, s, p, s.procs[p], ok).value)
  {
    hide Fits, FitsNext, Sane, HandleDelete, Still, ProcFits;
    AnswerIsStill(env, s, p, s.procs[p], ok);
    StillKeepsFits(env, s, HandleDelete(env, s, p, s.procs[p], ok).value, p);
  }

  lemma AnswerIsStill(env: Env, s: State, p: Pid, proc: Proc, ok: bool)
    requires HandleDelete(env, s, p, proc, ok).Some?
    ensures var t := HandleDelete(env, s, p, proc, ok).value;
            Still(s, t, p) && (p in t.procs ==> ProcFits(env, t, t.procs[p]))
  {
    hide MayStat;
  }

  lemma DownloadKeepsFits(env: Env, s: State, p: Pid, ok: bool)
    requires Fits(env, s) && p in s.procs && Download(s, p, s.procs[p], ok).Some?
    ensures FitsNext(env, s, Download(s, p, s.procs[p], ok).value)
  {
    hide Fits, FitsNext, Download, Still, ProcFits;
    DownloadIsStill(env, s, p, s.procs[p], ok);
    StillKeepsFits(env, s, Download(s, p, s.procs[p], ok).value, p);
  }

  lemma DownloadIsStill(env: Env, s: State, p: Pid, proc: Proc, ok: bool)
    requires Download(s, p, proc, ok).Some?
    ensures var t := Download(s, p, proc, ok).value;
            Still(s, t, p) && (p in t.procs ==> ProcFits(env, t, t.procs[p]))
  {
    hide Asked;
  }

  lemma SendKeepsFits(env: Env, s: State, p: Pid, n: nat)
    requires Fits(env, s) && p in s.procs && s.procs[p].Sending? && Send(s, p, s.procs[p], n).Some?
    ensures FitsNext(env, s, Send(s, p, s.procs[p], n).value)
  {
    hide Fits;
    StillKeepsFits(env, s, Send(s, p, s.procs[p], n).value, p);
  }

  lemma TickKeepsFits(env: Env, s: State, to: nat)
    requires Fits(env, s) && Sane(env, s) && Sane(env, s.(clock := to)) && s.clock <= to
    ensures FitsNext(env, s, s.(clock := to))
  {
    var t := s.(clock := to);
    UnixIsMonotone(s.clock, to);
    forall id
      ensures IdFits(env, ViewOf(t, id), to)
      ensures Settled(ViewOf(s, id), s.clock) ==> Fades(ViewOf(s, id), ViewOf(t, id), to)
    {
      assert IdFits(env, ViewOf(s, id), s.clock);
      assert ViewOf(t, id) == ViewOf(s, id);
      StaysFit(env, ViewOf(s, id), s.clock, to);
    }
    forall q | q in t.procs
      ensures ProcFits(env, t, t.procs[q])
    {
      assert ProcFits(env, s, s.procs[q]) && ProcOk(env, s, q, s.procs[q]);
      if s.procs[q].Deleting? {
        var id := s.procs[q].id;
        assert ViewOf(t, id) == ViewOf(s, id);
        assert IdFits(env, ViewOf(s, id), s.clock) && IdOk(env, id, ViewOf(t, id));
        NothingMoves(env, ViewOf(s, id), s.clock, q + 1);
        DeleteFitsStill(env, s, t, q + 1, q, s.procs[q]);
      }
    }
  }

  lemma OtherKeepsFits(env: Env, s: State, e: Event, t: State)
    requires e.Crash? || e.StartDelete? || e.StartSweep? || e.StartGet? || e.Find?
    requires Fits(env, s) && Apply(env, s, e) == Some(t)
    ensures FitsNext(env, s, t)
  {
    assert e.Find? ==> e.p in s.procs && ProcFits(env, s, s.procs[e.p]);
    hide Fits, FitsNext, Apply, Still, ProcFits;
    OtherIsStill(env, s, e, t);
    NewcomerFits(env, s, e, t);
    StillKeepsFits(env, s, t, e.p);
  }

  lemma NewcomerFits(env: Env, s: State, e: Event, t: State)
    requires e.Crash? || e.StartDelete? || e.StartSweep? || e.StartGet? || e.Find?
    requires Apply(env, s, e) == Some(t) && (e.Find? ==> e.p in s.procs && ProcFits(env, s, s.procs[e.p]))
    ensures e.p in t.procs ==> ProcFits(env, t, t.procs[e.p])
  {
    hide Keys.Greatest, Advance, Send, Receive, IsValidId;
  }

  lemma OtherIsStill(env: Env, s: State, e: Event, t: State)
    requires e.Crash? || e.StartDelete? || e.StartSweep? || e.StartGet? || e.Find?
    requires Apply(env, s, e) == Some(t)
    ensures Still(s, t, e.p)
  {
    hide Keys.Greatest, Advance, Send, Receive, IsValidId;
  }

  // ---- runs -----------------------------------------------------------------------------------

  lemma WorkKeepsFits(env: Env, s: State, p: Pid, ok: bool, t: State)
    requires env.Prudent() && Fits(env, s) && Sane(env, s) && Sane(env, t)
    requires p in s.procs && Advance(env, s, p, ok) == Some(t)
    requires var proc := s.procs[p];
             !(proc.Listing? || proc.Scanning? || proc.Reaping? || proc.ReapingOne? || proc.GetReads? || proc.GetStats?
               || proc.Opening? || Answers(proc))
    ensures FitsNext(env, s, t)
  {
    hide Ingest, Delete, Sweep, HandleDelete, Download;
    var proc := s.procs[p];
    var id := proc.id;
    assert ProcOk(env, s, p, proc) && ProcFits(env, s, proc);
    assert IdOk(env, id, ViewOf(s, id)) && IdFits(env, ViewOf(s, id), s.clock);
    hide Fits, Sane, ProcOk, ProcFits, IdOk, IdFits, ViewOf, Evolves, StepOk, StepFits, Apart;
    if proc.Deleting? {
      DeleteFits(env, s, p, proc, ok);
    } else {
      IngestEvolves(env, s, p, proc, ok);
      IngestFits(env, s, p, proc, ok);
    }
    forall q, other
      ensures Apart(s, t, p, id, q, other)
    {
      if proc.Deleting? {
        DeleteApart(env, s, p, proc, ok, q, other);
      } else {
        IngestApart(env, s, p, proc, ok, q, other);
      }
    }
    StepKeepsFits(env, s, t, p, id);
  }

  lemma IngestEvolves(env: Env, s: State, p: Pid, proc: Proc, ok: bool)
    requires ProcOk(env, s, p, proc) && Ingest(env, s, p, proc, ok).Some?
    requires IdOk(env, proc.id, ViewOf(s, proc.id))
    ensures Evolves(ViewOf(s, proc.id), ViewOf(Ingest(env, s, p, proc, ok).value, proc.id), p)
  {
    hide Ingest, ProcOk, IdOk, Evolves, ViewOf;
    IngestStep(env, s, p, proc, ok);
  }

  lemma AdvanceKeepsFits(env: Env, s: State, p: Pid, ok: bool, t: State)
    requires env.Prudent() && Fits(env, s) && Sane(env, s) && Sane(env, t)
    requires p in s.procs && Advance(env, s, p, ok) == Some(t)
    ensures FitsNext(env, s, t)
  {
    hide Fits, Sane, Ingest, Delete, HandleDelete, Sweep, Download;
    var proc := s.procs[p];
    if proc.Listing? || proc.Scanning? || proc.Reaping? || proc.ReapingOne? {
      SweepKeepsFits(env, s, p, ok);
    } else if proc.GetReads? || proc.GetStats? || proc.Opening? {
      DownloadKeepsFits(env, s, p, ok);
    } else if Answers(proc) {
      HandleDeleteKeepsFits(env, s, p, ok);
    } else {
      WorkKeepsFits(env, s, p, ok, t);
    }
  }

  lemma ReceiveKeepsFits(env: Env, s: State, p: Pid, slice: Octets)
    requires p in s.procs && s.procs[p].Receiving? && Fits(env, s) && Sane(env, s)
    requires Sane(env, Receive(env, s, p, s.procs[p], slice))
    ensures FitsNext(env, s, Receive(env, s, p, s.procs[p], slice))
  {
    var proc := s.procs[p];
    var t := Receive(env, s, p, proc, slice);
    assert ProcOk(env, s, p, proc);
    assert IdOk(env, proc.id, ViewOf(s, proc.id)) && IdFits(env, ViewOf(s, proc.id), s.clock);
    hide Fits, Sane, Receive, ProcOk, IdOk, IdFits, ViewOf, StepFits, Apart;
    ReceiveFits(env, s, p, proc, slice);
    forall q, other
      ensures Apart(s, t, p, proc.id, q, other)
    {
      ReceiveApart(env, s, p, proc, slice, q, other);
    }
    StepKeepsFits(env, s, t, p, proc.id);
  }

  lemma ApplyKeepsFits(env: Env, s: State, e: Event, t: State)
    requires env.Prudent() && Fits(env, s) && Sane(env, s) && Apply(env, s, e) == Some(t)
    ensures FitsNext(env, s, t) && Sane(env, t)
  {
    hide FitsNext, Fits, Sane, Advance, Receive, Send, Keys.Greatest;
    ApplyKeepsSane(env, s, e, t);
    match e
    case Tick(to) => TickKeepsFits(env, s, to);
    case StartIngest(_, _, _, _, _) => StartIngestKeepsFits(env, s, e, t);
    case Arrive(p, slice) => ReceiveKeepsFits(env, s, p, slice);
    case Fetch(p, n) => SendKeepsFits(env, s, p, n);
    case Do(p, ok) => AdvanceKeepsFits(env, s, p, ok, t);
    case _ => OtherKeepsFits(env, s, e, t);
  }

  lemma {:induction false} RunKeepsFits(env: Env, s: State, events: seq<Event>, t: State)
    requires env.Prudent() && Fits(env, s) && Sane(env, s) && Run(env, s, events) == Some(t)
    ensures Fits(env, t) && Sane(env, t)
    decreases |events|
  {
    hide Fits, Sane, Apply;
    if events != [] {
      var next := Apply(env, s, events[0]).value;
      ApplyKeepsFits(env, s, events[0], next);
      RunKeepsFits(env, next, events[1..], t);
    }
  }

  lemma StartFits(env: Env)
    ensures Fits(env, START)
  {
  }

  lemma ReachableFits(env: Env, s: State)
    requires env.Prudent() && Reachable(env, s)
    ensures Fits(env, s) && Sane(env, s)
  {
    hide Fits, Sane, Apply;
    var events :| Run(env, START, events) == Some(s);
    StartIsSane(env);
    StartFits(env);
    RunKeepsFits(env, START, events, s);
  }
}

/** Store.Delete returns true at most once for an id. */
module Once {
  import opened Text
  import opened Disk
  import opened Machine
  import opened Facts
  import opened Order
  import Keys

  /** A delete that dropped the blob, saw no sidecar, and is about to return true. */
  predicate Pending(proc: Proc, id: Id)
  {
    proc.Deleting? && proc.id == id && proc.point.DropMeta? && !proc.point.sawMeta && proc.point.blobGone
  }

  /** A delete goes on past its stats only if it saw a file. */
  predicate SawOne(proc: Proc)
  {
    proc.Deleting? && proc.point.DropBlob? ==> proc.point.sawBlob || proc.point.sawMeta
  }

  /** A delete of this id returned true at most once, and then nothing of it is left or can come back. */
  predicate Counted(s: State, id: Id)
  {
    && s.reclaimed[id] <= 1
    && (s.reclaimed[id] > 0 ==>
          var v := ViewOf(s, id); Settled(v, s.clock) && v.blob.None? && v.sidecar.None?)
  }

  /** A delete about to return true is the first to, and alone. */
  predicate FirstAndAlone(s: State, p: Pid, q: Pid, id: Id)
  {
    p in s.procs && Pending(s.procs[p], id) ==>
      && s.reclaimed[id] == 0 && ViewOf(s, id).blob.None?
      && (q in s.procs && Pending(s.procs[q], id) ==> q == p)
  }

  ghost predicate Tally(s: State)
  {
    && (forall p :: p in s.procs ==> SawOne(s.procs[p]))
    && (forall id :: Counted(s, id))
    && (forall p, q, id :: FirstAndAlone(s, p, q, id))
  }

  /** What a delete is after is settled. */
  lemma TargetIsSettled(env: Env, s: State, p: Pid)
    requires env.timelyRename && Fits(env, s) && Sane(env, s) && p in s.procs && s.procs[p].Deleting?
    ensures Settled(ViewOf(s, s.procs[p].id), s.clock) && PointOk(ViewOf(s, s.procs[p].id), s.procs[p].point)
  {
    var proc := s.procs[p];
    assert ProcFits(env, s, proc) && ProcOk(env, s, p, proc);
    assert IdFits(env, ViewOf(s, proc.id), s.clock);
    if proc.caller.BySweep? {
      DoomedIsSettled(env, ViewOf(s, proc.id), s.clock);
    }
  }

  // ---- steps that count nothing ---------------------------------------------------------------

  /** A step after which p is about to return true for nothing, and returns true for nothing. */
  ghost predicate Uncounted(s: State, t: State, p: Pid)
  {
    && t.reclaimed == s.reclaimed && t.procs - {p} == s.procs - {p}
    && (p in t.procs ==> SawOne(t.procs[p]) && forall id :: !Pending(t.procs[p], id))
  }

  lemma OthersAreSame(s: State, t: State, p: Pid, q: Pid)
    requires t.procs - {p} == s.procs - {p} && q != p
    ensures q in t.procs <==> q in s.procs
    ensures q in t.procs ==> t.procs[q] == s.procs[q]
  {
    assert q in t.procs <==> q in t.procs - {p};
    assert q in t.procs ==> t.procs[q] == (t.procs - {p})[q];
  }

  lemma UncountedKeepsTally(env: Env, s: State, t: State, p: Pid)
    requires env.timelyRename && Tally(s) && Fits(env, s) && Sane(env, s) && Fading(s, t) && Uncounted(s, t, p)
    ensures Tally(t)
  {
    hide Fits, Sane, Settled, PointOk, ViewOf, SawOne, Pending;
    forall q | q in t.procs
      ensures SawOne(t.procs[q])
    {
      if q != p {
        OthersAreSame(s, t, p, q);
      }
    }
    forall id
      ensures Counted(t, id)
    {
      assert Counted(s, id);
      assert Settled(ViewOf(s, id), s.clock) ==> Fades(ViewOf(s, id), ViewOf(t, id), t.clock);
    }
    forall q, r, id
      ensures FirstAndAlone(t, q, r, id)
    {
      if q in t.procs && Pending(t.procs[q], id) {
        OthersAreSame(s, t, p, q);
        assert FirstAndAlone(s, q, r, id);
        PendingIsSettled(env, s, q, id);
        assert Fades(ViewOf(s, id), ViewOf(t, id), t.clock);
        if r != p {
          OthersAreSame(s, t, p, r);
        }
      }
    }
  }

  lemma PendingIsSettled(env: Env, s: State, p: Pid, id: Id)
    requires env.timelyRename && Fits(env, s) && Sane(env, s) && p in s.procs && Pending(s.procs[p], id)
    ensures Settled(ViewOf(s, id), s.clock) && ViewOf(s, id).sidecar.None?
  {
    hide Fits, Sane, Settled, ViewOf;
    TargetIsSettled(env, s, p);
  }

  lemma IngestIsUncounted(env: Env, s: State, p: Pid, proc: Proc, ok: bool)
    requires Ingest(env, s, p, proc, ok).Some?
    ensures Uncounted(s, Ingest(env, s, p, proc, ok).value, p)
  {
    hide Describe;
  }

  lemma AnswerIsUncounted(env: Env, s: State, p: Pid, proc: Proc, ok: bool)
    requires HandleDelete(env, s, p, proc, ok).Some?
    ensures Uncounted(s, HandleDelete(env, s, p, proc, ok).value, p)
  {
    hide MayStat;
  }

  lemma SweepIsUncounted(env: Env, s: State, p: Pid, proc: Proc, ok: bool)
    requires Sweep(env, s, p, proc, ok).Some?
    ensures Uncounted(s, Sweep(env, s, p, proc, ok).value, p)
  {
    hide MayStat, Reclaimable;
  }

  lemma DownloadIsUncounted(s: State, p: Pid, proc: Proc, ok: bool)
    requires Download(s, p, proc, ok).Some?
    ensures Uncounted(s, Download(s, p, proc, ok).value, p)
  {
    hide Asked;
  }

  lemma OtherIsUncounted(env: Env, s: State, e: Event, t: State)
    requires !e.Tick? && !e.Do? && Apply(env, s, e) == Some(t)
    ensures Uncounted(s, t, e.p)
  {
    hide Keys.Greatest, IsValidId, Send, Receive, Uncounted;
    if e.Fetch? {
      SendIsUncounted(s, e.p, s.procs[e.p], e.n);
    } else if e.Arrive? {
      ReceiveIsUncounted(env, s, e.p, s.procs[e.p], e.slice);
    } else {
      QuickIsUncounted(env, s, e, t);
    }
  }

  lemma ReceiveIsUncounted(env: Env, s: State, p: Pid, proc: Proc, slice: Octets)
    requires proc.Receiving?
    ensures Uncounted(s, Receive(env, s, p, proc, slice), p)
  {
  }

  lemma QuickIsUncounted(env: Env, s: State, e: Event, t: State)
    requires !e.Tick? && !e.Do? && !e.Fetch? && !e.Arrive? && Apply(env, s, e) == Some(t)
    ensures Uncounted(s, t, e.p)
  {
    hide Keys.Greatest, IsValidId, Advance, Send, Receive;
  }

  lemma SendIsUncounted(s: State, p: Pid, proc: Proc, n: nat)
    requires proc.Sending? && Send(s, p, proc, n).Some?
    ensures Uncounted(s, Send(s, p, proc, n).value, p)
  {
  }

  // ---- Store.Delete ---------------------------------------------------------------------------

  /** Whether a step of Store.Delete is the one that drops the blob of a chunk whose sidecar it did not see. */
  predicate Claims(s: State, proc: Proc, ok: bool)
    requires proc.Deleting?
  {
    proc.point.DropBlob? && proc.point.sawBlob && !proc.point.sawMeta && proc.id in s.disk.blobs && ok
  }

  /** Whether a step of Store.Delete returns true. */
  predicate Counts(s: State, proc: Proc, ok: bool)
    requires proc.Deleting?
  {
    && proc.point.DropMeta? && proc.point.blobGone
    && (proc.point.sawMeta ==> proc.id in s.disk.sidecars && ok)
  }

  lemma ReturnCounts(s: State, p: Pid, id: Id, caller: Caller, deleted: bool)
    ensures var t := Return(s, p, id, caller, deleted);
            && t.reclaimed == s.reclaimed + (if deleted then multiset{id} else multiset{})
            && t.procs - {p} == s.procs - {p} && t.clock == s.clock && t.fate == s.fate && t.disk == s.disk
            && (p in t.procs ==> SawOne(t.procs[p]) && forall x :: !Pending(t.procs[p], x))
  {
  }

  lemma DeleteIsUncounted(env: Env, s: State, p: Pid, proc: Proc, ok: bool)
    requires proc.Deleting? && SawOne(proc) && Delete(env, s, p, proc, ok).Some?
    requires !Claims(s, proc, ok) && !Counts(s, proc, ok)
    ensures Uncounted(s, Delete(env, s, p, proc, ok).value, p)
  {
    hide Return, MayStat;
    ReturnCounts(s, p, proc.id, proc.caller, false);
    if proc.point.DropMeta? {
      ReturnCounts(DropSidecar(s, proc.id), p, proc.id, proc.caller, false);
    } else {
      GoingOnIsUncounted(env, s, p, proc, ok);
    }
  }

  lemma GoingOnIsUncounted(env: Env, s: State, p: Pid, proc: Proc, ok: bool)
    requires proc.Deleting? && !proc.point.DropMeta? && SawOne(proc) && Delete(env, s, p, proc, ok).Some?
    requires !Claims(s, proc, ok)
    ensures Uncounted(s, Delete(env, s, p, proc, ok).value, p)
  {
    hide Return, MayStat;
    ReturnCounts(s, p, proc.id, proc.caller, false);
  }

  lemma ClaimKeepsTally(env: Env, s: State, p: Pid, proc: Proc, ok: bool)
    requires p in s.procs && s.procs[p] == proc && proc.Deleting? && Claims(s, proc, ok)
    requires Tally(s) && Delete(env, s, p, proc, ok).Some?
    ensures Tally(Delete(env, s, p, proc, ok).value)
  {
    var Deleting(id, caller, _) := proc;
    var claim := Deleting(id, caller, DropMeta(false, true, false));
    var t := Delete(env, s, p, proc, ok).value;
    assert t == DropTheBlob(s, id).(procs := s.procs[p := claim]);
    hide Delete;
    forall x
      ensures Counted(t, x) && (x == id ==> s.reclaimed[x] == 0)
    {
      assert Counted(s, x);
    }
    forall q, r, x
      ensures FirstAndAlone(t, q, r, x)
    {
      assert FirstAndAlone(s, q, r, x) && FirstAndAlone(s, r, q, x);
    }
  }

  lemma CountKeepsTally(env: Env, s: State, p: Pid, proc: Proc, ok: bool)
    requires env.timelyRename && p in s.procs && s.procs[p] == proc && proc.Deleting? && Counts(s, proc, ok)
    requires Tally(s) && Fits(env, s) && Sane(env, s) && Delete(env, s, p, proc, ok).Some?
    ensures Tally(Delete(env, s, p, proc, ok).value)
  {
    var Deleting(id, caller, DropMeta(sawMeta, _, _)) := proc;
    var t := Delete(env, s, p, proc, ok).value;
    TargetIsSettled(env, s, p);
    var mid := if sawMeta then DropSidecar(s, id) else s;
    assert t == Return(mid, p, id, caller, true);
    ReturnCounts(mid, p, id, caller, true);
    hide Delete, Return;
    assert ViewOf(t, id).blob.None? && ViewOf(t, id).sidecar.None? && Settled(ViewOf(t, id), t.clock);
    assert s.reclaimed[id] == 0 by {
      assert Counted(s, id) && FirstAndAlone(s, p, p, id);
    }
    CountedOnce(env, s, p, id, t);
  }

  /** Once a delete has returned true, and nothing is left of the chunk, no other delete is about to. */
  lemma CountedOnce(env: Env, s: State, p: Pid, id: Id, t: State)
    requires env.timelyRename && Tally(s) && Fits(env, s) && Sane(env, s)
    requires p in s.procs && s.procs[p].Deleting? && s.procs[p].id == id && s.reclaimed[id] == 0
    requires s.procs[p].point.DropMeta? && (id in s.disk.sidecars || Pending(s.procs[p], id))
    requires t.reclaimed == s.reclaimed + multiset{id} && t.procs - {p} == s.procs - {p}
    requires t.clock == s.clock && t.fate == s.fate
    requires t.disk == s.disk.(sidecars := t.disk.sidecars)
    requires forall x :: x != id ==> (x in t.disk.sidecars <==> x in s.disk.sidecars)
    requires ViewOf(t, id).blob.None? && ViewOf(t, id).sidecar.None? && Settled(ViewOf(t, id), t.clock)
    requires p in t.procs ==> SawOne(t.procs[p]) && forall x :: !Pending(t.procs[p], x)
    ensures Tally(t)
  {
    hide Fits, Sane;
    forall q | q in t.procs
      ensures SawOne(t.procs[q])
    {
      if q != p {
        OthersAreSame(s, t, p, q);
      }
    }
    forall x
      ensures Counted(t, x)
    {
      assert Counted(s, x);
    }
    forall q, r, x
      ensures FirstAndAlone(t, q, r, x)
    {
      if q in t.procs && Pending(t.procs[q], x) {
        OthersAreSame(s, t, p, q);
        assert FirstAndAlone(s, q, r, x) && FirstAndAlone(s, q, p, x);
        PendingIsSettled(env, s, q, x);
        if r != p {
          OthersAreSame(s, t, p, r);
        }
      }
    }
  }

  // ---- runs -----------------------------------------------------------------------------------

  lemma DeleteKeepsTally(env: Env, s: State, p: Pid, ok: bool)
    requires env.timelyRename && Tally(s) && Fits(env, s) && Sane(env, s)
    requires p in s.procs && s.procs[p].Deleting? && Delete(env, s, p, s.procs[p], ok).Some?
    requires Fading(s, Delete(env, s, p, s.procs[p], ok).value)
    ensures Tally(Delete(env, s, p, s.procs[p], ok).value)
  {
    hide Delete, Fits, Sane, Claims, Counts, Fading, Uncounted;
    var proc := s.procs[p];
    if Claims(s, proc, ok) {
      ClaimKeepsTally(env, s, p, proc, ok);
    } else if Counts(s, proc, ok) {
      CountKeepsTally(env, s, p, proc, ok);
    } else {
      DeleteIsUncounted(env, s, p, proc, ok);
      UncountedKeepsTally(env, s, Delete(env, s, p, proc, ok).value, p);
    }
  }

  lemma AdvanceIsUncounted(env: Env, s: State, p: Pid, ok: bool, t: State)
    requires p in s.procs && !s.procs[p].Deleting? && Advance(env, s, p, ok) == Some(t)
    ensures Uncounted(s, t, p)
  {
    hide Ingest, Delete, HandleDelete, Sweep, Download, Uncounted;
    var proc := s.procs[p];
    if proc.Listing? || proc.Scanning? || proc.Reaping? || proc.ReapingOne? {
      SweepIsUncounted(env, s, p, proc, ok);
    } else if proc.GetReads? || proc.GetStats? || proc.Opening? {
      DownloadIsUncounted(s, p, proc, ok);
    } else if Answers(proc) {
      AnswerIsUncounted(env, s, p, proc, ok);
    } else {
      IngestIsUncounted(env, s, p, proc, ok);
    }
  }

  lemma TickKeepsTally(s: State, to: nat)
    requires Tally(s) && s.clock <= to
    ensures Tally(s.(clock := to))
  {
    var t := s.(clock := to);
    UnixIsMonotone(s.clock, to);
    forall id
      ensures Counted(t, id)
    {
      assert Counted(s, id);
    }
    forall p, q, id
      ensures FirstAndAlone(t, p, q, id)
    {
      assert FirstAndAlone(s, p, q, id);
    }
  }

  lemma ApplyKeepsTally(env: Env, s: State, e: Event, t: State)
    requires env.Prudent() && env.timelyRename && Tally(s) && Fits(env, s) && Sane(env, s)
    requires Apply(env, s, e) == Some(t)
    ensures Tally(t) && Fits(env, t) && Sane(env, t)
  {
    hide Tally, Fits, Sane, Fading, Uncounted, Advance, Receive, Send, Keys.Greatest;
    ApplyKeepsFits(env, s, e, t);
    if e.Tick? {
      TickKeepsTally(s, e.to);
    } else if e.Do? && s.procs[e.p].Deleting? {
      DeletesByDo(env, s, e.p, e.ok, t);
      DeleteKeepsTally(env, s, e.p, e.ok);
    } else {
      if e.Do? {
        AdvanceIsUncounted(env, s, e.p, e.ok, t);
      } else {
        OtherIsUncounted(env, s, e, t);
      }
      UncountedKeepsTally(env, s, t, e.p);
    }
  }

  lemma DeletesByDo(env: Env, s: State, p: Pid, ok: bool, t: State)
    requires p in s.procs && s.procs[p].Deleting? && Advance(env, s, p, ok) == Some(t)
    ensures Delete(env, s, p, s.procs[p], ok) == Some(t)
  {
    hide Delete;
  }

  lemma {:induction false} RunKeepsTally(env: Env, s: State, events: seq<Event>, t: State)
    requires env.Prudent() && env.timelyRename && Tally(s) && Fits(env, s) && Sane(env, s)
    requires Run(env, s, events) == Some(t)
    ensures Tally(t) && Sane(env, t)
    decreases |events|
  {
    hide Tally, Fits, Sane, Apply;
    if events != [] {
      var next := Apply(env, s, events[0]).value;
      ApplyKeepsTally(env, s, events[0], next);
      RunKeepsTally(env, next, events[1..], t);
    }
  }

  lemma NothingCounted()
    ensures Tally(START)
  {
  }

  /**
   * Across all sweeps and handlers, however their steps interleave, Store.Delete returns true at most once
   * for an id, even where a directory refuses to drop one file of a chunk and drops the other.
   */
  lemma DeleteIsTrueOnce(env: Env, s: State)
    requires env.Prudent() && env.timelyRename && Reachable(env, s)
    ensures forall id :: s.reclaimed[id] <= 1
    ensures |s.reclaimed| <= |s.fate.Keys|
  {
    hide Sane, Fits, Apply, FirstAndAlone;
    var events :| Run(env, START, events) == Some(s);
    StartIsSane(env);
    StartFits(env);
    NothingCounted();
    RunKeepsTally(env, START, events, s);
    forall id
      ensures s.reclaimed[id] <= 1 && (s.reclaimed[id] > 0 ==> id in s.fate.Keys)
    {
      assert Counted(s, id);
    }
    SmallMultiset(s.reclaimed, s.fate.Keys);
  }

  lemma {:induction false} SmallMultiset(m: multiset<Id>, keys: set<Id>)
    requires forall id :: m[id] <= 1 && (m[id] > 0 ==> id in keys)
    ensures |m| <= |keys|
    decreases |keys|
  {
    if m != multiset{} {
      var id :| id in m;
      SmallMultiset(m - multiset{id}, keys - {id});
      assert m == (m - multiset{id}) + multiset{id};
    }
  }
}

/** What an upload declared is what it delivered: the declared length, from the request to the committed chunk. */
module Promises {
  import opened Text
  import opened Disk
  import opened Machine
  import opened Facts
  import Keys

  /** An upload still holds what its request declared, and past its length check has delivered that much. */
  predicate Holds(s: State, proc: Proc)
  {
    match proc
    case Receiving(id, _, _, declared, _) => id in s.promised && s.promised[id] == declared
    case Stamping(id, _, _, written) => id in s.promised && s.promised[id] == |written|
    case Describing(id, _, written) => id in s.promised && s.promised[id] == |written|
    case HalfDescribed(id, _, written) => id in s.promised && s.promised[id] == |written|
    case Renaming(id, _, written) => id in s.promised && s.promised[id] == |written|
    case _ => true
  }

  /** A committed chunk is as long as its upload declared, and on record. */
  predicate Fulfilled(s: State, id: Id)
  {
    id in s.fate && s.fate[id].Committed? ==>
      id in s.promised && s.promised[id] == |s.fate[id].body| && (id, s.fate[id].body) in s.stored
  }

  ghost predicate Kept(s: State)
  {
    && (forall p :: p in s.procs ==> Holds(s, s.procs[p]))
    && (forall id :: Fulfilled(s, id))
  }

  /** Nothing that was declared for an id is ever changed. */
  ghost predicate Stands(s: State, t: State)
  {
    forall id :: id in s.promised ==> id in t.promised && t.promised[id] == s.promised[id]
  }

  /** Every id with a history, and no other, has been promised a length. */
  ghost predicate Recorded(s: State)
  {
    s.promised.Keys == s.fate.Keys
  }

  /** A step that starts no upload: it ends in a process that holds its promise, and commits only what was promised. */
  ghost predicate Steady(s: State, t: State, p: Pid)
  {
    && t.promised == s.promised && t.fate.Keys == s.fate.Keys
    && (p in t.procs ==> Holds(t, t.procs[p]))
    && (forall q :: q in t.procs && q != p ==> q in s.procs && t.procs[q] == s.procs[q])
    && (forall id :: Fulfilled(s, id) ==> Fulfilled(t, id))
  }

  lemma SteadyKeeps(s: State, t: State, p: Pid)
    requires Kept(s) && Recorded(s) && Steady(s, t, p)
    ensures Kept(t) && Recorded(t) && Stands(s, t)
  {
    forall q | q in t.procs
      ensures Holds(t, t.procs[q])
    {
      if q != p {
        assert Holds(s, s.procs[q]);
      }
    }
    forall id
      ensures Fulfilled(t, id)
    {
      assert Fulfilled(s, id);
    }
  }

  /** A step that has nothing to do with uploads, and adds no sidecar. */
  ghost predicate Idle(s: State, t: State, p: Pid)
  {
    && t.promised == s.promised && t.fate == s.fate && t.stored == s.stored
    && t.disk.sidecars.Keys <= s.disk.sidecars.Keys
    && (p in t.procs ==> !Uploads(t.procs[p]))
    && (forall q :: q in t.procs && q != p ==> q in s.procs && t.procs[q] == s.procs[q])
  }

  predicate Uploads(proc: Proc)
  {
    proc.Receiving? || proc.Stamping? || proc.Describing? || proc.HalfDescribed? || proc.Renaming?
  }

  lemma IdleIsSteady(s: State, t: State, p: Pid)
    requires Idle(s, t, p)
    ensures Steady(s, t, p)
  {
  }

  lemma IngestIsSteady(env: Env, s: State, p: Pid, proc: Proc, ok: bool)
    requires p in s.procs && s.procs[p] == proc && Holds(s, proc) && ProcOk(env, s, p, proc)
    requires Ingest(env, s, p, proc, ok).Some?
    ensures Steady(s, Ingest(env, s, p, proc, ok).value, p)
  {
    if proc.Renaming? {
      CommitIsSteady(env, s, p, proc, ok);
    } else {
      UploadIsSteady(env, s, p, proc, ok);
    }
  }

  lemma CommitIsSteady(env: Env, s: State, p: Pid, proc: Proc, ok: bool)
    requires p in s.procs && proc.Renaming? && Holds(s, proc) && ProcOk(env, s, p, proc)
    requires Ingest(env, s, p, proc, ok).Some?
    ensures Steady(s, Ingest(env, s, p, proc, ok).value, p)
  {
    hide Describe;
  }

  lemma UploadIsSteady(env: Env, s: State, p: Pid, proc: Proc, ok: bool)
    requires p in s.procs && !proc.Renaming? && Holds(s, proc) && ProcOk(env, s, p, proc)
    requires Ingest(env, s, p, proc, ok).Some?
    ensures Steady(s, Ingest(env, s, p, proc, ok).value, p)
  {
    hide *;
    if proc.Describing? || proc.HalfDescribed? {
      DescribingIsSteady(env, s, p, proc, ok);
    } else {
      OtherUploadIsSteady(env, s, p, proc, ok);
    }
  }

  lemma DescribingIsSteady(env: Env, s: State, p: Pid, proc: Proc, ok: bool)
    requires p in s.procs && (proc.Describing? || proc.HalfDescribed?) && Holds(s, proc) && ProcOk(env, s, p, proc)
    requires Ingest(env, s, p, proc, ok).Some?
    ensures Steady(s, Ingest(env, s, p, proc, ok).value, p)
  {
    hide Describe, Describes;
  }

  lemma OtherUploadIsSteady(env: Env, s: State, p: Pid, proc: Proc, ok: bool)
    requires p in s.procs && !(proc.Renaming? || proc.Describing? || proc.HalfDescribed?)
    requires Holds(s, proc) && ProcOk(env, s, p, proc) && Ingest(env, s, p, proc, ok).Some?
    ensures Steady(s, Ingest(env, s, p, proc, ok).value, p)
  {
    hide Describe, Describes;
  }

  lemma ReceiveIsSteady(env: Env, s: State, p: Pid, proc: Proc, slice: Octets)
    requires proc.Receiving? && Holds(s, proc) && ProcOk(env, s, p, proc)
    ensures Steady(s, Receive(env, s, p, proc, slice), p)
  {
  }

  lemma DeleteIsIdle(env: Env, s: State, p: Pid, proc: Proc, ok: bool)
    requires proc.Deleting? && Delete(env, s, p, proc, ok).Some?
    ensures Idle(s, Delete(env, s, p, proc, ok).value, p)
  {
    hide *;
    if proc.point.DropMeta? {
      EndingIsIdle(env, s, p, proc, ok);
    } else {
      GoingOnIsIdle(env, s, p, proc, ok);
    }
  }

  lemma EndingIsIdle(env: Env, s: State, p: Pid, proc: Proc, ok: bool)
    requires proc.Deleting? && proc.point.DropMeta? && Delete(env, s, p, proc, ok).Some?
    ensures Idle(s, Delete(env, s, p, proc, ok).value, p)
  {
    hide Return, Uploads;
    var Deleting(id, caller, point) := proc;
    ReturnIsIdle(s, p, id, caller, false);
    ReturnIsIdle(s, p, id, caller, point.blobGone);
    ReturnIsIdle(DropSidecar(s, id), p, id, caller, point.blobGone);
  }

  lemma GoingOnIsIdle(env: Env, s: State, p: Pid, proc: Proc, ok: bool)
    requires proc.Deleting? && !proc.point.DropMeta? && Delete(env, s, p, proc, ok).Some?
    ensures Idle(s, Delete(env, s, p, proc, ok).value, p)
  {
    hide Return, Uploads, MayStat;
    ReturnIsIdle(s, p, proc.id, proc.caller, false);
    DeletingIsIdle(proc.id, proc.caller);
  }

  lemma DeletingIsIdle(id: Id, caller: Caller)
    ensures forall point :: !Uploads(Deleting(id, caller, point))
  {
  }

  lemma ReturnIsIdle(s: State, p: Pid, id: Id, caller: Caller, deleted: bool)
    ensures Idle(s, Return(s, p, id, caller, deleted), p)
  {
  }

  lemma AnswerIsIdle(env: Env, s: State, p: Pid, proc: Proc, ok: bool)
    requires HandleDelete(env, s, p, proc, ok).Some?
    ensures Idle(s, HandleDelete(env, s, p, proc, ok).value, p)
  {
  }

  lemma SweepIsIdle(env: Env, s: State, p: Pid, proc: Proc, ok: bool)
    requires Sweep(env, s, p, proc, ok).Some?
    ensures Idle(s, Sweep(env, s, p, proc, ok).value, p)
  {
    hide MayStat, Reclaimable;
  }

  lemma DownloadIsIdle(s: State, p: Pid, proc: Proc, ok: bool)
    requires Download(s, p, proc, ok).Some?
    ensures Idle(s, Download(s, p, proc, ok).value, p)
  {
    hide Asked;
  }

  lemma SendIsIdle(s: State, p: Pid, proc: Proc, n: nat)
    requires proc.Sending? && Send(s, p, proc, n).Some?
    ensures Idle(s, Send(s, p, proc, n).value, p)
  {
  }

  /** What is no upload has nothing to do with uploads. */
  lemma BystanderIsIdle(env: Env, s: State, p: Pid, ok: bool, t: State)
    requires p in s.procs && Advance(env, s, p, ok) == Some(t) && Bystands(s.procs[p])
    ensures Idle(s, t, p)
  {
    hide Ingest, Delete, HandleDelete, Sweep, Download, Idle;
    var proc := s.procs[p];
    if proc.Deleting? {
      DeleteIsIdle(env, s, p, proc, ok);
    } else if proc.Listing? || proc.Scanning? || proc.Reaping? || proc.ReapingOne? {
      SweepIsIdle(env, s, p, proc, ok);
    } else if proc.GetReads? || proc.GetStats? || proc.Opening? {
      DownloadIsIdle(s, p, proc, ok);
    } else {
      AnswerIsIdle(env, s, p, proc, ok);
    }
  }

  /** A process that is no upload, not even one that is clearing up. */
  predicate Bystands(proc: Proc)
  {
    !Uploads(proc) && !proc.Retracting? && !proc.Discarding?
  }

  lemma AdvanceIsSteady(env: Env, s: State, p: Pid, ok: bool, t: State)
    requires p in s.procs && Holds(s, s.procs[p]) && ProcOk(env, s, p, s.procs[p]) && Advance(env, s, p, ok) == Some(t)
    ensures Steady(s, t, p)
  {
    hide Ingest, Delete, HandleDelete, Sweep, Download, ProcOk, Steady, Idle, Holds;
    if Bystands(s.procs[p]) {
      BystanderIsIdle(env, s, p, ok, t);
      IdleIsSteady(s, t, p);
    } else {
      IngestIsSteady(env, s, p, s.procs[p], ok);
    }
  }

  /** A new upload makes its promise for an id nobody else is at work on. */
  lemma StartKeeps(env: Env, s: State, e: Event, t: State)
    requires env.freshIds && Sane(env, s) && Kept(s) && Recorded(s) && e.StartIngest? && Apply(env, s, e) == Some(t)
    ensures Kept(t) && Recorded(t) && Stands(s, t)
  {
    hide Sane, ProcOk;
    forall q | q in t.procs
      ensures Holds(t, t.procs[q])
    {
      if q != e.p {
        assert Holds(s, s.procs[q]);
      }
    }
    forall id
      ensures Fulfilled(t, id)
    {
      assert Fulfilled(s, id);
    }
  }

  lemma ApplyKeepsPromises(env: Env, s: State, e: Event, t: State)
    requires env.freshIds && Sane(env, s) && Kept(s) && Recorded(s) && Apply(env, s, e) == Some(t)
    ensures Kept(t) && Recorded(t) && Stands(s, t)
  {
    hide Sane, ProcOk, Kept, Recorded, Stands, Steady, Advance, Receive, Send, Keys.Greatest;
    match e
    case StartIngest(_, _, _, _, _) => StartKeeps(env, s, e, t);
    case Tick(_) => TickKeeps(s, t);
    case Do(p, ok) =>
      ActorIsFine(env, s, p);
      AdvanceIsSteady(env, s, p, ok, t);
      SteadyKeeps(s, t, p);
    case Arrive(p, slice) =>
      ActorIsFine(env, s, p);
      ReceiveIsSteady(env, s, p, s.procs[p], slice);
      SteadyKeeps(s, t, p);
    case _ =>
      OtherIsIdle(env, s, e, t);
      IdleIsSteady(s, t, e.p);
      SteadyKeeps(s, t, e.p);
  }

  lemma OtherIsIdle(env: Env, s: State, e: Event, t: State)
    requires e.Crash? || e.StartDelete? || e.StartSweep? || e.StartGet? || e.Find? || e.Fetch?
    requires Apply(env, s, e) == Some(t)
    ensures Idle(s, t, e.p)
  {
    hide Send, Keys.Greatest, IsValidId;
    if e.Fetch? {
      SendIsIdle(s, e.p, s.procs[e.p], e.n);
    }
  }

  lemma TickKeeps(s: State, t: State)
    requires Kept(s) && Recorded(s) && t == s.(clock := t.clock)
    ensures Kept(t) && Recorded(t) && Stands(s, t)
  {
    forall id
      ensures Fulfilled(t, id)
    {
      assert Fulfilled(s, id);
    }
  }

  lemma ActorIsFine(env: Env, s: State, p: Pid)
    requires Sane(env, s) && Kept(s) && p in s.procs
    ensures ProcOk(env, s, p, s.procs[p]) && Holds(s, s.procs[p])
  {
  }

  lemma {:induction false} RunKeepsPromises(env: Env, s: State, events: seq<Event>, t: State)
    requires env.freshIds && Sane(env, s) && Kept(s) && Recorded(s) && Run(env, s, events) == Some(t)
    ensures Kept(t) && Recorded(t) && Stands(s, t)
    decreases |events|
  {
    hide Sane, Kept, Recorded, Apply;
    if events != [] {
      var next := Apply(env, s, events[0]).value;
      ApplyKeepsSane(env, s, events[0], next);
      ApplyKeepsPromises(env, s, events[0], next);
      RunKeepsPromises(env, next, events[1..], t);
    }
  }

  lemma StartKeepsPromises(env: Env)
    ensures Sane(env, START) && Kept(START) && Recorded(START)
  {
    StartIsSane(env);
  }

  /** In every reachable state each upload under way, and each committed chunk, holds to what was declared for it. */
  lemma ReachableKeepsPromises(env: Env, s: State)
    requires env.freshIds && Reachable(env, s)
    ensures Kept(s) && Recorded(s)
  {
    hide Sane, Kept, Recorded, Apply;
    var events :| Run(env, START, events) == Some(s);
    StartKeepsPromises(env);
    RunKeepsPromises(env, START, events, s);
  }
}

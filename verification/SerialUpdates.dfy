/** Concurrent updates of counters amount to the same updates made one after the other. */
module SerialUpdates {
  import opened Text
  import opened QuotaLocks
  import Q = Quota

  // ---- what the history says ------------------------------------------------------------------

  /** The counter of a path after the recorded updates, made one at a time. */
  ghost function Replay(log: seq<Entry>, path: Path): Q.Int64
  {
    if log == [] then 0
    else
      var before := Replay(log[..|log| - 1], path);
      var call := log[|log| - 1].call;
      if call.path == path && call.mutate(before).Some? then call.mutate(before).value else before
  }

  /** Every recorded answer is the one the update would have given with nobody else at work. */
  ghost predicate Legal(log: seq<Entry>)
  {
    log == [] ||
    var n := |log| - 1;
    Legal(log[..n]) && (log[n].ok <==> log[n].call.mutate(Replay(log[..n], log[n].call.path)).Some?)
  }

  ghost function Times(log: seq<Entry>, p: Pid): nat
  {
    if log == [] then 0 else Times(log[..|log| - 1], p) + if log[|log| - 1].p == p then 1 else 0
  }

  predicate EmptiedOn(proc: Proc, path: Path)
  {
    proc.Emptied? && proc.call.path == path
  }

  /** No update of a path is between truncating its file and rewriting it. */
  ghost predicate Settled(s: State, path: Path)
  {
    forall p :: p in s.procs ==> !EmptiedOn(s.procs[p], path)
  }

  /**
   * The counters on disk are those of the history replayed one update at a time; each update answers what
   * the replay says; and each finished call took effect exactly once, each unfinished one at most once.
   */
  ghost predicate Linear(s: State)
  {
    && Legal(s.log)
    && (forall path :: Settled(s, path) ==> Q.Used(s.files, path) == Replay(s.log, path))
    && (forall p :: p in s.procs ==> Reported(s, p))
  }

  predicate Decided(proc: Proc)
  {
    proc.Written? || proc.FreeGate? || proc.Finished?
  }

  ghost predicate Reported(s: State, p: Pid)
    requires p in s.procs
  {
    if Decided(s.procs[p]) then Times(s.log, p) == 1 && Entry(p, s.procs[p].call, s.procs[p].ok) in s.log
    else Times(s.log, p) == 0
  }

  // ---- one update at a time -------------------------------------------------------------------

  /** What a process knows about its gate while nothing can take the gate away. */
  ghost predicate Known(env: Env, s: State, p: Pid)
    requires p in s.procs
  {
    var proc := s.procs[p];
    && (!env.manyDaemons && Calls(proc) ==> proc.call.daemon == 0)
    && (!env.forgets ==> Calls(proc))
    && (!env.manyDaemons && !env.forgets && GateKnown(proc).Some? ==>
          (0, proc.call.path) in s.locks && s.locks[(0, proc.call.path)] == GateKnown(proc).value)
  }

  /** A step leaves the call alone, and finds a gate only where the daemon's map has it. */
  ghost predicate Knows(s: State, t: State, a: Proc, b: Proc)
  {
    && (Calls(a) <==> Calls(b)) && (Calls(a) ==> b.call == a.call)
    && (GateKnown(b).Some? ==>
          || (GateKnown(a) == GateKnown(b) && t.locks == s.locks)
          || (var key := (a.call.daemon, a.call.path);
              && key in t.locks && t.locks[key] == GateKnown(b).value
              && (t.locks == s.locks || (key !in s.locks && t.locks == s.locks[key := s.nextGate]))))
    && (GateKnown(b).None? ==> t.locks == s.locks)
  }

  /** A step that neither decides an update nor touches a counter. */
  ghost predicate Quiet(s: State, t: State, a: Proc, b: Proc)
  {
    && t.log == s.log && (t.files == s.files || (Calls(a) && a.call.path !in s.files
       && t.files == s.files[a.call.path := []]))
    && !a.HasRead? && !a.Emptied? && !b.Emptied?
    && (b.HasRead? ==> b.used == Q.Used(s.files, b.call.path) && a.HasFile?)
    && (Decided(a) <==> Decided(b)) && (Decided(a) ==> b.ok == a.ok)
  }

  lemma FindGateFollows(s: State, p: Pid, t: State)
    requires p in s.procs && (s.procs[p].WantMap? || s.procs[p].InMap? || s.procs[p].GotGate?)
    requires FindGate(s, p, s.procs[p].call) == Some(t)
    ensures p in t.procs && Knows(s, t, s.procs[p], t.procs[p]) && Quiet(s, t, s.procs[p], t.procs[p])
  {
    hide Q.Used, Knows, Quiet;
    if s.procs[p].WantMap? {
      WantMapFollows(s, p, t);
    } else if s.procs[p].InMap? {
      InMapFollows(s, p, t);
    } else {
      GotGateFollows(s, p, t);
    }
  }

  lemma WantMapFollows(s: State, p: Pid, t: State)
    requires p in s.procs && s.procs[p].WantMap? && FindGate(s, p, s.procs[p].call) == Some(t)
    ensures p in t.procs && Knows(s, t, s.procs[p], t.procs[p]) && Quiet(s, t, s.procs[p], t.procs[p])
  {
    hide Q.Used;
    assert t.procs[p] == InMap(s.procs[p].call);
  }

  lemma InMapFollows(s: State, p: Pid, t: State)
    requires p in s.procs && s.procs[p].InMap? && FindGate(s, p, s.procs[p].call) == Some(t)
    ensures p in t.procs && Knows(s, t, s.procs[p], t.procs[p]) && Quiet(s, t, s.procs[p], t.procs[p])
  {
    hide *;
    if (s.procs[p].call.daemon, s.procs[p].call.path) in s.locks {
      FoundGateFollows(s, p, t);
    } else {
      MadeGateFollows(s, p, t);
    }
  }

  lemma FoundGateFollows(s: State, p: Pid, t: State)
    requires p in s.procs && s.procs[p].InMap? && FindGate(s, p, s.procs[p].call) == Some(t)
    requires (s.procs[p].call.daemon, s.procs[p].call.path) in s.locks
    ensures p in t.procs && Knows(s, t, s.procs[p], t.procs[p]) && Quiet(s, t, s.procs[p], t.procs[p])
  {
    hide Q.Used;
    assert t.procs[p].GotGate?;
  }

  lemma MadeGateFollows(s: State, p: Pid, t: State)
    requires p in s.procs && s.procs[p].InMap? && FindGate(s, p, s.procs[p].call) == Some(t)
    requires (s.procs[p].call.daemon, s.procs[p].call.path) !in s.locks
    ensures p in t.procs && Knows(s, t, s.procs[p], t.procs[p]) && Quiet(s, t, s.procs[p], t.procs[p])
  {
    hide Q.Used;
    assert t.procs[p] == GotGate(s.procs[p].call, s.nextGate);
  }

  lemma GotGateFollows(s: State, p: Pid, t: State)
    requires p in s.procs && s.procs[p].GotGate? && FindGate(s, p, s.procs[p].call) == Some(t)
    ensures p in t.procs && Knows(s, t, s.procs[p], t.procs[p]) && Quiet(s, t, s.procs[p], t.procs[p])
  {
    hide Q.Used;
    assert t.procs[p] == WantGate(s.procs[p].call, s.procs[p].gate);
  }

  lemma GateFollows(env: Env, s: State, p: Pid, t: State)
    requires p in s.procs && (s.procs[p].WantGate? || s.procs[p].HasGate? || s.procs[p].FreeGate?)
    requires Lock(env, s, p, s.procs[p].call) == Some(t)
    ensures p in t.procs && Knows(s, t, s.procs[p], t.procs[p]) && Quiet(s, t, s.procs[p], t.procs[p])
  {
  }

  lemma FileFollows(env: Env, s: State, p: Pid, t: State)
    requires p in s.procs && (s.procs[p].WantFile? || s.procs[p].Written?)
    requires Lock(env, s, p, s.procs[p].call) == Some(t)
    ensures p in t.procs && Knows(s, t, s.procs[p], t.procs[p]) && Quiet(s, t, s.procs[p], t.procs[p])
  {
  }

  lemma SweepFollows(s: State, p: Pid, t: State)
    requires p in s.procs && !Calls(s.procs[p]) && Sweep(s, p) == Some(t)
    ensures p in t.procs && Knows(s, t, s.procs[p], t.procs[p]) && Quiet(s, t, s.procs[p], t.procs[p])
  {
    hide Q.Used, Stale;
  }

  lemma UpdateFollows(s: State, p: Pid, t: State)
    requires p in s.procs && (s.procs[p].HasFile? || s.procs[p].HasRead? || s.procs[p].Emptied?)
    requires Update(s, p, s.procs[p].call) == Some(t)
    ensures p in t.procs && Knows(s, t, s.procs[p], t.procs[p])
    ensures s.procs[p].HasFile? ==> Quiet(s, t, s.procs[p], t.procs[p])
  {
    hide Q.Used, Q.FormatInt;
    var proc := s.procs[p];
    if proc.HasFile? {
      assert t.procs[p] == HasRead(proc.call, proc.gate, Q.Used(s.files, proc.call.path));
    } else if proc.HasRead? {
      assert t.procs[p].Emptied? || t.procs[p] == Written(proc.call, proc.gate, false);
    } else {
      assert t.procs[p] == Written(proc.call, proc.gate, true);
    }
  }

  lemma AdvanceFollows(env: Env, s: State, p: Pid, t: State)
    requires p in s.procs && Advance(env, s, p) == Some(t)
    ensures p in t.procs && Knows(s, t, s.procs[p], t.procs[p])
    ensures !s.procs[p].HasRead? && !s.procs[p].Emptied? ==> Quiet(s, t, s.procs[p], t.procs[p])
    ensures s.procs[p].HasRead? || s.procs[p].Emptied? ==> Update(s, p, s.procs[p].call) == Some(t)
  {
    hide Knows, Quiet, FindGate, Update, Sweep;
    var proc := s.procs[p];
    if !Calls(proc) {
      SweepFollows(s, p, t);
    } else if proc.WantMap? || proc.InMap? || proc.GotGate? {
      FindGateFollows(s, p, t);
    } else if proc.HasFile? || proc.HasRead? || proc.Emptied? {
      UpdateFollows(s, p, t);
    } else if proc.WantFile? || proc.Written? {
      FileFollows(env, s, p, t);
    } else {
      GateFollows(env, s, p, t);
    }
  }

  lemma KnowsKeepsKnown(env: Env, s: State, t: State, p: Pid, q: Pid)
    requires p in s.procs && p in t.procs && t.procs == s.procs[p := t.procs[p]] && Knows(s, t, s.procs[p], t.procs[p])
    requires q in s.procs && Known(env, s, p) && Known(env, s, q)
    ensures Known(env, t, q)
  {
  }

  /** Two processes at work on one file are one and the same. */
  lemma AtMostOne(env: Env, s: State, p: Pid, q: Pid)
    requires env.Safe() && Ownership(env, s) && p in s.procs && q in s.procs && Known(env, s, p) && Known(env, s, q)
    ensures FileHeld(s.procs[p]).Some? && FileHeld(s.procs[p]) == FileHeld(s.procs[q]) ==> p == q
  {
  }

  // ---- the history is what happened -----------------------------------------------------------

  ghost predicate DataOk(s: State, p: Pid)
    requires p in s.procs
  {
    var proc := s.procs[p];
    && (proc.HasRead? || proc.Emptied? ==> proc.used == Replay(s.log, proc.call.path))
    && (proc.Emptied? ==> proc.call.mutate(proc.used) == Some(proc.next))
  }

  ghost predicate PathOk(s: State, path: Path)
  {
    Settled(s, path) ==> Q.Used(s.files, path) == Replay(s.log, path)
  }

  ghost predicate ProcOk(env: Env, s: State, p: Pid)
  {
    if p in s.procs then Known(env, s, p) && DataOk(s, p) && Reported(s, p) else Times(s.log, p) == 0
  }

  /** No other process is at work on the file this one is at work on. */
  ghost predicate Alone(s: State, p: Pid, q: Pid)
    requires p in s.procs
  {
    q in s.procs && FileHeld(s.procs[p]).Some? && FileHeld(s.procs[p]) == FileHeld(s.procs[q]) ==> p == q
  }

  ghost predicate Serial(env: Env, s: State)
  {
    && Ownership(env, s) && Legal(s.log)
    && (forall p :: ProcOk(env, s, p))
    && (forall path :: PathOk(s, path))
  }

  lemma OneMore(log: seq<Entry>, e: Entry, path: Path, p: Pid)
    ensures var before := Replay(log, path);
            Replay(log + [e], path) == if e.call.path == path && e.call.mutate(before).Some?
              then e.call.mutate(before).value else before
    ensures Legal(log) && (e.ok <==> e.call.mutate(Replay(log, e.call.path)).Some?) ==> Legal(log + [e])
    ensures Times(log + [e], p) == Times(log, p) + if e.p == p then 1 else 0
  {
  }

  lemma QuietProc(env: Env, s: State, t: State, p: Pid, q: Pid)
    requires p in s.procs && p in t.procs && t.procs == s.procs[p := t.procs[p]]
    requires Knows(s, t, s.procs[p], t.procs[p]) && Quiet(s, t, s.procs[p], t.procs[p])
    requires ProcOk(env, s, p) && ProcOk(env, s, q) && forall other :: Alone(s, p, other)
    requires t.procs[p].HasRead? ==> PathOk(s, t.procs[p].call.path)
    ensures ProcOk(env, t, q)
  {
    hide Known, Q.Used, Replay, Times, FileHeld, Knows;
    if q in s.procs {
      KnowsKeepsKnown(env, s, t, p, q);
      if q == p {
        QuietActor(s, t, p);
      }
    }
  }

  lemma QuietActor(s: State, t: State, p: Pid)
    requires p in s.procs && p in t.procs && t.procs == s.procs[p := t.procs[p]]
    requires Knows(s, t, s.procs[p], t.procs[p]) && Quiet(s, t, s.procs[p], t.procs[p])
    requires DataOk(s, p) && Reported(s, p) && forall other :: Alone(s, p, other)
    requires t.procs[p].HasRead? ==> PathOk(s, t.procs[p].call.path)
    ensures DataOk(t, p) && Reported(t, p)
  {
    hide Q.Used, Replay, Times, GateKnown;
    if t.procs[p].HasRead? {
      var path := t.procs[p].call.path;
      forall q | q in s.procs
        ensures !EmptiedOn(s.procs[q], path)
      {
        assert Alone(s, p, q);
      }
      assert Settled(s, path);
    }
  }

  lemma QuietPath(s: State, t: State, p: Pid, path: Path)
    requires p in s.procs && p in t.procs && t.procs == s.procs[p := t.procs[p]]
    requires Quiet(s, t, s.procs[p], t.procs[p]) && PathOk(s, path)
    ensures PathOk(t, path)
  {
    hide Q.Used, Replay;
    if Settled(t, path) {
      forall q | q in s.procs
        ensures !EmptiedOn(s.procs[q], path)
      {
        assert q != p ==> t.procs[q] == s.procs[q];
      }
      if t.files != s.files {
        Q.EmptyCountsAsZero(s.files, s.procs[p].call.path, path);
      }
    }
  }

  /** What deciding an update does to the history and the processes. */
  lemma Decides(s: State, p: Pid, t: State)
    requires p in s.procs && (s.procs[p].HasRead? || s.procs[p].Emptied?) && Update(s, p, s.procs[p].call) == Some(t)
    ensures var proc := s.procs[p];
            if proc.HasRead? && proc.call.mutate(proc.used).Some? then
              && t.log == s.log && t.files == s.files[proc.call.path := []]
              && var next := proc.call.mutate(proc.used).value;
                 t.procs == s.procs[p := Emptied(proc.call, proc.gate, proc.used, next)]
            else
              && t.log == s.log + [Entry(p, proc.call, proc.Emptied?)]
              && t.procs == s.procs[p := Written(proc.call, proc.gate, proc.Emptied?)]
              && t.files == if proc.Emptied? then s.files[proc.call.path := Q.FormatInt(proc.next)] else s.files
  {
  }

  /** The counter an update was given is the one the history leads to, so deciding it extends the history truly. */
  lemma DecideActor(s: State, p: Pid, t: State)
    requires p in s.procs && (s.procs[p].HasRead? || s.procs[p].Emptied?) && Update(s, p, s.procs[p].call) == Some(t)
    requires DataOk(s, p) && Reported(s, p)
    ensures p in t.procs && DataOk(t, p) && Reported(t, p)
  {
    hide Update, Q.FormatInt, Replay, Times;
    Decides(s, p, t);
    OneMore(s.log, Entry(p, s.procs[p].call, s.procs[p].Emptied?), s.procs[p].call.path, p);
  }

  lemma DecideOther(s: State, p: Pid, t: State, q: Pid)
    requires p in s.procs && (s.procs[p].HasRead? || s.procs[p].Emptied?) && Update(s, p, s.procs[p].call) == Some(t)
    requires q in s.procs && q != p && DataOk(s, p) && DataOk(s, q) && Reported(s, q) && Alone(s, p, q)
    ensures q in t.procs && DataOk(t, q) && Reported(t, q)
  {
    hide Update, Q.FormatInt, Replay, Times;
    Decides(s, p, t);
    var path := if Calls(s.procs[q]) then s.procs[q].call.path else [];
    OneMore(s.log, Entry(p, s.procs[p].call, s.procs[p].Emptied?), path, q);
  }

  lemma DecideProc(env: Env, s: State, p: Pid, t: State, q: Pid)
    requires p in s.procs && (s.procs[p].HasRead? || s.procs[p].Emptied?) && Update(s, p, s.procs[p].call) == Some(t)
    requires p in t.procs && Knows(s, t, s.procs[p], t.procs[p])
    requires ProcOk(env, s, p) && ProcOk(env, s, q) && Alone(s, p, q)
    ensures ProcOk(env, t, q)
  {
    hide Update, Known, DataOk, Reported, Alone, Q.FormatInt, Replay, Times, Knows;
    Decides(s, p, t);
    if q in s.procs {
      KnowsKeepsKnown(env, s, t, p, q);
      if q == p {
        DecideActor(s, p, t);
      } else {
        DecideOther(s, p, t, q);
      }
    } else {
      OneMore(s.log, Entry(p, s.procs[p].call, s.procs[p].Emptied?), [], q);
    }
  }

  lemma TruncatePath(s: State, p: Pid, t: State, path: Path)
    requires p in s.procs && s.procs[p].HasRead? && Update(s, p, s.procs[p].call) == Some(t)
    requires DataOk(s, p) && PathOk(s, path)
    ensures PathOk(t, path)
  {
    hide Update, Q.Used, Q.FormatInt, Replay, DataOk;
    Decides(s, p, t);
    var call := s.procs[p].call;
    OneMore(s.log, Entry(p, call, false), path, p);
    Q.UsedAfterWrite(s.files, call.path, []);
    if Settled(t, path) {
      assert !EmptiedOn(t.procs[p], path);
      hide Settled;
      SettledBefore(s, p, t, path);
      assert DataOk(s, p) ==> s.procs[p].used == Replay(s.log, call.path) by {
        hide *;
        ReadAgrees(s, p);
      }
    }
  }

  lemma ReadAgrees(s: State, p: Pid)
    requires p in s.procs && s.procs[p].HasRead?
    ensures DataOk(s, p) ==> s.procs[p].used == Replay(s.log, s.procs[p].call.path)
  {
  }

  lemma RewritePath(s: State, p: Pid, t: State, path: Path)
    requires p in s.procs && s.procs[p].Emptied? && Update(s, p, s.procs[p].call) == Some(t)
    requires DataOk(s, p) && PathOk(s, path)
    ensures PathOk(t, path)
  {
    hide Q.FormatInt, Q.Counter, Replay;
    var proc := s.procs[p];
    OneMore(s.log, Entry(p, proc.call, true), path, p);
    if proc.call.path == path {
      Q.CounterRoundTrip(proc.next);
    } else if Settled(t, path) {
      SettledBefore(s, p, t, path);
    }
  }

  lemma SettledBefore(s: State, p: Pid, t: State, path: Path)
    requires p in s.procs && t.procs.Keys == s.procs.Keys
        && (forall q :: q in s.procs && q != p ==> t.procs[q] == s.procs[q])
    requires Settled(t, path) && !EmptiedOn(s.procs[p], path)
    ensures Settled(s, path)
  {
  }

  lemma DecideLegal(s: State, p: Pid, t: State)
    requires p in s.procs && (s.procs[p].HasRead? || s.procs[p].Emptied?) && Update(s, p, s.procs[p].call) == Some(t)
    requires DataOk(s, p) && Legal(s.log)
    ensures Legal(t.log)
  {
    hide Update, Q.Used, Q.FormatInt, Replay, Legal;
    Decides(s, p, t);
    OneMore(s.log, Entry(p, s.procs[p].call, s.procs[p].Emptied?), s.procs[p].call.path, p);
  }

  lemma AdvanceKeepsSerial(env: Env, s: State, p: Pid, t: State)
    requires env.Safe() && Serial(env, s) && p in s.procs && Advance(env, s, p) == Some(t)
    ensures Serial(env, t)
  {
    hide Ownership, Moves, Advance, Update, Knows, Quiet, ProcOk, PathOk, Legal, Alone;
    AdvanceMoves(env, s, p, t);
    MoveKeepsOwnership(env, s, t, p);
    AdvanceFollows(env, s, p, t);
    StepMoves(env, s, t, p);
    assert ProcOk(env, s, p);
    forall q
      ensures Alone(s, p, q)
    {
      AloneWithFile(env, s, p, q);
    }
    ActorData(env, s, p);
    if s.procs[p].HasRead? || s.procs[p].Emptied? {
      DecideLegal(s, p, t);
    } else {
      LogStays(s, t, p);
    }
    forall q
      ensures ProcOk(env, t, q)
    {
      assert ProcOk(env, s, q);
      if s.procs[p].HasRead? || s.procs[p].Emptied? {
        DecideProc(env, s, p, t, q);
      } else {
        if t.procs[p].HasRead? {
          assert PathOk(s, t.procs[p].call.path);
        }
        QuietProc(env, s, t, p, q);
      }
    }
    forall path
      ensures PathOk(t, path)
    {
      assert PathOk(s, path);
      if s.procs[p].HasRead? {
        TruncatePath(s, p, t, path);
      } else if s.procs[p].Emptied? {
        RewritePath(s, p, t, path);
      } else {
        QuietPath(s, t, p, path);
      }
    }
  }

  lemma StepMoves(env: Env, s: State, t: State, p: Pid)
    requires Moves(env, s, t, p)
    ensures p in t.procs && t.procs == s.procs[p := t.procs[p]]
  {
  }

  lemma AloneWithFile(env: Env, s: State, p: Pid, q: Pid)
    requires env.Safe() && Serial(env, s) && p in s.procs
    ensures Alone(s, p, q)
  {
    hide Ownership, Legal, Known, DataOk, Reported, PathOk, FileHeld;
    assert ProcOk(env, s, p) && ProcOk(env, s, q);
    if q in s.procs {
      AtMostOne(env, s, p, q);
    }
  }

  lemma ActorData(env: Env, s: State, p: Pid)
    requires p in s.procs && ProcOk(env, s, p)
    ensures DataOk(s, p)
  {
  }

  lemma LogStays(s: State, t: State, p: Pid)
    requires p in s.procs && p in t.procs && Quiet(s, t, s.procs[p], t.procs[p])
    ensures t.log == s.log
  {
  }

  /** A new call or sweep disturbs nothing, and neither does dropping a gate where sweeps may. */
  lemma OtherKeepsSerial(env: Env, s: State, e: Event, t: State)
    requires env.Safe() && Serial(env, s) && !e.Go? && Apply(env, s, e) == Some(t)
    ensures Serial(env, t)
  {
    hide Ownership, Legal, Q.Used, Replay, Times, Stale;
    ApplyKeepsOwnership(env, s, e, t);
    forall q
      ensures ProcOk(env, t, q)
    {
      assert ProcOk(env, s, q) && ProcOk(env, s, e.p);
    }
    forall path
      ensures PathOk(t, path)
    {
      assert PathOk(s, path);
      if Settled(t, path) {
        forall q | q in s.procs
          ensures !EmptiedOn(s.procs[q], path)
        {
          assert t.procs[q] == s.procs[q];
        }
      }
    }
  }

  lemma {:induction false} RunIsSerial(env: Env, events: seq<Event>, s: State)
    requires env.Safe() && Run(env, events) == Some(s)
    ensures Serial(env, s)
    decreases |events|
  {
    hide Serial, Apply;
    if events == [] {
      StartIsSerial(env);
    } else {
      var n := |events| - 1;
      var before := Run(env, events[..n]).value;
      RunIsSerial(env, events[..n], before);
      ApplyKeepsSerial(env, before, events[n], s);
    }
  }

  lemma StartIsSerial(env: Env)
    ensures Serial(env, START)
  {
  }

  lemma ApplyKeepsSerial(env: Env, s: State, e: Event, t: State)
    requires env.Safe() && Serial(env, s) && Apply(env, s, e) == Some(t)
    ensures Serial(env, t)
  {
    hide Serial, Advance, Stale;
    if e.Go? {
      AdvanceKeepsSerial(env, s, e.p, t);
    } else {
      OtherKeepsSerial(env, s, e, t);
    }
  }

  lemma SerialIsLinear(env: Env, s: State)
    requires Serial(env, s)
    ensures Linear(s)
  {
    hide Ownership, Legal, Known, Settled;
    forall p | p in s.procs
      ensures Reported(s, p)
    {
      assert ProcOk(env, s, p);
    }
    forall path | Settled(s, path)
      ensures Q.Used(s.files, path) == Replay(s.log, path)
    {
      assert PathOk(s, path);
    }
  }

  lemma ReachableIsSerial(env: Env, s: State)
    requires env.Safe() && Reachable(env, s)
    ensures Serial(env, s)
  {
    hide Serial, Run;
    var events :| Run(env, events) == Some(s);
    RunIsSerial(env, events, s);
  }

  /** In every state a safe environment can reach, two processes at work on one file are one and the same. */
  lemma AtMostOneInside(env: Env, s: State, p: Pid, q: Pid)
    requires env.Safe() && Reachable(env, s) && p in s.procs && q in s.procs
    requires FileHeld(s.procs[p]).Some? && FileHeld(s.procs[p]) == FileHeld(s.procs[q])
    ensures p == q
  {
    hide Reachable, Serial;
    ReachableIsSerial(env, s);
    AloneWithFile(env, s, p, q);
  }

  /** In every state a safe environment can reach, what happened is what the history says, one update at a time. */
  lemma ReachableIsLinear(env: Env, s: State)
    requires env.Safe() && Reachable(env, s)
    ensures Linear(s)
  {
    hide Reachable, Serial, Linear;
    ReachableIsSerial(env, s);
    SerialIsLinear(env, s);
  }
}

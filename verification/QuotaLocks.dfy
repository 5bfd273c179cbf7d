/**
 * The three layers of lock around a counter file, one operation at a time: the mutex over the map of
 * gates, the gate of a path, and the advisory lock on the file. A sweep may drop gates at any moment.
 */
module QuotaLocks {
  import opened Text
  import Calendar
  import Q = Quota

  type Pid = nat
  type Daemon = nat
  type GateId = nat
  type Path = Octets

  /** One update of a counter, by some daemon. */
  datatype Call = Call(daemon: Daemon, path: Path, mutate: Q.Int64 -> Option<Q.Int64>)

  /** Whether files can be locked, whether several daemons share the directory, whether sweeps drop gates. */
  datatype Env = Env(fileLocks: bool, manyDaemons: bool, forgets: bool)
  {
    predicate Safe()
    {
      fileLocks || (!manyDaemons && !forgets)
    }
  }

  datatype Proc =
    // withLockedCounter
    | WantMap(call: Call)
    | InMap(call: Call)
    | GotGate(call: Call, gate: GateId)
    | WantGate(call: Call, gate: GateId)
    | HasGate(call: Call, gate: GateId)
    | WantFile(call: Call, gate: GateId)
    | HasFile(call: Call, gate: GateId)
    | HasRead(call: Call, gate: GateId, used: Q.Int64)
    | Emptied(call: Call, gate: GateId, used: Q.Int64, next: Q.Int64)
    | Written(call: Call, gate: GateId, ok: bool)
    | FreeGate(call: Call, gate: GateId, ok: bool)
    | Finished(call: Call, ok: bool)
    // forgetStaleGates
    | WantForget(daemon: Daemon, today: Calendar.Date)
    | Forgetting(daemon: Daemon, today: Calendar.Date)
    | Forgot

  /** A finished update, as the history records it at the moment it takes effect. */
  datatype Entry = Entry(p: Pid, call: Call, ok: bool)

  /** Who holds each lock, the gates each daemon knows, the files, the running processes and the history. */
  datatype State = State(
    mus: map<Daemon, Pid>, locks: map<(Daemon, Path), GateId>, nextGate: GateId,
    gates: map<GateId, Pid>, fileOwners: map<Path, Pid>, files: map<Path, Octets>,
    procs: map<Pid, Proc>, log: seq<Entry>)

  const START: State := State(map[], map[], 0, map[], map[], map[], map[], [])

  datatype Event =
    | Invoke(p: Pid, call: Call)
    | Forget(p: Pid, daemon: Daemon, today: Calendar.Date)
    | Drop(p: Pid, path: Path)  // the sweep's next stale gate
    | Go(p: Pid)

  ghost function Become(s: State, p: Pid, proc: Proc): State
  {
    s.(procs := s.procs[p := proc])
  }

  /** gateFor. */
  ghost function FindGate(s: State, p: Pid, call: Call): Option<State>
    requires p in s.procs
  {
    match s.procs[p]
    case WantMap(_) =>
      if call.daemon in s.mus then None
      else Some(Become(s.(mus := s.mus[call.daemon := p]), p, InMap(call)))
    case InMap(_) =>
      if (call.daemon, call.path) in s.locks then Some(Become(s, p, GotGate(call, s.locks[(call.daemon, call.path)])))
      else
        var grown := s.(locks := s.locks[(call.daemon, call.path) := s.nextGate], nextGate := s.nextGate + 1);
        Some(Become(grown, p, GotGate(call, s.nextGate)))
    case GotGate(_, gate) =>
      Some(Become(s.(mus := s.mus - {call.daemon}), p, WantGate(call, gate)))
    case _ => None
  }

  /** Taking the gate and the file lock, and giving them back. */
  ghost function Lock(env: Env, s: State, p: Pid, call: Call): Option<State>
    requires p in s.procs
  {
    match s.procs[p]
    case WantGate(_, gate) =>
      if gate in s.gates then None else Some(Become(s.(gates := s.gates[gate := p]), p, HasGate(call, gate)))
    case HasGate(_, gate) =>
      var files := if call.path in s.files then s.files else s.files[call.path := []];
      Some(Become(s.(files := files), p, WantFile(call, gate)))
    case WantFile(_, gate) =>
      if !env.fileLocks then Some(Become(s, p, HasFile(call, gate)))
      else if call.path in s.fileOwners then None
      else Some(Become(s.(fileOwners := s.fileOwners[call.path := p]), p, HasFile(call, gate)))
    case Written(_, gate, ok) =>
      Some(Become(s.(fileOwners := if env.fileLocks then s.fileOwners - {call.path} else s.fileOwners), p,
        FreeGate(call, gate, ok)))
    case FreeGate(_, gate, ok) =>
      Some(Become(s.(gates := s.gates - {gate}), p, Finished(call, ok)))
    case _ => None
  }

  /** Reading, mutating and rewriting the counter. */
  ghost function Update(s: State, p: Pid, call: Call): Option<State>
    requires p in s.procs
  {
    match s.procs[p]
    case HasFile(_, gate) =>
      Some(Become(s, p, HasRead(call, gate, Q.Used(s.files, call.path))))
    case HasRead(_, gate, used) =>
      var next := call.mutate(used);
      if next.None? then Some(Become(s.(log := s.log + [Entry(p, call, false)]), p, Written(call, gate, false)))
      else Some(Become(s.(files := s.files[call.path := []]), p, Emptied(call, gate, used, next.value)))
    case Emptied(_, gate, _, next) =>
      var done := s.(files := s.files[call.path := Q.FormatInt(next)], log := s.log + [Entry(p, call, true)]);
      Some(Become(done, p, Written(call, gate, true)))
    case _ => None
  }

  ghost predicate Stale(s: State, daemon: Daemon, path: Path, today: Calendar.Date)
  {
    (daemon, path) in s.locks && !Q.HasSuffix(path, Q.DayEnding(today))
  }

  /** forgetStaleGates. */
  ghost function Sweep(s: State, p: Pid): Option<State>
    requires p in s.procs
  {
    match s.procs[p]
    case WantForget(daemon, today) =>
      if daemon in s.mus then None
      else Some(Become(s.(mus := s.mus[daemon := p]), p, Forgetting(daemon, today)))
    case Forgetting(daemon, today) =>
      if exists path :: Stale(s, daemon, path, today) then None
      else Some(Become(s.(mus := s.mus - {daemon}), p, Forgot))
    case _ => None
  }

  predicate Calls(proc: Proc)
  {
    !proc.WantForget? && !proc.Forgetting? && !proc.Forgot?
  }

  ghost function Advance(env: Env, s: State, p: Pid): Option<State>
    requires p in s.procs
  {
    var proc := s.procs[p];
    if !Calls(proc) then Sweep(s, p)
    else if proc.WantMap? || proc.InMap? || proc.GotGate? then FindGate(s, p, proc.call)
    else if proc.HasFile? || proc.HasRead? || proc.Emptied? then Update(s, p, proc.call)
    else Lock(env, s, p, proc.call)
  }

  ghost function Apply(env: Env, s: State, e: Event): Option<State>
  {
    match e
    case Invoke(p, call) =>
      if p in s.procs || (call.daemon != 0 && !env.manyDaemons) then None else Some(Become(s, p, WantMap(call)))
    case Forget(p, daemon, today) =>
      if p in s.procs || (daemon != 0 && !env.manyDaemons) || !env.forgets then None
      else Some(Become(s, p, WantForget(daemon, today)))
    case Drop(p, path) =>
      if p in s.procs && s.procs[p].Forgetting? && Stale(s, s.procs[p].daemon, path, s.procs[p].today)
      then Some(s.(locks := s.locks - {(s.procs[p].daemon, path)})) else None
    case Go(p) =>
      if p in s.procs then Advance(env, s, p) else None
  }

  ghost function Run(env: Env, events: seq<Event>): Option<State>
    decreases |events|
  {
    if events == [] then Some(START)
    else
      var n := |events| - 1;
      var s := Run(env, events[..n]);
      if s.None? then None else Apply(env, s.value, events[n])
  }

  ghost predicate Reachable(env: Env, s: State)
  {
    exists events :: Run(env, events) == Some(s)
  }

  // ---- who holds what -------------------------------------------------------------------------

  function MapHeld(proc: Proc): Option<Daemon>
  {
    match proc
    case InMap(call) => Some(call.daemon)
    case GotGate(call, _) => Some(call.daemon)
    case Forgetting(daemon, _) => Some(daemon)
    case _ => None
  }

  /** The gate a process knows for its path, held or not. */
  function GateKnown(proc: Proc): Option<GateId>
  {
    match proc
    case GotGate(_, gate) => Some(gate)
    case WantGate(_, gate) => Some(gate)
    case _ => GateHeld(proc)
  }

  function GateHeld(proc: Proc): Option<GateId>
  {
    match proc
    case HasGate(_, gate) => Some(gate)
    case WantFile(_, gate) => Some(gate)
    case FreeGate(_, gate, _) => Some(gate)
    case HasFile(_, gate) => Some(gate)
    case HasRead(_, gate, _) => Some(gate)
    case Emptied(_, gate, _, _) => Some(gate)
    case Written(_, gate, _) => Some(gate)
    case _ => None
  }

  /** The path whose file a process is at work on. */
  function FileHeld(proc: Proc): Option<Path>
  {
    if proc.HasFile? || proc.HasRead? || proc.Emptied? || proc.Written? then Some(proc.call.path) else None
  }

  /** Every lock of a kind is held by exactly the process whose position says so. */
  ghost predicate Owned<K(!new)>(owners: map<K, Pid>, procs: map<Pid, Proc>, held: Proc -> Option<K>)
  {
    && (forall p :: p in procs && held(procs[p]).Some? ==>
          held(procs[p]).value in owners && owners[held(procs[p]).value] == p)
    && (forall k :: k in owners ==> owners[k] in procs && held(procs[owners[k]]) == Some(k))
  }

  /** The owners of a kind of lock once a process has let go of one and taken another. */
  function Shift<K>(owners: map<K, Pid>, p: Pid, from: Option<K>, to: Option<K>): map<K, Pid>
  {
    var left := if from.Some? && from != to then owners - {from.value} else owners;
    if to.Some? && from != to then left[to.value := p] else left
  }

  predicate MayShift<K>(owners: map<K, Pid>, from: Option<K>, to: Option<K>)
  {
    to.Some? && from != to ==> to.value !in owners
  }

  lemma ShiftKeepsOwned<K(!new)>(owners: map<K, Pid>, procs: map<Pid, Proc>, held: Proc -> Option<K>, p: Pid,
      from: Option<K>, proc: Proc)
    requires Owned(owners, procs, held) && MayShift(owners, from, held(proc))
    requires from == if p in procs then held(procs[p]) else None
    ensures Owned(Shift(owners, p, from, held(proc)), procs[p := proc], held)
  {
  }

  ghost predicate Ownership(env: Env, s: State)
  {
    && Owned(s.mus, s.procs, MapHeld)
    && Owned(s.gates, s.procs, GateHeld)
    && (env.fileLocks ==> Owned(s.fileOwners, s.procs, FileHeld))
  }

  /** One process moves on, and the locks with it. */
  ghost predicate Moves(env: Env, s: State, t: State, p: Pid)
  {
    && p in t.procs && t.procs == s.procs[p := t.procs[p]]
    && Shifts(s.mus, t.mus, p, if p in s.procs then MapHeld(s.procs[p]) else None, MapHeld(t.procs[p]))
    && Shifts(s.gates, t.gates, p, if p in s.procs then GateHeld(s.procs[p]) else None, GateHeld(t.procs[p]))
    && var file := if p in s.procs then FileHeld(s.procs[p]) else None;
       env.fileLocks ==> Shifts(s.fileOwners, t.fileOwners, p, file, FileHeld(t.procs[p]))
  }

  ghost predicate Shifts<K>(owners: map<K, Pid>, after: map<K, Pid>, p: Pid, from: Option<K>, to: Option<K>)
  {
    MayShift(owners, from, to) && after == Shift(owners, p, from, to)
  }

  lemma Stays<K>(owners: map<K, Pid>, p: Pid, k: Option<K>)
    ensures Shifts(owners, owners, p, k, k)
  {
  }

  lemma Takes<K>(owners: map<K, Pid>, p: Pid, k: K)
    requires k !in owners
    ensures Shifts(owners, owners[k := p], p, None, Some(k))
  {
  }

  lemma LetsGo<K>(owners: map<K, Pid>, p: Pid, k: K)
    ensures Shifts(owners, owners - {k}, p, Some(k), None)
  {
  }

  lemma FindGateMoves(env: Env, s: State, p: Pid, t: State)
    requires p in s.procs && (s.procs[p].WantMap? || s.procs[p].InMap? || s.procs[p].GotGate?)
    requires FindGate(s, p, s.procs[p].call) == Some(t)
    ensures Moves(env, s, t, p)
  {
    hide Shifts;
    var proc := s.procs[p];
    Stays(s.gates, p, None);
    Stays(s.fileOwners, p, None);
    if proc.WantMap? {
      Takes(s.mus, p, proc.call.daemon);
    } else if proc.InMap? {
      Stays(s.mus, p, Some(proc.call.daemon));
    } else {
      LetsGo(s.mus, p, proc.call.daemon);
    }
  }

  lemma GateMoves(env: Env, s: State, p: Pid, t: State)
    requires p in s.procs && (s.procs[p].WantGate? || s.procs[p].HasGate? || s.procs[p].FreeGate?)
    requires Lock(env, s, p, s.procs[p].call) == Some(t)
    ensures Moves(env, s, t, p)
  {
    hide Shifts;
    var proc := s.procs[p];
    Stays(s.mus, p, None);
    Stays(s.fileOwners, p, None);
    if proc.WantGate? {
      Takes(s.gates, p, proc.gate);
    } else if proc.HasGate? {
      Stays(s.gates, p, Some(proc.gate));
    } else {
      LetsGo(s.gates, p, proc.gate);
    }
  }

  lemma FileMoves(env: Env, s: State, p: Pid, t: State)
    requires p in s.procs && (s.procs[p].WantFile? || s.procs[p].Written?)
    requires Lock(env, s, p, s.procs[p].call) == Some(t)
    ensures Moves(env, s, t, p)
  {
  }

  lemma UpdateMoves(env: Env, s: State, p: Pid, t: State)
    requires p in s.procs && (s.procs[p].HasFile? || s.procs[p].HasRead? || s.procs[p].Emptied?)
    requires Update(s, p, s.procs[p].call) == Some(t)
    ensures Moves(env, s, t, p)
  {
    hide Shifts, Q.Used, Q.FormatInt;
    var proc := s.procs[p];
    Stays(s.mus, p, None);
    Stays(s.gates, p, Some(proc.gate));
    Stays(s.fileOwners, p, Some(proc.call.path));
  }

  lemma SweepMoves(env: Env, s: State, p: Pid, t: State)
    requires p in s.procs && Sweep(s, p) == Some(t)
    ensures Moves(env, s, t, p)
  {
    hide Shifts, Stale;
    Stays(s.gates, p, None);
    Stays(s.fileOwners, p, None);
    if s.procs[p].WantForget? {
      Takes(s.mus, p, s.procs[p].daemon);
    } else {
      LetsGo(s.mus, p, s.procs[p].daemon);
    }
  }

  lemma AdvanceMoves(env: Env, s: State, p: Pid, t: State)
    requires p in s.procs && Advance(env, s, p) == Some(t)
    ensures Moves(env, s, t, p)
  {
    hide Moves, FindGate, Update, Sweep;
    var proc := s.procs[p];
    if !Calls(proc) {
      SweepMoves(env, s, p, t);
    } else if proc.WantMap? || proc.InMap? || proc.GotGate? {
      FindGateMoves(env, s, p, t);
    } else if proc.HasFile? || proc.HasRead? || proc.Emptied? {
      UpdateMoves(env, s, p, t);
    } else if proc.WantFile? || proc.Written? {
      FileMoves(env, s, p, t);
    } else {
      GateMoves(env, s, p, t);
    }
  }

  lemma MoveKeepsOwnership(env: Env, s: State, t: State, p: Pid)
    requires Ownership(env, s) && Moves(env, s, t, p)
    ensures Ownership(env, t)
  {
    hide Owned, Shift, MayShift, MapHeld, GateHeld, FileHeld;
    var proc := t.procs[p];
    ShiftKeepsOwned(s.mus, s.procs, MapHeld, p, if p in s.procs then MapHeld(s.procs[p]) else None, proc);
    ShiftKeepsOwned(s.gates, s.procs, GateHeld, p, if p in s.procs then GateHeld(s.procs[p]) else None, proc);
    if env.fileLocks {
      ShiftKeepsOwned(s.fileOwners, s.procs, FileHeld, p, if p in s.procs then FileHeld(s.procs[p]) else None, proc);
    }
  }

  lemma ApplyKeepsOwnership(env: Env, s: State, e: Event, t: State)
    requires Ownership(env, s) && Apply(env, s, e) == Some(t)
    ensures Ownership(env, t)
  {
    hide Ownership, Advance, Stale;
    if e.Go? {
      AdvanceMoves(env, s, e.p, t);
      MoveKeepsOwnership(env, s, t, e.p);
    } else if e.Drop? {
      DropKeepsOwnership(env, s, t);
    } else {
      MoveKeepsOwnership(env, s, t, e.p);
    }
  }

  lemma DropKeepsOwnership(env: Env, s: State, t: State)
    requires Ownership(env, s) && t == s.(locks := t.locks)
    ensures Ownership(env, t)
  {
  }
}

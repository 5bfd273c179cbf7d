/** Without file locks, two daemons or one sweep are enough to lose an update. */
module LostUpdates {
  import opened Text
  import opened QuotaLocks
  import opened SerialUpdates
  import Calendar
  import Q = Quota

  /** An update that charges one byte. */
  function AddOne(used: Q.Int64): Option<Q.Int64>
  {
    if used < MAX_INT64 then Some(used + 1) else None
  }

  const TODAY := Calendar.Date(2024, 1, 1)
  const TOMORROW := Calendar.Date(2024, 1, 2)

  function ThePath(): Path
  {
    Q.CounterName("key", TODAY)
  }

  function TheCall(daemon: Daemon): Call
  {
    Call(daemon, ThePath(), AddOne)
  }

  lemma StartIsReachable(env: Env)
    ensures Reachable(env, START)
  {
    assert Run(env, []) == Some(START);
  }

  lemma Next(env: Env, s: State, e: Event) returns (t: State)
    requires Reachable(env, s) && Apply(env, s, e).Some?
    ensures Reachable(env, t) && Apply(env, s, e) == Some(t)
  {
    hide Apply;
    t := Apply(env, s, e).value;
    var events :| Run(env, events) == Some(s);
    assert (events + [e])[..|events|] == events;
    assert Run(env, events + [e]) == Some(t);
  }

  lemma EnterMap(env: Env, s: State, p: Pid, call: Call) returns (t: State)
    requires Reachable(env, s) && p !in s.procs && (call.daemon == 0 || env.manyDaemons) && call.daemon !in s.mus
    ensures Reachable(env, t) && t == s.(mus := s.mus[call.daemon := p], procs := s.procs[p := InMap(call)])
  {
    hide Reachable, Lock, Update, Sweep;
    var s1 := Next(env, s, Invoke(p, call));
    assert s1 == s.(procs := s.procs[p := WantMap(call)]);
    t := Next(env, s1, Go(p));
    assert t.procs == s.procs[p := InMap(call)];
  }

  lemma LeaveMap(env: Env, s: State, p: Pid, call: Call) returns (t: State)
    requires Reachable(env, s) && p in s.procs && s.procs[p] == InMap(call) && (call.daemon, call.path) !in s.locks
    ensures Reachable(env, t)
    ensures t == s.(mus := s.mus - {call.daemon}, procs := s.procs[p := WantGate(call, s.nextGate)],
        nextGate := s.nextGate + 1,
                    locks := s.locks[(call.daemon, call.path) := s.nextGate])
  {
    hide Reachable, Lock, Update, Sweep;
    var s1 := Next(env, s, Go(p));
    assert s1.procs == s.procs[p := GotGate(call, s.nextGate)];
    t := Next(env, s1, Go(p));
    assert t.procs == s.procs[p := WantGate(call, s.nextGate)];
  }

  /** A call gets a gate of its own. */
  lemma GetGate(env: Env, s: State, p: Pid, call: Call) returns (t: State)
    requires Reachable(env, s) && p !in s.procs && (call.daemon == 0 || env.manyDaemons)
    requires call.daemon !in s.mus && (call.daemon, call.path) !in s.locks
    ensures Reachable(env, t)
    ensures t == s.(procs := s.procs[p := WantGate(call, s.nextGate)], nextGate := s.nextGate + 1,
                    locks := s.locks[(call.daemon, call.path) := s.nextGate])
  {
    hide Reachable;
    var s1 := EnterMap(env, s, p, call);
    t := LeaveMap(env, s1, p, call);
    assert t.mus == s.mus && t.procs == s.procs[p := WantGate(call, s.nextGate)];
  }

  lemma TakeGate(env: Env, s: State, p: Pid, call: Call, gate: GateId) returns (t: State)
    requires Reachable(env, s) && p in s.procs && s.procs[p] == WantGate(call, gate) && gate !in s.gates
    ensures Reachable(env, t)
    ensures var files := if call.path in s.files then s.files else s.files[call.path := []];
            t == s.(gates := s.gates[gate := p], files := files, procs := s.procs[p := WantFile(call, gate)])
  {
    hide Reachable, FindGate, Update, Sweep;
    var s1 := Next(env, s, Go(p));
    assert s1 == s.(gates := s.gates[gate := p], procs := s.procs[p := HasGate(call, gate)]);
    t := Next(env, s1, Go(p));
    assert t.procs == s.procs[p := WantFile(call, gate)];
  }

  lemma OpenFile(env: Env, s: State, p: Pid, call: Call, gate: GateId) returns (t: State)
    requires Reachable(env, s) && !env.fileLocks && p in s.procs && s.procs[p] == WantFile(call, gate)
    ensures Reachable(env, t) && t == s.(procs := s.procs[p := HasRead(call, gate, Q.Used(s.files, call.path))])
  {
    hide Reachable, FindGate, Sweep, Q.Used;
    var s1 := Next(env, s, Go(p));
    assert s1 == s.(procs := s.procs[p := HasFile(call, gate)]);
    t := Next(env, s1, Go(p));
    assert t.procs == s.procs[p := HasRead(call, gate, Q.Used(s.files, call.path))];
  }

  /** It opens the file and reads it, with no lock to stop it. */
  lemma ReadFile(env: Env, s: State, p: Pid, call: Call, gate: GateId) returns (t: State)
    requires Reachable(env, s) && !env.fileLocks && p in s.procs && s.procs[p] == WantGate(call, gate)
        && gate !in s.gates
    ensures Reachable(env, t)
    ensures var files := if call.path in s.files then s.files else s.files[call.path := []];
            t == s.(gates := s.gates[gate := p], files := files,
              procs := s.procs[p := HasRead(call, gate, Q.Used(files, call.path))])
  {
    hide Reachable, Q.Used;
    var s1 := TakeGate(env, s, p, call, gate);
    t := OpenFile(env, s1, p, call, gate);
    assert t.procs == s.procs[p := HasRead(call, gate, Q.Used(t.files, call.path))];
  }

  /** It writes back what it read plus one. */
  lemma WriteFile(env: Env, s: State, p: Pid, call: Call, gate: GateId) returns (t: State)
    requires Reachable(env, s) && p in s.procs && s.procs[p] == HasRead(call, gate, 0) && call.mutate == AddOne
    ensures Reachable(env, t)
    ensures t == s.(files := s.files[call.path := Q.FormatInt(1)], log := s.log + [Entry(p, call, true)],
                    procs := s.procs[p := Written(call, gate, true)])
  {
    hide Reachable, FindGate, Sweep, Lock, Q.Used, Q.FormatInt;
    assert call.mutate(0) == Some(1);
    var s1 := Next(env, s, Go(p));
    assert s1 == s.(files := s.files[call.path := []], procs := s.procs[p := Emptied(call, gate, 0, 1)]);
    t := Next(env, s1, Go(p));
    assert t.files == s.files[call.path := Q.FormatInt(1)];
  }

  lemma NewFileReadsZero(files: map<Path, Octets>, path: Path)
    requires path !in files || files[path] == []
    ensures Q.Used(if path in files then files else files[path := []], path) == 0
  {
  }

  /** Two calls that both read before either writes leave one update of two on disk. */
  lemma ReadReadWriteWrite(env: Env, s: State, a: Call, b: Call, g: GateId, h: GateId) returns (t: State)
    requires Reachable(env, s) && !env.fileLocks && s.files == map[] && s.log == [] && s.gates == map[] && g != h
    requires 0 in s.procs && 1 in s.procs && s.procs[0] == WantGate(a, g) && s.procs[1] == WantGate(b, h)
    requires forall p :: p in s.procs && p > 1 ==> !s.procs[p].Emptied?
    requires a.path == b.path && a.mutate == AddOne && b.mutate == AddOne
    ensures Reachable(env, t) && !Linear(t)
  {
    hide Reachable, Linear, Q.Used, Q.FormatInt;
    NewFileReadsZero(map[], a.path);
    NewFileReadsZero(map[a.path := []], a.path);
    var s1 := ReadFile(env, s, 0, a, g);
    var s2 := ReadFile(env, s1, 1, b, h);
    var s3 := WriteFile(env, s2, 0, a, g);
    t := WriteFile(env, s3, 1, b, h);
    assert s2.log == [] && [] + [Entry(0, a, true)] == [Entry(0, a, true)];
    OneOfTwo(t, a, b);
  }

  lemma OneOfTwo(t: State, a: Call, b: Call)
    requires t.log == [Entry(0, a, true)] + [Entry(1, b, true)] && a.path in t.files
        && t.files[a.path] == Q.FormatInt(1)
    requires a.path == b.path && a.mutate == AddOne && b.mutate == AddOne
    requires forall p :: p in t.procs ==> !t.procs[p].Emptied?
    ensures !Linear(t)
  {
    hide Q.FormatInt, Q.Counter;
    Q.CounterRoundTrip(1);
    OneMore([], Entry(0, a, true), a.path, 0);
    OneMore([Entry(0, a, true)], Entry(1, b, true), a.path, 0);
    assert [] + [Entry(0, a, true)] == [Entry(0, a, true)];
    assert Replay(t.log, a.path) == 2;
    assert Settled(t, a.path);
    assert Q.Used(t.files, a.path) == 1;
  }

  /** Two daemons know different gates for one path. */
  lemma TwoDaemonsLoseUpdates(env: Env) returns (t: State)
    requires !env.fileLocks && env.manyDaemons
    ensures Reachable(env, t) && !Linear(t)
  {
    hide Reachable, Linear, Q.CounterName;
    StartIsReachable(env);
    var s1 := GetGate(env, START, 0, TheCall(0));
    var s2 := GetGate(env, s1, 1, TheCall(1));
    t := ReadReadWriteWrite(env, s2, TheCall(0), TheCall(1), 0, 1);
  }

  lemma EnterSweep(env: Env, s: State, today: Calendar.Date) returns (t: State)
    requires Reachable(env, s) && env.forgets && s.mus == map[] && 2 !in s.procs
    ensures Reachable(env, t) && t == s.(mus := map[0 := 2], procs := s.procs[2 := Forgetting(0, today)])
  {
    hide Reachable, FindGate, Lock, Update;
    var s1 := Next(env, s, Forget(2, 0, today));
    assert s1 == s.(procs := s.procs[2 := WantForget(0, today)]);
    t := Next(env, s1, Go(2));
    assert t.procs == s.procs[2 := Forgetting(0, today)];
  }

  /** A sweep that counts from another day drops the gate a call is using. */
  lemma SweepDropsGate(env: Env, s: State) returns (t: State)
    requires Reachable(env, s) && env.forgets && s.mus == map[] && 2 !in s.procs && s.locks == map[(0, ThePath()) := 0]
    ensures Reachable(env, t) && t == s.(locks := map[], procs := s.procs[2 := Forgot])
  {
    hide Reachable, FindGate, Lock, Update, Q.CounterName, Q.HasSuffix, Q.DayEnding;
    var s1 := EnterSweep(env, s, TOMORROW);
    Q.EndingTellsTheDay("key", TODAY, TOMORROW);
    assert Stale(s1, 0, ThePath(), TOMORROW);
    var s2 := Next(env, s1, Drop(2, ThePath()));
    assert s2.locks == map[];
    t := Next(env, s2, Go(2));
    assert t.mus == s.mus && t.procs == s.procs[2 := Forgot];
  }

  /** One daemon on its own loses an update once a sweep has dropped the gate between two calls. */
  lemma DroppedGateLosesUpdates(env: Env) returns (t: State)
    requires !env.fileLocks && env.forgets
    ensures Reachable(env, t) && !Linear(t)
  {
    hide Reachable, Linear, Q.CounterName;
    StartIsReachable(env);
    var s1 := GetGate(env, START, 0, TheCall(0));
    var s2 := SweepDropsGate(env, s1);
    var s3 := GetGate(env, s2, 1, TheCall(0));
    t := ReadReadWriteWrite(env, s3, TheCall(0), TheCall(0), 0, 1);
  }

  /**
   * Concurrent updates amount to the same updates made one at a time, in every run, exactly when files can be
   * locked, or else one daemon has the directory to itself and no sweep ever drops a gate.
   */
  lemma LinearExactly(env: Env)
    ensures (forall s :: Reachable(env, s) ==> Linear(s)) <==> env.Safe()
  {
    hide Linear, Reachable;
    if env.Safe() {
      forall s | Reachable(env, s)
        ensures Linear(s)
      {
        ReachableIsLinear(env, s);
      }
    } else if env.manyDaemons {
      var t := TwoDaemonsLoseUpdates(env);
    } else {
      var t := DroppedGateLosesUpdates(env);
    }
  }
}

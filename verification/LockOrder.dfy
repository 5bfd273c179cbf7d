/** The locks never deadlock: waiting has a direction, and somebody can always move. */
module LockOrder {
  import opened Text
  import opened QuotaLocks
  import Q = Quota

  /** What keeps one process from its next operation is a lock the other holds. */
  ghost predicate WaitsFor(env: Env, s: State, p: Pid, q: Pid)
  {
    p in s.procs &&
    match s.procs[p]
    case WantMap(call) => call.daemon in s.mus && s.mus[call.daemon] == q
    case WantForget(daemon, _) => daemon in s.mus && s.mus[daemon] == q
    case WantGate(_, gate) => gate in s.gates && s.gates[gate] == q
    case WantFile(call, _) => env.fileLocks && call.path in s.fileOwners && s.fileOwners[call.path] == q
    case _ => false
  }

  function Rank(proc: Proc): nat
  {
    if proc.WantGate? then 2 else if proc.WantMap? || proc.WantForget? || proc.WantFile? then 1 else 0
  }

  predicate Over(proc: Proc)
  {
    proc.Finished? || proc.Forgot?
  }

  lemma {:induction false} RunKeepsOwnership(env: Env, events: seq<Event>, s: State)
    requires Run(env, events) == Some(s)
    ensures Ownership(env, s)
    decreases |events|
  {
    hide Ownership, Apply;
    if events == [] {
      StartIsOwned(env);
    } else {
      var n := |events| - 1;
      var before := Run(env, events[..n]).value;
      RunKeepsOwnership(env, events[..n], before);
      ApplyKeepsOwnership(env, before, events[n], s);
    }
  }

  lemma StartIsOwned(env: Env)
    ensures Ownership(env, START)
  {
  }

  /** Whoever is waited for is at work and waits, if at all, for a lock further along. */
  lemma WaitingDescends(env: Env, s: State, p: Pid, q: Pid)
    requires Reachable(env, s) && WaitsFor(env, s, p, q)
    ensures q in s.procs && !Over(s.procs[q]) && Rank(s.procs[q]) < Rank(s.procs[p])
  {
    hide Run;
    var events :| Run(env, events) == Some(s);
    RunKeepsOwnership(env, events, s);
    hide Reachable, Owned;
    match s.procs[p]
    case WantMap(call) => OwnerHolds(s.mus, s.procs, MapHeld, call.daemon);
    case WantForget(daemon, _) => OwnerHolds(s.mus, s.procs, MapHeld, daemon);
    case WantGate(_, gate) => OwnerHolds(s.gates, s.procs, GateHeld, gate);
    case WantFile(call, _) => OwnerHolds(s.fileOwners, s.procs, FileHeld, call.path);
  }

  lemma OwnerHolds<K(!new)>(owners: map<K, Pid>, procs: map<Pid, Proc>, held: Proc -> Option<K>, k: K)
    requires Owned(owners, procs, held) && k in owners
    ensures owners[k] in procs && held(procs[owners[k]]) == Some(k)
  {
  }

  /** A chain of processes waiting one for the next holds at most three, and none of them twice. */
  lemma {:induction false} ChainsAreShort(env: Env, s: State, chain: seq<Pid>)
    requires Reachable(env, s) && |chain| > 1
    requires forall i :: 0 <= i < |chain| - 1 ==> WaitsFor(env, s, chain[i], chain[i + 1])
    ensures forall i :: 0 <= i < |chain| ==> chain[i] in s.procs
    ensures Rank(s.procs[chain[|chain| - 1]]) + |chain| - 1 <= Rank(s.procs[chain[0]])
    ensures |chain| <= 3
    ensures chain[0] != chain[|chain| - 1]
  {
    hide Reachable, WaitsFor;
    var n := |chain| - 1;
    assert WaitsFor(env, s, chain[n - 1], chain[n - 1 + 1]);
    WaitingDescends(env, s, chain[n - 1], chain[n]);
    WaiterIsThere(env, s, chain[n - 1], chain[n]);
    if n > 1 {
      ChainsAreShort(env, s, chain[..n]);
      assert chain[..n][n - 1] == chain[n - 1];
      forall i | 0 <= i < n
        ensures chain[i] in s.procs
      {
        assert chain[..n][i] == chain[i];
      }
    }
  }

  lemma WaiterIsThere(env: Env, s: State, p: Pid, q: Pid)
    requires WaitsFor(env, s, p, q)
    ensures p in s.procs
  {
  }

  /** A process that waits for nobody can make its next step. */
  lemma FreeToMove(env: Env, s: State, p: Pid) returns (e: Event)
    requires p in s.procs && !Over(s.procs[p]) && forall q :: !WaitsFor(env, s, p, q)
    ensures Apply(env, s, e).Some? && e.p == p
  {
    hide Q.Used, Q.FormatInt, Q.HasSuffix, Q.DayEnding;
    e := Go(p);
    var proc := s.procs[p];
    if proc.Forgetting? {
      if path :| Stale(s, proc.daemon, path, proc.today) {
        e := Drop(p, path);
      }
    } else if proc.WantGate? {
      assert proc.gate in s.gates ==> WaitsFor(env, s, p, s.gates[proc.gate]);
    } else if proc.WantMap? {
      assert proc.call.daemon in s.mus ==> WaitsFor(env, s, p, s.mus[proc.call.daemon]);
    } else if proc.WantForget? {
      assert proc.daemon in s.mus ==> WaitsFor(env, s, p, s.mus[proc.daemon]);
    } else if proc.WantFile? {
      assert env.fileLocks && proc.call.path in s.fileOwners ==> WaitsFor(env, s, p, s.fileOwners[proc.call.path]);
    }
  }

  /** As long as any call or sweep is unfinished, some process can make its next step. */
  lemma {:induction false} SomebodyCanMove(env: Env, s: State, p: Pid) returns (e: Event)
    requires Reachable(env, s) && p in s.procs && !Over(s.procs[p])
    ensures Apply(env, s, e).Some? && e.p in s.procs
    decreases Rank(s.procs[p])
  {
    hide Reachable, Apply, WaitsFor;
    if q :| WaitsFor(env, s, p, q) {
      WaitingDescends(env, s, p, q);
      e := SomebodyCanMove(env, s, q);
    } else {
      e := FreeToMove(env, s, p);
    }
  }
}

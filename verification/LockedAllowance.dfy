/** What the locks are for: reservations and refunds made under them keep every counter within its limit. */
module LockedAllowance {
  import opened Text
  import opened QuotaLocks
  import opened SerialUpdates
  import opened Sums
  import Q = Quota

  /** What Consume and Refund have done to a counter under its lock. */
  ghost predicate IsReservation(mutate: Q.Int64 -> Option<Q.Int64>, limit: Q.Int64, bytes: Q.Int64)
  {
    forall used :: mutate(used) == Q.Reserve(limit, bytes, used)
  }

  ghost predicate IsRefund(mutate: Q.Int64 -> Option<Q.Int64>, bytes: Q.Int64)
  {
    forall used :: mutate(used) == Q.GiveBack(bytes, used)
  }

  /** A limit of at most the cap, with room for some bytes above that below the top of int64. */
  predicate Roomy(limit: Q.Int64, bytes: Q.Int64, cap: nat)
  {
    bytes >= 0 && limit <= cap && cap + bytes <= MAX_INT64
  }

  /** A reservation that has room, or a refund. */
  ghost predicate IsRequest(mutate: Q.Int64 -> Option<Q.Int64>, cap: nat)
  {
    || (exists limit: Q.Int64, bytes: Q.Int64 :: IsReservation(mutate, limit, bytes) && Roomy(limit, bytes, cap))
    || (exists bytes: Q.Int64 :: IsRefund(mutate, bytes) && bytes >= 0)
  }

  lemma RequestKeepsWithin(mutate: Q.Int64 -> Option<Q.Int64>, cap: nat, used: Q.Int64)
    requires IsRequest(mutate, cap) && 0 <= used <= cap && mutate(used).Some?
    ensures 0 <= mutate(used).value <= cap
  {
    if limit: Q.Int64, bytes: Q.Int64 :| IsReservation(mutate, limit, bytes) && Roomy(limit, bytes, cap) {
      assert mutate(used) == Q.Reserve(limit, bytes, used);
    } else {
      var bytes: Q.Int64 :| IsRefund(mutate, bytes) && bytes >= 0;
      assert mutate(used) == Q.GiveBack(bytes, used);
    }
  }

  ghost predicate OnlyRequests(log: seq<Entry>, path: Path, cap: nat)
  {
    forall i :: 0 <= i < |log| && log[i].call.path == path ==> IsRequest(log[i].call.mutate, cap)
  }

  lemma {:induction false} ReplayKeepsWithin(log: seq<Entry>, path: Path, cap: nat)
    requires OnlyRequests(log, path, cap)
    ensures 0 <= Replay(log, path) <= cap
  {
    hide IsRequest;
    if log != [] {
      var n := |log| - 1;
      var before := log[..n];
      assert forall i :: 0 <= i < n ==> before[i] == log[i];
      ReplayKeepsWithin(before, path, cap);
      if log[n].call.path == path && log[n].call.mutate(Replay(before, path)).Some? {
        RequestKeepsWithin(log[n].call.mutate, cap, Replay(before, path));
      }
    }
  }

  /**
   * However calls interleave, and whatever gates are dropped meanwhile, a counter that only reservations and
   * refunds touch never leaves the range from zero to the cap: neither on disk between updates, nor as an
   * update reads it.
   */
  lemma CountersStayWithinLimits(env: Env, s: State, path: Path, cap: nat, p: Pid)
    requires env.Safe() && Reachable(env, s) && OnlyRequests(s.log, path, cap)
    ensures Settled(s, path) ==> 0 <= Q.Used(s.files, path) <= cap
    ensures p in s.procs && s.procs[p].HasRead? && s.procs[p].call.path == path ==> 0 <= s.procs[p].used <= cap
  {
    hide Reachable, OnlyRequests, Replay, Settled, Ownership, Known, Legal, Reported, Q.Used;
    ReachableIsSerial(env, s);
    ReplayKeepsWithin(s.log, path, cap);
    assert PathOk(s, path);
    assert ProcOk(env, s, p);
  }

  // ---- conservation ---------------------------------------------------------------------------

  /**
   * What an upload asked for: some bytes under a limit, or its own earlier bytes back, told by their place
   * in the history.
   */
  datatype Purpose = Take(limit: Q.Int64, bytes: Q.Int64) | Return(of: nat)

  /** The bytes that each update in the history still stands for: granted, and not given back since. */
  ghost function Standing(log: seq<Entry>, ledger: seq<Purpose>, path: Path): (bytes: seq<nat>)
    requires |ledger| == |log|
    requires forall i :: 0 <= i < |ledger| && ledger[i].Take? ==> ledger[i].bytes >= 0
    ensures |bytes| == |log|
  {
    if log == [] then []
    else
      var n := |log| - 1;
      var before := Standing(log[..n], ledger[..n], path);
      if log[n].call.path != path then before + [0]
      else match ledger[n]
        case Take(_, bytes) => before + [if log[n].ok then bytes else 0]
        case Return(of) => (if of < n then before[of := 0] else before) + [0]
  }

  /**
   * On a path, every update is what its purpose says: a reservation, or a refund of what a reservation still
   * stands for.
   */
  ghost predicate Ledgered(log: seq<Entry>, ledger: seq<Purpose>, path: Path, cap: nat)
  {
    && |ledger| == |log|
    && (forall i :: 0 <= i < |ledger| && ledger[i].Take? ==> ledger[i].bytes >= 0)
    && (log == [] ||
        var n := |log| - 1;
        && Ledgered(log[..n], ledger[..n], path, cap)
        && (log[n].call.path == path ==> Purposeful(log, ledger, path, cap)))
  }

  /** Whether the last update is what its purpose says. */
  ghost predicate Purposeful(log: seq<Entry>, ledger: seq<Purpose>, path: Path, cap: nat)
    requires log != [] && |ledger| == |log|
    requires forall i :: 0 <= i < |ledger| && ledger[i].Take? ==> ledger[i].bytes >= 0
  {
    var n := |log| - 1;
    var standing := Standing(log[..n], ledger[..n], path);
    match ledger[n]
    case Take(limit, bytes) =>
      IsReservation(log[n].call.mutate, limit, bytes) && Roomy(limit, bytes, cap)
    case Return(of) =>
      of < n && standing[of] <= MAX_INT64 && IsRefund(log[n].call.mutate, standing[of])
  }

  lemma TakeAddsUp(mutate: Q.Int64 -> Option<Q.Int64>, limit: Q.Int64, bytes: Q.Int64, used: Q.Int64, cap: nat)
    requires IsReservation(mutate, limit, bytes) && Roomy(limit, bytes, cap) && 0 <= used <= cap
    ensures mutate(used).Some? ==> mutate(used).value == used + bytes <= cap
  {
    assert mutate(used) == Q.Reserve(limit, bytes, used);
  }

  lemma ReturnTakesOff(mutate: Q.Int64 -> Option<Q.Int64>, bytes: Q.Int64, used: Q.Int64)
    requires IsRefund(mutate, bytes) && 0 <= bytes <= used
    ensures mutate(used) == Some(used - bytes)
  {
    assert mutate(used) == Q.GiveBack(bytes, used);
  }

  /**
   * Replaying reservations and refunds one at a time gives exactly the bytes still standing; the clamp at
   * zero never fires.
   */
  lemma {:induction false} ReplayIsStanding(log: seq<Entry>, ledger: seq<Purpose>, path: Path, cap: nat)
    requires Legal(log) && Ledgered(log, ledger, path, cap)
    ensures 0 <= Replay(log, path) == Sum(Standing(log, ledger, path)) <= cap
  {
    hide IsReservation, IsRefund, Sum;
    if log == [] {
      SumOfNothing();
    } else {
      var n := |log| - 1;
      var standing := Standing(log[..n], ledger[..n], path);
      ReplayIsStanding(log[..n], ledger[..n], path, cap);
      SumOfNaturals(standing);
      SumOneMore(standing, 0);
      if log[n].call.path == path {
        assert Purposeful(log, ledger, path, cap);
        var used := Replay(log[..n], path);
        match ledger[n]
        case Take(limit, bytes) =>
          TakeAddsUp(log[n].call.mutate, limit, bytes, used, cap);
          SumOneMore(standing, bytes);
        case Return(of) =>
          SumWithout(standing, of);
          SumAtLeast(standing, of);
          ReturnTakesOff(log[n].call.mutate, standing[of], used);
          SumOneMore(standing[of := 0], 0);
      }
    }
  }

  /**
   * Conservation under the locks: however the steps of concurrent calls interleave, and whatever gates are
   * dropped meanwhile, between updates a counter on disk is exactly the bytes reserved and not given back,
   * and that is at most the cap.
   */
  lemma ConservationUnderLocks(env: Env, s: State, ledger: seq<Purpose>, path: Path, cap: nat)
    requires env.Safe() && Reachable(env, s) && Settled(s, path) && Ledgered(s.log, ledger, path, cap)
    ensures 0 <= Q.Used(s.files, path) == Sum(Standing(s.log, ledger, path)) <= cap
  {
    hide Reachable, Settled, Legal, Reported, Standing, Sum, Replay, Q.Used;
    ReachableIsLinear(env, s);
    ReplayIsStanding(s.log, ledger, path, cap);
  }
}

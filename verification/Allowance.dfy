/** What the daily allowance guarantees, and exactly when. */
module Allowance {
  import opened Text
  import opened Reservations
  import Q = Quota

  /** The bytes charged to an account by uploads that hold them, stored them or never gave them back. */
  function Charged(s: State, a: Account): nat
  {
    Sum(s.uploads, ChargedTo(a))
  }

  /** The refunds posted to an account for bytes charged to another. */
  function Strays(s: State, a: Account): nat
  {
    Sum(s.uploads, StrayedTo(a))
  }

  lemma {:induction false} NothingToAdd(us: seq<Upload>, t: Tally)
    requires forall i :: 0 <= i < |us| ==> Weight(us[i], t) == 0
    ensures Sum(us, t) == 0
  {
    if us != [] {
      NothingToAdd(us[..|us| - 1], t);
    }
  }

  lemma AnyCounterIsCapped(env: Env, a: Account)
    ensures Caps(env, a, MAX_INT64)
  {
  }

  /**
   * Conservation. A counter never claims more than was charged, nor less than that without the refunds that
   * strayed to it; within one day it is exactly what is stored, in flight or lost, and nothing is lost unless
   * an upload crashed or a counter could not be updated.
   */
  lemma Conservation(env: Env, s: State, a: Account)
    requires env.NoOverflow() && Reachable(env, s)
    ensures Counter(s, a) <= Charged(s, a) <= Counter(s, a) + Strays(s, a)
    ensures Charged(s, a) == Sum(s.uploads, StoredOn(a)) + Sum(s.uploads, HeldOn(a)) + Sum(s.uploads, LostOn(a))
        + Sum(s.uploads, StrayedFrom(a))
    ensures env.clock.Stopped? ==>
              Strays(s, a) == 0 && Counter(s, a) ==
                Sum(s.uploads, StoredOn(a)) + Sum(s.uploads, HeldOn(a)) + Sum(s.uploads, LostOn(a))
    ensures !env.crashes && !env.ioFails ==> Sum(s.uploads, LostOn(a)) == 0
  {
    hide Reachable, Sum, Q.SafeKey, Caps;
    AnyCounterIsCapped(env, a);
    ReachableIsBalanced(env, s, a, MAX_INT64);
    ChargedIsSplit(s.uploads, a);
    assert forall i :: 0 <= i < |s.uploads| ==> UploadOk(env, s.day, s.uploads[i]);
    if env.clock.Stopped? {
      NothingToAdd(s.uploads, StrayedTo(a));
      NothingToAdd(s.uploads, StrayedFrom(a));
    }
    if !env.crashes && !env.ioFails {
      NothingToAdd(s.uploads, LostOn(a));
    }
  }

  /** A refund to the account it was charged to takes off its full size, as long as no other refund strayed there. */
  lemma ClampNeverFires(env: Env, s: State, i: nat)
    requires env.NoOverflow() && Reachable(env, s) && i < |s.uploads| && s.uploads[i].Repaying?
    requires s.uploads[i].target == s.uploads[i].account && Strays(s, s.uploads[i].account) == 0
    ensures Counter(s, s.uploads[i].account) >= s.uploads[i].size
    ensures Counter(Repay(s, i), s.uploads[i].account) == Counter(s, s.uploads[i].account) - s.uploads[i].size
  {
    hide Reachable, Sum, Q.SafeKey;
    var a := s.uploads[i].account;
    Conservation(env, s, a);
    SumPut(s.uploads, i, Repaid, ChargedTo(a));
  }

  /**
   * Across midnight. What is charged to a day stays within the limit plus the refunds that strayed there;
   * with a clock that never runs backwards each of those was charged, by the same key, to an earlier day.
   */
  lemma AcrossMidnight(env: Env, s: State, a: Account, cap: nat)
    requires env.NoOverflow() && Caps(env, a, cap) && Reachable(env, s)
    ensures 0 <= Counter(s, a) <= cap && Charged(s, a) <= cap + Strays(s, a)
    ensures forall i :: 0 <= i < |s.uploads| && s.uploads[i].Strayed? && s.uploads[i].target == a ==>
              && s.uploads[i].account.safe == a.safe
              && (env.clock.Steady? ==> s.uploads[i].account.day < a.day)
              && !env.clock.Stopped?
  {
    hide Reachable, Sum, Q.SafeKey, Caps;
    ReachableIsBalanced(env, s, a, cap);
    assert forall i :: 0 <= i < |s.uploads| ==> UploadOk(env, s.day, s.uploads[i]);
  }

  // ---- runs that go past the limit ------------------------------------------------------------

  lemma StartIsReachable(env: Env)
    ensures Reachable(env, START)
  {
    assert Run(env, []) == Some(START);
  }

  /** One more event from a reachable state. */
  lemma Next(env: Env, s: State, e: Event) returns (t: State)
    requires Reachable(env, s) && Apply(env, s, e).Some?
    ensures Reachable(env, t) && Apply(env, s, e) == Some(t)
  {
    hide Apply;
    t := Apply(env, s, e).value;
    var events :| Run(env, events) == Some(s);
    assert (events + [e])[..|events|] == events;
    assert Run(env, events + [e]) == Some(t);
  }

  /** A metered upload reserves its bytes today. */
  lemma ReserveToday(env: Env, s: State, key: Octets, size: Size, used: Q.Int64) returns (t: State)
    requires Reachable(env, s) && size <= env.maxChunkSize && env.limitOf(key) > 0
    requires Q.Reserve(env.limitOf(key), size, Counter(s, AccountOf(key, s.day))) == Some(used)
    ensures Reachable(env, t) && t.day == s.day
    ensures t.uploads == s.uploads + [Held(key, size, AccountOf(key, s.day))]
    ensures t.counters == s.counters[AccountOf(key, s.day) := used]
  {
    hide Reachable, Q.SafeKey, Q.Reserve, Repay;
    var i, a := |s.uploads|, AccountOf(key, s.day);
    var s1 := Next(env, s, Start(key, size));
    var s2 := Next(env, s1, Go(i, true));
    assert s2 == s.(uploads := s.uploads + [Reserving(key, size, a)]);
    t := Next(env, s2, Go(i, true));
    assert t.uploads == s.uploads + [Held(key, size, a)];
  }

  /** Enough uploads take today's counter to any value up to the limit. */
  lemma {:induction false} FillUp(env: Env, s: State, key: Octets, used: nat) returns (t: State)
    requires env.maxChunkSize > 0 && Reachable(env, s)
    requires var a := AccountOf(key, s.day); 0 <= Counter(s, a) <= used <= env.limitOf(key) && env.limitOf(key) > 0
    ensures Reachable(env, t) && t.day == s.day && s.uploads <= t.uploads
    ensures var a := AccountOf(key, s.day);
            && Counter(t, a) == used && Charged(t, a) == Charged(s, a) + used - Counter(s, a)
            && Strays(t, a) == Strays(s, a)
    decreases used - Counter(s, AccountOf(key, s.day))
  {
    hide Reachable, Sum, Q.SafeKey, Apply;
    var a := AccountOf(key, s.day);
    var rest := used - Counter(s, a);
    if rest == 0 {
      t := s;
    } else {
      var size := if rest < env.maxChunkSize then rest else env.maxChunkSize;
      var s1 := ReserveToday(env, s, key, size, Counter(s, a) + size);
      SumOneMore(s.uploads, Held(key, size, a), ChargedTo(a));
      SumOneMore(s.uploads, Held(key, size, a), StrayedTo(a));
      t := FillUp(env, s1, key, used);
    }
  }

  /** A limit too close to the top of int64 wraps around and lets a full chunk through past it. */
  lemma OverflowOvershoots(env: Env, key: Octets) returns (s: State, a: Account)
    requires env.limitOf(key) > 0 && env.limitOf(key) + env.maxChunkSize > MAX_INT64
    ensures Reachable(env, s) && Charged(s, a) > MAX_INT64 && Strays(s, a) == 0
  {
    hide Reachable, Sum, Q.SafeKey, Apply;
    StartIsReachable(env);
    a := AccountOf(key, 0);
    NothingToAdd([], ChargedTo(a));
    NothingToAdd([], StrayedTo(a));
    var full := FillUp(env, START, key, env.limitOf(key));
    var size := env.maxChunkSize;
    var used := Wrap64(env.limitOf(key) + size);
    s := ReserveToday(env, full, key, size, used);
    SumOneMore(full.uploads, Held(key, size, a), ChargedTo(a));
    SumOneMore(full.uploads, Held(key, size, a), StrayedTo(a));
  }

  ghost predicate WithinLimits(env: Env, s: State)
  {
    forall a, cap: nat :: Caps(env, a, cap) ==> Charged(s, a) <= cap + Strays(s, a)
  }

  /**
   * The allowance holds in every run, up to refunds that strayed across midnight, exactly when every limit in
   * force leaves room for one more chunk below the top of int64.
   */
  lemma AllowanceHoldsExactly(env: Env)
    ensures (forall s :: Reachable(env, s) ==> WithinLimits(env, s)) <==> env.NoOverflow()
  {
    hide Reachable, Caps, Charged, Strays;
    if env.NoOverflow() {
      forall s, a, cap: nat | Reachable(env, s) && Caps(env, a, cap)
        ensures Charged(s, a) <= cap + Strays(s, a)
      {
        AcrossMidnight(env, s, a, cap);
      }
    } else {
      var key :| env.limitOf(key) > 0 && env.limitOf(key) + env.maxChunkSize > MAX_INT64;
      var s, a := OverflowOvershoots(env, key);
      AnyCounterIsCapped(env, a);
      assert !WithinLimits(env, s);
    }
  }

  /** An upload charged today fails tomorrow, when its refund makes room for bytes beyond tomorrow's limit. */
  lemma MidnightOvershoots(env: Env, key: Octets) returns (s: State, a: Account)
    requires !env.clock.Stopped? && env.maxChunkSize > 0 && env.limitOf(key) > 0
    requires env.limitOf(key) + env.maxChunkSize <= MAX_INT64
    ensures Reachable(env, s) && a.safe == Q.SafeKey(key) && Charged(s, a) > env.limitOf(key)
  {
    hide Reachable, Sum, Q.SafeKey, TryReserve;
    StartIsReachable(env);
    var today := AccountOf(key, 0);
    a := AccountOf(key, 1);
    var s1 := ReserveToday(env, START, key, 1, 1);
    var s2 := Next(env, s1, Midnight(1));
    var s3 := FillUp(env, s2, key, env.limitOf(key));
    assert s3.uploads[0] == Held(key, 1, today);
    var s4 := Next(env, s3, Go(0, false));
    var s5 := Next(env, s4, Go(0, true));
    PutMoves(s3, 0, Repaying(key, 1, today, a), a);
    PutMoves(s4, 0, Strayed(1, today, a), a);
    s := ReserveToday(env, s5, key, 1, env.limitOf(key));
    SumOneMore(s5.uploads, Held(key, 1, a), ChargedTo(a));
  }

  ghost predicate StrictlyWithinLimits(env: Env, s: State)
  {
    forall a, cap: nat :: Caps(env, a, cap) ==> Charged(s, a) <= cap
  }

  /** Without the strays the limit is kept exactly by those runs that never see a midnight. */
  lemma LimitIsPerDayExactly(env: Env, key: Octets)
    requires env.NoOverflow() && env.maxChunkSize > 0 && env.limitOf(key) > 0
    requires forall other :: Q.SafeKey(other) == Q.SafeKey(key) ==> env.limitOf(other) <= env.limitOf(key)
    ensures (forall s :: Reachable(env, s) ==> StrictlyWithinLimits(env, s)) <==> env.clock.Stopped?
  {
    hide Reachable, Caps, Charged, Strays, Q.SafeKey;
    if env.clock.Stopped? {
      forall s, a, cap: nat | Reachable(env, s) && Caps(env, a, cap)
        ensures Charged(s, a) <= cap
      {
        AcrossMidnight(env, s, a, cap);
        Conservation(env, s, a);
      }
    } else {
      var s, a := MidnightOvershoots(env, key);
      CapIsLargest(env, key, a);
      assert !StrictlyWithinLimits(env, s);
    }
  }

  lemma CapIsLargest(env: Env, key: Octets, a: Account)
    requires forall other :: Q.SafeKey(other) == a.safe ==> env.limitOf(other) <= env.limitOf(key)
    requires env.limitOf(key) > 0
    ensures Caps(env, a, env.limitOf(key))
  {
  }
}

/** How long an upload asks to be kept, and how long it is. */
module Ttl {
  import opened Text
  import Q = Quota

  const SECOND: nat := 1_000_000_000

  /** requestedTTL, in nanoseconds: Go multiplies the seconds in int64 arithmetic. */
  function Requested(header: Octets): Q.Int64
  {
    var raw := TrimSpace(header);
    if raw == [] then 0
    else
      var seconds := ParseInt(raw);
      if seconds.None? || seconds.value <= 0 then 0 else Wrap64(seconds.value * SECOND)
  }

  /** ClampTTL. */
  function Clamp(requested: Q.Int64, default: Q.Int64, max: Q.Int64): Q.Int64
  {
    if requested <= 0 then default else if requested > max then max else requested
  }

  /** What validation leaves of the two settings. */
  predicate Valid(default: Q.Int64, max: Q.Int64)
  {
    0 < default <= max
  }

  /** A plain positive count of seconds, of any size. */
  predicate AsksFor(header: Octets, seconds: nat)
  {
    var raw := TrimSpace(header);
    raw != [] && AllDigits(raw) && Value(raw) == seconds && seconds > 0
  }

  /** Whatever the header says, a chunk is kept for some time and at most the maximum. */
  lemma KeptWithinMaximum(header: Octets, default: Q.Int64, max: Q.Int64)
    requires Valid(default, max)
    ensures 0 < Clamp(Requested(header), default, max) <= max
  {
  }

  lemma RequestedSeconds(header: Octets, seconds: nat)
    requires AsksFor(header, seconds)
    ensures Requested(header) == if seconds <= MAX_INT64 then Wrap64(seconds * SECOND) else 0
  {
    DigitsAreSigned(TrimSpace(header));
    hide TrimSpace, Signed, Value, Wrap64;
  }

  lemma DigitsAreSigned(raw: Octets)
    requires AllDigits(raw) && raw != []
    ensures Signed(raw) == Some(Value(raw))
  {
    hide Value;
    assert IsDigit(raw[0]);
  }

  lemma WrappedIsEven(n: nat)
    ensures Wrap64(n * SECOND) % 2 == 0
  {
    var half := HalfWrapped(n);
    hide Wrap64;
    TwiceIsEven(half);
  }

  lemma HalfWrapped(n: nat) returns (half: int)
    ensures Wrap64(n * SECOND) == 2 * half
  {
    var turns := n * SECOND / 0x1_0000_0000_0000_0000;
    half := n * 500_000_000 - turns * 0x8000_0000_0000_0000;
    assert n * SECOND % 0x1_0000_0000_0000_0000 == 2 * half;
    if 2 * half > MAX_INT64 {
      half := half - 0x8000_0000_0000_0000;
    }
  }

  lemma TwiceIsEven(n: int)
    ensures (2 * n) % 2 == 0
  {
  }

  /** A request for some seconds gets that long, or the maximum if that is shorter. */
  predicate Honoured(header: Octets, seconds: nat, default: Q.Int64, max: Q.Int64)
    requires Valid(default, max)
  {
    Clamp(Requested(header), default, max) == Min(seconds * SECOND, max)
  }

  /** What int64 arithmetic leaves of the nanoseconds; seconds that do not fit an int64 are not read at all. */
  function Left(seconds: nat): Q.Int64
  {
    if seconds <= MAX_INT64 then Wrap64(seconds * SECOND) else 0
  }

  /**
   * Under given settings a request is honoured exactly when its nanoseconds fit an int64, or what is left of
   * them after wrapping around happens to reach the maximum, or nothing is left and the default is the maximum.
   */
  lemma HonouredUnder(header: Octets, seconds: nat, default: Q.Int64, max: Q.Int64)
    requires AsksFor(header, seconds) && Valid(default, max)
    ensures Honoured(header, seconds, default, max) <==>
            seconds * SECOND <= MAX_INT64 || Left(seconds) >= max || (Left(seconds) <= 0 && default == max)
  {
    assert seconds > 0;
    RequestedSeconds(header, seconds);
    hide Requested, AsksFor;
    if seconds * SECOND <= MAX_INT64 {
      assert Left(seconds) == seconds * SECOND;
    }
  }

  ghost predicate HonouredEverywhere(header: Octets, seconds: nat)
  {
    forall default: Q.Int64, max: Q.Int64 :: Valid(default, max) ==> Honoured(header, seconds, default, max)
  }

  /**
   * A request is honoured under every valid configuration exactly when its nanoseconds fit an int64: past
   * that some configuration answers a request for longer with less.
   */
  lemma HonouredExactly(header: Octets, seconds: nat)
    requires AsksFor(header, seconds)
    ensures HonouredEverywhere(header, seconds) <==> seconds <= MAX_INT64 / SECOND
  {
    hide AsksFor, Honoured, Left;
    forall default: Q.Int64, max: Q.Int64 | Valid(default, max)
      ensures Honoured(header, seconds, default, max) <==>
              seconds * SECOND <= MAX_INT64 || Left(seconds) >= max || (Left(seconds) <= 0 && default == max)
    {
      HonouredUnder(header, seconds, default, max);
    }
    if seconds > MAX_INT64 / SECOND {
      LeftIsEven(seconds);
      assert Valid(1, 2) && Valid(1, MAX_INT64);
      assert !Honoured(header, seconds, 1, 2) || !Honoured(header, seconds, 1, MAX_INT64);
    }
  }

  lemma LeftIsEven(seconds: nat)
    ensures Left(seconds) % 2 == 0
  {
    hide Wrap64;
    WrappedIsEven(seconds);
  }

  /** The settings a server has when none are given: 48 hours, and a week at most. */
  const DEFAULT_TTL: Q.Int64 := 48 * 3600 * SECOND
  const MAX_TTL: Q.Int64 := 7 * 24 * 3600 * SECOND

  /**
   * Under those settings the first request too long to be honoured gets the default of 48 hours, where the
   * one a second shorter gets the week; and one for twice as long gets less than a third of a second.
   */
  lemma LongRequests()
    ensures Clamp(Requested(Decimal(9223372036)), DEFAULT_TTL, MAX_TTL) == MAX_TTL
    ensures Clamp(Requested(Decimal(9223372037)), DEFAULT_TTL, MAX_TTL) == DEFAULT_TTL
    ensures Clamp(Requested(Decimal(18446744074)), DEFAULT_TTL, MAX_TTL) == 290_448_384
  {
    DecimalAsks(9223372036);
    DecimalAsks(9223372037);
    DecimalAsks(18446744074);
    RequestedSeconds(Decimal(9223372036), 9223372036);
    RequestedSeconds(Decimal(9223372037), 9223372037);
    RequestedSeconds(Decimal(18446744074), 18446744074);
    hide Requested, Decimal;
  }

  lemma DecimalAsks(seconds: nat)
    requires seconds > 0
    ensures AsksFor(Decimal(seconds), seconds)
  {
    hide Decimal, Value, TrimSpace;
    var text := Decimal(seconds);
    ValueOfDecimal(seconds);
    assert IsDigit(text[0]) && IsDigit(text[|text| - 1]);
    TrimKeeps(text);
  }
}

/**
 * The daily allowance under concurrency. Any number of uploads reserve before reading their bodies and
 * give back on failure, one locked counter update at a time, in any order and across midnights.
 */
module Reservations {
  import opened Text
  import Calendar
  import Q = Quota

  type Size = n: nat | n <= MAX_INT64

  datatype Clock = Stopped | Steady | Erratic

  /** The configured limits, and what the world may do meanwhile. */
  datatype Env = Env(limitOf: Octets -> Q.Int64, maxChunkSize: Size, clock: Clock, crashes: bool, ioFails: bool)
  {
    /** Every limit in force leaves room for one more chunk below the top of int64. */
    ghost predicate NoOverflow()
    {
      forall key: Octets :: limitOf(key) > 0 ==> limitOf(key) + maxChunkSize <= MAX_INT64
    }
  }

  /** One counter file: a safe key id, and a day counted from some first one. */
  datatype Account = Account(safe: Octets, day: nat)

  /** The account an upload is charged to on a day. */
  function AccountOf(key: Octets, day: nat): Account
  {
    Account(Q.SafeKey(key), day)
  }

  /** Two uploads share an account exactly when they share a counter file. */
  lemma AccountsAreCounters(key: Octets, at: nat, other: Octets, later: nat)
    ensures AccountOf(key, at / Calendar.DAY) == AccountOf(other, later / Calendar.DAY) <==>
              Q.CounterAt(key, at) == Q.CounterAt(other, later)
  {
    hide Calendar.DateAt, Q.CounterName, Q.SafeKey;
    Calendar.DateIsValid(at);
    Calendar.DateIsValid(later);
    Calendar.SameDate(at, later);
    Q.CountersAreShared(key, Calendar.DateAt(at), other, Calendar.DateAt(later));
  }

  datatype Upload =
    | Declared(key: Octets, size: Size)
    | Reserving(key: Octets, size: Size, account: Account)
    | Refused
    | Unmetered
    | Held(key: Octets, size: Size, account: Account)
    | Repaying(key: Octets, size: Size, account: Account, target: Account)
    | Stored(size: Size, account: Account)
    | Lost(size: Size, account: Account)
    | Repaid
    | Strayed(size: Size, account: Account, target: Account)

  /** Today, the counters, and every upload there has been. */
  datatype State = State(day: nat, counters: map<Account, Q.Int64>, uploads: seq<Upload>)

  const START: State := State(0, map[], [])

  function Counter(s: State, a: Account): Q.Int64
  {
    if a in s.counters then s.counters[a] else 0
  }

  // ---- events ---------------------------------------------------------------------------------

  datatype Event =
    | Midnight(to: nat)
    | Start(key: Octets, size: Size)
    | Go(i: nat, ok: bool)  // the upload's next operation, and whether it succeeds
    | Crash(i: nat)

  function Put(s: State, i: nat, u: Upload): State
    requires i < |s.uploads|
  {
    s.(uploads := s.uploads[i := u])
  }

  /** Consume, once it has the lock. */
  function TryReserve(env: Env, s: State, i: nat): State
    requires i < |s.uploads| && s.uploads[i].Reserving?
  {
    var Reserving(key, size, account) := s.uploads[i];
    var next := Q.Reserve(env.limitOf(key), size, Counter(s, account));
    if next.None? then Put(s, i, Refused)
    else Put(s.(counters := s.counters[account := next.value]), i, Held(key, size, account))
  }

  /** Refund, once it has the lock. */
  function Repay(s: State, i: nat): State
    requires i < |s.uploads| && s.uploads[i].Repaying?
  {
    var Repaying(_, size, account, target) := s.uploads[i];
    var next := Q.GiveBack(size, Counter(s, target)).value;
    var done := if target == account then Repaid else Strayed(size, account, target);
    Put(s.(counters := s.counters[target := next]), i, done)
  }

  /** The next operation of handleUpload; a path is chosen before the lock on it is had. */
  function Advance(env: Env, s: State, i: nat, ok: bool): Option<State>
    requires i < |s.uploads|
  {
    match s.uploads[i]
    case Declared(key, size) =>
      if env.limitOf(key) <= 0 then Some(Put(s, i, Unmetered))
      else Some(Put(s, i, Reserving(key, size, AccountOf(key, s.day))))
    case Reserving(_, _, _) =>
      if ok then Some(TryReserve(env, s, i)) else if env.ioFails then Some(Put(s, i, Refused)) else None
    case Held(key, size, account) =>
      if ok then Some(Put(s, i, Stored(size, account)))
      else if size <= 0 then Some(Put(s, i, Repaid))
      else Some(Put(s, i, Repaying(key, size, account, AccountOf(key, s.day))))
    case Repaying(_, size, account, _) =>
      if ok then Some(Repay(s, i)) else if env.ioFails then Some(Put(s, i, Lost(size, account))) else None
    case _ => None
  }

  function Abandon(s: State, i: nat): Option<State>
    requires i < |s.uploads|
  {
    match s.uploads[i]
    case Declared(_, _) => Some(Put(s, i, Refused))
    case Reserving(_, _, _) => Some(Put(s, i, Refused))
    case Held(_, size, account) => Some(Put(s, i, Lost(size, account)))
    case Repaying(_, size, account, _) => Some(Put(s, i, Lost(size, account)))
    case _ => None
  }

  function Apply(env: Env, s: State, e: Event): Option<State>
  {
    match e
    case Midnight(to) =>
      if env.clock.Stopped? || (env.clock.Steady? && to < s.day) then None else Some(s.(day := to))
    case Start(key, size) =>
      if size > env.maxChunkSize then None else Some(s.(uploads := s.uploads + [Declared(key, size)]))
    case Go(i, ok) =>
      if i < |s.uploads| then Advance(env, s, i, ok) else None
    case Crash(i) =>
      if env.crashes && i < |s.uploads| then Abandon(s, i) else None
  }

  function Run(env: Env, events: seq<Event>): Option<State>
    decreases |events|
  {
    if events == [] then Some(START)
    else
      var n := |events| - 1;
      var s := Run(env, events[..n]);
      if s.None? then None else Apply(env, s.value, events[n])
  }

  ghost predicate Reachable(env: Env, s: State)
  {
    exists events :: Run(env, events) == Some(s)
  }

  // ---- tallies --------------------------------------------------------------------------------

  /** What to add up over the uploads. */
  datatype Tally =
    | ChargedTo(a: Account)
    | StoredOn(a: Account)
    | HeldOn(a: Account)
    | LostOn(a: Account)
    | StrayedFrom(a: Account)
    | StrayedTo(a: Account)

  function Weight(u: Upload, t: Tally): nat
  {
    match t
    case StoredOn(a) => if u.Stored? && u.account == a then u.size else 0
    case HeldOn(a) => if (u.Held? || u.Repaying?) && u.account == a then u.size else 0
    case LostOn(a) => if u.Lost? && u.account == a then u.size else 0
    case StrayedFrom(a) => if u.Strayed? && u.account == a then u.size else 0
    case StrayedTo(a) => if u.Strayed? && u.target == a then u.size else 0
    case ChargedTo(a) => if (u.Stored? || u.Held? || u.Repaying? || u.Lost? || u.Strayed?) && u.account == a
      then u.size else 0
  }

  function Sum(us: seq<Upload>, t: Tally): nat
  {
    if us == [] then 0 else Sum(us[..|us| - 1], t) + Weight(us[|us| - 1], t)
  }

  lemma SumOneMore(us: seq<Upload>, u: Upload, t: Tally)
    ensures Sum(us + [u], t) == Sum(us, t) + Weight(u, t)
  {
  }

  lemma {:induction false} SumPut(us: seq<Upload>, i: nat, u: Upload, t: Tally)
    requires i < |us|
    ensures Sum(us[i := u], t) + Weight(us[i], t) == Sum(us, t) + Weight(u, t)
    ensures Sum(us, t) >= Weight(us[i], t)
  {
    var n := |us| - 1;
    if i == n {
      assert us[i := u][..n] == us[..n];
    } else {
      SumPut(us[..n], i, u, t);
      assert us[i := u][..n] == us[..n][i := u];
    }
  }

  /** Everything charged to an account is stored, still in flight, lost, or was given back elsewhere. */
  lemma {:induction false} ChargedIsSplit(us: seq<Upload>, a: Account)
    ensures Sum(us, ChargedTo(a)) == Sum(us, StoredOn(a)) + Sum(us, HeldOn(a)) + Sum(us, LostOn(a))
        + Sum(us, StrayedFrom(a))
  {
    if us != [] {
      ChargedIsSplit(us[..|us| - 1], a);
    }
  }

  // ---- the invariant --------------------------------------------------------------------------

  /** No key that shares an account has a limit above the cap. */
  ghost predicate Caps(env: Env, a: Account, cap: nat)
  {
    forall key: Octets :: Q.SafeKey(key) == a.safe ==> env.limitOf(key) <= cap
  }

  /** What is charged to an account lies between its counter and its counter plus the refunds that strayed to it. */
  predicate Balanced(env: Env, s: State, a: Account, cap: nat)
  {
    && 0 <= Counter(s, a) <= cap && Counter(s, a) + env.maxChunkSize <= MAX_INT64
    && Counter(s, a) <= Sum(s.uploads, ChargedTo(a)) <= Counter(s, a) + Sum(s.uploads, StrayedTo(a))
  }

  /** Whether an upload's amounts and accounts fit its key, and its days the clock. */
  predicate UploadOk(env: Env, day: nat, u: Upload)
  {
    match u
    case Declared(key, size) => size <= env.maxChunkSize
    case Reserving(key, size, account) =>
      size <= env.maxChunkSize && env.limitOf(key) > 0 && account.safe == Q.SafeKey(key) && DayOk(env, day, account)
    case Held(key, size, account) =>
      account.safe == Q.SafeKey(key) && DayOk(env, day, account)
    case Repaying(key, size, account, target) =>
      && size > 0 && account.safe == target.safe && DayOk(env, day, target)
      && (!env.clock.Erratic? ==> account.day <= target.day)
    case Lost(_, _) => env.crashes || env.ioFails
    case Strayed(_, account, target) =>
      && account != target && account.safe == target.safe && !env.clock.Stopped?
      && (env.clock.Steady? ==> account.day < target.day)
    case _ => true
  }

  predicate DayOk(env: Env, day: nat, a: Account)
  {
    && (env.clock.Stopped? ==> a.day == 0 == day)
    && (env.clock.Steady? ==> a.day <= day)
  }

  predicate UploadsOk(env: Env, s: State)
  {
    && (env.clock.Stopped? ==> s.day == 0)
    && forall i :: 0 <= i < |s.uploads| ==> UploadOk(env, s.day, s.uploads[i])
  }

  lemma ApplyKeepsUploads(env: Env, s: State, e: Event, t: State)
    requires UploadsOk(env, s) && Apply(env, s, e) == Some(t)
    ensures UploadsOk(env, t)
  {
    hide Q.SafeKey, Q.Reserve, Q.GiveBack;
    if e.Go? {
      assert UploadOk(env, s.day, s.uploads[e.i]);
    }
  }

  /** A change to one upload moves a tally by the change in that upload's share. */
  lemma PutMoves(s: State, i: nat, u: Upload, a: Account)
    requires i < |s.uploads|
    ensures Sum(Put(s, i, u).uploads, ChargedTo(a)) + Weight(s.uploads[i], ChargedTo(a)) ==
        Sum(s.uploads, ChargedTo(a)) + Weight(u, ChargedTo(a))
    ensures Sum(Put(s, i, u).uploads, StrayedTo(a)) + Weight(s.uploads[i], StrayedTo(a)) ==
        Sum(s.uploads, StrayedTo(a)) + Weight(u, StrayedTo(a))
    ensures Sum(s.uploads, ChargedTo(a)) >= Weight(s.uploads[i], ChargedTo(a))
  {
    SumPut(s.uploads, i, u, ChargedTo(a));
    SumPut(s.uploads, i, u, StrayedTo(a));
  }

  lemma ReserveKeepsBalance(env: Env, s: State, i: nat, a: Account, cap: nat)
    requires env.NoOverflow() && Caps(env, a, cap) && Balanced(env, s, a, cap)
    requires i < |s.uploads| && s.uploads[i].Reserving? && UploadOk(env, s.day, s.uploads[i])
    ensures Balanced(env, TryReserve(env, s, i), a, cap)
  {
    hide Sum, Q.SafeKey;
    var Reserving(key, size, account) := s.uploads[i];
    PutMoves(s, i, Refused, a);
    PutMoves(s, i, Held(key, size, account), a);
  }

  lemma RepayKeepsBalance(env: Env, s: State, i: nat, a: Account, cap: nat)
    requires Balanced(env, s, a, cap)
    requires i < |s.uploads| && s.uploads[i].Repaying?
    ensures Balanced(env, Repay(s, i), a, cap)
  {
    hide Sum, Q.SafeKey;
    var Repaying(_, size, account, target) := s.uploads[i];
    PutMoves(s, i, Repaid, a);
    PutMoves(s, i, Strayed(size, account, target), a);
  }

  lemma AdvanceKeepsBalance(env: Env, s: State, i: nat, ok: bool, t: State, a: Account, cap: nat)
    requires env.NoOverflow() && Caps(env, a, cap) && Balanced(env, s, a, cap)
    requires i < |s.uploads| && UploadOk(env, s.day, s.uploads[i]) && Advance(env, s, i, ok) == Some(t)
    ensures Balanced(env, t, a, cap)
  {
    hide Sum, Q.SafeKey, TryReserve, Repay, Caps;
    var u := s.uploads[i];
    if u.Reserving? && ok {
      ReserveKeepsBalance(env, s, i, a, cap);
    } else if u.Repaying? && ok {
      RepayKeepsBalance(env, s, i, a, cap);
    } else {
      PutMoves(s, i, t.uploads[i], a);
    }
  }

  lemma ApplyKeepsBalance(env: Env, s: State, e: Event, t: State, a: Account, cap: nat)
    requires env.NoOverflow() && Caps(env, a, cap) && Balanced(env, s, a, cap)
    requires UploadsOk(env, s) && Apply(env, s, e) == Some(t)
    ensures Balanced(env, t, a, cap)
  {
    hide Sum, Q.SafeKey, Caps, Advance;
    match e
    case Midnight(_) =>
    case Start(key, size) =>
      SumOneMore(s.uploads, Declared(key, size), ChargedTo(a));
      SumOneMore(s.uploads, Declared(key, size), StrayedTo(a));
    case Go(i, ok) =>
      AdvanceKeepsBalance(env, s, i, ok, t, a, cap);
    case Crash(i) =>
      PutMoves(s, i, t.uploads[i], a);
  }

  lemma {:induction false} RunKeepsUploads(env: Env, events: seq<Event>, s: State)
    requires Run(env, events) == Some(s)
    ensures UploadsOk(env, s)
    decreases |events|
  {
    hide UploadsOk, Apply;
    if events == [] {
      StartIsFine(env);
    } else {
      var n := |events| - 1;
      var before := Run(env, events[..n]).value;
      RunKeepsUploads(env, events[..n], before);
      ApplyKeepsUploads(env, before, events[n], s);
    }
  }

  lemma StartIsFine(env: Env)
    ensures UploadsOk(env, START)
  {
  }

  lemma {:induction false} RunKeepsBalance(env: Env, events: seq<Event>, s: State, a: Account, cap: nat)
    requires env.NoOverflow() && Caps(env, a, cap) && Run(env, events) == Some(s)
    ensures Balanced(env, s, a, cap)
    decreases |events|
  {
    hide UploadsOk, Apply, Caps;
    if events != [] {
      var n := |events| - 1;
      var before := Run(env, events[..n]).value;
      RunKeepsBalance(env, events[..n], before, a, cap);
      RunKeepsUploads(env, events[..n], before);
      ApplyKeepsBalance(env, before, events[n], s, a, cap);
    }
  }

  lemma ReachableIsBalanced(env: Env, s: State, a: Account, cap: nat)
    requires env.NoOverflow() && Caps(env, a, cap) && Reachable(env, s)
    ensures Balanced(env, s, a, cap) && UploadsOk(env, s)
  {
    hide Balanced, UploadsOk, Apply, Caps;
    var events :| Run(env, events) == Some(s);
    RunKeepsBalance(env, events, s, a, cap);
    RunKeepsUploads(env, events, s);
  }
}

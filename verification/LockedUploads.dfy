/** Uploads that reserve and give back under the locks, one file operation at a time: the allowance on disk. */
module LockedUploads {
  import opened Text
  import A = Allowance
  import Calendar
  import L = QuotaLocks
  import LA = LockedAllowance
  import Q = Quota
  import R = Reservations
  import U = SerialUpdates

  datatype Env = Env(books: R.Env, locks: L.Env)

  /** The uploads with the counters they reckon with, the locks with the counter files, and whom each update is for. */
  datatype State = State(books: R.State, locks: L.State, work: map<L.Pid, nat>)

  const START: State := State(R.START, L.START, map[])

  datatype Event =
    | Beside(b: R.Event)                      // an upload moves without touching a counter, or midnight passes
    | Invoke(p: L.Pid, i: nat, call: L.Call)  // an upload calls for its update
    | Around(l: L.Event)                      // a sweep forgets gates
    | Go(p: L.Pid)                            // an update or a sweep takes its next step

  // ---- counters and their files ---------------------------------------------------------------

  /** The counter file of an account. */
  function PathOf(a: R.Account): L.Path
  {
    "quota-" + a.safe + Q.DayEnding(Calendar.Civil(a.day))
  }

  /** The account an upload is charged to at some time has the file that Consume and Refund work out. */
  lemma PathOfUpload(key: Octets, at: nat)
    ensures PathOf(R.AccountOf(key, at / Calendar.DAY)) == Q.CounterAt(key, at)
  {
  }

  lemma PathsTellAccounts(a: R.Account, b: R.Account)
    requires PathOf(a) == PathOf(b)
    ensures a == b
  {
    hide Calendar.Civil, Calendar.Ordinal, Q.Stamp;
    Calendar.CivilIsOrdinal(a.day);
    Calendar.CivilIsOrdinal(b.day);
    var x, y := Calendar.Civil(a.day), Calendar.Civil(b.day);
    Q.LastDash("quota-" + a.safe, Q.Stamp(x), "quota-" + b.safe, Q.Stamp(y));
    Q.StampTellsTheDay(x, y);
    assert a.safe == ("quota-" + a.safe)[6..] && b.safe == ("quota-" + b.safe)[6..];
  }

  /** An update is the one an upload is waiting for. */
  ghost predicate IsFor(env: R.Env, u: R.Upload, call: L.Call)
  {
    || (u.Reserving? && call.path == PathOf(u.account) && LA.IsReservation(call.mutate, env.limitOf(u.key), u.size))
    || (u.Repaying? && call.path == PathOf(u.target) && LA.IsRefund(call.mutate, u.size))
  }

  // ---- steps ----------------------------------------------------------------------------------

  /** A process is in the middle of an update for an upload. */
  predicate WorksFor(s: State, p: L.Pid, i: nat)
  {
    p in s.work && s.work[p] == i && p in s.locks.procs && L.Calls(s.locks.procs[p]) && !s.locks.procs[p].Finished?
  }

  ghost predicate IsBusy(s: State, i: nat)
  {
    exists p :: WorksFor(s, p, i)
  }

  /** An upload's step that is an update of a counter. */
  predicate Updates(s: R.State, b: R.Event)
  {
    b.Go? && b.ok && b.i < |s.uploads| && (s.uploads[b.i].Reserving? || s.uploads[b.i].Repaying?)
  }

  ghost function Apply(env: Env, s: State, e: Event): Option<State>
  {
    match e
    case Beside(b) =>
      if Updates(s.books, b) || ((b.Go? || b.Crash?) && IsBusy(s, b.i)) then None
      else
        var t := R.Apply(env.books, s.books, b);
        if t.None? then None else Some(s.(books := t.value))
    case Invoke(p, i, call) =>
      if i >= |s.books.uploads| || IsBusy(s, i) || !IsFor(env.books, s.books.uploads[i], call) then None
      else
        var t := L.Apply(env.locks, s.locks, L.Invoke(p, call));
        if t.None? then None else Some(s.(locks := t.value, work := s.work[p := i]))
    case Around(l) =>
      if !l.Forget? && !l.Drop? then None
      else
        var t := L.Apply(env.locks, s.locks, l);
        if t.None? then None else Some(s.(locks := t.value))
    case Go(p) =>
      var t := L.Apply(env.locks, s.locks, L.Go(p));
      if t.None? then None
      else if t.value.log == s.locks.log then Some(s.(locks := t.value))
      else if p !in s.work then None
      else
        // the update takes effect, and with it the upload's step
        var b := R.Apply(env.books, s.books, R.Go(s.work[p], true));
        if b.None? then None else Some(s.(locks := t.value, books := b.value))
  }

  ghost function Run(env: Env, events: seq<Event>): Option<State>
    decreases |events|
  {
    if events == [] then Some(START)
    else
      var n := |events| - 1;
      var s := Run(env, events[..n]);
      if s.None? then None else Apply(env, s.value, events[n])
  }

  ghost predicate Reachable(env: Env, s: State)
  {
    exists events :: Run(env, events) == Some(s)
  }

  // ---- each side by itself --------------------------------------------------------------------

  lemma StepsAreSteps(env: Env, s: State, e: Event, t: State)
    requires Apply(env, s, e) == Some(t)
    ensures t.locks == s.locks || exists l :: L.Apply(env.locks, s.locks, l) == Some(t.locks)
    ensures t.books == s.books || exists b :: R.Apply(env.books, s.books, b) == Some(t.books)
  {
    hide R.Apply, L.Apply, IsBusy, IsFor, Updates;
    match e
    case Beside(b) =>
    case Invoke(p, i, call) => assert L.Apply(env.locks, s.locks, L.Invoke(p, call)) == Some(t.locks);
    case Around(l) => assert L.Apply(env.locks, s.locks, l) == Some(t.locks);
    case Go(p) => assert L.Apply(env.locks, s.locks, L.Go(p)) == Some(t.locks);
  }

  lemma LocksGoOn(env: L.Env, s: L.State, l: L.Event, t: L.State)
    requires L.Reachable(env, s) && L.Apply(env, s, l) == Some(t)
    ensures L.Reachable(env, t)
  {
    hide L.Apply;
    var events :| L.Run(env, events) == Some(s);
    assert (events + [l])[..|events|] == events;
    assert L.Run(env, events + [l]) == Some(t);
  }

  /** A joint run shows the uploads a run of their own, and the locks one of theirs. */
  lemma {:induction false} SidesAreReachable(env: Env, events: seq<Event>, s: State)
    requires Run(env, events) == Some(s)
    ensures L.Reachable(env.locks, s.locks) && R.Reachable(env.books, s.books)
    decreases |events|
  {
    hide Apply, L.Apply, R.Apply, R.Reachable;
    if events == [] {
      A.StartIsReachable(env.books);
      assert L.Run(env.locks, []) == Some(L.START);
    } else {
      hide L.Reachable;
      var n := |events| - 1;
      var before := Run(env, events[..n]).value;
      SidesAreReachable(env, events[..n], before);
      StepsAreSteps(env, before, events[n], s);
      if s.locks != before.locks {
        var l :| L.Apply(env.locks, before.locks, l) == Some(s.locks);
        LocksGoOn(env.locks, before.locks, l, s.locks);
      }
      if s.books != before.books {
        var b :| R.Apply(env.books, before.books, b) == Some(s.books);
        var t := A.Next(env.books, before.books, b);
      }
    }
  }

  // ---- what ties them together ----------------------------------------------------------------

  /** An update that has been answered found the upload where its answer sends it. */
  predicate Follows(u: R.Upload, ok: bool)
  {
    if ok then u.Held? || u.Repaid? || u.Strayed? else u.Refused?
  }

  /** An update under way is for an upload that waits for it, or has just been answered. */
  ghost predicate IsTied(env: Env, s: State, p: L.Pid)
  {
    p in s.locks.procs && L.Calls(s.locks.procs[p]) ==>
      && p in s.work && s.work[p] < |s.books.uploads|
      && var proc, u := s.locks.procs[p], s.books.uploads[s.work[p]];
         && (!U.Decided(proc) ==> IsFor(env.books, u, proc.call))
         && (U.Decided(proc) && !proc.Finished? ==> Follows(u, proc.ok))
  }

  /** Each upload waits for one update at a time. */
  predicate IsAlone(s: State, p: L.Pid, q: L.Pid, i: nat)
  {
    WorksFor(s, p, i) && WorksFor(s, q, i) ==> p == q
  }

  /** The counter the uploads reckon with is the one the recorded updates lead to. */
  ghost predicate Agrees(s: State, a: R.Account)
  {
    R.Counter(s.books, a) == U.Replay(s.locks.log, PathOf(a))
  }

  ghost predicate Tied(env: Env, s: State)
  {
    && (forall p :: IsTied(env, s, p))
    && (forall p, q, i :: IsAlone(s, p, q, i))
    && (forall a :: Agrees(s, a))
  }

  // the uploads move

  /** A step by which no counter changes, and no upload but one. */
  ghost predicate Untouched(s: R.State, t: R.State, at: nat)
  {
    && t.counters == s.counters && |t.uploads| >= |s.uploads|
    && forall i :: 0 <= i < |s.uploads| && i != at ==> t.uploads[i] == s.uploads[i]
  }

  lemma BesideTouches(env: R.Env, s: R.State, b: R.Event, t: R.State)
    requires R.Apply(env, s, b) == Some(t) && !Updates(s, b)
    ensures Untouched(s, t, if b.Go? || b.Crash? then b.i else |s.uploads|)
  {
    hide R.TryReserve, R.Repay, R.AccountOf;
  }

  lemma UntouchedKeepsTied(env: Env, s: State, t: State, at: nat)
    requires Tied(env, s) && Untouched(s.books, t.books, at) && !IsBusy(s, at) && t == s.(books := t.books)
    ensures Tied(env, t)
  {
    hide IsFor, U.Replay;
    forall p
      ensures IsTied(env, t, p)
    {
      assert IsTied(env, s, p);
      if p in s.work && WorksFor(s, p, s.work[p]) {
        assert s.work[p] != at;
      }
    }
    forall p, q, i
      ensures IsAlone(t, p, q, i)
    {
      assert IsAlone(s, p, q, i);
    }
    forall a
      ensures Agrees(t, a)
    {
      assert Agrees(s, a);
    }
  }

  lemma BesideKeepsTied(env: Env, s: State, b: R.Event, t: State)
    requires Tied(env, s) && Apply(env, s, Beside(b)) == Some(t)
    ensures Tied(env, t)
  {
    hide R.Apply, Updates, Untouched, Tied, IsBusy;
    BesideTouches(env.books, s.books, b, t.books);
    var at := if b.Go? || b.Crash? then b.i else |s.books.uploads|;
    if !(b.Go? || b.Crash?) {
      NobodyWorksBeyond(env, s);
    }
    UntouchedKeepsTied(env, s, t, at);
  }

  lemma NobodyWorksBeyond(env: Env, s: State)
    requires Tied(env, s)
    ensures !IsBusy(s, |s.books.uploads|)
  {
    hide IsFor, U.Replay;
    forall p
      ensures !WorksFor(s, p, |s.books.uploads|)
    {
      assert IsTied(env, s, p);
    }
  }

  // the locks move

  /** A step of p that decides no update. */
  ghost predicate Undecided(s: L.State, t: L.State, p: L.Pid)
  {
    && t.log == s.log && p in t.procs && t.procs == s.procs[p := t.procs[p]]
    && p in s.procs && (L.Calls(s.procs[p]) <==> L.Calls(t.procs[p]))
    && (L.Calls(s.procs[p]) ==> t.procs[p].call == s.procs[p].call && !s.procs[p].Finished?)
    && (U.Decided(s.procs[p]) <==> U.Decided(t.procs[p])) && (U.Decided(s.procs[p]) ==> t.procs[p].ok == s.procs[p].ok)
  }

  lemma UndecidedKeepsTied(env: Env, s: State, t: State, p: L.Pid)
    requires Tied(env, s) && Undecided(s.locks, t.locks, p) && t == s.(locks := t.locks)
    ensures Tied(env, t)
  {
    hide IsFor, U.Replay, Follows;
    forall q
      ensures IsTied(env, t, q) && (q in t.work ==> WorksFor(t, q, t.work[q]) ==> WorksFor(s, q, t.work[q]))
    {
      assert IsTied(env, s, q);
    }
    forall q, r, i
      ensures IsAlone(t, q, r, i)
    {
      assert IsAlone(s, q, r, i);
    }
    forall a
      ensures Agrees(t, a)
    {
      assert Agrees(s, a);
    }
  }

  /** A process that is no update of anybody's comes along. */
  lemma NewcomerKeepsTied(env: Env, s: State, t: State)
    requires Tied(env, s) && t == s.(locks := t.locks) && t.locks.log == s.locks.log
    requires forall p :: p in t.locks.procs && L.Calls(t.locks.procs[p]) ==>
               p in s.locks.procs && t.locks.procs[p] == s.locks.procs[p]
    ensures Tied(env, t)
  {
    hide IsFor, U.Replay, Follows;
    forall p
      ensures IsTied(env, t, p)
    {
      assert IsTied(env, s, p);
    }
    forall q, r, i
      ensures IsAlone(t, q, r, i)
    {
      assert IsAlone(s, q, r, i);
    }
    forall a
      ensures Agrees(t, a)
    {
      assert Agrees(s, a);
    }
  }

  lemma InvokeKeepsTied(env: Env, s: State, p: L.Pid, i: nat, call: L.Call, t: State)
    requires Tied(env, s) && Apply(env, s, Invoke(p, i, call)) == Some(t)
    ensures Tied(env, t)
  {
    hide IsFor, U.Replay, Follows, L.Advance, L.Stale;
    forall q
      ensures IsTied(env, t, q)
    {
      assert IsTied(env, s, q);
    }
    forall q, r, j
      ensures IsAlone(t, q, r, j)
    {
      assert IsAlone(s, q, r, j);
      assert !WorksFor(s, q, i) && !WorksFor(s, r, i);
    }
    forall a
      ensures Agrees(t, a)
    {
      assert Agrees(s, a);
    }
  }

  /** A step of an update or a sweep that is not the one that decides. */
  lemma GoIsUndecided(env: L.Env, s: L.State, p: L.Pid, t: L.State)
    requires env.Safe() && U.Serial(env, s) && L.Apply(env, s, L.Go(p)) == Some(t) && t.log == s.log
    ensures Undecided(s, t, p)
  {
    hide U.Serial, L.Advance, L.Update, U.Knows, U.Quiet, L.Moves, L.Ownership;
    L.AdvanceMoves(env, s, p, t);
    U.StepMoves(env, s, t, p);
    U.AdvanceFollows(env, s, p, t);
    FinishedStays(env, s, p);
    if s.procs[p].HasRead? || s.procs[p].Emptied? {
      U.Decides(s, p, t);
    } else {
      QuietIsUndecided(s, t, p);
    }
  }

  lemma FinishedStays(env: L.Env, s: L.State, p: L.Pid)
    requires p in s.procs && L.Advance(env, s, p).Some?
    ensures !s.procs[p].Finished?
  {
  }

  lemma QuietIsUndecided(s: L.State, t: L.State, p: L.Pid)
    requires p in s.procs && p in t.procs
    requires U.Knows(s, t, s.procs[p], t.procs[p]) && U.Quiet(s, t, s.procs[p], t.procs[p])
    ensures L.Calls(s.procs[p]) <==> L.Calls(t.procs[p])
    ensures L.Calls(s.procs[p]) ==> t.procs[p].call == s.procs[p].call
    ensures U.Decided(s.procs[p]) <==> U.Decided(t.procs[p])
    ensures U.Decided(s.procs[p]) ==> t.procs[p].ok == s.procs[p].ok
  {
  }

  // an update takes effect

  /** The step of p that decides its update, by which the history grows. */
  ghost predicate Decides(s: L.State, t: L.State, p: L.Pid)
  {
    && p in s.procs && L.Calls(s.procs[p]) && !U.Decided(s.procs[p])
    && var call, before := s.procs[p].call, U.Replay(s.log, s.procs[p].call.path);
       && var ok := call.mutate(before).Some?;
          && t.log == s.log + [L.Entry(p, call, ok)]
          && p in t.procs && t.procs == s.procs[p := t.procs[p]]
          && t.procs[p].Written? && t.procs[p].call == call && t.procs[p].ok == ok
  }

  lemma GoDecides(env: L.Env, s: L.State, p: L.Pid, t: L.State)
    requires env.Safe() && U.Serial(env, s) && L.Apply(env, s, L.Go(p)) == Some(t) && t.log != s.log
    ensures Decides(s, t, p)
  {
    hide U.Serial, L.Advance, L.Update, U.Knows, U.Quiet, L.Moves, U.Replay;
    U.AdvanceFollows(env, s, p, t);
    if s.procs[p].HasRead? || s.procs[p].Emptied? {
      ActorReads(env, s, p);
      U.Decides(s, p, t);
    } else {
      U.LogStays(s, t, p);
    }
  }

  lemma ActorReads(env: L.Env, s: L.State, p: L.Pid)
    requires U.Serial(env, s) && p in s.procs
    ensures U.DataOk(s, p)
  {
    assert U.ProcOk(env, s, p);
    U.ActorData(env, s, p);
  }

  /** The upload's own step does to its counter what the update does to the file. */
  lemma BooksFollow(env: R.Env, s: R.State, i: nat, call: L.Call, a: R.Account)
    requires i < |s.uploads| && IsFor(env, s.uploads[i], call)
    requires a == if s.uploads[i].Reserving? then s.uploads[i].account else s.uploads[i].target
    ensures var next, t := call.mutate(R.Counter(s, a)), R.Apply(env, s, R.Go(i, true));
            && call.path == PathOf(a) && t.Some?
            && t.value.uploads == s.uploads[i := t.value.uploads[i]] && Follows(t.value.uploads[i], next.Some?)
            && t.value.counters == if next.Some? then s.counters[a := next.value] else s.counters
  {
    hide PathOf, Q.Reserve;
    if s.uploads[i].Reserving? {
      var limit, size := env.limitOf(s.uploads[i].key), s.uploads[i].size;
      assert call.mutate(R.Counter(s, a)) == Q.Reserve(limit, size, R.Counter(s, a));
    } else {
      assert call.mutate(R.Counter(s, a)) == Q.GiveBack(s.uploads[i].size, R.Counter(s, a));
    }
  }

  lemma DecisionAgrees(s: State, t: State, p: L.Pid, a: R.Account, b: R.Account)
    requires Decides(s.locks, t.locks, p) && s.locks.procs[p].call.path == PathOf(a) && Agrees(s, a) && Agrees(s, b)
    requires var next := s.locks.procs[p].call.mutate(R.Counter(s.books, a));
             t.books.counters == if next.Some? then s.books.counters[a := next.value] else s.books.counters
    ensures Agrees(t, b)
  {
    hide PathOf, U.Replay, U.Legal, U.Times;
    var call := s.locks.procs[p].call;
    U.OneMore(s.locks.log, L.Entry(p, call, call.mutate(U.Replay(s.locks.log, call.path)).Some?), PathOf(b), p);
    if PathOf(a) == PathOf(b) {
      PathsTellAccounts(a, b);
    }
  }

  /** The upload an update is for, and its account. */
  lemma TheWork(env: Env, s: State, t: L.State, p: L.Pid) returns (i: nat, a: R.Account)
    requires Tied(env, s) && Decides(s.locks, t, p)
    ensures p in s.work && i == s.work[p] && i < |s.books.uploads| && WorksFor(s, p, i)
    ensures IsFor(env.books, s.books.uploads[i], s.locks.procs[p].call)
    ensures a == if s.books.uploads[i].Reserving? then s.books.uploads[i].account else s.books.uploads[i].target
  {
    hide U.Replay;
    assert IsTied(env, s, p);
    i := s.work[p];
    var u := s.books.uploads[i];
    a := if u.Reserving? then u.account else u.target;
  }

  lemma DecisionKeepsTied(env: Env, s: State, t: State, p: L.Pid)
    requires Tied(env, s) && Decides(s.locks, t.locks, p) && t.work == s.work
    requires p in s.work && R.Apply(env.books, s.books, R.Go(s.work[p], true)) == Some(t.books)
    ensures Tied(env, t)
  {
    var i, a := TheWork(env, s, t.locks, p);
    BooksFollow(env.books, s.books, i, s.locks.procs[p].call, a);
    assert Agrees(s, a);
    hide R.Apply, PathOf, U.Replay, IsFor, Follows;
    forall q
      ensures IsTied(env, t, q)
    {
      assert IsTied(env, s, q) && IsAlone(s, p, q, i);
    }
    forall q, r, j
      ensures IsAlone(t, q, r, j)
    {
      assert IsAlone(s, q, r, j);
    }
    forall b
      ensures Agrees(t, b)
    {
      assert Agrees(s, b);
      DecisionAgrees(s, t, p, a, b);
    }
  }

  // ---- runs -----------------------------------------------------------------------------------

  /** Whatever step the locks are ready for, the uploads are too: joining them holds nothing up. */
  lemma NothingIsHeldUp(env: Env, s: State, p: L.Pid)
    requires env.locks.Safe() && Reachable(env, s) && L.Apply(env.locks, s.locks, L.Go(p)).Some?
    ensures Apply(env, s, Go(p)).Some?
  {
    hide L.Apply, R.Apply, Tied, Reachable, U.Serial, Decides;
    ReachableIsTied(env, s);
    U.ReachableIsSerial(env.locks, s.locks);
    var t := L.Apply(env.locks, s.locks, L.Go(p)).value;
    if t.log != s.locks.log {
      GoDecides(env.locks, s.locks, p, t);
      var i, a := TheWork(env, s, t, p);
      BooksFollow(env.books, s.books, i, s.locks.procs[p].call, a);
    }
  }

  lemma ApplyKeepsTied(env: Env, s: State, e: Event, t: State)
    requires env.locks.Safe() && Tied(env, s) && U.Serial(env.locks, s.locks) && Apply(env, s, e) == Some(t)
    ensures Tied(env, t)
  {
    hide Tied, U.Serial, R.Apply, Undecided, Decides, IsBusy, IsFor, Updates;
    match e
    case Beside(b) => BesideKeepsTied(env, s, b, t);
    case Invoke(p, i, call) => InvokeKeepsTied(env, s, p, i, call, t);
    case Around(l) => NewcomerKeepsTied(env, s, t);
    case Go(p) =>
      if t.locks.log == s.locks.log {
        GoIsUndecided(env.locks, s.locks, p, t.locks);
        UndecidedKeepsTied(env, s, t, p);
      } else {
        GoDecides(env.locks, s.locks, p, t.locks);
        DecisionKeepsTied(env, s, t, p);
      }
  }

  lemma {:induction false} RunKeepsTied(env: Env, events: seq<Event>, s: State)
    requires env.locks.Safe() && Run(env, events) == Some(s)
    ensures Tied(env, s)
    decreases |events|
  {
    hide Tied, Apply, U.Serial;
    if events == [] {
      StartIsTied(env);
    } else {
      var n := |events| - 1;
      var before := Run(env, events[..n]).value;
      RunKeepsTied(env, events[..n], before);
      SidesAreReachable(env, events[..n], before);
      U.ReachableIsSerial(env.locks, before.locks);
      ApplyKeepsTied(env, before, events[n], s);
    }
  }

  lemma StartIsTied(env: Env)
    ensures Tied(env, START)
  {
  }

  /** In every joint run, each update under way is for an upload that waits for it, and the counters agree. */
  lemma ReachableIsTied(env: Env, s: State)
    requires env.locks.Safe() && Reachable(env, s)
    ensures Tied(env, s) && L.Reachable(env.locks, s.locks) && R.Reachable(env.books, s.books)
  {
    hide Tied, Apply, L.Reachable, R.Reachable;
    var events :| Run(env, events) == Some(s);
    RunKeepsTied(env, events, s);
    SidesAreReachable(env, events, s);
  }

  /**
   * Conservation on disk. However the steps of uploads, updates under their locks and forgetful sweeps
   * interleave, a counter file between updates holds exactly the counter of the reservation protocol. So it is
   * within the limit, what is charged lies between it and it plus the refunds that strayed there, and within one
   * day it is what is stored, in flight or lost.
   */
  lemma CountersOnDisk(env: Env, s: State, a: R.Account, cap: nat)
    requires env.locks.Safe() && env.books.NoOverflow() && R.Caps(env.books, a, cap) && Reachable(env, s)
    requires U.Settled(s.locks, PathOf(a))
    ensures var onDisk, us := Q.Used(s.locks.files, PathOf(a)), s.books.uploads;
            && onDisk == R.Counter(s.books, a) && 0 <= onDisk <= cap
            && onDisk <= A.Charged(s.books, a) <= onDisk + A.Strays(s.books, a)
            && (env.books.clock.Stopped? ==>
                  onDisk == R.Sum(us, R.StoredOn(a)) + R.Sum(us, R.HeldOn(a)) + R.Sum(us, R.LostOn(a)))
            && (!env.books.crashes && !env.books.ioFails ==> R.Sum(us, R.LostOn(a)) == 0)
  {
    hide Tied, Reachable, L.Reachable, R.Reachable, R.Caps, R.Sum, U.Settled, U.Replay, U.Legal, U.Reported, Q.Used;
    hide PathOf;
    ReachableIsTied(env, s);
    U.ReachableIsLinear(env.locks, s.locks);
    CountersAgree(env, s, a);
    A.Conservation(env.books, s.books, a);
    A.AcrossMidnight(env.books, s.books, a, cap);
  }

  lemma CountersAgree(env: Env, s: State, a: R.Account)
    requires Tied(env, s)
    ensures Agrees(s, a)
  {
  }
}

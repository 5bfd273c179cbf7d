/** Uploads to the store and reservations in the books, together: what is committed has been paid for. */
module Settlement {
  import opened Text
  import opened Disk
  import A = Allowance
  import F = Facts
  import Keys
  import M = Machine
  import P = Promises
  import Q = Quota
  import R = Reservations
  import Runs
  import S = Store
  import Safety

  datatype Env = Env(store: M.Env, books: R.Env)

  /**
   * The store, the books, and the upload each id was drawn for. The clock of the store and the day of the books
   * move independently, which covers every way in which they may agree.
   */
  datatype State = State(store: M.State, books: R.State, link: map<Id, nat>)

  const START: State := State(M.START, R.START, map[])

  datatype Event =
    | Around(a: M.Event)  // something else happens to the store
    | Beside(b: R.Event)  // something else happens to the books
    | Begin(i: nat, p: M.Pid, id: Id, owner: Octets, size: R.Size, ttl: nat)
    | Commit(p: M.Pid)
    | Leave(b: R.Event)   // an upload whose ingestion failed, or never began, asks for a refund or crashes
    | Perish(p: M.Pid)    // an upload crashes

  function Upload(s: State, id: Id): R.Upload
    requires id in s.link && s.link[id] < |s.books.uploads|
  {
    s.books.uploads[s.link[id]]
  }

  /** A reservation, or none being needed, entitles to the ingestion of a body of a declared length. */
  predicate Entitles(env: Env, u: R.Upload, owner: Octets, size: R.Size)
  {
    (u.Held? && u.key == owner && u.size == size) || (u.Unmetered? && env.books.limitOf(owner) <= 0)
  }

  /** A process is about to rename a blob into place, and is going to succeed. */
  predicate Commits(s: M.State, p: M.Pid)
  {
    p in s.procs && s.procs[p].Renaming? && s.procs[p].id in s.disk.temps
  }

  predicate IsHeld(s: R.State, i: nat)
  {
    i < |s.uploads| && s.uploads[i].Held?
  }

  /** What happens to the store without the books being concerned. */
  predicate IsAside(s: M.State, a: M.Event)
  {
    match a
    case StartIngest(_, _, _, _, _) => false
    case Do(p, ok) => !(Commits(s, p) && ok)
    case Crash(p) => p in s.procs ==> P.Bystands(s.procs[p])
    case _ => true
  }

  /** No ingestion is at work for an upload any more, or yet. */
  ghost predicate IsOff(s: State, i: nat)
  {
    forall id :: id in s.link && s.link[id] == i ==>
      && id in s.store.fate && s.store.fate[id].Dead?
      && forall p :: p in s.store.procs && !P.Bystands(s.store.procs[p]) ==> s.store.procs[p].id != id
  }

  ghost function Apply(env: Env, s: State, e: Event): Option<State>
  {
    match e
    case Around(a) =>
      if !IsAside(s.store, a) then None
      else
        var t := M.Apply(env.store, s.store, a);
        if t.None? then None else Some(s.(store := t.value))
    case Beside(b) =>
      if (b.Go? || b.Crash?) && IsHeld(s.books, b.i) then None
      else
        var t := R.Apply(env.books, s.books, b);
        if t.None? then None else Some(s.(books := t.value))
    case Begin(i, p, id, owner, size, ttl) =>
      if i >= |s.books.uploads| || i in s.link.Values || !Entitles(env, s.books.uploads[i], owner, size) then None
      else
        var t := M.Apply(env.store, s.store, M.StartIngest(p, id, owner, ttl, size));
        if t.None? then None else Some(s.(store := t.value, link := s.link[id := i]))
    case Commit(p) =>
      if !Commits(s.store, p) || s.store.procs[p].id !in s.link then None
      else
        var i := s.link[s.store.procs[p].id];
        var t := M.Apply(env.store, s.store, M.Do(p, true));
        var b := if IsHeld(s.books, i) then R.Apply(env.books, s.books, R.Go(i, true)) else Some(s.books);
        if t.None? || b.None? then None else Some(s.(store := t.value, books := b.value))
    case Leave(b) =>
      if !(b.Crash? || (b.Go? && !b.ok)) || !IsHeld(s.books, b.i) || !IsOff(s, b.i) then None
      else
        var t := R.Apply(env.books, s.books, b);
        if t.None? then None else Some(s.(books := t.value))
    case Perish(p) =>
      if p !in s.store.procs || P.Bystands(s.store.procs[p]) || s.store.procs[p].id !in s.link then None
      else
        var i := s.link[s.store.procs[p].id];
        var b := if IsHeld(s.books, i) then R.Apply(env.books, s.books, R.Crash(i)) else Some(s.books);
        if b.None? then None else Some(s.(store := M.Exit(s.store, p), books := b.value))
  }

  ghost function Run(env: Env, events: seq<Event>): Option<State>
    decreases |events|
  {
    if events == [] then Some(START)
    else
      var n := |events| - 1;
      var s := Run(env, events[..n]);
      if s.None? then None else Apply(env, s.value, events[n])
  }

  ghost predicate Reachable(env: Env, s: State)
  {
    exists events :: Run(env, events) == Some(s)
  }

  // ---- each side by itself --------------------------------------------------------------------

  /** A joint step is a step of the store, of the books, or of both. */
  lemma StepsAreSteps(env: Env, s: State, e: Event, t: State)
    requires Apply(env, s, e) == Some(t)
    ensures t.store == s.store || exists a :: M.Apply(env.store, s.store, a) == Some(t.store)
    ensures t.books == s.books || exists b :: R.Apply(env.books, s.books, b) == Some(t.books)
  {
    hide R.Apply, M.Advance, M.Send, M.Receive, Commits, IsAside, IsOff, Entitles, IsHeld;
    match e
    case Around(a) => assert M.Apply(env.store, s.store, a) == Some(t.store);
    case Begin(i, p, id, owner, size, ttl) =>
      assert M.Apply(env.store, s.store, M.StartIngest(p, id, owner, ttl, size)) == Some(t.store);
    case Commit(p) => assert M.Apply(env.store, s.store, M.Do(p, true)) == Some(t.store);
    case Perish(p) => assert M.Apply(env.store, s.store, M.Crash(p)) == Some(t.store);
    case _ =>
  }

  /** A joint run shows the store a run of its own, and the books one of theirs. */
  lemma {:induction false} SidesAreReachable(env: Env, events: seq<Event>, s: State)
    requires Run(env, events) == Some(s)
    ensures M.Reachable(env.store, s.store) && R.Reachable(env.books, s.books)
    decreases |events|
  {
    hide Apply, M.Apply, R.Apply, R.Reachable, M.Leads;
    if events == [] {
      Runs.NothingLeads(env.store, M.START);
      A.StartIsReachable(env.books);
    } else {
      var n := |events| - 1;
      var before := Run(env, events[..n]).value;
      SidesAreReachable(env, events[..n], before);
      StepsAreSteps(env, before, events[n], s);
      if s.store != before.store {
        var a :| M.Apply(env.store, before.store, a) == Some(s.store);
        var t := Runs.Next(env.store, M.START, before.store, a);
      }
      if s.books != before.books {
        var b :| R.Apply(env.books, before.books, b) == Some(s.books);
        var t := A.Next(env.books, before.books, b);
      }
    }
  }

  // ---- what ties them together ----------------------------------------------------------------

  /** What the upload of an id has come to, by what has become of the id. */
  predicate Agrees(env: Env, fate: M.Fate, u: R.Upload)
  {
    match fate
    case Committed(body, meta) =>
      || (u.Stored? && u.size == |body| && u.account.safe == Q.SafeKey(meta.owner))
      || (u.Unmetered? && env.books.limitOf(meta.owner) <= 0)
    case Dead => !u.Stored?
    case _ => u.Held? || u.Unmetered? || u.Lost?
  }

  function OwnerOf(proc: M.Proc): Octets
    requires P.Uploads(proc)
  {
    if proc.Receiving? || proc.Stamping? then proc.owner else proc.meta.owner
  }

  /** An ingestion under way has the reservation it began with. */
  predicate IsBacked(env: Env, s: State, proc: M.Proc)
  {
    P.Uploads(proc) ==>
      && proc.id in s.link && s.link[proc.id] < |s.books.uploads|
      && proc.id in s.store.promised && s.store.promised[proc.id] <= MAX_INT64
      && Entitles(env, Upload(s, proc.id), OwnerOf(proc), s.store.promised[proc.id])
  }

  ghost predicate Linked(s: State)
  {
    && s.link.Keys == s.store.fate.Keys
    && (forall id :: id in s.link ==> s.link[id] < |s.books.uploads|)
    && (forall id, other :: id in s.link && other in s.link && s.link[id] == s.link[other] ==> id == other)
  }

  ghost predicate Tied(env: Env, s: State)
  {
    && Linked(s)
    && (forall id :: id in s.link ==> Agrees(env, s.store.fate[id], Upload(s, id)))
    && (forall i :: 0 <= i < |s.books.uploads| && s.books.uploads[i].Stored? ==> i in s.link.Values)
    && (forall p :: p in s.store.procs ==> IsBacked(env, s, s.store.procs[p]))
  }

  /** What each side keeps by itself. */
  ghost predicate Sides(env: Env, s: State)
  {
    F.Sane(env.store, s.store) && P.Kept(s.store) && R.UploadsOk(env.books, s.books)
  }

  // the store moves, and nothing is committed

  /** What a step of the store that commits nothing does to the history of an id. */
  predicate Proceeds(before: M.Fate, after: M.Fate)
  {
    after == before
    || ((before.Writing? || before.Announced?) && (after.Announced? || after.Dead?))
  }

  /** A step of the store on behalf of p that commits nothing, and draws no id. */
  ghost predicate Internal(s: M.State, t: M.State, p: M.Pid)
  {
    && t.promised == s.promised && t.fate.Keys == s.fate.Keys
    && (forall id :: id in s.fate ==> Proceeds(s.fate[id], t.fate[id]))
    && (forall q :: q in t.procs && q != p ==> q in s.procs && t.procs[q] == s.procs[q])
    && (p in t.procs && P.Uploads(t.procs[p]) ==>
          && p in s.procs && P.Uploads(s.procs[p]) && t.procs[p].id == s.procs[p].id
          && OwnerOf(t.procs[p]) == OwnerOf(s.procs[p]))
  }

  lemma ProceedsAgrees(env: Env, before: M.Fate, after: M.Fate, u: R.Upload)
    requires Agrees(env, before, u) && Proceeds(before, after)
    ensures Agrees(env, after, u)
  {
  }

  lemma InternalKeepsTied(env: Env, s: State, t: State, p: M.Pid)
    requires Tied(env, s) && Internal(s.store, t.store, p) && t == s.(store := t.store)
    ensures Tied(env, t)
  {
    hide Entitles, Agrees, Proceeds;
    forall id | id in t.link
      ensures Agrees(env, t.store.fate[id], Upload(t, id))
    {
      assert Proceeds(s.store.fate[id], t.store.fate[id]);
      ProceedsAgrees(env, s.store.fate[id], t.store.fate[id], Upload(s, id));
    }
    forall q | q in t.store.procs
      ensures IsBacked(env, t, t.store.procs[q])
    {
      if q in s.store.procs {
        assert IsBacked(env, s, s.store.procs[q]);
      }
    }
  }

  lemma IdleIsInternal(s: M.State, t: M.State, p: M.Pid)
    requires P.Idle(s, t, p)
    ensures Internal(s, t, p)
  {
  }

  lemma IngestIsInternal(env: M.Env, s: M.State, p: M.Pid, proc: M.Proc, ok: bool)
    requires p in s.procs && s.procs[p] == proc && F.ProcOk(env, s, p, proc) && !(Commits(s, p) && ok)
    requires M.Ingest(env, s, p, proc, ok).Some?
    ensures Internal(s, M.Ingest(env, s, p, proc, ok).value, p)
  {
    hide *;
    if proc.Describing? || proc.HalfDescribed? {
      DescribingIsInternal(env, s, p, proc, ok);
    } else if proc.Renaming? {
      FailedRenameIsInternal(env, s, p, proc, ok);
    } else {
      OtherIsInternal(env, s, p, proc, ok);
    }
  }

  lemma DescribingIsInternal(env: M.Env, s: M.State, p: M.Pid, proc: M.Proc, ok: bool)
    requires p in s.procs && s.procs[p] == proc && F.ProcOk(env, s, p, proc)
    requires (proc.Describing? || proc.HalfDescribed?) && M.Ingest(env, s, p, proc, ok).Some?
    ensures Internal(s, M.Ingest(env, s, p, proc, ok).value, p)
  {
    hide F.Describes, M.Describe, F.TempHolds;
  }

  lemma FailedRenameIsInternal(env: M.Env, s: M.State, p: M.Pid, proc: M.Proc, ok: bool)
    requires p in s.procs && s.procs[p] == proc && F.ProcOk(env, s, p, proc) && proc.Renaming?
    requires !(Commits(s, p) && ok) && M.Ingest(env, s, p, proc, ok).Some?
    ensures Internal(s, M.Ingest(env, s, p, proc, ok).value, p)
  {
    hide F.Describes, M.Describe, F.TempHolds;
  }

  lemma OtherIsInternal(env: M.Env, s: M.State, p: M.Pid, proc: M.Proc, ok: bool)
    requires p in s.procs && s.procs[p] == proc && F.ProcOk(env, s, p, proc)
    requires !(proc.Describing? || proc.HalfDescribed? || proc.Renaming?) && M.Ingest(env, s, p, proc, ok).Some?
    ensures Internal(s, M.Ingest(env, s, p, proc, ok).value, p)
  {
    hide F.Describes, F.TempHolds;
  }

  lemma ReceiveIsInternal(env: M.Env, s: M.State, p: M.Pid, proc: M.Proc, slice: Octets)
    requires p in s.procs && s.procs[p] == proc && proc.Receiving? && F.ProcOk(env, s, p, proc)
    ensures Internal(s, M.Receive(env, s, p, proc, slice), p)
  {
  }

  lemma AsideIsInternal(env: M.Env, s: M.State, a: M.Event, t: M.State)
    requires F.Sane(env, s) && IsAside(s, a) && !a.Tick? && M.Apply(env, s, a) == Some(t)
    ensures Internal(s, t, a.p)
  {
    hide F.Sane, M.Advance, M.Receive, M.Send, F.ProcOk, P.Idle, Internal;
    if a.Do? {
      ActorIsSane(env, s, a.p);
      if P.Bystands(s.procs[a.p]) {
        P.BystanderIsIdle(env, s, a.p, a.ok, t);
        IdleIsInternal(s, t, a.p);
      } else {
        Safety.IngestAdvances(env, s, a.p, a.ok);
        IngestIsInternal(env, s, a.p, s.procs[a.p], a.ok);
      }
    } else if a.Arrive? {
      ActorIsSane(env, s, a.p);
      ReceiveIsInternal(env, s, a.p, s.procs[a.p], a.slice);
    } else {
      P.OtherIsIdle(env, s, a, t);
      IdleIsInternal(s, t, a.p);
    }
  }

  lemma ActorIsSane(env: M.Env, s: M.State, p: M.Pid)
    requires F.Sane(env, s) && p in s.procs
    ensures F.ProcOk(env, s, p, s.procs[p])
  {
  }

  lemma AroundKeepsTied(env: Env, s: State, a: M.Event, t: State)
    requires Tied(env, s) && F.Sane(env.store, s.store) && Apply(env, s, Around(a)) == Some(t)
    ensures Tied(env, t)
  {
    hide F.Sane, Tied, Internal, IsAside, M.Advance, M.Receive, M.Send;
    if a.Tick? {
      TickKeepsTied(env, s, t);
    } else {
      AsideIsInternal(env.store, s.store, a, t.store);
      InternalKeepsTied(env, s, t, a.p);
    }
  }

  lemma TickKeepsTied(env: Env, s: State, t: State)
    requires Tied(env, s) && t == s.(store := s.store.(clock := t.store.clock))
    ensures Tied(env, t)
  {
    forall p | p in t.store.procs
      ensures IsBacked(env, t, t.store.procs[p])
    {
      assert IsBacked(env, s, s.store.procs[p]);
    }
    forall id | id in t.link
      ensures Agrees(env, t.store.fate[id], Upload(t, id))
    {
      assert Agrees(env, s.store.fate[id], Upload(s, id));
    }
  }

  // the books move

  /** A step of the books by which nothing held is stored. */
  ghost predicate Sideways(s: R.State, t: R.State, at: nat)
  {
    && |t.uploads| >= |s.uploads|
    && (forall i :: 0 <= i < |t.uploads| && (i >= |s.uploads| || t.uploads[i] != s.uploads[i]) ==>
          && !t.uploads[i].Stored?
          && (i < |s.uploads| ==> i == at && !s.uploads[i].Stored? && !s.uploads[i].Unmetered? && !s.uploads[i].Lost?))
  }

  lemma BooksKeepTied(env: Env, s: State, t: State, at: nat)
    requires Tied(env, s) && Sideways(s.books, t.books, at) && t == s.(books := t.books)
    requires IsHeld(s.books, at) ==> IsOff(s, at)
    requires F.Sane(env.store, s.store)
    ensures Tied(env, t)
  {
    hide F.Sane;
    forall id | id in t.link
      ensures Agrees(env, t.store.fate[id], Upload(t, id))
    {
      assert Agrees(env, s.store.fate[id], Upload(s, id));
    }
    forall p | p in t.store.procs
      ensures IsBacked(env, t, t.store.procs[p])
    {
      assert IsBacked(env, s, s.store.procs[p]);
    }
  }

  lemma BesideIsSideways(env: R.Env, s: R.State, b: R.Event, t: R.State)
    requires R.Apply(env, s, b) == Some(t) && ((b.Go? || b.Crash?) && IsHeld(s, b.i) ==> b.Crash? || !b.ok)
    ensures Sideways(s, t, if b.Go? || b.Crash? then b.i else |s.uploads|)
  {
    hide Q.Reserve, Q.GiveBack, Q.SafeKey;
  }

  lemma BesideKeepsTied(env: Env, s: State, e: Event, t: State)
    requires (e.Beside? || e.Leave?) && Tied(env, s) && F.Sane(env.store, s.store) && Apply(env, s, e) == Some(t)
    ensures Tied(env, t)
  {
    hide Tied, F.Sane, R.Apply, Sideways, IsOff;
    BesideIsSideways(env.books, s.books, e.b, t.books);
    var at := if e.b.Go? || e.b.Crash? then e.b.i else |s.books.uploads|;
    BooksKeepTied(env, s, t, at);
  }

  // both move

  /** An ingestion has begun for an upload that had none. */
  ghost predicate Begins(env: Env, s: State, t: State, e: Event)
    requires e.Begin?
  {
    && e.id !in s.store.fate && e.p !in s.store.procs && e.i < |s.books.uploads| && e.i !in s.link.Values
    && Entitles(env, s.books.uploads[e.i], e.owner, e.size)
    && t.books == s.books && t.link == s.link[e.id := e.i]
    && t.store.fate == s.store.fate[e.id := M.Writing(e.p)] && t.store.promised == s.store.promised[e.id := e.size]
    && t.store.procs == s.store.procs[e.p := M.Receiving(e.id, e.owner, e.ttl, e.size, [])]
  }

  /** What the beginning of an ingestion does. */
  lemma BeginDraws(env: Env, s: State, e: Event, t: State)
    requires e.Begin? && env.store.freshIds && Apply(env, s, e) == Some(t)
    ensures Begins(env, s, t, e)
  {
    hide M.Advance, M.Receive, M.Send, Keys.Greatest, Entitles, IsValidId;
  }

  lemma BeginBacks(env: Env, s: State, t: State, e: Event, q: M.Pid)
    requires e.Begin? && Begins(env, s, t, e) && q in t.store.procs
    requires q in s.store.procs ==>
               && IsBacked(env, s, s.store.procs[q])
               && (P.Uploads(s.store.procs[q]) ==> s.store.procs[q].id != e.id)
    ensures IsBacked(env, t, t.store.procs[q])
  {
    hide Entitles;
    if q != e.p {
      assert t.store.procs[q] == s.store.procs[q];
    }
  }

  lemma BeginKeepsTied(env: Env, s: State, e: Event, t: State)
    requires e.Begin? && Tied(env, s) && F.Sane(env.store, s.store) && env.store.freshIds && Apply(env, s, e) == Some(t)
    ensures Tied(env, t)
  {
    BeginDraws(env, s, e, t);
    EntitledAgrees(env, s.books.uploads[e.i], e.owner, e.size, e.p);
    NobodyWorksFor(env, s, e.id);
    BeginLinks(s, e.id, e.i, t);
    hide Apply, F.Sane, Agrees, IsBacked, P.Uploads, Linked;
    forall id | id in t.link
      ensures Agrees(env, t.store.fate[id], Upload(t, id))
    {
      if id != e.id {
        assert Agrees(env, s.store.fate[id], Upload(s, id));
      }
    }
    forall q | q in t.store.procs
      ensures IsBacked(env, t, t.store.procs[q])
    {
      BeginBacks(env, s, t, e, q);
    }
  }

  lemma EntitledAgrees(env: Env, u: R.Upload, owner: Octets, size: R.Size, p: M.Pid)
    requires Entitles(env, u, owner, size)
    ensures Agrees(env, M.Writing(p), u)
  {
  }

  lemma NobodyWorksFor(env: Env, s: State, id: Id)
    requires F.Sane(env.store, s.store) && id !in s.store.fate
    ensures forall q :: q in s.store.procs && P.Uploads(s.store.procs[q]) ==> s.store.procs[q].id != id
  {
    forall q | q in s.store.procs && P.Uploads(s.store.procs[q])
      ensures s.store.procs[q].id != id
    {
      ActorIsSane(env.store, s.store, q);
    }
  }

  lemma BeginLinks(s: State, id: Id, i: nat, t: State)
    requires Linked(s) && id !in s.store.fate && i < |s.books.uploads| && i !in s.link.Values
    requires t.books == s.books && t.link == s.link[id := i] && t.store.fate.Keys == s.store.fate.Keys + {id}
    ensures Linked(t) && t.link.Values >= s.link.Values
  {
    forall j | j in s.link.Values
      ensures j in t.link.Values
    {
      var other :| other in s.link && s.link[other] == j;
      assert t.link[other] == j;
    }
  }

  lemma CommitInStore(env: M.Env, s: M.State, p: M.Pid, t: M.State)
    requires Commits(s, p) && M.Apply(env, s, M.Do(p, true)) == Some(t)
    ensures var id := s.procs[p].id;
            && t.fate == s.fate[id := M.Committed(s.disk.temps[id].body, s.procs[p].meta)]
            && t.procs == s.procs - {p} && t.promised == s.promised
  {
    hide M.Delete, M.HandleDelete, M.Sweep, M.Download, M.Send, M.Receive;
  }

  lemma CommitInBooks(env: R.Env, s: R.State, i: nat, t: R.State)
    requires IsHeld(s, i) && R.Apply(env, s, R.Go(i, true)) == Some(t)
    ensures t.uploads == s.uploads[i := R.Stored(s.uploads[i].size, s.uploads[i].account)]
  {
    hide R.TryReserve, R.Repay;
  }

  /** What is committed is as long as was declared for it. */
  lemma CommitsThePromised(env: M.Env, s: M.State, p: M.Pid)
    requires F.Sane(env, s) && P.Kept(s) && Commits(s, p)
    ensures var id := s.procs[p].id; id in s.promised && s.promised[id] == |s.disk.temps[id].body|
  {
    hide F.Describes;
    ActorIsSane(env, s, p);
    assert P.Holds(s, s.procs[p]);
    assert F.ViewOf(s, s.procs[p].id).temp == Some(s.disk.temps[s.procs[p].id].body);
  }

  /** A committed chunk is as long as its reservation says, and its owner's. */
  lemma CommitAgrees(env: Env, s: State, p: M.Pid, t: State)
    requires Tied(env, s) && Sides(env, s) && Apply(env, s, Commit(p)) == Some(t)
    ensures var id := s.store.procs[p].id;
            && id in t.store.fate && t.store.fate == s.store.fate[id := t.store.fate[id]]
            && t.store.procs == s.store.procs - {p} && t.store.promised == s.store.promised
            && t.link == s.link && |t.books.uploads| == |s.books.uploads|
            && t.books.uploads == s.books.uploads[s.link[id] := t.books.uploads[s.link[id]]]
            && Agrees(env, t.store.fate[id], Upload(t, id))
  {
    hide M.Apply, R.Apply, F.Sane, P.Kept, R.UploadsOk;
    var id := s.store.procs[p].id;
    var i := s.link[id];
    CommitInStore(env.store, s.store, p, t.store);
    CommitsThePromised(env.store, s.store, p);
    assert IsBacked(env, s, s.store.procs[p]) && i < |s.books.uploads|;
    hide Tied, Linked;
    if IsHeld(s.books, i) {
      CommitInBooks(env.books, s.books, i, t.books);
      HeldIsOwners(env.books, s.books, i);
    }
  }

  lemma HeldIsOwners(env: R.Env, s: R.State, i: nat)
    requires R.UploadsOk(env, s) && IsHeld(s, i)
    ensures s.uploads[i].account.safe == Q.SafeKey(s.uploads[i].key)
  {
    assert R.UploadOk(env, s.day, s.uploads[i]);
  }

  /** An ingestion ends, and with it changes what its upload has come to. */
  ghost predicate Ends(s: State, t: State, p: M.Pid, id: Id)
  {
    && p in s.store.procs && id in s.link && s.link[id] < |s.books.uploads|
    && id in t.store.fate && t.store.fate == s.store.fate[id := t.store.fate[id]]
    && t.store.procs == s.store.procs - {p} && t.store.promised == s.store.promised
    && t.link == s.link && |t.books.uploads| == |s.books.uploads|
    && t.books.uploads == s.books.uploads[s.link[id] := t.books.uploads[s.link[id]]]
  }

  /** No process but p is at work for an id. */
  ghost predicate Alone(s: State, p: M.Pid, id: Id)
  {
    forall q :: q in s.store.procs && q != p && P.Uploads(s.store.procs[q]) ==> s.store.procs[q].id != id
  }

  lemma OthersAreUnmoved(s: State, t: State, p: M.Pid, id: Id, other: Id)
    requires Linked(s) && Ends(s, t, p, id) && other in s.link && other != id
    ensures t.store.fate[other] == s.store.fate[other] && Upload(t, other) == Upload(s, other)
  {
  }

  lemma EndKeepsTied(env: Env, s: State, t: State, p: M.Pid, id: Id)
    requires Tied(env, s) && Ends(s, t, p, id) && Alone(s, p, id) && Agrees(env, t.store.fate[id], Upload(t, id))
    ensures Tied(env, t)
  {
    hide Agrees, Entitles;
    forall other | other in t.link
      ensures Agrees(env, t.store.fate[other], Upload(t, other))
    {
      if other != id {
        OthersAreUnmoved(s, t, p, id, other);
      }
    }
    forall i | 0 <= i < |t.books.uploads| && t.books.uploads[i].Stored?
      ensures i in t.link.Values
    {
      assert s.link[id] in t.link.Values;
    }
    forall q | q in t.store.procs
      ensures IsBacked(env, t, t.store.procs[q])
    {
      assert q in s.store.procs && t.store.procs[q] == s.store.procs[q] && IsBacked(env, s, s.store.procs[q]);
      if P.Uploads(s.store.procs[q]) {
        OthersAreUnmoved(s, t, p, id, s.store.procs[q].id);
      }
    }
  }

  lemma CommitKeepsTied(env: Env, s: State, p: M.Pid, t: State)
    requires Tied(env, s) && Sides(env, s) && Apply(env, s, Commit(p)) == Some(t)
    ensures Tied(env, t)
  {
    CommitAgrees(env, s, p, t);
    WorksAlone(env, s, p);
    hide M.Apply, R.Apply, Sides, Tied, Agrees;
    EndKeepsTied(env, s, t, p, s.store.procs[p].id);
  }

  /** No other ingestion is at work for the id of an ingestion. */
  lemma WorksAlone(env: Env, s: State, p: M.Pid)
    requires F.Sane(env.store, s.store) && p in s.store.procs && !P.Bystands(s.store.procs[p])
    ensures Alone(s, p, s.store.procs[p].id)
    ensures var id := s.store.procs[p].id; id in s.store.fate && !s.store.fate[id].Committed?
  {
    ActorIsSane(env.store, s.store, p);
    forall q | q in s.store.procs && q != p && P.Uploads(s.store.procs[q])
      ensures s.store.procs[q].id != s.store.procs[p].id
    {
      ActorIsSane(env.store, s.store, q);
    }
  }

  lemma PerishKeepsTied(env: Env, s: State, p: M.Pid, t: State)
    requires Tied(env, s) && Sides(env, s) && Apply(env, s, Perish(p)) == Some(t)
    ensures Tied(env, t)
  {
    WorksAlone(env, s, p);
    PerishLoses(env, s, p, t);
    var id := s.store.procs[p].id;
    assert Agrees(env, s.store.fate[id], Upload(s, id));
    hide R.Apply, Sides, Tied;
    EndKeepsTied(env, s, t, p, id);
  }

  lemma PerishLoses(env: Env, s: State, p: M.Pid, t: State)
    requires Tied(env, s) && Apply(env, s, Perish(p)) == Some(t)
    ensures var id := s.store.procs[p].id;
            && t.store.fate == s.store.fate && Ends(s, t, p, id)
            && (Upload(t, id) == Upload(s, id) || (Upload(s, id).Held? && Upload(t, id).Lost?))
  {
    hide IsBacked, Agrees;
  }

  // ---- runs -----------------------------------------------------------------------------------

  lemma ApplyKeepsTied(env: Env, s: State, e: Event, t: State)
    requires Tied(env, s) && Sides(env, s) && env.store.freshIds && Apply(env, s, e) == Some(t)
    ensures Tied(env, t)
  {
    hide Tied, F.Sane, Apply;
    match e
    case Around(a) => AroundKeepsTied(env, s, a, t);
    case Beside(_) => BesideKeepsTied(env, s, e, t);
    case Leave(_) => BesideKeepsTied(env, s, e, t);
    case Begin(_, _, _, _, _, _) => BeginKeepsTied(env, s, e, t);
    case Commit(p) => CommitKeepsTied(env, s, p, t);
    case Perish(p) => PerishKeepsTied(env, s, p, t);
  }

  lemma SidesHold(env: Env, s: State)
    requires env.store.freshIds && M.Reachable(env.store, s.store) && R.Reachable(env.books, s.books)
    ensures Sides(env, s)
  {
    hide F.Sane, P.Kept, R.UploadsOk, M.Apply, R.Apply, P.Recorded;
    F.ReachableIsSane(env.store, s.store);
    P.ReachableKeepsPromises(env.store, s.store);
    var events :| R.Run(env.books, events) == Some(s.books);
    R.RunKeepsUploads(env.books, events, s.books);
  }

  lemma {:induction false} RunKeepsTied(env: Env, events: seq<Event>, s: State)
    requires env.store.freshIds && Run(env, events) == Some(s)
    ensures Tied(env, s)
    decreases |events|
  {
    hide Tied, Apply, Sides;
    if events == [] {
      StartIsTied(env);
    } else {
      var n := |events| - 1;
      var before := Run(env, events[..n]).value;
      RunKeepsTied(env, events[..n], before);
      SidesAreReachable(env, events[..n], before);
      SidesHold(env, before);
      ApplyKeepsTied(env, before, events[n], s);
    }
  }

  lemma StartIsTied(env: Env)
    ensures Tied(env, START)
  {
  }

  // ---- the settlement -------------------------------------------------------------------------

  /** The bodies committed so far. */
  function Bodies(fate: map<Id, M.Fate>): map<Id, Octets>
  {
    map id | id in fate && fate[id].Committed? :: fate[id].body
  }

  predicate IsPaidFrom(s: State, id: Id, a: R.Account)
  {
    && id in s.link && s.link[id] < |s.books.uploads| && id in s.store.fate && s.store.fate[id].Committed?
    && Upload(s, id).Stored? && Upload(s, id).account == a
  }

  /** The committed chunks that were charged to an account. */
  function PaidFrom(s: State, a: R.Account): set<Id>
  {
    set id | id in s.link && IsPaidFrom(s, id, a)
  }

  /** Those of them that belong to the first n uploads. */
  function PaidUpTo(s: State, a: R.Account, n: nat): set<Id>
  {
    set id | id in PaidFrom(s, a) && s.link[id] < n
  }

  lemma PaidIsCommitted(s: State, a: R.Account, n: nat)
    ensures PaidUpTo(s, a, n) <= PaidFrom(s, a) && PaidUpTo(s, a, n) <= Bodies(s.store.fate).Keys
  {
  }

  lemma PaidOneMore(s: State, a: R.Account, n: nat, id: Id)
    requires Linked(s) && IsPaidFrom(s, id, a) && s.link[id] == n
    ensures PaidUpTo(s, a, n + 1) == PaidUpTo(s, a, n) + {id} && id !in PaidUpTo(s, a, n) && id in PaidFrom(s, a)
  {
    hide Bodies;
    forall other | other in PaidUpTo(s, a, n + 1)
      ensures other in PaidUpTo(s, a, n) + {id}
    {
      if s.link[other] == n {
        assert other == id;
      }
    }
  }

  lemma PaidNoMore(s: State, a: R.Account, n: nat)
    requires n < |s.books.uploads| && !(s.books.uploads[n].Stored? && s.books.uploads[n].account == a)
    ensures PaidUpTo(s, a, n + 1) == PaidUpTo(s, a, n)
  {
    hide Bodies;
    forall id | id in PaidUpTo(s, a, n + 1)
      ensures id in PaidUpTo(s, a, n)
    {
      assert IsPaidFrom(s, id, a);
    }
  }

  /** A stored upload has its committed chunk. */
  lemma ItsChunk(env: Env, s: State, n: nat) returns (id: Id)
    requires Tied(env, s) && n < |s.books.uploads| && s.books.uploads[n].Stored?
    ensures id in s.link && s.link[id] == n && IsPaidFrom(s, id, s.books.uploads[n].account)
    ensures s.books.uploads[n].size == |s.store.fate[id].body|
  {
    hide Entitles, IsBacked;
    assert n in s.link.Values;
    id :| id in s.link && s.link[id] == n;
    assert Agrees(env, s.store.fate[id], Upload(s, id));
  }

  lemma OneMoreUpload(env: Env, s: State, a: R.Account, n: nat)
    requires Tied(env, s) && n < |s.books.uploads|
    ensures var bodies, u := Bodies(s.store.fate), s.books.uploads[n];
            S.Footprint(PaidUpTo(s, a, n + 1), bodies) == S.Footprint(PaidUpTo(s, a, n), bodies)
              + R.Weight(u, R.StoredOn(a))
  {
    hide S.Footprint, PaidFrom, PaidUpTo;
    PaidIsCommitted(s, a, n);
    var u, bodies := s.books.uploads[n], Bodies(s.store.fate);
    if u.Stored? && u.account == a {
      var id := ItsChunk(env, s, n);
      hide Tied, Linked, IsPaidFrom;
      LinksHold(env, s);
      PaidOneMore(s, a, n, id);
      S.FootprintWith(PaidUpTo(s, a, n), id, bodies);
    } else {
      PaidNoMore(s, a, n);
    }
  }

  lemma LinksHold(env: Env, s: State)
    requires Tied(env, s)
    ensures Linked(s)
  {
  }

  /** The octets committed under an account are those that its stored uploads were charged for. */
  lemma {:induction false} CommittedIsStored(env: Env, s: State, a: R.Account, n: nat)
    requires Tied(env, s) && n <= |s.books.uploads|
    ensures S.Footprint(PaidUpTo(s, a, n), Bodies(s.store.fate)) == R.Sum(s.books.uploads[..n], R.StoredOn(a))
  {
    hide Tied, S.Footprint, R.Weight, Bodies, PaidFrom;
    if n == 0 {
      NothingIsPaid(s, a);
    } else {
      CommittedIsStored(env, s, a, n - 1);
      OneMoreUpload(env, s, a, n - 1);
      R.SumOneMore(s.books.uploads[..n - 1], s.books.uploads[n - 1], R.StoredOn(a));
      assert s.books.uploads[..n] == s.books.uploads[..n - 1] + [s.books.uploads[n - 1]];
    }
  }

  lemma NothingIsPaid(s: State, a: R.Account)
    ensures S.Footprint(PaidUpTo(s, a, 0), Bodies(s.store.fate)) == 0
  {
    assert PaidUpTo(s, a, 0) == {};
  }

  lemma AllIsPaid(env: Env, s: State, a: R.Account)
    requires Tied(env, s)
    ensures PaidUpTo(s, a, |s.books.uploads|) == PaidFrom(s, a)
  {
  }

  lemma ReachableIsTied(env: Env, s: State)
    requires env.store.freshIds && Reachable(env, s)
    ensures Tied(env, s) && M.Reachable(env.store, s.store) && R.Reachable(env.books, s.books)
  {
    hide Tied, Apply, M.Reachable, R.Reachable;
    var events :| Run(env, events) == Some(s);
    RunKeepsTied(env, events, s);
    SidesAreReachable(env, events, s);
  }

  /** Every committed chunk of a metered key was charged to a counter of that key, for exactly its length. */
  lemma CommittedIsCharged(env: Env, s: State, id: Id)
    requires env.store.freshIds && Reachable(env, s) && id in s.store.fate && s.store.fate[id].Committed?
    requires env.books.limitOf(s.store.fate[id].meta.owner) > 0
    ensures exists day ::
              && IsPaidFrom(s, id, R.AccountOf(s.store.fate[id].meta.owner, day))
              && Upload(s, id).size == |s.store.fate[id].body|
  {
    hide Reachable;
    ReachableIsTied(env, s);
    assert Agrees(env, s.store.fate[id], Upload(s, id));
    assert IsPaidFrom(s, id, R.AccountOf(s.store.fate[id].meta.owner, Upload(s, id).account.day));
  }

  /**
   * However uploads, sweeps, deletes, crashes, refunds and midnights interleave: what is committed under an
   * account is exactly what its stored uploads were charged, so it is within the counter plus the refunds that
   * strayed there, and within the limit plus those. While the day does not change it is within the limit, and
   * the counter is what is committed, in flight or lost.
   */
  lemma CommittedIsPaidFor(env: Env, s: State, a: R.Account, cap: nat)
    requires env.store.freshIds && env.books.NoOverflow() && R.Caps(env.books, a, cap) && Reachable(env, s)
    ensures var committed, counter := S.Footprint(PaidFrom(s, a), Bodies(s.store.fate)), R.Counter(s.books, a);
            && committed == R.Sum(s.books.uploads, R.StoredOn(a))
            && committed <= counter + A.Strays(s.books, a) <= cap + A.Strays(s.books, a)
            && (env.books.clock.Stopped? ==>
                  counter <= cap && counter == committed + R.Sum(s.books.uploads, R.HeldOn(a))
                    + R.Sum(s.books.uploads, R.LostOn(a)))
  {
    hide Reachable, Tied, S.Footprint, R.Reachable, R.Sum, R.Caps, Bodies, PaidFrom, M.Reachable;
    ReachableIsTied(env, s);
    AllIsPaid(env, s, a);
    CommittedIsStored(env, s, a, |s.books.uploads|);
    assert s.books.uploads[..|s.books.uploads|] == s.books.uploads;
    A.Conservation(env.books, s.books, a);
    A.AcrossMidnight(env.books, s.books, a, cap);
  }

  /** What is on disk of the chunks charged to an account is no more than what was committed. */
  lemma OnDiskIsCommitted(env: Env, s: State, a: R.Account)
    requires env.store.freshIds && Reachable(env, s)
    ensures var blobs, bodies := s.store.disk.blobs, Bodies(s.store.fate);
            S.Footprint(PaidFrom(s, a) * blobs.Keys, blobs) <= S.Footprint(PaidFrom(s, a), bodies)
  {
    hide Reachable, S.Footprint, M.Reachable, R.Reachable;
    ReachableIsTied(env, s);
    F.ReachableIsSane(env.store, s.store);
    var blobs, bodies := s.store.disk.blobs, Bodies(s.store.fate);
    var ids := PaidFrom(s, a) * blobs.Keys;
    forall id | id in ids
      ensures id in bodies && bodies[id] == blobs[id]
    {
      assert F.IdOk(env.store, id, F.ViewOf(s.store, id));
    }
    S.FootprintFrame(ids, blobs, bodies);
    S.FootprintSplits(PaidFrom(s, a), ids, bodies);
  }
}

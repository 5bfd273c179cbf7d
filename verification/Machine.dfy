/**
 * The chunk store under concurrency. Any number of uploads, API deletes, sweeps and downloads take one
 * file operation at a time in any order, and any of them may stop for good after any step.
 */
module Machine {
  import opened Text
  import opened Disk
  import ByteRange
  import Keys
  import Transfer

  type Pid = nat

  /**
   * What a run takes for granted. Each flag rules out one thing the world might do; the size limit and
   * the digest are the configuration.
   */
  datatype Env = Env(
    freshIds: bool,       // an id is never drawn twice
    wholeSidecars: bool,  // a sidecar becomes visible in one step
    timelyRename: bool,   // a blob is renamed into place before its own expiry
    pairedRemoval: bool,  // a directory that refuses to drop a blob refuses to drop its sidecar
    steadyClock: bool,    // the clock never runs backwards
    faithfulReads: bool,  // a stat or read fails only for a file that is not there
    maxChunkSize: nat,
    hash: Octets -> Octets)
  {
    /** What it takes for a sweep to mean what it does. */
    predicate Prudent()
    {
      freshIds && wholeSidecars && steadyClock && faithfulReads
    }

    predicate Sound()
    {
      freshIds && wholeSidecars && timelyRename && pairedRemoval && steadyClock && faithfulReads
    }
  }

  // ---- processes ------------------------------------------------------------------------------

  /** On whose behalf Store.Delete runs. */
  datatype Caller =
    | ByOwner(key: Octets)
    | BySweep(now: nat, todo: seq<Id>, deleted: nat, budget: nat)

  /** Where in Store.Delete a call stands. */
  datatype Point =
    | StatBlob
    | StatMeta(sawBlob: bool)
    | DropBlob(sawBlob: bool, sawMeta: bool)
    | DropMeta(sawMeta: bool, blobGone: bool, refused: bool)

  datatype Proc =
    // Store.Ingest
    | Receiving(id: Id, owner: Octets, ttl: nat, declared: nat, written: Octets)
    | Stamping(id: Id, owner: Octets, ttl: nat, written: Octets)
    | Describing(id: Id, meta: ChunkMeta, written: Octets)
    | HalfDescribed(id: Id, meta: ChunkMeta, written: Octets)
    | Renaming(id: Id, meta: ChunkMeta, written: Octets)
    | Retracting(id: Id)
    | Discarding(id: Id)
    // handleDelete
    | DeleteReads(id: Id, key: Octets)
    | DeleteStats(id: Id, key: Octets, meta: ChunkMeta)
    | Deleting(id: Id, caller: Caller, point: Point)
    | ExistsBlob(id: Id)
    | ExistsMeta(id: Id)
    // Gc.Sweep
    | Listing(now: nat, todo: seq<Id>, budget: nat)
    | Scanning(now: nat, todo: seq<Id>, deleted: nat, budget: nat)
    | Reaping(now: nat)
    | ReapingOne(now: nat, id: Id)
    // handleDownload
    | GetReads(id: Id, range: Octets)
    | GetStats(id: Id, range: Octets, meta: ChunkMeta)
    | Opening(id: Id, range: Octets, span: ByteRange.Span)
    | Sending(id: Id, range: Octets, span: ByteRange.Span, file: Octets, sent: Octets)
    | Sent(id: Id, range: Octets, span: ByteRange.Span, sent: Octets)

  /** The history of one id: being written, described by a sidecar, committed, or given up. */
  datatype Fate =
    | Writing(pid: Pid)
    | Announced(pid: Pid, meta: ChunkMeta)
    | Committed(body: Octets, meta: ChunkMeta)
    | Dead

  /** What a sweep tells the expiry hook when it is done with the chunks, and what it was allowed. */
  datatype Report = Report(deleted: nat, budget: nat)

  /**
   * The disk, the clock in nanoseconds and the running processes; and histories no process reads: the
   * fate of every id drawn and the length declared for it, every body ever committed under an id, the ids
   * whose Delete returned true, the ids answered with a 204, and what sweeps have reported.
   */
  datatype State = State(
    disk: Disk, clock: nat, procs: map<Pid, Proc>,
    fate: map<Id, Fate>, promised: map<Id, nat>, stored: set<(Id, Octets)>,
    reclaimed: multiset<Id>, gone: set<Id>, reports: seq<Report>)

  const START: State := State(BLANK, 0, map[], map[], map[], {}, multiset{}, {}, [])

  // ---- events ---------------------------------------------------------------------------------

  datatype Event =
    | Tick(to: nat)
    | Crash(p: Pid)
    | StartIngest(p: Pid, id: Id, owner: Octets, ttl: nat, declared: nat)
    | StartDelete(p: Pid, id: Id, raw: map<Octets, Keys.RawKey>, presented: Octets, key: Octets)
    | StartSweep(p: Pid, budget: nat)
    | StartGet(p: Pid, id: Id, range: Octets)
    | Arrive(p: Pid, slice: Octets)  // the next read of a request body
    | Find(p: Pid, id: Id)           // a directory listing comes to a file
    | Fetch(p: Pid, n: nat)          // the next ReadAt of a download
    | Do(p: Pid, ok: bool)           // the process's next operation, and whether it succeeds

  function Become(s: State, p: Pid, proc: Proc): State
  {
    s.(procs := s.procs[p := proc])
  }

  function Exit(s: State, p: Pid): State
  {
    s.(procs := s.procs - {p})
  }

  function Mark(s: State, id: Id, fate: Fate): State
  {
    s.(fate := s.fate[id := fate])
  }

  function PutTemp(s: State, id: Id, temp: Temp): State
  {
    s.(disk := s.disk.(temps := s.disk.temps[id := temp]))
  }

  function DropTemp(s: State, id: Id): State
  {
    s.(disk := s.disk.(temps := s.disk.temps - {id}))
  }

  function PutSidecar(s: State, id: Id, sidecar: Sidecar): State
  {
    s.(disk := s.disk.(sidecars := s.disk.sidecars[id := sidecar]))
  }

  function DropSidecar(s: State, id: Id): State
  {
    s.(disk := s.disk.(sidecars := s.disk.sidecars - {id}))
  }

  function DropTheBlob(s: State, id: Id): State
  {
    s.(disk := s.disk.(blobs := s.disk.blobs - {id}))
  }

  /** A successful rename: the temporary file becomes the blob. */
  function Promote(s: State, id: Id): State
    requires id in s.disk.temps
  {
    s.(disk := s.disk.(blobs := s.disk.blobs[id := s.disk.temps[id].body], temps := s.disk.temps - {id}))
  }

  // ---- Store.Ingest ---------------------------------------------------------------------------

  /** A failed upload: the temporary file is still to be removed. */
  function GiveUp(s: State, p: Pid, id: Id): State
  {
    Become(Mark(s, id, Dead), p, Discarding(id))
  }

  function Receive(env: Env, s: State, p: Pid, proc: Proc, slice: Octets): State
    requires proc.Receiving?
  {
    var Receiving(id, owner, ttl, declared, written) := proc;
    if |written| + |slice| > env.maxChunkSize then GiveUp(s, p, id)
    else
      var t := if id in s.disk.temps then PutTemp(s, id, Temp(s.disk.temps[id].body + slice, s.clock)) else s;
      Become(t, p, Receiving(id, owner, ttl, declared, written + slice))
  }

  function Describe(env: Env, id: Id, owner: Octets, ttl: nat, written: Octets, now: nat): ChunkMeta
  {
    ChunkMeta(id, |written|, env.hash(written), owner, Unix(now), Unix(now + ttl))
  }

  function Ingest(env: Env, s: State, p: Pid, proc: Proc, ok: bool): Option<State>
  {
    match proc
    case Receiving(id, owner, ttl, declared, written) =>
      if !ok || |written| == 0 || |written| != declared then Some(GiveUp(s, p, id))
      else Some(Become(s, p, Stamping(id, owner, ttl, written)))
    case Stamping(id, owner, ttl, written) =>
      Some(Become(s, p, Describing(id, Describe(env, id, owner, ttl, written, s.clock), written)))
    case Describing(id, meta, written) =>
      if !ok then Some(GiveUp(s, p, id))
      else if env.wholeSidecars then
        Some(Become(Mark(PutSidecar(s, id, Readable(meta)), id, Announced(p, meta)), p, Renaming(id, meta, written)))
      else
        Some(Become(Mark(PutSidecar(s, id, Torn), id, Announced(p, meta)), p, HalfDescribed(id, meta, written)))
    case HalfDescribed(id, meta, written) =>
      if !ok then Some(GiveUp(s, p, id))
      else
        var t := if id in s.disk.sidecars then PutSidecar(s, id, Readable(meta)) else s;
        Some(Become(t, p, Renaming(id, meta, written)))
    case Renaming(id, meta, written) =>
      if !ok || id !in s.disk.temps then Some(Become(Mark(s, id, Dead), p, Retracting(id)))
      else if env.timelyRename && meta.ExpiredAt(s.clock) then None
      else
        var body := s.disk.temps[id].body;
        var t := Promote(s, id).(stored := s.stored + {(id, body)});
        Some(Exit(Mark(t, id, Committed(body, meta)), p))
    case Retracting(id) =>
      Some(Become(if ok then DropSidecar(s, id) else s, p, Discarding(id)))
    case Discarding(id) =>
      Some(Exit(if ok then DropTemp(s, id) else s, p))
    case _ => None
  }

  // ---- Store.Delete and handleDelete ----------------------------------------------------------

  /** What a stat reports: a file that is there is seen unless the stat fails, which counts as absence. */
  predicate MayStat(env: Env, there: bool, ok: bool)
  {
    env.faithfulReads && there ==> ok
  }

  /** Store.Delete returns: a sweep counts and goes on; a handler answers 204, or asks whether the chunk exists. */
  function Return(s: State, p: Pid, id: Id, caller: Caller, deleted: bool): State
  {
    var t := if deleted then s.(reclaimed := s.reclaimed + multiset{id}) else s;
    match caller
    case ByOwner(key) => if deleted then Exit(t.(gone := t.gone + {id}), p) else Become(t, p, ExistsBlob(id))
    case BySweep(now, todo, count, budget) =>
      Become(t, p, Scanning(now, todo, if deleted then count + 1 else count, budget))
  }

  function Delete(env: Env, s: State, p: Pid, proc: Proc, ok: bool): Option<State>
    requires proc.Deleting?
  {
    var Deleting(id, caller, point) := proc;
    var blobThere, metaThere := id in s.disk.blobs, id in s.disk.sidecars;
    match point
    case StatBlob =>
      if !MayStat(env, blobThere, ok) then None
      else Some(Become(s, p, Deleting(id, caller, StatMeta(blobThere && ok))))
    case StatMeta(sawBlob) =>
      if !MayStat(env, metaThere, ok) then None
      else if !sawBlob && !(metaThere && ok) then Some(Return(s, p, id, caller, false))
      else Some(Become(s, p, Deleting(id, caller, DropBlob(sawBlob, metaThere && ok))))
    case DropBlob(sawBlob, sawMeta) =>
      if !sawBlob then Some(Become(s, p, Deleting(id, caller, DropMeta(sawMeta, true, false))))
      else if blobThere && ok then Some(Become(DropTheBlob(s, id), p,
        Deleting(id, caller, DropMeta(sawMeta, true, false))))
      else Some(Become(s, p, Deleting(id, caller, DropMeta(sawMeta, false, !ok))))
    case DropMeta(sawMeta, blobGone, refused) =>
      if !sawMeta then Some(Return(s, p, id, caller, blobGone))
      else if env.pairedRemoval && refused && ok then None
      else if metaThere && ok then Some(Return(DropSidecar(s, id), p, id, caller, blobGone))
      else Some(Return(s, p, id, caller, false))
  }

  /** Processes of handleDelete outside Store.Delete, and downloads past their opening. */
  predicate Answers(proc: Proc)
  {
    || proc.DeleteReads? || proc.DeleteStats? || proc.ExistsBlob? || proc.ExistsMeta?
    || proc.Sending? || proc.Sent?
  }

  function HandleDelete(env: Env, s: State, p: Pid, proc: Proc, ok: bool): Option<State>
  {
    match proc
    case DeleteReads(id, key) =>
      if ok && LiveSidecar(s.disk, id, s.clock) then Some(Become(s, p, DeleteStats(id, key, s.disk.sidecars[id].meta)))
      else Some(Exit(s, p))
    case DeleteStats(id, key, meta) =>
      if ok && id in s.disk.blobs && meta.owner == key then Some(Become(s, p, Deleting(id, ByOwner(key), StatBlob)))
      else Some(Exit(s, p))
    case ExistsBlob(id) =>
      var there := id in s.disk.blobs;
      if !MayStat(env, there, ok) then None
      else if there && ok then Some(Exit(s, p))
      else Some(Become(s, p, ExistsMeta(id)))
    case ExistsMeta(id) =>
      var there := id in s.disk.sidecars;
      if !MayStat(env, there, ok) then None
      else if there && ok then Some(Exit(s, p))
      else Some(Exit(s.(gone := s.gone + {id}), p))
    case _ => None
  }

  // ---- Gc.Sweep -------------------------------------------------------------------------------

  function Sweep(env: Env, s: State, p: Pid, proc: Proc, ok: bool): Option<State>
  {
    match proc
    case Listing(now, todo, budget) =>
      Some(Become(s, p, Scanning(now, todo, 0, budget)))
    case Scanning(now, todo, deleted, budget) =>
      if todo == [] || deleted >= budget then
        Some(Become(s.(reports := s.reports + [Report(deleted, budget)]), p, Reaping(now)))
      else if !MayStat(env, todo[0] in s.disk.sidecars, ok) then None
      else if ok && !Reclaimable(s.disk, todo[0], now)
        then Some(Become(s, p, Scanning(now, todo[1..], deleted, budget)))
      else Some(Become(s, p, Deleting(todo[0], BySweep(now, todo[1..], deleted, budget), StatBlob)))
    case Reaping(now) =>
      Some(Exit(s, p))
    case ReapingOne(now, id) =>
      Some(Become(if ok then DropTemp(s, id) else s, p, Reaping(now)))
    case _ => None
  }

  // ---- handleDownload -------------------------------------------------------------------------

  /** The span a Range header makes of an entity, or None when nothing is to be sent. */
  function Asked(range: Octets, size: nat): (span: Option<ByteRange.Span>)
    ensures span.Some? ==> span.value.from <= span.value.to < size
  {
    hide ByteRange.ParseByteRange;
    match ByteRange.ParseByteRange(range, size)
    case Unsatisfiable => None
    case Satisfiable(span) => Some(span)
    case Whole => if size == 0 then None else Some(ByteRange.Span(0, size - 1))
  }

  function Download(s: State, p: Pid, proc: Proc, ok: bool): Option<State>
  {
    match proc
    case GetReads(id, range) =>
      if ok && LiveSidecar(s.disk, id, s.clock) then Some(Become(s, p, GetStats(id, range, s.disk.sidecars[id].meta)))
      else Some(Exit(s, p))
    case GetStats(id, range, meta) =>
      if !ok || id !in s.disk.blobs || Asked(range, meta.size).None? then Some(Exit(s, p))
      else Some(Become(s, p, Opening(id, range, Asked(range, meta.size).value)))
    case Opening(id, range, span) =>
      if !ok || id !in s.disk.blobs then Some(Exit(s, p))
      else Some(Become(s, p, Sending(id, range, span, s.disk.blobs[id], [])))
    case _ => None
  }

  /** One turn of streamRange: a short read with octets still owed drops the connection. */
  function Send(s: State, p: Pid, proc: Proc, n: nat): Option<State>
    requires proc.Sending?
  {
    var Sending(id, range, span, file, sent) := proc;
    var offset := span.from + |sent|;
    if offset > span.to then None
    else
      var size := Min(Transfer.DOWNLOAD_SLICE, span.to + 1 - offset);
      var available := if offset < |file| then |file| - offset else 0;
      var got := Min(size, Min(available, n));
      var total := if got == 0 then sent else sent + file[offset..offset + got];
      if got < size then Some(Exit(s, p))
      else if offset + got == span.to + 1 then Some(Become(s, p, Sent(id, range, span, total)))
      else Some(Become(s, p, Sending(id, range, span, file, total)))
  }

  // ---- one event, and a run of them -----------------------------------------------------------

  function Advance(env: Env, s: State, p: Pid, ok: bool): Option<State>
    requires p in s.procs
  {
    var proc := s.procs[p];
    match proc
    case Deleting(_, _, _) => Delete(env, s, p, proc, ok)
    case Receiving(_, _, _, _, _) => Ingest(env, s, p, proc, ok)
    case Stamping(_, _, _, _) => Ingest(env, s, p, proc, ok)
    case Describing(_, _, _) => Ingest(env, s, p, proc, ok)
    case HalfDescribed(_, _, _) => Ingest(env, s, p, proc, ok)
    case Renaming(_, _, _) => Ingest(env, s, p, proc, ok)
    case Retracting(_) => Ingest(env, s, p, proc, ok)
    case Discarding(_) => Ingest(env, s, p, proc, ok)
    case Listing(_, _, _) => Sweep(env, s, p, proc, ok)
    case Scanning(_, _, _, _) => Sweep(env, s, p, proc, ok)
    case Reaping(_) => Sweep(env, s, p, proc, ok)
    case ReapingOne(_, _) => Sweep(env, s, p, proc, ok)
    case GetReads(_, _) => Download(s, p, proc, ok)
    case GetStats(_, _, _) => Download(s, p, proc, ok)
    case Opening(_, _, _) => Download(s, p, proc, ok)
    case _ => HandleDelete(env, s, p, proc, ok)
  }

  /** The state an event leads to, or None when it cannot happen or the environment rules it out. */
  ghost function Apply(env: Env, s: State, e: Event): Option<State>
  {
    match e
    case Tick(to) =>
      if env.steadyClock && to < s.clock then None else Some(s.(clock := to))
    case Crash(p) =>
      if p in s.procs then Some(Exit(s, p)) else None
    case StartIngest(p, id, owner, ttl, declared) =>
      if p in s.procs || !IsValidId(id) || id in s.disk.temps || declared > env.maxChunkSize then None
      else if env.freshIds && id in s.fate then None
      else
        var t := Mark(PutTemp(s, id, Temp([], s.clock)), id, Writing(p));
        Some(Become(t.(promised := t.promised[id := declared]), p, Receiving(id, owner, ttl, declared, [])))
    case StartDelete(p, id, raw, presented, key) =>
      if p in s.procs || !IsValidId(id) || !Keys.Greatest(raw, presented, key) then None
      else Some(Become(s, p, DeleteReads(id, key)))
    case StartSweep(p, budget) =>
      if p in s.procs then None else Some(Become(s, p, Listing(s.clock, [], budget)))
    case StartGet(p, id, range) =>
      if p in s.procs || !IsValidId(id) then None else Some(Become(s, p, GetReads(id, range)))
    case Arrive(p, slice) =>
      if p in s.procs && s.procs[p].Receiving? then Some(Receive(env, s, p, s.procs[p], slice)) else None
    case Find(p, id) =>
      if p !in s.procs then None
      else if s.procs[p].Listing? && id in s.disk.sidecars && IsValidId(id) then
        Some(Become(s, p, Listing(s.procs[p].now, s.procs[p].todo + [id], s.procs[p].budget)))
      else if s.procs[p].Reaping? && id in s.disk.temps && s.disk.temps[id].StaleAt(s.procs[p].now) then
        Some(Become(s, p, ReapingOne(s.procs[p].now, id)))
      else None
    case Fetch(p, n) =>
      if p in s.procs && s.procs[p].Sending? then Send(s, p, s.procs[p], n) else None
    case Do(p, ok) =>
      if p in s.procs then Advance(env, s, p, ok) else None
  }

  ghost function Run(env: Env, s: State, events: seq<Event>): Option<State>
    decreases |events|
  {
    if events == [] then Some(s)
    else
      var next := Apply(env, s, events[0]);
      if next.None? then None else Run(env, next.value, events[1..])
  }

  /** Some run leads from s to t. */
  ghost predicate Leads(env: Env, s: State, t: State)
  {
    exists events :: Run(env, s, events) == Some(t)
  }

  ghost predicate Reachable(env: Env, s: State)
  {
    Leads(env, START, s)
  }
}

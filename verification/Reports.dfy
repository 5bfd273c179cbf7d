/** What sweeps report: never more than their budgets, nor all of them together more than was ever deleted. */
module Reports {
  import opened Text
  import opened Disk
  import opened Machine
  import Keys
  import Once

  function Total(reports: seq<Report>): nat
  {
    if reports == [] then 0 else Total(reports[..|reports| - 1]) + reports[|reports| - 1].deleted
  }

  /** What a sweep under way has counted so far. */
  function Count(proc: Proc): nat
  {
    if proc.Scanning? then proc.deleted
    else if proc.Deleting? && proc.caller.BySweep? then proc.caller.deleted
    else 0
  }

  function CountAt(procs: map<Pid, Proc>, p: Pid): nat
  {
    if p in procs then Count(procs[p]) else 0
  }

  ghost function Underway(procs: map<Pid, Proc>): nat
  {
    if procs == map[] then 0 else var p :| p in procs; Count(procs[p]) + Underway(procs - {p})
  }

  lemma {:induction false} UnderwayWithout(procs: map<Pid, Proc>, p: Pid)
    ensures Underway(procs) == CountAt(procs, p) + Underway(procs - {p})
    decreases |procs|
  {
    hide Count;
    if p !in procs {
      assert procs - {p} == procs;
    } else {
      var first :| first in procs && Underway(procs) == Count(procs[first]) + Underway(procs - {first});
      if first != p {
        UnderwayWithout(procs - {first}, p);
        UnderwayWithout(procs - {p}, first);
        assert procs - {first} - {p} == procs - {p} - {first};
      }
    }
  }

  /** When one process moves, what is under way moves by its count. */
  lemma UnderwayMoves(before: map<Pid, Proc>, after: map<Pid, Proc>, p: Pid)
    requires after - {p} == before - {p}
    ensures Underway(after) + CountAt(before, p) == Underway(before) + CountAt(after, p)
  {
    UnderwayWithout(before, p);
    UnderwayWithout(after, p);
  }

  predicate WithinBudget(proc: Proc)
  {
    && (proc.Scanning? ==> proc.deleted <= proc.budget)
    && (proc.Deleting? && proc.caller.BySweep? ==> proc.caller.deleted < proc.caller.budget)
  }

  ghost predicate Honest(s: State)
  {
    && Total(s.reports) + Underway(s.procs) <= |s.reclaimed|
    && (forall p :: p in s.procs ==> WithinBudget(s.procs[p]))
    && (forall i :: 0 <= i < |s.reports| ==> s.reports[i].deleted <= s.reports[i].budget)
  }

  /** A step that counts and reports no more than it deletes. */
  ghost predicate Fair(s: State, t: State, p: Pid)
  {
    && t.procs - {p} == s.procs - {p}
    && (p in t.procs ==> WithinBudget(t.procs[p]))
    && |t.reclaimed| >= |s.reclaimed|
    && (t.reports == s.reports || (|t.reports| == |s.reports| + 1 && t.reports[..|s.reports|] == s.reports
                                   && t.reports[|s.reports|].deleted <= t.reports[|s.reports|].budget))
    && Total(t.reports) + CountAt(t.procs, p) + |s.reclaimed| <= Total(s.reports) + CountAt(s.procs, p) + |t.reclaimed|
  }

  lemma FairKeepsHonest(s: State, t: State, p: Pid)
    requires Honest(s) && Fair(s, t, p)
    ensures Honest(t)
  {
    hide Count, WithinBudget, Total;
    UnderwayMoves(s.procs, t.procs, p);
    forall q | q in t.procs
      ensures WithinBudget(t.procs[q])
    {
      assert q != p ==> q in t.procs - {p} && q in s.procs - {p} && (t.procs - {p})[q] == (s.procs - {p})[q];
    }
    assert forall i :: 0 <= i < |s.reports| ==> t.reports[i] == t.reports[..|s.reports|][i] || t.reports == s.reports;
  }

  /** A step that neither counts, reports nor deletes. */
  ghost predicate Unrelated(s: State, t: State, p: Pid)
  {
    && t.procs - {p} == s.procs - {p} && t.reports == s.reports && t.reclaimed == s.reclaimed
    && (p in t.procs ==> WithinBudget(t.procs[p])) && CountAt(t.procs, p) <= CountAt(s.procs, p)
  }

  lemma UnrelatedIsFair(s: State, t: State, p: Pid)
    requires Unrelated(s, t, p)
    ensures Fair(s, t, p)
  {
  }

  lemma ReturnIsFair(s: State, p: Pid, id: Id, caller: Caller, deleted: bool)
    requires caller.BySweep? ==> caller.deleted < caller.budget
    requires CountAt(s.procs, p) == if caller.BySweep? then caller.deleted else 0
    ensures Fair(s, Return(s, p, id, caller, deleted), p)
  {
    hide Total;
    assert |s.reclaimed + multiset{id}| == |s.reclaimed| + 1;
  }

  lemma DeleteIsFair(env: Env, s: State, p: Pid, proc: Proc, ok: bool)
    requires p in s.procs && s.procs[p] == proc && proc.Deleting? && WithinBudget(proc)
        && Delete(env, s, p, proc, ok).Some?
    ensures Fair(s, Delete(env, s, p, proc, ok).value, p)
  {
    hide Return, MayStat, Total, Fair;
    if proc.point.DropMeta? {
      LastStepIsFair(env, s, p, proc, ok);
    } else {
      ReturnIsFair(s, p, proc.id, proc.caller, false);
      if proc.point.StatBlob? || proc.point.DropBlob? || proc.point.sawBlob || (proc.id in s.disk.sidecars && ok) {
        EarlyStepIsUnrelated(env, s, p, proc, ok);
        UnrelatedIsFair(s, Delete(env, s, p, proc, ok).value, p);
      }
    }
  }

  lemma EarlyStepIsUnrelated(env: Env, s: State, p: Pid, proc: Proc, ok: bool)
    requires p in s.procs && s.procs[p] == proc && proc.Deleting? && WithinBudget(proc)
        && Delete(env, s, p, proc, ok).Some?
    requires !proc.point.DropMeta?
    requires proc.point.StatMeta? ==> proc.point.sawBlob || (proc.id in s.disk.sidecars && ok)
    ensures Unrelated(s, Delete(env, s, p, proc, ok).value, p)
  {
    hide Return, MayStat;
  }

  lemma LastStepIsFair(env: Env, s: State, p: Pid, proc: Proc, ok: bool)
    requires p in s.procs && s.procs[p] == proc && proc.Deleting? && WithinBudget(proc)
        && Delete(env, s, p, proc, ok).Some?
    requires proc.point.DropMeta?
    ensures Fair(s, Delete(env, s, p, proc, ok).value, p)
  {
    hide Return, Total;
    var Deleting(id, caller, point) := proc;
    ReturnIsFair(s, p, id, caller, point.blobGone);
    ReturnIsFair(s, p, id, caller, false);
    ReturnIsFair(DropSidecar(s, id), p, id, caller, point.blobGone);
  }

  /** A sweep that is done with the chunks hands its count over to its report. */
  lemma ReportIsFair(env: Env, s: State, p: Pid, proc: Proc, ok: bool)
    requires p in s.procs && s.procs[p] == proc && WithinBudget(proc)
    requires proc.Scanning? && (proc.todo == [] || proc.deleted >= proc.budget)
    ensures Sweep(env, s, p, proc, ok).Some? && Fair(s, Sweep(env, s, p, proc, ok).value, p)
  {
    TotalOneMore(s.reports, Report(proc.deleted, proc.budget));
    hide Total;
  }

  lemma ScanIsUnrelated(env: Env, s: State, p: Pid, proc: Proc, ok: bool)
    requires p in s.procs && s.procs[p] == proc && WithinBudget(proc) && Sweep(env, s, p, proc, ok).Some?
    requires !(proc.Scanning? && (proc.todo == [] || proc.deleted >= proc.budget))
    ensures Unrelated(s, Sweep(env, s, p, proc, ok).value, p)
  {
    hide MayStat, Reclaimable;
  }

  lemma SweepIsFair(env: Env, s: State, p: Pid, proc: Proc, ok: bool)
    requires p in s.procs && s.procs[p] == proc && WithinBudget(proc) && Sweep(env, s, p, proc, ok).Some?
    ensures Fair(s, Sweep(env, s, p, proc, ok).value, p)
  {
    hide Sweep, WithinBudget, Fair, Unrelated;
    if proc.Scanning? && (proc.todo == [] || proc.deleted >= proc.budget) {
      ReportIsFair(env, s, p, proc, ok);
    } else {
      ScanIsUnrelated(env, s, p, proc, ok);
      UnrelatedIsFair(s, Sweep(env, s, p, proc, ok).value, p);
    }
  }

  lemma TotalOneMore(reports: seq<Report>, report: Report)
    ensures Total(reports + [report]) == Total(reports) + report.deleted
  {
    assert (reports + [report])[..|reports|] == reports;
  }

  lemma IngestIsUnrelated(env: Env, s: State, p: Pid, proc: Proc, ok: bool)
    requires Ingest(env, s, p, proc, ok).Some?
    ensures Unrelated(s, Ingest(env, s, p, proc, ok).value, p)
  {
    hide Describe;
  }

  lemma AnswerIsUnrelated(env: Env, s: State, p: Pid, proc: Proc, ok: bool)
    requires HandleDelete(env, s, p, proc, ok).Some?
    ensures Unrelated(s, HandleDelete(env, s, p, proc, ok).value, p)
  {
    hide MayStat;
  }

  lemma DownloadIsUnrelated(s: State, p: Pid, proc: Proc, ok: bool)
    requires Download(s, p, proc, ok).Some?
    ensures Unrelated(s, Download(s, p, proc, ok).value, p)
  {
    hide Asked;
  }

  lemma SendIsUnrelated(s: State, p: Pid, proc: Proc, n: nat)
    requires proc.Sending? && Send(s, p, proc, n).Some?
    ensures Unrelated(s, Send(s, p, proc, n).value, p)
  {
  }

  lemma ReceiveIsUnrelated(env: Env, s: State, p: Pid, proc: Proc, slice: Octets)
    requires proc.Receiving?
    ensures Unrelated(s, Receive(env, s, p, proc, slice), p)
  {
  }

  lemma AdvanceIsFair(env: Env, s: State, p: Pid, ok: bool, t: State)
    requires p in s.procs && WithinBudget(s.procs[p]) && Advance(env, s, p, ok) == Some(t)
    ensures Fair(s, t, p)
  {
    hide Ingest, Delete, HandleDelete, Sweep, Download, Fair, Unrelated, WithinBudget;
    var proc := s.procs[p];
    if proc.Deleting? {
      DeleteIsFair(env, s, p, proc, ok);
    } else if proc.Listing? || proc.Scanning? || proc.Reaping? || proc.ReapingOne? {
      SweepIsFair(env, s, p, proc, ok);
    } else if proc.GetReads? || proc.GetStats? || proc.Opening? {
      DownloadIsUnrelated(s, p, proc, ok);
      UnrelatedIsFair(s, t, p);
    } else if Answers(proc) {
      AnswerIsUnrelated(env, s, p, proc, ok);
      UnrelatedIsFair(s, t, p);
    } else {
      IngestIsUnrelated(env, s, p, proc, ok);
      UnrelatedIsFair(s, t, p);
    }
  }

  lemma OtherIsUnrelated(env: Env, s: State, e: Event, t: State)
    requires !e.Tick? && !e.Do? && Apply(env, s, e) == Some(t)
    ensures Unrelated(s, t, e.p)
  {
    hide Send, Receive, Keys.Greatest, IsValidId;
    if e.Fetch? {
      SendIsUnrelated(s, e.p, s.procs[e.p], e.n);
    } else if e.Arrive? {
      ReceiveIsUnrelated(env, s, e.p, s.procs[e.p], e.slice);
    }
  }

  lemma ApplyKeepsHonest(env: Env, s: State, e: Event, t: State)
    requires Honest(s) && Apply(env, s, e) == Some(t)
    ensures Honest(t)
  {
    hide Advance, Receive, Send, Fair, Unrelated, Underway, Total, WithinBudget, Keys.Greatest;
    match e
    case Tick(_) =>
    case Do(p, ok) =>
      AdvanceIsFair(env, s, p, ok, t);
      FairKeepsHonest(s, t, p);
    case _ =>
      OtherIsUnrelated(env, s, e, t);
      UnrelatedIsFair(s, t, e.p);
      FairKeepsHonest(s, t, e.p);
  }

  lemma {:induction false} RunKeepsHonest(env: Env, s: State, events: seq<Event>, t: State)
    requires Honest(s) && Run(env, s, events) == Some(t)
    ensures Honest(t)
    decreases |events|
  {
    hide Honest, Apply;
    if events != [] {
      var next := Apply(env, s, events[0]).value;
      ApplyKeepsHonest(env, s, events[0], next);
      RunKeepsHonest(env, next, events[1..], t);
    }
  }

  /**
   * However sweeps, handlers and crashes interleave, no sweep reports more than its budget, and what all of
   * them report together is at most the number of deletes that were true. Where a delete is true only once for
   * an id, that is at most the number of ids ever drawn: no chunk is counted twice.
   */
  lemma SweepsNeverOvercount(env: Env, s: State)
    requires Reachable(env, s)
    ensures forall i :: 0 <= i < |s.reports| ==> s.reports[i].deleted <= s.reports[i].budget
    ensures Total(s.reports) <= |s.reclaimed|
    ensures env.Prudent() && env.timelyRename ==> Total(s.reports) <= |s.fate.Keys|
  {
    hide Apply, Underway, Total, WithinBudget;
    var events :| Run(env, START, events) == Some(s);
    NothingCounted();
    RunKeepsHonest(env, START, events, s);
    hide Reachable;
    if env.Prudent() && env.timelyRename {
      Once.DeleteIsTrueOnce(env, s);
    }
  }

  lemma NothingCounted()
    ensures Honest(START)
  {
  }
}

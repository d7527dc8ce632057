/** The legacy runner over any sequence of its operations (runner.go,
  * runner_exec.go), reloads included. */
module RunnerHistory {
  import Model
  import opened History
  import opened RunQueue

  /** `used` records every id ever given to a run. */
  datatype Life = Life(r: Runner, cap: int, used: set<string>)

  datatype Op =
    | Started(id: string, task: string, now: Model.Time)
    | Finished(canceled: bool, exitCode: int, error: Model.Text, now: Model.Time)   // of the active run
    | CancelRequested(id: string, now: Model.Time)
    | Deleted(id: string)
    | CapSet(limit: int)
    | Reloaded(now: Model.Time)

  /** Random ids are new; a reload reads what the last save wrote. */
  function Does(h: Life, op: Op): Life {
    match op
    case Started(id, task, now) =>
      if id == "" || id in h.used then h else h.(r := Start(h.r, id, task, now, h.cap), used := h.used + {id})
    case Finished(canceled, exitCode, error, now) =>
      if h.r.active == "" then h else h.(r := Finish(h.r, h.r.active, canceled, exitCode, error, now, h.cap))
    case CancelRequested(id, now) => h.(r := Cancel(h.r, id, now, h.cap))
    case Deleted(id) => h.(r := Delete(h.r, id, h.cap))
    case CapSet(limit) => h.(r := h.r.(runs := PruneRuns(h.r.runs, limit)), cap := limit)
    case Reloaded(now) => h.(r := Load(h.r.runs, now, h.cap))
  }

  ghost predicate LifeOk(h: Life) {
    RunnerOk(h.r) && Capped(h.r, h.cap) && forall x :: x in h.r.runs ==> x.id in h.used
  }

  /** No run of `after` is new but one with this id. */
  ghost predicate OnlyAdds(before: seq<Run>, after: seq<Run>, id: string) {
    forall y :: y in after && y.id != id ==> Known(before, y)
  }

  // ---- what one operation does to the list ---------------------------------------------------

  lemma PrunedIsKnown(runs: seq<Run>, cap: int)
    ensures forall y :: y in PruneRuns(runs, cap) ==> y in runs && Known(runs, y)
  {
    DropMembers(runs, FinishedRun, Excess(runs, FinishedRun, NormalizeMaxHistory(cap)));
  }

  lemma RewrittenIsKnown(runs: seq<Run>, i: nat, run: Run, cap: int)
    requires i < |runs| && run.id == runs[i].id
    ensures forall y :: y in PruneRuns(runs[i := run], cap) ==> Known(runs, y)
  {
    PrunedIsKnown(runs[i := run], cap);
    hide PruneRuns;
    forall y | y in runs[i := run]
      ensures Known(runs, y)
    {
      var k :| 0 <= k < |runs| && runs[i := run][k] == y;
      assert runs[k] in runs && runs[k].id == y.id;
    }
  }

  lemma QueuedIsUnique(runs: seq<Run>, id: string, task: string, cap: int)
    requires RunQueue.UniqueIds(runs) && id != "" && IndexOf(runs, id) < 0
    ensures RunQueue.UniqueIds(PruneRuns(runs + [Run(id, task, NEW_STATE)], cap))
  {
    var all := runs + [Run(id, task, NEW_STATE)];
    DropUnique(all, Excess(all, FinishedRun, NormalizeMaxHistory(cap)));
  }

  lemma StartedStep(r: Runner, id: string, task: string, now: Model.Time, cap: int)
    requires RunnerOk(r) && id != "" && IndexOf(r.runs, id) < 0
    ensures OnlyAdds(r.runs, Start(r, id, task, now, cap).runs, id)
  {
    var run := Run(id, task, NEW_STATE);
    PrunedIsKnown(r.runs + [run], cap);
    QueuedIsUnique(r.runs, id, task, cap);
    DispatchedAdds(r, run, PruneRuns(r.runs + [run], cap), now, cap);
    hide PruneRuns, Dispatch;
  }

  lemma DispatchedAdds(r: Runner, run: Run, mid: seq<Run>, now: Model.Time, cap: int)
    requires RunQueue.UniqueIds(mid) && forall y :: y in mid ==> y in r.runs + [run]
    ensures OnlyAdds(r.runs, Dispatch(Runner(mid, r.active), now, cap).runs, run.id)
  {
    DispatchKeepsVerdicts(Runner(mid, r.active), now, cap);
    hide Dispatch;
    forall y | y in Dispatch(Runner(mid, r.active), now, cap).runs && y.id != run.id
      ensures Known(r.runs, y)
    {
      var m :| m in mid && m.id == y.id;
      assert m in r.runs;
    }
  }

  lemma FinishedStep(r: Runner, canceled: bool, exitCode: int, error: Model.Text, now: Model.Time, cap: int)
    requires RunnerOk(r) && r.active != ""
    ensures OnlyAdds(r.runs, Finish(r, r.active, canceled, exitCode, error, now, cap).runs, "")
  {
    var i := IndexOf(r.runs, r.active);
    var run := r.runs[i].(state := FinishState(r.runs[i].state, canceled, exitCode, error, now));
    var mid := PruneRuns(r.runs[i := run], cap);
    RewrittenIsKnown(r.runs, i, run, cap);
    UpdateKeepsIndex(r.runs, i, run);
    DropUnique(r.runs[i := run], Excess(r.runs[i := run], FinishedRun, NormalizeMaxHistory(cap)));
    DispatchKeepsVerdicts(Runner(mid, ""), now, cap);
    hide PruneRuns, Dispatch;
    forall y | y in Finish(r, r.active, canceled, exitCode, error, now, cap).runs
      ensures Known(r.runs, y)
    {
      var m :| m in mid && m.id == y.id;
      assert Known(r.runs, m);
    }
  }

  lemma CanceledStep(r: Runner, id: string, now: Model.Time, cap: int)
    ensures OnlyAdds(r.runs, Cancel(r, id, now, cap).runs, "")
  {
    var i := IndexOf(r.runs, id);
    if i >= 0 && CancelState(r.runs[i].state, now).Some? {
      RewrittenIsKnown(r.runs, i, r.runs[i].(state := CancelState(r.runs[i].state, now).value), cap);
    }
    hide PruneRuns;
  }

  lemma DeletedStep(r: Runner, id: string, cap: int)
    ensures OnlyAdds(r.runs, Delete(r, id, cap).runs, "")
  {
    var i := IndexOf(r.runs, id);
    if i >= 0 { PrunedIsKnown(r.runs[..i] + r.runs[i + 1..], cap); }
    hide PruneRuns;
  }

  lemma RunnerIsLoadable(r: Runner)
    requires RunnerOk(r)
    ensures DistinctIds(r.runs) && forall x :: x in r.runs ==> LegacyStatus(x.state.status)
  {
  }

  /** The id an operation may bring in. */
  function NewId(op: Op): string {
    if op.Started? then op.id else ""
  }

  lemma DoesKeepsVerdicts(h: Life, op: Op)
    requires LifeOk(h)
    ensures VerdictsKept(h.r.runs, Does(h, op).r.runs)
  {
    hide PruneRuns, Start, Finish, Cancel, Delete, Load, FinishedRun;
    SameRuns(h.r.runs);
    match op
    case Started(id, task, now) => if id != "" && id !in h.used { StartKeepsVerdicts(h.r, id, task, now, h.cap); }
    case Finished(canceled, exitCode, error, now) =>
      if h.r.active != "" { FinishKeepsVerdicts(h.r, canceled, exitCode, error, now, h.cap); }
    case CancelRequested(id, now) => CancelKeepsVerdicts(h.r, id, now, h.cap);
    case Deleted(id) => DeleteKeepsVerdicts(h.r, id, h.cap);
    case CapSet(limit) => SubsetKeepsVerdicts(h.r.runs, h.r.runs, limit);
    case Reloaded(now) =>
      RunnerIsLoadable(h.r);
      LoadKeepsVerdicts(h.r.runs, now, h.cap);
  }

  lemma SameRuns(runs: seq<Run>)
    requires RunQueue.UniqueIds(runs)
    ensures VerdictsKept(runs, runs)
  {
  }

  lemma DoesOnlyAdds(h: Life, op: Op)
    requires LifeOk(h)
    ensures OnlyAdds(h.r.runs, Does(h, op).r.runs, NewId(op))
  {
    hide PruneRuns, Start, Finish, Cancel, Delete, Load;
    match op
    case Started(id, task, now) => if id != "" && id !in h.used { StartedStep(h.r, id, task, now, h.cap); }
    case Finished(canceled, exitCode, error, now) =>
      if h.r.active != "" { FinishedStep(h.r, canceled, exitCode, error, now, h.cap); }
    case CancelRequested(id, now) => CanceledStep(h.r, id, now, h.cap);
    case Deleted(id) => DeletedStep(h.r, id, h.cap);
    case CapSet(limit) => PrunedIsKnown(h.r.runs, limit);
    case Reloaded(now) =>
      RunnerIsLoadable(h.r);
      LoadKeepsVerdicts(h.r.runs, now, h.cap);
  }

  lemma DoesKeepsRunner(h: Life, op: Op)
    requires LifeOk(h)
    ensures RunnerOk(Does(h, op).r) && Capped(Does(h, op).r, Does(h, op).cap)
  {
    hide PruneRuns, Start, Finish, Cancel, Delete, Load, RunnerOk, Capped;
    match op
    case Started(id, task, now) => if id != "" && id !in h.used { StartKeeps(h.r, id, task, now, h.cap); }
    case Finished(canceled, exitCode, error, now) => FinishKeeps(h.r, h.r.active, canceled, exitCode, error, now, h.cap);
    case CancelRequested(id, now) => CancelKeeps(h.r, id, now, h.cap);
    case Deleted(id) => DeleteKeeps(h.r, id, h.cap);
    case CapSet(limit) => SetCapKeeps(h.r, limit);
    case Reloaded(now) =>
      LoadableIfOk(h.r);
      LoadEstablishes(h.r.runs, now, h.cap);
  }

  lemma LoadableIfOk(r: Runner)
    ensures RunnerOk(r) ==> DistinctIds(r.runs) && forall x :: x in r.runs ==> LegacyStatus(x.state.status)
  {
  }

  lemma DoesKeeps(h: Life, op: Op)
    requires LifeOk(h)
    ensures LifeOk(Does(h, op)) && h.used <= Does(h, op).used
  {
    DoesKeepsRunner(h, op);
    DoesOnlyAdds(h, op);
    hide RunnerOk, Capped, PruneRuns, Start, Finish, Cancel, Delete, Load;
    forall y | y in Does(h, op).r.runs
      ensures y.id in Does(h, op).used
    {
      if y.id != NewId(op) {
        var m :| m in h.r.runs && m.id == y.id;
      }
    }
  }

  // ---- whole histories -----------------------------------------------------------------------

  ghost predicate IsLife(hs: seq<Life>, ops: seq<Op>) {
    && |hs| == |ops| + 1 && hs[0].r == Runner([], "")
    && (forall i {:trigger ops[i]} :: 0 <= i < |ops| ==> hs[i + 1] == Does(hs[i], ops[i]))
  }

  /** The runner's invariant and the cap hold after any sequence of operations. */
  lemma {:induction false} RunnerThroughout(hs: seq<Life>, ops: seq<Op>, i: nat)
    requires IsLife(hs, ops) && i < |hs|
    ensures LifeOk(hs[i])
  {
    if i > 0 {
      RunnerThroughout(hs, ops, i - 1);
      DoesKeeps(hs[i - 1], ops[i - 1]);
      hide LifeOk, Does;
    } else {
      assert RunnerOk(hs[0].r);
    }
  }

  /** What has gone stays gone, and what was finished stays as it was. */
  ghost predicate Remembers(h: Life, later: Life) {
    && h.used <= later.used && VerdictsKept(h.r.runs, later.r.runs)
    && forall y :: y in later.r.runs && y.id in h.used ==> Known(h.r.runs, y)
  }

  lemma RemembersNext(h: Life, mid: Life, op: Op)
    requires LifeOk(h) && LifeOk(mid) && Remembers(h, mid)
    ensures Remembers(h, Does(mid, op))
  {
    var later := Does(mid, op);
    DoesKeeps(mid, op);
    DoesKeepsVerdicts(mid, op);
    DoesOnlyAdds(mid, op);
    NewIdIsNew(mid, op);
    hide Does, RunnerOk, Capped, FinishedRun;
    forall y | y in later.r.runs && y.id in h.used
      ensures Known(mid.r.runs, y) && Known(h.r.runs, y)
    {
      var m :| m in mid.r.runs && m.id == y.id;
      assert Known(h.r.runs, m);
    }
    forall y | y in later.r.runs && Known(h.r.runs, y)
      ensures Known(mid.r.runs, y)
    {
      var x :| x in h.r.runs && x.id == y.id;
      assert x.id in h.used;
    }
    VerdictsCompose(h.r.runs, mid.r.runs, later.r.runs);
  }

  /** A run whose id was in use before is not the one brought in. */
  lemma NewIdIsNew(h: Life, op: Op)
    requires LifeOk(h)
    ensures forall y :: y in Does(h, op).r.runs && y.id in h.used ==> Known(h.r.runs, y)
  {
    DoesOnlyAdds(h, op);
    DoesKeeps(h, op);
    hide PruneRuns, Start, Finish, Cancel, Delete, Load, RunnerOk, Capped;
    forall y | y in Does(h, op).r.runs && y.id in h.used
      ensures Known(h.r.runs, y)
    {
      if y.id == NewId(op) {
        OldIdStays(h, op);
      }
    }
  }

  lemma OldIdStays(h: Life, op: Op)
    requires LifeOk(h) && NewId(op) in h.used && op.Started?
    ensures Does(h, op) == h
  {
  }

  /** In any history, reloads included, a finished run never changes, and a run
    * that is gone never comes back. */
  lemma {:induction false} FinishedRunsAreFinal(hs: seq<Life>, ops: seq<Op>, i: nat, j: nat)
    requires IsLife(hs, ops) && i <= j < |hs|
    ensures Remembers(hs[i], hs[j])
    decreases j - i
  {
    RunnerThroughout(hs, ops, i);
    if i == j {
      SelfRemembers(hs[i]);
    } else {
      RunnerThroughout(hs, ops, j - 1);
      FinishedRunsAreFinal(hs, ops, i, j - 1);
      RemembersNext(hs[i], hs[j - 1], ops[j - 1]);
      hide Remembers, LifeOk, Does;
    }
  }

  lemma SelfRemembers(h: Life)
    requires LifeOk(h)
    ensures Remembers(h, h)
  {
    SameRuns(h.r.runs);
  }
}

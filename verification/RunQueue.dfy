/** The legacy single-slot runner (runner.go, runner_exec.go) on values: its
  * list of runs and the id of the running one. */
module RunQueue {
  import opened Model
  import opened History

  /** What changes of a run. */
  datatype RunState = RunState(status: Status, exitCode: int, error: Text, startedAt: Time, finishedAt: Time, canceledAt: Time)

  datatype Run = Run(id: string, task: string, state: RunState)

  const FinishedRun: Run -> bool := (r: Run) => Terminal(r.state.status)

  datatype Runner = Runner(runs: seq<Run>, active: string)

  function PruneRuns(runs: seq<Run>, cap: int): seq<Run> {
    Prune(runs, FinishedRun, NormalizeMaxHistory(cap))
  }

  lemma PruneCases(runs: seq<Run>, cap: int)
    requires cap > 0
    ensures var c := FinishedCount(runs);
      PruneRuns(runs, cap) == if c > cap then DropFinished(runs, c - cap) else runs
  {
  }

  function FinishedCount(runs: seq<Run>): nat {
    Count(runs, FinishedRun)
  }

  function DropFinished(runs: seq<Run>, k: nat): seq<Run> {
    Drop(runs, FinishedRun, k)
  }

  function FirstQueued(runs: seq<Run>): (i: int)
    ensures -1 <= i < |runs|
    ensures i >= 0 ==> runs[i].state.status.Queued? && forall k :: 0 <= k < i ==> !runs[k].state.status.Queued?
    ensures i < 0 ==> forall k :: 0 <= k < |runs| ==> !runs[k].state.status.Queued?
  {
    if runs == [] then -1
    else if runs[0].state.status.Queued? then 0
    else
      var r := FirstQueued(runs[1..]);
      if r < 0 then -1 else r + 1
  }

  /** dispatchLocked */
  function Dispatch(r: Runner, now: Time, cap: int): Runner {
    var i := FirstQueued(r.runs);
    if r.active != "" || i < 0 then r
    else
      var run := r.runs[i].(state := r.runs[i].state.(status := Running, startedAt := now));
      Runner(PruneRuns(r.runs[i := run], cap), run.id)
  }

  const NEW_STATE := RunState(Queued, -1, NO_TEXT, ZERO_TIME, ZERO_TIME, ZERO_TIME)

  /** Start */
  function Start(r: Runner, id: string, task: string, now: Time, cap: int): Runner {
    Dispatch(Runner(PruneRuns(r.runs + [Run(id, task, NEW_STATE)], cap), r.active), now, cap)
  }

  function IndexOf(runs: seq<Run>, id: string): (i: int)
    ensures -1 <= i < |runs|
    ensures i >= 0 ==> runs[i].id == id
    ensures i < 0 ==> forall k :: 0 <= k < |runs| ==> runs[k].id != id
  {
    if runs == [] then -1
    else if runs[0].id == id then 0
    else
      var r := IndexOf(runs[1..], id);
      if r < 0 then -1 else r + 1
  }

  /** The outcome finish records. */
  function FinishState(s: RunState, canceled: bool, exitCode: int, error: Text, now: Time): RunState {
    var t := s.(exitCode := exitCode, error := error, finishedAt := now);
    if canceled || s.canceledAt != ZERO_TIME
    then t.(status := Canceled, canceledAt := if s.canceledAt == ZERO_TIME then now else s.canceledAt)
    else t.(status := if exitCode == 0 then Success else Failed)
  }

  /** finish */
  function Finish(r: Runner, id: string, canceled: bool, exitCode: int, error: Text, now: Time, cap: int): Runner {
    var i := IndexOf(r.runs, id);
    if i < 0 then r
    else
      var run := r.runs[i].(state := FinishState(r.runs[i].state, canceled, exitCode, error, now));
      Dispatch(Runner(PruneRuns(r.runs[i := run], cap), if r.active == id then "" else r.active), now, cap)
  }

  /** What Cancel does to a run; a running one is only marked and signalled. */
  function CancelState(s: RunState, now: Time): Option<RunState> {
    match s.status
    case Queued => Some(s.(status := Canceled, canceledAt := now, finishedAt := now, error := CanceledBeforeStart))
    case Running => Some(s.(canceledAt := if s.canceledAt == ZERO_TIME then now else s.canceledAt))
    case _ => None
  }

  function Cancel(r: Runner, id: string, now: Time, cap: int): Runner {
    var i := IndexOf(r.runs, id);
    if i < 0 || CancelState(r.runs[i].state, now).None? then r
    else Runner(PruneRuns(r.runs[i := r.runs[i].(state := CancelState(r.runs[i].state, now).value)], cap), r.active)
  }

  /** Delete of a finished run. */
  function Delete(r: Runner, id: string, cap: int): Runner {
    var i := IndexOf(r.runs, id);
    if i < 0 || !Terminal(r.runs[i].state.status) then r
    else Runner(PruneRuns(r.runs[..i] + r.runs[i + 1..], cap), r.active)
  }

  /** What a restart makes of a persisted run. */
  function LoadRun(run: Run, now: Time): Run {
    var s := run.state;
    var t := if s.exitCode == 0 && !Terminal(s.status) then s.(exitCode := -1) else s;
    run.(state := if s.status.Running? then t.(status := Aborted, error := Interrupted, finishedAt := now) else t)
  }

  /** loadState and the first dispatch of NewRunner. */
  function Load(persisted: seq<Run>, now: Time, cap: int): Runner {
    Dispatch(Runner(PruneRuns(LoadRuns(persisted, now), cap), ""), now, cap)
  }

  function LoadRuns(persisted: seq<Run>, now: Time): (r: seq<Run>)
    ensures |r| == |Named(persisted)|
  {
    var named := Named(persisted);
    seq(|named|, i requires 0 <= i < |named| => LoadRun(named[i], now))
  }

  /** One more entry of the loop of loadState, and its id is new. */
  lemma LoadNext(persisted: seq<Run>, i: nat, now: Time)
    requires i < |persisted|
    ensures LoadRuns(persisted[..i + 1], now) ==
            LoadRuns(persisted[..i], now) + if persisted[i].id == "" then [] else [LoadRun(persisted[i], now)]
    ensures DistinctIds(persisted) && persisted[i].id != "" ==> IndexOf(LoadRuns(persisted[..i], now), persisted[i].id) < 0
  {
    assert persisted[..i + 1][..i] == persisted[..i];
    NamedMembers(persisted[..i]);
    if DistinctIds(persisted) && persisted[i].id != "" {
      var loaded := LoadRuns(persisted[..i], now);
      forall k | 0 <= k < |loaded|
        ensures loaded[k].id != persisted[i].id
      {
        assert Named(persisted[..i])[k] in persisted[..i];
      }
    }
  }

  /** Entries without an id are skipped. */
  function Named(runs: seq<Run>): seq<Run> {
    if runs == [] then []
    else
      var n := |runs| - 1;
      Named(runs[..n]) + if runs[n].id == "" then [] else [runs[n]]
  }

  // ---- the invariant --------------------------------------------------------------------------

  ghost predicate UniqueIds(runs: seq<Run>) {
    && (forall i, j :: 0 <= i < j < |runs| ==> runs[i].id != runs[j].id)
    && (forall i :: 0 <= i < |runs| ==> runs[i].id != "")
  }

  /** Legacy runs are queued, running or finished. */
  ghost predicate LegacyStatus(s: Status) {
    s.Queued? || s.Running? || Terminal(s)
  }

  /** active names the one running run, or nothing runs. */
  ghost predicate SlotOk(runs: seq<Run>, active: string) {
    && UniqueIds(runs)
    && (forall i :: 0 <= i < |runs| ==> LegacyStatus(runs[i].state.status))
    && (forall i :: 0 <= i < |runs| ==> (runs[i].state.status.Running? <==> runs[i].id == active))
    && (active != "" ==> IndexOf(runs, active) >= 0)
  }

  ghost predicate NothingQueued(runs: seq<Run>) {
    forall i :: 0 <= i < |runs| ==> !runs[i].state.status.Queued?
  }

  /** The invariant at rest: the slot is used whenever there is work. */
  ghost predicate RunnerOk(r: Runner) {
    SlotOk(r.runs, r.active) && (r.active == "" ==> NothingQueued(r.runs))
  }

  /** No more finished runs than the cap. */
  ghost predicate Capped(r: Runner, cap: int) {
    Count(r.runs, FinishedRun) <= NormalizeMaxHistory(cap)
  }

  lemma IndexUnique(runs: seq<Run>, i: nat)
    requires UniqueIds(runs) && i < |runs|
    ensures IndexOf(runs, runs[i].id) == i
  {
  }

  /** Pruning removes finished runs only. */
  lemma {:induction false} DropKeepsSlot(runs: seq<Run>, active: string, k: nat)
    requires SlotOk(runs, active)
    ensures SlotOk(Drop(runs, FinishedRun, k), active)
    ensures forall x :: x in Drop(runs, FinishedRun, k) ==> x in runs
    ensures forall x :: x in runs && !FinishedRun(x) ==> x in Drop(runs, FinishedRun, k)
  {
    DropMembers(runs, FinishedRun, k);
    DropUnique(runs, k);
    var d := Drop(runs, FinishedRun, k);
    forall i | 0 <= i < |d|
      ensures LegacyStatus(d[i].state.status) && (d[i].state.status.Running? <==> d[i].id == active)
    {
      assert d[i] in runs;
    }
    if active != "" {
      var x := runs[IndexOf(runs, active)];
      assert x in d;
    }
  }

  lemma {:induction false} DropUnique(runs: seq<Run>, k: nat)
    requires UniqueIds(runs)
    ensures UniqueIds(Drop(runs, FinishedRun, k))
  {
    if |runs| > 0 && k > 0 {
      var rest := runs[1..];
      var k' := if FinishedRun(runs[0]) then k - 1 else k;
      DropUnique(rest, k');
      DropMembers(rest, FinishedRun, k');
      var d := Drop(rest, FinishedRun, k');
      forall i | 0 <= i < |d|
        ensures d[i].id != runs[0].id
      {
        assert d[i] in rest;
      }
    }
  }

  lemma PruneKeepsSlot(runs: seq<Run>, active: string, cap: int)
    requires SlotOk(runs, active)
    ensures SlotOk(PruneRuns(runs, cap), active)
    ensures NothingQueued(runs) ==> NothingQueued(PruneRuns(runs, cap))
    ensures Capped(Runner(PruneRuns(runs, cap), active), cap)
  {
    DropKeepsSlot(runs, active, Excess(runs, FinishedRun, NormalizeMaxHistory(cap)));
    PruneMeetsCap(runs, FinishedRun, NormalizeMaxHistory(cap));
    var d := PruneRuns(runs, cap);
    forall i | 0 <= i < |d| && NothingQueued(runs)
      ensures !d[i].state.status.Queued?
    {
      assert d[i] in runs;
    }
  }

  lemma UpdateKeepsIndex(runs: seq<Run>, i: nat, run: Run)
    requires UniqueIds(runs) && i < |runs| && run.id == runs[i].id
    ensures UniqueIds(runs[i := run])
    ensures forall id :: IndexOf(runs[i := run], id) == IndexOf(runs, id)
  {
    forall id
      ensures IndexOf(runs[i := run], id) == IndexOf(runs, id)
    {
      var t := runs[i := run];
      var j := IndexOf(runs, id);
      if j >= 0 {
        assert t[j].id == id;
        IndexUnique(t, j);
      } else {
        assert forall k :: 0 <= k < |t| ==> t[k].id == runs[k].id;
      }
    }
  }

  /** Dispatch starts the first queued run when the slot is free, and leaves the
    * runner at rest. */
  lemma DispatchKeeps(r: Runner, now: Time, cap: int)
    requires SlotOk(r.runs, r.active) && Capped(r, cap)
    ensures RunnerOk(Dispatch(r, now, cap)) && Capped(Dispatch(r, now, cap), cap)
  {
    var i := FirstQueued(r.runs);
    if r.active == "" && i >= 0 {
      var run := r.runs[i].(state := r.runs[i].state.(status := Running, startedAt := now));
      UpdateKeepsIndex(r.runs, i, run);
      IndexUnique(r.runs, i);
      PruneKeepsSlot(r.runs[i := run], run.id, cap);
    }
  }

  lemma StartKeeps(r: Runner, id: string, task: string, now: Time, cap: int)
    requires RunnerOk(r) && id != "" && IndexOf(r.runs, id) < 0
    ensures RunnerOk(Start(r, id, task, now, cap)) && Capped(Start(r, id, task, now, cap), cap)
  {
    var runs := r.runs + [Run(id, task, NEW_STATE)];
    if r.active != "" {
      assert runs[IndexOf(r.runs, r.active)].id == r.active;
      assert IndexOf(runs, r.active) >= 0;
    }
    PruneKeepsSlot(runs, r.active, cap);
    DispatchKeeps(Runner(PruneRuns(runs, cap), r.active), now, cap);
  }

  /** The run that ends is the active one: its goroutine is the only caller. */
  lemma FinishKeeps(r: Runner, id: string, canceled: bool, exitCode: int, error: Text, now: Time, cap: int)
    requires RunnerOk(r) && Capped(r, cap) && id == r.active
    ensures var f := Finish(r, id, canceled, exitCode, error, now, cap); RunnerOk(f) && Capped(f, cap)
  {
    var i := IndexOf(r.runs, id);
    if i >= 0 {
      var run := r.runs[i].(state := FinishState(r.runs[i].state, canceled, exitCode, error, now));
      UpdateKeepsIndex(r.runs, i, run);
      PruneKeepsSlot(r.runs[i := run], "", cap);
      DispatchKeeps(Runner(PruneRuns(r.runs[i := run], cap), ""), now, cap);
    }
  }

  lemma CancelKeeps(r: Runner, id: string, now: Time, cap: int)
    requires RunnerOk(r) && Capped(r, cap)
    ensures RunnerOk(Cancel(r, id, now, cap)) && Capped(Cancel(r, id, now, cap), cap)
  {
    var i := IndexOf(r.runs, id);
    if i >= 0 && CancelState(r.runs[i].state, now).Some? {
      var run := r.runs[i].(state := CancelState(r.runs[i].state, now).value);
      UpdateKeepsIndex(r.runs, i, run);
      PruneKeepsSlot(r.runs[i := run], r.active, cap);
    }
  }

  /** Cancel acts on exactly the queued and running runs. */
  lemma Cancelable(r: Runner, id: string, now: Time)
    requires RunnerOk(r)
    ensures var i := IndexOf(r.runs, id);
      (i >= 0 && CancelState(r.runs[i].state, now).Some?) <==> exists x :: x in r.runs && x.id == id && !Terminal(x.state.status)
  {
  }

  predicate CanDelete(r: Runner, id: string) {
    var i := IndexOf(r.runs, id);
    i >= 0 && Terminal(r.runs[i].state.status)
  }

  /** The found and finished entry is cut out; otherwise nothing happens. */
  lemma DeleteCases(r: Runner, id: string, cap: int)
    ensures var i := IndexOf(r.runs, id);
      Delete(r, id, cap) == if CanDelete(r, id) then Runner(PruneRuns(r.runs[..i] + r.runs[i + 1..], cap), r.active) else r
  {
  }

  /** Delete acts on exactly the finished runs. */
  lemma Deletable(r: Runner, id: string)
    requires RunnerOk(r)
    ensures CanDelete(r, id) <==> exists x :: x in r.runs && x.id == id && Terminal(x.state.status)
  {
  }

  lemma RemovalKeepsSlot(runs: seq<Run>, active: string, i: nat)
    requires SlotOk(runs, active) && i < |runs| && Terminal(runs[i].state.status)
    ensures SlotOk(runs[..i] + runs[i + 1..], active)
    ensures NothingQueued(runs) ==> NothingQueued(runs[..i] + runs[i + 1..])
    ensures forall x :: x in runs[..i] + runs[i + 1..] ==> x.id != runs[i].id
  {
    var t := runs[..i] + runs[i + 1..];
    assert forall k :: 0 <= k < |t| ==> t[k] == runs[if k < i then k else k + 1];
    if active != "" {
      var j := IndexOf(runs, active);
      assert t[if j < i then j else j - 1].id == active;
    }
  }

  lemma DeleteKeeps(r: Runner, id: string, cap: int)
    requires RunnerOk(r) && Capped(r, cap)
    ensures RunnerOk(Delete(r, id, cap)) && Capped(Delete(r, id, cap), cap)
  {
    var i := IndexOf(r.runs, id);
    if i >= 0 && Terminal(r.runs[i].state.status) {
      RemovalKeepsSlot(r.runs, r.active, i);
      PruneKeepsSlot(r.runs[..i] + r.runs[i + 1..], r.active, cap);
    }
  }

  /** A deleted run is gone. */
  lemma DeletedIsGone(r: Runner, id: string, cap: int)
    requires RunnerOk(r) && IndexOf(r.runs, id) >= 0 && Terminal(r.runs[IndexOf(r.runs, id)].state.status)
    ensures IndexOf(Delete(r, id, cap).runs, id) < 0
  {
    var i := IndexOf(r.runs, id);
    var t := r.runs[..i] + r.runs[i + 1..];
    RemovalKeepsSlot(r.runs, r.active, i);
    DropMembers(t, FinishedRun, Excess(t, FinishedRun, NormalizeMaxHistory(cap)));
    assert forall y :: y in Delete(r, id, cap).runs ==> y in t;
  }

  lemma SetCapKeeps(r: Runner, cap: int)
    requires RunnerOk(r)
    ensures RunnerOk(Runner(PruneRuns(r.runs, cap), r.active)) && Capped(Runner(PruneRuns(r.runs, cap), r.active), cap)
  {
    PruneKeepsSlot(r.runs, r.active, cap);
  }

  lemma NewName(runs: seq<Run>, named: seq<Run>)
    requires runs != [] && DistinctIds(runs) && runs[|runs| - 1].id != ""
    requires forall x :: x in named ==> x in runs[..|runs| - 1] && x.id != ""
    ensures forall x :: x in named ==> x.id != runs[|runs| - 1].id
  {
    forall x | x in named
      ensures x.id != runs[|runs| - 1].id
    {
      var k :| 0 <= k < |runs| - 1 && runs[k] == x;
    }
  }

  lemma {:induction false} NamedMembers(runs: seq<Run>)
    ensures forall x :: x in Named(runs) <==> x in runs && x.id != ""
    ensures DistinctIds(runs) ==> UniqueIds(Named(runs))
  {
    if runs != [] {
      var n := |runs| - 1;
      NamedMembers(runs[..n]);
      assert runs == runs[..n] + [runs[n]];
      if DistinctIds(runs) && runs[n].id != "" {
        NewName(runs, Named(runs[..n]));
      }
    }
  }

  /** Entries with an id have one of their own. */
  ghost predicate DistinctIds(runs: seq<Run>) {
    forall i, j :: 0 <= i < j < |runs| && runs[i].id != "" ==> runs[i].id != runs[j].id
  }

  /** A reload aborts what was running and starts the first queued run. */
  lemma LoadEstablishes(persisted: seq<Run>, now: Time, cap: int)
    requires DistinctIds(persisted) && forall x :: x in persisted ==> LegacyStatus(x.state.status)
    ensures RunnerOk(Load(persisted, now, cap)) && Capped(Load(persisted, now, cap), cap)
  {
    NamedMembers(persisted);
    var named := Named(persisted);
    var runs := LoadRuns(persisted, now);
    forall i | 0 <= i < |runs|
      ensures LegacyStatus(runs[i].state.status) && !runs[i].state.status.Running?
    {
      assert named[i] in persisted;
    }
    assert SlotOk(runs, "");
    PruneKeepsSlot(runs, "", cap);
    DispatchKeeps(Runner(PruneRuns(runs, cap), ""), now, cap);
  }

  // ---- finished runs never change -----------------------------------------------------------------

  /** Every run of `after` that was finished in `before` is as it was. */
  ghost predicate VerdictsKept(before: seq<Run>, after: seq<Run>) {
    forall x, y :: x in before && y in after && y.id == x.id && FinishedRun(x) ==> y == x
  }

  lemma SameRun(runs: seq<Run>, x: Run, y: Run)
    requires UniqueIds(runs) && x in runs && y in runs && x.id == y.id
    ensures x == y
  {
  }

  /** Pruning, and rewriting a run that is not finished, keep verdicts. */
  lemma RewriteKeepsVerdicts(runs: seq<Run>, i: nat, run: Run, cap: int)
    requires UniqueIds(runs) && i < |runs| && run.id == runs[i].id && !FinishedRun(runs[i])
    ensures VerdictsKept(runs, PruneRuns(runs[i := run], cap))
  {
    DropMembers(runs[i := run], FinishedRun, Excess(runs[i := run], FinishedRun, NormalizeMaxHistory(cap)));
    forall x, y | x in runs && y in PruneRuns(runs[i := run], cap) && y.id == x.id && FinishedRun(x)
      ensures y == x
    {
      assert y in runs[i := run];
      UpdatedRun(runs, i, run, x, y);
    }
  }

  lemma UpdatedRun(runs: seq<Run>, i: nat, run: Run, x: Run, y: Run)
    requires UniqueIds(runs) && i < |runs| && run.id == runs[i].id && !FinishedRun(runs[i])
    requires x in runs && FinishedRun(x) && y in runs[i := run] && y.id == x.id
    ensures y == x
  {
  }

  lemma SubsetKeepsVerdicts(runs: seq<Run>, some: seq<Run>, cap: int)
    requires UniqueIds(runs) && forall x :: x in some ==> x in runs
    ensures VerdictsKept(runs, PruneRuns(some, cap))
  {
    DropMembers(some, FinishedRun, Excess(some, FinishedRun, NormalizeMaxHistory(cap)));
    forall x, y | x in runs && y in PruneRuns(some, cap) && y.id == x.id
      ensures y == x
    {
      SameRun(runs, x, y);
    }
  }

  /** Through the intermediate list: finished runs stay finished in it. */
  lemma VerdictsCompose(before: seq<Run>, mid: seq<Run>, after: seq<Run>)
    requires VerdictsKept(before, mid) && VerdictsKept(mid, after)
    requires forall y :: y in after && Known(before, y) ==> Known(mid, y)
    ensures VerdictsKept(before, after)
  {
  }

  ghost predicate Known(runs: seq<Run>, y: Run) {
    exists m :: m in runs && m.id == y.id
  }

  lemma DispatchKeepsVerdicts(r: Runner, now: Time, cap: int)
    requires UniqueIds(r.runs)
    ensures VerdictsKept(r.runs, Dispatch(r, now, cap).runs)
    ensures forall y :: y in Dispatch(r, now, cap).runs ==> Known(r.runs, y)
  {
    var i := FirstQueued(r.runs);
    if r.active == "" && i >= 0 {
      var run := r.runs[i].(state := r.runs[i].state.(status := Running, startedAt := now));
      var t := r.runs[i := run];
      RewriteKeepsVerdicts(r.runs, i, run, cap);
      DropMembers(t, FinishedRun, Excess(t, FinishedRun, NormalizeMaxHistory(cap)));
      forall y | y in t
        ensures Known(r.runs, y)
      {
        var k :| 0 <= k < |t| && t[k] == y;
        assert r.runs[k] in r.runs && r.runs[k].id == y.id;
      }
    } else {
      SubsetKeepsVerdicts(r.runs, r.runs, cap);
      forall x, y | x in r.runs && y in r.runs && x.id == y.id ensures x == y { SameRun(r.runs, x, y); }
    }
  }

  /** Start, cancel, finish and delete never change a finished run. */
  lemma FinishKeepsVerdicts(r: Runner, canceled: bool, exitCode: int, error: Text, now: Time, cap: int)
    requires RunnerOk(r) && r.active != ""
    ensures VerdictsKept(r.runs, Finish(r, r.active, canceled, exitCode, error, now, cap).runs)
  {
    var i := IndexOf(r.runs, r.active);
    var run := r.runs[i].(state := FinishState(r.runs[i].state, canceled, exitCode, error, now));
    var mid := PruneRuns(r.runs[i := run], cap);
    RewriteKeepsVerdicts(r.runs, i, run, cap);
    UpdateKeepsIndex(r.runs, i, run);
    DropUnique(r.runs[i := run], Excess(r.runs[i := run], FinishedRun, NormalizeMaxHistory(cap)));
    DispatchKeepsVerdicts(Runner(mid, ""), now, cap);
    VerdictsCompose(r.runs, mid, Dispatch(Runner(mid, ""), now, cap).runs);
  }

  lemma StartKeepsVerdicts(r: Runner, id: string, task: string, now: Time, cap: int)
    requires RunnerOk(r) && id != "" && IndexOf(r.runs, id) < 0
    ensures VerdictsKept(r.runs, Start(r, id, task, now, cap).runs)
  {
    var all := r.runs + [Run(id, task, NEW_STATE)];
    var mid := PruneRuns(all, cap);
    SubsetKeepsVerdicts(all, all, cap);
    forall x, y | x in r.runs && y in mid && y.id == x.id && FinishedRun(x)
      ensures y == x
    {
      assert x in all;
    }
    DropUnique(all, Excess(all, FinishedRun, NormalizeMaxHistory(cap)));
    DispatchKeepsVerdicts(Runner(mid, r.active), now, cap);
    VerdictsCompose(r.runs, mid, Start(r, id, task, now, cap).runs);
  }

  lemma CancelKeepsVerdicts(r: Runner, id: string, now: Time, cap: int)
    requires RunnerOk(r)
    ensures VerdictsKept(r.runs, Cancel(r, id, now, cap).runs)
  {
    var i := IndexOf(r.runs, id);
    if i >= 0 && CancelState(r.runs[i].state, now).Some? {
      RewriteKeepsVerdicts(r.runs, i, r.runs[i].(state := CancelState(r.runs[i].state, now).value), cap);
    } else {
      forall x, y | x in r.runs && y in r.runs && x.id == y.id ensures x == y { SameRun(r.runs, x, y); }
    }
  }

  lemma DeleteKeepsVerdicts(r: Runner, id: string, cap: int)
    requires RunnerOk(r)
    ensures VerdictsKept(r.runs, Delete(r, id, cap).runs)
  {
    var i := IndexOf(r.runs, id);
    if i >= 0 && Terminal(r.runs[i].state.status) {
      SubsetKeepsVerdicts(r.runs, r.runs[..i] + r.runs[i + 1..], cap);
    } else {
      forall x, y | x in r.runs && y in r.runs && x.id == y.id ensures x == y { SameRun(r.runs, x, y); }
    }
  }

  lemma LoadedRun(persisted: seq<Run>, now: Time, y: Run) returns (x: Run)
    requires y in LoadRuns(persisted, now)
    ensures x in persisted && x.id == y.id && x.id != "" && (FinishedRun(x) ==> y == x)
  {
    NamedMembers(persisted);
    var k :| 0 <= k < |Named(persisted)| && LoadRuns(persisted, now)[k] == y;
    x := Named(persisted)[k];
    assert x in Named(persisted);
  }

  lemma LoadedIsUnique(persisted: seq<Run>, now: Time)
    requires DistinctIds(persisted)
    ensures UniqueIds(LoadRuns(persisted, now))
  {
    NamedMembers(persisted);
  }

  /** A reload leaves the finished runs it reads as they are. */
  lemma LoadKeepsVerdicts(persisted: seq<Run>, now: Time, cap: int)
    requires DistinctIds(persisted)
    ensures VerdictsKept(persisted, Load(persisted, now, cap).runs)
    ensures forall y :: y in Load(persisted, now, cap).runs ==> Known(persisted, y)
  {
    var all := LoadRuns(persisted, now);
    var mid := PruneRuns(all, cap);
    LoadedIsUnique(persisted, now);
    var k := Excess(all, FinishedRun, NormalizeMaxHistory(cap));
    DropMembers(all, FinishedRun, k);
    DropUnique(all, k);
    DispatchKeepsVerdicts(Runner(mid, ""), now, cap);
    hide PruneRuns, LoadRuns, Dispatch, FinishedRun;
    forall y | y in mid
      ensures Known(persisted, y)
    {
      var x := LoadedRun(persisted, now, y);
    }
    forall x, y | x in persisted && y in mid && y.id == x.id && FinishedRun(x)
      ensures y == x
    {
      var z := LoadedRun(persisted, now, y);
      SameNamed(persisted, x, z);
    }
    VerdictsCompose(persisted, mid, Load(persisted, now, cap).runs);
  }

  lemma SameNamed(runs: seq<Run>, x: Run, y: Run)
    requires DistinctIds(runs) && x in runs && y in runs && x.id == y.id != ""
    ensures x == y
  {
  }
}

/** The legacy runner's object (runner.go, runner_exec.go): a list of shared run
  * objects in a backing array that is compacted and shifted in place, an index
  * by id over the same objects, and the id of the running one. */
module LegacyRunner {
  import opened Model
  import opened History
  import RunQueue

  /** A *Run: shared by the list and the index. */
  class RunObject {
    const id: string
    const task: string
    var state: RunQueue.RunState

    constructor (id: string, task: string, state: RunQueue.RunState)
      ensures this.id == id && this.task == task && this.state == state
    {
      this.id, this.task, this.state := id, task, state;
    }

    function Value(): RunQueue.Run
      reads this
    {
      RunQueue.Run(id, task, state)
    }
  }

  function Values(s: seq<RunObject>): (r: seq<RunQueue.Run>)
    reads s
    ensures |r| == |s|
    ensures forall i :: 0 <= i < |s| ==> r[i] == s[i].Value()
  {
    seq(|s|, i requires 0 <= i < |s| reads s => s[i].Value())
  }

  ghost predicate Distinct(s: seq<RunObject>) {
    forall i, j :: 0 <= i < j < |s| ==> s[i].id != s[j].id
  }

  /** The index holds exactly the listed objects, by id. */
  ghost predicate Indexes(byId: map<string, RunObject>, s: seq<RunObject>) {
    && (forall id :: id in byId ==> byId[id] in s && byId[id].id == id)
    && (forall r :: r in s ==> r.id in byId && byId[r.id] == r)
  }

  lemma IndexDrop(byId: map<string, RunObject>, s: seq<RunObject>, i: nat)
    requires Indexes(byId, s) && Distinct(s) && i < |s|
    ensures Indexes(byId - {s[i].id}, s[..i] + s[i + 1..]) && Distinct(s[..i] + s[i + 1..])
  {
    var t := s[..i] + s[i + 1..];
    assert forall k :: 0 <= k < |t| ==> t[k] == s[if k < i then k else k + 1];
    forall id | id in byId && id != s[i].id
      ensures byId[id] in t
    {
      var k :| 0 <= k < |s| && s[k] == byId[id];
      assert t[if k < i then k else k - 1] == s[k];
    }
  }

  lemma IndexAdd(byId: map<string, RunObject>, s: seq<RunObject>, r: RunObject)
    requires Indexes(byId, s) && Distinct(s) && r.id !in byId
    ensures Indexes(byId[r.id := r], s + [r]) && Distinct(s + [r])
  {
    assert (s + [r])[|s|] == r;
    forall k | 0 <= k < |s|
      ensures s[k].id != r.id
    {
      assert s[k] in s;
    }
  }

  class Runner {
    /** The backing array of the slice of runs, and the slice's length. */
    var buf: array<RunObject?>
    var len: nat
    var byId: map<string, RunObject>
    var activeId: string
    var maxHistory: int

    /** The slice. */
    ghost function Listed(): (s: seq<RunObject>)
      reads this, buf
      requires Filled()
      ensures |s| == len && forall i :: 0 <= i < len ==> s[i] == buf[i]
    {
      buf[..len]
    }

    ghost predicate Filled()
      reads this, buf
    {
      len <= buf.Length && forall i :: 0 <= i < len ==> buf[i] != null
    }

    /** List and index agree. */
    ghost predicate Consistent()
      reads this, buf
    {
      maxHistory > 0 && Filled() && Distinct(Listed()) && Indexes(byId, Listed())
    }

    ghost function Value(): RunQueue.Runner
      reads this, buf, byId.Values
      requires Consistent()
    {
      RunQueue.Runner(Values(Listed()), activeId)
    }

    ghost predicate Valid()
      reads this, buf, byId.Values
    {
      Consistent() && RunQueue.RunnerOk(Value()) && RunQueue.Capped(Value(), maxHistory)
    }

    // ---- pruning in place -----------------------------------------------------------------------

    method CountFinished() returns (terminal: nat)
      requires Filled()
      ensures terminal == RunQueue.FinishedCount(Values(Listed()))
    {
      ghost var all := Values(Listed());
      terminal := 0;
      for i := 0 to len
        invariant terminal == Count(all[..i], RunQueue.FinishedRun)
      {
        CountNext(all, i, RunQueue.FinishedRun);
        if Terminal(buf[i].state.status) {
          terminal := terminal + 1;
        }
      }
      assert all[..len] == all;
    }

    /** pruneHistoryLocked: the kept runs are written to the front of the array
      * they are being read from. It computes the same list as the copying
      * version of the controller. */
    method PruneHistory()
      requires Consistent()
      modifies this`len, this`byId, this`maxHistory, buf
      ensures Consistent() && maxHistory == old(maxHistory)
      ensures Values(Listed()) == RunQueue.PruneRuns(old(Values(Listed())), maxHistory)
      ensures forall r :: r in Listed() ==> r in old(Listed())
    {
      maxHistory := NormalizeMaxHistory(maxHistory);
      PruneTo(maxHistory);
    }

    method PruneTo(cap: nat)
      requires Consistent() && cap > 0
      modifies this`len, this`byId, buf
      ensures Consistent()
      ensures Values(Listed()) == RunQueue.PruneRuns(old(Values(Listed())), cap)
      ensures forall r :: r in Listed() ==> r in old(Listed())
    {
      hide RunQueue.PruneRuns, RunQueue.FinishedCount, RunQueue.DropFinished;
      RunQueue.PruneCases(Values(Listed()), cap);
      var terminal := CountFinished();
      if terminal <= cap {
        return;
      }
      Compact(terminal - cap);
    }

    method Compact(excess: nat)
      requires Consistent()
      modifies this`len, this`byId, buf
      ensures Consistent()
      ensures Values(Listed()) == RunQueue.DropFinished(old(Values(Listed())), excess)
      ensures forall r :: r in Listed() ==> r in old(Listed())
    {
      hide Distinct, Indexes, RunQueue.DropFinished, Kept, IndexAfter;
      ghost var all := Listed();
      ghost var vals := Values(all);
      ghost var pos := Kept(vals, |vals|, excess);
      var kept, index := MoveKept(all, vals, excess);
      Clear(kept);
      len := kept;
      byId := index;
      CompactedIsConsistent(old(byId), all, vals, excess);
      assert Listed() == Picked(all, pos);
      assert Values(Listed()) == Picked(vals, pos);
    }

    /** The aliased loop: the slice of kept runs shares the array with the list
      * that is being read. */
    method MoveKept(ghost all: seq<RunObject>, ghost vals: seq<RunQueue.Run>, excess: nat) returns (kept: nat, index: map<string, RunObject>)
      requires len == |all| == |vals| <= buf.Length
      requires forall j :: 0 <= j < len ==> buf[j] == all[j] && all[j].state == vals[j].state
      modifies buf
      ensures kept == |Kept(vals, |vals|, excess)| && index == IndexAfter(byId, all, vals, |vals|, excess)
      ensures forall j :: 0 <= j < kept ==> buf[j] == all[Kept(vals, |vals|, excess)[j]]
    {
      kept, index := 0, byId;
      var remove := excess;
      for i := 0 to len
        invariant kept == |Kept(vals, i, excess)| && remove == Left(vals, i, excess) && index == IndexAfter(byId, all, vals, i, excess)
        invariant forall j :: 0 <= j < kept ==> buf[j] == all[Kept(vals, i, excess)[j]]
        invariant forall j :: i <= j < len ==> buf[j] == all[j] && all[j].state == vals[j].state
      {
        var run := buf[i];
        MoveNext(byId, all, vals, i, excess);
        if remove > 0 && Terminal(run.state.status) {
          index := index - {run.id};
          remove := remove - 1;
        } else {
          buf[kept] := run;
          kept := kept + 1;
        }
      }
    }

    /** The entries past the kept ones are cleared. */
    method Clear(kept: nat)
      requires kept <= len <= buf.Length
      modifies buf
      ensures forall j :: 0 <= j < kept ==> buf[j] == old(buf[j])
    {
      for j := kept to len
        invariant forall k :: 0 <= k < kept ==> buf[k] == old(buf[k])
      {
        buf[j] := null;
      }
    }

    // ---- the operations ---------------------------------------------------------------------------

    /** saveLocked; a failed write is only logged. */
    method SaveLocked()
      requires Consistent()
      modifies this`len, this`byId, this`maxHistory, buf
      ensures Consistent() && maxHistory == old(maxHistory)
      ensures Value() == RunQueue.Runner(RunQueue.PruneRuns(old(Value()).runs, maxHistory), old(activeId))
      ensures forall r :: r in Listed() ==> r in old(Listed())
      ensures byId.Values <= old(byId.Values) && buf == old(buf)
    {
      ghost var known := Listed();
      PruneHistory();
      IndexedAmong(known);
    }

    lemma IndexedAmong(known: seq<RunObject>)
      requires Consistent() && forall r :: r in Listed() ==> r in known
      ensures forall r :: r in byId.Values ==> r in known
    {
    }

    /** Assigning to one run and to the slot, then saving. */
    method Store(ghost i: nat, run: RunObject, state: RunQueue.RunState, active: string)
      requires Consistent() && i < len && buf[i] == run
      modifies this, buf, run
      ensures Consistent() && maxHistory == old(maxHistory) && buf == old(buf)
      ensures forall r :: r in Listed() ==> r in old(Listed())
      ensures Value() == Stored(old(Value()), i, state, active, maxHistory)
    {
      hide Distinct, Indexes, RunQueue.PruneRuns;
      ghost var before := Value();
      SetState(i, run, state);
      activeId := active;
      ghost var mid := Value();
      assert mid == RunQueue.Runner(before.runs[i := before.runs[i].(state := state)], active);
      SaveLocked();
    }

    /** dispatchLocked: the first queued run in list order takes the free slot. */
    method DispatchLocked(now: Time)
      requires Consistent()
      modifies this, buf, byId.Values
      ensures Consistent() && maxHistory == old(maxHistory) && buf == old(buf)
      ensures Value() == RunQueue.Dispatch(old(Value()), now, maxHistory)
    {
      if activeId != "" {
        return;
      }
      var i := FindQueued();
      if i < 0 {
        return;
      }
      var next := buf[i];
      ListedIsIndexed(i);
      Store(i, next, next.state.(status := Running, startedAt := now), next.id);
    }

    lemma ListedIsIndexed(i: nat)
      requires Consistent() && i < len
      ensures buf[i] in byId.Values
    {
      assert buf[i] == Listed()[i];
      assert byId[buf[i].id] == buf[i];
    }

    method FindQueued() returns (i: int)
      requires Consistent()
      ensures i == RunQueue.FirstQueued(Values(Listed()))
    {
      ghost var vals := Values(Listed());
      for k := 0 to len
        invariant forall j :: 0 <= j < k ==> !vals[j].state.status.Queued?
      {
        if buf[k].state.status == Queued {
          return k;
        }
      }
      i := -1;
    }

    /** Assigning fields of a run reaches the list and the index alike. */
    method SetState(ghost i: nat, run: RunObject, state: RunQueue.RunState)
      requires Consistent() && i < len && buf[i] == run
      modifies run
      ensures Consistent() && Listed() == old(Listed())
      ensures Values(Listed()) == old(Values(Listed()))[i := RunQueue.Run(run.id, run.task, state)]
    {
      ghost var all := Listed();
      run.state := state;
      assert Values(all) == old(Values(all))[i := run.Value()];
    }

    /** The indexed run is the first listed one with its id. */
    lemma IndexedRun(id: string) returns (i: int)
      requires Consistent()
      ensures i == RunQueue.IndexOf(Values(Listed()), id)
      ensures id in byId <==> i >= 0
      ensures i >= 0 ==> i < len && buf[i] == byId[id]
    {
      i := RunQueue.IndexOf(Values(Listed()), id);
      if id in byId {
        var k :| 0 <= k < len && Listed()[k] == byId[id];
        assert Values(Listed())[k].id == id;
        assert Listed()[i].id == id && i == k;
      }
    }

    method Append(run: RunObject)
      requires Consistent() && run.id !in byId
      modifies this, buf
      ensures Consistent() && maxHistory == old(maxHistory) && activeId == old(activeId)
      ensures Listed() == old(Listed()) + [run] && (buf == old(buf) || fresh(buf))
      ensures byId == old(byId)[run.id := run]
    {
      hide Distinct, Indexes;
      IndexAdd(byId, Listed(), run);
      if len == buf.Length {
        Grow();
      }
      buf[len] := run;
      len := len + 1;
      byId := byId[run.id := run];
      assert Listed() == old(Listed()) + [run];
    }

    method AppendValue(run: RunQueue.Run)
      requires Consistent() && run.id !in byId
      modifies this, buf
      ensures Consistent() && maxHistory == old(maxHistory) && activeId == old(activeId) && (buf == old(buf) || fresh(buf))
      ensures Values(Listed()) == old(Values(Listed())) + [run] && fresh(byId.Values - old(byId.Values))
    {
      hide Distinct, Indexes;
      ghost var vals := Values(Listed());
      var loaded := new RunObject(run.id, run.task, run.state);
      Append(loaded);
      assert Values(Listed()) == vals + [run];
    }

    /** A full slice moves to a larger array. */
    method Grow()
      requires Filled()
      modifies this`buf
      ensures Filled() && fresh(buf) && buf.Length > len && Listed() == old(Listed())
    {
      var larger := new RunObject?[2 * len + 1];
      for k := 0 to len
        invariant buf == old(buf) && forall j :: 0 <= j < k ==> larger[j] == buf[j]
      {
        larger[k] := buf[k];
      }
      buf := larger;
    }

    /** Start; the id is random and not in use. */
    method Start(id: string, task: string, now: Time) returns (run: RunObject)
      requires Valid() && id != "" && id !in byId
      modifies this, buf, byId.Values
      ensures Valid() && Value() == RunQueue.Start(old(Value()), id, task, now, maxHistory)
    {
      ghost var before := Value();
      ghost var i := IndexedRun(id);
      RunQueue.StartKeeps(before, id, task, now, maxHistory);
      run := AddRun(id, task);
      DispatchLocked(now);
    }

    /** Appends a queued run and saves. */
    method AddRun(id: string, task: string) returns (run: RunObject)
      requires Consistent() && id !in byId
      modifies this, buf
      ensures Consistent() && maxHistory == old(maxHistory) && (buf == old(buf) || fresh(buf)) && fresh(byId.Values - old(byId.Values))
      ensures Value() == RunQueue.Runner(RunQueue.PruneRuns(old(Value()).runs + [RunQueue.Run(id, task, RunQueue.NEW_STATE)], maxHistory), old(activeId))
    {
      hide Distinct, Indexes, RunQueue.PruneRuns;
      ghost var before := Value();
      run := new RunObject(id, task, RunQueue.NEW_STATE);
      Append(run);
      ghost var mid := Value();
      assert mid == RunQueue.Runner(before.runs + [RunQueue.Run(id, task, RunQueue.NEW_STATE)], activeId);
      SaveLocked();
    }

    /** finish, called once by the goroutine of the active run. */
    method Finish(id: string, canceled: bool, exitCode: int, error: Text, now: Time)
      requires Valid() && id == activeId
      modifies this, buf, byId.Values
      ensures Valid() && Value() == RunQueue.Finish(old(Value()), id, canceled, exitCode, error, now, maxHistory)
    {
      ghost var before := Value();
      ghost var i := IndexedRun(id);
      RunQueue.FinishKeeps(before, id, canceled, exitCode, error, now, maxHistory);
      if id !in byId {
        return;
      }
      var run := byId[id];
      Store(i, run, RunQueue.FinishState(run.state, canceled, exitCode, error, now), "");
      DispatchLocked(now);
    }

    method Cancel(id: string, now: Time) returns (ok: bool)
      requires Valid()
      modifies this, buf, byId.Values
      ensures Valid() && Value() == RunQueue.Cancel(old(Value()), id, now, maxHistory)
      ensures ok <==> exists r :: r in old(Value()).runs && r.id == id && !Terminal(r.state.status)
    {
      ghost var before := Value();
      ghost var i := IndexedRun(id);
      RunQueue.CancelKeeps(before, id, now, maxHistory);
      RunQueue.Cancelable(before, id, now);
      if id !in byId {
        return false;
      }
      var run := byId[id];
      var next := RunQueue.CancelState(run.state, now);
      if next.None? {
        return false;
      }
      Store(i, run, next.value, activeId);
      ok := true;
    }

    /** Delete shifts the rest of the list down in place. */
    method Delete(id: string) returns (ok: bool)
      requires Valid()
      modifies this, buf
      ensures Valid() && Value() == RunQueue.Delete(old(Value()), id, maxHistory)
      ensures ok <==> RunQueue.CanDelete(old(Value()), id)
    {
      hide RunQueue.Delete, RunQueue.PruneRuns, RunQueue.RunnerOk, RunQueue.Capped, RunQueue.IndexOf;
      ghost var before := Value();
      RunQueue.DeleteKeeps(before, id, maxHistory);
      RunQueue.DeleteCases(before, id, maxHistory);
      var index := FindListed(id);
      ok := index >= 0 && Terminal(buf[index].state.status);
      if ok {
        RemoveAndSave(index);
      }
    }

    method RemoveAndSave(index: nat)
      requires Consistent() && index < len
      modifies this, buf
      ensures Consistent() && maxHistory == old(maxHistory)
      ensures var runs := old(Value()).runs;
        Value() == RunQueue.Runner(RunQueue.PruneRuns(runs[..index] + runs[index + 1..], maxHistory), old(activeId))
    {
      hide Distinct, Indexes, RunQueue.PruneRuns;
      ghost var before := Value();
      ValuesWithout(Listed(), index);
      Remove(index);
      ghost var mid := Value();
      assert mid == RunQueue.Runner(before.runs[..index] + before.runs[index + 1..], activeId);
      SaveLocked();
    }

    method FindListed(id: string) returns (index: int)
      requires Consistent()
      ensures index == RunQueue.IndexOf(Values(Listed()), id)
    {
      ghost var vals := Values(Listed());
      for k := 0 to len
        invariant forall j :: 0 <= j < k ==> vals[j].id != id
      {
        if buf[k].id == id {
          assert vals[k].id == id;
          return k;
        }
      }
      index := -1;
    }

    method Remove(index: nat)
      requires Consistent() && index < len
      modifies this`len, this`byId, buf
      ensures Consistent()
      ensures Listed() == old(Listed())[..index] + old(Listed())[index + 1..]
    {
      hide Distinct, Indexes;
      ghost var all := Listed();
      IndexDrop(byId, all, index);
      var id := buf[index].id;
      ShiftDown(index);
      len := len - 1;
      byId := byId - {id};
      Shifted(Listed(), all, index);
    }

    /** copy(runs[index:], runs[index+1:]), then clear the last entry. */
    method ShiftDown(index: nat)
      requires index < len <= buf.Length
      modifies buf
      ensures forall j :: 0 <= j < index ==> buf[j] == old(buf[j])
      ensures forall j :: index <= j < len - 1 ==> buf[j] == old(buf[j + 1])
    {
      for k := index to len - 1
        invariant forall j :: 0 <= j < index ==> buf[j] == old(buf[j])
        invariant forall j :: index <= j < k ==> buf[j] == old(buf[j + 1])
        invariant forall j :: k < j < len ==> buf[j] == old(buf[j])
      {
        buf[k] := buf[k + 1];
      }
      buf[len - 1] := null;
    }

    /** SetMaxHistory */
    method SetMaxHistory(limit: int)
      requires Valid()
      modifies this, buf
      ensures Valid() && maxHistory == NormalizeMaxHistory(limit)
      ensures Value() == if maxHistory == old(maxHistory) then old(Value())
                         else RunQueue.Runner(RunQueue.PruneRuns(old(Value()).runs, maxHistory), old(activeId))
    {
      var next := NormalizeMaxHistory(limit);
      if maxHistory == next {
        return;
      }
      ghost var before := Value();
      maxHistory := next;
      assert Value() == before;
      SaveLocked();
      RunQueue.SetCapKeeps(before, next);
    }

    /** NewRunner: loads the persisted runs and dispatches. */
    constructor (persisted: seq<RunQueue.Run>, limit: int, now: Time)
      requires RunQueue.DistinctIds(persisted) && forall x :: x in persisted ==> RunQueue.LegacyStatus(x.state.status)
      ensures Valid() && fresh(buf) && maxHistory == NormalizeMaxHistory(limit)
      ensures Value() == RunQueue.Load(persisted, now, maxHistory)
    {
      buf := new RunObject?[0];
      len := 0;
      byId := map[];
      activeId := "";
      maxHistory := NormalizeMaxHistory(limit);
      new;
      LoadState(persisted, now);
      SaveLocked();
      DispatchLocked(now);
      RunQueue.LoadEstablishes(persisted, now, maxHistory);
    }

    /** The loop of loadState into an empty runner. */
    method LoadState(persisted: seq<RunQueue.Run>, now: Time)
      requires Consistent() && len == 0 && activeId == "" && byId == map[] && RunQueue.DistinctIds(persisted)
      modifies this, buf
      ensures Consistent() && maxHistory == old(maxHistory) && activeId == "" && fresh(byId.Values) && (buf == old(buf) || fresh(buf))
      ensures Values(Listed()) == RunQueue.LoadRuns(persisted, now)
    {
      for i := 0 to |persisted|
        invariant Consistent() && maxHistory == old(maxHistory) && activeId == "" && fresh(byId.Values) && (buf == old(buf) || fresh(buf))
        invariant Values(Listed()) == RunQueue.LoadRuns(persisted[..i], now)
      {
        RunQueue.LoadNext(persisted, i, now);
        if persisted[i].id != "" {
          var _ := IndexedRun(persisted[i].id);
          AppendValue(RunQueue.LoadRun(persisted[i], now));
        }
      }
      assert persisted[..|persisted|] == persisted;
    }
  }

  lemma Shifted(after: seq<RunObject>, all: seq<RunObject>, i: nat)
    requires i < |all| && |after| == |all| - 1
    requires forall j :: 0 <= j < i ==> after[j] == all[j]
    requires forall j :: i <= j < |after| ==> after[j] == all[j + 1]
    ensures after == all[..i] + all[i + 1..]
  {
  }

  lemma ValuesWithout(s: seq<RunObject>, i: nat)
    requires i < |s|
    ensures Values(s[..i] + s[i + 1..]) == Values(s)[..i] + Values(s)[i + 1..]
  {
  }

  function Stored(r: RunQueue.Runner, i: nat, state: RunQueue.RunState, active: string, cap: int): RunQueue.Runner
    requires i < |r.runs|
  {
    RunQueue.Runner(RunQueue.PruneRuns(r.runs[i := r.runs[i].(state := state)], cap), active)
  }

  // ---- the compaction as a function of the position -----------------------------------------------

  function Kept(vals: seq<RunQueue.Run>, i: nat, excess: nat): (pos: seq<nat>)
    requires i <= |vals|
    ensures |pos| <= i && forall j :: 0 <= j < |pos| ==> pos[j] < i
  {
    KeptPositions(vals, i, RunQueue.FinishedRun, excess)
  }

  function Left(vals: seq<RunQueue.Run>, i: nat, excess: nat): nat
    requires i <= |vals|
  {
    LeftToDrop(vals, i, RunQueue.FinishedRun, excess)
  }

  predicate DropsRun(vals: seq<RunQueue.Run>, i: nat, excess: nat)
    requires i < |vals|
  {
    DropsAt(vals, i, RunQueue.FinishedRun, excess)
  }

  /** The index after the first i entries. */
  function IndexAfter(byId: map<string, RunObject>, all: seq<RunObject>, vals: seq<RunQueue.Run>, i: nat, excess: nat): map<string, RunObject>
    requires i <= |vals| == |all|
  {
    if i == 0 then byId
    else
      var before := IndexAfter(byId, all, vals, i - 1, excess);
      if DropsRun(vals, i - 1, excess) then before - {all[i - 1].id} else before
  }

  lemma MoveNext(byId: map<string, RunObject>, all: seq<RunObject>, vals: seq<RunQueue.Run>, i: nat, excess: nat)
    requires i < |vals| == |all|
    ensures var dropped := Left(vals, i, excess) > 0 && Terminal(vals[i].state.status);
      && Kept(vals, i + 1, excess) == (if dropped then Kept(vals, i, excess) else Kept(vals, i, excess) + [i])
      && Left(vals, i + 1, excess) == (if dropped then Left(vals, i, excess) - 1 else Left(vals, i, excess))
      && IndexAfter(byId, all, vals, i + 1, excess) ==
         (if dropped then IndexAfter(byId, all, vals, i, excess) - {all[i].id} else IndexAfter(byId, all, vals, i, excess))
  {
    LeftNext(vals, i, RunQueue.FinishedRun, excess);
  }

  /** Kept and still to be read, after the first i entries. */
  function Present(all: seq<RunObject>, pos: seq<nat>, i: nat): seq<RunObject>
    requires i <= |all| && forall j :: 0 <= j < |pos| ==> pos[j] < i
  {
    Picked(all, pos) + all[i..]
  }

  lemma PresentNext(all: seq<RunObject>, pos: seq<nat>, i: nat)
    requires i < |all| && forall j :: 0 <= j < |pos| ==> pos[j] < i
    ensures Present(all, pos + [i], i + 1) == Present(all, pos, i)
    ensures var s := Present(all, pos, i);
      |pos| < |s| && s[|pos|] == all[i] && s[..|pos|] + s[|pos| + 1..] == Present(all, pos, i + 1)
  {
    assert Picked(all, pos + [i]) == Picked(all, pos) + [all[i]];
    assert all[i..] == [all[i]] + all[i + 1..];
  }

  ghost predicate IndexedBy(byId: map<string, RunObject>, s: seq<RunObject>) {
    Distinct(s) && Indexes(byId, s)
  }

  lemma IndexFollowsNext(byId: map<string, RunObject>, all: seq<RunObject>, pos: seq<nat>, i: nat)
    requires i < |all| && forall j :: 0 <= j < |pos| ==> pos[j] < i
    requires IndexedBy(byId, Present(all, pos, i))
    ensures IndexedBy(byId, Present(all, pos + [i], i + 1))
    ensures IndexedBy(byId - {all[i].id}, Present(all, pos, i + 1))
  {
    PresentNext(all, pos, i);
    IndexDrop(byId, Present(all, pos, i), |pos|);
  }

  lemma {:induction false} IndexFollows(byId: map<string, RunObject>, all: seq<RunObject>, vals: seq<RunQueue.Run>, i: nat, excess: nat)
    requires i <= |vals| == |all| && IndexedBy(byId, all)
    ensures IndexedBy(IndexAfter(byId, all, vals, i, excess), Present(all, Kept(vals, i, excess), i))
  {
    if i == 0 {
      assert Present(all, [], 0) == all;
    } else {
      IndexFollows(byId, all, vals, i - 1, excess);
      IndexFollowsNext(IndexAfter(byId, all, vals, i - 1, excess), all, Kept(vals, i - 1, excess), i - 1);
      MoveNext(byId, all, vals, i - 1, excess);
    }
  }

  lemma CompactedIsConsistent(byId: map<string, RunObject>, all: seq<RunObject>, vals: seq<RunQueue.Run>, excess: nat)
    requires |vals| == |all| && Distinct(all) && Indexes(byId, all)
    ensures var pos := Kept(vals, |vals|, excess);
      && Distinct(Picked(all, pos)) && Indexes(IndexAfter(byId, all, vals, |vals|, excess), Picked(all, pos))
      && Picked(vals, pos) == RunQueue.DropFinished(vals, excess)
  {
    var pos := Kept(vals, |vals|, excess);
    IndexFollows(byId, all, vals, |vals|, excess);
    assert Present(all, pos, |all|) == Picked(all, pos);
    PickedIsDropped(vals, |vals|, RunQueue.FinishedRun, excess);
    assert vals[..|vals|] == vals;
  }
}

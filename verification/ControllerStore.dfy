/** The transactional store (ctrlstore.go): every mutation runs on a clone, is
  * persisted, and only then becomes the live state. */
module ControllerStore {
  import opened Model
  import opened History
  import opened Transitions
  import opened Snapshot

  const EMPTY_STATE := State(0, [], map[], [])

  // ---- states up to log offsets ----------------------------------------------------

  function Stripped(x: Exec): Exec {
    x.(logOffset := 0)
  }

  /** Two states that differ at most in recorded log offsets. */
  ghost predicate SameUpToOffsets(a: State, b: State) {
    && a.sequence == b.sequence && a.last == b.last && a.origins == b.origins && |a.execs| == |b.execs|
    && forall i :: 0 <= i < |a.execs| ==> Stripped(a.execs[i]) == Stripped(b.execs[i])
  }

  /** What load() makes of a persisted snapshot and the sizes of the log files. */
  function Loaded(disk: Option<State>, offsets: map<ExecId, int>): State {
    if disk.None? then EMPTY_STATE
    else
      var execs := Reload(disk.value.execs, offsets);
      disk.value.(execs := execs, origins := Backfilled(disk.value.origins, execs))
  }

  lemma OffsetIsInvisible(execs: seq<Exec>, id: ExecId, offset: int)
    ensures var r := WithOffset(execs, id, offset);
      |r| == |execs| && forall i :: 0 <= i < |r| ==> Stripped(r[i]) == Stripped(execs[i])
  {
  }

  /** Every execution that carries an origin has its ledger row. */
  ghost predicate LedgerBearing(st: State) {
    forall x :: x in st.execs ==> MissingRow(st.origins, x) == []
  }

  lemma {:induction false} BackfillIsNoop(origins: seq<ImportedOrigin>, execs: seq<Exec>)
    requires forall x :: x in execs ==> MissingRow(origins, x) == []
    ensures Backfilled(origins, execs) == origins
    decreases |execs|
  {
    if |execs| > 0 {
      assert execs[0] in execs;
      assert origins + [] == origins;
      BackfillIsNoop(origins, execs[1..]);
    }
  }

  /** A restart reproduces a ledger-bearing state up to the log offsets, which
    * are taken from the log files. */
  lemma LoadReproduces(disk: State, live: State, offsets: map<ExecId, int>)
    requires SameUpToOffsets(disk, live) && LedgerBearing(live)
    ensures SameUpToOffsets(Loaded(Some(disk), offsets), live)
    ensures var r := Loaded(Some(disk), offsets);
      forall i :: 0 <= i < |r.execs| && r.execs[i].id in offsets ==> r.execs[i].logOffset == offsets[r.execs[i].id]
  {
    var r := Loaded(Some(disk), offsets);
    forall x | x in r.execs
      ensures MissingRow(disk.origins, x) == []
    {
      var i :| 0 <= i < |r.execs| && r.execs[i] == x;
      assert Stripped(disk.execs[i]) == Stripped(live.execs[i]);
      assert live.execs[i] in live.execs;
    }
    BackfillIsNoop(disk.origins, r.execs);
  }

  /** A restart backfills what an older snapshot left out of the ledger: every
    * existing row stays and every execution's origin is covered afterwards. */
  lemma {:induction false} BackfillCovers(origins: seq<ImportedOrigin>, execs: seq<Exec>)
    ensures origins <= Backfilled(origins, execs)
    ensures forall x :: x in execs ==> MissingRow(Backfilled(origins, execs), x) == []
    ensures UniqueKeys(origins) ==> UniqueKeys(Backfilled(origins, execs))
    decreases |execs|
  {
    if |execs| > 0 {
      var more := origins + MissingRow(origins, execs[0]);
      BackfillCovers(more, execs[1..]);
      assert more <= Backfilled(origins, execs);
      forall x | x in execs
        ensures MissingRow(Backfilled(origins, execs), x) == []
      {
        if x == execs[0] {
          if MissingRow(origins, x) != [] { assert more[|origins|].key == x.origin.value.key; }
          CoveredStays(more, Backfilled(origins, execs), x);
        } else {
          assert x in execs[1..];
        }
      }
      if UniqueKeys(origins) {
        forall i | 0 <= i < |origins| && MissingRow(origins, execs[0]) != []
          ensures origins[i].key != execs[0].origin.value.key
        {
          assert origins[i] in origins;
        }
      }
    }
  }

  lemma CoveredStays(origins: seq<ImportedOrigin>, more: seq<ImportedOrigin>, x: Exec)
    requires origins <= more && MissingRow(origins, x) == []
    ensures MissingRow(more, x) == []
  {
  }

  ghost predicate UniqueKeys(origins: seq<ImportedOrigin>) {
    forall i, j :: 0 <= i < j < |origins| ==> origins[i].key != origins[j].key
  }

  // ---- the store ----------------------------------------------------------------------

  class ControllerStore {
    var data: StateData
    var maxHistory: int
    /** The state file; None before the first write. */
    var disk: Option<State>
    /** How often subscribers were woken. */
    var changed: nat

    function Value(): State
      reads this, data, data.executions
    {
      data.Value()
    }

    /** The live objects are distinct, and the state file holds the live state
      * up to log offsets. */
    ghost predicate Valid()
      reads this, data, data.executions
    {
      && DistinctObjects(data.executions)
      && (if disk.Some? then SameUpToOffsets(disk.value, Value()) else Value() == EMPTY_STATE)
    }

    constructor (maxHistory: int)
      ensures Valid() && fresh(data) && disk == None && Value() == EMPTY_STATE
      ensures this.maxHistory == NormalizeMaxHistory(maxHistory)
    {
      data := new StateData(0, [], map[], []);
      this.maxHistory := NormalizeMaxHistory(maxHistory);
      disk := None;
      changed := 0;
    }

    /** What one call of mutate did, when its callback would turn the state into
      * `target` (None: the callback returned an error) and `saved` says whether
      * the snapshot could be written. Without an acknowledged commit the live
      * objects, their contents and the file are all as before. */
    twostate predicate Mutated(target: Option<State>, saved: bool)
      reads this, data, data.executions
    {
      && maxHistory == old(maxHistory)
      && if target.Some? && saved then
           && Value() == Finish(target.value, target.value.execs, maxHistory)
           && disk == Some(Value())
           && changed == old(changed) + 1
         else
           data == old(data) && Value() == old(Value()) && disk == old(disk) && changed == old(changed)
    }

    /** mutateLocked after its callback succeeded on the clone `next`. */
    method Commit(next: StateData, saved: bool)
      requires Valid() && DistinctObjects(next.executions) && next != data
      modifies this, next`sequence, next`executions
      ensures Valid() && Mutated(old(Some(next.Value())), saved)
      ensures data == if saved then next else old(data)
      ensures forall x :: x in next.executions ==> x in old(next.executions)
    {
      next.Seal(maxHistory);
      if saved {
        disk := Some(next.Value());
        data := next;
        changed := changed + 1;
      }
    }

    /** The rest of mutate once the callback returned `out` on the clone. */
    method Complete(next: StateData, out: Outcome, saved: bool) returns (err: Option<Error>)
      requires Valid() && DistinctObjects(next.executions) && next != data
      modifies this, next`sequence, next`executions
      ensures Valid() && Mutated(if out.Applied? then old(Some(next.Value())) else None, saved)
      ensures data == old(data) || data == next
      ensures forall x :: x in next.executions ==> x in old(next.executions)
      ensures err == match out {
                case Applied => if saved then None else Some(PersistFailed)
                case NoStateChange => None
                case Errored(e) => Some(e)
              }
    {
      match out
      case Applied =>
        Commit(next, saved);
        err := if saved then None else Some(PersistFailed);
      case NoStateChange =>
        err := None;
      case Errored(e) =>
        err := Some(e);
    }

    /** SetMaxHistory */
    method SetMaxHistory(limit: int, saved: bool) returns (err: Option<Error>)
      requires Valid()
      modifies this
      ensures Valid() && maxHistory == (if NormalizeMaxHistory(limit) == old(maxHistory) then old(maxHistory) else NormalizeMaxHistory(limit))
      ensures var changes := NormalizeMaxHistory(limit) != old(maxHistory);
        && (err == if changes && !saved then Some(PersistFailed) else None)
        && (if changes && saved then Value() == Finish(old(Value()), old(Value()).execs, limit) && disk == Some(Value())
            else data == old(data) && Value() == old(Value()) && disk == old(disk))
    {
      var next := NormalizeMaxHistory(limit);
      if next == maxHistory {
        return None;
      }
      maxHistory := next;
      var clone := data.Clone();
      Commit(clone, saved);
      err := if saved then None else Some(PersistFailed);
    }

    /** SetLogOffset: in memory only, and never backwards. */
    method SetLogOffset(id: ExecId, offset: int)
      requires Valid()
      modifies data.executions
      ensures Valid()
      ensures Value() == old(Value()).(execs := WithOffset(old(Value()).execs, id, offset))
    {
      data.RaiseLogOffset(id, offset);
      OffsetIsInvisible(old(Value()).execs, id, offset);
    }

    /** load, by a restarted process: the file is read into new objects. */
    method Restart(offsets: map<ExecId, int>)
      requires Valid()
      modifies this
      ensures Valid() || !LedgerBearing(old(Value()))
      ensures Value() == Loaded(old(disk), offsets) && disk == old(disk)
      ensures LedgerBearing(old(Value())) ==> SameUpToOffsets(Value(), old(Value()))
    {
      ghost var live := Value();
      data := Load(disk, offsets);
      if LedgerBearing(live) && disk.Some? {
        LoadReproduces(disk.value, live, offsets);
        SameIsTransitive(disk.value, live, Value());
      }
    }
  }

  lemma SameIsTransitive(disk: State, live: State, loaded: State)
    requires SameUpToOffsets(disk, live) && SameUpToOffsets(loaded, live)
    ensures SameUpToOffsets(disk, loaded)
  {
  }

  method Load(disk: Option<State>, offsets: map<ExecId, int>) returns (loaded: StateData)
    ensures fresh(loaded) && fresh(loaded.executions) && DistinctObjects(loaded.executions)
    ensures loaded.Value() == Loaded(disk, offsets)
  {
    if disk.None? {
      loaded := new StateData(0, [], map[], []);
    } else {
      loaded := Decode(disk.value);
      loaded.ReadLogOffsets(offsets);
      loaded.Backfill();
    }
  }

  /** json.Unmarshal of a snapshot: new objects with the same content. */
  method Decode(st: State) returns (d: StateData)
    ensures fresh(d) && fresh(d.executions) && DistinctObjects(d.executions) && d.Value() == st
  {
    var executions: seq<Execution> := [];
    for i := 0 to |st.execs|
      invariant |executions| == i && fresh(executions) && DistinctObjects(executions)
      invariant forall k :: 0 <= k < i ==> executions[k].record == st.execs[k]
    {
      var execution := new Execution(st.execs[i]);
      executions := executions + [execution];
    }
    d := new StateData(st.sequence, executions, st.last, st.origins);
    assert d.Execs() == st.execs;
  }
}

/** The mutable records behind the persisted snapshot (ctrlstate.go): objects
  * that callbacks update in place, and the deep clone that keeps the live state
  * out of their reach. */
module Snapshot {
  import opened Model
  import opened History
  import opened Transitions

  /** A *Execution: a shared record whose fields are assigned in place. */
  class Execution {
    var record: Exec

    constructor (record: Exec)
      ensures this.record == record
    {
      this.record := record;
    }

    method Clone() returns (copied: Execution)
      ensures fresh(copied) && copied.record == record
    {
      copied := new Execution(record);
    }
  }

  function Values(s: seq<Execution>): (r: seq<Exec>)
    reads s
    ensures |r| == |s|
    ensures forall i :: 0 <= i < |s| ==> r[i] == s[i].record
  {
    seq(|s|, i requires 0 <= i < |s| reads s => s[i].record)
  }

  ghost predicate DistinctObjects(s: seq<Execution>) {
    forall i, j :: 0 <= i < j < |s| ==> s[i] != s[j]
  }

  /** How a mutation callback ended: nil, errNoStateChange, or another error. */
  datatype Outcome = Applied | NoStateChange | Errored(err: Error)

  // ---- random ids ----------------------------------------------------------------------------

  ghost predicate Inexhaustible(supply: nat -> ExecId) {
    forall taken: set<ExecId> :: HasUnused(supply, taken)
  }

  ghost predicate HasUnused(supply: nat -> ExecId, taken: set<ExecId>) {
    exists n :: supply(n) !in taken
  }

  /** Draws random ids until one is not taken. */
  method UnusedId(taken: set<ExecId>, supply: nat -> ExecId) returns (id: ExecId)
    requires Inexhaustible(supply)
    ensures id !in taken
  {
    assert HasUnused(supply, taken);
    ghost var unused: nat :| supply(unused) !in taken;
    var n := 0;
    id := supply(n);
    while id in taken
      invariant n <= unused && id == supply(n)
      decreases unused - n
    {
      n := n + 1;
      id := supply(n);
    }
  }

  class StateData {
    var sequence: nat
    var executions: seq<Execution>
    var last: map<AgentId, Time>
    var origins: seq<ImportedOrigin>

    constructor (sequence: nat, executions: seq<Execution>, last: map<AgentId, Time>, origins: seq<ImportedOrigin>)
      ensures this.sequence == sequence && this.executions == executions && this.last == last && this.origins == origins
    {
      this.sequence, this.executions, this.last, this.origins := sequence, executions, last, origins;
    }

    function Execs(): (r: seq<Exec>)
      reads this, executions
      ensures |r| == |executions|
      ensures forall i :: 0 <= i < |r| ==> r[i] == executions[i].record
    {
      Values(executions)
    }

    function Value(): State
      reads this, executions
    {
      State(sequence, Execs(), last, origins)
    }

    /** The deep copy every mutation works on: the same value, no shared object. */
    method Clone() returns (next: StateData)
      ensures fresh(next) && fresh(next.executions) && DistinctObjects(next.executions)
      ensures next.Value() == Value()
    {
      var copies: seq<Execution> := [];
      for i := 0 to |executions|
        invariant |copies| == i && fresh(copies) && DistinctObjects(copies)
        invariant forall k :: 0 <= k < i ==> copies[k].record == executions[k].record
      {
        var copied := executions[i].Clone();
        copies := copies + [copied];
      }
      next := new StateData(sequence, copies, last, origins);
      assert next.Execs() == Execs();
    }

    /** The first execution with this id. */
    method Find(id: ExecId) returns (found: Execution?)
      ensures found == null <==> FindIndex(Execs(), id) < 0
      ensures found != null ==> found == executions[FindIndex(Execs(), id)] && found.record.id == id
    {
      for i := 0 to |executions|
        invariant forall k :: 0 <= k < i ==> executions[k].record.id != id
      {
        if executions[i].record.id == id {
          FirstMatch(Execs(), id, i);
          return executions[i];
        }
      }
      found := null;
    }

    method Append(x: Exec)
      requires DistinctObjects(executions)
      modifies this`executions
      ensures DistinctObjects(executions) && Execs() == old(Execs()) + [x]
    {
      var execution := new Execution(x);
      executions := executions + [execution];
      assert Execs() == old(Execs()) + [x];
    }

    method IdsInUse() returns (ids: set<ExecId>)
      ensures forall e :: e in ids <==> Model.Find(Execs(), e).Some?
    {
      ids := {};
      for i := 0 to |executions|
        invariant forall e :: e in ids <==> exists k :: 0 <= k < i && Execs()[k].id == e
      {
        assert Execs()[i].id == executions[i].record.id;
        ids := ids + {executions[i].record.id};
      }
    }

    method HasOrigin(key: Origin) returns (found: bool)
      ensures found <==> exists o :: o in origins && o.key == key
    {
      for i := 0 to |origins|
        invariant forall k :: 0 <= k < i ==> origins[k].key != key
      {
        if origins[i].key == key {
          return true;
        }
      }
      found := false;
    }

    method CountFinished() returns (terminal: nat)
      ensures terminal == Count(Execs(), Done)
    {
      ghost var all := Execs();
      terminal := 0;
      for i := 0 to |executions|
        invariant terminal == Count(all[..i], Done)
      {
        CountNext(all, i, Done);
        if Terminal(executions[i].record.status) {
          terminal := terminal + 1;
        }
      }
      assert all[..|executions|] == all;
    }

    /** pruneExecutions: count, then copy all but the oldest finished ones. */
    method Prune(maxHistory: int) returns (pruned: seq<ExecId>)
      modifies this`executions
      ensures Execs() == History.Prune(old(Execs()), Done, NormalizeMaxHistory(maxHistory))
      ensures forall x :: x in executions ==> x in old(executions)
      ensures old(DistinctObjects(executions)) ==> DistinctObjects(executions)
      ensures pruned == Ids(Dropped(old(Execs()), Done, Excess(old(Execs()), Done, NormalizeMaxHistory(maxHistory))))
    {
      ghost var all := Execs();
      var terminal := CountFinished();
      var remove := terminal - NormalizeMaxHistory(maxHistory);
      pruned := [];
      if remove <= 0 {
        return;
      }
      var kept;
      kept, pruned := Split(remove);
      executions := kept;
    }

    /** The copying loop of pruneExecutions. */
    method Split(excess: nat) returns (kept: seq<Execution>, pruned: seq<ExecId>)
      ensures Values(kept) == Drop(Execs(), Done, excess)
      ensures pruned == Ids(Dropped(Execs(), Done, excess))
      ensures forall x :: x in kept ==> x in executions
      ensures DistinctObjects(executions) ==> DistinctObjects(kept)
    {
      hide Drop, Dropped, Ids;
      SplitStart(excess);
      ghost var all := Execs();
      var remove := excess;
      kept, pruned := [], [];
      for i := 0 to |executions|
        invariant remove == if Count(all[..i], Done) < excess then excess - Count(all[..i], Done) else 0
        invariant SplitSoFar(kept, pruned, all[..i], excess)
        invariant Within(kept, executions, i)
      {
        var execution := executions[i];
        WithinNext(kept, executions, i);
        CountNext(all, i, Done);
        SplitNext(kept, pruned, all, i, excess, execution);
        if remove > 0 && Terminal(execution.record.status) {
          pruned := pruned + [execution.record.id];
          remove := remove - 1;
        } else {
          kept := kept + [execution];
        }
      }
      assert all[..|executions|] == all;
    }

    /** How mutateLocked closes a successful callback. */
    method Seal(maxHistory: int)
      modifies this`sequence, this`executions
      ensures Value() == Finish(old(Value()), old(Execs()), maxHistory)
      ensures forall x :: x in executions ==> x in old(executions)
      ensures old(DistinctObjects(executions)) ==> DistinctObjects(executions)
    {
      sequence := sequence + 1;
      var _ := Prune(maxHistory);
    }

    /** Records a log offset that lies beyond the known one. */
    method RaiseLogOffset(id: ExecId, offset: int)
      requires DistinctObjects(executions)
      modifies executions
      ensures Execs() == WithOffset(old(Execs()), id, offset)
    {
      var execution := Find(id);
      if execution != null && offset > execution.record.logOffset {
        execution.record := execution.record.(logOffset := offset);
        assert Execs() == old(Execs())[FindIndex(old(Execs()), id) := execution.record];
      }
    }

    /** The offsets load() reads back from the log files. */
    method ReadLogOffsets(offsets: map<ExecId, int>)
      requires DistinctObjects(executions)
      modifies executions
      ensures Execs() == Reload(old(Execs()), offsets)
    {
      ghost var all := Execs();
      for i := 0 to |executions|
        invariant forall k :: 0 <= k < i ==> executions[k].record == Reload(all, offsets)[k]
        invariant forall k :: i <= k < |executions| ==> executions[k].record == all[k]
      {
        var execution := executions[i];
        if execution.record.id in offsets {
          execution.record := execution.record.(logOffset := offsets[execution.record.id]);
        }
      }
      assert Execs() == Reload(all, offsets);
    }

    /** backfillImportedOrigins: rebuild missing ledger rows from the executions
      * that carry their origin. */
    method Backfill()
      modifies this`origins
      ensures Execs() == old(Execs()) && origins == Backfilled(old(origins), old(Execs()))
    {
      ghost var all := Execs();
      var known := set o | o in origins :: o.key;
      for i := 0 to |executions|
        invariant executions == old(executions) && Execs() == all
        invariant Backfilled(origins, all[i..]) == Backfilled(old(origins), all)
        invariant known == LedgerKeys(origins)
      {
        var execution := executions[i];
        BackfillNext(origins, all, i);
        if execution.record.origin.Some? {
          var key := execution.record.origin.value.key;
          if !(key.machine == "" || key.legacyRunId == "" || key in known) {
            known := known + {key};
            assert MissingRow(origins, all[i]) == [ImportedOrigin(key, execution.record.id, execution.record.origin.value.importedAt)];
            origins := origins + [ImportedOrigin(key, execution.record.id, execution.record.origin.value.importedAt)];
          }
        }
      }
      assert all[|executions|..] == [];
    }
  }

  /** kept holds objects of s[..n], each once if s does. */
  ghost predicate Within(kept: seq<Execution>, s: seq<Execution>, n: nat)
    requires n <= |s|
  {
    && (forall x :: x in kept ==> x in s[..n])
    && (DistinctObjects(s) ==> DistinctObjects(kept))
  }

  lemma WithinNext(kept: seq<Execution>, s: seq<Execution>, n: nat)
    requires n < |s| && Within(kept, s, n)
    ensures Within(kept, s, n + 1) && Within(kept + [s[n]], s, n + 1)
  {
    assert s[..n + 1] == s[..n] + [s[n]];
    if DistinctObjects(s) {
      forall k | 0 <= k < |kept|
        ensures kept[k] != s[n]
      {
        assert kept[k] in s[..n];
      }
    }
  }

  ghost predicate SplitSoFar(kept: seq<Execution>, pruned: seq<ExecId>, all: seq<Exec>, excess: nat)
    reads kept
  {
    Values(kept) == Drop(all, Done, excess) && pruned == Ids(Dropped(all, Done, excess))
  }

  lemma SplitStart(excess: nat)
    ensures SplitSoFar([], [], [], excess)
  {
  }

  lemma SplitNext(kept: seq<Execution>, pruned: seq<ExecId>, all: seq<Exec>, i: nat, excess: nat, x: Execution)
    requires i < |all| && x.record == all[i] && SplitSoFar(kept, pruned, all[..i], excess)
    ensures if Terminal(all[i].status) && Count(all[..i], Done) < excess
            then SplitSoFar(kept, pruned + [x.record.id], all[..i + 1], excess)
            else SplitSoFar(kept + [x], pruned, all[..i + 1], excess)
  {
    DropNext(all, i, Done, excess);
    assert Values(kept + [x]) == Values(kept) + [all[i]];
    assert Ids(Dropped(all[..i], Done, excess) + [all[i]]) == Ids(Dropped(all[..i], Done, excess)) + [x.record.id];
  }

  function LedgerKeys(origins: seq<ImportedOrigin>): set<Origin> {
    set o | o in origins :: o.key
  }

  /** The ledger row an execution still lacks, if any. */
  function MissingRow(origins: seq<ImportedOrigin>, x: Exec): seq<ImportedOrigin> {
    if x.origin.None? || x.origin.value.key.machine == "" || x.origin.value.key.legacyRunId == "" || x.origin.value.key in LedgerKeys(origins)
    then []
    else [ImportedOrigin(x.origin.value.key, x.id, x.origin.value.importedAt)]
  }

  function Backfilled(origins: seq<ImportedOrigin>, execs: seq<Exec>): seq<ImportedOrigin>
    decreases |execs|
  {
    if |execs| == 0 then origins
    else Backfilled(origins + MissingRow(origins, execs[0]), execs[1..])
  }

  lemma BackfillNext(origins: seq<ImportedOrigin>, all: seq<Exec>, i: nat)
    requires i < |all|
    ensures Backfilled(origins, all[i..]) == Backfilled(origins + MissingRow(origins, all[i]), all[i + 1..])
    ensures MissingRow(origins, all[i]) == [] ==> origins + MissingRow(origins, all[i]) == origins
  {
  }

  function Ids(execs: seq<Exec>): (r: seq<ExecId>)
    ensures |r| == |execs| && forall k :: 0 <= k < |r| ==> r[k] == execs[k].id
  {
    seq(|execs|, k requires 0 <= k < |execs| => execs[k].id)
  }

  lemma {:induction false} FirstMatch(execs: seq<Exec>, id: ExecId, i: nat)
    requires i < |execs| && execs[i].id == id && forall k :: 0 <= k < i ==> execs[k].id != id
    ensures FindIndex(execs, id) == i
  {
    if i > 0 {
      FirstMatch(execs[1..], id, i - 1);
    }
  }
}

/** importBundle end to end (migrate_import.go): staged logs, the commit, and
  * the clean-up when either fails. */
module ImportBundle {
  import opened Model
  import opened History
  import opened Transitions
  import opened Snapshot
  import opened ControllerStore
  import opened Import
  import opened ImportOrder
  import opened ImportCommit

  type Blob = string

  /** The controller's log directory: one file per execution id. */
  class LogDir {
    var files: map<ExecId, Blob>

    constructor ()
      ensures files == map[]
    {
      files := map[];
    }

    /** copyFile writes the target whole or leaves it alone. */
    method Copy(id: ExecId, content: Blob, copies: bool) returns (ok: bool)
      modifies this
      ensures ok == copies && files == if ok then old(files)[id := content] else old(files)
    {
      if copies {
        files := files[id := content];
      }
      ok := copies;
    }

    method RemoveAll(ids: seq<ExecId>)
      modifies this
      ensures files == old(files) - (set id | id in ids)
    {
      for i := 0 to |ids|
        invariant files == old(files) - (set id | id in ids[..i])
      {
        files := files - {ids[i]};
        assert ids[..i + 1] == ids[..i] + [ids[i]];
      }
      assert ids[..|ids|] == ids;
    }
  }

  /** A planned execution with the bundle log that belongs to it. */
  datatype PlannedImport = PlannedImport(execution: Exec, source: Option<Blob>)

  function Executions(items: seq<PlannedImport>): (r: seq<Exec>)
    ensures |r| == |items| && forall i :: 0 <= i < |items| ==> r[i] == items[i].execution
  {
    seq(|items|, i requires 0 <= i < |items| => items[i].execution)
  }

  /** The files staging a list of items creates, in order. */
  function Targets(items: seq<PlannedImport>): seq<ExecId> {
    if items == [] then []
    else
      var n := |items| - 1;
      Targets(items[..n]) + if items[n].source.Some? then [items[n].execution.id] else []
  }

  function StagedOn(files: map<ExecId, Blob>, items: seq<PlannedImport>): map<ExecId, Blob> {
    if items == [] then files
    else
      var n := |items| - 1;
      var before := StagedOn(files, items[..n]);
      if items[n].source.Some? then before[items[n].execution.id := items[n].source.value] else before
  }

  function IdSet(ids: seq<ExecId>): set<ExecId> {
    set id | id in ids
  }

  /** Removing what was staged undoes the staging, except for a file that was
    * there before under the same name. */
  lemma {:induction false} UnstagingUndoes(files: map<ExecId, Blob>, items: seq<PlannedImport>)
    ensures StagedOn(files, items) - IdSet(Targets(items)) == files - IdSet(Targets(items))
    ensures StagedOn(files, items) - IdSet(Targets(items)) == files <==> IdSet(Targets(items)) !! files.Keys
  {
    StagedElsewhere(files, items);
    if files - IdSet(Targets(items)) == files {
      assert forall id :: id in IdSet(Targets(items)) ==> id !in files - IdSet(Targets(items));
    }
  }

  lemma {:induction false} StagedElsewhere(files: map<ExecId, Blob>, items: seq<PlannedImport>)
    ensures StagedOn(files, items).Keys == files.Keys + IdSet(Targets(items))
    ensures forall id :: id in files && id !in Targets(items) ==> StagedOn(files, items)[id] == files[id]
  {
    if items != [] {
      StagedElsewhere(files, items[..|items| - 1]);
    }
  }

  lemma StageNext(files: map<ExecId, Blob>, items: seq<PlannedImport>, i: nat)
    requires i < |items|
    ensures StagedOn(files, items[..i + 1]) ==
            if items[i].source.Some? then StagedOn(files, items[..i])[items[i].execution.id := items[i].source.value] else StagedOn(files, items[..i])
    ensures Targets(items[..i + 1]) == Targets(items[..i]) + if items[i].source.Some? then [items[i].execution.id] else []
  {
    assert items[..i + 1][..i] == items[..i];
  }

  /** The directory without the files a failed import had created so far. */
  ghost predicate CleanedUp(before: map<ExecId, Blob>, after: map<ExecId, Blob>, items: seq<PlannedImport>) {
    exists n: nat :: IsCleaned(before, after, items, n)
  }

  ghost predicate IsCleaned(before: map<ExecId, Blob>, after: map<ExecId, Blob>, items: seq<PlannedImport>, n: nat) {
    n <= |items| && after == before - IdSet(Targets(items[..n]))
  }

  /** With ids no log was kept under, that is the directory as it was. */
  lemma CleanedUpMeansUnchanged(before: map<ExecId, Blob>, after: map<ExecId, Blob>, items: seq<PlannedImport>)
    requires CleanedUp(before, after, items) && forall item :: item in items ==> item.execution.id !in before
    ensures after == before
  {
    var n: nat :| IsCleaned(before, after, items, n);
    TargetsAreItems(items[..n]);
    assert forall item :: item in items[..n] ==> item in items;
  }

  lemma {:induction false} TargetsAreItems(items: seq<PlannedImport>)
    ensures forall id :: id in Targets(items) ==> exists k :: 0 <= k < |items| && items[k].execution.id == id
  {
    if items != [] {
      var n := |items| - 1;
      TargetsAreItems(items[..n]);
      forall id | id in Targets(items)
        ensures exists k :: 0 <= k < |items| && items[k].execution.id == id
      {
        if id in Targets(items[..n]) {
          var k :| 0 <= k < n && items[..n][k].execution.id == id;
          assert items[k].execution.id == id;
        } else {
          assert items[n].execution.id == id;
        }
      }
    }
  }

  method Cleanup(logs: LogDir, ghost before: map<ExecId, Blob>, items: seq<PlannedImport>, ghost n: nat, created: seq<ExecId>)
    requires n <= |items| && logs.files == StagedOn(before, items[..n]) && created == Targets(items[..n])
    modifies logs
    ensures CleanedUp(before, logs.files, items)
  {
    UnstagingUndoes(before, items[..n]);
    logs.RemoveAll(created);
    assert IsCleaned(before, logs.files, items, n);
  }

  /** Copies every log; on failure what was created is removed again. `copies`
    * says which copies succeed. */
  method StageLogs(logs: LogDir, items: seq<PlannedImport>, copies: ExecId -> bool) returns (ok: bool, created: seq<ExecId>)
    modifies logs
    ensures ok ==> logs.files == StagedOn(old(logs.files), items) && created == Targets(items)
    ensures !ok ==> CleanedUp(old(logs.files), logs.files, items)
  {
    created := [];
    for i := 0 to |items|
      invariant logs.files == StagedOn(old(logs.files), items[..i]) && created == Targets(items[..i])
    {
      StageNext(old(logs.files), items, i);
      if items[i].source.None? {
        continue;
      }
      var id := items[i].execution.id;
      ok := logs.Copy(id, items[i].source.value, copies(id));
      if !ok {
        Cleanup(logs, old(logs.files), items, i, created);
        return;
      }
      created := created + [id];
    }
    assert items[..|items|] == items;
    ok := true;
  }

  /** applyImports: all or nothing. */
  method ApplyImports(store: ControllerStore, logs: LogDir, machine: string, items: seq<PlannedImport>, copies: ExecId -> bool,
                      now: Time, cap: nat, saved: bool) returns (err: Option<Error>)
    requires store.Valid()
    modifies store, logs
    ensures store.Valid()
    // success: the batch, its rows and every log
    ensures err.None? ==>
              var r := ImportInto(old(store.Value()), machine, Executions(items), now, cap);
              r.Accepted? && saved && store.Mutated(Some(r.st), true) && logs.files == StagedOn(old(logs.files), items)
    // failure: the state as it was, and no staged file left
    ensures err.Some? ==> store.Value() == old(store.Value()) && store.disk == old(store.disk)
    ensures err.Some? ==> CleanedUp(old(logs.files), logs.files, items)
  {
    hide ImportInto, StagedOn, CleanedUp;
    var ok, created := StageLogs(logs, items, copies);
    if !ok {
      return Some(LogCopyFailed);
    }
    err := CommitImport(store, machine, Executions(items), now, cap, saved);
    if err.Some? {
      assert items[..|items|] == items;
      Cleanup(logs, old(logs.files), items, |items|, created);
    }
  }

  method CommitImport(store: ControllerStore, machine: string, planned: seq<Exec>, now: Time, cap: nat, saved: bool) returns (err: Option<Error>)
    requires store.Valid()
    modifies store
    ensures var r := ImportInto(old(store.Value()), machine, planned, now, cap);
      && store.Valid() && store.Mutated(if r.Accepted? then Some(r.st) else None, saved)
      && err == (if r.Rejected? then Some(r.err) else if saved then None else Some(PersistFailed))
  {
    var next, out := PrepareImport(store.data, machine, planned, now, cap);
    err := store.Complete(next, out, saved);
  }

  // ---- planning and committing together ---------------------------------------------------------

  ghost predicate FreshIds(planned: seq<Exec>, execs: seq<Exec>) {
    && (forall k, x :: 0 <= k < |planned| && x in execs ==> x.id != planned[k].id)
    && (forall k, l :: 0 <= k < l < |planned| ==> planned[k].id != planned[l].id)
  }

  ghost predicate FreshKeys(machine: string, planned: seq<Exec>, origins: seq<ImportedOrigin>) {
    && (forall k :: 0 <= k < |planned| ==> PlannedKey(machine, planned[k]) !in LedgerKeys(origins))
    && (forall k, l :: 0 <= k < l < |planned| ==> PlannedKey(machine, planned[k]) != PlannedKey(machine, planned[l]))
  }

  /** A batch planned against a state is refused by the same state for lack of
    * headroom only. */
  lemma {:induction false} FreshBatchIsAccepted(st: State, machine: string, planned: seq<Exec>, now: Time)
    requires FreshIds(planned, st.execs) && FreshKeys(machine, planned, st.origins)
    ensures AddRows(st, machine, planned, now).Accepted?
    decreases |planned|
  {
    if |planned| > 0 {
      var next := WithImport(st, machine, planned[0], now);
      forall k | 0 <= k < |planned| - 1
        ensures PlannedKey(machine, planned[1..][k]) !in LedgerKeys(next.origins)
      {
        assert planned[1..][k] == planned[k + 1];
      }
      FreshBatchIsAccepted(next, machine, planned[1..], now);
    }
  }

  lemma PlannedIsFresh(planned: seq<Exec>, positions: seq<nat>, runs: seq<LegacyRun>, machine: string, st: State)
    requires Plans(planned, positions, runs, |runs|, machine, LedgerKeys(st.origins), IdsOf(st.execs))
    ensures FreshIds(planned, st.execs) && FreshKeys(machine, planned, st.origins) && Keyed(machine, planned)
  {
  }

  /** Planned against the current state, an import commits exactly when the cap
    * holds the terminal executions there are and the planned ones. */
  lemma ImportFitsExactly(planned: seq<Exec>, positions: seq<nat>, runs: seq<LegacyRun>, machine: string, st: State, now: Time, cap: nat)
    requires Plans(planned, positions, runs, |runs|, machine, LedgerKeys(st.origins), IdsOf(st.execs))
    requires forall x :: x in planned ==> Terminal(x.status)
    ensures ImportInto(st, machine, planned, now, cap).Accepted? <==> FinishedCount(st.execs) + |planned| <= cap
  {
    PlannedIsFresh(planned, positions, runs, machine, st);
    FreshBatchIsAccepted(st, machine, planned, now);
    AcceptedAppends(st, machine, planned, now);
    CountAppend(st.execs, planned, Done);
    AllFinished(planned);
  }

  lemma {:induction false} AllFinished(planned: seq<Exec>)
    requires forall x :: x in planned ==> Terminal(x.status)
    ensures FinishedCount(planned) == |planned|
  {
    if |planned| > 0 {
      AllFinished(planned[1..]);
    }
  }

  /** Repeating a committed import imports nothing. */
  lemma RepeatedImportIsEmpty(st: State, next: State, machine: string, planned: seq<Exec>, positions: seq<nat>, again: seq<Exec>, positionsAgain: seq<nat>,
                              runs: seq<LegacyRun>, now: Time)
    requires Plans(planned, positions, runs, |runs|, machine, LedgerKeys(st.origins), IdsOf(st.execs))
    requires st.origins + Rows(machine, planned, now) <= next.origins
    requires Plans(again, positionsAgain, runs, |runs|, machine, LedgerKeys(next.origins), IdsOf(next.execs))
    ensures again == []
  {
    PlannedIsFresh(planned, positions, runs, machine, st);
    LedgerKeysGrow(st.origins, st.origins + Rows(machine, planned, now));
    LedgerKeysGrow(st.origins + Rows(machine, planned, now), next.origins);
    forall i | 0 <= i < |runs|
      ensures !FateOf(runs, machine, LedgerKeys(next.origins), i).Taken?
    {
      if FateOf(runs, machine, LedgerKeys(st.origins), i).Taken? {
        var k :| 0 <= k < |positions| && positions[k] == i;
        assert PlannedFrom(planned[k], machine, runs[i]);
        RowsCover(st.origins, machine, planned, now, k);
      }
    }
    if again != [] {
      SomethingTaken(again, positionsAgain, runs, machine, LedgerKeys(next.origins), IdsOf(next.execs));
    }
  }

  lemma SomethingTaken(planned: seq<Exec>, positions: seq<nat>, runs: seq<LegacyRun>, machine: string, ledger: set<Origin>, used: set<ExecId>)
    requires Plans(planned, positions, runs, |runs|, machine, ledger, used) && planned != []
    ensures exists i :: 0 <= i < |runs| && FateOf(runs, machine, ledger, i).Taken?
  {
    assert FateOf(runs, machine, ledger, positions[0]).Taken?;
  }
}

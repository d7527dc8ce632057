/** Importing legacy history (migrate_import.go): which runs are taken, the
  * all-or-nothing commit, and the ledger that outlives the executions. */
module Import {
  import opened Model
  import opened History
  import opened Transitions
  import opened Snapshot
  import opened ControllerStore
  import opened ImportOrder

  datatype Report = Report(imported: nat, skipped: nat, existing: nat)

  function KeyOf(machine: string, run: LegacyRun): Origin {
    Origin(machine, run.id)
  }

  // ---- planning -----------------------------------------------------------------------------

  datatype Fate = Taken | Skipped | Existing

  /** What planImports decides about runs[i]. */
  ghost predicate Repeats(runs: seq<LegacyRun>, i: nat)
    requires i < |runs|
  {
    exists j :: 0 <= j < i && runs[j].id == runs[i].id
  }

  ghost function FateOf(runs: seq<LegacyRun>, machine: string, ledger: set<Origin>, i: nat): Fate
    requires i < |runs|
  {
    if Repeats(runs, i) || !runs[i].finished then Skipped
    else if KeyOf(machine, runs[i]) in ledger then Existing
    else if runs[i].built.None? then Skipped
    else Taken
  }

  ghost function Fates(runs: seq<LegacyRun>, machine: string, ledger: set<Origin>): (f: seq<Fate>)
    ensures |f| == |runs| && forall i :: 0 <= i < |runs| ==> f[i] == FateOf(runs, machine, ledger, i)
  {
    seq(|runs|, i requires 0 <= i < |runs| => FateOf(runs, machine, ledger, i))
  }

  ghost function CountFate(fates: seq<Fate>, f: Fate): nat {
    Count(fates, x => x == f)
  }

  lemma {:induction false} FatesAddUp(fates: seq<Fate>)
    ensures CountFate(fates, Taken) + CountFate(fates, Skipped) + CountFate(fates, Existing) == |fates|
  {
    if |fates| > 0 {
      FatesAddUp(fates[1..]);
    }
  }

  lemma CountFateNext(fates: seq<Fate>, i: nat, f: Fate)
    requires i < |fates|
    ensures CountFate(fates[..i + 1], f) == CountFate(fates[..i], f) + if fates[i] == f then 1 else 0
  {
    assert fates[..i + 1] == fates[..i] + [fates[i]];
    CountAppend(fates[..i], [fates[i]], x => x == f);
  }

  /** A planned execution: what the run was built into, under an id of its own,
    * labelled with the run's key. */
  ghost predicate PlannedFrom(x: Exec, machine: string, run: LegacyRun) {
    && run.built.Some? && x.origin.Some? && x.origin.value.key == KeyOf(machine, run)
    && x == run.built.value.(id := x.id, origin := x.origin)
  }

  /** planned lists the runs that are taken, in order, under distinct unused
    * ids. */
  ghost predicate Plans(planned: seq<Exec>, positions: seq<nat>, runs: seq<LegacyRun>, n: nat, machine: string, ledger: set<Origin>, used: set<ExecId>)
    requires n <= |runs|
  {
    && |positions| == |planned|
    && (forall k, l :: 0 <= k < l < |positions| ==> positions[k] < positions[l])
    && (forall k :: 0 <= k < |positions| ==> positions[k] < n && FateOf(runs, machine, ledger, positions[k]).Taken?)
    && (forall i :: 0 <= i < n && FateOf(runs, machine, ledger, i).Taken? ==> i in positions)
    && (forall k :: 0 <= k < |planned| ==> PlannedFrom(planned[k], machine, runs[positions[k]]) && planned[k].id !in used)
    && (forall k, l :: 0 <= k < l < |planned| ==> planned[k].id != planned[l].id)
  }

  lemma PlansSkip(planned: seq<Exec>, positions: seq<nat>, runs: seq<LegacyRun>, n: nat, machine: string, ledger: set<Origin>, used: set<ExecId>)
    requires n < |runs| && Plans(planned, positions, runs, n, machine, ledger, used) && !FateOf(runs, machine, ledger, n).Taken?
    ensures Plans(planned, positions, runs, n + 1, machine, ledger, used)
  {
  }

  lemma PlansTake(planned: seq<Exec>, positions: seq<nat>, runs: seq<LegacyRun>, n: nat, machine: string, ledger: set<Origin>, used: set<ExecId>, x: Exec)
    requires n < |runs| && Plans(planned, positions, runs, n, machine, ledger, used) && FateOf(runs, machine, ledger, n).Taken?
    requires PlannedFrom(x, machine, runs[n]) && x.id !in used && forall k :: 0 <= k < |planned| ==> planned[k].id != x.id
    ensures Plans(planned + [x], positions + [n], runs, n + 1, machine, ledger, used)
  {
    var q := positions + [n];
    assert q[|positions|] == n;
    forall i | 0 <= i < n && FateOf(runs, machine, ledger, i).Taken?
      ensures i in q
    {
      assert i in positions;
    }
  }

  /** planImports */
  method PlanImports(bundle: seq<LegacyRun>, machine: string, origins: seq<ImportedOrigin>, used: set<ExecId>, supply: nat -> ExecId, now: Time)
    returns (planned: seq<Exec>, report: Report, ghost positions: seq<nat>)
    requires Inexhaustible(supply)
    ensures Plans(planned, positions, Sorted(bundle), |Sorted(bundle)|, machine, LedgerKeys(origins), used)
    ensures |planned| == report.imported && report.imported + report.skipped + report.existing == |bundle|
    ensures report.skipped == CountFate(Fates(Sorted(bundle), machine, LedgerKeys(origins)), Skipped)
    ensures report.existing == CountFate(Fates(Sorted(bundle), machine, LedgerKeys(origins)), Existing)
  {
    hide Plans, PlannedFrom, Seen, Repeats, Sorted;
    var runs := Sorted(bundle);
    SortedLength(bundle);
    planned, positions := [], [];
    report := Report(0, 0, 0);
    var taken := used;
    var seen: set<Origin> := {};
    var ledger := LedgerKeys(origins);
    PlanningStarts(runs, machine, ledger, used);
    for i := 0 to |runs|
      invariant Planning(planned, positions, report, runs, i, machine, ledger, used, taken, seen)
    {
      var run := runs[i];
      var fate := Judge(run, KeyOf(machine, run), seen, ledger);
      PlanningJudges(planned, positions, report, runs, i, machine, ledger, used, taken, seen);
      if fate.Taken? {
        var x := Build(run, machine, taken, supply, now);
        PlanningTakes(planned, positions, report, runs, i, machine, ledger, used, taken, seen, x);
        taken := taken + {x.id};
        planned := planned + [x];
        positions := positions + [i];
      } else {
        PlanningSkips(planned, positions, report, runs, i, machine, ledger, used, taken, seen);
      }
      report := Tally(report, fate);
      seen := seen + {KeyOf(machine, run)};
    }
    PlanningEnds(planned, positions, report, runs, machine, ledger, used, taken, seen);
  }

  /** The state of the planning loop before run i. */
  ghost predicate Planning(planned: seq<Exec>, positions: seq<nat>, report: Report, runs: seq<LegacyRun>, i: nat, machine: string,
                           ledger: set<Origin>, used: set<ExecId>, taken: set<ExecId>, seen: set<Origin>)
  {
    && i <= |runs| && Plans(planned, positions, runs, i, machine, ledger, used) && Seen(runs, machine, i, seen)
    && taken == used + IdsOf(planned) && |planned| == report.imported && Tallies(report, Fates(runs, machine, ledger)[..i])
  }

  lemma PlanningStarts(runs: seq<LegacyRun>, machine: string, ledger: set<Origin>, used: set<ExecId>)
    ensures Planning([], [], Report(0, 0, 0), runs, 0, machine, ledger, used, used, {})
  {
  }

  lemma PlanningJudges(planned: seq<Exec>, positions: seq<nat>, report: Report, runs: seq<LegacyRun>, i: nat, machine: string,
                       ledger: set<Origin>, used: set<ExecId>, taken: set<ExecId>, seen: set<Origin>)
    requires Planning(planned, positions, report, runs, i, machine, ledger, used, taken, seen) && i < |runs|
    ensures KeyOf(machine, runs[i]) in seen <==> Repeats(runs, i)
  {
  }

  lemma PlanningSkips(planned: seq<Exec>, positions: seq<nat>, report: Report, runs: seq<LegacyRun>, i: nat, machine: string,
                      ledger: set<Origin>, used: set<ExecId>, taken: set<ExecId>, seen: set<Origin>)
    requires Planning(planned, positions, report, runs, i, machine, ledger, used, taken, seen) && i < |runs|
    requires !FateOf(runs, machine, ledger, i).Taken?
    ensures Planning(planned, positions, Tally(report, FateOf(runs, machine, ledger, i)), runs, i + 1, machine, ledger, used, taken,
                     seen + {KeyOf(machine, runs[i])})
  {
    SeenMeansRepeats(runs, machine, i, seen);
    TallyNext(report, Fates(runs, machine, ledger), i);
    PlansSkip(planned, positions, runs, i, machine, ledger, used);
  }

  lemma PlanningTakes(planned: seq<Exec>, positions: seq<nat>, report: Report, runs: seq<LegacyRun>, i: nat, machine: string,
                      ledger: set<Origin>, used: set<ExecId>, taken: set<ExecId>, seen: set<Origin>, x: Exec)
    requires Planning(planned, positions, report, runs, i, machine, ledger, used, taken, seen) && i < |runs|
    requires FateOf(runs, machine, ledger, i).Taken? && PlannedFrom(x, machine, runs[i]) && x.id !in taken
    ensures Planning(planned + [x], positions + [i], Tally(report, Taken), runs, i + 1, machine, ledger, used, taken + {x.id},
                     seen + {KeyOf(machine, runs[i])})
  {
    hide Plans, PlannedFrom, Seen, Tallies, Repeats;
    SeenMeansRepeats(runs, machine, i, seen);
    TallyNext(report, Fates(runs, machine, ledger), i);
    forall k | 0 <= k < |planned|
      ensures planned[k].id != x.id
    {
      assert planned[k] in planned;
    }
    PlansTake(planned, positions, runs, i, machine, ledger, used, x);
    assert IdsOf(planned + [x]) == IdsOf(planned) + {x.id};
  }

  lemma PlanningEnds(planned: seq<Exec>, positions: seq<nat>, report: Report, runs: seq<LegacyRun>, machine: string,
                     ledger: set<Origin>, used: set<ExecId>, taken: set<ExecId>, seen: set<Origin>)
    requires Planning(planned, positions, report, runs, |runs|, machine, ledger, used, taken, seen)
    ensures report.imported + report.skipped + report.existing == |runs| && Tallies(report, Fates(runs, machine, ledger))
  {
    assert Fates(runs, machine, ledger)[..|runs|] == Fates(runs, machine, ledger);
    FatesAddUp(Fates(runs, machine, ledger));
  }

  ghost predicate Tallies(report: Report, fates: seq<Fate>) {
    && report.imported == CountFate(fates, Taken)
    && report.skipped == CountFate(fates, Skipped)
    && report.existing == CountFate(fates, Existing)
  }

  function Tally(report: Report, fate: Fate): Report {
    match fate
    case Taken => report.(imported := report.imported + 1)
    case Skipped => report.(skipped := report.skipped + 1)
    case Existing => report.(existing := report.existing + 1)
  }

  lemma TallyNext(report: Report, fates: seq<Fate>, i: nat)
    requires i < |fates| && Tallies(report, fates[..i])
    ensures Tallies(Tally(report, fates[i]), fates[..i + 1])
  {
    CountFateNext(fates, i, Taken);
    CountFateNext(fates, i, Skipped);
    CountFateNext(fates, i, Existing);
  }

  function IdsOf(planned: seq<Exec>): set<ExecId> {
    set x | x in planned :: x.id
  }

  /** The checks of the planning loop for one run. */
  method Judge(run: LegacyRun, key: Origin, seen: set<Origin>, ledger: set<Origin>) returns (fate: Fate)
    ensures fate == if key in seen || !run.finished then Skipped
                    else if key in ledger then Existing
                    else if run.built.None? then Skipped
                    else Taken
  {
    if key in seen {
      return Skipped;
    }
    if !run.finished {
      return Skipped;
    }
    if key in ledger {
      return Existing;
    }
    fate := if run.built.None? then Skipped else Taken;
  }

  method Build(run: LegacyRun, machine: string, taken: set<ExecId>, supply: nat -> ExecId, now: Time) returns (x: Exec)
    requires run.built.Some? && Inexhaustible(supply)
    ensures PlannedFrom(x, machine, run) && x.id !in taken
  {
    var id := UnusedId(taken, supply);
    x := run.built.value.(id := id, origin := Some(ExecutionOrigin(KeyOf(machine, run), now)));
  }

  ghost predicate Seen(runs: seq<LegacyRun>, machine: string, i: nat, seen: set<Origin>)
    requires i <= |runs|
  {
    forall key :: key in seen <==> exists j :: 0 <= j < i && KeyOf(machine, runs[j]) == key
  }

  lemma SeenMeansRepeats(runs: seq<LegacyRun>, machine: string, i: nat, seen: set<Origin>)
    requires i < |runs| && Seen(runs, machine, i, seen)
    ensures KeyOf(machine, runs[i]) in seen <==> Repeats(runs, i)
    ensures Seen(runs, machine, i + 1, seen + {KeyOf(machine, runs[i])})
  {
  }

  /** The planned keys are new and distinct. */
  lemma PlannedKeysAreNew(planned: seq<Exec>, positions: seq<nat>, runs: seq<LegacyRun>, machine: string, ledger: set<Origin>, used: set<ExecId>)
    requires Plans(planned, positions, runs, |runs|, machine, ledger, used)
    ensures forall k :: 0 <= k < |planned| ==> planned[k].origin.Some? && planned[k].origin.value.key !in ledger
    ensures forall k, l :: 0 <= k < l < |planned| ==> planned[k].origin.value.key != planned[l].origin.value.key
  {
  }
}

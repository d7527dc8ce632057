/** The commit of an import (migrate_import.go applyImports), and the ledger
  * over any sequence of imports, other mutations and restarts. */
module ImportCommit {
  import opened Model
  import opened History
  import opened Transitions
  import opened Scheduler
  import opened Snapshot
  import opened ControllerStore
  import opened Import

  // ---- the mutation ---------------------------------------------------------------------------

  datatype Added = Accepted(st: State) | Rejected(err: Error)

  function PlannedKey(machine: string, x: Exec): Origin {
    Origin(machine, if x.origin.Some? then x.origin.value.key.legacyRunId else "")
  }

  function WithImport(st: State, machine: string, x: Exec, now: Time): State {
    st.(execs := st.execs + [x], origins := st.origins + [ImportedOrigin(PlannedKey(machine, x), x.id, now)])
  }

  function AddRow(st: State, machine: string, x: Exec, now: Time): Added {
    if Find(st.execs, x.id).Some? then Added.Rejected(IdInUse)
    else if PlannedKey(machine, x) in LedgerKeys(st.origins) then Added.Rejected(ImportedConcurrently)
    else Accepted(WithImport(st, machine, x, now))
  }

  function AddRows(st: State, machine: string, planned: seq<Exec>, now: Time): Added
    decreases |planned|
  {
    if |planned| == 0 then Accepted(st)
    else
      var first := AddRow(st, machine, planned[0], now);
      if first.Rejected? then first else AddRows(first.st, machine, planned[1..], now)
  }

  function FinishedCount(execs: seq<Exec>): nat {
    Count(execs, Done)
  }

  /** The whole callback: every row, then the headroom check. */
  function ImportInto(st: State, machine: string, planned: seq<Exec>, now: Time, cap: nat): Added {
    var r := AddRows(st, machine, planned, now);
    if r.Accepted? && FinishedCount(r.st.execs) > cap then Added.Rejected(HistoryCapTooSmall) else r
  }

  method ImportRows(st: StateData, machine: string, planned: seq<Exec>, now: Time, cap: nat) returns (out: Outcome)
    requires DistinctObjects(st.executions)
    modifies st`executions, st`origins
    ensures DistinctObjects(st.executions)
    ensures var r := ImportInto(old(st.Value()), machine, planned, now, cap);
      if r.Accepted? then out == Applied && st.Value() == r.st else out == Errored(r.err)
  {
    ghost var start := st.Value();
    assert planned[0..] == planned;
    for i := 0 to |planned|
      invariant DistinctObjects(st.executions)
      invariant AddRows(st.Value(), machine, planned[i..], now) == AddRows(start, machine, planned, now)
    {
      assert planned[i..][0] == planned[i] && planned[i..][1..] == planned[i + 1..];
      out := ImportRow(st, machine, planned[i], now);
      if !out.Applied? {
        return;
      }
    }
    var terminal := st.CountFinished();
    if terminal > cap {
      return Errored(HistoryCapTooSmall);
    }
    out := Applied;
  }

  method ImportRow(st: StateData, machine: string, x: Exec, now: Time) returns (out: Outcome)
    requires DistinctObjects(st.executions)
    modifies st`executions, st`origins
    ensures DistinctObjects(st.executions)
    ensures var r := AddRow(old(st.Value()), machine, x, now);
      if r.Accepted? then out == Applied && st.Value() == r.st else out == Errored(r.err) && st.Value() == old(st.Value())
  {
    var existing := st.Find(x.id);
    if existing != null {
      return Errored(IdInUse);
    }
    var key := PlannedKey(machine, x);
    var known := st.HasOrigin(key);
    if known {
      return Errored(ImportedConcurrently);
    }
    st.Append(x);
    st.origins := st.origins + [ImportedOrigin(key, x.id, now)];
    out := Applied;
  }

  /** The prepared clone, as for every other mutation. */
  method PrepareImport(data: StateData, machine: string, planned: seq<Exec>, now: Time, cap: nat) returns (next: StateData, out: Outcome)
    ensures fresh(next) && DistinctObjects(next.executions)
    ensures var r := ImportInto(data.Value(), machine, planned, now, cap);
      if r.Accepted? then out == Applied && next.Value() == r.st else out == Errored(r.err)
  {
    next := data.Clone();
    out := ImportRows(next, machine, planned, now, cap);
  }

  // ---- what a commit means ----------------------------------------------------------------------

  function Rows(machine: string, planned: seq<Exec>, now: Time): (r: seq<ImportedOrigin>)
    ensures |r| == |planned|
  {
    seq(|planned|, i requires 0 <= i < |planned| => ImportedOrigin(PlannedKey(machine, planned[i]), planned[i].id, now))
  }

  lemma RowsNext(machine: string, planned: seq<Exec>, now: Time)
    requires planned != []
    ensures Rows(machine, planned, now) == [ImportedOrigin(PlannedKey(machine, planned[0]), planned[0].id, now)] + Rows(machine, planned[1..], now)
  {
  }

  /** An accepted batch appends exactly the planned executions and their rows. */
  lemma {:induction false} AcceptedAppends(st: State, machine: string, planned: seq<Exec>, now: Time)
    requires AddRows(st, machine, planned, now).Accepted?
    ensures AddRows(st, machine, planned, now).st == st.(execs := st.execs + planned, origins := st.origins + Rows(machine, planned, now))
    decreases |planned|
  {
    hide Rows, LedgerKeys;
    if |planned| == 0 {
      assert st.execs + planned == st.execs && st.origins + Rows(machine, planned, now) == st.origins;
    } else {
      var next := WithImport(st, machine, planned[0], now);
      AcceptedAppends(next, machine, planned[1..], now);
      assert next.execs + planned[1..] == st.execs + planned;
      RowsNext(machine, planned, now);
      assert next.origins + Rows(machine, planned[1..], now) == st.origins + Rows(machine, planned, now);
    }
  }

  /** The ledger keeps its rows and its keys stay unique. */
  lemma {:induction false} AcceptedKeepsLedger(st: State, machine: string, planned: seq<Exec>, now: Time)
    requires AddRows(st, machine, planned, now).Accepted? && UniqueKeys(st.origins)
    ensures UniqueKeys(AddRows(st, machine, planned, now).st.origins)
    ensures forall k :: 0 <= k < |planned| ==> PlannedKey(machine, planned[k]) !in LedgerKeys(st.origins)
    decreases |planned|
  {
    if |planned| > 0 {
      var next := WithImport(st, machine, planned[0], now);
      forall i | 0 <= i < |st.origins|
        ensures st.origins[i].key != PlannedKey(machine, planned[0])
      {
        assert st.origins[i] in st.origins;
      }
      AcceptedKeepsLedger(next, machine, planned[1..], now);
      forall k | 0 <= k < |planned|
        ensures PlannedKey(machine, planned[k]) !in LedgerKeys(st.origins)
      {
        if k > 0 {
          assert planned[1..][k - 1] == planned[k];
          LedgerKeysGrow(st.origins, next.origins);
        }
      }
    }
  }

  lemma LedgerKeysGrow(origins: seq<ImportedOrigin>, more: seq<ImportedOrigin>)
    requires origins <= more
    ensures LedgerKeys(origins) <= LedgerKeys(more)
  {
  }

  /** A committed import prunes nothing as long as the store's cap is not below
    * the one the import checked. */
  lemma CommitPrunesNothing(st: State, machine: string, planned: seq<Exec>, now: Time, cap: nat, maxHistory: int)
    requires ImportInto(st, machine, planned, now, cap).Accepted? && cap <= NormalizeMaxHistory(maxHistory)
    ensures var r := ImportInto(st, machine, planned, now, cap).st;
      Finish(r, r.execs, maxHistory).execs == st.execs + planned
  {
    var r := ImportInto(st, machine, planned, now, cap).st;
    AcceptedAppends(st, machine, planned, now);
    PruneMeetsCap(r.execs, Done, NormalizeMaxHistory(maxHistory));
  }

  // ---- exactly once, over any history -------------------------------------------------------------

  /** One execution an import created. */
  datatype Created = Created(key: Origin, id: ExecId)

  /** The state with the history of what imports created. */
  datatype Ledger = Ledger(st: State, created: seq<Created>)

  datatype Event =
    | Imports(machine: string, planned: seq<Exec>, now: Time, cap: nat, maxHistory: int, saved: bool)
    | Mutates(next: State)
    | Restarts(offsets: map<ExecId, int>)

  /** Any other mutation: the ledger is not touched, and executions with an
    * origin may be changed, pruned and deleted but not made. */
  ghost predicate KeepsLedger(st: State, next: State) {
    next.origins == st.origins && forall y :: y in next.execs && y.origin.Some? ==> HasOriginOf(st.execs, y)
  }

  ghost predicate HasOriginOf(execs: seq<Exec>, y: Exec) {
    exists x :: x in execs && x.origin == y.origin
  }

  function CreatedBy(machine: string, planned: seq<Exec>): (r: seq<Created>)
    ensures |r| == |planned|
  {
    seq(|planned|, i requires 0 <= i < |planned| => Created(PlannedKey(machine, planned[i]), planned[i].id))
  }

  ghost function Happens(l: Ledger, e: Event): Ledger {
    match e
    case Imports(machine, planned, now, cap, maxHistory, saved) =>
      var r := ImportInto(l.st, machine, planned, now, cap);
      if r.Accepted? && saved then Ledger(Finish(r.st, r.st.execs, maxHistory), l.created + CreatedBy(machine, planned)) else l
    case Mutates(next) => if KeepsLedger(l.st, next) then l.(st := next) else l
    case Restarts(offsets) => l.(st := Loaded(Some(l.st), offsets))
  }

  ghost predicate UniqueCreated(created: seq<Created>) {
    forall i, j :: 0 <= i < j < |created| ==> created[i].key != created[j].key
  }

  ghost predicate LedgerOk(l: Ledger) {
    && UniqueKeys(l.st.origins) && LedgerBearing(l.st) && UniqueCreated(l.created)
    && forall c :: c in l.created ==> c.key in LedgerKeys(l.st.origins)
  }

  lemma MutationKeepsOk(l: Ledger, next: State)
    requires LedgerOk(l) && KeepsLedger(l.st, next)
    ensures LedgerOk(l.(st := next))
  {
  }

  lemma RestartKeepsOk(l: Ledger, offsets: map<ExecId, int>)
    requires LedgerOk(l)
    ensures LedgerOk(l.(st := Loaded(Some(l.st), offsets))) && Loaded(Some(l.st), offsets).origins == l.st.origins
  {
    var execs := Reload(l.st.execs, offsets);
    forall y | y in execs
      ensures MissingRow(l.st.origins, y) == []
    {
      var i :| 0 <= i < |execs| && execs[i] == y;
      assert l.st.execs[i] in l.st.execs;
      assert MissingRow(l.st.origins, l.st.execs[i]) == [];
    }
    BackfillIsNoop(l.st.origins, execs);
  }

  /** A planned execution carries the key its row is filed under. */
  ghost predicate Keyed(machine: string, planned: seq<Exec>) {
    forall x :: x in planned ==> x.origin.Some? && x.origin.value.key == PlannedKey(machine, x)
  }

  lemma RowsCover(origins: seq<ImportedOrigin>, machine: string, planned: seq<Exec>, now: Time, k: nat)
    requires k < |planned|
    ensures PlannedKey(machine, planned[k]) in LedgerKeys(origins + Rows(machine, planned, now))
  {
    assert (origins + Rows(machine, planned, now))[|origins| + k].key == PlannedKey(machine, planned[k]);
  }

  lemma ImportKeepsBearing(st: State, machine: string, planned: seq<Exec>, now: Time, cap: nat, maxHistory: int)
    requires LedgerBearing(st) && ImportInto(st, machine, planned, now, cap).Accepted? && Keyed(machine, planned)
    ensures var r := ImportInto(st, machine, planned, now, cap).st;
      LedgerBearing(Finish(r, r.execs, maxHistory)) && Finish(r, r.execs, maxHistory).origins == st.origins + Rows(machine, planned, now)
  {
    var r := ImportInto(st, machine, planned, now, cap).st;
    AcceptedAppends(st, machine, planned, now);
    DropMembers(r.execs, Done, Excess(r.execs, Done, NormalizeMaxHistory(maxHistory)));
    forall x | x in r.execs
      ensures MissingRow(r.origins, x) == []
    {
      if x in st.execs {
        CoveredStays(st.origins, r.origins, x);
      } else {
        var k :| 0 <= k < |planned| && planned[k] == x;
        RowsCover(st.origins, machine, planned, now, k);
      }
    }
  }

  lemma ImportKeepsCreated(l: Ledger, machine: string, planned: seq<Exec>, now: Time)
    requires LedgerOk(l) && AddRows(l.st, machine, planned, now).Accepted?
    ensures var more := l.created + CreatedBy(machine, planned);
      UniqueCreated(more) && forall c :: c in more ==> c.key in LedgerKeys(l.st.origins + Rows(machine, planned, now))
  {
    var rows := Rows(machine, planned, now);
    var more := l.created + CreatedBy(machine, planned);
    AcceptedAppends(l.st, machine, planned, now);
    AcceptedKeepsLedger(l.st, machine, planned, now);
    LedgerKeysGrow(l.st.origins, l.st.origins + rows);
    forall c | c in more
      ensures c.key in LedgerKeys(l.st.origins + rows)
    {
      if c !in l.created {
        var k :| 0 <= k < |planned| && CreatedBy(machine, planned)[k] == c;
        RowsCover(l.st.origins, machine, planned, now, k);
      }
    }
    NewKeysAreApart(l, machine, planned, now);
  }

  lemma NewKeysAreApart(l: Ledger, machine: string, planned: seq<Exec>, now: Time)
    requires LedgerOk(l) && UniqueKeys(l.st.origins + Rows(machine, planned, now))
    requires forall k :: 0 <= k < |planned| ==> PlannedKey(machine, planned[k]) !in LedgerKeys(l.st.origins)
    ensures UniqueCreated(l.created + CreatedBy(machine, planned))
  {
    var more := l.created + CreatedBy(machine, planned);
    forall i, j | 0 <= i < j < |more|
      ensures more[i].key != more[j].key
    {
      var n := |l.created|;
      if j >= n {
        if i < n {
          assert l.created[i] in l.created;
        } else {
          var o := l.st.origins + Rows(machine, planned, now);
          assert o[|l.st.origins| + i - n].key != o[|l.st.origins| + j - n].key;
        }
      }
    }
  }

  ghost predicate WellKeyed(e: Event) {
    e.Imports? ==> Keyed(e.machine, e.planned)
  }

  lemma EventKeepsOk(l: Ledger, e: Event)
    requires LedgerOk(l) && WellKeyed(e)
    ensures LedgerOk(Happens(l, e)) && l.st.origins <= Happens(l, e).st.origins && l.created <= Happens(l, e).created
  {
    match e
    case Mutates(next) => if KeepsLedger(l.st, next) { MutationKeepsOk(l, next); }
    case Restarts(offsets) => RestartKeepsOk(l, offsets);
    case Imports(machine, planned, now, cap, maxHistory, saved) =>
      if ImportInto(l.st, machine, planned, now, cap).Accepted? && saved {
        AcceptedAppends(l.st, machine, planned, now);
        AcceptedKeepsLedger(l.st, machine, planned, now);
        ImportKeepsBearing(l.st, machine, planned, now, cap, maxHistory);
        ImportKeepsCreated(l, machine, planned, now);
      }
  }

  ghost predicate IsHistory(ledgers: seq<Ledger>, events: seq<Event>) {
    && |ledgers| == |events| + 1 && LedgerOk(ledgers[0]) && ledgers[0].created == []
    && (forall i :: 0 <= i < |events| ==> WellKeyed(events[i]) && ledgers[i + 1] == Happens(ledgers[i], events[i]))
  }

  /** Exactly once: over any sequence of imports, prunes, deletes and restarts
    * from a ledger-bearing state at most one execution is ever created for a
    * (machine, legacy run) pair, and the ledger only grows, with unique keys. */
  lemma {:induction false} ImportedExactlyOnce(ledgers: seq<Ledger>, events: seq<Event>, n: nat)
    requires IsHistory(ledgers, events) && n < |ledgers|
    ensures LedgerOk(ledgers[n])
    ensures forall i, j :: 0 <= i < j < |ledgers[n].created| ==> ledgers[n].created[i].key != ledgers[n].created[j].key
    ensures UniqueKeys(ledgers[n].st.origins) && ledgers[0].st.origins <= ledgers[n].st.origins
  {
    if n > 0 {
      ImportedExactlyOnce(ledgers, events, n - 1);
      EventKeepsOk(ledgers[n - 1], events[n - 1]);
    }
  }

  // ---- the other mutations keep the ledger ----------------------------------------------------------

  lemma SelfHasOrigin(execs: seq<Exec>, y: Exec)
    requires y in execs
    ensures HasOriginOf(execs, y)
  {
  }

  /** Rewriting in place and pruning. */
  lemma RewritesKeepLedger(st: State, mid: seq<Exec>, maxHistory: int)
    requires |mid| == |st.execs| && forall i :: 0 <= i < |mid| ==> mid[i].origin == st.execs[i].origin
    ensures KeepsLedger(st, Finish(st, mid, maxHistory))
  {
    DropMembers(mid, Done, Excess(mid, Done, NormalizeMaxHistory(maxHistory)));
    forall y | y in mid
      ensures HasOriginOf(st.execs, y)
    {
      var i :| 0 <= i < |mid| && mid[i] == y;
      assert st.execs[i] in st.execs;
    }
  }

  lemma EffectKeepsLedger(st: State, id: ExecId, effect: Exec -> Effect, maxHistory: int)
    requires forall x :: effect(x).Write? ==> effect(x).x.origin == x.origin
    ensures KeepsLedger(st, Mutate(st, ApplyAt(st.execs, id, effect), maxHistory))
  {
    var m := ApplyAt(st.execs, id, effect);
    if m.Commit? {
      RewritesKeepLedger(st, m.execs, maxHistory);
    } else {
      forall y | y in st.execs ensures HasOriginOf(st.execs, y) { SelfHasOrigin(st.execs, y); }
    }
  }

  /** Permits, cancellations, results, attention and its resolution. */
  lemma RequestsKeepLedger(st: State, agent: AgentId, id: ExecId, request: ResultRequest, size: int, text: string, now: Time, maxHistory: int)
    ensures KeepsLedger(st, Mutate(st, GrantPermit(st.execs, agent, id, now), maxHistory))
    ensures KeepsLedger(st, Mutate(st, Cancel(st.execs, id, now), maxHistory))
    ensures KeepsLedger(st, Mutate(st, SubmitResult(st.execs, id, request, size, now), maxHistory))
    ensures KeepsLedger(st, Mutate(st, ReportAttention(st.execs, agent, id, text), maxHistory))
    ensures KeepsLedger(st, Mutate(st, ResolveAttention(st.execs, id, text, now), maxHistory))
    ensures KeepsLedger(st, Mutate(st, MarkLogTruncated(st.execs, id), maxHistory))
  {
    EffectKeepsLedger(st, id, TruncateEffect, maxHistory);
    EffectKeepsLedger(st, id, x => PermitEffect(x, agent, now), maxHistory);
    EffectKeepsLedger(st, id, x => CancelEffect(x, now), maxHistory);
    EffectKeepsLedger(st, id, x => ResultEffect(x, request, size, now), maxHistory);
    EffectKeepsLedger(st, id, x => AttentionEffect(x, agent, text), maxHistory);
    EffectKeepsLedger(st, id, x => ResolveEffect(x, text, now), maxHistory);
  }

  lemma DeleteKeepsLedger(st: State, id: ExecId, maxHistory: int)
    ensures KeepsLedger(st, Mutate(st, Delete(st.execs, id), maxHistory))
  {
    var m := Delete(st.execs, id);
    var mid := if m.Commit? then m.execs else st.execs;
    DropMembers(mid, Done, Excess(mid, Done, NormalizeMaxHistory(maxHistory)));
    forall y | y in mid
      ensures HasOriginOf(st.execs, y)
    {
      SelfHasOrigin(st.execs, y);
    }
  }

  lemma EnqueueKeepsLedger(st: State, id: ExecId, work: Work, labels: seq<string>, now: Time, maxHistory: int)
    ensures KeepsLedger(st, Finish(st, st.execs + [NewExec(id, work, labels, now)], maxHistory))
  {
    var mid := st.execs + [NewExec(id, work, labels, now)];
    DropMembers(mid, Done, Excess(mid, Done, NormalizeMaxHistory(maxHistory)));
    forall y | y in mid && y.origin.Some?
      ensures HasOriginOf(st.execs, y)
    {
      SelfHasOrigin(st.execs, y);
    }
  }

  lemma ReconcileKeepsLedger(st: State, agent: AgentId, known: set<ExecId>, maxHistory: int)
    ensures KeepsLedger(st, Mutate(st, Reconcile(st.execs, agent, known), maxHistory))
  {
    RewritesKeepLedger(st, ReconcileAll(st.execs, agent, known), maxHistory);
    forall y | y in st.execs ensures HasOriginOf(st.execs, y) { SelfHasOrigin(st.execs, y); }
  }

  lemma ScheduledOrigins(execs: seq<Exec>, fleet: Fleet, last: map<AgentId, Time>, now: Time, r: seq<Exec>, i: nat)
    requires FairOutcome(execs, fleet, last, now, r) && i < |r|
    ensures r[i].origin == execs[i].origin
  {
  }

  lemma ScheduleKeepsLedger(st: State, fleet: Fleet, now: Time, maxHistory: int)
    ensures KeepsLedger(st, Schedule(st, fleet, now, maxHistory))
  {
    if AssignsNothing(PlanOf(st.execs, st.last, fleet)) {
      forall y | y in st.execs ensures HasOriginOf(st.execs, y) { SelfHasOrigin(st.execs, y); }
    } else {
      var r := ScheduledExecs(st.execs, st.last, fleet, now);
      ScheduleIsTheFairOutcome(st.execs, st.last, fleet, now, r);
      forall i | 0 <= i < |r|
        ensures r[i].origin == st.execs[i].origin
      {
        ScheduledOrigins(st.execs, fleet, st.last, now, r, i);
      }
      RewritesKeepLedger(st.(last := ScheduledLast(st.execs, st.last, fleet, now)), r, maxHistory);
    }
  }
}

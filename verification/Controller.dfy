/** The controller's operations on its store (ctrlagentops.go, ctrlqueue.go,
  * ctrlsched.go). `saved` says whether the snapshot could be written. Each
  * operation modifies the store object alone: the live execution objects are
  * out of the callbacks' reach. */
module Controller {
  import opened Model
  import opened Transitions
  import opened Scheduler
  import opened Snapshot
  import opened ControllerStore
  import Callbacks
  import SchedulerLoop
  import LexOrder

  /** The state a callback hands to the store, if it wants a commit. */
  function Target(st: State, m: Mutation): Option<State> {
    if m.Commit? then Some(st.(execs := m.execs)) else None
  }

  function ErrorOf(m: Mutation, saved: bool): Option<Error> {
    match m
    case Commit(_) => if saved then None else Some(PersistFailed)
    case Unchanged => None
    case Rejected(e) => Some(e)
  }

  /** The state after a scheduling pass that may fail to be saved. */
  ghost function Rescheduled(st: State, fleet: Fleet, now: Time, maxHistory: int, saved: bool): State {
    var target := ScheduleTarget(st, fleet, now);
    if target.Some? && saved then Finish(target.value, target.value.execs, maxHistory) else st
  }

  function SubmitMutation(st: State, id: ExecId, request: ResultRequest, size: int, now: Time): Mutation {
    Transitions.SubmitResult(st.execs, id, request, size, now)
  }

  function OutcomeOf(m: Mutation): Outcome {
    match m
    case Commit(_) => Applied
    case Unchanged => NoStateChange
    case Rejected(e) => Errored(e)
  }

  // ---- the first half of mutate: clone, then run the callback on the clone --------------

  ghost predicate Prepared(st: State, next: StateData, out: Outcome, m: Mutation)
    reads next, next.executions
  {
    DistinctObjects(next.executions) && out == OutcomeOf(m) && (m.Commit? ==> next.Value() == st.(execs := m.execs))
  }

  method PrepareReconcile(data: StateData, agent: AgentId, known: set<ExecId>) returns (next: StateData, out: Outcome, acted: seq<ExecId>)
    requires agent != ""
    ensures fresh(next) && Prepared(data.Value(), next, out, Transitions.Reconcile(data.Execs(), agent, known))
    ensures acted == Callbacks.ActedOn(data.Execs(), agent, known)
  {
    next := data.Clone();
    out, acted := Callbacks.ReconcileRuns(next, agent, known);
  }

  method PreparePermit(data: StateData, agent: AgentId, id: ExecId, now: Time) returns (next: StateData, out: Outcome, response: PermitResponse)
    ensures fresh(next) && Prepared(data.Value(), next, out, Transitions.GrantPermit(data.Execs(), agent, id, now))
    ensures !out.Errored? ==> Find(data.Execs(), id).Some? && response == PermitResponseFor(Find(data.Execs(), id).value)
  {
    next := data.Clone();
    out, response := Callbacks.Permit(next, agent, id, now);
  }

  method PrepareCancel(data: StateData, id: ExecId, now: Time) returns (next: StateData, out: Outcome)
    ensures fresh(next) && Prepared(data.Value(), next, out, Transitions.Cancel(data.Execs(), id, now))
  {
    next := data.Clone();
    out := Callbacks.CancelRun(next, id, now);
  }

  method PrepareResult(data: StateData, id: ExecId, request: ResultRequest, size: int, now: Time) returns (next: StateData, out: Outcome)
    ensures fresh(next) && Prepared(data.Value(), next, out, Transitions.SubmitResult(data.Execs(), id, request, size, now))
  {
    next := data.Clone();
    out := Callbacks.Result(next, id, request, size, now);
  }

  method PrepareAttention(data: StateData, agent: AgentId, id: ExecId, message: string) returns (next: StateData, out: Outcome)
    ensures fresh(next) && Prepared(data.Value(), next, out, Transitions.ReportAttention(data.Execs(), agent, id, message))
  {
    next := data.Clone();
    out := Callbacks.Attention(next, agent, id, message);
  }

  method PrepareTruncated(data: StateData, id: ExecId) returns (next: StateData, out: Outcome)
    ensures fresh(next) && Prepared(data.Value(), next, out, Transitions.MarkLogTruncated(data.Execs(), id))
  {
    next := data.Clone();
    out := Callbacks.MarkTruncated(next, id);
  }

  method PrepareResolve(data: StateData, id: ExecId, note: string, now: Time) returns (next: StateData, out: Outcome)
    ensures fresh(next) && Prepared(data.Value(), next, out, Transitions.ResolveAttention(data.Execs(), id, note, now))
  {
    next := data.Clone();
    out := Callbacks.Resolve(next, id, note, now);
  }

  method PrepareDelete(data: StateData, id: ExecId) returns (next: StateData, out: Outcome)
    ensures fresh(next) && Prepared(data.Value(), next, out, Transitions.Delete(data.Execs(), id))
  {
    next := data.Clone();
    out := Callbacks.DeleteRun(next, id);
  }

  ghost predicate PreparedFor(target: Option<State>, next: StateData, out: Outcome)
    reads next, next.executions
  {
    DistinctObjects(next.executions) && if target.Some? then out == Applied && next.Value() == target.value else out == NoStateChange
  }

  method PrepareSchedule(data: StateData, available: Fleet, now: Time) returns (next: StateData, out: Outcome)
    ensures fresh(next) && PreparedFor(ScheduleTarget(data.Value(), available, now), next, out)
  {
    hide ScheduleTarget;
    ghost var start := data.Value();
    next := data.Clone();
    out := SchedulerLoop.ScheduleRuns(next, start, available, now);
  }

  method PrepareAppend(data: StateData, work: Work, labels: seq<string>, supply: nat -> ExecId, now: Time)
    returns (next: StateData, id: ExecId)
    requires Inexhaustible(supply)
    ensures fresh(next) && DistinctObjects(next.executions)
    ensures Find(data.Execs(), id).None?
    ensures next.Value() == data.Value().(execs := data.Execs() + [NewExec(id, work, labels, now)])
  {
    hide Inexhaustible, NewExec;
    next := data.Clone();
    var taken := next.IdsInUse();
    id := UnusedId(taken, supply);
    next.Append(NewExec(id, work, labels, now));
  }

  /** How SubmitResult answers. */
  datatype ResultReply = Confirmed(ackOffset: int) | Incomplete(ackOffset: int) | Refused(err: Error)

  /** The answer as a function of the record, the size of the stored log and
    * whether the snapshot can be written. */
  function ReplyTo(found: Option<Exec>, agent: AgentId, request: ResultRequest, size: int, saved: bool): ResultReply {
    if found.None? then Refused(ExecutionNotFound)
    else if found.value.agent != agent then Refused(NotExecutionOwner)
    else if !found.value.logTruncated && size != request.logLength then Incomplete(size)
    else if !Terminal(request.status) then Refused(InvalidResultStatus)
    else if !Terminal(found.value.status) && !saved then Refused(PersistFailed)
    else Confirmed(size)
  }

  class Controller {
    const store: ControllerStore

    constructor (store: ControllerStore)
      ensures this.store == store
    {
      this.store := store;
    }

    method Reconcile(agent: AgentId, known: set<ExecId>, saved: bool) returns (err: Option<Error>, acted: seq<ExecId>)
      requires store.Valid() && agent != ""
      modifies store
      ensures var m := Transitions.Reconcile(old(store.Value()).execs, agent, known);
        store.Valid() && store.Mutated(Target(old(store.Value()), m), saved) && err == ErrorOf(m, saved)
      ensures acted == if err.Some? then [] else LexOrder.Sorted(Callbacks.ActedOn(old(store.Value()).execs, agent, known))
    {
      var next, out, unknown := PrepareReconcile(store.data, agent, known);
      err := store.Complete(next, out, saved);
      acted := if err.Some? then [] else LexOrder.Sorted(unknown);
    }

    method GrantPermit(agent: AgentId, id: ExecId, now: Time, saved: bool) returns (err: Option<Error>, response: PermitResponse)
      requires store.Valid()
      modifies store
      ensures var m := Transitions.GrantPermit(old(store.Value()).execs, agent, id, now);
        store.Valid() && store.Mutated(Target(old(store.Value()), m), saved) && err == ErrorOf(m, saved)
      ensures err.None? ==> Find(old(store.Value()).execs, id).Some? && response == PermitResponseFor(Find(old(store.Value()).execs, id).value)
      ensures err.Some? ==> response == PermitResponse(false, false)
    {
      var next, out;
      next, out, response := PreparePermit(store.data, agent, id, now);
      err := store.Complete(next, out, saved);
      if err.Some? {
        response := PermitResponse(false, false);
      }
    }

    method ReportAttention(agent: AgentId, id: ExecId, message: string, saved: bool) returns (err: Option<Error>)
      requires store.Valid()
      modifies store
      ensures var m := Transitions.ReportAttention(old(store.Value()).execs, agent, id, message);
        store.Valid() && store.Mutated(Target(old(store.Value()), m), saved) && err == ErrorOf(m, saved)
    {
      var next, out;
      next, out := PrepareAttention(store.data, agent, id, message);
      err := store.Complete(next, out, saved);
    }

    method MarkLogTruncated(id: ExecId, saved: bool) returns (err: Option<Error>)
      requires store.Valid()
      modifies store
      ensures var m := Transitions.MarkLogTruncated(old(store.Value()).execs, id);
        store.Valid() && store.Mutated(Target(old(store.Value()), m), saved) && err == ErrorOf(m, saved)
    {
      var next, out := PrepareTruncated(store.data, id);
      err := store.Complete(next, out, saved);
    }

    method DeleteExecution(id: ExecId, saved: bool) returns (err: Option<Error>)
      requires store.Valid()
      modifies store
      ensures var m := Transitions.Delete(old(store.Value()).execs, id);
        store.Valid() && store.Mutated(Target(old(store.Value()), m), saved) && err == ErrorOf(m, saved)
    {
      var next, out;
      next, out := PrepareDelete(store.data, id);
      err := store.Complete(next, out, saved);
    }

    /** scheduleOnce; `available` is what AgentViews said before the lock. */
    method ScheduleOnce(available: Fleet, now: Time, saved: bool) returns (err: Option<Error>)
      requires store.Valid()
      modifies store
      ensures var target := ScheduleTarget(old(store.Value()), available, now);
        && store.Valid() && store.Mutated(target, saved)
        && err == (if target.Some? && !saved then Some(PersistFailed) else None)
    {
      if available == map[] {
        NobodyAvailable(store.Value());
        return None;
      }
      var next, out := PrepareSchedule(store.data, available, now);
      err := store.Complete(next, out, saved);
    }

    /** Scheduling after another operation; a failure is only logged. */
    method Reschedule(available: Fleet, now: Time, saved: bool)
      requires store.Valid()
      modifies store
      ensures store.Valid() && store.Value() == Rescheduled(old(store.Value()), available, now, old(store.maxHistory), saved)
    {
      var _ := ScheduleOnce(available, now, saved);
    }

    method StoreCancel(id: ExecId, now: Time, saved: bool) returns (err: Option<Error>)
      requires store.Valid()
      modifies store
      ensures var m := Transitions.Cancel(old(store.Value()).execs, id, now);
        store.Valid() && store.Mutated(Target(old(store.Value()), m), saved) && err == ErrorOf(m, saved)
      ensures err.None? ==> store.maxHistory == old(store.maxHistory)
      ensures err.None? ==> store.Value() == Mutate(old(store.Value()), Transitions.Cancel(old(store.Value()).execs, id, now), old(store.maxHistory))
    {
      hide Mutate, Transitions.ApplyAt;
      TargetMutates(store.Value(), Transitions.Cancel(store.Value().execs, id, now), store.maxHistory);
      var next, out := PrepareCancel(store.data, id, now);
      err := store.Complete(next, out, saved);
    }

    method Cancel(id: ExecId, now: Time, saved: bool, available: Fleet, later: Time, savedLater: bool) returns (err: Option<Error>)
      requires store.Valid()
      modifies store
      ensures var m := Transitions.Cancel(old(store.Value()).execs, id, now);
        && store.Valid() && err == ErrorOf(m, saved)
        && (err.Some? ==> store.Value() == old(store.Value()))
        && (err.None? ==> store.Value() == Rescheduled(Mutate(old(store.Value()), m, old(store.maxHistory)), available, later, old(store.maxHistory), savedLater))
    {
      err := StoreCancel(id, now, saved);
      if err.None? {
        Reschedule(available, later, savedLater);
      }
    }

    method StoreResult(id: ExecId, request: ResultRequest, size: int, now: Time, saved: bool) returns (err: Option<Error>)
      requires store.Valid()
      modifies store
      ensures var m := SubmitMutation(old(store.Value()), id, request, size, now);
        store.Valid() && store.Mutated(Target(old(store.Value()), m), saved) && err == ErrorOf(m, saved)
      ensures err.None? ==> store.maxHistory == old(store.maxHistory)
      ensures err.None? ==> store.Value() == Mutate(old(store.Value()), SubmitMutation(old(store.Value()), id, request, size, now), old(store.maxHistory))
    {
      hide Mutate, Transitions.ApplyAt;
      TargetMutates(store.Value(), SubmitMutation(store.Value(), id, request, size, now), store.maxHistory);
      var next, out := PrepareResult(store.data, id, request, size, now);
      err := store.Complete(next, out, saved);
    }

    /** SubmitResult: `size` is the length of the stored log. */
    method SubmitResult(agent: AgentId, id: ExecId, request: ResultRequest, size: int, now: Time, saved: bool,
                        available: Fleet, later: Time, savedLater: bool) returns (reply: ResultReply)
      requires store.Valid()
      modifies store
      ensures store.Valid() && reply == ReplyTo(Find(old(store.Value()).execs, id), agent, request, size, saved)
      ensures !reply.Confirmed? ==> store.Value() == old(store.Value())
      ensures reply.Confirmed? ==>
                store.Value() == Rescheduled(Mutate(old(store.Value()), SubmitMutation(old(store.Value()), id, request, size, now), old(store.maxHistory)),
                                             available, later, old(store.maxHistory), savedLater)
    {
      var execution := store.data.Find(id);
      if execution == null {
        return Refused(ExecutionNotFound);
      }
      if execution.record.agent != agent {
        return Refused(NotExecutionOwner);
      }
      if !execution.record.logTruncated && size != request.logLength {
        return Incomplete(size);
      }
      if !Terminal(request.status) {
        return Refused(InvalidResultStatus);
      }
      var err := StoreResult(id, request, size, now, saved);
      if err.Some? {
        return Refused(err.value);
      }
      Reschedule(available, later, savedLater);
      reply := Confirmed(size);
    }

    /** Enqueue's mutation; `supply` is the source of random ids. */
    method AppendRun(work: Work, labels: seq<string>, supply: nat -> ExecId, now: Time, saved: bool)
      returns (err: Option<Error>, id: ExecId)
      requires store.Valid() && Inexhaustible(supply)
      modifies store
      ensures Find(old(store.Value()).execs, id).None? && err == (if saved then None else Some(PersistFailed))
      ensures var st := old(store.Value());
        store.Valid() && store.Mutated(Some(st.(execs := st.execs + [NewExec(id, work, labels, now)])), saved)
    {
      var next;
      next, id := PrepareAppend(store.data, work, labels, supply, now);
      err := store.Complete(next, Applied, saved);
    }

    method StoreResolve(id: ExecId, note: string, now: Time, saved: bool) returns (err: Option<Error>)
      requires store.Valid()
      modifies store
      ensures var m := Transitions.ResolveAttention(old(store.Value()).execs, id, note, now);
        store.Valid() && store.Mutated(Target(old(store.Value()), m), saved) && err == ErrorOf(m, saved)
      ensures err.None? ==> store.maxHistory == old(store.maxHistory)
      ensures err.None? ==> store.Value() == Mutate(old(store.Value()), Transitions.ResolveAttention(old(store.Value()).execs, id, note, now), old(store.maxHistory))
    {
      hide Mutate, Transitions.ApplyAt;
      TargetMutates(store.Value(), Transitions.ResolveAttention(store.Value().execs, id, note, now), store.maxHistory);
      var next, out := PrepareResolve(store.data, id, note, now);
      err := store.Complete(next, out, saved);
    }

    method ResolveAttention(id: ExecId, note: string, now: Time, saved: bool, available: Fleet, later: Time, savedLater: bool) returns (err: Option<Error>)
      requires store.Valid()
      modifies store
      ensures var m := Transitions.ResolveAttention(old(store.Value()).execs, id, note, now);
        && store.Valid() && err == ErrorOf(m, saved)
        && (err.Some? ==> store.Value() == old(store.Value()))
        && (err.None? ==> store.Value() == Rescheduled(Mutate(old(store.Value()), m, old(store.maxHistory)), available, later, old(store.maxHistory), savedLater))
    {
      err := StoreResolve(id, note, now, saved);
      if err.None? {
        Reschedule(available, later, savedLater);
      }
    }
  }

  lemma TargetMutates(st: State, m: Mutation, maxHistory: int)
    ensures Mutate(st, m, maxHistory) ==
            if Target(st, m).Some? then Finish(Target(st, m).value, Target(st, m).value.execs, maxHistory) else st
  {
  }

  lemma RescheduledIsSchedule(st: State, fleet: Fleet, now: Time, maxHistory: int, saved: bool)
    ensures Rescheduled(st, fleet, now, maxHistory, saved) == if saved then Schedule(st, fleet, now, maxHistory) else st
  {
  }

  lemma NobodyAvailable(st: State)
    ensures AssignsNothing(PlanOf(st.execs, st.last, map[]))
  {
    assert Free(st.execs, map[]) == {};
    SchedulerLoop.NoneFree(Requirements(st.execs, Queue(st.execs)), map[], st.last);
  }
}

/** The mutation callbacks of the controller (ctrlagentops.go, ctrlqueue.go,
  * ctrlstore.go), which assign fields of the execution they find in the cloned
  * state, proved against the functions of Transitions. */
module Callbacks {
  import opened Model
  import opened Transitions
  import opened Snapshot

  /** The callback did what `m` says: an error leaves the clone as it was. */
  twostate predicate Ran(st: StateData, m: Mutation, out: Outcome)
    reads st, st.executions
  {
    && st.Execs() == (if m.Commit? then m.execs else old(st.Execs()))
    && out == match m {
         case Commit(_) => Applied
         case Unchanged => NoStateChange
         case Rejected(e) => Errored(e)
       }
  }

  /** Rewriting one object rewrites one entry. */
  lemma WroteOne(before: seq<Exec>, after: seq<Exec>, i: int)
    requires |after| == |before| && 0 <= i < |before|
    requires forall k :: 0 <= k < |before| && k != i ==> after[k] == before[k]
    ensures after == before[i := after[i]]
  {
  }

  method Permit(st: StateData, agent: AgentId, id: ExecId, now: Time) returns (out: Outcome, response: PermitResponse)
    requires DistinctObjects(st.executions)
    modifies st.executions
    ensures Ran(st, GrantPermit(old(st.Execs()), agent, id, now), out)
    ensures !out.Errored? ==> Model.Find(old(st.Execs()), id).Some? && response == PermitResponseFor(Model.Find(old(st.Execs()), id).value)
  {
    response := PermitResponse(false, false);
    var execution := st.Find(id);
    if execution == null {
      return Errored(ExecutionNotFound), response;
    }
    ghost var i := FindIndex(st.Execs(), id);
    if execution.record.agent != agent {
      return Errored(NotExecutionOwner), response;
    }
    if execution.record.permitRevoked || execution.record.cancelRequested {
      return NoStateChange, response;
    }
    if execution.record.status == Assigned {
      execution.record := execution.record.(permitGranted := true);
      execution.record := execution.record.(status := Running);
      execution.record := execution.record.(startedAt := now);
      WroteOne(old(st.Execs()), st.Execs(), i);
      return Applied, PermitResponse(true, false);
    }
    response := if execution.record.status == Running then PermitResponse(true, true) else response;
    out := NoStateChange;
  }

  method MarkCanceled(execution: Execution, now: Time)
    modifies execution
    ensures execution.record == old(execution.record).(cancelRequested := true, canceledAt := FirstCancelTime(old(execution.record), now))
  {
    execution.record := execution.record.(cancelRequested := true);
    if execution.record.canceledAt == ZERO_TIME {
      execution.record := execution.record.(canceledAt := now);
    }
  }

  /** The switch of Cancel on the execution's status. */
  method CancelOne(execution: Execution, now: Time) returns (out: Outcome)
    modifies execution
    ensures match CancelEffect(old(execution.record), now)
            case Write(y) => out == Applied && execution.record == y
            case Keep => false
            case Refuse(e) => out == Errored(e) && execution.record == old(execution.record)
  {
    match execution.record.status
    case Queued =>
      execution.record := execution.record.(status := Canceled);
      execution.record := execution.record.(cancelRequested := true);
      execution.record := execution.record.(canceledAt := now);
      execution.record := execution.record.(finishedAt := now);
      execution.record := execution.record.(logComplete := true);
      execution.record := execution.record.(error := CanceledBeforeAssignment);
      out := Applied;
    case Assigned =>
      MarkCanceled(execution, now);
      if !execution.record.permitGranted {
        execution.record := execution.record.(permitRevoked := true);
        execution.record := execution.record.(status := Canceled);
        execution.record := execution.record.(finishedAt := now);
        execution.record := execution.record.(logComplete := true);
        execution.record := execution.record.(error := CanceledBeforePermit);
      } else {
        execution.record := execution.record.(status := Canceling);
      }
      out := Applied;
    case Running =>
      MarkCanceled(execution, now);
      execution.record := execution.record.(status := Canceling);
      out := Applied;
    case Canceling =>
      MarkCanceled(execution, now);
      execution.record := execution.record.(status := Canceling);
      out := Applied;
    case _ =>
      out := Errored(ExecutionDone);
  }

  method CancelRun(st: StateData, id: ExecId, now: Time) returns (out: Outcome)
    requires DistinctObjects(st.executions)
    modifies st.executions
    ensures Ran(st, Cancel(old(st.Execs()), id, now), out)
  {
    var execution := st.Find(id);
    if execution == null {
      return Errored(ExecutionNotFound);
    }
    out := CancelOne(execution, now);
    WroteOne(old(st.Execs()), st.Execs(), FindIndex(old(st.Execs()), id));
  }

  /** The assignments SubmitResult makes. */
  method FinishOne(execution: Execution, request: ResultRequest, size: int, now: Time)
    requires !Terminal(execution.record.status)
    modifies execution
    ensures ResultEffect(old(execution.record), request, size, now) == Write(execution.record)
  {
    var final := request.status;
    if execution.record.cancelRequested && request.status != Success {
      final := Canceled;
    }
    execution.record := execution.record.(status := final, exitCode := request.exitCode, error := request.error,
                                          failureReason := request.failureReason, finishedAt := now);
    execution.record := execution.record.(logOffset := size, logComplete := true, needsAttention := false, attention := NO_TEXT);
    if final == Canceled && execution.record.canceledAt == ZERO_TIME {
      execution.record := execution.record.(canceledAt := execution.record.finishedAt);
    }
  }

  method Result(st: StateData, id: ExecId, request: ResultRequest, size: int, now: Time) returns (out: Outcome)
    requires DistinctObjects(st.executions)
    modifies st.executions
    ensures Ran(st, SubmitResult(old(st.Execs()), id, request, size, now), out)
  {
    var execution := st.Find(id);
    if execution == null {
      return Errored(ExecutionNotFound);
    }
    if Terminal(execution.record.status) {
      return NoStateChange;
    }
    FinishOne(execution, request, size, now);
    WroteOne(old(st.Execs()), st.Execs(), FindIndex(old(st.Execs()), id));
    out := Applied;
  }

  method Attention(st: StateData, agent: AgentId, id: ExecId, message: string) returns (out: Outcome)
    requires DistinctObjects(st.executions)
    modifies st.executions
    ensures Ran(st, ReportAttention(old(st.Execs()), agent, id, message), out)
  {
    var execution := st.Find(id);
    if execution == null {
      return Errored(ExecutionNotFound);
    }
    if execution.record.agent != agent {
      return Errored(NotExecutionOwner);
    }
    if Terminal(execution.record.status) {
      return NoStateChange;
    }
    execution.record := execution.record.(needsAttention := true);
    execution.record := execution.record.(attention := Said(message));
    WroteOne(old(st.Execs()), st.Execs(), FindIndex(old(st.Execs()), id));
    out := Applied;
  }

  /** markLogTruncated's callback. */
  method MarkTruncated(st: StateData, id: ExecId) returns (out: Outcome)
    requires DistinctObjects(st.executions)
    modifies st.executions
    ensures Ran(st, MarkLogTruncated(old(st.Execs()), id), out)
  {
    var execution := st.Find(id);
    if execution == null {
      return Errored(ExecutionNotFound);
    }
    if execution.record.logTruncated {
      return NoStateChange;
    }
    execution.record := execution.record.(logTruncated := true);
    WroteOne(old(st.Execs()), st.Execs(), FindIndex(old(st.Execs()), id));
    out := Applied;
  }

  /** The assignments ResolveAttention makes. */
  method ResolveOne(execution: Execution, note: string, now: Time)
    requires execution.record.needsAttention
    modifies execution
    ensures ResolveEffect(old(execution.record), note, now) == Write(execution.record)
  {
    execution.record := execution.record.(needsAttention := false, attention := NO_TEXT);
    if !Terminal(execution.record.status) {
      var text := if note == "" then OperatorResolved else Said(note);
      execution.record := execution.record.(status := Aborted, finishedAt := now, logComplete := true,
                                            failureReason := FAILURE_REASON_AGENT, error := text);
    }
  }

  method Resolve(st: StateData, id: ExecId, note: string, now: Time) returns (out: Outcome)
    requires DistinctObjects(st.executions)
    modifies st.executions
    ensures Ran(st, ResolveAttention(old(st.Execs()), id, note, now), out)
  {
    var execution := st.Find(id);
    if execution == null {
      return Errored(ExecutionNotFound);
    }
    if !execution.record.needsAttention {
      return Errored(NotBlockedOnAttention);
    }
    ResolveOne(execution, note, now);
    WroteOne(old(st.Execs()), st.Execs(), FindIndex(old(st.Execs()), id));
    out := Applied;
  }

  /** An open execution of the agent that it does not know, and that is not
    * escalated yet. */
  predicate ActsOn(x: Exec, agent: AgentId, known: set<ExecId>) {
    x.agent == agent && !Terminal(x.status) && x.id !in known && (!x.permitGranted || !x.needsAttention)
  }

  lemma ActsOnChanged(x: Exec, agent: AgentId, known: set<ExecId>)
    requires agent != ""
    ensures ActsOn(x, agent, known) <==> ReconcileOne(x, agent, known) != x
  {
  }

  /** The executions among the first n that Reconcile changes, in list order. */
  function ActedUpTo(execs: seq<Exec>, n: nat, agent: AgentId, known: set<ExecId>): seq<ExecId>
    requires n <= |execs|
  {
    if n == 0 then []
    else ActedUpTo(execs, n - 1, agent, known) + if ActsOn(execs[n - 1], agent, known) then [execs[n - 1].id] else []
  }

  function ActedOn(execs: seq<Exec>, agent: AgentId, known: set<ExecId>): seq<ExecId> {
    ActedUpTo(execs, |execs|, agent, known)
  }

  /** The list with the first n executions reconciled. */
  function ReconciledUpTo(execs: seq<Exec>, n: nat, agent: AgentId, known: set<ExecId>): (r: seq<Exec>)
    requires n <= |execs|
    ensures |r| == |execs| && forall k :: n <= k < |execs| ==> r[k] == execs[k]
  {
    if n == 0 then execs
    else ReconciledUpTo(execs, n - 1, agent, known)[n - 1 := ReconcileOne(execs[n - 1], agent, known)]
  }

  lemma ReconciledStart(execs: seq<Exec>, agent: AgentId, known: set<ExecId>)
    ensures ReconciledUpTo(execs, 0, agent, known) == execs && ActedUpTo(execs, 0, agent, known) == []
  {
  }

  lemma ReconciledNext(execs: seq<Exec>, n: nat, agent: AgentId, known: set<ExecId>)
    requires n < |execs|
    ensures var y := ReconcileOne(execs[n], agent, known);
      && ReconciledUpTo(execs, n, agent, known)[n] == execs[n]
      && ReconciledUpTo(execs, n + 1, agent, known) == ReconciledUpTo(execs, n, agent, known)[n := y]
      && ActedUpTo(execs, n + 1, agent, known) == ActedUpTo(execs, n, agent, known) + if ActsOn(execs[n], agent, known) then [execs[n].id] else []
  {
  }

  lemma {:induction false} ReconciledAt(execs: seq<Exec>, n: nat, agent: AgentId, known: set<ExecId>)
    requires n <= |execs|
    ensures forall k :: 0 <= k < n ==> ReconciledUpTo(execs, n, agent, known)[k] == ReconcileOne(execs[k], agent, known)
    ensures agent != "" ==> (ActedUpTo(execs, n, agent, known) == [] <==> forall k :: 0 <= k < n ==> ReconcileOne(execs[k], agent, known) == execs[k])
  {
    if n > 0 {
      if agent != "" { ActsOnChanged(execs[n - 1], agent, known); }
      ReconciledAt(execs, n - 1, agent, known);
    }
  }

  /** After the whole list; nothing was acted on exactly when it is unchanged. */
  lemma ReconciledIsAll(execs: seq<Exec>, agent: AgentId, known: set<ExecId>)
    ensures ReconciledUpTo(execs, |execs|, agent, known) == ReconcileAll(execs, agent, known)
    ensures agent != "" ==> (ActedOn(execs, agent, known) == [] <==> ReconcileAll(execs, agent, known) == execs)
  {
    ReconciledAt(execs, |execs|, agent, known);
  }

  /** Reconcile's callback. */
  method ReconcileRuns(st: StateData, agent: AgentId, known: set<ExecId>) returns (out: Outcome, unknown: seq<ExecId>)
    requires DistinctObjects(st.executions) && agent != ""
    modifies st.executions
    ensures Ran(st, Reconcile(old(st.Execs()), agent, known), out)
    ensures unknown == ActedOn(old(st.Execs()), agent, known)
  {
    ReconciledIsAll(st.Execs(), agent, known);
    var changed;
    changed, unknown := ReconcileLoop(st, agent, known);
    out := if changed then Applied else NoStateChange;
  }

  /** The loop over the executions of one agent. */
  method ReconcileLoop(st: StateData, agent: AgentId, known: set<ExecId>) returns (changed: bool, unknown: seq<ExecId>)
    requires DistinctObjects(st.executions) && agent != ""
    modifies st.executions
    ensures st.Execs() == ReconciledUpTo(old(st.Execs()), |old(st.Execs())|, agent, known)
    ensures unknown == ActedOn(old(st.Execs()), agent, known) && (changed <==> unknown != [])
  {
    hide ReconcileOne, ActsOn, ReconciledUpTo, ActedUpTo;
    ghost var all := st.Execs();
    ReconciledStart(all, agent, known);
    changed, unknown := false, [];
    for i := 0 to |st.executions|
      invariant st.Execs() == ReconciledUpTo(all, i, agent, known)
      invariant unknown == ActedUpTo(all, i, agent, known) && (changed <==> unknown != [])
    {
      ReconciledNext(all, i, agent, known);
      var acted := ReconcileAt(st, i, agent, known);
      if acted {
        unknown := unknown + [st.executions[i].record.id];
        changed := true;
      }
    }
  }

  method ReconcileAt(st: StateData, i: nat, agent: AgentId, known: set<ExecId>) returns (acted: bool)
    requires DistinctObjects(st.executions) && agent != "" && i < |st.executions|
    modifies st.executions
    ensures st.Execs() == old(st.Execs())[i := ReconcileOne(old(st.Execs())[i], agent, known)]
    ensures acted <==> ActsOn(old(st.Execs())[i], agent, known)
    ensures st.executions[i].record.id == old(st.Execs())[i].id
  {
    acted := ReconcileExecution(st.executions[i], agent, known);
    WroteOne(old(st.Execs()), st.Execs(), i);
  }

  method ReconcileExecution(execution: Execution, agent: AgentId, known: set<ExecId>) returns (acted: bool)
    requires agent != ""
    modifies execution
    ensures execution.record == ReconcileOne(old(execution.record), agent, known)
    ensures acted <==> ActsOn(old(execution.record), agent, known)
  {
    if execution.record.agent != agent || Terminal(execution.record.status) || execution.record.id in known {
      return false;
    }
    if !execution.record.permitGranted {
      execution.record := execution.record.(status := Queued);
      execution.record := execution.record.(agent := "");
      execution.record := execution.record.(assignedAt := ZERO_TIME);
      execution.record := execution.record.(permitRevoked := false);
      return true;
    }
    if !execution.record.needsAttention {
      execution.record := execution.record.(needsAttention := true);
      execution.record := execution.record.(attention := LostTrack(agent));
      return true;
    }
    acted := false;
  }

  /** DeleteExecution's loop. */
  method DeleteRun(st: StateData, id: ExecId) returns (out: Outcome)
    requires DistinctObjects(st.executions)
    modifies st`executions
    ensures Ran(st, Delete(old(st.Execs()), id), out)
    ensures DistinctObjects(st.executions) && forall x :: x in st.executions ==> x in old(st.executions)
  {
    for index := 0 to |st.executions|
      invariant st.executions == old(st.executions) && st.Execs() == old(st.Execs())
      invariant forall k :: 0 <= k < index ==> st.executions[k].record.id != id
    {
      var execution := st.executions[index];
      if execution.record.id != id {
        continue;
      }
      FirstMatch(st.Execs(), id, index);
      if !Terminal(execution.record.status) {
        return Errored(ExecutionActive);
      }
      st.executions := st.executions[..index] + st.executions[index + 1..];
      assert st.Execs() == old(st.Execs())[..index] + old(st.Execs())[index + 1..];
      return Applied;
    }
    out := Errored(ExecutionNotFound);
  }
}

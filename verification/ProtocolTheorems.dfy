/** What holds in every run of the system: any number of agents, lost, late and
  * repeated requests, crashes between any two journal saves, controller
  * restarts, requeues, cancellations and operators. */
module ProtocolTheorems {
  import opened Model
  import opened Transitions
  import opened AgentMachine
  import opened AgentInvariant
  import Scheduler
  import opened Protocol
  import opened ProtocolInvariant
  import opened ProtocolHistory

  ghost predicate IsRun(states: seq<World>, steps: seq<Step>) {
    && |states| == |steps| + 1
    && Init(states[0])
    && (forall i {:trigger steps[i]} :: 0 <= i < |steps| ==> states[i + 1] == Next(states[i], steps[i]))
  }

  lemma {:induction false} InvThroughout(states: seq<World>, steps: seq<Step>, i: nat)
    requires IsRun(states, steps) && i < |states|
    ensures Inv(states[i])
  {
    hide Inv, Next;
    if i == 0 {
      InitEstablishes(states[0]);
    } else {
      InvThroughout(states, steps, i - 1);
      NextKeeps(states[i - 1], steps[i - 1]);
      assert states[i] == Next(states[i - 1], steps[i - 1]);
    }
  }

  // ---- properties of every state ----------------------------------------------------

  /** At most once: no execution's script is launched twice, by any agent. */
  lemma AtMostOnceStart(states: seq<World>, steps: seq<Step>, i: nat, m: nat, n: nat)
    requires IsRun(states, steps) && i < |states|
    requires m < n < |states[i].launches|
    ensures states[i].launches[m].id != states[i].launches[n].id
  {
    InvThroughout(states, steps, i);
  }

  /** A record is looked up by its id. */
  lemma RecordOf(w: World, x: Exec)
    requires Inv(w) && x in w.ctrl.execs
    ensures Find(w.ctrl.execs, x.id) == Some(x) && ExecOk(x) && PermitOk(x, w.used, w.granted)
  {
  }

  lemma LaunchIsGranted(w: World, l: Launching)
    requires AgentsOk(w) && LaunchesOk(w) && l in w.launches
    ensures GrantedTo(KnowOf(w), l.agent, l.id)
  {
  }

  /** A launch is only ever made by the agent holding the permit. */
  lemma LaunchedByGrantee(states: seq<World>, steps: seq<Step>, i: nat, l: Launching)
    requires IsRun(states, steps) && i < |states| && l in states[i].launches
    ensures l.id in states[i].granted && states[i].granted[l.id] == l.agent
  {
    InvThroughout(states, steps, i);
    LaunchIsGranted(states[i], l);
  }

  /** SUCCESS means the script was launched, once, by the agent on record. */
  lemma SuccessMeansLaunchedOnce(states: seq<World>, steps: seq<Step>, i: nat, x: Exec)
    requires IsRun(states, steps) && i < |states|
    requires x in states[i].ctrl.execs && x.status.Success? && x.origin.None?
    ensures exists m :: 0 <= m < |states[i].launches| && states[i].launches[m] == Launching(x.agent, x.id)
    ensures forall m, n :: 0 <= m < n < |states[i].launches| && states[i].launches[m].id == x.id ==> states[i].launches[n].id != x.id
  {
    var w := states[i];
    InvThroughout(states, steps, i);
    RecordOf(w, x);
    assert Launching(x.agent, x.id) in w.launches;
  }

  /** An open run that was granted holds its owner's slot. */
  lemma OpenMeansActive(w: World, a: AgentId, e: ExecId)
    requires ControllerOk(w) && GrantedTo(KnowOf(w), a, e) && !Closed(w.ctrl.execs, e)
    ensures Find(w.ctrl.execs, e).Some?
    ensures var x := Find(w.ctrl.execs, e).value; x.agent == a && (x.status.Running? || x.status.Canceling?)
  {
  }

  /** A closed, unresolved run was reported by the agent it was granted to. */
  lemma ClosedWasReported(w: World, a: AgentId, e: ExecId)
    requires ControllerOk(w) && GrantedTo(KnowOf(w), a, e) && Closed(w.ctrl.execs, e) && e !in w.resolved
    ensures a in w.agents && ResultSent(w.agents[a], e)
  {
  }

  lemma LiveIsActive(w: World, a: AgentId, e: ExecId)
    requires Inv(w) && a in w.agents && e in w.agents[a].live && e !in w.resolved
    ensures Find(w.ctrl.execs, e).Some?
    ensures var x := Find(w.ctrl.execs, e).value; x.agent == a && (x.status.Running? || x.status.Canceling?)
  {
  }

  /** While a launched script's leader is alive the controller still counts the
    * run as running there, unless an operator resolved it. */
  lemma LiveMeansRunning(states: seq<World>, steps: seq<Step>, i: nat, a: AgentId, e: ExecId)
    requires IsRun(states, steps) && i < |states|
    requires a in states[i].agents && e in states[i].agents[a].live && e !in states[i].resolved
    ensures Find(states[i].ctrl.execs, e).Some?
    ensures var x := Find(states[i].ctrl.execs, e).value; x.agent == a && (x.status.Running? || x.status.Canceling?)
  {
    InvThroughout(states, steps, i);
    LiveIsActive(states[i], a, e);
  }

  lemma OneSlot(s: seq<Exec>, e: ExecId, f: ExecId)
    requires StateOk(s) && Find(s, e).Some? && Find(s, f).Some?
    requires Active(Find(s, e).value.status) && Active(Find(s, f).value.status) && Find(s, e).value.agent == Find(s, f).value.agent
    ensures e == f
  {
  }

  /** Slot exclusivity: an agent owns at most one active execution. */
  lemma SlotsExclusive(states: seq<World>, steps: seq<Step>, i: nat, x: Exec, y: Exec)
    requires IsRun(states, steps) && i < |states|
    requires x in states[i].ctrl.execs && y in states[i].ctrl.execs && Active(x.status) && Active(y.status) && x.agent == y.agent
    ensures x == y
  {
    InvThroughout(states, steps, i);
    RecordOf(states[i], x);
    RecordOf(states[i], y);
    OneSlot(states[i].ctrl.execs, x.id, y.id);
  }

  /** Host mutual exclusion: no host has two live scripts, unless an operator
    * resolved one of them. */
  lemma HostMutualExclusion(states: seq<World>, steps: seq<Step>, i: nat, a: AgentId, e: ExecId, f: ExecId)
    requires IsRun(states, steps) && i < |states|
    requires a in states[i].agents && e in states[i].agents[a].live && f in states[i].agents[a].live
    requires e !in states[i].resolved && f !in states[i].resolved
    ensures e == f
  {
    var w := states[i];
    InvThroughout(states, steps, i);
    LiveIsActive(w, a, e);
    LiveIsActive(w, a, f);
    OneSlot(w.ctrl.execs, e, f);
  }

  // ---- properties of single steps --------------------------------------------------

  lemma LiveChangesByAgent(w: World, s: Step, a: AgentId, e: ExecId)
    requires a in w.agents && e !in w.agents[a].live && a in Next(w, s).agents && e in Next(w, s).agents[a].live
    ensures s.ByAgent? && s.a == a && e in Do(w.agents[a], s.step).live
  {
    hide Do, Mutate, Scheduler.Schedule, ApplyAt, Delete, Reconcile, Find, AssignmentFor, LaunchesOf;
  }

  /** A script only starts on an agent whose one open execution it is, so an
    * agent waiting for an operator starts nothing. */
  lemma StartsAlone(states: seq<World>, steps: seq<Step>, i: nat, a: AgentId, e: ExecId, x: Exec)
    requires IsRun(states, steps) && i < |steps|
    requires a in states[i].agents && a in states[i + 1].agents
    requires e !in states[i].agents[a].live && e in states[i + 1].agents[a].live && e !in states[i].resolved
    requires x in states[i].ctrl.execs && x.agent == a && !Terminal(x.status)
    ensures x.id == e && x.permitGranted
  {
    InvThroughout(states, steps, i);
    var w, s := states[i], steps[i];
    LiveChangesByAgent(w, s, a, e);
    LaunchIsFirst(a, w.agents[a], KnowOf(w), s.step, e);
    if Closed(w.ctrl.execs, e) { ClosedWasReported(w, a, e); }
    OpenMeansActive(w, a, e);
    RecordOf(w, x);
    OneSlot(w.ctrl.execs, x.id, e);
  }

  lemma JournalChangesByAgent(w: World, s: Step, a: AgentId, e: ExecId)
    requires a in w.agents && e in w.agents[a].journal && a in Next(w, s).agents && e !in Next(w, s).agents[a].journal
    ensures s.ByAgent? && s.a == a && e !in Do(w.agents[a], s.step).journal
  {
    hide Do, Mutate, Scheduler.Schedule, ApplyAt, Delete, Reconcile, Find, AssignmentFor, LaunchesOf;
  }

  /** A journal entry, and with it the local log, only disappears once the
    * controller's record is final. */
  lemma SpoolKeptUntilFinal(states: seq<World>, steps: seq<Step>, i: nat, a: AgentId, e: ExecId)
    requires IsRun(states, steps) && i < |steps|
    requires a in states[i].agents && a in states[i + 1].agents
    requires e in states[i].agents[a].journal && e !in states[i + 1].agents[a].journal
    ensures Closed(states[i].ctrl.execs, e)
  {
    InvThroughout(states, steps, i);
    JournalChangesByAgent(states[i], steps[i], a, e);
    SpoolOutlivesExecution(a, states[i].agents[a], KnowOf(states[i]), steps[i].step, e);
  }

  lemma OpenHandlerIsOwners(w: World, h: Handler)
    requires Inv(w) && h in w.handlers && h.id in w.granted && !Closed(w.ctrl.execs, h.id)
    ensures h.agent == w.granted[h.id] && h.agent in w.agents && h.id !in w.agents[h.agent].live
  {
    SentResultIsDecided(w, h.agent, h.id, h.report);
  }

  /** A result on its way to an open permitted run is its owner's, sent after
    * the script was over. */
  lemma HandlerIsOwners(states: seq<World>, steps: seq<Step>, i: nat, h: Handler)
    requires IsRun(states, steps) && i < |states| && h in states[i].handlers
    requires h.id in states[i].granted && !Closed(states[i].ctrl.execs, h.id)
    ensures h.agent == states[i].granted[h.id] && h.agent in states[i].agents && h.id !in states[i].agents[h.agent].live
  {
    InvThroughout(states, steps, i);
    OpenHandlerIsOwners(states[i], h);
  }

  lemma EndingStep(w: World, s: Step, e: ExecId)
    requires Inv(w) && e in w.granted && !Closed(w.ctrl.execs, e)
    ensures Closed(Next(w, s).ctrl.execs, e) ==> Ends(s, e)
  {
    OpenMeansActive(w, w.granted[e], e);
    var mid, newIds := StepMoves(w, s, e);
    MovesContinue(w, Next(w, s), mid, newIds, e);
  }

  /** No fabricated completion: a permitted run ends only by the submitted
    * result of its owner, whose script is over, or by an operator. */
  lemma CompletionsAreReal(states: seq<World>, steps: seq<Step>, i: nat, e: ExecId)
    requires IsRun(states, steps) && i < |steps|
    requires e in states[i].granted && !Closed(states[i].ctrl.execs, e) && Closed(states[i + 1].ctrl.execs, e)
    ensures || (steps[i].Resolve? && steps[i].id == e)
            || (&& steps[i].ApplyResult? && steps[i].h.id == e && steps[i].h.agent == states[i].granted[e]
                && steps[i].h.agent in states[i].agents && e !in states[i].agents[steps[i].h.agent].live)
  {
    var w, s := states[i], steps[i];
    InvThroughout(states, steps, i);
    EndingStep(w, s, e);
    if s.ApplyResult? {
      IdleApply(w, s);
      OpenHandlerIsOwners(w, s.h);
    }
  }

  lemma IdleApply(w: World, s: Step)
    requires s.ApplyResult? && Closed(Next(w, s).ctrl.execs, s.h.id) && !Closed(w.ctrl.execs, s.h.id)
    ensures s.h in w.handlers
  {
  }

  // ---- properties of whole runs -----------------------------------------------------

  lemma {:induction false} RunIsLater(states: seq<World>, steps: seq<Step>, i: nat, j: nat, e: ExecId)
    requires IsRun(states, steps) && i <= j < |states|
    ensures Later(states[i], states[j], e)
    decreases j - i
  {
    hide Later, Next, Inv;
    if i == j {
      LaterReflexive(states[i], e);
    } else {
      var w, u, s := states[i], states[j - 1], steps[j - 1];
      InvThroughout(states, steps, i);
      InvThroughout(states, steps, j - 1);
      RunIsLater(states, steps, i, j - 1, e);
      LaterExtends(w, u, s, e);
      assert states[j] == Next(u, s);
    }
  }

  lemma LaterExtends(w: World, u: World, s: Step, e: ExecId)
    requires Inv(w) && Inv(u) && Later(w, u, e)
    ensures Later(w, Next(u, s), e)
  {
    StepIsLater(u, s, e);
    LaterTransitive(w, u, Next(u, s), e);
  }

  lemma LaterReflexive(w: World, e: ExecId)
    ensures Later(w, w, e)
  {
  }

  /** A granted permit is for good: the owner never changes, the execution is
    * never queued again, and it is never revoked. */
  lemma PermitIsForever(states: seq<World>, steps: seq<Step>, i: nat, j: nat, x: Exec, y: Exec)
    requires IsRun(states, steps) && i <= j < |states|
    requires x in states[i].ctrl.execs && x.permitGranted && y in states[j].ctrl.execs && y.id == x.id
    ensures y.permitGranted && !y.permitRevoked && y.agent == x.agent && !y.status.Queued? && !y.status.Assigned?
  {
    InvThroughout(states, steps, i);
    InvThroughout(states, steps, j);
    RecordOf(states[i], x);
    RecordOf(states[j], y);
    RunIsLater(states, steps, i, j, x.id);
  }

  /** An execution that ended without a permit was never launched by anyone and
    * never will be. */
  lemma CanceledBeforePermitNeverStarts(states: seq<World>, steps: seq<Step>, i: nat, j: nat, x: Exec, m: nat)
    requires IsRun(states, steps) && i < |states| && j < |states|
    requires x in states[i].ctrl.execs && Terminal(x.status) && !x.permitGranted && m < |states[j].launches|
    ensures states[j].launches[m].id != x.id
  {
    var k := if i <= j then j else i;
    InvThroughout(states, steps, i);
    InvThroughout(states, steps, k);
    RecordOf(states[i], x);
    RunIsLater(states, steps, i, k, x.id);
    RunIsLater(states, steps, j, k, x.id);
    assert states[j].launches[m] == states[k].launches[m];
    LaunchIsGranted(states[k], states[k].launches[m]);
  }

  /** Status, exit code, finish time, owner and error of a finished run are
    * never rewritten. */
  lemma VerdictIsFinal(states: seq<World>, steps: seq<Step>, i: nat, j: nat, x: Exec, y: Exec)
    requires IsRun(states, steps) && i <= j < |states|
    requires x in states[i].ctrl.execs && Terminal(x.status) && y in states[j].ctrl.execs && y.id == x.id
    ensures SameVerdict(x, y)
  {
    InvThroughout(states, steps, i);
    InvThroughout(states, steps, j);
    RecordOf(states[i], x);
    RecordOf(states[j], y);
    RunIsLater(states, steps, i, j, x.id);
  }

  /** What was captured when a run was enqueued never changes, and a run that is
    * gone never comes back. */
  lemma SnapshotIsImmutable(states: seq<World>, steps: seq<Step>, i: nat, j: nat, k: nat, x: Exec, y: Exec)
    requires IsRun(states, steps) && i <= j <= k < |states|
    requires x in states[i].ctrl.execs && y in states[k].ctrl.execs && y.id == x.id
    ensures y.work == x.work && y.labels == x.labels && y.origin == x.origin && y.requestedAt == x.requestedAt
    ensures Find(states[j].ctrl.execs, x.id).Some?
  {
    InvThroughout(states, steps, i);
    InvThroughout(states, steps, k);
    RecordOf(states[i], x);
    RecordOf(states[k], y);
    RunIsLater(states, steps, i, k, x.id);
    RunIsLater(states, steps, i, j, x.id);
    RunIsLater(states, steps, j, k, x.id);
  }
}

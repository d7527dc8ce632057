/** The controller, its agents and the unreliable channel between them, as one
  * state machine. A request once sent may be processed at any later time, any
  * number of times or never; an answer reaches only the call still waiting for
  * it. The history fields record what no component can see. */
module Protocol {
  import opened Model
  import opened History
  import opened Transitions
  import opened Scheduler
  import opened AgentMachine
  import opened AgentInvariant

  /** One entry of the system-wide history of script launches. */
  datatype Launching = Launching(agent: AgentId, id: ExecId)

  /** A result that passed the ownership check of SubmitResult and waits for the
    * store lock. */
  datatype Handler = Handler(agent: AgentId, id: ExecId, report: ResultRequest)

  datatype World = World(
    ctrl: State, maxHistory: int, handlers: set<Handler>,
    agents: map<AgentId, Agent>,
    // history
    used: set<ExecId>, granted: map<ExecId, AgentId>, resolved: set<ExecId>, launches: seq<Launching>)

  datatype Step =
    | ByAgent(a: AgentId, step: AStep)
    | Enqueue(id: ExecId, work: Work, labels: seq<string>, now: Time)
    | Import(x: Exec)
    | RunScheduler(fleet: Fleet, now: Time)
    | ProcessPoll(a: AgentId, known: set<ExecId>)
    | AnswerPoll(a: AgentId)
    | ProcessPermit(a: AgentId, id: ExecId, now: Time)
    | CheckResult(a: AgentId, id: ExecId, report: ResultRequest)
    | RefuseResult(a: AgentId, id: ExecId, report: ResultRequest)
    | ApplyResult(h: Handler, size: int, now: Time)
    | ProcessAttention(a: AgentId, id: ExecId, message: string)
    | AnswerHeartbeat(a: AgentId, id: ExecId)
    | TruncateLog(id: ExecId)
    | RaiseOffset(id: ExecId, offset: int)
    | RequestCancel(id: ExecId, now: Time)
    | Resolve(id: ExecId, note: string, now: Time)
    | DeleteRun(id: ExecId)
    | SetMaxHistory(maxHistory: int, saved: bool)
    | RestartController(offsets: map<ExecId, int>)

  /** AssignmentFor: what a poll of agent a is answered with. */
  function AssignmentFor(execs: seq<Exec>, a: AgentId): Option<ExecId> {
    if |execs| == 0 then None
    else if execs[0].agent == a && execs[0].status.Assigned? && !execs[0].permitRevoked && !execs[0].cancelRequested
    then Some(execs[0].id)
    else AssignmentFor(execs[1..], a)
  }

  /** The answer goes to the call of a that is still waiting for it, if any. */
  function Answer(w: World, a: AgentId, request: Request, response: Response): World {
    if a in w.agents && w.agents[a].call == Some(request)
    then w.(agents := w.agents[a := w.agents[a].(answers := w.agents[a].answers + {response})])
    else w
  }

  function Commits(w: World, m: Mutation): World {
    w.(ctrl := Mutate(w.ctrl, m, w.maxHistory))
  }

  predicate Sent(w: World, a: AgentId, request: Request) {
    a in w.agents && request in w.agents[a].sent
  }

  function LaunchesOf(a: AgentId, g: Agent, h: Agent): seq<Launching> {
    if g.pc.Intending? && h.pc.Launched? then [Launching(a, g.pc.id)] else []
  }

  ghost function Next(w: World, s: Step): World {
    match s
    case ByAgent(a, step) => DoAgent(w, a, step)
    case Enqueue(id, work, labels, now) => DoEnqueue(w, id, work, labels, now)
    case Import(x) => DoImport(w, x)
    case RunScheduler(fleet, now) => DoSchedule(w, fleet, now)
    case ProcessPoll(a, known) => DoPoll(w, a, known)
    case AnswerPoll(a) => DoAnswerPoll(w, a)
    case ProcessPermit(a, id, now) => DoPermit(w, a, id, now)
    case CheckResult(a, id, report) => DoCheck(w, a, id, report)
    case RefuseResult(a, id, report) => DoRefuse(w, a, id, report)
    case ApplyResult(h, size, now) => DoApply(w, h, size, now)
    case ProcessAttention(a, id, message) => DoAttention(w, a, id, message)
    case AnswerHeartbeat(a, id) => DoHeartbeat(w, a, id)
    case TruncateLog(id) => Commits(w, MarkLogTruncated(w.ctrl.execs, id))
    case RaiseOffset(id, offset) => DoRaiseOffset(w, id, offset)
    case RequestCancel(id, now) => Commits(w, Cancel(w.ctrl.execs, id, now))
    case Resolve(id, note, now) => DoResolve(w, id, note, now)
    case DeleteRun(id) => Commits(w, Delete(w.ctrl.execs, id))
    case SetMaxHistory(n, saved) => DoSetMaxHistory(w, n, saved)
    case RestartController(offsets) => DoRestart(w, offsets)
  }

  ghost function DoAgent(w: World, a: AgentId, step: AStep): World {
    if a !in w.agents then w
    else
      var g := w.agents[a];
      var h := Do(g, step);
      w.(agents := w.agents[a := h], launches := w.launches + LaunchesOf(a, g, h))
  }

  function DoEnqueue(w: World, id: ExecId, work: Work, labels: seq<string>, now: Time): World {
    if id in w.used then w
    else Commits(w, Commit(w.ctrl.execs + [NewExec(id, work, labels, now)])).(used := w.used + {id})
  }

  function DoImport(w: World, x: Exec): World {
    if x.id in w.used || !Imported(x) then w
    else Commits(w, Commit(w.ctrl.execs + [x])).(used := w.used + {x.id})
  }

  /** scheduleOnce on any view of which agents are available. */
  ghost function DoSchedule(w: World, fleet: Fleet, now: Time): World {
    if "" in fleet then w else w.(ctrl := Schedule(w.ctrl, fleet, now, w.maxHistory))
  }

  /** The reconciliation at the start of handleAgentPoll. */
  function DoPoll(w: World, a: AgentId, known: set<ExecId>): World {
    if !Sent(w, a, Poll(known)) then w else Commits(w, Reconcile(w.ctrl.execs, a, known))
  }

  function DoAnswerPoll(w: World, a: AgentId): World {
    if a !in w.agents || w.agents[a].call.None? || !w.agents[a].call.value.Poll? then w
    else Answer(w, a, w.agents[a].call.value, PollAnswer(AssignmentFor(w.ctrl.execs, a)))
  }

  /** The ownership check of SubmitResult. */
  function DoCheck(w: World, a: AgentId, id: ExecId, report: ResultRequest): World {
    if Sent(w, a, Result(id, report)) && Find(w.ctrl.execs, id).Some? && Find(w.ctrl.execs, id).value.agent == a
    then w.(handlers := w.handlers + {Handler(a, id, report)}) else w
  }

  function DoRefuse(w: World, a: AgentId, id: ExecId, report: ResultRequest): World {
    if Sent(w, a, Result(id, report)) then Answer(w, a, Result(id, report), ResultAnswer(false)) else w
  }

  function DoAttention(w: World, a: AgentId, id: ExecId, message: string): World {
    if !Sent(w, a, Attention(id)) then w
    else Answer(Commits(w, ReportAttention(w.ctrl.execs, a, id, message)), a, Attention(id), AttentionAnswer)
  }

  /** SetLogOffset, in memory only. */
  function DoRaiseOffset(w: World, id: ExecId, offset: int): World {
    w.(ctrl := w.ctrl.(execs := WithOffset(w.ctrl.execs, id, offset)))
  }

  function DoResolve(w: World, id: ExecId, note: string, now: Time): World {
    var m := ResolveAttention(w.ctrl.execs, id, note, now);
    if m.Commit? then Commits(w, m).(resolved := w.resolved + {id}) else w
  }

  function DoSetMaxHistory(w: World, n: int, saved: bool): World {
    if NormalizeMaxHistory(n) == NormalizeMaxHistory(w.maxHistory) then w
    else if saved then Commits(w.(maxHistory := n), Commit(w.ctrl.execs))
    else w.(maxHistory := n)
  }

  function DoRestart(w: World, offsets: map<ExecId, int>): World {
    w.(handlers := {}, ctrl := w.ctrl.(execs := Reload(w.ctrl.execs, offsets)))
  }

  /** A finished legacy run. */
  predicate Imported(x: Exec) {
    x.origin.Some? && Terminal(x.status) && !x.permitGranted && !x.permitRevoked && x.logComplete
  }

  /** handleAgentPermit. The history records whom the permit went to. */
  function DoPermit(w: World, a: AgentId, id: ExecId, now: Time): World {
    if !Sent(w, a, Permit(id)) then w
    else
      var found := Find(w.ctrl.execs, id);
      if found.None? || found.value.agent != a then w
      else
        var m := GrantPermit(w.ctrl.execs, a, id, now);
        var u := Commits(w, m).(granted := if m.Commit? then w.granted[id := a] else w.granted);
        Answer(u, a, Permit(id), PermitAnswer(PermitResponseFor(found.value).granted))
  }

  /** The locked half of SubmitResult, which does not look at the owner again. */
  function DoApply(w: World, h: Handler, size: int, now: Time): World {
    if h !in w.handlers || Find(w.ctrl.execs, h.id).None? then w
    else
      Answer(Commits(w, SubmitResult(w.ctrl.execs, h.id, h.report, size, now)), h.agent, Result(h.id, h.report), ResultAnswer(true))
  }

  function DoHeartbeat(w: World, a: AgentId, id: ExecId): World {
    if !Sent(w, a, Heartbeat(id)) then w
    else
      var found := Find(w.ctrl.execs, id);
      var known := found.Some? && found.value.agent == a;
      Answer(w, a, Heartbeat(id), HeartbeatAnswer(known, known && Terminal(found.value.status)))
  }

  // ---- the invariant ---------------------------------------------------------------

  predicate Closed(execs: seq<Exec>, id: ExecId) {
    Find(execs, id).None? || Terminal(Find(execs, id).value.status)
  }

  function KnowOf(w: World): Know {
    Know((set e | e in w.used && Closed(w.ctrl.execs, e)), w.granted)
  }

  /** The permits in the controller's records are the ones in the history. */
  ghost predicate PermitsOk(execs: seq<Exec>, used: set<ExecId>, granted: map<ExecId, AgentId>) {
    && granted.Keys <= used
    && (forall e :: Find(execs, e).Some? ==> PermitOk(Find(execs, e).value, used, granted))
  }

  ghost predicate PermitOk(x: Exec, used: set<ExecId>, granted: map<ExecId, AgentId>) {
    && x.id in used
    && (x.permitGranted <==> x.id in granted)
    && (x.permitGranted ==> granted[x.id] == x.agent)
  }

  /** No fabricated completion: a permitted run is only over because its owner
    * said so or an operator decided it. */
  ghost predicate Accounted(w: World, e: ExecId)
    requires e in w.granted
  {
    && w.granted[e] in w.agents
    && (e in w.resolved || ResultSent(w.agents[w.granted[e]], e))
  }

  ghost predicate CompletionsOk(w: World) {
    && (forall e :: e in w.granted ==> w.granted[e] in w.agents)
    && (forall e :: e in w.granted && Closed(w.ctrl.execs, e) ==> Accounted(w, e))
  }

  ghost predicate SuccessOk(w: World) {
    forall e :: Find(w.ctrl.execs, e).Some? && Find(w.ctrl.execs, e).value.status.Success? && Find(w.ctrl.execs, e).value.origin.None? ==>
      e in w.granted && w.granted[e] in w.agents && e in w.agents[w.granted[e]].leaders
  }

  ghost predicate HandlersOk(w: World) {
    forall h :: h in w.handlers ==>
      Sent(w, h.agent, Result(h.id, h.report)) && Decided(KnowOf(w), h.agent, h.id)
  }

  ghost predicate LaunchesOk(w: World) {
    && (forall i :: 0 <= i < |w.launches| ==> w.launches[i].agent in w.agents && w.launches[i].id in w.agents[w.launches[i].agent].leaders)
    && (forall i, j :: 0 <= i < j < |w.launches| ==> w.launches[i].id != w.launches[j].id)
    && (forall a, e :: a in w.agents && e in w.agents[a].leaders ==> Launching(a, e) in w.launches)
  }

  ghost predicate AgentsOk(w: World) {
    && "" !in w.agents
    && (forall a :: a in w.agents ==> AgentInv(a, w.agents[a], KnowOf(w)))
  }

  ghost predicate ControllerOk(w: World) {
    StateOk(w.ctrl.execs) && PermitsOk(w.ctrl.execs, w.used, w.granted) && CompletionsOk(w) && SuccessOk(w)
  }

  ghost predicate Inv(w: World) {
    ControllerOk(w) && AgentsOk(w) && HandlersOk(w) && LaunchesOk(w)
  }

  /** A fresh installation with any set of agents. */
  ghost predicate Init(w: World) {
    && w.ctrl.execs == [] && w.used == {} && w.granted == map[] && w.resolved == {} && w.launches == [] && w.handlers == {}
    && "" !in w.agents
    && (forall a :: a in w.agents ==> w.agents[a] == Agent(map[], {}, map[], {}, Down, None, {}, {}, []))
  }

  lemma InitEstablishes(w: World)
    requires Init(w)
    ensures Inv(w)
  {
  }
}

/** The agent as a state machine (agent.go, agentupload.go, agentexec.go,
  * agentjournal.go). Every journal save, every controller call and every
  * process event is a step of its own, so a crash can fall between any two. */
module AgentMachine {
  import opened Model
  import opened Transitions
  import opened Orphan

  datatype Phase = Accepted | Permitted | Started | Finished | Reported | Blocked

  /** The durable journal entry of one execution. */
  datatype Entry = Entry(phase: Phase, report: ResultRequest, record: ProcessRecord)

  datatype Request =
    | Poll(known: set<ExecId>)
    | Permit(id: ExecId)
    | Result(id: ExecId, report: ResultRequest)
    | Attention(id: ExecId)
    | Heartbeat(id: ExecId)

  datatype Response =
    | PollAnswer(assignment: Option<ExecId>)
    | PermitAnswer(granted: bool)
    | ResultAnswer(accepted: bool)
    | AttentionAnswer
    | HeartbeatAnswer(known: bool, terminal: bool)

  /** Where the agent's main goroutine stands. */
  datatype Pc =
    | Down
    | Top                                        // Run's loop, or the next entry of recover
    | Polling
    | Offered(id: ExecId)                        // handleAssignment
    | Asking(id: ExecId)                         // requestPermit
    | Granted(id: ExecId)                        // permit held, not yet journaled
    | Denied(id: ExecId)
    | Preparing(id: ExecId)                      // runExecution before the intent is journaled
    | Intending(id: ExecId)                      // intent journaled, process not started
    | Unlaunched(id: ExecId)                     // cmd.Start failed
    | Launched(id: ExecId)                       // process started, identity not journaled
    | Supervising(id: ExecId)
    | Concluding(id: ExecId, report: ResultRequest)
    | Uploading(id: ExecId, report: ResultRequest) // completeExecution
    | Acknowledged(id: ExecId)
    | Dropping(id: ExecId)                       // reported, spool about to be removed
    | Escalating(id: ExecId)                     // about to journal "blocked"
    | Alerting(id: ExecId)                       // ReportAttention, then markBlocked
    | Recovering(id: ExecId)                     // recoverStarted
    | Checking(id: ExecId)                       // waitBlocked

  /** journal, live and leaders survive a crash of the agent; sent and leaders
    * are history. leaders maps each launched execution to the start token of
    * its leader, live holds those whose leader still runs. */
  datatype Agent = Agent(
    journal: map<ExecId, Entry>, live: set<ExecId>, leaders: map<ExecId, string>, sent: set<Request>,
    pc: Pc, call: Option<Request>, answers: set<Response>, blocked: set<ExecId>, backlog: seq<ExecId>)

  const NEW_REPORT := ResultRequest(Failed, -1, NO_TEXT, "", 0)

  datatype AStep =
    | Crash
    | Boot(order: seq<ExecId>)
    | ProcessExits(id: ExecId)
    | TakeBacklog
    | Resume(id: ExecId)
    | BeginPoll
    | BeginCheck(id: ExecId)
    | Send
    | Lose
    | GiveUp
    | Refused
    | Receive(response: Response)
    | Accept(saved: bool)
    | SavePermit(saved: bool)
    | SaveDenial(saved: bool, report: ResultRequest)
    | PrepareFails(report: ResultRequest)
    | SaveIntent(saved: bool, report: ResultRequest)
    | Launch(started: bool, token: string)
    | SaveRollback(saved: bool, report: ResultRequest)
    | SaveProcess(saved: bool, pid: int, tokenRead: bool, report: ResultRequest)
    | Reap(report: ResultRequest)
    | SaveOutcome(saved: bool)
    | SaveReported(saved: bool)
    | Remove(removed: bool)
    | SaveEscalation(saved: bool)
    | Judge(probe: Probe, expired: bool, report: ResultRequest)

  function Wait(g: Agent, pc: Pc): Agent {
    g.(pc := pc, call := None, answers := {})
  }

  function Save(g: Agent, id: ExecId, e: Entry, saved: bool): Agent {
    if saved then g.(journal := g.journal[id := e]) else g
  }

  /** The request the main goroutine issues where it stands, if any. */
  function Outgoing(g: Agent): Option<Request> {
    match g.pc
    case Polling => Some(Poll(g.journal.Keys))
    case Asking(id) => Some(Permit(id))
    case Uploading(id, report) => Some(Result(id, report))
    case Alerting(id) => Some(Attention(id))
    case Checking(id) => Some(Heartbeat(id))
    case _ => None
  }

  /** The switch shared by recover and resumePending. */
  function Dispatch(g: Agent, id: ExecId, recovering: bool): Agent {
    if id !in g.journal then g
    else
      var e := g.journal[id];
      match e.phase
      case Accepted => g.(pc := Asking(id))
      case Permitted => g.(pc := Preparing(id))
      case Finished => g.(pc := Uploading(id, e.report))
      case Reported => g.(pc := Dropping(id))
      case Started => if recovering then g.(pc := Recovering(id)) else g
      case Blocked => if recovering then g.(blocked := g.blocked + {id}) else g
  }

  /** runAssignment: everything but a journaled permit asks for one. */
  function RunAssignment(g: Agent, id: ExecId): Agent
    requires id in g.journal
  {
    if g.journal[id].phase.Permitted? then g.(pc := Preparing(id)) else g.(pc := Asking(id))
  }

  /** A response as its caller handles it. */
  function Handle(g: Agent, r: Response): Agent {
    match g.pc
    case Polling =>
      if r.PollAnswer? && r.assignment.Some? then Wait(g, Offered(r.assignment.value)) else Wait(g, Top)
    case Asking(id) =>
      if !r.PermitAnswer? then g else Wait(g, if r.granted then Granted(id) else Denied(id))
    case Uploading(id, report) =>
      if r == ResultAnswer(true) then Wait(g, Acknowledged(id)) else Wait(g, g.pc)
    case Alerting(id) => Wait(g, Top).(blocked := g.blocked + {id})
    case Checking(id) =>
      if r.HeartbeatAnswer? && (!r.known || r.terminal)
      then Wait(g, Top).(blocked := g.blocked - {id}, journal := g.journal - {id})
      else Wait(g, Top)
    case _ => g
  }

  /** A refusal retrying cannot fix (isPermanentAgentError). */
  function HandleRefusal(g: Agent): Agent {
    match g.pc
    case Uploading(id, report) => Wait(g, Escalating(id))
    case Alerting(id) => Wait(g, Top).(blocked := g.blocked + {id})
    case _ => Wait(g, Top)
  }

  /** One step of the agent; a step that is not possible changes nothing. */
  ghost function Do(g: Agent, s: AStep): Agent {
    match s
    case Crash => DoCrash(g)
    case Boot(order) => DoBoot(g, order)
    case ProcessExits(id) => g.(live := g.live - {id})
    case TakeBacklog => DoTakeBacklog(g)
    case Resume(id) => if Unoccupied(g) && g.blocked == {} then Dispatch(g, id, false) else g
    case BeginPoll => if Unoccupied(g) && g.blocked == {} then g.(pc := Polling) else g
    case BeginCheck(id) => if Unoccupied(g) && id in g.blocked then g.(pc := Checking(id)) else g
    case Send => DoSend(g)
    case Lose => DoLose(g)
    case GiveUp => if g.pc.Asking? && g.call.None? then Wait(g, Top) else g
    case Refused => if g.call.Some? || g.pc.Uploading? then HandleRefusal(g) else g
    case Receive(r) => if g.call.Some? && r in g.answers then Handle(g, r) else g
    case Accept(saved) => DoAccept(g, saved)
    case SavePermit(saved) => DoSavePermit(g, saved)
    case SaveDenial(saved, report) => DoSaveDenial(g, saved, report)
    case PrepareFails(report) => DoPrepareFails(g, report)
    case SaveIntent(saved, report) => DoSaveIntent(g, saved, report)
    case Launch(started, token) => DoLaunch(g, started, token)
    case SaveRollback(saved, report) => DoSaveRollback(g, saved, report)
    case SaveProcess(saved, pid, tokenRead, report) => DoSaveProcess(g, saved, pid, tokenRead, report)
    case Reap(report) => DoReap(g, report)
    case SaveOutcome(saved) => DoSaveOutcome(g, saved)
    case SaveReported(saved) => DoSaveReported(g, saved)
    case Remove(removed) => DoRemove(g, removed)
    case SaveEscalation(saved) => DoSaveEscalation(g, saved)
    case Judge(probe, expired, report) => DoJudge(g, probe, expired, report)
  }

  /** The process dies; journal, local logs and running scripts stay. */
  function DoCrash(g: Agent): Agent {
    Wait(g, Down).(blocked := {}, backlog := [])
  }

  /** A new process lists the journal and starts recovering it. */
  ghost function DoBoot(g: Agent, order: seq<ExecId>): Agent {
    if g.pc.Down? && (set id | id in order) == g.journal.Keys then g.(pc := Top, backlog := order) else g
  }

  function DoTakeBacklog(g: Agent): Agent {
    if g.pc.Top? && |g.backlog| > 0 then Dispatch(g.(backlog := g.backlog[1..]), g.backlog[0], true) else g
  }

  predicate Unoccupied(g: Agent) {
    g.pc.Top? && |g.backlog| == 0
  }

  function DoSend(g: Agent): Agent {
    if g.call.None? && Outgoing(g).Some?
    then g.(call := Outgoing(g), answers := {}, sent := g.sent + {Outgoing(g).value}) else g
  }

  /** The request or its response is lost, or the call times out. */
  function DoLose(g: Agent): Agent {
    if g.call.None? then g
    else if g.pc.Polling? || g.pc.Checking? then Wait(g, Top)
    else if g.pc.Alerting? then Wait(g, Top).(blocked := g.blocked + {g.pc.id})
    else Wait(g, g.pc)
  }

  function DoSavePermit(g: Agent, saved: bool): Agent {
    if g.pc.Granted? && g.pc.id in g.journal then
      Save(g, g.pc.id, g.journal[g.pc.id].(phase := Permitted), saved).(pc := if saved then Preparing(g.pc.id) else Top)
    else g
  }

  function DoSaveDenial(g: Agent, saved: bool, report: ResultRequest): Agent {
    if g.pc.Denied? && g.pc.id in g.journal && report.status.Canceled? then
      Save(g, g.pc.id, g.journal[g.pc.id].(phase := Finished, report := report), saved)
        .(pc := if saved then Uploading(g.pc.id, report) else Top)
    else g
  }

  /** runExecution gives up before it journals the intent to start. */
  function DoPrepareFails(g: Agent, report: ResultRequest): Agent {
    if g.pc.Preparing? && report.status.Failed? then g.(pc := Concluding(g.pc.id, report)) else g
  }

  function DoSaveIntent(g: Agent, saved: bool, report: ResultRequest): Agent {
    if g.pc.Preparing? && g.pc.id in g.journal && report.status.Failed? then
      Save(g, g.pc.id, g.journal[g.pc.id].(phase := Started), saved)
        .(pc := if saved then Intending(g.pc.id) else Concluding(g.pc.id, report))
    else g
  }

  /** cmd.Start */
  function DoLaunch(g: Agent, started: bool, token: string): Agent {
    if !g.pc.Intending? then g
    else if started then g.(live := g.live + {g.pc.id}, leaders := g.leaders[g.pc.id := token], pc := Launched(g.pc.id))
    else g.(pc := Unlaunched(g.pc.id))
  }

  function DoSaveRollback(g: Agent, saved: bool, report: ResultRequest): Agent {
    if g.pc.Unlaunched? && g.pc.id in g.journal && report.status.Failed? then
      Save(g, g.pc.id, g.journal[g.pc.id].(phase := Permitted), saved).(pc := Concluding(g.pc.id, report))
    else g
  }

  /** The leader was waited for; superviseExecution chose an outcome. */
  function DoReap(g: Agent, report: ResultRequest): Agent {
    if g.pc.Supervising? && g.pc.id !in g.live && (report.status.Success? || report.status.Failed? || report.status.Canceled?)
    then g.(pc := Concluding(g.pc.id, report)) else g
  }

  function DoSaveOutcome(g: Agent, saved: bool): Agent {
    if g.pc.Concluding? && g.pc.id in g.journal then
      Save(g, g.pc.id, g.journal[g.pc.id].(phase := Finished, report := g.pc.report), saved)
        .(pc := if saved then Uploading(g.pc.id, g.pc.report) else Top)
    else g
  }

  function DoSaveReported(g: Agent, saved: bool): Agent {
    if g.pc.Acknowledged? && g.pc.id in g.journal then
      Save(g, g.pc.id, g.journal[g.pc.id].(phase := Reported), saved).(pc := if saved then Dropping(g.pc.id) else Top)
    else g
  }

  function DoRemove(g: Agent, removed: bool): Agent {
    if g.pc.Dropping? then g.(journal := if removed then g.journal - {g.pc.id} else g.journal, pc := Top) else g
  }

  function DoSaveEscalation(g: Agent, saved: bool): Agent {
    if g.pc.Escalating? && g.pc.id in g.journal then
      Save(g, g.pc.id, g.journal[g.pc.id].(phase := Blocked), saved).(pc := Alerting(g.pc.id))
    else g
  }

  /** handleAssignment: journal the assignment unless the journal knows it, then
    * run it unless it already ran. */
  function DoAccept(g: Agent, saved: bool): Agent {
    if !g.pc.Offered? then g
    else
      var id := g.pc.id;
      if id !in g.journal then
        if saved then RunAssignment(Save(g, id, Entry(Accepted, NEW_REPORT, NO_PROCESS), true), id)
        else g.(pc := Top)
      else if g.journal[id].phase.Started? || g.journal[id].phase.Finished? || g.journal[id].phase.Reported? then g.(pc := Top)
      else RunAssignment(g, id)
  }

  /** The identity of the launched process is journaled; if that fails the group
    * is killed and the run reported as failed. */
  ghost function DoSaveProcess(g: Agent, saved: bool, pid: int, tokenRead: bool, report: ResultRequest): Agent {
    if g.pc.Launched? && g.pc.id in g.journal && g.pc.id in g.leaders && pid > 0 && report.status.Failed? then
      var id := g.pc.id;
      var record := ProcessRecord(pid, pid, if tokenRead then g.leaders[id] else "");
      if saved then Save(g, id, g.journal[id].(record := record), true).(pc := Supervising(id))
      else g.(live := g.live - {id}, pc := Concluding(id, report))
    else g
  }

  /** recoverStarted on one truthful look at the process table. */
  ghost function DoJudge(g: Agent, probe: Probe, expired: bool, report: ResultRequest): Agent {
    if !g.pc.Recovering? || g.pc.id !in g.journal then g
    else
      var id := g.pc.id;
      var token := if id in g.leaders then g.leaders[id] else "";
      if !Truthful(probe, id in g.live, token) || !report.status.Aborted? then g
      else
        var v := VerifyOrphan(g.journal[id].phase.Started?, g.journal[id].record, probe);
        if v.ended then g.(pc := Concluding(id, report))
        else if v.owned && !expired then g.(live := g.live - {id})
        else g.(pc := Escalating(id))
  }
}

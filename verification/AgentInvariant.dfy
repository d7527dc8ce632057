/** What one agent's own state guarantees, given what the controller has decided
  * for good; and that every agent step keeps it. */
module AgentInvariant {
  import opened Model
  import opened Transitions
  import opened Orphan
  import opened AgentMachine

  /** Decisions of the controller that are never taken back: executions that are
    * terminal or gone, and who was granted the start permit of which. */
  datatype Know = Know(closed: set<ExecId>, granted: map<ExecId, AgentId>)

  ghost predicate Grows(k: Know, l: Know) {
    && k.closed <= l.closed
    && (forall e :: e in k.granted ==> e in l.granted && l.granted[e] == k.granted[e])
  }

  ghost predicate GrantedTo(k: Know, a: AgentId, e: ExecId) {
    e in k.granted && k.granted[e] == a
  }

  /** e is closed, or it is a's for good. */
  ghost predicate Decided(k: Know, a: AgentId, e: ExecId) {
    e in k.closed || GrantedTo(k, a, e)
  }

  ghost predicate ResultSent(g: Agent, e: ExecId) {
    exists r :: Result(e, r) in g.sent
  }

  ghost predicate Launchable(g: Agent, e: ExecId) {
    e !in g.leaders && !ResultSent(g, e)
  }

  ghost predicate ReportOk(g: Agent, e: ExecId, r: ResultRequest) {
    e !in g.live && Terminal(r.status) && (r.status.Success? ==> e in g.leaders)
  }

  ghost predicate RecordOk(g: Agent, e: ExecId, record: ProcessRecord) {
    record == NO_PROCESS || (e in g.leaders && Recorded(record, g.leaders[e]))
  }

  /** What a journal phase proves. */
  ghost predicate PhaseOk(a: AgentId, g: Agent, k: Know, e: ExecId, entry: Entry) {
    match entry.phase
    case Accepted => Launchable(g, e) && entry.record == NO_PROCESS
    case Permitted => Launchable(g, e) && GrantedTo(k, a, e) && entry.record == NO_PROCESS
    case Started => !ResultSent(g, e) && GrantedTo(k, a, e) && RecordOk(g, e, entry.record)
    case Finished => Decided(k, a, e) && ReportOk(g, e, entry.report)
    case Reported => e in k.closed
    case Blocked => Decided(k, a, e)
  }

  ghost predicate JournalOk(a: AgentId, g: Agent, k: Know) {
    forall e :: e in g.journal ==> PhaseOk(a, g, k, e, g.journal[e])
  }

  /** A launched execution was granted to this agent. */
  ghost predicate LeadersOk(a: AgentId, g: Agent, k: Know) {
    && g.live <= g.leaders.Keys
    && (forall e :: e in g.leaders ==> GrantedTo(k, a, e))
  }

  /** A result is only sent for a run that is over, and never launched after. */
  ghost predicate SentOk(a: AgentId, g: Agent, k: Know) {
    forall e, r :: Result(e, r) in g.sent ==>
      && Decided(k, a, e) && ReportOk(g, e, r)
      && (e in g.journal ==> g.journal[e].phase.Finished? || g.journal[e].phase.Reported? || g.journal[e].phase.Blocked?)
  }

  ghost predicate AtPhase(g: Agent, e: ExecId, p: Phase) {
    e in g.journal && g.journal[e].phase == p
  }

  ghost predicate FreshOffer(g: Agent, e: ExecId) {
    Launchable(g, e) && (e in g.journal ==> g.journal[e].phase.Accepted?)
  }

  ghost predicate PcOk(a: AgentId, g: Agent, k: Know) {
    match g.pc
    case Down => g.call.None?
    case Top => g.call.None?
    case Polling => true
    case Offered(e) => g.call.None? && FreshOffer(g, e)
    case Asking(e) => AtPhase(g, e, Accepted)
    case Granted(e) => g.call.None? && AtPhase(g, e, Accepted) && GrantedTo(k, a, e)
    case Denied(e) => g.call.None? && AtPhase(g, e, Accepted) && Decided(k, a, e)
    case Preparing(e) => g.call.None? && AtPhase(g, e, Permitted)
    case Intending(e) => g.call.None? && AtPhase(g, e, Started) && e !in g.leaders && g.journal[e].record == NO_PROCESS
    case Unlaunched(e) => g.call.None? && AtPhase(g, e, Started) && e !in g.leaders && g.journal[e].record == NO_PROCESS
    case Launched(e) => g.call.None? && AtPhase(g, e, Started) && e in g.leaders
    case Supervising(e) => g.call.None? && AtPhase(g, e, Started) && e in g.leaders
    case Concluding(e, r) => g.call.None? && (AtPhase(g, e, Permitted) || AtPhase(g, e, Started)) && ReportOk(g, e, r)
    case Uploading(e, r) => AtPhase(g, e, Finished) && g.journal[e].report == r
    case Acknowledged(e) => g.call.None? && AtPhase(g, e, Finished) && e in k.closed
    case Dropping(e) => g.call.None? && AtPhase(g, e, Reported)
    case Escalating(e) => g.call.None? && (AtPhase(g, e, Finished) || AtPhase(g, e, Started))
    case Alerting(e) => Decided(k, a, e)
    case Recovering(e) => g.call.None? && AtPhase(g, e, Started)
    case Checking(e) => Decided(k, a, e)
  }

  /** What an answer still in flight tells its waiting caller. */
  ghost predicate CallOk(a: AgentId, g: Agent, k: Know) {
    && (g.call.None? ==> g.answers == {})
    && (g.call.Some? ==> Outgoing(g).Some? && g.call.value in g.sent)
    && (g.call.Some? && !g.pc.Polling? ==> g.call == Outgoing(g))
    && (g.call.Some? && g.pc.Polling? ==> g.call.value.Poll?)
    && (g.pc.Polling? ==> forall e :: PollAnswer(Some(e)) in g.answers ==> FreshOffer(g, e))
    && (g.pc.Asking? && PermitAnswer(true) in g.answers ==> GrantedTo(k, a, g.pc.id))
    && (g.pc.Asking? && PermitAnswer(false) in g.answers ==> Decided(k, a, g.pc.id))
    && (g.pc.Uploading? && ResultAnswer(true) in g.answers ==> g.pc.id in k.closed)
    && (g.pc.Checking? ==> forall known, terminal :: HeartbeatAnswer(known, terminal) in g.answers && (!known || terminal) ==> g.pc.id in k.closed)
  }

  ghost predicate BlockedOk(a: AgentId, g: Agent, k: Know) {
    forall e :: e in g.blocked ==> Decided(k, a, e)
  }

  ghost predicate AgentInv(a: AgentId, g: Agent, k: Know) {
    JournalOk(a, g, k) && LeadersOk(a, g, k) && SentOk(a, g, k) && PcOk(a, g, k) && CallOk(a, g, k) && BlockedOk(a, g, k)
  }

  /** Everything the invariant knows about the controller is permanent. */
  lemma KnowledgeGrows(a: AgentId, g: Agent, k: Know, l: Know)
    requires AgentInv(a, g, k) && Grows(k, l)
    ensures AgentInv(a, g, l)
  {
  }

  /** What the controller may answer a waiting call of agent a. */
  ghost predicate Honest(a: AgentId, g: Agent, k: Know, request: Request, response: Response) {
    match request
    case Poll(_) => response.PollAnswer? && (response.assignment.Some? ==> FreshOffer(g, response.assignment.value))
    case Permit(id) => response.PermitAnswer? && (if response.granted then GrantedTo(k, a, id) else Decided(k, a, id))
    case Result(id, _) => response.ResultAnswer? && (response.accepted ==> id in k.closed)
    case Attention(_) => response.AttentionAnswer?
    case Heartbeat(id) => response.HeartbeatAnswer? && (Decided(k, a, id) && (!response.known || response.terminal) ==> id in k.closed)
  }

  lemma AnswerOk(a: AgentId, g: Agent, k: Know, request: Request, response: Response)
    requires AgentInv(a, g, k) && g.call == Some(request) && Honest(a, g, k, request, response)
    ensures AgentInv(a, g.(answers := g.answers + {response}), k)
  {
  }

  // ---- building blocks ------------------------------------------------------------

  /** Moving on without touching anything durable. */
  lemma Moves(a: AgentId, g: Agent, k: Know, pc: Pc)
    requires AgentInv(a, g, k) && PcOk(a, Wait(g, pc), k)
    ensures AgentInv(a, Wait(g, pc), k)
  {
  }

  lemma Goes(a: AgentId, g: Agent, k: Know, pc: Pc)
    requires AgentInv(a, g, k) && g.call.None? && PcOk(a, g.(pc := pc), k)
    ensures AgentInv(a, g.(pc := pc), k)
  {
  }

  lemma Blocks(a: AgentId, g: Agent, k: Know, ids: set<ExecId>)
    requires AgentInv(a, g, k) && forall e :: e in ids ==> e in g.blocked || Decided(k, a, e)
    ensures AgentInv(a, g.(blocked := ids), k)
  {
  }

  /** Journaling a new phase and moving on. */
  lemma Saves(a: AgentId, g: Agent, k: Know, id: ExecId, entry: Entry, pc: Pc)
    requires AgentInv(a, g, k) && g.call.None?
    requires PhaseOk(a, g, k, id, entry)
    requires ResultSent(g, id) ==> entry.phase.Finished? || entry.phase.Reported? || entry.phase.Blocked?
    requires PcOk(a, g.(journal := g.journal[id := entry], pc := pc), k)
    ensures AgentInv(a, g.(journal := g.journal[id := entry], pc := pc), k)
  {
  }

  /** A removed entry's execution is closed at the controller. */
  lemma Drops(a: AgentId, g: Agent, k: Know, id: ExecId)
    requires AgentInv(a, g, k) && g.pc.Top?
    ensures AgentInv(a, g.(journal := g.journal - {id}), k)
  {
  }

  lemma Dies(a: AgentId, g: Agent, k: Know, id: ExecId)
    requires AgentInv(a, g, k)
    ensures AgentInv(a, g.(live := g.live - {id}), k)
  {
  }

  // ---- the steps -------------------------------------------------------------------

  lemma DispatchOk(a: AgentId, g: Agent, k: Know, id: ExecId, recovering: bool)
    requires AgentInv(a, g, k) && g.pc.Top?
    ensures AgentInv(a, Dispatch(g, id, recovering), k)
  {
    if id in g.journal {
      var e := g.journal[id];
      assert PhaseOk(a, g, k, id, e);
      match e.phase
      case Accepted => Goes(a, g, k, Asking(id));
      case Permitted => Goes(a, g, k, Preparing(id));
      case Finished => Goes(a, g, k, Uploading(id, e.report));
      case Reported => Goes(a, g, k, Dropping(id));
      case Started => if recovering { Goes(a, g, k, Recovering(id)); }
      case Blocked => if recovering { Blocks(a, g, k, g.blocked + {id}); }
    }
  }

  lemma TakeBacklogOk(a: AgentId, g: Agent, k: Know, backlog: seq<ExecId>)
    requires AgentInv(a, g, k)
    ensures AgentInv(a, g.(backlog := backlog), k)
  {
  }

  /** Issuing a request; only a result needs something to be true already. */
  lemma SendOk(a: AgentId, g: Agent, k: Know)
    requires AgentInv(a, g, k)
    ensures AgentInv(a, DoSend(g), k)
  {
  }

  lemma LoseOk(a: AgentId, g: Agent, k: Know)
    requires AgentInv(a, g, k)
    ensures AgentInv(a, DoLose(g), k)
  {
    if g.call.Some? {
      if g.pc.Polling? || g.pc.Checking? {
        Moves(a, g, k, Top);
      } else if g.pc.Alerting? {
        Moves(a, g, k, Top);
        Blocks(a, Wait(g, Top), k, g.blocked + {g.pc.id});
      } else {
        Moves(a, g, k, g.pc);
      }
    }
  }

  lemma RefusedOk(a: AgentId, g: Agent, k: Know)
    requires AgentInv(a, g, k)
    ensures AgentInv(a, HandleRefusal(g), k)
  {
    if g.pc.Uploading? {
      Moves(a, g, k, Escalating(g.pc.id));
    } else {
      Moves(a, g, k, Top);
      if g.pc.Alerting? { Blocks(a, Wait(g, Top), k, g.blocked + {g.pc.id}); }
    }
  }

  lemma ReceiveOk(a: AgentId, g: Agent, k: Know, r: Response)
    requires AgentInv(a, g, k) && g.call.Some? && r in g.answers
    ensures AgentInv(a, Handle(g, r), k)
  {
    match g.pc
    case Polling =>
      Moves(a, g, k, if r.PollAnswer? && r.assignment.Some? then Offered(r.assignment.value) else Top);
    case Asking(id) =>
      if r.PermitAnswer? { Moves(a, g, k, if r.granted then Granted(id) else Denied(id)); }
    case Uploading(id, report) =>
      Moves(a, g, k, if r == ResultAnswer(true) then Acknowledged(id) else g.pc);
    case Alerting(id) =>
      Moves(a, g, k, Top);
      Blocks(a, Wait(g, Top), k, g.blocked + {id});
    case Checking(id) =>
      Moves(a, g, k, Top);
      if r.HeartbeatAnswer? && (!r.known || r.terminal) {
        Blocks(a, Wait(g, Top), k, g.blocked - {id});
        Drops(a, Wait(g, Top).(blocked := g.blocked - {id}), k, id);
      }
    case _ =>
  }

  lemma AcceptOk(a: AgentId, g: Agent, k: Know, saved: bool)
    requires AgentInv(a, g, k)
    ensures AgentInv(a, DoAccept(g, saved), k)
  {
    if g.pc.Offered? {
      var id := g.pc.id;
      if id !in g.journal {
        if saved {
          Saves(a, g, k, id, Entry(Accepted, NEW_REPORT, NO_PROCESS), Asking(id));
        } else {
          Goes(a, g, k, Top);
        }
      } else {
        Goes(a, g, k, Asking(id));
      }
    }
  }

  /** The launch itself: the intent is journaled, the permit is this agent's and
    * the execution was never launched before. */
  lemma LaunchOk(a: AgentId, g: Agent, k: Know, token: string)
    requires AgentInv(a, g, k) && g.pc.Intending?
    ensures AgentInv(a, DoLaunch(g, true, token), k)
  {
  }

  lemma SaveProcessOk(a: AgentId, g: Agent, k: Know, saved: bool, pid: int, tokenRead: bool, report: ResultRequest)
    requires AgentInv(a, g, k)
    ensures AgentInv(a, DoSaveProcess(g, saved, pid, tokenRead, report), k)
  {
  }

  lemma JudgeOk(a: AgentId, g: Agent, k: Know, probe: Probe, expired: bool, report: ResultRequest)
    requires AgentInv(a, g, k)
    ensures AgentInv(a, DoJudge(g, probe, expired, report), k)
  {
    if g.pc.Recovering? && g.pc.id in g.journal {
      var id := g.pc.id;
      assert PhaseOk(a, g, k, id, g.journal[id]);
      var token := if id in g.leaders then g.leaders[id] else "";
      if Truthful(probe, id in g.live, token) && report.status.Aborted? {
        var v := VerifyOrphan(true, g.journal[id].record, probe);
        VerdictIsSound(g.journal[id].record, probe, id in g.live, token);
        if v.ended {
          Goes(a, g, k, Concluding(id, report));
        } else if v.owned && !expired {
          Dies(a, g, k, id);
        } else {
          Goes(a, g, k, Escalating(id));
        }
      }
    }
  }

  /** Recovery reports ABORTED only for a leader that is gone, kills only one
    * whose recorded token is its own, and escalates everything else. */
  lemma RecoveryIsSound(a: AgentId, g: Agent, k: Know, probe: Probe, expired: bool, report: ResultRequest)
    requires AgentInv(a, g, k) && g.pc.Recovering?
    ensures var h, id := DoJudge(g, probe, expired, report), g.pc.id;
      && (h.pc == g.pc || h.pc == Concluding(id, report) || h.pc == Escalating(id))
      && (h.pc == Concluding(id, report) ==> report.status.Aborted? && id !in g.live)
      && (h.live == g.live || (&& h.live == g.live - {id} && id in g.live && id in g.journal && id in g.leaders
                               && g.journal[id].record.token == g.leaders[id] && g.leaders[id] != ""))
  {
    var id := g.pc.id;
    assert PhaseOk(a, g, k, id, g.journal[id]);
    var token := if id in g.leaders then g.leaders[id] else "";
    if Truthful(probe, id in g.live, token) {
      VerdictIsSound(g.journal[id].record, probe, id in g.live, token);
    }
    hide VerifyOrphan;
  }

  lemma SavePermitOk(a: AgentId, g: Agent, k: Know, saved: bool)
    requires AgentInv(a, g, k)
    ensures AgentInv(a, DoSavePermit(g, saved), k)
  {
  }

  lemma SaveDenialOk(a: AgentId, g: Agent, k: Know, saved: bool, report: ResultRequest)
    requires AgentInv(a, g, k)
    ensures AgentInv(a, DoSaveDenial(g, saved, report), k)
  {
  }

  lemma SaveIntentOk(a: AgentId, g: Agent, k: Know, saved: bool, report: ResultRequest)
    requires AgentInv(a, g, k)
    ensures AgentInv(a, DoSaveIntent(g, saved, report), k)
  {
  }

  lemma SaveRollbackOk(a: AgentId, g: Agent, k: Know, saved: bool, report: ResultRequest)
    requires AgentInv(a, g, k)
    ensures AgentInv(a, DoSaveRollback(g, saved, report), k)
  {
  }

  lemma SaveOutcomeOk(a: AgentId, g: Agent, k: Know, saved: bool)
    requires AgentInv(a, g, k)
    ensures AgentInv(a, DoSaveOutcome(g, saved), k)
  {
  }

  lemma SaveReportedOk(a: AgentId, g: Agent, k: Know, saved: bool)
    requires AgentInv(a, g, k)
    ensures AgentInv(a, DoSaveReported(g, saved), k)
  {
  }

  lemma SaveEscalationOk(a: AgentId, g: Agent, k: Know, saved: bool)
    requires AgentInv(a, g, k)
    ensures AgentInv(a, DoSaveEscalation(g, saved), k)
  {
  }

  lemma CrashOk(a: AgentId, g: Agent, k: Know)
    requires AgentInv(a, g, k)
    ensures AgentInv(a, DoCrash(g), k)
  {
  }

  lemma BootOk(a: AgentId, g: Agent, k: Know, order: seq<ExecId>)
    requires AgentInv(a, g, k)
    ensures AgentInv(a, DoBoot(g, order), k)
  {
  }

  lemma PrepareFailsOk(a: AgentId, g: Agent, k: Know, report: ResultRequest)
    requires AgentInv(a, g, k)
    ensures AgentInv(a, DoPrepareFails(g, report), k)
  {
  }

  lemma ReapOk(a: AgentId, g: Agent, k: Know, report: ResultRequest)
    requires AgentInv(a, g, k)
    ensures AgentInv(a, DoReap(g, report), k)
  {
  }

  lemma RemoveOk(a: AgentId, g: Agent, k: Know, removed: bool)
    requires AgentInv(a, g, k)
    ensures AgentInv(a, DoRemove(g, removed), k)
  {
  }

  lemma EarlySaveOk(a: AgentId, g: Agent, k: Know, s: AStep)
    requires AgentInv(a, g, k)
    requires s.SavePermit? || s.SaveDenial? || s.SaveIntent? || s.SaveRollback?
    ensures AgentInv(a, Do(g, s), k)
  {
    match s
    case SavePermit(saved) => SavePermitOk(a, g, k, saved);
    case SaveDenial(saved, report) => SaveDenialOk(a, g, k, saved, report);
    case SaveIntent(saved, report) => SaveIntentOk(a, g, k, saved, report);
    case SaveRollback(saved, report) => SaveRollbackOk(a, g, k, saved, report);
  }

  lemma LateSaveOk(a: AgentId, g: Agent, k: Know, s: AStep)
    requires AgentInv(a, g, k)
    requires s.SaveOutcome? || s.SaveReported? || s.SaveEscalation?
    ensures AgentInv(a, Do(g, s), k)
  {
    match s
    case SaveOutcome(saved) => SaveOutcomeOk(a, g, k, saved);
    case SaveReported(saved) => SaveReportedOk(a, g, k, saved);
    case SaveEscalation(saved) => SaveEscalationOk(a, g, k, saved);
  }

  lemma CallStepOk(a: AgentId, g: Agent, k: Know, s: AStep)
    requires AgentInv(a, g, k)
    requires s.BeginPoll? || s.BeginCheck? || s.Send? || s.Lose? || s.GiveUp? || s.Refused? || s.Receive?
    ensures AgentInv(a, Do(g, s), k)
  {
    match s
    case BeginPoll => if g.pc.Top? { Goes(a, g, k, Polling); }
    case BeginCheck(id) => if g.pc.Top? && id in g.blocked { Goes(a, g, k, Checking(id)); }
    case Send => SendOk(a, g, k);
    case Lose => LoseOk(a, g, k);
    case GiveUp => if g.pc.Asking? { Moves(a, g, k, Top); }
    case Refused => if g.call.Some? || g.pc.Uploading? { RefusedOk(a, g, k); }
    case Receive(r) => if g.call.Some? && r in g.answers { ReceiveOk(a, g, k, r); }
  }

  lemma StartStepOk(a: AgentId, g: Agent, k: Know, s: AStep)
    requires AgentInv(a, g, k)
    requires s.Accept? || s.PrepareFails? || s.Launch?
    ensures AgentInv(a, Do(g, s), k)
  {
    match s
    case Accept(saved) => AcceptOk(a, g, k, saved);
    case PrepareFails(report) => PrepareFailsOk(a, g, k, report);
    case Launch(started, token) =>
      if g.pc.Intending? {
        if started { LaunchOk(a, g, k, token); } else { Goes(a, g, k, Unlaunched(g.pc.id)); }
      }
  }

  lemma EndStepOk(a: AgentId, g: Agent, k: Know, s: AStep)
    requires AgentInv(a, g, k)
    requires s.SaveProcess? || s.Reap? || s.Remove? || s.Judge?
    ensures AgentInv(a, Do(g, s), k)
  {
    match s
    case SaveProcess(saved, pid, tokenRead, report) => SaveProcessOk(a, g, k, saved, pid, tokenRead, report);
    case Reap(report) => ReapOk(a, g, k, report);
    case Remove(removed) => RemoveOk(a, g, k, removed);
    case Judge(probe, expired, report) => JudgeOk(a, g, k, probe, expired, report);
  }

  lemma LifeStepOk(a: AgentId, g: Agent, k: Know, s: AStep)
    requires AgentInv(a, g, k)
    requires s.Crash? || s.Boot? || s.ProcessExits? || s.TakeBacklog? || s.Resume?
    ensures AgentInv(a, Do(g, s), k)
  {
    match s
    case Crash => CrashOk(a, g, k);
    case Boot(order) => BootOk(a, g, k, order);
    case ProcessExits(id) => Dies(a, g, k, id);
    case TakeBacklog =>
      if g.pc.Top? && |g.backlog| > 0 {
        TakeBacklogOk(a, g, k, g.backlog[1..]);
        DispatchOk(a, g.(backlog := g.backlog[1..]), k, g.backlog[0], true);
      }
    case Resume(id) => if g.pc.Top? { DispatchOk(a, g, k, id, false); }
  }

  /** Every step of an agent keeps its invariant, wherever it crashes and
    * whatever fails to be saved. */
  lemma InvStep(a: AgentId, g: Agent, k: Know, s: AStep)
    requires AgentInv(a, g, k)
    ensures AgentInv(a, Do(g, s), k)
  {
    if s.Crash? || s.Boot? || s.ProcessExits? || s.TakeBacklog? || s.Resume? {
      LifeStepOk(a, g, k, s);
    } else if s.BeginPoll? || s.BeginCheck? || s.Send? || s.Lose? || s.GiveUp? || s.Refused? || s.Receive? {
      CallStepOk(a, g, k, s);
    } else if s.Accept? || s.PrepareFails? || s.Launch? {
      StartStepOk(a, g, k, s);
    } else if s.SaveProcess? || s.Reap? || s.Remove? || s.Judge? {
      EndStepOk(a, g, k, s);
    } else if s.SaveOutcome? || s.SaveReported? || s.SaveEscalation? {
      LateSaveOk(a, g, k, s);
    } else {
      EarlySaveOk(a, g, k, s);
    }
  }

  /** Only removing a reported entry and clearing a block drop journal entries. */
  lemma DropsOnlyClosed(g: Agent, s: AStep, e: ExecId)
    requires e in g.journal && e !in Do(g, s).journal
    ensures (s.Remove? && g.pc == Dropping(e)) || (s.Receive? && g.pc == Checking(e) && Clears(g, s.response))
  {
  }

  ghost predicate Clears(g: Agent, r: Response) {
    g.call.Some? && r in g.answers && r.HeartbeatAnswer? && (!r.known || r.terminal)
  }

  /** A journal entry, and with it the local log and result, only disappears
    * once the controller's record of the execution is final. */
  lemma SpoolOutlivesExecution(a: AgentId, g: Agent, k: Know, s: AStep, e: ExecId)
    requires AgentInv(a, g, k) && e in g.journal && e !in Do(g, s).journal
    ensures e in k.closed
  {
    DropsOnlyClosed(g, s, e);
    if s.Remove? {
      assert PhaseOk(a, g, k, e, g.journal[e]);
    } else {
      assert s.response == HeartbeatAnswer(s.response.known, s.response.terminal);
    }
  }

  lemma OnlyLaunchStarts(g: Agent, s: AStep, e: ExecId)
    requires e !in g.live && e in Do(g, s).live
    ensures s.Launch? && g.pc == Intending(e)
  {
  }

  /** The only launching step, and what holds just before it. */
  lemma LaunchIsFirst(a: AgentId, g: Agent, k: Know, s: AStep, e: ExecId)
    requires AgentInv(a, g, k) && e !in g.live && e in Do(g, s).live
    ensures s.Launch? && g.pc == Intending(e) && GrantedTo(k, a, e) && Launchable(g, e)
    ensures AtPhase(g, e, Started)
  {
    OnlyLaunchStarts(g, s, e);
    assert PhaseOk(a, g, k, e, g.journal[e]);
  }

  lemma SentGrows(g: Agent, s: AStep)
    ensures g.sent <= Do(g, s).sent
  {
  }

  predicate Launches(g: Agent, s: AStep) {
    s.Launch? && s.started && g.pc.Intending?
  }

  lemma LeadersGrow(g: Agent, s: AStep)
    ensures Do(g, s).leaders.Keys == if Launches(g, s) then g.leaders.Keys + {g.pc.id} else g.leaders.Keys
  {
    hide Outgoing;
  }

  lemma LaunchShows(g: Agent, s: AStep)
    ensures g.pc.Intending? && Do(g, s).pc.Launched? ==> Launches(g, s)
    ensures Launches(g, s) ==> Do(g, s).pc == Launched(g.pc.id)
  {
  }

  /** History only grows, and a launch is recorded exactly when it happens. */
  lemma StepHistory(g: Agent, s: AStep)
    ensures g.sent <= Do(g, s).sent
    ensures g.leaders.Keys <= Do(g, s).leaders.Keys
    ensures Do(g, s).leaders.Keys == g.leaders.Keys || (s.Launch? && s.started && g.pc.Intending? && Do(g, s).pc == Launched(g.pc.id) && Do(g, s).leaders.Keys == g.leaders.Keys + {g.pc.id})
    ensures g.pc.Intending? && Do(g, s).pc.Launched? ==> s.Launch? && s.started && Do(g, s).leaders.Keys == g.leaders.Keys + {g.pc.id}
  {
    SentGrows(g, s);
    LeadersGrow(g, s);
    LaunchShows(g, s);
  }

  /** What the controller has not decided is untouched at the agent. */
  lemma UndecidedIsFresh(a: AgentId, g: Agent, k: Know, e: ExecId)
    requires AgentInv(a, g, k) && !Decided(k, a, e)
    ensures FreshOffer(g, e)
  {
  }
}

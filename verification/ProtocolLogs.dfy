/** The protocol together with the logs it carries: what the agents write, the
  * chunks they upload, the overlapping handlers that store them, and the
  * comparison of log and result in SubmitResult. */
module ProtocolLogs {
  import opened Model
  import opened Transitions
  import opened AgentMachine
  import opened AgentInvariant
  import opened Protocol
  import opened ProtocolInvariant
  import opened ProtocolHistory
  import opened ProtocolTheorems
  import Transport = LogTransport
  import Logs = LogHandlers
  import Scheduler

  type byte = Transport.byte

  /** A result and the size SubmitResult measured of its log. */
  datatype Measured = Measured(h: Handler, size: int)

  /** `local` is all an agent ever wrote to its log of an execution, `stores` the
    * controller's logs; `measured` and `confirmed` are the results whose log was
    * measured, and found complete or cut. */
  datatype System = System(w: World, local: map<Launching, seq<byte>>, stores: map<ExecId, Logs.Store>,
                           measured: set<Measured>, confirmed: set<Measured>)

  datatype SystemStep =
    | Protocol(s: Step)
    | Write(a: AgentId, e: ExecId, more: seq<byte>)                       // the agent or the script's output
    | Upload(a: AgentId, e: ExecId, h: nat, start: nat, data: seq<byte>)  // a chunk reaches AppendLog
    | Disk(e: ExecId, event: Logs.Event)                                  // a handler of e's log goes on
    | MarkTruncated(e: ExecId, h: nat)
    | MeasureLog(result: Handler)                                         // SubmitResult reads the size of the log,
    | CompareLog(m: Measured)                                             // then the flag, and compares

  function LocalOf(local: map<Launching, seq<byte>>, a: AgentId, e: ExecId): seq<byte> {
    if Launching(a, e) in local then local[Launching(a, e)] else []
  }

  function StoreOf(y: System, e: ExecId): Logs.Store {
    if e in y.stores then y.stores[e] else Logs.EMPTY_STORE
  }

  /** The local log a stored one is a copy of. */
  function SourceOf(y: System, e: ExecId): seq<byte> {
    if e in y.w.granted then LocalOf(y.local, y.w.granted[e], e) else []
  }

  /** runExecution has the local log open. */
  predicate Writing(pc: Pc, e: ExecId) {
    pc == Preparing(e) || pc == Intending(e) || pc == Unlaunched(e) || pc == Launched(e) || pc == Supervising(e)
  }

  function IdOf(pc: Pc): ExecId {
    if pc.Down? || pc.Top? || pc.Polling? then "" else pc.id
  }

  /** The result a step decides on. */
  function Decides(s: AStep): Option<ResultRequest> {
    match s
    case SaveDenial(_, r) => Some(r)
    case PrepareFails(r) => Some(r)
    case SaveIntent(_, r) => Some(r)
    case SaveRollback(_, r) => Some(r)
    case SaveProcess(_, _, _, r) => Some(r)
    case Reap(r) => Some(r)
    case Judge(_, _, r) => Some(r)
    case _ => None
  }

  /** A result carries the size of the local log, and is only applied once its
    * log was found complete or cut. */
  predicate Possible(y: System, s: Step) {
    match s
    case ByAgent(a, step) =>
      a in y.w.agents && Decides(step).Some? ==>
        Decides(step).value.logLength == |LocalOf(y.local, a, IdOf(y.w.agents[a].pc))|
    case ApplyResult(h, size, now) => Measured(h, size) in y.confirmed
    case _ => true
  }

  function Stored(y: System, cap: Transport.Cap, e: ExecId, event: Logs.Event): System {
    y.(stores := y.stores[e := Logs.Handle(StoreOf(y, e), cap, event)])
  }

  function Interrupted(stores: map<ExecId, Logs.Store>, cap: Transport.Cap): map<ExecId, Logs.Store> {
    map e | e in stores :: Logs.Handle(stores[e], cap, Logs.Restart)
  }

  ghost function DoProtocol(y: System, cap: Transport.Cap, s: Step): System {
    if !Possible(y, s) then y
    else if s.RestartController? then y.(w := Next(y.w, s), stores := Interrupted(y.stores, cap), measured := {}, confirmed := {})
    else y.(w := Next(y.w, s))
  }

  function DoWrite(y: System, a: AgentId, e: ExecId, more: seq<byte>): System {
    if a in y.w.agents && Writing(y.w.agents[a].pc, e)
    then y.(local := y.local[Launching(a, e) := LocalOf(y.local, a, e) + more]) else y
  }

  /** A chunk cut from the local log at any time before, late or again. Whether
    * the checks for the owner and for a closed log pass, and when, is left open:
    * nothing here depends on them. */
  ghost function DoUpload(y: System, cap: Transport.Cap, a: AgentId, e: ExecId, h: nat, start: nat, data: seq<byte>): System {
    if Transport.IsPiece(LocalOf(y.local, a, e), start, data)
    then Stored(y, cap, e, Logs.Arrive(h, start, data)) else y
  }

  function DoDisk(y: System, cap: Transport.Cap, e: ExecId, event: Logs.Event): System {
    if event.Arrive? || event.Mark? || event.Restart? then y else Stored(y, cap, e, event)
  }

  /** The flag is set in the record, which may prune finished runs. */
  ghost function DoMarkTruncated(y: System, cap: Transport.Cap, e: ExecId, h: nat): System {
    Stored(y.(w := Next(y.w, TruncateLog(e))), cap, e, Logs.Mark(h))
  }

  function DoMeasureLog(y: System, h: Handler): System {
    if h in y.w.handlers then y.(measured := y.measured + {Measured(h, |StoreOf(y, h.id).bytes|)}) else y
  }

  function DoCompareLog(y: System, m: Measured): System {
    if m in y.measured && (StoreOf(y, m.h.id).truncated || m.size == m.h.report.logLength)
    then y.(confirmed := y.confirmed + {m}) else y
  }

  ghost function After(y: System, cap: Transport.Cap, s: SystemStep): System {
    match s
    case Protocol(step) => DoProtocol(y, cap, step)
    case Write(a, e, more) => DoWrite(y, a, e, more)
    case Upload(a, e, h, start, data) => DoUpload(y, cap, a, e, h, start, data)
    case Disk(e, event) => DoDisk(y, cap, e, event)
    case MarkTruncated(e, h) => DoMarkTruncated(y, cap, e, h)
    case MeasureLog(h) => DoMeasureLog(y, h)
    case CompareLog(m) => DoCompareLog(y, m)
  }

  // ---- the invariant -----------------------------------------------------------------------

  /** Only the holder of the start permit ever writes. */
  ghost predicate LocalsOk(y: System) {
    forall a, e :: LocalOf(y.local, a, e) != [] ==> GrantedTo(KnowOf(y.w), a, e)
  }

  ghost predicate StoresOk(y: System, cap: Transport.Cap) {
    forall e :: Logs.StoreOk(StoreOf(y, e), SourceOf(y, e), cap)
  }

  /** Every result decided on names the size of the local log. */
  ghost predicate LengthsOk(g: Agent, local: map<Launching, seq<byte>>, a: AgentId) {
    && (g.pc.Concluding? || g.pc.Uploading? ==> g.pc.report.logLength == |LocalOf(local, a, g.pc.id)|)
    && (forall e :: e in g.journal && g.journal[e].phase.Finished? ==> g.journal[e].report.logLength == |LocalOf(local, a, e)|)
    && (forall e, r :: Result(e, r) in g.sent ==> r.logLength == |LocalOf(local, a, e)|)
  }

  ghost predicate AllLengthsOk(y: System) {
    forall a :: a in y.w.agents ==> LengthsOk(y.w.agents[a], y.local, a)
  }

  ghost predicate SettledAt(y: System, e: ExecId) {
    Logs.Settled(StoreOf(y, e), SourceOf(y, e))
  }

  /** A decided result; if it fits its log, the log is settled. */
  ghost predicate ResultOk(y: System, h: Handler, fits: bool) {
    && Sent(y.w, h.agent, Result(h.id, h.report)) && Decided(KnowOf(y.w), h.agent, h.id)
    && (GrantedTo(KnowOf(y.w), h.agent, h.id) && fits ==> SettledAt(y, h.id))
  }

  ghost predicate ResultsOk(y: System) {
    && (forall m :: m in y.measured ==> ResultOk(y, m.h, m.size == m.h.report.logLength))
    && (forall m :: m in y.confirmed ==> ResultOk(y, m.h, true))
  }

  /** Over by its agent's result. */
  ghost predicate Reported(w: World, e: ExecId) {
    e in w.granted && Closed(w.ctrl.execs, e) && e !in w.resolved
  }

  ghost predicate EndingsOk(y: System) {
    forall e :: Reported(y.w, e) ==> SettledAt(y, e)
  }

  ghost predicate SystemOk(y: System, cap: Transport.Cap) {
    Inv(y.w) && LocalsOk(y) && StoresOk(y, cap) && AllLengthsOk(y) && ResultsOk(y) && EndingsOk(y)
  }

  // ---- one agent's lengths -----------------------------------------------------------------

  /** An answer, a refusal and the switch of recover make up no result. */
  lemma AnswersDecideNothing(g: Agent, r: Response)
    ensures var h := Handle(g, r); h.pc == g.pc || (!h.pc.Concluding? && !h.pc.Uploading?)
    ensures var h := HandleRefusal(g); !h.pc.Concluding? && !h.pc.Uploading?
  {
  }

  lemma DispatchDecidesNothing(g: Agent, id: ExecId, recovering: bool)
    ensures var h := Dispatch(g, id, recovering);
      h.pc == g.pc || (!h.pc.Concluding? && (h.pc.Uploading? ==> AtPhase(g, id, Finished) && h.pc == Uploading(id, g.journal[id].report)))
  {
  }

  lemma PcLengths(g: Agent, local: map<Launching, seq<byte>>, a: AgentId, s: AStep)
    requires LengthsOk(g, local, a)
    requires Decides(s).Some? ==> Decides(s).value.logLength == |LocalOf(local, a, IdOf(g.pc))|
    ensures var h := Do(g, s);
      h.pc.Concluding? || h.pc.Uploading? ==> h.pc.report.logLength == |LocalOf(local, a, h.pc.id)|
  {
    if s.Receive? || s.Refused? || s.Resume? || s.TakeBacklog? || s.Accept? {
      TakenUp(g, s);
      hide Do;
    } else {
      hide Handle, HandleRefusal, Dispatch, RunAssignment, Outgoing, LocalOf;
    }
  }

  /** Answers, refusals, the backlog and a new assignment: a result in hand
    * stays, and another one comes from the journal. */
  lemma TakenUp(g: Agent, s: AStep)
    requires s.Receive? || s.Refused? || s.Resume? || s.TakeBacklog? || s.Accept?
    ensures var pc := Do(g, s).pc;
      pc == g.pc || (!pc.Concluding? && (pc.Uploading? ==> AtPhase(g, pc.id, Finished) && pc.report == g.journal[pc.id].report))
  {
    hide Handle, HandleRefusal, Dispatch, RunAssignment;
    match s
    case Receive(r) => AnswersDecideNothing(g, r);
    case Refused => AnswersDecideNothing(g, AttentionAnswer);
    case Resume(id) => DispatchDecidesNothing(g, id, false);
    case TakeBacklog => if |g.backlog| > 0 { DispatchDecidesNothing(g.(backlog := g.backlog[1..]), g.backlog[0], true); }
    case Accept(saved) => AcceptDecidesNothing(g, saved);
  }

  lemma AcceptDecidesNothing(g: Agent, saved: bool)
    ensures var h := DoAccept(g, saved); h.pc == g.pc || (!h.pc.Concluding? && !h.pc.Uploading?)
  {
  }

  lemma JournalWrites(g: Agent, s: AStep, e: ExecId)
    ensures var h := Do(g, s);
      AtPhase(h, e, Finished) ==>
        || (AtPhase(g, e, Finished) && h.journal[e].report == g.journal[e].report)
        || (e == IdOf(g.pc) && Decides(s) == Some(h.journal[e].report))
        || (g.pc.Concluding? && e == g.pc.id && h.journal[e].report == g.pc.report)
  {
    hide Outgoing;
  }

  lemma JournalLengths(g: Agent, local: map<Launching, seq<byte>>, a: AgentId, s: AStep)
    requires LengthsOk(g, local, a)
    requires Decides(s).Some? ==> Decides(s).value.logLength == |LocalOf(local, a, IdOf(g.pc))|
    ensures var h := Do(g, s);
      forall e :: e in h.journal && h.journal[e].phase.Finished? ==> h.journal[e].report.logLength == |LocalOf(local, a, e)|
  {
    var h := Do(g, s);
    hide Do, Decides, IdOf;
    forall e | e in h.journal && h.journal[e].phase.Finished?
      ensures h.journal[e].report.logLength == |LocalOf(local, a, e)|
    {
      JournalWrites(g, s, e);
    }
  }

  lemma SendsOutgoing(g: Agent, s: AStep)
    ensures Do(g, s).sent <= g.sent + if Outgoing(g).Some? then {Outgoing(g).value} else {}
  {
    hide Outgoing;
  }

  lemma SentLengths(g: Agent, local: map<Launching, seq<byte>>, a: AgentId, s: AStep)
    requires LengthsOk(g, local, a)
    ensures forall e, r :: Result(e, r) in Do(g, s).sent ==> r.logLength == |LocalOf(local, a, e)|
  {
    SendsOutgoing(g, s);
    hide Do;
    forall e, r | Result(e, r) in Do(g, s).sent
      ensures r.logLength == |LocalOf(local, a, e)|
    {
      if Result(e, r) !in g.sent { assert Outgoing(g) == Some(Result(e, r)); }
    }
  }

  lemma LengthsStep(g: Agent, local: map<Launching, seq<byte>>, a: AgentId, s: AStep)
    requires LengthsOk(g, local, a)
    requires Decides(s).Some? ==> Decides(s).value.logLength == |LocalOf(local, a, IdOf(g.pc))|
    ensures LengthsOk(Do(g, s), local, a)
  {
    PcLengths(g, local, a, s);
    JournalLengths(g, local, a, s);
    SentLengths(g, local, a, s);
    hide Do;
  }

  /** Only an agent's own steps touch what it has decided. */
  lemma OthersDecideNothing(w: World, s: Step, a: AgentId)
    requires a in w.agents && !s.ByAgent?
    ensures a in Next(w, s).agents
    ensures var g, h := w.agents[a], Next(w, s).agents[a];
      h.pc == g.pc && h.journal == g.journal && h.sent == g.sent
  {
    hide Mutate, Scheduler.Schedule, ApplyAt, Delete, Reconcile, Find, AssignmentFor;
  }

  lemma AgentsKept(w: World, s: Step)
    ensures Next(w, s).agents.Keys == w.agents.Keys
  {
    hide Do, Mutate, Scheduler.Schedule, ApplyAt, Delete, Reconcile, Find, AssignmentFor;
  }

  lemma ProtocolKeepsLengths(y: System, s: Step)
    requires AllLengthsOk(y) && Possible(y, s)
    ensures forall a :: a in Next(y.w, s).agents ==> LengthsOk(Next(y.w, s).agents[a], y.local, a)
  {
    hide Next, LengthsOk, Possible;
    AgentsKept(y.w, s);
    forall a | a in Next(y.w, s).agents
      ensures LengthsOk(Next(y.w, s).agents[a], y.local, a)
    {
      if s.ByAgent? {
        AgentKeepsLengths(y, s, a);
      } else {
        OthersKeepLengths(y, s, a);
      }
    }
  }

  lemma OthersKeepLengths(y: System, s: Step, a: AgentId)
    requires AllLengthsOk(y) && !s.ByAgent? && a in y.w.agents
    ensures a in Next(y.w, s).agents && LengthsOk(Next(y.w, s).agents[a], y.local, a)
  {
    OthersDecideNothing(y.w, s, a);
    hide Next;
  }

  lemma AgentKeepsLengths(y: System, s: Step, a: AgentId)
    requires AllLengthsOk(y) && Possible(y, s) && s.ByAgent? && a in y.w.agents
    ensures a in Next(y.w, s).agents && LengthsOk(Next(y.w, s).agents[a], y.local, a)
  {
    if a == s.a { LengthsStep(y.w.agents[a], y.local, a, s.step); }
    hide LengthsOk, Do, LaunchesOf;
  }

  // ---- what a protocol step means for the logs ---------------------------------------------

  /** A permit goes to an open execution. */
  lemma GrantOpens(w: World, s: Step, e: ExecId)
    requires Inv(w) && e !in w.granted
    ensures e in Next(w, s).granted ==> !Closed(Next(w, s).ctrl.execs, e)
  {
    if s.ProcessPermit? {
      PermitOpens(w, s.a, s.id, s.now, e);
    } else {
      OthersGrantNothing(w, s);
    }
    hide DoPermit;
  }

  lemma PermitOpens(w: World, a: AgentId, id: ExecId, now: Time, e: ExecId)
    requires StateOk(w.ctrl.execs) && e !in w.granted
    ensures e in DoPermit(w, a, id, now).granted ==> !Closed(DoPermit(w, a, id, now).ctrl.execs, e)
  {
    var i := FindIndex(w.ctrl.execs, id);
    if e == id && i >= 0 && PermitEffect(w.ctrl.execs[i], a, now).Write? {
      var x := w.ctrl.execs[i];
      var y := PermitEffect(x, a, now).x;
      EffectsKeepInvariant(x, a, now, NEW_REPORT, 0, "");
      UpdateAdvances(w.ctrl.execs, i, y);
      PruneView(w.ctrl.execs[i := y], w.maxHistory, w.ctrl, id);
    }
  }

  /** A permitted run that ends unresolved ends by a result of its owner. */
  lemma EndsByResult(w: World, s: Step, e: ExecId)
    requires Inv(w) && e in w.granted && !Closed(w.ctrl.execs, e)
    ensures Closed(Next(w, s).ctrl.execs, e) && e !in Next(w, s).resolved ==>
              s.ApplyResult? && s.h.id == e && s.h in w.handlers && s.h.agent == w.granted[e]
  {
    hide Next, Inv;
    if Closed(Next(w, s).ctrl.execs, e) {
      EndingStep(w, s, e);
      if s.ApplyResult? {
        IdleApply(w, s);
        OpenHandlerIsOwners(w, s.h);
      } else {
        ResolveRecords(w, s);
      }
    }
  }

  lemma ResolveRecords(w: World, s: Step)
    requires s.Resolve? && !Closed(w.ctrl.execs, s.id)
    ensures Closed(Next(w, s).ctrl.execs, s.id) ==> s.id in Next(w, s).resolved
  {
    hide Mutate;
  }

  lemma ResolvedStays(w: World, s: Step)
    ensures w.resolved <= Next(w, s).resolved
  {
    hide Do, Mutate, Scheduler.Schedule, ApplyAt, Delete, Reconcile, Find, AssignmentFor;
  }

  /** The permit comes with an empty local log, so what a stored log is a copy
    * of does not change. */
  lemma SourceStays(y: System, u: System, e: ExecId)
    requires LocalsOk(y) && u.local == y.local
    requires e in y.w.granted ==> e in u.w.granted && u.w.granted[e] == y.w.granted[e]
    ensures SourceOf(u, e) == SourceOf(y, e)
  {
    if e !in y.w.granted && e in u.w.granted {
      assert LocalOf(y.local, u.w.granted[e], e) == [];
    }
  }

  /** What the controller knows for good when a step follows. */
  ghost predicate Follows(w: World, u: World) {
    && Grows(KnowOf(w), KnowOf(u)) && w.resolved <= u.resolved
    && (forall e :: e in w.used && e !in w.granted && Closed(w.ctrl.execs, e) ==> e !in u.granted)
    && (forall a, r :: Sent(w, a, r) ==> Sent(u, a, r))
  }

  lemma SentStays(w: World, s: Step, a: AgentId, r: Request)
    requires Sent(w, a, r)
    ensures Sent(Next(w, s), a, r)
  {
    AgentsKept(w, s);
    if s.ByAgent? {
      SentGrows(w.agents[a], s.step);
    } else {
      OthersDecideNothing(w, s, a);
    }
    hide Do;
  }

  lemma NextFollows(w: World, s: Step)
    requires Inv(w)
    ensures Follows(w, Next(w, s))
  {
    hide Inv, Next, Sent;
    var u := Next(w, s);
    forall e
      ensures w.used <= u.used
      ensures e in w.granted ==> e in u.granted && u.granted[e] == w.granted[e]
      ensures e in w.used && e !in w.granted && Closed(w.ctrl.execs, e) ==> e !in u.granted
      ensures e in w.used && Closed(w.ctrl.execs, e) ==> Closed(u.ctrl.execs, e)
    {
      StepIsLater(w, s, e);
    }
    forall a, r | Sent(w, a, r)
      ensures Sent(u, a, r)
    {
      SentStays(w, s, a, r);
    }
    ResolvedStays(w, s);
  }

  lemma ResultStays(y: System, u: System, h: Handler, fits: bool)
    requires ResultOk(y, h, fits) && LocalsOk(y) && u.local == y.local && Follows(y.w, u.w)
    requires StoreOf(u, h.id) == StoreOf(y, h.id)
    ensures ResultOk(u, h, fits)
  {
    SourceStays(y, u, h.id);
  }

  /** Stores, local logs and confirmations as they are, the protocol moves on. */
  lemma SystemFollows(y: System, cap: Transport.Cap, s: Step)
    requires SystemOk(y, cap) && Possible(y, s)
    ensures SystemOk(y.(w := Next(y.w, s)), cap)
  {
    hide Inv, Next, Logs.StoreOk, Logs.Settled, Sent, LengthsOk;
    var u := y.(w := Next(y.w, s));
    NextKeeps(y.w, s);
    NextFollows(y.w, s);
    ProtocolKeepsLengths(y, s);
    forall e
      ensures SourceOf(u, e) == SourceOf(y, e)
    {
      SourceStays(y, u, e);
    }
    forall h, fits | ResultOk(y, h, fits)
      ensures ResultOk(u, h, fits)
    {
      ResultStays(y, u, h, fits);
    }
    forall e | Reported(u.w, e)
      ensures SettledAt(u, e)
    {
      EndingFollows(y, cap, s, e);
    }
  }

  lemma EndingFollows(y: System, cap: Transport.Cap, s: Step, e: ExecId)
    requires SystemOk(y, cap) && Possible(y, s) && Reported(Next(y.w, s), e)
    ensures SettledAt(y, e)
  {
    hide Next, Inv;
    ResolvedStays(y.w, s);
    if e !in y.w.granted {
      GrantOpens(y.w, s, e);
    } else if !Closed(y.w.ctrl.execs, e) {
      EndsByResult(y.w, s, e);
      assert ResultOk(y, s.h, true);
    }
  }

  // ---- what happens to the logs --------------------------------------------------------------

  /** A handler of e's log goes on. */
  lemma StoreMoves(y: System, cap: Transport.Cap, e: ExecId, event: Logs.Event)
    requires SystemOk(y, cap)
    requires event.Arrive? ==> Transport.IsPiece(SourceOf(y, e), event.start, event.data)
    ensures SystemOk(Stored(y, cap, e, event), cap)
  {
    hide Inv, Logs.StoreOk, Logs.Settled, Logs.Handle, Sent, LengthsOk;
    var u := Stored(y, cap, e, event);
    Logs.HandleKeeps(StoreOf(y, e), SourceOf(y, e), cap, event);
    if SettledAt(y, e) { Logs.SettledStays(StoreOf(y, e), SourceOf(y, e), cap, event); }
    forall h, fits | ResultOk(y, h, fits)
      ensures ResultOk(u, h, fits)
    {
    }
    forall f
      ensures Logs.StoreOk(StoreOf(u, f), SourceOf(u, f), cap)
    {
      assert Logs.StoreOk(StoreOf(y, f), SourceOf(y, f), cap);
    }
  }

  /** Any chunk for e is a piece of the log being copied. */
  lemma UploadIsPiece(y: System, a: AgentId, e: ExecId, start: nat, data: seq<byte>)
    requires LocalsOk(y) && Transport.IsPiece(LocalOf(y.local, a, e), start, data)
    ensures Transport.IsPiece(SourceOf(y, e), start, data)
  {
    if LocalOf(y.local, a, e) != [] {
      assert GrantedTo(KnowOf(y.w), a, e);
    }
  }

  lemma ReportedWasSent(w: World, e: ExecId)
    requires CompletionsOk(w)
    ensures Reported(w, e) ==> w.granted[e] in w.agents && ResultSent(w.agents[w.granted[e]], e)
  {
  }

  /** While the local log is open no result has been decided or sent. */
  lemma WriterIsEarly(y: System, cap: Transport.Cap, a: AgentId, e: ExecId)
    requires SystemOk(y, cap) && a in y.w.agents
    ensures Writing(y.w.agents[a].pc, e) ==>
              && GrantedTo(KnowOf(y.w), a, e) && !ResultSent(y.w.agents[a], e)
              && e in y.w.agents[a].journal && !y.w.agents[a].journal[e].phase.Finished?
              && !Reported(y.w, e) && forall h, fits :: ResultOk(y, h, fits) && h.id == e ==> h.agent != a
  {
    var g := y.w.agents[a];
    if Writing(g.pc, e) {
      assert AgentInv(a, g, KnowOf(y.w));
      assert PhaseOk(a, g, KnowOf(y.w), e, g.journal[e]);
      ReportedWasSent(y.w, e);
    }
  }

  /** Only a's log of e is longer. */
  ghost predicate Wrote(y: System, u: System, a: AgentId, e: ExecId, more: seq<byte>) {
    && u == y.(local := u.local) && LocalOf(u.local, a, e) == LocalOf(y.local, a, e) + more
    && forall b, f :: b != a || f != e ==> LocalOf(u.local, b, f) == LocalOf(y.local, b, f)
  }

  lemma WriteKeepsStores(y: System, cap: Transport.Cap, u: System, a: AgentId, e: ExecId, more: seq<byte>)
    requires StoresOk(y, cap) && Wrote(y, u, a, e, more) && GrantedTo(KnowOf(y.w), a, e)
    ensures StoresOk(u, cap) && forall f :: f != e ==> SourceOf(u, f) == SourceOf(y, f)
  {
    hide Logs.StoreOk;
    forall f
      ensures Logs.StoreOk(StoreOf(u, f), SourceOf(u, f), cap) && (f != e ==> SourceOf(u, f) == SourceOf(y, f))
    {
      assert Logs.StoreOk(StoreOf(y, f), SourceOf(y, f), cap);
      if f == e { Logs.GrowthKeeps(StoreOf(y, e), SourceOf(y, e), more, cap); }
    }
  }

  lemma WriteKeepsSettled(y: System, u: System, a: AgentId, e: ExecId, more: seq<byte>)
    requires ResultsOk(y) && EndingsOk(y) && Wrote(y, u, a, e, more) && GrantedTo(KnowOf(y.w), a, e)
    requires forall f :: f != e ==> SourceOf(u, f) == SourceOf(y, f)
    requires !Reported(y.w, e) && forall h, fits :: ResultOk(y, h, fits) && h.id == e ==> h.agent != a
    ensures ResultsOk(u) && EndingsOk(u)
  {
    hide Reported, Sent, Logs.Settled, SourceOf, LocalOf;
    forall h, fits | ResultOk(y, h, fits)
      ensures ResultOk(u, h, fits)
    {
    }
    forall f | Reported(u.w, f)
      ensures SettledAt(u, f)
    {
      assert SettledAt(y, f);
    }
  }

  lemma WriteKeeps(y: System, cap: Transport.Cap, a: AgentId, e: ExecId, more: seq<byte>)
    requires SystemOk(y, cap)
    ensures SystemOk(DoWrite(y, a, e, more), cap)
  {
    if a in y.w.agents && Writing(y.w.agents[a].pc, e) {
      var u := DoWrite(y, a, e, more);
      WriterIsEarly(y, cap, a, e);
      hide Inv, StoresOk, AllLengthsOk, ResultsOk, EndingsOk, Writing, ResultSent, Reported;
      WriteKeepsLengths(y, u, a, e);
      WriteKeepsStores(y, cap, u, a, e, more);
      WriteKeepsSettled(y, u, a, e, more);
    }
  }

  lemma WriteKeepsLengths(y: System, u: System, a: AgentId, e: ExecId)
    requires AllLengthsOk(y) && a in y.w.agents && Writing(y.w.agents[a].pc, e) && u.w == y.w
    requires !ResultSent(y.w.agents[a], e) && (e in y.w.agents[a].journal ==> !y.w.agents[a].journal[e].phase.Finished?)
    requires forall b, f :: b != a || f != e ==> LocalOf(u.local, b, f) == LocalOf(y.local, b, f)
    ensures AllLengthsOk(u)
  {
    hide LocalOf;
    forall b | b in u.w.agents
      ensures LengthsOk(u.w.agents[b], u.local, b)
    {
      assert LengthsOk(y.w.agents[b], y.local, b);
    }
  }

  /** The compared length is that of the local log. */
  lemma ResultLength(y: System, h: Handler)
    requires Inv(y.w) && AllLengthsOk(y) && h in y.w.handlers
    ensures Sent(y.w, h.agent, Result(h.id, h.report)) && Decided(KnowOf(y.w), h.agent, h.id)
    ensures h.report.logLength == |LocalOf(y.local, h.agent, h.id)|
  {
    assert LengthsOk(y.w.agents[h.agent], y.local, h.agent);
  }

  lemma MeasuredIsOk(y: System, cap: Transport.Cap, h: Handler)
    requires Inv(y.w) && AllLengthsOk(y) && StoresOk(y, cap) && h in y.w.handlers
    ensures ResultOk(y, h, |StoreOf(y, h.id).bytes| == h.report.logLength)
  {
    var st := StoreOf(y, h.id);
    ResultLength(y, h);
    assert Logs.StoreOk(st, SourceOf(y, h.id), cap);
    hide Inv, AllLengthsOk, Sent, LengthsOk;
    if |st.bytes| == h.report.logLength && GrantedTo(KnowOf(y.w), h.agent, h.id) {
      Logs.ConfirmedIsSettled(st, SourceOf(y, h.id), cap);
    }
  }

  lemma MeasureKeeps(y: System, cap: Transport.Cap, h: Handler)
    requires SystemOk(y, cap)
    ensures SystemOk(DoMeasureLog(y, h), cap)
  {
    if h in y.w.handlers {
      MeasuredIsOk(y, cap, h);
      SameLogs(y, cap, DoMeasureLog(y, h));
      hide Inv, StoresOk, EndingsOk, AllLengthsOk, LocalsOk, ResultOk;
    }
  }

  lemma CompareKeeps(y: System, cap: Transport.Cap, m: Measured)
    requires SystemOk(y, cap)
    ensures SystemOk(DoCompareLog(y, m), cap)
  {
    if m in y.measured && (StoreOf(y, m.h.id).truncated || m.size == m.h.report.logLength) {
      hide Inv;
      assert Logs.StoreOk(StoreOf(y, m.h.id), SourceOf(y, m.h.id), cap);
      assert ResultOk(y, m.h, true);
      SameLogs(y, cap, DoCompareLog(y, m));
      hide StoresOk, EndingsOk, AllLengthsOk, LocalsOk, ResultOk;
    }
  }

  lemma SameResults(y: System, u: System)
    requires u == y.(measured := u.measured, confirmed := u.confirmed)
    ensures forall h, fits :: ResultOk(u, h, fits) <==> ResultOk(y, h, fits)
  {
    hide Logs.Settled, LocalOf;
  }

  lemma SameLogs(y: System, cap: Transport.Cap, u: System)
    requires LocalsOk(y) && StoresOk(y, cap) && AllLengthsOk(y) && EndingsOk(y) && u == y.(measured := u.measured, confirmed := u.confirmed)
    ensures LocalsOk(u) && StoresOk(u, cap) && AllLengthsOk(u) && EndingsOk(u)
    ensures forall h, fits :: ResultOk(u, h, fits) <==> ResultOk(y, h, fits)
  {
    SameResults(y, u);
    hide Logs.StoreOk, Logs.Settled, LengthsOk, LocalOf, Reported;
    forall f
      ensures SourceOf(u, f) == SourceOf(y, f) && StoreOf(u, f) == StoreOf(y, f) && Logs.StoreOk(StoreOf(u, f), SourceOf(u, f), cap)
    {
      assert Logs.StoreOk(StoreOf(y, f), SourceOf(y, f), cap);
    }
    forall f | Reported(u.w, f)
      ensures SettledAt(u, f)
    {
      assert SettledAt(y, f);
    }
  }

  /** A restart of the controller drops every handler. */
  lemma RestartKeepsLogs(y: System, cap: Transport.Cap)
    requires SystemOk(y, cap)
    ensures SystemOk(y.(stores := Interrupted(y.stores, cap), measured := {}, confirmed := {}), cap)
  {
    hide Inv, Logs.StoreOk, Logs.Settled, Logs.Handle, Sent, LengthsOk;
    var u := y.(stores := Interrupted(y.stores, cap), measured := {}, confirmed := {});
    forall e
      ensures Logs.StoreOk(StoreOf(u, e), SourceOf(u, e), cap) && (SettledAt(y, e) ==> SettledAt(u, e))
    {
      assert Logs.StoreOk(StoreOf(y, e), SourceOf(y, e), cap);
      if e in y.stores {
        Logs.HandleKeeps(StoreOf(y, e), SourceOf(y, e), cap, Logs.Restart);
        if SettledAt(y, e) { Logs.SettledStays(StoreOf(y, e), SourceOf(y, e), cap, Logs.Restart); }
      }
    }
  }

  lemma ProtocolKeeps(y: System, cap: Transport.Cap, s: Step)
    requires SystemOk(y, cap)
    ensures SystemOk(DoProtocol(y, cap, s), cap)
  {
    hide SystemOk, Next, Possible;
    if Possible(y, s) {
      SystemFollows(y, cap, s);
      if s.RestartController? { RestartKeepsLogs(y.(w := Next(y.w, s)), cap); }
    }
  }

  lemma MarkKeeps(y: System, cap: Transport.Cap, e: ExecId, h: nat)
    requires SystemOk(y, cap)
    ensures SystemOk(DoMarkTruncated(y, cap, e, h), cap)
  {
    hide SystemOk, Next, Stored;
    SystemFollows(y, cap, TruncateLog(e));
    StoreMoves(y.(w := Next(y.w, TruncateLog(e))), cap, e, Logs.Mark(h));
  }

  lemma AfterKeeps(y: System, cap: Transport.Cap, s: SystemStep)
    requires SystemOk(y, cap)
    ensures SystemOk(After(y, cap, s), cap)
  {
    hide SystemOk, Next, DoProtocol, DoWrite, DoUpload, DoMeasureLog, DoCompareLog, Stored;
    match s
    case Protocol(step) => ProtocolKeeps(y, cap, step);
    case Write(a, e, more) => WriteKeeps(y, cap, a, e, more);
    case Upload(a, e, h, start, data) => UploadKeeps(y, cap, a, e, h, start, data);
    case Disk(e, event) => if !event.Arrive? { StoreMoves(y, cap, e, event); }
    case MarkTruncated(e, h) => MarkKeeps(y, cap, e, h);
    case MeasureLog(h) => MeasureKeeps(y, cap, h);
    case CompareLog(m) => CompareKeeps(y, cap, m);
  }

  lemma UploadKeeps(y: System, cap: Transport.Cap, a: AgentId, e: ExecId, h: nat, start: nat, data: seq<byte>)
    requires SystemOk(y, cap)
    ensures SystemOk(DoUpload(y, cap, a, e, h, start, data), cap)
  {
    if Transport.IsPiece(LocalOf(y.local, a, e), start, data) {
      UploadIsPiece(y, a, e, start, data);
      StoreMoves(y, cap, e, Logs.Arrive(h, start, data));
    }
    hide SystemOk, Stored;
  }

  // ---- whole runs ----------------------------------------------------------------------------

  ghost predicate IsSystemRun(ys: seq<System>, cap: Transport.Cap, steps: seq<SystemStep>) {
    && |ys| == |steps| + 1
    && Init(ys[0].w) && ys[0].local == map[] && ys[0].stores == map[] && ys[0].measured == {} && ys[0].confirmed == {}
    && (forall i {:trigger steps[i]} :: 0 <= i < |steps| ==> ys[i + 1] == After(ys[i], cap, steps[i]))
  }

  lemma StartIsOk(y: System, cap: Transport.Cap)
    requires Init(y.w) && y.local == map[] && y.stores == map[] && y.measured == {} && y.confirmed == {}
    ensures SystemOk(y, cap)
  {
    InitEstablishes(y.w);
  }

  lemma {:induction false} SystemThroughout(ys: seq<System>, cap: Transport.Cap, steps: seq<SystemStep>, i: nat)
    requires IsSystemRun(ys, cap, steps) && i < |ys|
    ensures SystemOk(ys[i], cap)
  {
    hide SystemOk, After, Init;
    if i == 0 {
      StartIsOk(ys[0], cap);
    } else {
      SystemThroughout(ys, cap, steps, i - 1);
      AfterKeeps(ys[i - 1], cap, steps[i - 1]);
    }
  }

  /** In every state of every run the controller's log of an execution is a copy
    * of the local log of the agent it was granted to, and of nothing else: a
    * prefix of it, or its first bytes up to the cap and notices. */
  lemma StoredLogIsTheGrantees(ys: seq<System>, cap: Transport.Cap, steps: seq<SystemStep>, i: nat, e: ExecId)
    requires IsSystemRun(ys, cap, steps) && i < |ys|
    ensures Logs.Shape(StoreOf(ys[i], e).bytes, SourceOf(ys[i], e), cap, StoreOf(ys[i], e).notices)
    ensures StoreOf(ys[i], e).bytes != [] ==> e in ys[i].w.granted
  {
    SystemThroughout(ys, cap, steps, i);
    hide After;
  }

  /** A run that ended by its agent's result has its whole log on the controller,
    * or one that was cut at the cap. */
  lemma AcceptedLogIsComplete(ys: seq<System>, cap: Transport.Cap, steps: seq<SystemStep>, i: nat, x: Exec)
    requires IsSystemRun(ys, cap, steps) && i < |ys|
    requires x in ys[i].w.ctrl.execs && Terminal(x.status) && x.permitGranted && x.id !in ys[i].w.resolved
    ensures var st := StoreOf(ys[i], x.id);
      var local := LocalOf(ys[i].local, x.agent, x.id);
      st.bytes == local ||
      (st.notices > 0 && cap.bytes < |local| && st.bytes == local[..cap.bytes] + Logs.Notices(cap, st.notices))
  {
    SystemThroughout(ys, cap, steps, i);
    RecordOf(ys[i].w, x);
    assert Reported(ys[i].w, x.id);
    assert SettledAt(ys[i], x.id);
  }
}

/** The invariant of the protocol is kept by every step. */
module ProtocolInvariant {
  import opened Model
  import opened History
  import opened Transitions
  import opened Scheduler
  import opened AgentMachine
  import opened AgentInvariant
  import opened Protocol

  // ---- answers ----------------------------------------------------------------------

  lemma AnswerKeeps(w: World, a: AgentId, request: Request, response: Response)
    requires Inv(w)
    requires a in w.agents && w.agents[a].call == Some(request) ==> Honest(a, w.agents[a], KnowOf(w), request, response)
    ensures Inv(Answer(w, a, request, response))
  {
    if a in w.agents && w.agents[a].call == Some(request) {
      var u := Answer(w, a, request, response);
      AnswerOk(a, w.agents[a], KnowOf(w), request, response);
      assert KnowOf(u) == KnowOf(w);
      SameHistory(w, u);
    }
  }

  /** Changing nothing but calls and answers. */
  lemma SameHistory(w: World, u: World)
    requires Inv(w) && u == w.(agents := u.agents) && u.agents.Keys == w.agents.Keys
    requires forall a :: a in w.agents ==> u.agents[a].sent == w.agents[a].sent && u.agents[a].leaders == w.agents[a].leaders
    requires AgentsOk(u)
    ensures Inv(u)
  {
    forall e | e in u.granted && Closed(u.ctrl.execs, e)
      ensures Accounted(u, e)
    {
      assert Accounted(w, e);
    }
  }

  // ---- mutations of the controller ------------------------------------------------------

  /** Permits are only added, to known agents, for executions that stay open. */
  ghost predicate PermitsGrow(w: World, mid: seq<Exec>, granted: map<ExecId, AgentId>) {
    && (forall e :: e in w.granted ==> e in granted && granted[e] == w.granted[e])
    && (forall e :: e in granted ==> granted[e] in w.agents)
    && (forall e :: e in granted && e !in w.granted ==> !Closed(mid, e))
  }

  /** A permitted run that ends here is accounted for. */
  ghost predicate EndsAccounted(w: World, mid: seq<Exec>, resolved: set<ExecId>) {
    && w.resolved <= resolved
    && (forall e :: e in w.granted && Closed(mid, e) && !Closed(w.ctrl.execs, e) ==>
          e in resolved || (w.granted[e] in w.agents && ResultSent(w.agents[w.granted[e]], e)))
  }

  ghost predicate SuccessesLaunched(w: World, mid: seq<Exec>) {
    forall e :: Find(mid, e).Some? && Find(mid, e).value.status.Success? && Find(mid, e).value.origin.None? ==>
      e in w.granted && w.granted[e] in w.agents && e in w.agents[w.granted[e]].leaders
  }

  /** What a callback has to guarantee, compared with the state before it. */
  ghost predicate Acceptable(w: World, mid: seq<Exec>, newIds: set<ExecId>, granted: map<ExecId, AgentId>, resolved: set<ExecId>) {
    && StateOk(mid) && Advances(w.ctrl.execs, mid, newIds) && newIds !! w.used
    && PermitsOk(mid, w.used + newIds, granted)
    && PermitsGrow(w, mid, granted) && EndsAccounted(w, mid, resolved) && SuccessesLaunched(w, mid)
  }

  /** The agents keep their invariants while the controller moves on. */
  lemma AgentsFollow(w: World, u: World)
    requires AgentsOk(w) && u.agents == w.agents && Grows(KnowOf(w), KnowOf(u))
    ensures AgentsOk(u)
  {
    forall a | a in u.agents
      ensures AgentInv(a, u.agents[a], KnowOf(u))
    {
      KnowledgeGrows(a, w.agents[a], KnowOf(w), KnowOf(u));
    }
  }

  lemma ControllerMoves(w: World, u: World)
    requires Inv(w) && u.agents == w.agents && u.launches == w.launches && u.handlers <= w.handlers
    requires ControllerOk(u) && Grows(KnowOf(w), KnowOf(u))
    ensures Inv(u)
  {
    AgentsFollow(w, u);
    forall h | h in u.handlers
      ensures Decided(KnowOf(u), h.agent, h.id)
    {
      assert Decided(KnowOf(w), h.agent, h.id);
    }
  }

  lemma PruneView(mid: seq<Exec>, maxHistory: int, st: State, e: ExecId)
    requires StateOk(mid)
    ensures var after := Finish(st, mid, maxHistory).execs;
      StateOk(after) && PrunesAt(Find(mid, e), Find(after, e)) && (Closed(after, e) <==> Closed(mid, e))
  {
    DropAdvances(mid, Excess(mid, Done, NormalizeMaxHistory(maxHistory)));
  }

  function Moved(w: World, mid: seq<Exec>, newIds: set<ExecId>, granted: map<ExecId, AgentId>, resolved: set<ExecId>): World {
    Commits(w, Commit(mid)).(used := w.used + newIds, granted := granted, resolved := resolved)
  }

  lemma ClosedStays(w: World, mid: seq<Exec>, newIds: set<ExecId>, e: ExecId)
    requires Advances(w.ctrl.execs, mid, newIds) && newIds !! w.used && e in w.used && Closed(w.ctrl.execs, e)
    ensures Closed(mid, e)
  {
  }

  /** Pruning removes finished runs, so nothing the invariant says is lost. */
  ghost predicate PrunedView(mid: seq<Exec>, after: seq<Exec>) {
    forall e :: PrunesAt(Find(mid, e), Find(after, e)) && (Closed(after, e) <==> Closed(mid, e))
  }

  lemma MovedController(w: World, u: World, mid: seq<Exec>, newIds: set<ExecId>)
    requires ControllerOk(w) && Acceptable(w, mid, newIds, u.granted, u.resolved)
    requires u == w.(ctrl := u.ctrl, used := w.used + newIds, granted := u.granted, resolved := u.resolved)
    requires StateOk(u.ctrl.execs) && PrunedView(mid, u.ctrl.execs)
    ensures PermitsOk(u.ctrl.execs, u.used, u.granted) && CompletionsOk(u) && SuccessOk(u)
  {
    hide StateOk, Advances;
    MovedCompletions(w, u, mid, newIds);
  }

  lemma MovedCompletions(w: World, u: World, mid: seq<Exec>, newIds: set<ExecId>)
    requires CompletionsOk(w) && PermitsGrow(w, mid, u.granted) && EndsAccounted(w, mid, u.resolved)
    requires u == w.(ctrl := u.ctrl, used := w.used + newIds, granted := u.granted, resolved := u.resolved)
    requires PrunedView(mid, u.ctrl.execs)
    ensures CompletionsOk(u)
  {
    forall e | e in u.granted && Closed(u.ctrl.execs, e)
      ensures Accounted(u, e)
    {
      if Closed(w.ctrl.execs, e) {
        assert Accounted(w, e);
      }
    }
  }

  lemma MutationMoves(w: World, mid: seq<Exec>, newIds: set<ExecId>, granted: map<ExecId, AgentId>, resolved: set<ExecId>)
    requires ControllerOk(w) && Acceptable(w, mid, newIds, granted, resolved)
    ensures var u := Moved(w, mid, newIds, granted, resolved);
      ControllerOk(u) && Grows(KnowOf(w), KnowOf(u))
  {
    hide PermitsOk, CompletionsOk, SuccessOk, EndsAccounted, SuccessesLaunched, Advances, StateOk;
    var u := Moved(w, mid, newIds, granted, resolved);
    var after := u.ctrl.execs;
    PruneView(mid, w.maxHistory, w.ctrl, "");
    forall e
      ensures PrunesAt(Find(mid, e), Find(after, e)) && (Closed(after, e) <==> Closed(mid, e))
    {
      PruneView(mid, w.maxHistory, w.ctrl, e);
    }
    MovedController(w, u, mid, newIds);
    forall e | e in KnowOf(w).closed
      ensures e in KnowOf(u).closed
    {
      ClosedStays(w, mid, newIds, e);
    }
  }

  lemma MutationKeeps(w: World, mid: seq<Exec>, newIds: set<ExecId>, granted: map<ExecId, AgentId>, resolved: set<ExecId>)
    requires Inv(w) && Acceptable(w, mid, newIds, granted, resolved)
    ensures Inv(Moved(w, mid, newIds, granted, resolved))
    ensures Grows(KnowOf(w), KnowOf(Moved(w, mid, newIds, granted, resolved)))
  {
    MutationMoves(w, mid, newIds, granted, resolved);
    ControllerMoves(w, Moved(w, mid, newIds, granted, resolved));
  }

  /** A callback that rewrites the one execution it looked up. */
  ghost predicate AcceptableUpdate(w: World, x: Exec, y: Exec, granted: map<ExecId, AgentId>, resolved: set<ExecId>) {
    && ExecOk(y) && Evolves(x, y) && NoNewSlot(x, y)
    && PermitOk(y, w.used, granted) && w.resolved <= resolved
    && (granted == w.granted ||
        (x.id !in w.granted && x.id in granted && granted == w.granted[x.id := granted[x.id]] && !Terminal(y.status) && granted[x.id] in w.agents))
    && (x.id in w.granted && Terminal(y.status) && !Terminal(x.status) ==>
          x.id in resolved || (w.granted[x.id] in w.agents && ResultSent(w.agents[w.granted[x.id]], x.id)))
    && (y.status.Success? && !x.status.Success? && y.origin.None? ==>
          x.id in w.granted && w.granted[x.id] in w.agents && x.id in w.agents[w.granted[x.id]].leaders)
  }

  lemma UpdatePermits(w: World, id: ExecId, y: Exec, granted: map<ExecId, AgentId>, mid: seq<Exec>)
    requires PermitsOk(w.ctrl.execs, w.used, w.granted) && id in w.used && PermitOk(y, w.used, granted) && y.id == id
    requires granted == w.granted || (id in granted && granted == w.granted[id := granted[id]])
    requires forall e :: Find(mid, e) == if e == id then Some(y) else Find(w.ctrl.execs, e)
    ensures PermitsOk(mid, w.used, granted)
  {
  }

  ghost predicate Rewrites(s: seq<Exec>, mid: seq<Exec>, y: Exec) {
    forall e :: Find(mid, e) == if e == y.id then Some(y) else Find(s, e)
  }

  lemma UpdateEnds(w: World, x: Exec, y: Exec, granted: map<ExecId, AgentId>, resolved: set<ExecId>, mid: seq<Exec>)
    requires CompletionsOk(w) && SuccessOk(w) && Find(w.ctrl.execs, y.id) == Some(x)
    requires Rewrites(w.ctrl.execs, mid, y) && AcceptableUpdate(w, x, y, granted, resolved)
    ensures PermitsGrow(w, mid, granted) && EndsAccounted(w, mid, resolved) && SuccessesLaunched(w, mid)
  {
  }

  lemma UpdateIsAcceptable(w: World, id: ExecId, y: Exec, granted: map<ExecId, AgentId>, resolved: set<ExecId>)
    requires ControllerOk(w) && Find(w.ctrl.execs, id).Some?
    requires AcceptableUpdate(w, Find(w.ctrl.execs, id).value, y, granted, resolved)
    ensures Acceptable(w, w.ctrl.execs[FindIndex(w.ctrl.execs, id) := y], {}, granted, resolved)
  {
    var execs := w.ctrl.execs;
    var i := FindIndex(execs, id);
    var x := Find(execs, id).value;
    var mid := execs[i := y];
    UpdateAdvances(execs, i, y);
    assert PermitOk(x, w.used, w.granted);
    UpdatePermits(w, id, y, granted, mid);
    UpdateEnds(w, x, y, granted, resolved, mid);
    assert w.used + {} == w.used;
  }

  lemma UpdateKeeps(w: World, id: ExecId, y: Exec, granted: map<ExecId, AgentId>, resolved: set<ExecId>)
    requires Inv(w) && Find(w.ctrl.execs, id).Some?
    requires AcceptableUpdate(w, Find(w.ctrl.execs, id).value, y, granted, resolved)
    ensures var u := Commits(w, Commit(w.ctrl.execs[FindIndex(w.ctrl.execs, id) := y])).(granted := granted, resolved := resolved);
      Inv(u) && Grows(KnowOf(w), KnowOf(u))
  {
    var mid := w.ctrl.execs[FindIndex(w.ctrl.execs, id) := y];
    UpdateIsAcceptable(w, id, y, granted, resolved);
    MutationKeeps(w, mid, {}, granted, resolved);
    assert w.used + {} == w.used;
  }

  /** A callback that rewrites executions in place without granting or ending
    * any of them. */
  ghost predicate Neutral(x: Exec, y: Exec) {
    && ExecOk(y) && Evolves(x, y)
    && y.permitGranted == x.permitGranted && (x.permitGranted ==> y.agent == x.agent)
    && (Terminal(y.status) <==> Terminal(x.status))
  }

  lemma NeutralView(s: seq<Exec>, mid: seq<Exec>, e: ExecId)
    requires |mid| == |s| && forall i :: 0 <= i < |s| ==> Neutral(s[i], mid[i])
    ensures Find(mid, e).Some? <==> Find(s, e).Some?
    ensures Find(s, e).Some? ==> Neutral(Find(s, e).value, Find(mid, e).value)
  {
    SameIdsSameIndex(s, mid, e);
  }

  lemma NeutralIsAcceptable(w: World, mid: seq<Exec>)
    requires ControllerOk(w) && StateOk(mid) && Advances(w.ctrl.execs, mid, {})
    requires |mid| == |w.ctrl.execs| && forall i :: 0 <= i < |mid| ==> Neutral(w.ctrl.execs[i], mid[i])
    ensures Acceptable(w, mid, {}, w.granted, w.resolved)
  {
    forall e
      ensures Find(mid, e).Some? <==> Find(w.ctrl.execs, e).Some?
      ensures Find(mid, e).Some? ==> Neutral(Find(w.ctrl.execs, e).value, Find(mid, e).value)
    {
      NeutralView(w.ctrl.execs, mid, e);
    }
    forall e | Find(mid, e).Some?
      ensures PermitOk(Find(mid, e).value, w.used, w.granted)
    {
      assert PermitOk(Find(w.ctrl.execs, e).value, w.used, w.granted);
    }
    assert w.used + {} == w.used;
  }

  lemma NeutralKeeps(w: World, mid: seq<Exec>)
    requires Inv(w) && StateOk(mid) && Advances(w.ctrl.execs, mid, {})
    requires |mid| == |w.ctrl.execs| && forall i :: 0 <= i < |mid| ==> Neutral(w.ctrl.execs[i], mid[i])
    ensures Inv(Commits(w, Commit(mid)))
  {
    NeutralIsAcceptable(w, mid);
    MutationKeeps(w, mid, {}, w.granted, w.resolved);
    assert w.used + {} == w.used;
  }

  // ---- the controller's steps -----------------------------------------------------------

  lemma AppendIsAcceptable(w: World, x: Exec)
    requires ControllerOk(w) && x.id !in w.used && ExecOk(x) && !x.permitGranted
    requires x.status.Queued? || (Terminal(x.status) && x.origin.Some?)
    ensures Acceptable(w, w.ctrl.execs + [x], {x.id}, w.granted, w.resolved)
  {
    var execs := w.ctrl.execs;
    var mid := execs + [x];
    forall i | 0 <= i < |execs|
      ensures execs[i].id != x.id
    {
      FindMember(execs, i);
      assert PermitOk(Find(execs, execs[i].id).value, w.used, w.granted);
    }
    forall e
      ensures Find(mid, e) == if Find(execs, e).Some? then Find(execs, e) else if e == x.id then Some(x) else None
    {
      FindAppend(execs, [x], e);
      FindStep([x], e);
    }
    forall e | Find(mid, e).Some?
      ensures PermitOk(Find(mid, e).value, w.used + {x.id}, w.granted)
    {
      if Find(execs, e).Some? { assert PermitOk(Find(execs, e).value, w.used, w.granted); }
    }
    forall e
      ensures AdvancesAt(Find(execs, e), Find(mid, e), e in {x.id})
    {
    }
  }

  lemma AppendKeeps(w: World, x: Exec)
    requires Inv(w) && x.id !in w.used && ExecOk(x) && !x.permitGranted
    requires x.status.Queued? || (Terminal(x.status) && x.origin.Some?)
    ensures Inv(Commits(w, Commit(w.ctrl.execs + [x])).(used := w.used + {x.id}))
  {
    AppendIsAcceptable(w, x);
    MutationKeeps(w, w.ctrl.execs + [x], {x.id}, w.granted, w.resolved);
  }

  /** A step that changes nothing the invariant looks at. */
  lemma SilentMove(w: World, u: World)
    requires Inv(w) && u == w.(ctrl := u.ctrl, maxHistory := u.maxHistory, handlers := u.handlers)
    requires u.ctrl.execs == w.ctrl.execs && u.handlers <= w.handlers
    ensures Inv(u)
  {
  }

  lemma SilentController(w: World, u: World)
    requires ControllerOk(w) && u == w.(ctrl := u.ctrl, maxHistory := u.maxHistory, handlers := u.handlers)
    requires u.ctrl.execs == w.ctrl.execs
    ensures ControllerOk(u) && KnowOf(u) == KnowOf(w)
  {
  }

  lemma ScheduleKeeps(w: World, fleet: Fleet, now: Time)
    requires Inv(w) && "" !in fleet
    ensures Inv(w.(ctrl := Schedule(w.ctrl, fleet, now, w.maxHistory)))
  {
    if !AssignsNothing(PlanOf(w.ctrl.execs, w.ctrl.last, fleet)) {
      var r := ScheduledExecs(w.ctrl.execs, w.ctrl.last, fleet, now);
      var u := w.(ctrl := w.ctrl.(last := ScheduledLast(w.ctrl.execs, w.ctrl.last, fleet, now)));
      ScheduleIsTheFairOutcome(w.ctrl.execs, w.ctrl.last, fleet, now, r);
      FairOutcomeKeepsInvariant(w.ctrl.execs, fleet, w.ctrl.last, now, r);
      FairOutcomeIsNeutral(w.ctrl.execs, fleet, w.ctrl.last, now, r);
      SilentMove(w, u);
      NeutralKeeps(u, r);
    }
  }

  lemma FairOutcomeIsNeutral(s: seq<Exec>, fleet: Fleet, last: map<AgentId, Time>, now: Time, r: seq<Exec>)
    requires StateOk(s) && StateOk(r) && "" !in fleet && FairOutcome(s, fleet, last, now, r)
    ensures forall i :: 0 <= i < |r| ==> Neutral(s[i], r[i])
  {
  }

  lemma ReconcileKeeps(w: World, a: AgentId, known: set<ExecId>)
    requires Inv(w) && a != ""
    ensures Inv(Commits(w, Transitions.Reconcile(w.ctrl.execs, a, known)))
  {
    var s := w.ctrl.execs;
    var r := ReconcileAll(s, a, known);
    forall i | 0 <= i < |s|
      ensures Neutral(s[i], r[i]) && NoNewSlot(s[i], r[i])
    {
      ReconcileKeepsInvariant(s[i], a, known);
    }
    PointwiseAdvances(s, r);
    if r != s { NeutralKeeps(w, r); }
  }

  lemma AssignmentIsOpen(execs: seq<Exec>, a: AgentId) returns (i: nat)
    requires AssignmentFor(execs, a).Some?
    ensures i < |execs| && execs[i].id == AssignmentFor(execs, a).value && execs[i].agent == a && execs[i].status.Assigned?
  {
    if execs[0].agent == a && execs[0].status.Assigned? && !execs[0].permitRevoked && !execs[0].cancelRequested {
      i := 0;
    } else {
      i := AssignmentIsOpen(execs[1..], a);
      i := i + 1;
    }
  }

  /** A delivered assignment is one the agent has never run or reported. */
  lemma AssignmentIsFresh(w: World, a: AgentId)
    requires Inv(w) && a in w.agents && AssignmentFor(w.ctrl.execs, a).Some?
    ensures FreshOffer(w.agents[a], AssignmentFor(w.ctrl.execs, a).value)
  {
    var i := AssignmentIsOpen(w.ctrl.execs, a);
    var x := w.ctrl.execs[i];
    FindMember(w.ctrl.execs, i);
    assert PermitOk(x, w.used, w.granted);
    UndecidedIsFresh(a, w.agents[a], KnowOf(w), x.id);
  }

  lemma AnswerPollKeeps(w: World, a: AgentId)
    requires Inv(w)
    ensures Inv(DoAnswerPoll(w, a))
  {
    if a in w.agents && w.agents[a].call.Some? && w.agents[a].call.value.Poll? {
      if AssignmentFor(w.ctrl.execs, a).Some? { AssignmentIsFresh(w, a); }
      AnswerKeeps(w, a, w.agents[a].call.value, PollAnswer(AssignmentFor(w.ctrl.execs, a)));
    }
  }

  /** Granting keeps the invariant, and the answer tells the truth about it. */
  lemma GrantKeeps(w: World, a: AgentId, id: ExecId, now: Time)
    requires Inv(w) && a in w.agents && Find(w.ctrl.execs, id).Some? && Find(w.ctrl.execs, id).value.agent == a
    ensures var m := GrantPermit(w.ctrl.execs, a, id, now);
      var u := Commits(w, m).(granted := if m.Commit? then w.granted[id := a] else w.granted);
      Inv(u) && Grows(KnowOf(w), KnowOf(u))
  {
    var x := Find(w.ctrl.execs, id).value;
    assert PermitOk(x, w.used, w.granted);
    EffectsKeepInvariant(x, a, now, NEW_REPORT, 0, "");
    if PermitEffect(x, a, now).Write? {
      UpdateKeeps(w, id, PermitEffect(x, a, now).x, w.granted[id := a], w.resolved);
    }
  }

  lemma PermitAnswerIsTrue(w: World, a: AgentId, id: ExecId, now: Time)
    requires ControllerOk(w) && Find(w.ctrl.execs, id).Some? && Find(w.ctrl.execs, id).value.agent == a && a != ""
    ensures var x := Find(w.ctrl.execs, id).value;
      var m := GrantPermit(w.ctrl.execs, a, id, now);
      && (PermitResponseFor(x).granted ==> m.Commit? || GrantedTo(KnowOf(w), a, id))
      && (!PermitResponseFor(x).granted ==> Decided(KnowOf(w), a, id))
  {
  }

  lemma PermitKeeps(w: World, a: AgentId, id: ExecId, now: Time)
    requires Inv(w)
    ensures Inv(DoPermit(w, a, id, now))
  {
    var found := Find(w.ctrl.execs, id);
    if Sent(w, a, Permit(id)) && found.Some? && found.value.agent == a {
      var m := GrantPermit(w.ctrl.execs, a, id, now);
      var u := Commits(w, m).(granted := if m.Commit? then w.granted[id := a] else w.granted);
      GrantKeeps(w, a, id, now);
      PermitAnswerIsTrue(w, a, id, now);
      AnswerKeeps(u, a, Permit(id), PermitAnswer(PermitResponseFor(found.value).granted));
    }
  }

  lemma SentResultIsDecided(w: World, a: AgentId, id: ExecId, report: ResultRequest)
    requires AgentsOk(w) && Sent(w, a, Result(id, report))
    ensures Decided(KnowOf(w), a, id)
    ensures ReportOk(w.agents[a], id, report) && ResultSent(w.agents[a], id)
  {
  }

  lemma CheckKeeps(w: World, a: AgentId, id: ExecId, report: ResultRequest)
    requires Inv(w)
    ensures Inv(DoCheck(w, a, id, report))
  {
    var u := DoCheck(w, a, id, report);
    if u != w {
      SentResultIsDecided(w, a, id, report);
      SilentController(w, u);
      AgentsFollow(w, u);
    }
  }

  /** A result that reaches the store lock ends at most a run that is its
    * sender's own and is over. */
  lemma ApplyKeeps(w: World, h: Handler, size: int, now: Time)
    requires Inv(w)
    ensures Inv(DoApply(w, h, size, now))
  {
    var found := Find(w.ctrl.execs, h.id);
    if h in w.handlers && found.Some? {
      var x := found.value;
      var m := SubmitResult(w.ctrl.execs, h.id, h.report, size, now);
      var u := Commits(w, m);
      SentResultIsDecided(w, h.agent, h.id, h.report);
      assert PermitOk(x, w.used, w.granted);
      EffectsKeepInvariant(x, h.agent, now, h.report, size, "");
      if !Terminal(x.status) {
        UpdateKeeps(w, h.id, ResultEffect(x, h.report, size, now).x, w.granted, w.resolved);
        AppliedIsClosed(w, h, size, now);
      }
      AnswerKeeps(u, h.agent, Result(h.id, h.report), ResultAnswer(true));
    }
  }

  lemma AppliedIsClosed(w: World, h: Handler, size: int, now: Time)
    requires StateOk(w.ctrl.execs) && Find(w.ctrl.execs, h.id).Some? && !Terminal(Find(w.ctrl.execs, h.id).value.status)
    requires Terminal(h.report.status)
    ensures Closed(Commits(w, SubmitResult(w.ctrl.execs, h.id, h.report, size, now)).ctrl.execs, h.id)
  {
    var i := FindIndex(w.ctrl.execs, h.id);
    var x := w.ctrl.execs[i];
    EffectsKeepInvariant(x, h.agent, now, h.report, size, "");
    var y := ResultEffect(x, h.report, size, now).x;
    UpdateAdvances(w.ctrl.execs, i, y);
    PruneView(w.ctrl.execs[i := y], w.maxHistory, w.ctrl, h.id);
  }

  lemma CancelKeeps(w: World, id: ExecId, now: Time)
    requires Inv(w)
    ensures Inv(Commits(w, Cancel(w.ctrl.execs, id, now)))
  {
    var effect := x => CancelEffect(x, now);
    var i := FindIndex(w.ctrl.execs, id);
    if i >= 0 && effect(w.ctrl.execs[i]).Write? {
      var x := w.ctrl.execs[i];
      EffectsKeepInvariant(x, "", now, NEW_REPORT, 0, "");
      assert PermitOk(x, w.used, w.granted) by { assert Find(w.ctrl.execs, id) == Some(x); }
      UpdateKeeps(w, id, CancelEffect(x, now).x, w.granted, w.resolved);
    }
  }

  lemma AttentionKeeps(w: World, a: AgentId, id: ExecId, message: string)
    requires Inv(w)
    ensures Inv(Commits(w, ReportAttention(w.ctrl.execs, a, id, message)))
  {
    var i := FindIndex(w.ctrl.execs, id);
    if i >= 0 && AttentionEffect(w.ctrl.execs[i], a, message).Write? {
      var x := w.ctrl.execs[i];
      EffectsKeepInvariant(x, a, 0, NEW_REPORT, 0, message);
      assert PermitOk(x, w.used, w.granted) by { assert Find(w.ctrl.execs, id) == Some(x); }
      UpdateKeeps(w, id, AttentionEffect(x, a, message).x, w.granted, w.resolved);
    }
  }

  lemma ResolveKeeps(w: World, id: ExecId, note: string, now: Time)
    requires Inv(w)
    ensures Inv(DoResolve(w, id, note, now))
  {
    var i := FindIndex(w.ctrl.execs, id);
    if i >= 0 && ResolveEffect(w.ctrl.execs[i], note, now).Write? {
      var x := w.ctrl.execs[i];
      EffectsKeepInvariant(x, "", now, NEW_REPORT, 0, note);
      assert PermitOk(x, w.used, w.granted) by { assert Find(w.ctrl.execs, id) == Some(x); }
      UpdateKeeps(w, id, ResolveEffect(x, note, now).x, w.granted, w.resolved + {id});
    }
  }

  lemma DeleteKeeps(w: World, id: ExecId)
    requires Inv(w)
    ensures Inv(Commits(w, Delete(w.ctrl.execs, id)))
  {
    if Delete(w.ctrl.execs, id).Commit? {
      var mid := Delete(w.ctrl.execs, id).execs;
      DeleteAdvances(w.ctrl.execs, id);
      forall e | Find(mid, e).Some?
        ensures PermitOk(Find(mid, e).value, w.used, w.granted)
      {
        assert PermitOk(Find(w.ctrl.execs, e).value, w.used, w.granted);
      }
      assert w.used + {} == w.used;
      MutationKeeps(w, mid, {}, w.granted, w.resolved);
    }
  }

  lemma HeartbeatKeeps(w: World, a: AgentId, id: ExecId)
    requires Inv(w)
    ensures Inv(DoHeartbeat(w, a, id))
  {
    if Sent(w, a, Heartbeat(id)) {
      var found := Find(w.ctrl.execs, id);
      var known := found.Some? && found.value.agent == a;
      if found.Some? { assert PermitOk(found.value, w.used, w.granted); }
      AnswerKeeps(w, a, Heartbeat(id), HeartbeatAnswer(known, known && Terminal(found.value.status)));
    }
  }

  lemma SameExecsNeutral(s: seq<Exec>)
    requires StateOk(s)
    ensures forall i :: 0 <= i < |s| ==> Neutral(s[i], s[i]) && NoNewSlot(s[i], s[i])
    ensures Advances(s, s, {})
  {
  }

  lemma SetMaxHistoryKeeps(w: World, n: int, saved: bool)
    requires Inv(w)
    ensures Inv(DoSetMaxHistory(w, n, saved))
  {
    var u := w.(maxHistory := n);
    SilentMove(w, u);
    SameExecsNeutral(w.ctrl.execs);
    NeutralKeeps(u, w.ctrl.execs);
  }

  lemma NeutralWithoutPruning(w: World, r: seq<Exec>, handlers: set<Handler>)
    requires ControllerOk(w) && Acceptable(w, r, {}, w.granted, w.resolved)
    requires forall e :: Closed(r, e) <==> Closed(w.ctrl.execs, e)
    ensures var u := w.(ctrl := w.ctrl.(execs := r), handlers := handlers);
      ControllerOk(u) && KnowOf(u) == KnowOf(w)
  {
  }

  /** Rewriting log offsets, without a save and so without pruning. */
  lemma OffsetsKeep(w: World, r: seq<Exec>, handlers: set<Handler>)
    requires Inv(w) && handlers <= w.handlers && OnlyOffsets(w.ctrl.execs, r)
    ensures Inv(w.(ctrl := w.ctrl.(execs := r), handlers := handlers))
  {
    OffsetsAreNeutral(w.ctrl.execs, r);
    NeutralIsAcceptable(w, r);
    NeutralWithoutPruning(w, r, handlers);
    ControllerMoves(w, w.(ctrl := w.ctrl.(execs := r), handlers := handlers));
  }

  ghost predicate OnlyOffsets(s: seq<Exec>, r: seq<Exec>) {
    |r| == |s| && forall i :: 0 <= i < |s| ==> r[i] == s[i].(logOffset := r[i].logOffset)
  }

  lemma ReloadIsOnlyOffsets(s: seq<Exec>, offsets: map<ExecId, int>)
    ensures OnlyOffsets(s, Reload(s, offsets))
  {
  }

  lemma RaisedIsOnlyOffsets(s: seq<Exec>, id: ExecId, offset: int)
    ensures OnlyOffsets(s, WithOffset(s, id, offset))
  {
  }

  lemma OffsetsAreNeutral(s: seq<Exec>, r: seq<Exec>)
    requires StateOk(s) && OnlyOffsets(s, r)
    ensures StateOk(r) && Advances(s, r, {})
    ensures forall i :: 0 <= i < |s| ==> Neutral(s[i], r[i])
    ensures forall e :: Closed(r, e) <==> Closed(s, e)
  {
    PointwiseAdvances(s, r);
    forall e
      ensures Closed(r, e) <==> Closed(s, e)
    {
      NeutralView(s, r, e);
    }
  }

  lemma RestartKeeps(w: World, offsets: map<ExecId, int>)
    requires Inv(w)
    ensures Inv(DoRestart(w, offsets))
  {
    ReloadIsOnlyOffsets(w.ctrl.execs, offsets);
    OffsetsKeep(w, Reload(w.ctrl.execs, offsets), {});
  }

  lemma RaiseOffsetKeeps(w: World, id: ExecId, offset: int)
    requires Inv(w)
    ensures Inv(DoRaiseOffset(w, id, offset))
  {
    RaisedIsOnlyOffsets(w.ctrl.execs, id, offset);
    OffsetsKeep(w, WithOffset(w.ctrl.execs, id, offset), w.handlers);
  }

  lemma TruncateKeeps(w: World, id: ExecId)
    requires Inv(w)
    ensures Inv(Commits(w, MarkLogTruncated(w.ctrl.execs, id)))
  {
    var i := FindIndex(w.ctrl.execs, id);
    if i >= 0 && TruncateEffect(w.ctrl.execs[i]).Write? {
      var x := w.ctrl.execs[i];
      assert PermitOk(x, w.used, w.granted) by { assert Find(w.ctrl.execs, id) == Some(x); }
      UpdateKeeps(w, id, TruncateEffect(x).x, w.granted, w.resolved);
    }
  }

  // ---- the agents' steps ------------------------------------------------------------------

  /** At the moment of a launch nobody has ever launched this execution. */
  lemma NeverLaunchedBefore(w: World, a: AgentId, i: nat)
    requires AgentsOk(w) && LaunchesOk(w) && a in w.agents && w.agents[a].pc.Intending? && i < |w.launches|
    ensures w.launches[i].id != w.agents[a].pc.id
  {
  }

  lemma LaunchesGrow(w: World, a: AgentId, h: Agent, more: seq<Launching>)
    requires LaunchesOk(w) && a in w.agents
    requires w.agents[a].leaders.Keys <= h.leaders.Keys
    requires more == [] ==> h.leaders.Keys == w.agents[a].leaders.Keys
    requires more != [] ==> |more| == 1 && more[0].agent == a && h.leaders.Keys == w.agents[a].leaders.Keys + {more[0].id}
    requires more != [] ==> forall i :: 0 <= i < |w.launches| ==> w.launches[i].id != more[0].id
    ensures LaunchesOk(w.(agents := w.agents[a := h], launches := w.launches + more))
  {
    var u := w.(agents := w.agents[a := h], launches := w.launches + more);
    forall i | 0 <= i < |u.launches|
      ensures u.launches[i].agent in u.agents && u.launches[i].id in u.agents[u.launches[i].agent].leaders
    {
      assert u.launches[i] == if i < |w.launches| then w.launches[i] else more[0];
    }
    forall i, j | 0 <= i < j < |u.launches|
      ensures u.launches[i].id != u.launches[j].id
    {
      assert u.launches[i] == w.launches[i];
    }
    forall b, e | b in u.agents && e in u.agents[b].leaders
      ensures Launching(b, e) in u.launches
    {
      if b == a && e !in w.agents[a].leaders {
        assert u.launches[|w.launches|] == Launching(b, e);
      } else {
        assert Launching(b, e) in w.launches;
      }
    }
  }

  lemma AgentStepKeeps(w: World, a: AgentId, s: AStep)
    requires Inv(w) && a in w.agents
    ensures Inv(DoAgent(w, a, s))
  {
    var g := w.agents[a];
    var h := Do(g, s);
    var u := DoAgent(w, a, s);
    StepHistory(g, s);
    InvStep(a, g, KnowOf(w), s);
    if g.pc.Intending? {
      forall i | 0 <= i < |w.launches|
        ensures w.launches[i].id != g.pc.id
      {
        NeverLaunchedBefore(w, a, i);
      }
    }
    LaunchesGrow(w, a, h, LaunchesOf(a, g, h));
    assert KnowOf(u) == KnowOf(w);
    AgentStepHistory(w, u, a);
  }

  lemma AgentStepHistory(w: World, u: World, a: AgentId)
    requires ControllerOk(w) && HandlersOk(w) && a in w.agents && a in u.agents
    requires u == w.(agents := w.agents[a := u.agents[a]], launches := u.launches)
    requires w.agents[a].sent <= u.agents[a].sent && w.agents[a].leaders.Keys <= u.agents[a].leaders.Keys
    ensures ControllerOk(u) && HandlersOk(u)
  {
  }

  lemma EnqueueKeeps(w: World, id: ExecId, work: Work, labels: seq<string>, now: Time)
    requires Inv(w)
    ensures Inv(DoEnqueue(w, id, work, labels, now))
  {
    if id !in w.used { AppendKeeps(w, NewExec(id, work, labels, now)); }
  }

  lemma ImportKeeps(w: World, x: Exec)
    requires Inv(w)
    ensures Inv(DoImport(w, x))
  {
    if x.id !in w.used && Imported(x) { AppendKeeps(w, x); }
  }

  lemma DoScheduleKeeps(w: World, fleet: Fleet, now: Time)
    requires Inv(w)
    ensures Inv(DoSchedule(w, fleet, now))
  {
    if "" !in fleet { ScheduleKeeps(w, fleet, now); }
  }

  lemma PollKeeps(w: World, a: AgentId, known: set<ExecId>)
    requires Inv(w)
    ensures Inv(DoPoll(w, a, known))
  {
    if Sent(w, a, Poll(known)) { ReconcileKeeps(w, a, known); }
  }

  lemma ReportKeeps(w: World, a: AgentId, id: ExecId, message: string)
    requires Inv(w)
    ensures Inv(DoAttention(w, a, id, message))
  {
    AttentionKeeps(w, a, id, message);
    AnswerKeeps(Commits(w, ReportAttention(w.ctrl.execs, a, id, message)), a, Attention(id), AttentionAnswer);
  }

  lemma RefuseKeeps(w: World, a: AgentId, id: ExecId, report: ResultRequest)
    requires Inv(w)
    ensures Inv(DoRefuse(w, a, id, report))
  {
    if Sent(w, a, Result(id, report)) { AnswerKeeps(w, a, Result(id, report), ResultAnswer(false)); }
  }

  lemma RequestKeeps(w: World, s: Step)
    requires Inv(w) && (s.ProcessPoll? || s.AnswerPoll? || s.AnswerHeartbeat? || s.ProcessPermit? || s.ProcessAttention?
                        || s.CheckResult? || s.RefuseResult? || s.ApplyResult?)
    ensures Inv(Next(w, s))
  {
    hide Inv, DoPoll, DoAnswerPoll, DoHeartbeat, DoPermit, DoAttention, DoCheck, DoRefuse, DoApply;
    match s
    case ProcessPoll(a, known) => PollKeeps(w, a, known);
    case AnswerPoll(a) => AnswerPollKeeps(w, a);
    case AnswerHeartbeat(a, id) => HeartbeatKeeps(w, a, id);
    case ProcessPermit(a, id, now) => PermitKeeps(w, a, id, now);
    case ProcessAttention(a, id, message) => ReportKeeps(w, a, id, message);
    case CheckResult(a, id, report) => CheckKeeps(w, a, id, report);
    case RefuseResult(a, id, report) => RefuseKeeps(w, a, id, report);
    case ApplyResult(h, size, now) => ApplyKeeps(w, h, size, now);
  }

  lemma OperatorStepKeeps(w: World, s: Step)
    requires Inv(w) && (s.Enqueue? || s.Import? || s.RunScheduler? || s.TruncateLog? || s.RaiseOffset? || s.RequestCancel?
                        || s.Resolve? || s.DeleteRun? || s.SetMaxHistory? || s.RestartController?)
    ensures Inv(Next(w, s))
  {
    hide Inv, DoEnqueue, DoImport, DoSchedule, DoRaiseOffset, DoResolve, DoSetMaxHistory, DoRestart, Commits;
    match s
    case Enqueue(id, work, labels, now) => EnqueueKeeps(w, id, work, labels, now);
    case Import(x) => ImportKeeps(w, x);
    case RunScheduler(fleet, now) => DoScheduleKeeps(w, fleet, now);
    case TruncateLog(id) => TruncateKeeps(w, id);
    case RaiseOffset(id, offset) => RaiseOffsetKeeps(w, id, offset);
    case RequestCancel(id, now) => CancelKeeps(w, id, now);
    case Resolve(id, note, now) => ResolveKeeps(w, id, note, now);
    case DeleteRun(id) => DeleteKeeps(w, id);
    case SetMaxHistory(n, saved) => SetMaxHistoryKeeps(w, n, saved);
    case RestartController(offsets) => RestartKeeps(w, offsets);
  }

  /** Every step of the system keeps the invariant. */
  lemma NextKeeps(w: World, s: Step)
    requires Inv(w)
    ensures Inv(Next(w, s))
  {
    hide Inv;
    if s.ByAgent? {
      hide DoAgent;
      AgentKeeps(w, s.a, s.step);
    } else if s.ProcessPoll? || s.AnswerPoll? || s.AnswerHeartbeat? || s.ProcessPermit? || s.ProcessAttention?
              || s.CheckResult? || s.RefuseResult? || s.ApplyResult? {
      hide Next;
      RequestKeeps(w, s);
    } else {
      hide Next;
      OperatorStepKeeps(w, s);
    }
  }

  lemma AgentKeeps(w: World, a: AgentId, s: AStep)
    requires Inv(w)
    ensures Inv(DoAgent(w, a, s))
  {
    if a in w.agents { AgentStepKeeps(w, a, s); }
  }
}

/** How one step may change the controller's records, and so what any later
  * state of a run still respects of an earlier one. */
module ProtocolHistory {
  import opened Model
  import opened History
  import opened Transitions
  import opened Scheduler
  import opened AgentMachine
  import opened AgentInvariant
  import opened Protocol
  import opened ProtocolInvariant

  // ---- one step, as a mutation followed by pruning -----------------------------------

  ghost predicate MovesBy(s: seq<Exec>, mid: seq<Exec>, after: seq<Exec>, newIds: set<ExecId>) {
    StateOk(mid) && Advances(s, mid, newIds) && Prunes(mid, after)
  }

  lemma CommitMoves(st: State, mid: seq<Exec>, newIds: set<ExecId>, maxHistory: int)
    requires StateOk(mid) && Advances(st.execs, mid, newIds)
    ensures MovesBy(st.execs, mid, Mutate(st, Commit(mid), maxHistory).execs, newIds)
  {
    DropAdvances(mid, Excess(mid, Done, NormalizeMaxHistory(maxHistory)));
  }

  lemma StayMoves(s: seq<Exec>)
    requires StateOk(s)
    ensures MovesBy(s, s, s, {})
  {
  }

  /** A step that rewrites at most the execution it looked up. */
  lemma EffectMoves(st: State, id: ExecId, effect: Exec -> Effect, maxHistory: int, e: ExecId) returns (mid: seq<Exec>)
    requires StateOk(st.execs) && forall x :: ExecOk(x) ==> Kept(x, effect(x))
    ensures MovesBy(st.execs, mid, Mutate(st, ApplyAt(st.execs, id, effect), maxHistory).execs, {})
    ensures e != id ==> Find(mid, e) == Find(st.execs, e)
    ensures Find(st.execs, id).Some? ==>
              Find(mid, id) == Some(if effect(Find(st.execs, id).value).Write? then effect(Find(st.execs, id).value).x else Find(st.execs, id).value)
  {
    var i := FindIndex(st.execs, id);
    if i >= 0 && effect(st.execs[i]).Write? {
      var y := effect(st.execs[i]).x;
      assert Kept(st.execs[i], effect(st.execs[i]));
      mid := st.execs[i := y];
      UpdateAdvances(st.execs, i, y);
      CommitMoves(st, mid, {}, maxHistory);
    } else {
      mid := st.execs;
      StayMoves(mid);
    }
  }

  /** A step that rewrites executions without granting or ending any. */
  lemma NeutralMoves(st: State, mid: seq<Exec>, maxHistory: int, e: ExecId)
    requires StateOk(mid) && Advances(st.execs, mid, {})
    requires |mid| == |st.execs| && forall i :: 0 <= i < |mid| ==> Neutral(st.execs[i], mid[i])
    ensures MovesBy(st.execs, mid, Mutate(st, Commit(mid), maxHistory).execs, {})
    ensures Closed(mid, e) <==> Closed(st.execs, e)
  {
    CommitMoves(st, mid, {}, maxHistory);
    NeutralView(st.execs, mid, e);
  }

  ghost predicate Occupying(execs: seq<Exec>, e: ExecId) {
    Find(execs, e).Some? && var s := Find(execs, e).value.status; s.Running? || s.Canceling?
  }

  lemma OccupyingIsOpen(execs: seq<Exec>, e: ExecId)
    requires Occupying(execs, e)
    ensures !Closed(execs, e)
  {
  }

  /** The steps that may end a permitted execution. */
  predicate Ends(s: Step, e: ExecId) {
    (s.ApplyResult? && s.h.id == e) || (s.Resolve? && s.id == e)
  }

  /** What a step from w to u does to the records: mid is the list between its
    * mutation and the pruning. It leaves a permitted execution open unless it is
    * one of the steps that end it. */
  ghost predicate MovedTo(w: World, u: World, mid: seq<Exec>, newIds: set<ExecId>, e: ExecId, ends: bool) {
    && MovesBy(w.ctrl.execs, mid, u.ctrl.execs, newIds)
    && newIds !! w.used && u.used == w.used + newIds
    && (Occupying(w.ctrl.execs, e) && !ends ==> !Closed(mid, e))
  }

  ghost predicate Moved(w: World, s: Step, mid: seq<Exec>, newIds: set<ExecId>, e: ExecId) {
    MovedTo(w, Next(w, s), mid, newIds, e, Ends(s, e))
  }

  /** A step that leaves the records alone. */
  lemma SilentMoves(w: World, u: World, e: ExecId, ends: bool)
    requires StateOk(w.ctrl.execs) && u.ctrl.execs == w.ctrl.execs && u.used == w.used
    ensures MovedTo(w, u, w.ctrl.execs, {}, e, ends)
  {
    StayMoves(w.ctrl.execs);
  }

  /** A mutation that rewrites one execution; unless it is e itself that may be
    * ended, running executions stay open. */
  lemma MutationEffectMoves(w: World, id: ExecId, effect: Exec -> Effect, u: World, e: ExecId, ends: bool) returns (mid: seq<Exec>)
    requires StateOk(w.ctrl.execs) && forall x :: ExecOk(x) ==> Kept(x, effect(x))
    requires u.ctrl == Mutate(w.ctrl, ApplyAt(w.ctrl.execs, id, effect), w.maxHistory) && u.used == w.used
    requires (ends && e == id) || forall x :: effect(x).Write? && (x.status.Running? || x.status.Canceling?) ==> !Terminal(effect(x).x.status)
    ensures MovedTo(w, u, mid, {}, e, ends)
  {
    mid := EffectMoves(w.ctrl, id, effect, w.maxHistory, e);
  }

  lemma PermitMoves(w: World, a: AgentId, id: ExecId, now: Time, e: ExecId) returns (mid: seq<Exec>)
    requires StateOk(w.ctrl.execs)
    ensures MovedTo(w, DoPermit(w, a, id, now), mid, {}, e, false)
  {
    forall x | ExecOk(x) ensures Kept(x, PermitEffect(x, a, now)) { EffectsKeepInvariant(x, a, now, NEW_REPORT, 0, ""); }
    if Sent(w, a, Permit(id)) && Find(w.ctrl.execs, id).Some? && Find(w.ctrl.execs, id).value.agent == a {
      hide MovedTo;
      mid := MutationEffectMoves(w, id, x => PermitEffect(x, a, now), DoPermit(w, a, id, now), e, false);
    } else {
      mid := w.ctrl.execs;
      SilentMoves(w, w, e, false);
    }
  }

  lemma ApplyMoves(w: World, h: Handler, size: int, now: Time, e: ExecId) returns (mid: seq<Exec>)
    requires StateOk(w.ctrl.execs) && AgentsOk(w) && HandlersOk(w)
    ensures MovedTo(w, DoApply(w, h, size, now), mid, {}, e, e == h.id)
  {
    if h in w.handlers && Find(w.ctrl.execs, h.id).Some? {
      SentResultIsDecided(w, h.agent, h.id, h.report);
      forall x | ExecOk(x) ensures Kept(x, ResultEffect(x, h.report, size, now)) { EffectsKeepInvariant(x, "", now, h.report, size, ""); }
      mid := EffectMoves(w.ctrl, h.id, x => ResultEffect(x, h.report, size, now), w.maxHistory, e);
    } else {
      mid := w.ctrl.execs;
      SilentMoves(w, w, e, e == h.id);
    }
  }

  lemma AttentionMoves(w: World, a: AgentId, id: ExecId, message: string, e: ExecId) returns (mid: seq<Exec>)
    requires StateOk(w.ctrl.execs)
    ensures MovedTo(w, DoAttention(w, a, id, message), mid, {}, e, false)
  {
    forall x | ExecOk(x) ensures Kept(x, AttentionEffect(x, a, message)) { EffectsKeepInvariant(x, a, 0, NEW_REPORT, 0, message); }
    if Sent(w, a, Attention(id)) {
      hide MovedTo;
      mid := MutationEffectMoves(w, id, x => AttentionEffect(x, a, message), DoAttention(w, a, id, message), e, false);
    } else {
      mid := w.ctrl.execs;
      SilentMoves(w, w, e, false);
    }
  }

  lemma CancelMoves(w: World, id: ExecId, now: Time, e: ExecId) returns (mid: seq<Exec>)
    requires StateOk(w.ctrl.execs)
    ensures MovedTo(w, Commits(w, Cancel(w.ctrl.execs, id, now)), mid, {}, e, false)
  {
    forall x | ExecOk(x) ensures Kept(x, CancelEffect(x, now)) { EffectsKeepInvariant(x, "", now, NEW_REPORT, 0, ""); }
    hide MovedTo;
    mid := MutationEffectMoves(w, id, x => CancelEffect(x, now), Commits(w, Cancel(w.ctrl.execs, id, now)), e, false);
  }

  lemma TruncateMoves(w: World, id: ExecId, e: ExecId) returns (mid: seq<Exec>)
    requires StateOk(w.ctrl.execs)
    ensures MovedTo(w, Commits(w, MarkLogTruncated(w.ctrl.execs, id)), mid, {}, e, false)
  {
    hide MovedTo;
    mid := MutationEffectMoves(w, id, TruncateEffect, Commits(w, MarkLogTruncated(w.ctrl.execs, id)), e, false);
  }

  lemma ResolveMoves(w: World, id: ExecId, note: string, now: Time, e: ExecId) returns (mid: seq<Exec>)
    requires StateOk(w.ctrl.execs)
    ensures MovedTo(w, DoResolve(w, id, note, now), mid, {}, e, e == id)
  {
    forall x | ExecOk(x) ensures Kept(x, ResolveEffect(x, note, now)) { EffectsKeepInvariant(x, "", now, NEW_REPORT, 0, note); }
    mid := EffectMoves(w.ctrl, id, x => ResolveEffect(x, note, now), w.maxHistory, e);
  }

  lemma FairOutcomeMoves(s: seq<Exec>, last: map<AgentId, Time>, fleet: Fleet, now: Time)
    requires StateOk(s) && "" !in fleet
    ensures var r := ScheduledExecs(s, last, fleet, now);
      StateOk(r) && Advances(s, r, {}) && |r| == |s| && forall i :: 0 <= i < |r| ==> Neutral(s[i], r[i])
  {
    var r := ScheduledExecs(s, last, fleet, now);
    hide ScheduledExecs;
    ScheduleIsTheFairOutcome(s, last, fleet, now, r);
    FairOutcomeKeepsInvariant(s, fleet, last, now, r);
    FairOutcomeIsNeutral(s, fleet, last, now, r);
  }

  lemma ScheduleMutates(st: State, fleet: Fleet, now: Time, maxHistory: int)
    ensures Schedule(st, fleet, now, maxHistory) ==
            if AssignsNothing(PlanOf(st.execs, st.last, fleet)) then st
            else Mutate(st.(last := ScheduledLast(st.execs, st.last, fleet, now)), Commit(ScheduledExecs(st.execs, st.last, fleet, now)), maxHistory)
  {
  }

  lemma ScheduleMoves(w: World, fleet: Fleet, now: Time, e: ExecId) returns (mid: seq<Exec>)
    requires StateOk(w.ctrl.execs)
    ensures MovedTo(w, DoSchedule(w, fleet, now), mid, {}, e, false)
  {
    hide Schedule, ScheduledExecs, ScheduledLast, PlanOf, AssignsNothing, Neutral, Mutate, Closed, Occupying;
    var st := w.ctrl;
    if Occupying(st.execs, e) { OccupyingIsOpen(st.execs, e); }
    ScheduleMutates(st, fleet, now, w.maxHistory);
    if "" !in fleet && !AssignsNothing(PlanOf(st.execs, st.last, fleet)) {
      mid := ScheduledExecs(st.execs, st.last, fleet, now);
      FairOutcomeMoves(st.execs, st.last, fleet, now);
      NeutralMoves(st.(last := ScheduledLast(st.execs, st.last, fleet, now)), mid, w.maxHistory, e);
    } else {
      mid := st.execs;
      SilentMoves(w, w, e, false);
    }
  }

  lemma PollMoves(w: World, a: AgentId, known: set<ExecId>, e: ExecId) returns (mid: seq<Exec>)
    requires StateOk(w.ctrl.execs) && "" !in w.agents
    ensures MovedTo(w, DoPoll(w, a, known), mid, {}, e, false)
  {
    mid := ReconcileAll(w.ctrl.execs, a, known);
    if Sent(w, a, Poll(known)) && mid != w.ctrl.execs {
      forall i | 0 <= i < |mid|
        ensures Neutral(w.ctrl.execs[i], mid[i]) && NoNewSlot(w.ctrl.execs[i], mid[i])
      {
        ReconcileKeepsInvariant(w.ctrl.execs[i], a, known);
      }
      PointwiseAdvances(w.ctrl.execs, mid);
      NeutralMoves(w.ctrl, mid, w.maxHistory, e);
    } else {
      mid := w.ctrl.execs;
      SilentMoves(w, w, e, false);
    }
  }

  lemma AppendMoves(w: World, x: Exec, u: World, e: ExecId)
    requires ControllerOk(w) && x.id !in w.used && ExecOk(x) && !x.permitGranted
    requires x.status.Queued? || (Terminal(x.status) && x.origin.Some?)
    requires u == Commits(w, Commit(w.ctrl.execs + [x])).(used := w.used + {x.id})
    ensures MovedTo(w, u, w.ctrl.execs + [x], {x.id}, e, false)
  {
    AppendIsAcceptable(w, x);
    CommitMoves(w.ctrl, w.ctrl.execs + [x], {x.id}, w.maxHistory);
    FindAppend(w.ctrl.execs, [x], e);
  }

  lemma AddMoves(w: World, s: Step, e: ExecId) returns (mid: seq<Exec>, newIds: set<ExecId>)
    requires ControllerOk(w) && (s.Enqueue? || s.Import?)
    ensures Moved(w, s, mid, newIds, e)
  {
    hide MovedTo;
    mid, newIds := w.ctrl.execs, {};
    var x := if s.Enqueue? then NewExec(s.id, s.work, s.labels, s.now) else s.x;
    if x.id !in w.used && (s.Enqueue? || Imported(x)) {
      mid, newIds := w.ctrl.execs + [x], {x.id};
      AppendMoves(w, x, Next(w, s), e);
    } else {
      SilentMoves(w, w, e, false);
    }
  }

  lemma OffsetMoves(w: World, u: World, e: ExecId, ends: bool)
    requires StateOk(w.ctrl.execs) && OnlyOffsets(w.ctrl.execs, u.ctrl.execs) && u.used == w.used
    ensures MovedTo(w, u, u.ctrl.execs, {}, e, ends)
  {
    OffsetsAreNeutral(w.ctrl.execs, u.ctrl.execs);
  }

  lemma DeleteMoves(w: World, id: ExecId, e: ExecId) returns (mid: seq<Exec>)
    requires StateOk(w.ctrl.execs)
    ensures MovedTo(w, Commits(w, Delete(w.ctrl.execs, id)), mid, {}, e, false)
  {
    if Delete(w.ctrl.execs, id).Commit? {
      mid := Delete(w.ctrl.execs, id).execs;
      DeleteAdvances(w.ctrl.execs, id);
      CommitMoves(w.ctrl, mid, {}, w.maxHistory);
    } else {
      mid := w.ctrl.execs;
      SilentMoves(w, w, e, false);
    }
  }

  lemma SetMaxHistoryMoves(w: World, n: int, saved: bool, e: ExecId)
    requires StateOk(w.ctrl.execs)
    ensures MovedTo(w, DoSetMaxHistory(w, n, saved), w.ctrl.execs, {}, e, false)
  {
    StayMoves(w.ctrl.execs);
    CommitMoves(w.ctrl, w.ctrl.execs, {}, n);
  }

  lemma RequestMoves(w: World, s: Step, e: ExecId) returns (mid: seq<Exec>)
    requires StateOk(w.ctrl.execs) && AgentsOk(w) && HandlersOk(w)
    requires s.ProcessPoll? || s.ProcessPermit? || s.ApplyResult? || s.ProcessAttention?
    ensures Moved(w, s, mid, {}, e)
  {
    hide MovedTo, DoPoll, DoPermit, DoApply, DoAttention, HandlersOk;
    match s
    case ProcessPoll(a, known) => mid := PollMoves(w, a, known, e);
    case ProcessPermit(a, id, now) => mid := PermitMoves(w, a, id, now, e);
    case ApplyResult(h, size, now) => mid := ApplyMoves(w, h, size, now, e);
    case ProcessAttention(a, id, message) => mid := AttentionMoves(w, a, id, message, e);
  }

  lemma OperatorMoves(w: World, s: Step, e: ExecId) returns (mid: seq<Exec>)
    requires StateOk(w.ctrl.execs)
    requires s.RunScheduler? || s.TruncateLog? || s.RequestCancel? || s.Resolve? || s.DeleteRun? || s.SetMaxHistory?
    ensures Moved(w, s, mid, {}, e)
  {
    hide MovedTo, DoSchedule, DoResolve, DoSetMaxHistory, Commits;
    match s
    case RunScheduler(fleet, now) => mid := ScheduleMoves(w, fleet, now, e);
    case TruncateLog(id) => mid := TruncateMoves(w, id, e);
    case RequestCancel(id, now) => mid := CancelMoves(w, id, now, e);
    case Resolve(id, note, now) => mid := ResolveMoves(w, id, note, now, e);
    case DeleteRun(id) => mid := DeleteMoves(w, id, e);
    case SetMaxHistory(n, saved) =>
      mid := w.ctrl.execs;
      SetMaxHistoryMoves(w, n, saved, e);
  }

  /** Steps that rewrite log offsets in memory, or no record at all. */
  lemma RestAreSilent(w: World, s: Step)
    requires s.ByAgent? || s.AnswerPoll? || s.CheckResult? || s.RefuseResult? || s.AnswerHeartbeat?
    ensures Next(w, s).ctrl.execs == w.ctrl.execs && Next(w, s).used == w.used
  {
    hide Do, LaunchesOf, AssignmentFor, Find;
  }

  lemma OffsetsOnly(w: World, s: Step)
    requires s.RaiseOffset? || s.RestartController?
    ensures OnlyOffsets(w.ctrl.execs, Next(w, s).ctrl.execs) && Next(w, s).used == w.used
  {
    hide OnlyOffsets, WithOffset, Reload;
    match s
    case RaiseOffset(id, offset) => RaisedIsOnlyOffsets(w.ctrl.execs, id, offset);
    case RestartController(offsets) => ReloadIsOnlyOffsets(w.ctrl.execs, offsets);
  }

  lemma RestMoves(w: World, s: Step, e: ExecId) returns (mid: seq<Exec>)
    requires StateOk(w.ctrl.execs)
    requires s.RaiseOffset? || s.RestartController? || s.ByAgent? || s.AnswerPoll? || s.CheckResult? || s.RefuseResult? || s.AnswerHeartbeat?
    ensures Moved(w, s, mid, {}, e)
  {
    hide MovedTo, StateOk, Next, OnlyOffsets;
    mid := Next(w, s).ctrl.execs;
    if s.RaiseOffset? || s.RestartController? {
      OffsetsOnly(w, s);
      OffsetMoves(w, Next(w, s), e, Ends(s, e));
    } else {
      RestAreSilent(w, s);
      SilentMoves(w, Next(w, s), e, Ends(s, e));
    }
  }

  /** Every step is a mutation of this kind followed by pruning. */
  lemma StepMoves(w: World, s: Step, e: ExecId) returns (mid: seq<Exec>, newIds: set<ExecId>)
    requires Inv(w)
    ensures Moved(w, s, mid, newIds, e)
  {
    newIds := {};
    if s.ProcessPoll? || s.ProcessPermit? || s.ApplyResult? || s.ProcessAttention? {
      hide Moved;
      mid := RequestMoves(w, s, e);
    } else if s.RunScheduler? || s.TruncateLog? || s.RequestCancel? || s.Resolve? || s.DeleteRun? || s.SetMaxHistory? {
      hide Moved;
      mid := OperatorMoves(w, s, e);
    } else if s.Enqueue? || s.Import? {
      hide Moved;
      mid, newIds := AddMoves(w, s, e);
    } else {
      hide Moved;
      mid := RestMoves(w, s, e);
    }
  }

  // ---- what later states respect ------------------------------------------------------

  /** Two records of the same execution at different times. */
  ghost predicate Continues(x: Exec, y: Exec) {
    && y.id == x.id && y.work == x.work && y.labels == x.labels && y.origin == x.origin && y.requestedAt == x.requestedAt
    && (x.permitGranted ==> y.permitGranted && y.agent == x.agent)
    && (Terminal(x.status) ==> SameVerdict(x, y))
  }

  /** What is known about execution e at u, given what was known at w. */
  ghost predicate LaterOf(w: World, u: World, e: ExecId) {
    && (e in w.granted ==> e in u.granted && u.granted[e] == w.granted[e])
    && (e in w.used && e !in w.granted && Closed(w.ctrl.execs, e) ==> e !in u.granted)
    && (Find(w.ctrl.execs, e).Some? && Find(u.ctrl.execs, e).Some? ==> Continues(Find(w.ctrl.execs, e).value, Find(u.ctrl.execs, e).value))
    && (e in w.used && Find(w.ctrl.execs, e).None? ==> Find(u.ctrl.execs, e).None?)
    && (e in w.used && Closed(w.ctrl.execs, e) ==> Closed(u.ctrl.execs, e))
  }

  ghost predicate Later(w: World, u: World, e: ExecId) {
    w.used <= u.used && w.launches <= u.launches && LaterOf(w, u, e)
  }

  lemma MovesContinue(w: World, u: World, mid: seq<Exec>, newIds: set<ExecId>, e: ExecId)
    requires MovesBy(w.ctrl.execs, mid, u.ctrl.execs, newIds) && newIds !! w.used
    ensures Find(w.ctrl.execs, e).Some? && Find(u.ctrl.execs, e).Some? ==> Continues(Find(w.ctrl.execs, e).value, Find(u.ctrl.execs, e).value)
    ensures e in w.used && Find(w.ctrl.execs, e).None? ==> Find(u.ctrl.execs, e).None?
    ensures e in w.used && Closed(w.ctrl.execs, e) ==> Closed(u.ctrl.execs, e)
    ensures !Closed(mid, e) ==> !Closed(u.ctrl.execs, e)
  {
  }

  /** Permits are granted to open executions only, and never taken back. */
  lemma PermitsContinue(w: World, s: Step, e: ExecId)
    requires ControllerOk(w)
    ensures e in w.granted ==> e in Next(w, s).granted && Next(w, s).granted[e] == w.granted[e]
    ensures e in w.used && e !in w.granted && Closed(w.ctrl.execs, e) ==> e !in Next(w, s).granted
  {
    if s.ProcessPermit? {
      GrantContinues(w, s.a, s.id, s.now, e);
    } else {
      OthersGrantNothing(w, s);
    }
  }

  lemma OthersGrantNothing(w: World, s: Step)
    requires !s.ProcessPermit?
    ensures Next(w, s).granted == w.granted
  {
    hide Do, Mutate, Schedule, ApplyAt, Delete, Reconcile, Find, AssignmentFor, LaunchesOf;
  }

  lemma GrantContinues(w: World, a: AgentId, id: ExecId, now: Time, e: ExecId)
    requires StateOk(w.ctrl.execs) && PermitsOk(w.ctrl.execs, w.used, w.granted)
    ensures var granted := DoPermit(w, a, id, now).granted;
      && (e in w.granted ==> e in granted && granted[e] == w.granted[e])
      && (e !in w.granted && Closed(w.ctrl.execs, e) ==> e !in granted)
  {
  }

  lemma LaunchesContinue(w: World, s: Step)
    ensures w.launches <= Next(w, s).launches
  {
    hide Do, Mutate, Schedule, ApplyAt, Delete, Reconcile, Find, AssignmentFor, LaunchesOf;
  }

  lemma StepIsLater(w: World, s: Step, e: ExecId)
    requires Inv(w)
    ensures Later(w, Next(w, s), e)
  {
    var mid, newIds := StepMoves(w, s, e);
    var u := Next(w, s);
    LaunchesContinue(w, s);
    PermitsContinue(w, s, e);
    MovesContinue(w, u, mid, newIds, e);
  }

  lemma LaterTransitive(w: World, u: World, v: World, e: ExecId)
    requires ControllerOk(w) && Later(w, u, e) && Later(u, v, e)
    ensures Later(w, v, e)
  {
  }
}

/** The mutations of the controller as functions on its state
  * (ctrlagentops.go, ctrlqueue.go, ctrlstore.go), the invariant they keep, and
  * how each of them may change one execution. */
module Transitions {
  import opened Model
  import opened History

  /** What a mutation callback does to the execution it looked up. */
  datatype Effect = Write(x: Exec) | Keep | Refuse(err: Error)

  /** What a mutation callback does to the list of executions. Unchanged is
    * errNoStateChange. */
  datatype Mutation = Commit(execs: seq<Exec>) | Unchanged | Rejected(err: Error)

  datatype PermitResponse = PermitResponse(granted: bool, alreadyGranted: bool)

  datatype ResultRequest = ResultRequest(status: Status, exitCode: int, error: Text, failureReason: string, logLength: int)

  // ---- effects on one execution ---------------------------------------------

  function PermitResponseFor(x: Exec): PermitResponse {
    if x.permitRevoked || x.cancelRequested then PermitResponse(false, false)
    else if x.status.Assigned? then PermitResponse(true, false)
    else if x.status.Running? then PermitResponse(true, true)
    else PermitResponse(false, false)
  }

  function PermitEffect(x: Exec, agent: AgentId, now: Time): Effect {
    if x.agent != agent then Refuse(NotExecutionOwner)
    else if x.permitRevoked || x.cancelRequested then Keep
    else if x.status.Assigned? then Write(x.(permitGranted := true, status := Running, startedAt := now))
    else Keep
  }

  const FAILURE_REASON_AGENT := "agent"

  function FirstCancelTime(x: Exec, now: Time): Time {
    if x.canceledAt == ZERO_TIME then now else x.canceledAt
  }

  function CancelEffect(x: Exec, now: Time): Effect {
    match x.status
    case Queued =>
      Write(x.(status := Canceled, cancelRequested := true, canceledAt := now, finishedAt := now,
               logComplete := true, error := CanceledBeforeAssignment))
    case Assigned =>
      var y := x.(cancelRequested := true, canceledAt := FirstCancelTime(x, now));
      if !x.permitGranted then
        Write(y.(permitRevoked := true, status := Canceled, finishedAt := now, logComplete := true,
                 error := CanceledBeforePermit))
      else Write(y.(status := Canceling))
    case Running =>
      Write(x.(cancelRequested := true, canceledAt := FirstCancelTime(x, now), status := Canceling))
    case Canceling =>
      Write(x.(cancelRequested := true, canceledAt := FirstCancelTime(x, now), status := Canceling))
    case _ => Refuse(ExecutionDone)
  }

  /** The status SubmitResult records: a requested cancellation turns anything
    * but a success into CANCELED. */
  function FinalStatus(x: Exec, status: Status): Status {
    if x.cancelRequested && status != Success then Canceled else status
  }

  function ResultEffect(x: Exec, req: ResultRequest, size: int, now: Time): Effect {
    if Terminal(x.status) then Keep
    else
      var final := FinalStatus(x, req.status);
      Write(x.(status := final, exitCode := req.exitCode, error := req.error, failureReason := req.failureReason,
               finishedAt := now, logOffset := size, logComplete := true, needsAttention := false, attention := NO_TEXT,
               canceledAt := if final.Canceled? && x.canceledAt == ZERO_TIME then now else x.canceledAt))
  }

  function AttentionEffect(x: Exec, agent: AgentId, message: string): Effect {
    if x.agent != agent then Refuse(NotExecutionOwner)
    else if Terminal(x.status) then Keep
    else Write(x.(needsAttention := true, attention := Said(message)))
  }

  function ResolveEffect(x: Exec, note: string, now: Time): Effect {
    if !x.needsAttention then Refuse(NotBlockedOnAttention)
    else
      var y := x.(needsAttention := false, attention := NO_TEXT);
      if Terminal(x.status) then Write(y)
      else Write(y.(status := Aborted, finishedAt := now, logComplete := true, failureReason := FAILURE_REASON_AGENT,
                    error := if note == "" then OperatorResolved else Said(note)))
  }

  /** markLogTruncated */
  function TruncateEffect(x: Exec): Effect {
    if x.logTruncated then Keep else Write(x.(logTruncated := true))
  }

  /** Reconcile's loop body for one execution. */
  function ReconcileOne(x: Exec, agent: AgentId, known: set<ExecId>): Exec {
    if x.agent != agent || Terminal(x.status) || x.id in known then x
    else if !x.permitGranted then x.(status := Queued, agent := "", assignedAt := ZERO_TIME, permitRevoked := false)
    else if !x.needsAttention then x.(needsAttention := true, attention := LostTrack(agent))
    else x
  }

  // ---- mutations of the list --------------------------------------------------

  function ApplyAt(execs: seq<Exec>, id: ExecId, effect: Exec -> Effect): Mutation {
    var i := FindIndex(execs, id);
    if i < 0 then Rejected(ExecutionNotFound)
    else
      match effect(execs[i])
      case Write(x) => Commit(execs[i := x])
      case Keep => Unchanged
      case Refuse(e) => Rejected(e)
  }

  function GrantPermit(execs: seq<Exec>, agent: AgentId, id: ExecId, now: Time): Mutation {
    ApplyAt(execs, id, x => PermitEffect(x, agent, now))
  }

  function Cancel(execs: seq<Exec>, id: ExecId, now: Time): Mutation {
    ApplyAt(execs, id, x => CancelEffect(x, now))
  }

  function SubmitResult(execs: seq<Exec>, id: ExecId, req: ResultRequest, size: int, now: Time): Mutation {
    ApplyAt(execs, id, x => ResultEffect(x, req, size, now))
  }

  function ReportAttention(execs: seq<Exec>, agent: AgentId, id: ExecId, message: string): Mutation {
    ApplyAt(execs, id, x => AttentionEffect(x, agent, message))
  }

  function ResolveAttention(execs: seq<Exec>, id: ExecId, note: string, now: Time): Mutation {
    ApplyAt(execs, id, x => ResolveEffect(x, note, now))
  }

  function MarkLogTruncated(execs: seq<Exec>, id: ExecId): Mutation {
    ApplyAt(execs, id, TruncateEffect)
  }

  function ReconcileAll(execs: seq<Exec>, agent: AgentId, known: set<ExecId>): (r: seq<Exec>)
    ensures |r| == |execs|
    ensures forall i :: 0 <= i < |r| ==> r[i] == ReconcileOne(execs[i], agent, known)
  {
    seq(|execs|, i requires 0 <= i < |execs| => ReconcileOne(execs[i], agent, known))
  }

  function Reconcile(execs: seq<Exec>, agent: AgentId, known: set<ExecId>): Mutation {
    var r := ReconcileAll(execs, agent, known);
    if r == execs then Unchanged else Commit(r)
  }

  /** DeleteExecution drops the first match when it is terminal. */
  function Delete(execs: seq<Exec>, id: ExecId): Mutation {
    var i := FindIndex(execs, id);
    if i < 0 then Rejected(ExecutionNotFound)
    else if !Terminal(execs[i].status) then Rejected(ExecutionActive)
    else Commit(execs[..i] + execs[i + 1..])
  }

  function NewExec(id: ExecId, work: Work, labels: seq<string>, now: Time): Exec {
    Exec(id, work, labels, None, now, Queued, "", false, false, false, false, NO_TEXT, 0, false, false, -1, NO_TEXT, "",
         ZERO_TIME, ZERO_TIME, ZERO_TIME, ZERO_TIME)
  }

  /** load() re-reads the log offsets from the log files. */
  function Reload(execs: seq<Exec>, offsets: map<ExecId, int>): (r: seq<Exec>)
    ensures |r| == |execs|
  {
    seq(|execs|, i requires 0 <= i < |execs| =>
      if execs[i].id in offsets then execs[i].(logOffset := offsets[execs[i].id]) else execs[i])
  }

  /** SetLogOffset: in memory only, and never backwards. */
  function WithOffset(execs: seq<Exec>, id: ExecId, offset: int): (r: seq<Exec>)
    ensures |r| == |execs|
  {
    var i := FindIndex(execs, id);
    if i >= 0 && offset > execs[i].logOffset then execs[i := execs[i].(logOffset := offset)] else execs
  }

  const Done: Exec -> bool := (x: Exec) => Terminal(x.status)

  /** mutateLocked after a successful callback: bump the sequence and prune. */
  function Finish(st: State, execs: seq<Exec>, maxHistory: int): State {
    st.(sequence := st.sequence + 1, execs := Prune(execs, Done, NormalizeMaxHistory(maxHistory)))
  }

  /** The committed state of a mutation; a refused or empty one leaves it alone. */
  function Mutate(st: State, m: Mutation, maxHistory: int): State {
    if m.Commit? then Finish(st, m.execs, maxHistory) else st
  }

  // ---- the invariant of the controller ----------------------------------------

  ghost predicate ExecOk(x: Exec) {
    && (Terminal(x.status) <==> x.logComplete)
    && !(x.permitGranted && x.permitRevoked)
    && (x.permitGranted ==> x.agent != "" && !x.status.Queued? && !x.status.Assigned?)
    && (x.permitRevoked ==> x.status.Canceled?)
    && (x.origin.Some? ==> Terminal(x.status) && !x.permitGranted)
    && (!Terminal(x.status) ==>
          && (x.status.Queued? <==> x.agent == "")
          && (x.permitGranted <==> x.status.Running? || x.status.Canceling?)
          && (x.cancelRequested <==> x.status.Canceling?))
  }

  ghost predicate SlotExclusive(execs: seq<Exec>) {
    forall i, j :: 0 <= i < j < |execs| && Active(execs[i].status) && Active(execs[j].status) ==>
      execs[i].agent != execs[j].agent
  }

  ghost predicate StateOk(execs: seq<Exec>) {
    && UniqueIds(execs)
    && (forall i :: 0 <= i < |execs| ==> ExecOk(execs[i]))
    && SlotExclusive(execs)
  }

  /** One mutation, seen from one execution that survives it. */
  ghost predicate Evolves(x: Exec, y: Exec) {
    && y.id == x.id && y.work == x.work && y.labels == x.labels && y.origin == x.origin && y.requestedAt == x.requestedAt
    && (x.permitGranted ==> y.permitGranted && y.agent == x.agent)
    && (y.permitGranted && !x.permitGranted ==> x.status.Assigned? && y.status.Running? && y.agent == x.agent && !x.cancelRequested)
    && (Terminal(x.status) ==> SameVerdict(x, y))
  }

  /** Everything that makes up a finished run's outcome. */
  ghost predicate SameVerdict(x: Exec, y: Exec) {
    && y.status == x.status && y.exitCode == x.exitCode && y.finishedAt == x.finishedAt && y.error == x.error
    && y.failureReason == x.failureReason && y.agent == x.agent && y.permitGranted == x.permitGranted
    && y.permitRevoked == x.permitRevoked && y.cancelRequested == x.cancelRequested && y.canceledAt == x.canceledAt
    && y.startedAt == x.startedAt && y.assignedAt == x.assignedAt
  }

  /** An execution does not gain a slot: it is active afterwards only where it
    * was active before, for the same agent. */
  ghost predicate NoNewSlot(x: Exec, y: Exec) {
    Active(y.status) ==> Active(x.status) && y.agent == x.agent
  }

  ghost predicate Kept(x: Exec, e: Effect) {
    e.Write? ==> ExecOk(e.x) && Evolves(x, e.x) && NoNewSlot(x, e.x)
  }

  lemma EffectsKeepInvariant(x: Exec, agent: AgentId, now: Time, req: ResultRequest, size: int, message: string)
    requires ExecOk(x) && Terminal(req.status)
    ensures Kept(x, PermitEffect(x, agent, now))
    ensures Kept(x, CancelEffect(x, now))
    ensures Kept(x, ResultEffect(x, req, size, now))
    ensures Kept(x, AttentionEffect(x, agent, message))
    ensures Kept(x, ResolveEffect(x, message, now))
  {
    CancelKept(x, now);
    hide CancelEffect;
  }

  lemma CancelKept(x: Exec, now: Time)
    requires ExecOk(x)
    ensures Kept(x, CancelEffect(x, now))
  {
  }

  /** SubmitResult alone does not ask for a permit: exactly when a success is
    * recorded for a run that was never permitted. That it does not happen is up
    * to the agent (see ProtocolTheorems). */
  lemma UnpermittedSuccessExactly(x: Exec, req: ResultRequest, size: int, now: Time)
    requires ExecOk(x)
    ensures (var e := ResultEffect(x, req, size, now); e.Write? && e.x.status.Success? && !e.x.permitGranted)
            <==> !Terminal(x.status) && req.status.Success? && (x.status.Queued? || x.status.Assigned?)
  {
  }

  lemma ReconcileKeepsInvariant(x: Exec, agent: AgentId, known: set<ExecId>)
    requires ExecOk(x)
    ensures var y := ReconcileOne(x, agent, known);
      ExecOk(y) && Evolves(x, y) && NoNewSlot(x, y) && (y != x ==> agent != "" || x.agent == "")
  {
  }

  // ---- how a mutation of the list may change each execution ---------------------

  /** Survivors evolve, only terminal executions disappear, and only fresh ids
    * appear, never with a permit. */
  ghost predicate Advances(before: seq<Exec>, after: seq<Exec>, newIds: set<ExecId>) {
    forall e :: AdvancesAt(Find(before, e), Find(after, e), e in newIds)
  }

  ghost predicate AdvancesAt(b: Option<Exec>, a: Option<Exec>, isNew: bool) {
    match (b, a)
    case (Some(x), Some(y)) => Evolves(x, y)
    case (Some(x), None) => Terminal(x.status)
    case (None, Some(y)) => isNew && !y.permitGranted
    case (None, None) => true
  }

  lemma {:induction false} SameIdsSameIndex(s: seq<Exec>, t: seq<Exec>, id: ExecId)
    requires |s| == |t|
    requires forall i :: 0 <= i < |s| ==> s[i].id == t[i].id
    ensures FindIndex(s, id) == FindIndex(t, id)
  {
    if |s| > 0 && s[0].id != id {
      SameIdsSameIndex(s[1..], t[1..], id);
    }
  }

  /** A mutation that rewrites executions in place. */
  lemma PointwiseAdvances(s: seq<Exec>, t: seq<Exec>)
    requires StateOk(s) && |t| == |s|
    requires forall i :: 0 <= i < |s| ==> ExecOk(t[i]) && Evolves(s[i], t[i])
    ensures UniqueIds(t) && Advances(s, t, {})
    ensures (forall i :: 0 <= i < |s| ==> NoNewSlot(s[i], t[i])) ==> StateOk(t)
  {
  }

  lemma UpdateAdvances(s: seq<Exec>, i: nat, y: Exec)
    requires StateOk(s) && i < |s| && ExecOk(y) && Evolves(s[i], y) && NoNewSlot(s[i], y)
    ensures StateOk(s[i := y]) && Advances(s, s[i := y], {})
    ensures forall e :: Find(s[i := y], e) == if e == y.id then Some(y) else Find(s, e)
  {
    PointwiseAdvances(s, s[i := y]);
    forall e
      ensures Find(s[i := y], e) == if e == y.id then Some(y) else Find(s, e)
    {
      SameIdsSameIndex(s, s[i := y], e);
      FindMember(s, i);
    }
  }

  lemma {:induction false} FindAppend(s: seq<Exec>, t: seq<Exec>, e: ExecId)
    ensures Find(s + t, e) == if Find(s, e).Some? then Find(s, e) else Find(t, e)
  {
    if |s| == 0 {
      assert s + t == t;
    } else {
      assert (s + t)[1..] == s[1..] + t;
      FindAppend(s[1..], t, e);
      FindStep(s, e);
      FindStep(s + t, e);
    }
  }

  lemma FindStep(s: seq<Exec>, e: ExecId)
    requires |s| > 0
    ensures Find(s, e) == if s[0].id == e then Some(s[0]) else Find(s[1..], e)
  {
  }

  /** The pruning that ends a mutation: terminal executions may disappear and
    * nothing else happens. */
  ghost predicate Prunes(mid: seq<Exec>, after: seq<Exec>) {
    forall e :: PrunesAt(Find(mid, e), Find(after, e))
  }

  ghost predicate PrunesAt(m: Option<Exec>, a: Option<Exec>) {
    a == m || (a.None? && m.Some? && Terminal(m.value.status))
  }

  lemma PrependOk(x: Exec, rest: seq<Exec>, d: seq<Exec>)
    requires StateOk([x] + rest) && StateOk(d) && forall y :: y in d ==> y in rest
    ensures StateOk([x] + d)
  {
    var t := [x] + d;
    hide ExecOk;
    assert t[0] == x && ([x] + rest)[0] == x && forall j :: 1 <= j < |t| ==> t[j] == d[j - 1];
    forall j | 1 <= j < |t|
      ensures t[j].id != x.id && (Active(t[j].status) && Active(x.status) ==> t[j].agent != x.agent)
    {
      assert d[j - 1] in rest;
      var k :| 0 <= k < |rest| && rest[k] == d[j - 1];
      assert ([x] + rest)[k + 1] == t[j];
    }
  }

  lemma PrependPrunes(x: Exec, rest: seq<Exec>, d: seq<Exec>, e: ExecId)
    requires UniqueIds([x] + rest) && PrunesAt(Find(rest, e), Find(d, e))
    ensures PrunesAt(Find([x] + rest, e), Find([x] + d, e))
    ensures Done(x) ==> PrunesAt(Find([x] + rest, e), Find(d, e))
  {
    FindStep([x] + rest, e);
    FindStep([x] + d, e);
    assert ([x] + rest)[1..] == rest && ([x] + d)[1..] == d;
    if e == x.id {
      assert forall k :: 0 <= k < |rest| ==> ([x] + rest)[k + 1] == rest[k];
      assert Find(rest, e).None?;
    }
  }

  /** Pruning keeps the invariant and removes terminal executions only. */
  lemma {:induction false} DropAdvances(s: seq<Exec>, k: nat)
    requires StateOk(s)
    ensures StateOk(Drop(s, Done, k)) && Prunes(s, Drop(s, Done, k))
  {
    if |s| > 0 && k > 0 {
      var rest := s[1..];
      assert s == [s[0]] + rest;
      assert StateOk(rest);
      var k' := if Done(s[0]) then k - 1 else k;
      DropAdvances(rest, k');
      DropMembers(rest, Done, k');
      var d := Drop(rest, Done, k');
      PrependOk(s[0], rest, d);
      hide StateOk, PrunesAt, Find;
      forall e
        ensures PrunesAt(Find(s, e), Find(Drop(s, Done, k), e))
      {
        assert PrunesAt(Find(rest, e), Find(d, e));
        PrependPrunes(s[0], rest, d, e);
      }
    }
  }

  lemma RemoveKeepsInvariant(s: seq<Exec>, i: nat)
    requires StateOk(s) && i < |s|
    ensures StateOk(s[..i] + s[i + 1..])
    ensures forall x :: x in s[..i] + s[i + 1..] ==> x.id != s[i].id
  {
  }

  lemma DeleteAdvances(s: seq<Exec>, id: ExecId)
    requires StateOk(s) && Delete(s, id).Commit?
    ensures StateOk(Delete(s, id).execs)
    ensures Find(Delete(s, id).execs, id).None?
    ensures forall e :: e != id ==> Find(Delete(s, id).execs, e) == Find(s, e)
    ensures Advances(s, Delete(s, id).execs, {})
  {
    var i := FindIndex(s, id);
    var t := s[..i] + s[i + 1..];
    RemoveKeepsInvariant(s, i);
    forall e | e != id
      ensures Find(t, e) == Find(s, e)
    {
      FindRemove(s, i, e);
    }
    forall e
      ensures AdvancesAt(Find(s, e), Find(t, e), false)
    {
    }
  }

  lemma FindRemove(s: seq<Exec>, i: nat, e: ExecId)
    requires i < |s| && s[i].id != e
    ensures Find(s[..i] + s[i + 1..], e) == Find(s, e)
  {
    assert s == s[..i] + ([s[i]] + s[i + 1..]);
    FindAppend(s[..i], s[i + 1..], e);
    FindAppend(s[..i], [s[i]] + s[i + 1..], e);
    FindAppend([s[i]], s[i + 1..], e);
  }
}

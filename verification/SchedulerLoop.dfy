/** The loops of scheduleOnce (ctrlsched.go) on the cloned state, proved to
  * compute the matching of Scheduler. */
module SchedulerLoop {
  import opened Model
  import opened Transitions
  import opened Scheduler
  import opened Snapshot
  import LexOrder

  /** computeOccupancy: who holds a slot with what, and who waits for an
    * operator. */
  method ComputeOccupancy(st: StateData) returns (busy: map<AgentId, ExecId>, blocked: map<AgentId, Text>)
    ensures forall a :: a in busy <==> Busy(st.Execs(), a)
    ensures forall a :: a in blocked <==> Blocked(st.Execs(), a)
  {
    ghost var all := st.Execs();
    busy, blocked := map[], map[];
    for i := 0 to |st.executions|
      invariant forall a :: a in busy <==> Busy(all[..i], a)
      invariant forall a :: a in blocked <==> Blocked(all[..i], a)
    {
      var execution := st.executions[i].record;
      OccupancyNext(all, i);
      if execution.agent == "" || Terminal(execution.status) {
        continue;
      }
      if Active(execution.status) {
        busy := busy[execution.agent := execution.id];
      }
      if execution.needsAttention {
        blocked := blocked[execution.agent := execution.attention];
      }
    }
    assert all[..|all|] == all;
  }

  lemma OccupancyNext(all: seq<Exec>, i: nat)
    requires i < |all|
    ensures forall a :: Busy(all[..i + 1], a) <==> Busy(all[..i], a) || Busy([all[i]], a)
    ensures forall a :: Blocked(all[..i + 1], a) <==> Blocked(all[..i], a) || Blocked([all[i]], a)
  {
  }

  /** The agents a pass may use, with their last assignment times. */
  method FreeAgents(st: StateData, available: Fleet) returns (free: set<AgentId>, lastAssigned: map<AgentId, Time>)
    ensures free == Free(st.Execs(), available)
    ensures forall a :: a in free ==> LastOf(lastAssigned, a) == LastOf(st.last, a)
  {
    var busy, blocked := ComputeOccupancy(st);
    free, lastAssigned := {}, map[];
    var rest := available.Keys;
    while rest != {}
      invariant rest <= available.Keys
      invariant free == set a | a in Free(st.Execs(), available) && a !in rest
      invariant forall a :: a in free ==> LastOf(lastAssigned, a) == LastOf(st.last, a)
      invariant forall a :: a in rest ==> a !in lastAssigned
      decreases |rest|
    {
      var id :| id in rest;
      rest := rest - {id};
      if id in busy || id in blocked {
        continue;
      }
      free := free + {id};
      if id in st.last {
        lastAssigned := lastAssigned[id := st.last[id]];
      }
    }
  }

  /** The schedulable executions in list order. */
  method CollectQueued(st: StateData) returns (queued: seq<nat>)
    ensures queued == WaitingIndexes(st.Execs(), |st.executions|)
  {
    queued := [];
    for i := 0 to |st.executions|
      invariant queued == WaitingIndexes(st.Execs(), i)
    {
      if st.executions[i].record.status == Queued && !st.executions[i].record.cancelRequested {
        queued := queued + [i];
      }
    }
  }

  /** The first candidate in fairness order, found in any order of iteration. */
  method FirstCandidate(candidates: set<AgentId>, lastAssigned: map<AgentId, Time>) returns (chosen: AgentId)
    requires candidates != {}
    ensures IsLeast(lastAssigned, candidates, chosen)
  {
    chosen :| chosen in candidates;
    var rest := candidates - {chosen};
    BeforeTotal(lastAssigned, chosen, chosen);
    while rest != {}
      invariant rest <= candidates && IsLeast(lastAssigned, candidates - rest, chosen)
      decreases |rest|
    {
      var id :| id in rest;
      KeepLeast(lastAssigned, candidates - rest, chosen, id);
      if LastOf(lastAssigned, id) < LastOf(lastAssigned, chosen)
         || (LastOf(lastAssigned, id) == LastOf(lastAssigned, chosen) && LexOrder.Less(id, chosen)) {
        chosen := id;
      }
      rest := rest - {id};
      assert candidates - rest == candidates - (rest + {id}) + {id};
    }
    assert candidates - {} == candidates;
  }

  lemma KeepLeast(last: map<AgentId, Time>, c: set<AgentId>, least: AgentId, id: AgentId)
    requires IsLeast(last, c, least)
    ensures IsLeast(last, c + {id}, if Before(last, id, least) then id else least)
  {
    BeforeTotal(last, id, least);
    BeforeTotal(last, id, id);
    if Before(last, id, least) {
      forall b | b in c
        ensures !Before(last, b, id)
      {
        if Before(last, b, id) { BeforeTransitive(last, b, id, least); }
      }
    }
  }

  /** Fairness only looks at the candidates' own times. */
  lemma SameLeast(last: map<AgentId, Time>, copy: map<AgentId, Time>, c: set<AgentId>, a: AgentId)
    requires c != {} && IsLeast(copy, c, a) && forall b :: b in c ==> LastOf(copy, b) == LastOf(last, b)
    ensures a == Least(last, c)
  {
    assert IsLeast(last, c, a);
    LeastUnique(last, c, a, Least(last, c));
  }

  /** What is left to do of the matching when items q[k..] are still waiting. */
  ghost predicate Remaining(goal: State, st: State, q: seq<nat>, c: Plan, k: nat, now: Time) {
    && |c| == |q| && k <= |q| && InRange(st.execs, q)
    && ApplyPlan(st.execs, q[k..], c[k..], now) == goal.execs
    && StampPlan(st.last, c[k..], now) == goal.last
  }

  function AfterItem(st: State, i: nat, choice: Option<AgentId>, now: Time): State
    requires i < |st.execs|
  {
    if choice.Some? then st.(execs := st.execs[i := Assign(st.execs[i], choice.value, now)], last := st.last[choice.value := now]) else st
  }

  lemma RemainingNext(goal: State, st: State, q: seq<nat>, c: Plan, k: nat, now: Time)
    requires Remaining(goal, st, q, c, k, now) && k < |q|
    ensures Remaining(goal, AfterItem(st, q[k], c[k], now), q, c, k + 1, now)
  {
    assert q[k..][1..] == q[k + 1..] && c[k..][1..] == c[k + 1..];
    if c[k].None? { assert st.execs[q[k] := st.execs[q[k]]] == st.execs; }
  }

  /** With no agent left the rest of the queue stays as it is. */
  lemma {:induction false} NothingLeft(goal: State, st: State, q: seq<nat>, c: Plan, k: nat, now: Time)
    requires Remaining(goal, st, q, c, k, now) && forall j :: k <= j < |c| ==> c[j].None?
    ensures st.execs == goal.execs && st.last == goal.last
    decreases |q| - k
  {
    if k < |q| {
      RemainingNext(goal, st, q, c, k, now);
      NothingLeft(goal, st, q, c, k + 1, now);
    }
  }

  lemma {:induction false} NoneFree(reqs: seq<seq<string>>, fleet: Fleet, last: map<AgentId, Time>)
    ensures AssignsNothing(Greedy(reqs, {}, fleet, last))
  {
    if |reqs| > 0 {
      NoneFree(reqs[1..], fleet, last);
    }
  }

  /** What one item of the loop does to the plan still to be made. */
  lemma GreedyNext(reqs: seq<seq<string>>, k: nat, free: set<AgentId>, fleet: Fleet, last: map<AgentId, Time>, c: Plan)
    requires k < |reqs| == |c| && c[k..] == Greedy(reqs[k..], free, fleet, last)
    ensures var cands := Candidates(reqs[k], free, fleet);
      && c[k] == (if cands == {} then None else Some(Least(last, cands)))
      && c[k + 1..] == Greedy(reqs[k + 1..], Without(free, c[k]), fleet, last)
  {
  }

  /** The state of the loop before item k. */
  ghost predicate Progress(goal: State, start: State, st: State, q: seq<nat>, c: Plan, k: nat, free: set<AgentId>, fleet: Fleet, served: bool, now: Time) {
    && Remaining(goal, st, q, c, k, now) && InRange(start.execs, q) && |st.execs| == |start.execs|
    && c[k..] == Greedy(Requirements(start.execs, q)[k..], free, fleet, start.last)
    && (forall i :: 0 <= i < |st.execs| ==> st.execs[i].labels == start.execs[i].labels)
    && (served <==> !AssignsNothing(c[..k]))
    && (!served ==> st == start)
  }

  lemma ProgressStarts(goal: State, start: State, q: seq<nat>, free: set<AgentId>, fleet: Fleet, now: Time)
    requires InRange(start.execs, q)
    requires var c := Greedy(Requirements(start.execs, q), free, fleet, start.last);
      goal.execs == ApplyPlan(start.execs, q, c, now) && goal.last == StampPlan(start.last, c, now)
    ensures Progress(goal, start, start, q, Greedy(Requirements(start.execs, q), free, fleet, start.last), 0, free, fleet, false, now)
  {
  }

  lemma ProgressNext(goal: State, start: State, st: State, q: seq<nat>, c: Plan, k: nat, free: set<AgentId>, fleet: Fleet, served: bool, now: Time)
    requires Progress(goal, start, st, q, c, k, free, fleet, served, now) && k < |q|
    ensures var cands := Candidates(st.execs[q[k]].labels, free, fleet);
      c[k] == if cands == {} then None else Some(Least(start.last, cands))
    ensures Progress(goal, start, AfterItem(st, q[k], c[k], now), q, c, k + 1, Without(free, c[k]), fleet, served || c[k].Some?, now)
  {
    GreedyNext(Requirements(start.execs, q), k, free, fleet, start.last, c);
    RemainingNext(goal, st, q, c, k, now);
    assert c[..k + 1] == c[..k] + [c[k]];
  }

  lemma ProgressEnds(goal: State, start: State, st: State, q: seq<nat>, c: Plan, k: nat, free: set<AgentId>, fleet: Fleet, served: bool, now: Time)
    requires Progress(goal, start, st, q, c, k, free, fleet, served, now) && (k == |q| || free == {})
    ensures st.execs == goal.execs && st.last == goal.last && (served <==> !AssignsNothing(c))
  {
    NoneFree(Requirements(start.execs, q)[k..], fleet, start.last);
    forall j | k <= j < |c|
      ensures c[j].None?
    {
      assert c[j] == c[k..][j - k];
    }
    assert c == c[..k] + c[k..];
    NothingLeft(goal, st, q, c, k, now);
  }

  /** The loop over the queue. */
  method ServeQueue(st: StateData, q: seq<nat>, available: Fleet, freeAtStart: set<AgentId>, lastAssigned: map<AgentId, Time>, now: Time)
    returns (served: bool)
    requires DistinctObjects(st.executions) && InRange(st.Execs(), q)
    requires forall a :: a in freeAtStart ==> LastOf(lastAssigned, a) == LastOf(st.last, a)
    modifies st`last, st.executions
    ensures var c := Greedy(Requirements(old(st.Execs()), q), freeAtStart, available, old(st.last));
      && st.Execs() == ApplyPlan(old(st.Execs()), q, c, now) && st.last == StampPlan(old(st.last), c, now)
      && (served <==> !AssignsNothing(c)) && (!served ==> st.Execs() == old(st.Execs()) && st.last == old(st.last))
  {
    var free := freeAtStart;
    served := false;
    ghost var start := st.Value();
    ghost var c := Greedy(Requirements(start.execs, q), free, available, start.last);
    ghost var goal := start.(execs := ApplyPlan(start.execs, q, c, now), last := StampPlan(start.last, c, now));
    ProgressStarts(goal, start, q, free, available, now);
    var k := 0;
    while k < |q|
      invariant 0 <= k <= |q| && free <= freeAtStart
      invariant Progress(goal, start, st.Value(), q, c, k, free, available, served, now)
    {
      ProgressNext(goal, start, st.Value(), q, c, k, free, available, served, now);
      var choice := ServeItem(st, q[k], free, available, start.last, lastAssigned, now);
      k := k + 1;
      if choice.Some? {
        free := free - {choice.value};
        served := true;
        if free == {} {
          break;
        }
      }
    }
    ProgressEnds(goal, start, st.Value(), q, c, k, free, available, served, now);
  }

  /** One queued item: pick among the candidates still free, and assign. */
  method ServeItem(st: StateData, i: nat, free: set<AgentId>, available: Fleet, ghost last: map<AgentId, Time>,
                   lastAssigned: map<AgentId, Time>, now: Time) returns (choice: Option<AgentId>)
    requires DistinctObjects(st.executions) && i < |st.executions|
    requires forall a :: a in free ==> LastOf(lastAssigned, a) == LastOf(last, a)
    modifies st`last, st.executions
    ensures var cands := Candidates(old(st.Execs())[i].labels, free, available);
      choice == if cands == {} then None else Some(Least(last, cands))
    ensures st.Value() == AfterItem(old(st.Value()), i, choice, now)
  {
    var candidates := set id | id in free && id in available && LabelsSatisfied(st.executions[i].record.labels, available[id]);
    if candidates == {} {
      return None;
    }
    var chosen := FirstCandidate(candidates, lastAssigned);
    SameLeast(last, lastAssigned, candidates, chosen);
    AssignTo(st, i, chosen, now);
    choice := Some(chosen);
  }

  method AssignTo(st: StateData, i: nat, chosen: AgentId, now: Time)
    requires DistinctObjects(st.executions) && i < |st.executions|
    modifies st`last, st.executions
    ensures st.Value() == AfterItem(old(st.Value()), i, Some(chosen), now)
  {
    var execution := st.executions[i];
    execution.record := execution.record.(status := Assigned, agent := chosen, assignedAt := now);
    st.last := st.last[chosen := now];
    assert st.Execs() == old(st.Execs())[i := execution.record];
  }

  /** The matching pass: occupancy, free agents, the queue, the loop. */
  method MatchQueue(st: StateData, available: Fleet, now: Time) returns (served: bool)
    requires DistinctObjects(st.executions)
    modifies st`last, st.executions
    ensures served <==> !AssignsNothing(PlanOf(old(st.Execs()), old(st.last), available))
    ensures !served ==> st.Execs() == old(st.Execs()) && st.last == old(st.last)
    ensures served ==> st.Execs() == ScheduledExecs(old(st.Execs()), old(st.last), available, now)
    ensures served ==> st.last == ScheduledLast(old(st.Execs()), old(st.last), available, now)
  {
    var free, lastAssigned := FreeAgents(st, available);
    if free == {} {
      NoneFree(Requirements(st.Execs(), Queue(st.Execs())), available, st.last);
      return false;
    }
    var queued := CollectQueued(st);
    var q := SortByRequest(st.Execs(), queued);
    served := ServeQueue(st, q, available, free, lastAssigned, now);
  }

  /** The callback of scheduleOnce. `available` was judged before the store was
    * locked; occupancy is judged here. */
  method ScheduleRuns(st: StateData, ghost start: State, available: Fleet, now: Time) returns (out: Outcome)
    requires DistinctObjects(st.executions) && st.Value() == start
    modifies st`last, st.executions
    ensures var target := ScheduleTarget(start, available, now);
      && out == (if target.Some? then Applied else NoStateChange)
      && st.Value() == if target.Some? then target.value else start
  {
    var served := MatchQueue(st, available, now);
    TargetOf(start, available, now);
    out := if served then Applied else NoStateChange;
  }

  lemma TargetOf(st: State, available: Fleet, now: Time)
    ensures var target := ScheduleTarget(st, available, now);
      && (target.None? <==> AssignsNothing(PlanOf(st.execs, st.last, available)))
      && (target.Some? ==> target.value == State(st.sequence, ScheduledExecs(st.execs, st.last, available, now),
                                                 ScheduledLast(st.execs, st.last, available, now), st.origins))
  {
  }
}

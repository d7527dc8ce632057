/** scheduleOnce (ctrlsched.go) as a function of the state, with the laws of the
  * matching it computes. */
module Scheduler {
  import opened Model
  import opened Transitions
  import LexOrder
  import History

  /** The agents that are online, enabled and unpaused, with their labels. */
  type Fleet = map<AgentId, seq<string>>

  /** computeOccupancy: an agent holds a slot, or is blocked on attention. */
  predicate Busy(execs: seq<Exec>, a: AgentId) {
    exists x | x in execs :: x.agent == a && a != "" && Active(x.status)
  }

  predicate Blocked(execs: seq<Exec>, a: AgentId) {
    exists x | x in execs :: x.agent == a && a != "" && !Terminal(x.status) && x.needsAttention
  }

  function Free(execs: seq<Exec>, fleet: Fleet): set<AgentId> {
    set a | a in fleet && !Busy(execs, a) && !Blocked(execs, a)
  }

  function LastOf(last: map<AgentId, Time>, a: AgentId): Time {
    if a in last then last[a] else ZERO_TIME
  }

  /** The fairness order: oldest last assignment first, then the smaller id. */
  predicate Before(last: map<AgentId, Time>, a: AgentId, b: AgentId) {
    LastOf(last, a) < LastOf(last, b) || (LastOf(last, a) == LastOf(last, b) && LexOrder.Less(a, b))
  }

  lemma BeforeTotal(last: map<AgentId, Time>, a: AgentId, b: AgentId)
    ensures Before(last, a, b) || Before(last, b, a) || a == b
    ensures !(Before(last, a, b) && Before(last, b, a)) && !Before(last, a, a)
  {
    LexOrder.Total(a, b);
    LexOrder.Total(a, a);
  }

  lemma BeforeTransitive(last: map<AgentId, Time>, a: AgentId, b: AgentId, c: AgentId)
    requires Before(last, a, b) && Before(last, b, c)
    ensures Before(last, a, c)
  {
    if LastOf(last, a) == LastOf(last, b) == LastOf(last, c) {
      LexOrder.Transitive(a, b, c);
    }
  }

  ghost predicate IsLeast(last: map<AgentId, Time>, c: set<AgentId>, a: AgentId) {
    a in c && forall b :: b in c ==> !Before(last, b, a)
  }

  lemma LeastExists(last: map<AgentId, Time>, c: set<AgentId>)
    requires c != {}
    ensures exists a :: IsLeast(last, c, a)
  {
    var x :| x in c;
    if c == {x} {
      BeforeTotal(last, x, x);
      assert IsLeast(last, c, x);
    } else {
      LeastExists(last, c - {x});
      var y :| IsLeast(last, c - {x}, y);
      BeforeTotal(last, x, y);
      BeforeTotal(last, x, x);
      if Before(last, x, y) {
        forall b | b in c
          ensures !Before(last, b, x)
        {
          if b != x && Before(last, b, x) {
            BeforeTransitive(last, b, x, y);
          }
        }
        assert IsLeast(last, c, x);
      } else {
        assert IsLeast(last, c, y);
      }
    }
  }

  lemma LeastUnique(last: map<AgentId, Time>, c: set<AgentId>, a: AgentId, b: AgentId)
    requires IsLeast(last, c, a) && IsLeast(last, c, b)
    ensures a == b
  {
    BeforeTotal(last, a, b);
  }

  ghost function Least(last: map<AgentId, Time>, c: set<AgentId>): (a: AgentId)
    requires c != {}
    ensures IsLeast(last, c, a)
  {
    LeastExists(last, c);
    var a :| IsLeast(last, c, a);
    a
  }

  // ---- the queue ---------------------------------------------------------------

  predicate Waiting(x: Exec) {
    x.status.Queued? && !x.cancelRequested
  }

  ghost predicate Increasing(q: seq<nat>) {
    forall k, l :: 0 <= k < l < |q| ==> q[k] < q[l]
  }

  predicate InRange(execs: seq<Exec>, q: seq<nat>) {
    forall k | 0 <= k < |q| :: q[k] < |execs|
  }

  /** Positions of the waiting executions, in list order. */
  function WaitingIndexes(execs: seq<Exec>, n: nat): (q: seq<nat>)
    requires n <= |execs|
    ensures forall k :: 0 <= k < |q| ==> q[k] < n && Waiting(execs[q[k]])
    ensures Increasing(q)
    ensures forall i :: 0 <= i < n && Waiting(execs[i]) ==> i in q
  {
    if n == 0 then []
    else
      var p := WaitingIndexes(execs, n - 1);
      if Waiting(execs[n - 1]) then
        assert (p + [n - 1])[|p|] == n - 1;
        p + [n - 1]
      else p
  }

  /** Stable insertion by request time. */
  function InsertByRequest(execs: seq<Exec>, q: seq<nat>, i: nat): (r: seq<nat>)
    requires i < |execs| && InRange(execs, q)
    ensures InRange(execs, r)
    ensures multiset(r) == multiset(q) + multiset{i}
  {
    if |q| == 0 then [i]
    else
      var n := |q| - 1;
      assert q == q[..n] + [q[n]];
      if execs[i].requestedAt < execs[q[n]].requestedAt
      then InsertByRequest(execs, q[..n], i) + [q[n]]
      else q + [i]
  }

  /** sort.SliceStable by RequestedAt. */
  function SortByRequest(execs: seq<Exec>, q: seq<nat>): (r: seq<nat>)
    requires InRange(execs, q)
    ensures InRange(execs, r)
    ensures multiset(r) == multiset(q)
  {
    if |q| == 0 then []
    else
      var n := |q| - 1;
      assert q == q[..n] + [q[n]];
      InsertByRequest(execs, SortByRequest(execs, q[..n]), q[n])
  }

  /** The schedulable executions in enqueue order. */
  function Queue(execs: seq<Exec>): (q: seq<nat>)
    ensures InRange(execs, q)
    ensures multiset(q) == multiset(WaitingIndexes(execs, |execs|))
  {
    SortByRequest(execs, WaitingIndexes(execs, |execs|))
  }

  predicate Earlier(execs: seq<Exec>, i: nat, j: nat)
    requires i < |execs| && j < |execs|
  {
    execs[i].requestedAt < execs[j].requestedAt || (execs[i].requestedAt == execs[j].requestedAt && i < j)
  }

  ghost predicate InRequestOrder(execs: seq<Exec>, q: seq<nat>)
    requires InRange(execs, q)
  {
    forall k, l :: 0 <= k < l < |q| ==> Earlier(execs, q[k], q[l])
  }

  lemma SnocKeepsOrder(execs: seq<Exec>, q: seq<nat>, i: nat)
    requires InRange(execs, q) && InRequestOrder(execs, q) && i < |execs|
    requires forall k :: 0 <= k < |q| ==> Earlier(execs, q[k], i)
    ensures InRange(execs, q + [i]) && InRequestOrder(execs, q + [i])
  {
  }

  lemma InsertedMembers(execs: seq<Exec>, q: seq<nat>, i: nat, k: nat)
    requires i < |execs| && InRange(execs, q) && k < |InsertByRequest(execs, q, i)|
    ensures InsertByRequest(execs, q, i)[k] == i || InsertByRequest(execs, q, i)[k] in q
  {
  }

  lemma {:induction false} InsertKeepsOrder(execs: seq<Exec>, q: seq<nat>, i: nat)
    requires i < |execs| && InRange(execs, q) && InRequestOrder(execs, q)
    requires forall k :: 0 <= k < |q| ==> q[k] < i
    ensures InRequestOrder(execs, InsertByRequest(execs, q, i))
  {
    if |q| > 0 {
      var n := |q| - 1;
      if execs[i].requestedAt < execs[q[n]].requestedAt {
        InsertKeepsOrder(execs, q[..n], i);
        var r := InsertByRequest(execs, q[..n], i);
        forall k | 0 <= k < |r|
          ensures Earlier(execs, r[k], q[n])
        {
          InsertedMembers(execs, q[..n], i, k);
        }
        SnocKeepsOrder(execs, r, q[n]);
      } else {
        forall k | 0 <= k < |q|
          ensures Earlier(execs, q[k], i)
        {
          assert k < n ==> Earlier(execs, q[k], q[n]);
        }
        SnocKeepsOrder(execs, q, i);
      }
    }
  }

  lemma {:induction false} SortIsStable(execs: seq<Exec>, q: seq<nat>)
    requires InRange(execs, q) && Increasing(q)
    ensures InRequestOrder(execs, SortByRequest(execs, q))
  {
    if |q| > 0 {
      var n := |q| - 1;
      var p := SortByRequest(execs, q[..n]);
      SortIsStable(execs, q[..n]);
      forall k | 0 <= k < |p|
        ensures p[k] < q[n]
      {
        assert p[k] in multiset(p);
        assert p[k] in q[..n];
      }
      InsertKeepsOrder(execs, p, q[n]);
    }
  }

  /** The queue holds every schedulable execution once, first come first
    * served, ties broken by position. */
  lemma QueueIsFirstComeFirstServed(execs: seq<Exec>)
    ensures InRequestOrder(execs, Queue(execs))
    ensures forall k :: 0 <= k < |Queue(execs)| ==> Waiting(execs[Queue(execs)[k]])
    ensures forall i :: 0 <= i < |execs| && Waiting(execs[i]) ==> i in Queue(execs)
    ensures forall k, l :: 0 <= k < l < |Queue(execs)| ==> Queue(execs)[k] != Queue(execs)[l]
  {
    var w := WaitingIndexes(execs, |execs|);
    var q := Queue(execs);
    SortIsStable(execs, w);
    forall k | 0 <= k < |q|
      ensures Waiting(execs[q[k]])
    {
      assert q[k] in multiset(q);
      assert q[k] in w;
    }
    forall i | 0 <= i < |execs| && Waiting(execs[i])
      ensures i in q
    {
      assert i in multiset(w);
    }
    forall k, l | 0 <= k < l < |q|
      ensures q[k] != q[l]
    {
      assert Earlier(execs, q[k], q[l]);
    }
  }

  // ---- the matching ---------------------------------------------------------------

  type Plan = seq<Option<AgentId>>

  function Candidates(required: seq<string>, free: set<AgentId>, fleet: Fleet): set<AgentId> {
    set a | a in free && a in fleet && LabelsSatisfied(required, fleet[a])
  }

  /** The loop of scheduleOnce: serve the items in order, each from the agents
    * still free. */
  ghost function Greedy(reqs: seq<seq<string>>, free: set<AgentId>, fleet: Fleet, last: map<AgentId, Time>): (c: Plan)
    ensures |c| == |reqs|
  {
    if |reqs| == 0 then []
    else
      var cands := Candidates(reqs[0], free, fleet);
      if cands == {} then [None] + Greedy(reqs[1..], free, fleet, last)
      else
        var a := Least(last, cands);
        [Some(a)] + Greedy(reqs[1..], free - {a}, fleet, last)
  }

  /** What a fair plan is, without saying how to find it: items get distinct
    * free agents that cover their labels, and an item passes over a capable
    * free agent only in favour of an earlier item or of an agent that comes
    * first in the fairness order. */
  ghost predicate FairPlan(reqs: seq<seq<string>>, free: set<AgentId>, fleet: Fleet, last: map<AgentId, Time>, c: Plan) {
    && |c| == |reqs|
    && (forall k :: 0 <= k < |c| && c[k].Some? ==> c[k].value in Candidates(reqs[k], free, fleet))
    && (forall k, l :: 0 <= k < l < |c| && c[k].Some? ==> c[l] != c[k])
    && (forall k, a :: 0 <= k < |c| && a in Candidates(reqs[k], free, fleet) ==>
          Some(a) in c[..k] || (c[k].Some? && !Before(last, a, c[k].value)))
  }

  function Without(free: set<AgentId>, choice: Option<AgentId>): set<AgentId> {
    if choice.Some? then free - {choice.value} else free
  }

  ghost predicate FairFirst(required: seq<string>, free: set<AgentId>, fleet: Fleet, last: map<AgentId, Time>, choice: Option<AgentId>) {
    var cands := Candidates(required, free, fleet);
    if choice.None? then cands == {} else IsLeast(last, cands, choice.value)
  }

  lemma FairPlanUnfolds(reqs: seq<seq<string>>, free: set<AgentId>, fleet: Fleet, last: map<AgentId, Time>, c: Plan)
    requires |c| == |reqs| > 0 && FairPlan(reqs, free, fleet, last, c)
    ensures FairFirst(reqs[0], free, fleet, last, c[0])
    ensures FairPlan(reqs[1..], Without(free, c[0]), fleet, last, c[1..])
  {
    var d, rest, free' := c[1..], reqs[1..], Without(free, c[0]);
    forall a | a in Candidates(reqs[0], free, fleet)
      ensures c[0].Some? && !Before(last, a, c[0].value)
    {
      assert Some(a) !in c[..0];
    }
    forall k, a | 0 <= k < |d| && a in Candidates(rest[k], free', fleet)
      ensures Some(a) in d[..k] || (d[k].Some? && !Before(last, a, d[k].value))
    {
      assert a in Candidates(reqs[k + 1], free, fleet);
      assert c[..k + 1] == [c[0]] + d[..k];
    }
    forall k | 0 <= k < |d| && d[k].Some?
      ensures d[k].value in Candidates(rest[k], free', fleet)
    {
      assert d[k] == c[k + 1];
    }
  }

  lemma FairPlanFolds(reqs: seq<seq<string>>, free: set<AgentId>, fleet: Fleet, last: map<AgentId, Time>, c: Plan)
    requires |c| == |reqs| > 0
    requires FairFirst(reqs[0], free, fleet, last, c[0])
    requires FairPlan(reqs[1..], Without(free, c[0]), fleet, last, c[1..])
    ensures FairPlan(reqs, free, fleet, last, c)
  {
  }

  /** scheduleOnce computes the one fair plan: any plan is fair exactly when it
    * is the greedy one. */
  lemma {:induction false} GreedyIsTheFairPlan(reqs: seq<seq<string>>, free: set<AgentId>, fleet: Fleet, last: map<AgentId, Time>, c: Plan)
    ensures FairPlan(reqs, free, fleet, last, c) <==> c == Greedy(reqs, free, fleet, last)
  {
    var g := Greedy(reqs, free, fleet, last);
    if |reqs| > 0 {
      var cands := Candidates(reqs[0], free, fleet);
      GreedyIsTheFairPlan(reqs[1..], Without(free, g[0]), fleet, last, g[1..]);
      FairPlanFolds(reqs, free, fleet, last, g);
      if FairPlan(reqs, free, fleet, last, c) {
        FairPlanUnfolds(reqs, free, fleet, last, c);
        if cands != {} {
          LeastUnique(last, cands, c[0].value, g[0].value);
        }
        GreedyIsTheFairPlan(reqs[1..], Without(free, c[0]), fleet, last, c[1..]);
        assert c == [c[0]] + c[1..];
      }
    }
  }

  // ---- the mutation -----------------------------------------------------------------

  function Assign(x: Exec, a: AgentId, now: Time): Exec {
    x.(status := Assigned, agent := a, assignedAt := now)
  }

  function Choose(x: Exec, choice: Option<AgentId>, now: Time): Exec {
    if choice.Some? then Assign(x, choice.value, now) else x
  }

  function ApplyPlan(execs: seq<Exec>, q: seq<nat>, c: Plan, now: Time): (r: seq<Exec>)
    requires InRange(execs, q) && |c| == |q|
    ensures |r| == |execs|
    decreases |q|
  {
    if |q| == 0 then execs
    else ApplyPlan(execs[q[0] := Choose(execs[q[0]], c[0], now)], q[1..], c[1..], now)
  }

  function StampPlan(last: map<AgentId, Time>, c: Plan, now: Time): map<AgentId, Time>
    decreases |c|
  {
    if |c| == 0 then last
    else StampPlan(if c[0].Some? then last[c[0].value := now] else last, c[1..], now)
  }

  function Requirements(execs: seq<Exec>, q: seq<nat>): (r: seq<seq<string>>)
    requires InRange(execs, q)
    ensures |r| == |q|
    ensures forall k :: 0 <= k < |q| ==> r[k] == execs[q[k]].labels
  {
    seq(|q|, k requires 0 <= k < |q| => execs[q[k]].labels)
  }

  ghost function PlanOf(execs: seq<Exec>, last: map<AgentId, Time>, fleet: Fleet): (c: Plan)
    ensures |c| == |Queue(execs)|
  {
    Greedy(Requirements(execs, Queue(execs)), Free(execs, fleet), fleet, last)
  }

  ghost function ScheduledExecs(execs: seq<Exec>, last: map<AgentId, Time>, fleet: Fleet, now: Time): (r: seq<Exec>)
    ensures |r| == |execs|
  {
    ApplyPlan(execs, Queue(execs), PlanOf(execs, last, fleet), now)
  }

  ghost function ScheduledLast(execs: seq<Exec>, last: map<AgentId, Time>, fleet: Fleet, now: Time): map<AgentId, Time> {
    StampPlan(last, PlanOf(execs, last, fleet), now)
  }

  ghost predicate AssignsNothing(c: Plan) {
    forall k :: 0 <= k < |c| ==> c[k].None?
  }

  /** What scheduleOnce wants committed, if anything. */
  ghost function ScheduleTarget(st: State, available: Fleet, now: Time): Option<State> {
    if AssignsNothing(PlanOf(st.execs, st.last, available)) then None
    else Some(st.(execs := ScheduledExecs(st.execs, st.last, available, now), last := ScheduledLast(st.execs, st.last, available, now)))
  }

  /** scheduleOnce on the whole state. */
  ghost function Schedule(st: State, fleet: Fleet, now: Time, maxHistory: int): State {
    if AssignsNothing(PlanOf(st.execs, st.last, fleet)) then st
    else Finish(st.(last := ScheduledLast(st.execs, st.last, fleet, now)),
                ScheduledExecs(st.execs, st.last, fleet, now), maxHistory)
  }

  ghost predicate Distinct(q: seq<nat>) {
    forall k, l :: 0 <= k < l < |q| ==> q[k] != q[l]
  }

  lemma {:induction false} ApplyPlanAt(execs: seq<Exec>, q: seq<nat>, c: Plan, now: Time)
    requires InRange(execs, q) && |c| == |q| && Distinct(q)
    ensures var r := ApplyPlan(execs, q, c, now);
      && (forall k :: 0 <= k < |q| ==> r[q[k]] == Choose(execs[q[k]], c[k], now))
      && (forall i :: 0 <= i < |execs| && i !in q ==> r[i] == execs[i])
    decreases |q|
  {
    if |q| > 0 {
      var e := execs[q[0] := Choose(execs[q[0]], c[0], now)];
      ApplyPlanAt(e, q[1..], c[1..], now);
      assert q[0] !in q[1..];
      assert forall k :: 1 <= k < |q| ==> q[k] == q[1..][k - 1] && c[k] == c[1..][k - 1];
      assert forall i :: i !in q ==> i !in q[1..] && i != q[0];
    }
  }

  lemma {:induction false} StampPlanAt(last: map<AgentId, Time>, c: Plan, now: Time)
    ensures forall a :: LastOf(StampPlan(last, c, now), a) == if Some(a) in c then now else LastOf(last, a)
    decreases |c|
  {
    if |c| > 0 {
      StampPlanAt(if c[0].Some? then last[c[0].value := now] else last, c[1..], now);
      assert c == [c[0]] + c[1..];
    }
  }

  ghost predicate CanRun(execs: seq<Exec>, fleet: Fleet, a: AgentId, labels: seq<string>) {
    a in Candidates(labels, Free(execs, fleet), fleet)
  }

  ghost predicate Gets(x: Exec, y: Exec, a: AgentId, now: Time) {
    Waiting(x) && y == Assign(x, a, now)
  }

  /** The same description on executions: waiting executions go to distinct
    * capable free agents, nothing else moves, and an item gives up a capable
    * free agent only to an earlier item or for one that comes first in the
    * fairness order. */
  ghost predicate FairOutcome(execs: seq<Exec>, fleet: Fleet, last: map<AgentId, Time>, now: Time, r: seq<Exec>) {
    && |r| == |execs|
    && (forall i :: 0 <= i < |r| && r[i] != execs[i] ==>
          Gets(execs[i], r[i], r[i].agent, now) && CanRun(execs, fleet, r[i].agent, execs[i].labels))
    && (forall i, j :: 0 <= i < j < |r| && r[i] != execs[i] && r[j] != execs[j] ==> r[i].agent != r[j].agent)
    && (forall i, a :: 0 <= i < |r| && Waiting(execs[i]) && CanRun(execs, fleet, a, execs[i].labels) ==>
          NotPassedOver(execs, last, now, r, i, a))
  }

  ghost predicate NotPassedOver(execs: seq<Exec>, last: map<AgentId, Time>, now: Time, r: seq<Exec>, i: nat, a: AgentId)
    requires |r| == |execs| && i < |r|
  {
    || (r[i] != execs[i] && !Before(last, a, r[i].agent))
    || GivenToEarlier(execs, now, r, i, a)
  }

  ghost predicate GivenToEarlier(execs: seq<Exec>, now: Time, r: seq<Exec>, i: nat, a: AgentId)
    requires |r| == |execs| && i < |r|
  {
    exists j :: 0 <= j < |r| && Earlier(execs, j, i) && Gets(execs[j], r[j], a, now)
  }

  /** A queue: every waiting execution once, in request order. */
  ghost predicate IsQueue(execs: seq<Exec>, q: seq<nat>) {
    && InRange(execs, q) && InRequestOrder(execs, q)
    && (forall k :: 0 <= k < |q| ==> Waiting(execs[q[k]]))
    && (forall i :: 0 <= i < |execs| && Waiting(execs[i]) ==> i in q)
  }

  ghost predicate Realizes(execs: seq<Exec>, q: seq<nat>, c: Plan, now: Time, r: seq<Exec>)
    requires InRange(execs, q)
  {
    && |c| == |q| && |r| == |execs|
    && (forall k :: 0 <= k < |q| ==> r[q[k]] == Choose(execs[q[k]], c[k], now))
    && (forall i :: 0 <= i < |execs| && !Waiting(execs[i]) ==> r[i] == execs[i])
  }

  lemma Position(q: seq<nat>, i: nat) returns (k: nat)
    requires i in q
    ensures k < |q| && q[k] == i
  {
    k :| 0 <= k < |q| && q[k] == i;
  }

  lemma PositionsAreOrdered(execs: seq<Exec>, q: seq<nat>, k: nat, l: nat)
    requires IsQueue(execs, q) && k < |q| && l < |q|
    ensures Earlier(execs, q[k], q[l]) <==> k < l
    ensures q[k] == q[l] <==> k == l
  {
  }

  lemma PlanGives(execs: seq<Exec>, q: seq<nat>, c: Plan, now: Time, r: seq<Exec>, k: nat, a: AgentId)
    requires IsQueue(execs, q) && Realizes(execs, q, c, now, r) && k < |q|
    ensures r[q[k]] != execs[q[k]] <==> c[k].Some?
    ensures Gets(execs[q[k]], r[q[k]], a, now) <==> c[k] == Some(a)
  {
  }

  lemma MovedWasPlanned(execs: seq<Exec>, fleet: Fleet, last: map<AgentId, Time>, now: Time, q: seq<nat>, c: Plan, r: seq<Exec>, i: nat) returns (k: nat)
    requires IsQueue(execs, q) && Realizes(execs, q, c, now, r)
    requires FairPlan(Requirements(execs, q), Free(execs, fleet), fleet, last, c)
    requires i < |r| && r[i] != execs[i]
    ensures k < |q| && q[k] == i && c[k] == Some(r[i].agent)
    ensures Gets(execs[i], r[i], r[i].agent, now) && CanRun(execs, fleet, r[i].agent, execs[i].labels)
  {
    k := Position(q, i);
    PlanGives(execs, q, c, now, r, k, r[i].agent);
    assert Requirements(execs, q)[k] == execs[i].labels;
  }

  lemma PlannedNotPassedOver(execs: seq<Exec>, fleet: Fleet, last: map<AgentId, Time>, now: Time, q: seq<nat>, c: Plan, r: seq<Exec>, i: nat, a: AgentId)
    requires IsQueue(execs, q) && Realizes(execs, q, c, now, r)
    requires FairPlan(Requirements(execs, q), Free(execs, fleet), fleet, last, c)
    requires i < |r| && Waiting(execs[i]) && CanRun(execs, fleet, a, execs[i].labels)
    ensures NotPassedOver(execs, last, now, r, i, a)
  {
    var k := Position(q, i);
    assert Requirements(execs, q)[k] == execs[i].labels;
    PlanGives(execs, q, c, now, r, k, r[i].agent);
    if Some(a) in c[..k] {
      var l :| 0 <= l < k && c[l] == Some(a);
      PlanGives(execs, q, c, now, r, l, a);
      PositionsAreOrdered(execs, q, l, k);
    }
  }

  /** A realized fair plan is a fair outcome. */
  lemma FairPlanFairOutcome(execs: seq<Exec>, fleet: Fleet, last: map<AgentId, Time>, now: Time, q: seq<nat>, c: Plan, r: seq<Exec>)
    requires IsQueue(execs, q) && Realizes(execs, q, c, now, r)
    requires FairPlan(Requirements(execs, q), Free(execs, fleet), fleet, last, c)
    ensures FairOutcome(execs, fleet, last, now, r)
  {
    forall i | 0 <= i < |r| && r[i] != execs[i]
      ensures Gets(execs[i], r[i], r[i].agent, now) && CanRun(execs, fleet, r[i].agent, execs[i].labels)
    {
      var _ := MovedWasPlanned(execs, fleet, last, now, q, c, r, i);
    }
    forall i, j | 0 <= i < j < |r| && r[i] != execs[i] && r[j] != execs[j]
      ensures r[i].agent != r[j].agent
    {
      var k := MovedWasPlanned(execs, fleet, last, now, q, c, r, i);
      var l := MovedWasPlanned(execs, fleet, last, now, q, c, r, j);
      assert if k < l then c[l] != c[k] else c[k] != c[l];
    }
    forall i, a | 0 <= i < |r| && Waiting(execs[i]) && CanRun(execs, fleet, a, execs[i].labels)
      ensures NotPassedOver(execs, last, now, r, i, a)
    {
      PlannedNotPassedOver(execs, fleet, last, now, q, c, r, i, a);
    }
  }

  /** A fair outcome is the realization of a fair plan. */
  lemma FairOutcomeFairPlan(execs: seq<Exec>, fleet: Fleet, last: map<AgentId, Time>, now: Time, q: seq<nat>, c: Plan, r: seq<Exec>)
    requires IsQueue(execs, q) && Realizes(execs, q, c, now, r)
    requires FairOutcome(execs, fleet, last, now, r)
    ensures FairPlan(Requirements(execs, q), Free(execs, fleet), fleet, last, c)
  {
    var reqs, free := Requirements(execs, q), Free(execs, fleet);
    forall k | 0 <= k < |c| && c[k].Some?
      ensures c[k].value in Candidates(reqs[k], free, fleet)
    {
      PlanGives(execs, q, c, now, r, k, c[k].value);
    }
    forall k, l | 0 <= k < l < |c| && c[k].Some?
      ensures c[l] != c[k]
    {
      PlanGives(execs, q, c, now, r, k, c[k].value);
      PlanGives(execs, q, c, now, r, l, c[k].value);
      PositionsAreOrdered(execs, q, k, l);
      assert q[k] < q[l] || q[l] < q[k];
    }
    forall k, a | 0 <= k < |c| && a in Candidates(reqs[k], free, fleet)
      ensures Some(a) in c[..k] || (c[k].Some? && !Before(last, a, c[k].value))
    {
      assert NotPassedOver(execs, last, now, r, q[k], a);
      PlanGives(execs, q, c, now, r, k, r[q[k]].agent);
      if GivenToEarlier(execs, now, r, q[k], a) {
        var j :| 0 <= j < |r| && Earlier(execs, j, q[k]) && Gets(execs[j], r[j], a, now);
        var l := Position(q, j);
        PlanGives(execs, q, c, now, r, l, a);
        PositionsAreOrdered(execs, q, l, k);
        assert c[l] in c[..k];
      }
    }
  }

  function ChoiceOf(x: Exec, y: Exec): Option<AgentId> {
    if x == y then None else Some(y.agent)
  }

  lemma OutcomeHasPlan(execs: seq<Exec>, fleet: Fleet, last: map<AgentId, Time>, now: Time, q: seq<nat>, r: seq<Exec>) returns (c: Plan)
    requires IsQueue(execs, q) && FairOutcome(execs, fleet, last, now, r)
    ensures Realizes(execs, q, c, now, r)
  {
    c := seq(|q|, k requires 0 <= k < |q| => ChoiceOf(execs[q[k]], r[q[k]]));
  }

  lemma QueueIsQueue(execs: seq<Exec>)
    ensures IsQueue(execs, Queue(execs)) && Distinct(Queue(execs))
  {
    QueueIsFirstComeFirstServed(execs);
  }

  lemma ScheduledRealizes(execs: seq<Exec>, last: map<AgentId, Time>, fleet: Fleet, now: Time)
    ensures Realizes(execs, Queue(execs), PlanOf(execs, last, fleet), now, ScheduledExecs(execs, last, fleet, now))
  {
    var q, c := Queue(execs), PlanOf(execs, last, fleet);
    QueueIsQueue(execs);
    ApplyPlanAt(execs, q, c, now);
    assert forall i :: 0 <= i < |execs| && !Waiting(execs[i]) ==> i !in q;
  }

  lemma RealizationUnique(execs: seq<Exec>, q: seq<nat>, c: Plan, now: Time, r: seq<Exec>, t: seq<Exec>)
    requires IsQueue(execs, q) && Realizes(execs, q, c, now, r) && Realizes(execs, q, c, now, t)
    ensures r == t
  {
  }

  /** scheduleOnce computes exactly the fair outcome. */
  lemma ScheduleIsTheFairOutcome(execs: seq<Exec>, last: map<AgentId, Time>, fleet: Fleet, now: Time, r: seq<Exec>)
    ensures FairOutcome(execs, fleet, last, now, r) <==> r == ScheduledExecs(execs, last, fleet, now)
  {
    var q, c, s := Queue(execs), PlanOf(execs, last, fleet), ScheduledExecs(execs, last, fleet, now);
    QueueIsQueue(execs);
    ScheduledRealizes(execs, last, fleet, now);
    GreedyIsTheFairPlan(Requirements(execs, q), Free(execs, fleet), fleet, last, c);
    FairPlanFairOutcome(execs, fleet, last, now, q, c, s);
    if FairOutcome(execs, fleet, last, now, r) {
      var d := OutcomeHasPlan(execs, fleet, last, now, q, r);
      FairOutcomeFairPlan(execs, fleet, last, now, q, d, r);
      GreedyIsTheFairPlan(Requirements(execs, q), Free(execs, fleet), fleet, last, d);
      RealizationUnique(execs, q, c, now, r, s);
    }
  }

  /** Slots stay exclusive and the invariant holds, whatever liveness and
    * configuration the caller looked at. */
  lemma FairOutcomeKeepsInvariant(execs: seq<Exec>, fleet: Fleet, last: map<AgentId, Time>, now: Time, r: seq<Exec>)
    requires StateOk(execs) && "" !in fleet && FairOutcome(execs, fleet, last, now, r)
    ensures StateOk(r) && Advances(execs, r, {})
  {
    forall i | 0 <= i < |r|
      ensures ExecOk(r[i]) && Evolves(execs[i], r[i])
    {
      assert ExecOk(execs[i]);
    }
    PointwiseAdvances(execs, r);
    forall i, j | 0 <= i < j < |r| && Active(r[i].status) && Active(r[j].status)
      ensures r[i].agent != r[j].agent
    {
      if r[i] != execs[i] && r[j] == execs[j] {
        assert CanRun(execs, fleet, r[i].agent, execs[i].labels);
        NotBusy(execs, r[i].agent, j);
      } else if r[i] == execs[i] && r[j] != execs[j] {
        assert CanRun(execs, fleet, r[j].agent, execs[j].labels);
        NotBusy(execs, r[j].agent, i);
      }
    }
  }

  lemma NotBusy(execs: seq<Exec>, a: AgentId, i: nat)
    requires !Busy(execs, a) && a != "" && i < |execs| && Active(execs[i].status)
    ensures execs[i].agent != a
  {
  }

  lemma ScheduleKeepsInvariant(execs: seq<Exec>, last: map<AgentId, Time>, fleet: Fleet, now: Time)
    requires StateOk(execs) && "" !in fleet
    ensures var r := ScheduledExecs(execs, last, fleet, now);
      StateOk(r) && Advances(execs, r, {})
  {
    var r := ScheduledExecs(execs, last, fleet, now);
    ScheduleIsTheFairOutcome(execs, last, fleet, now, r);
    FairOutcomeKeepsInvariant(execs, fleet, last, now, r);
  }

  // ---- maximality ---------------------------------------------------------------------

  /** Nothing left in the queue can run on anything left free. */
  ghost predicate Settled(execs: seq<Exec>, fleet: Fleet) {
    forall x, a :: x in execs && Waiting(x) ==> !CanRun(execs, fleet, a, x.labels)
  }

  lemma StaysTaken(execs: seq<Exec>, fleet: Fleet, last: map<AgentId, Time>, now: Time, r: seq<Exec>, a: AgentId)
    requires StateOk(execs) && FairOutcome(execs, fleet, last, now, r) && "" !in fleet && a in fleet
    ensures Busy(execs, a) ==> Busy(r, a)
    ensures Blocked(execs, a) ==> Blocked(r, a)
    ensures forall j :: 0 <= j < |r| && Gets(execs[j], r[j], a, now) ==> Busy(r, a)
  {
  }

  /** One call leaves the queue settled: the matching is maximal. */
  lemma FairOutcomeSettles(execs: seq<Exec>, fleet: Fleet, last: map<AgentId, Time>, now: Time, r: seq<Exec>)
    requires StateOk(execs) && "" !in fleet && FairOutcome(execs, fleet, last, now, r)
    ensures Settled(r, fleet)
  {
    forall x, a | x in r && Waiting(x)
      ensures !CanRun(r, fleet, a, x.labels)
    {
      var i :| 0 <= i < |r| && r[i] == x;
      assert r[i] == execs[i];
      if a in fleet && LabelsSatisfied(x.labels, fleet[a]) {
        StaysTaken(execs, fleet, last, now, r, a);
        if CanRun(execs, fleet, a, x.labels) {
          assert NotPassedOver(execs, last, now, r, i, a);
        }
      }
    }
  }

  lemma PlanEmptyIffSettled(execs: seq<Exec>, fleet: Fleet, last: map<AgentId, Time>, q: seq<nat>, c: Plan)
    requires IsQueue(execs, q) && |c| == |q|
    requires FairPlan(Requirements(execs, q), Free(execs, fleet), fleet, last, c)
    ensures AssignsNothing(c) <==> Settled(execs, fleet)
  {
    if Settled(execs, fleet) {
      forall k | 0 <= k < |c|
        ensures c[k].None?
      {
        assert execs[q[k]] in execs;
        assert c[k].Some? ==> CanRun(execs, fleet, c[k].value, execs[q[k]].labels);
      }
    }
    if AssignsNothing(c) {
      forall x, a | x in execs && Waiting(x)
        ensures !CanRun(execs, fleet, a, x.labels)
      {
        var i :| 0 <= i < |execs| && execs[i] == x;
        var k := Position(q, i);
        assert Some(a) !in c[..k];
        assert Requirements(execs, q)[k] == x.labels;
      }
    }
  }

  lemma PruneKeepsSettled(execs: seq<Exec>, fleet: Fleet, k: nat)
    requires Settled(execs, fleet)
    ensures Settled(History.Drop(execs, Done, k), fleet)
  {
    var d := History.Drop(execs, Done, k);
    History.DropMembers(execs, Done, k);
    forall x, a | x in d && Waiting(x)
      ensures !CanRun(d, fleet, a, x.labels)
    {
      assert !CanRun(execs, fleet, a, x.labels);
    }
  }

  /** A second call changes nothing. */
  lemma ScheduleIsIdempotent(st: State, fleet: Fleet, now: Time, maxHistory: int, later: Time, maxHistoryLater: int)
    requires StateOk(st.execs) && "" !in fleet
    ensures var once := Schedule(st, fleet, now, maxHistory);
      Schedule(once, fleet, later, maxHistoryLater) == once
  {
    if !AssignsNothing(PlanOf(st.execs, st.last, fleet)) {
      var once := Schedule(st, fleet, now, maxHistory);
      var r := ScheduledExecs(st.execs, st.last, fleet, now);
      ScheduleIsTheFairOutcome(st.execs, st.last, fleet, now, r);
      FairOutcomeSettles(st.execs, fleet, st.last, now, r);
      PruneKeepsSettled(r, fleet, History.Excess(r, Done, History.NormalizeMaxHistory(maxHistory)));
      var q, c := Queue(once.execs), PlanOf(once.execs, once.last, fleet);
      QueueIsQueue(once.execs);
      GreedyIsTheFairPlan(Requirements(once.execs, q), Free(once.execs, fleet), fleet, once.last, c);
      PlanEmptyIffSettled(once.execs, fleet, once.last, q, c);
    }
  }
}

/** Bounded bypass: the "oldest last assignment wins" rule of scheduleOnce
  * (ctrlsched.go:208-235) starves no agent. */
module Fairness {
  import opened Model
  import opened Transitions
  import opened Scheduler

  /** One call of scheduleOnce: whatever the queue, the executions and the fleet
    * are by then. Between calls only assignments touch the last-assignment
    * times. */
  datatype Round = Round(execs: seq<Exec>, fleet: Fleet, now: Time)

  ghost function After(last: map<AgentId, Time>, r: Round): map<AgentId, Time> {
    ScheduledLast(r.execs, last, r.fleet, r.now)
  }

  ghost predicate Chosen(last: map<AgentId, Time>, r: Round, a: AgentId) {
    Some(a) in PlanOf(r.execs, last, r.fleet)
  }

  /** Agent a is available and free at the start of every round and is chosen,
    * if at all, in the last one. */
  ghost predicate WaitsThroughout(last: map<AgentId, Time>, rounds: seq<Round>, a: AgentId)
    decreases |rounds|
  {
    |rounds| > 0 ==>
      && a in Free(rounds[0].execs, rounds[0].fleet)
      && (|rounds| > 1 ==> !Chosen(last, rounds[0], a))
      && WaitsThroughout(After(last, rounds[0]), rounds[1..], a)
  }

  /** How many items of a plan are served before a is chosen. */
  function ServedBefore(c: Plan, a: AgentId): (n: nat)
    ensures n <= |c| && Some(a) !in c[..n]
    ensures n < |c| ==> c[n] == Some(a)
  {
    if |c| == 0 || c[0] == Some(a) then 0
    else
      var n := ServedBefore(c[1..], a);
      assert c[..n + 1] == [c[0]] + c[1..][..n];
      n + 1
  }

  /** The number of items of a plan that went to another agent although a could
    * have run them. */
  function Passes(reqs: seq<seq<string>>, c: Plan, fleet: Fleet, a: AgentId): nat
    requires |c| == |reqs|
  {
    if |c| == 0 then 0
    else (if c[0].Some? && a in fleet && LabelsSatisfied(reqs[0], fleet[a]) then 1 else 0) + Passes(reqs[1..], c[1..], fleet, a)
  }

  /** Passes in one round, up to the moment a itself is chosen. */
  ghost function RoundPasses(last: map<AgentId, Time>, r: Round, a: AgentId): nat {
    var c := PlanOf(r.execs, last, r.fleet);
    var n := ServedBefore(c, a);
    Passes(Requirements(r.execs, Queue(r.execs))[..n], c[..n], r.fleet, a)
  }

  ghost function RoundPassers(last: map<AgentId, Time>, r: Round, a: AgentId): set<AgentId> {
    var c := PlanOf(r.execs, last, r.fleet);
    var n := ServedBefore(c, a);
    Passers(Requirements(r.execs, Queue(r.execs))[..n], c[..n], r.fleet, a)
  }

  ghost function TotalPasses(last: map<AgentId, Time>, rounds: seq<Round>, a: AgentId): nat
    decreases |rounds|
  {
    if |rounds| == 0 then 0
    else RoundPasses(last, rounds[0], a) + TotalPasses(After(last, rounds[0]), rounds[1..], a)
  }

  /** The clock of each round is later than every assignment before it. */
  ghost predicate ClockAdvances(last: map<AgentId, Time>, rounds: seq<Round>)
    decreases |rounds|
  {
    |rounds| > 0 ==>
      && (forall b :: LastOf(last, b) < rounds[0].now)
      && ClockAdvances(After(last, rounds[0]), rounds[1..])
  }

  ghost predicate AgentsWithin(rounds: seq<Round>, all: set<AgentId>) {
    forall i :: 0 <= i < |rounds| ==> rounds[i].fleet.Keys <= all
  }

  ghost predicate PassedOverAt(reqs: seq<seq<string>>, c: Plan, fleet: Fleet, a: AgentId, k: nat, b: AgentId)
    requires |c| == |reqs|
  {
    k < |c| && c[k] == Some(b) && a in fleet && LabelsSatisfied(reqs[k], fleet[a])
  }

  /** Agents that pass over a in one plan. */
  function Passers(reqs: seq<seq<string>>, c: Plan, fleet: Fleet, a: AgentId): set<AgentId>
    requires |c| == |reqs|
  {
    if |c| == 0 then {}
    else (if c[0].Some? && a in fleet && LabelsSatisfied(reqs[0], fleet[a]) then {c[0].value} else {}) + Passers(reqs[1..], c[1..], fleet, a)
  }

  lemma {:induction false} PasserAt(reqs: seq<seq<string>>, c: Plan, fleet: Fleet, a: AgentId, b: AgentId) returns (k: nat)
    requires |c| == |reqs| && b in Passers(reqs, c, fleet, a)
    ensures PassedOverAt(reqs, c, fleet, a, k, b)
  {
    if c[0] == Some(b) && a in fleet && LabelsSatisfied(reqs[0], fleet[a]) {
      k := 0;
    } else {
      k := PasserAt(reqs[1..], c[1..], fleet, a, b);
      k := k + 1;
    }
  }

  /** Choices are distinct, so passes and passers are counted alike. */
  lemma {:induction false} PassesCountPassers(reqs: seq<seq<string>>, c: Plan, fleet: Fleet, a: AgentId)
    requires |c| == |reqs|
    requires forall k, l :: 0 <= k < l < |c| && c[k].Some? ==> c[l] != c[k]
    ensures Passes(reqs, c, fleet, a) == |Passers(reqs, c, fleet, a)|
  {
    if |c| > 0 {
      PassesCountPassers(reqs[1..], c[1..], fleet, a);
      var p := Passers(reqs[1..], c[1..], fleet, a);
      if c[0].Some? {
        if c[0].value in p {
          var k := PasserAt(reqs[1..], c[1..], fleet, a, c[0].value);
          assert false;
        }
        assert |{c[0].value} + p| == 1 + |p|;
      }
    }
  }

  lemma PasserWasAhead(reqs: seq<seq<string>>, free: set<AgentId>, fleet: Fleet, last: map<AgentId, Time>, c: Plan, n: nat, a: AgentId, b: AgentId)
    requires |c| == |reqs| && n <= |c| && FairPlan(reqs, free, fleet, last, c) && a in free && Some(a) !in c[..n]
    requires b in Passers(reqs[..n], c[..n], fleet, a)
    ensures b in free && b in fleet && b != a && LastOf(last, b) <= LastOf(last, a) && Some(b) in c
  {
    var k := PasserAt(reqs[..n], c[..n], fleet, a, b);
    assert c[k] == c[..n][k] == Some(b) && reqs[..n][k] == reqs[k];
    assert c[..k] == c[..n][..k];
    assert a in Candidates(reqs[k], free, fleet);
    assert Some(a) !in c[..k];
    assert !Before(last, a, b);
    assert c[k] in c[..n];
  }

  /** Whoever passes over a waiting agent was not assigned later than it. */
  lemma PassersWereAhead(last: map<AgentId, Time>, r: Round, a: AgentId)
    requires a in Free(r.execs, r.fleet)
    ensures RoundPasses(last, r, a) == |RoundPassers(last, r, a)|
    ensures RoundPassers(last, r, a) <= r.fleet.Keys - {a}
    ensures forall b :: b in RoundPassers(last, r, a) ==> LastOf(last, b) <= LastOf(last, a) && Chosen(last, r, b)
  {
    var c := PlanOf(r.execs, last, r.fleet);
    var reqs, free, n := Requirements(r.execs, Queue(r.execs)), Free(r.execs, r.fleet), ServedBefore(c, a);
    GreedyIsTheFairPlan(reqs, free, r.fleet, last, c);
    PassesCountPassers(reqs[..n], c[..n], r.fleet, a);
    forall b | b in RoundPassers(last, r, a)
      ensures b in r.fleet && b != a && LastOf(last, b) <= LastOf(last, a) && Chosen(last, r, b)
    {
      PasserWasAhead(reqs, free, r.fleet, last, c, n, a, b);
    }
  }

  /** A round leaves the agents it chose behind those it did not. */
  lemma ChosenFallBehind(last: map<AgentId, Time>, r: Round, a: AgentId)
    requires !Chosen(last, r, a) && forall b :: LastOf(last, b) < r.now
    ensures LastOf(After(last, r), a) == LastOf(last, a)
    ensures forall b :: LastOf(last, b) <= LastOf(After(last, r), b)
    ensures forall b :: Chosen(last, r, b) ==> LastOf(last, a) < LastOf(After(last, r), b)
  {
    StampPlanAt(last, PlanOf(r.execs, last, r.fleet), r.now);
  }

  /** `behind` are the agents already assigned more recently than a. */
  lemma {:induction false} BypassBudget(last: map<AgentId, Time>, rounds: seq<Round>, a: AgentId, all: set<AgentId>, behind: set<AgentId>)
    requires WaitsThroughout(last, rounds, a) && ClockAdvances(last, rounds) && AgentsWithin(rounds, all)
    requires behind <= all - {a} && forall b :: b in behind ==> LastOf(last, a) < LastOf(last, b)
    ensures TotalPasses(last, rounds, a) + |behind| <= |all - {a}|
    decreases |rounds|
  {
    if |rounds| == 0 {
      Smaller(behind, all - {a});
    } else {
      var r := rounds[0];
      var p := RoundPassers(last, r, a);
      PassersWereAhead(last, r, a);
      assert p !! behind;
      assert p <= all - {a};
      assert |behind + p| == |behind| + |p|;
      assert forall i :: 0 <= i < |rounds| - 1 ==> rounds[1..][i] == rounds[i + 1];
      if |rounds| == 1 {
        Smaller(behind + p, all - {a});
      } else {
        ChosenFallBehind(last, r, a);
        BypassBudget(After(last, r), rounds[1..], a, all, behind + p);
      }
    }
  }

  lemma {:induction false} Smaller(s: set<AgentId>, t: set<AgentId>)
    requires s <= t
    ensures |s| <= |t|
  {
    if s != {} {
      var x :| x in s;
      Smaller(s - {x}, t - {x});
    }
  }

  /** With a strictly increasing clock, an agent that stays available and free
    * is passed over, before it is chosen, at most once by each other agent. */
  lemma BoundedBypass(last: map<AgentId, Time>, rounds: seq<Round>, a: AgentId, all: set<AgentId>)
    requires WaitsThroughout(last, rounds, a) && ClockAdvances(last, rounds) && AgentsWithin(rounds, all)
    ensures TotalPasses(last, rounds, a) <= |all - {a}|
  {
    BypassBudget(last, rounds, a, all, {});
  }
}

/** queueReason (ctrlsched.go): why a queued execution waits, and its agreement
  * with the scheduler. */
module QueueReasons {
  import opened Model
  import opened Transitions
  import opened Scheduler

  datatype AgentDefinition = AgentDefinition(id: AgentId, labels: seq<string>, enabled: bool, paused: bool)

  datatype AgentView = AgentView(definition: AgentDefinition, online: bool, busy: bool, blocked: bool)

  datatype QueueReason = NoMatchingLabels | Offline | Paused | BusyAgents | Disabled | Ready

  /** AgentViews: configuration joined with liveness and occupancy. */
  function Views(definitions: seq<AgentDefinition>, online: set<AgentId>, execs: seq<Exec>): (v: seq<AgentView>)
    ensures |v| == |definitions|
    ensures forall i :: 0 <= i < |v| ==> v[i] == AgentView(definitions[i], definitions[i].id in online, Busy(execs, definitions[i].id), Blocked(execs, definitions[i].id))
  {
    seq(|definitions|, i requires 0 <= i < |definitions| =>
      AgentView(definitions[i], definitions[i].id in online, Busy(execs, definitions[i].id), Blocked(execs, definitions[i].id)))
  }

  ghost predicate DistinctIds(definitions: seq<AgentDefinition>) {
    forall i, j :: 0 <= i < j < |definitions| ==> definitions[i].id != definitions[j].id
  }

  predicate Available(v: AgentView) {
    v.online && v.definition.enabled && !v.definition.paused
  }

  /** The `available` map scheduleOnce builds from the same views. */
  function FleetOf(views: seq<AgentView>): Fleet {
    if |views| == 0 then map[]
    else
      var f := FleetOf(views[..|views| - 1]);
      var v := views[|views| - 1];
      if Available(v) then f[v.definition.id := v.definition.labels] else f
  }

  /** How far an agent is from taking an item. */
  datatype Standing = Idle | Occupied | OnlinePaused | OnlineDisabled | OfflineUsable | OfflinePaused | OfflineDisabled

  function StandingOf(v: AgentView): Standing {
    if v.online then
      if !v.definition.enabled then OnlineDisabled
      else if v.definition.paused then OnlinePaused
      else if v.busy || v.blocked then Occupied
      else Idle
    else
      if !v.definition.enabled then OfflineDisabled
      else if v.definition.paused then OfflinePaused
      else OfflineUsable
  }

  predicate HasCapable(views: seq<AgentView>, required: seq<string>, standing: Standing) {
    exists v | v in views :: LabelsSatisfied(required, v.definition.labels) && StandingOf(v) == standing
  }

  /** queueReason, stated by what the fleet holds. */
  function ReasonFor(views: seq<AgentView>, required: seq<string>): QueueReason {
    if forall v | v in views :: !LabelsSatisfied(required, v.definition.labels) then NoMatchingLabels
    else if HasCapable(views, required, Idle) then Ready
    else if HasCapable(views, required, Occupied) then BusyAgents
    else if HasCapable(views, required, OnlinePaused) then Paused
    else if HasCapable(views, required, OnlineDisabled) then Disabled
    else if HasCapable(views, required, OfflineUsable) then Offline
    else if HasCapable(views, required, OfflinePaused) then Paused
    else Disabled
  }

  ghost predicate Seen(views: seq<AgentView>, standing: Standing) {
    exists v :: v in views && StandingOf(v) == standing
  }

  lemma SeenNext(views: seq<AgentView>, v: AgentView)
    ensures forall standing :: Seen(views + [v], standing) <==> Seen(views, standing) || StandingOf(v) == standing
  {
  }

  /** queueReason (ctrlsched.go:114): one pass that sets flags, then a priority
    * among them. */
  method ExplainQueued(views: seq<AgentView>, required: seq<string>) returns (reason: QueueReason)
    ensures reason == ReasonFor(views, required)
  {
    var matching: seq<AgentView> := [];
    for i := 0 to |views|
      invariant forall v :: v in matching <==> v in views[..i] && LabelsSatisfied(required, v.definition.labels)
    {
      if LabelsSatisfied(required, views[i].definition.labels) {
        matching := matching + [views[i]];
      }
    }
    if |matching| == 0 {
      return NoMatchingLabels;
    }
    assert matching[0] in matching;
    var onlineBusy, onlinePaused, onlineDisabled, offlineUsable, offlinePaused := false, false, false, false, false;
    for i := 0 to |matching|
      invariant !Seen(matching[..i], Idle)
      invariant onlineBusy == Seen(matching[..i], Occupied) && onlinePaused == Seen(matching[..i], OnlinePaused)
      invariant onlineDisabled == Seen(matching[..i], OnlineDisabled)
      invariant offlineUsable == Seen(matching[..i], OfflineUsable) && offlinePaused == Seen(matching[..i], OfflinePaused)
    {
      var view := matching[i];
      assert view in matching;
      assert matching[..i + 1] == matching[..i] + [view];
      SeenNext(matching[..i], view);
      if view.online && view.definition.enabled && !view.definition.paused {
        if !view.busy && !view.blocked {
          return Ready;
        }
        onlineBusy := true;
      } else if view.online && view.definition.enabled {
        onlinePaused := true;
      } else if view.online {
        onlineDisabled := true;
      } else if view.definition.enabled && !view.definition.paused {
        offlineUsable := true;
      } else if view.definition.enabled {
        offlinePaused := true;
      }
    }
    assert matching[..|matching|] == matching;
    if onlineBusy {
      reason := BusyAgents;
    } else if onlinePaused {
      reason := Paused;
    } else if onlineDisabled {
      reason := Disabled;
    } else if offlineUsable {
      reason := Offline;
    } else if offlinePaused {
      reason := Paused;
    } else {
      reason := Disabled;
    }
  }

  ghost predicate DistinctViews(views: seq<AgentView>) {
    forall i, j :: 0 <= i < j < |views| ==> views[i].definition.id != views[j].definition.id
  }

  ghost predicate Offers(v: AgentView, a: AgentId) {
    Available(v) && v.definition.id == a
  }

  ghost predicate Offered(views: seq<AgentView>, a: AgentId) {
    exists v :: v in views && Offers(v, a)
  }

  lemma OfferedNext(views: seq<AgentView>, v: AgentView, a: AgentId)
    ensures Offered(views + [v], a) <==> Offered(views, a) || Offers(v, a)
  {
  }

  /** The labels the fleet records are those of some view that offers the agent. */
  ghost predicate LabelledBy(views: seq<AgentView>, a: AgentId, labels: seq<string>) {
    exists v :: v in views && Offers(v, a) && v.definition.labels == labels
  }

  lemma {:induction false} FleetIsOffered(views: seq<AgentView>, a: AgentId)
    ensures a in FleetOf(views) <==> Offered(views, a)
    ensures a in FleetOf(views) ==> LabelledBy(views, a, FleetOf(views)[a])
  {
    if |views| > 0 {
      var n := |views| - 1;
      FleetIsOffered(views[..n], a);
      OfferedNext(views[..n], views[n], a);
      assert views[..n] + [views[n]] == views;
      if a in FleetOf(views) && !Offers(views[n], a) {
        var v :| v in views[..n] && Offers(v, a) && v.definition.labels == FleetOf(views)[a];
        assert v in views;
      }
    }
  }

  lemma FleetOfViews(views: seq<AgentView>, a: AgentId)
    requires DistinctViews(views)
    ensures a in FleetOf(views) <==> Offered(views, a)
    ensures forall v :: v in views && Offers(v, a) ==> a in FleetOf(views) && FleetOf(views)[a] == v.definition.labels
  {
    FleetIsOffered(views, a);
  }

  /** READY is said of exactly the items scheduleOnce has a candidate for. */
  lemma ReadyMeansCandidate(definitions: seq<AgentDefinition>, online: set<AgentId>, execs: seq<Exec>, required: seq<string>)
    requires DistinctIds(definitions)
    ensures var views := Views(definitions, online, execs);
      ReasonFor(views, required).Ready? <==> exists a :: CanRun(execs, FleetOf(views), a, required)
  {
    var views := Views(definitions, online, execs);
    var fleet := FleetOf(views);
    if ReasonFor(views, required).Ready? {
      var v :| v in views && LabelsSatisfied(required, v.definition.labels) && StandingOf(v).Idle?;
      FleetOfViews(views, v.definition.id);
      assert Offers(v, v.definition.id);
      assert CanRun(execs, fleet, v.definition.id, required);
    }
    if a :| CanRun(execs, fleet, a, required) {
      FleetOfViews(views, a);
      var v :| v in views && Offers(v, a);
      assert StandingOf(v).Idle?;
      assert HasCapable(views, required, Idle);
    }
  }

  lemma FirstReadyIsAssigned(definitions: seq<AgentDefinition>, online: set<AgentId>, execs: seq<Exec>,
                             last: map<AgentId, Time>, now: Time, i: nat, r: seq<Exec>)
    requires DistinctIds(definitions) && i < |execs| && Waiting(execs[i])
    requires ReasonFor(Views(definitions, online, execs), execs[i].labels).Ready?
    requires forall j :: 0 <= j < |execs| && Waiting(execs[j]) && Earlier(execs, j, i) ==>
               !ReasonFor(Views(definitions, online, execs), execs[j].labels).Ready?
    requires FairOutcome(execs, FleetOf(Views(definitions, online, execs)), last, now, r)
    ensures r[i].status.Assigned?
  {
    var fleet := FleetOf(Views(definitions, online, execs));
    ReadyMeansCandidate(definitions, online, execs, execs[i].labels);
    var a :| CanRun(execs, fleet, a, execs[i].labels);
    forall j | 0 <= j < |r| && Earlier(execs, j, i)
      ensures !Gets(execs[j], r[j], a, now)
    {
      ReadyMeansCandidate(definitions, online, execs, execs[j].labels);
      assert Waiting(execs[j]) ==> !CanRun(execs, fleet, a, execs[j].labels);
    }
    assert NotPassedOver(execs, last, now, r, i, a);
    assert Gets(execs[i], r[i], r[i].agent, now);
  }

  lemma NothingReadyAfterwards(definitions: seq<AgentDefinition>, online: set<AgentId>, execs: seq<Exec>, r: seq<Exec>, x: Exec)
    requires DistinctIds(definitions) && Settled(r, FleetOf(Views(definitions, online, execs)))
    requires x in r && Waiting(x)
    ensures !ReasonFor(Views(definitions, online, r), x.labels).Ready?
  {
    SameFleet(Views(definitions, online, r), Views(definitions, online, execs));
    ReadyMeansCandidate(definitions, online, r, x.labels);
  }

  /** The queue page and the scheduler agree: the first item shown as READY is
    * assigned by the next call, and afterwards no queued item is READY. */
  lemma ReasonsAgreeWithScheduler(definitions: seq<AgentDefinition>, online: set<AgentId>, execs: seq<Exec>,
                                  last: map<AgentId, Time>, now: Time, i: nat)
    requires StateOk(execs) && DistinctIds(definitions) && forall d :: d in definitions ==> d.id != ""
    requires i < |execs| && Waiting(execs[i]) && ReasonFor(Views(definitions, online, execs), execs[i].labels).Ready?
    requires forall j :: 0 <= j < |execs| && Waiting(execs[j]) && Earlier(execs, j, i) ==>
               !ReasonFor(Views(definitions, online, execs), execs[j].labels).Ready?
    ensures var r := ScheduledExecs(execs, last, FleetOf(Views(definitions, online, execs)), now);
      && r[i].status.Assigned?
      && (forall x :: x in r && x.status.Queued? ==> !ReasonFor(Views(definitions, online, r), x.labels).Ready?)
  {
    var views := Views(definitions, online, execs);
    var fleet := FleetOf(views);
    var r := ScheduledExecs(execs, last, fleet, now);
    FleetOfViews(views, "");
    ScheduleIsTheFairOutcome(execs, last, fleet, now, r);
    FirstReadyIsAssigned(definitions, online, execs, last, now, i, r);
    FairOutcomeKeepsInvariant(execs, fleet, last, now, r);
    FairOutcomeSettles(execs, fleet, last, now, r);
    forall x | x in r && x.status.Queued?
      ensures !ReasonFor(Views(definitions, online, r), x.labels).Ready?
    {
      var m :| 0 <= m < |r| && r[m] == x;
      assert ExecOk(r[m]);
      NothingReadyAfterwards(definitions, online, execs, r, x);
    }
  }

  lemma {:induction false} SameFleet(u: seq<AgentView>, v: seq<AgentView>)
    requires |u| == |v|
    requires forall k :: 0 <= k < |u| ==> u[k].definition == v[k].definition && u[k].online == v[k].online
    ensures FleetOf(u) == FleetOf(v)
  {
    if |u| > 0 {
      SameFleet(u[..|u| - 1], v[..|v| - 1]);
    }
  }
}

/** Which calls a parameter request makes, and until when it waits (src/ros/parameters.rs, src/ros/api.rs). */
module ParameterCalls {
  import opened Basics
  import opened Backend
  import opened Parameters
  import opened ParameterRuns
  import opened ParameterAnswers
  import opened ParameterNames

  /** One call takes two calls of the backend, and is made if both succeed. */
  lemma OneCallIff(s: State, services: set<Entity>, id: nat, node: string, deleteCheck: bool)
    requires Owned(s, services) && id in s.groups
    ensures var (s', ok) := StartCall(s, id, node, deleteCheck);
      && (ok <==> s.ros.AllSucceed(2))
      && s'.ros.fate == s.ros.fate && s'.groups.Keys == s.groups.Keys && s'.finished == s.finished
      && (ok ==> && s'.ros.calls == s.ros.calls + 2 && s'.asked == s.asked + [(id, node)]
                 && s'.groups == s.groups[id := s.groups[id].(remaining := s.groups[id].remaining + 1)])
      && (!ok ==> s'.groups == s.groups && s'.asked == s.asked)
  {
    assert s.ros.AllSucceed(2) <==> s.ros.fate(s.ros.calls) && s.ros.fate(s.ros.calls + 1);
  }

  lemma SucceedSplit(ros: Ros, after: Ros, n: nat)
    requires after.fate == ros.fate && after.calls == ros.calls + 2
    ensures ros.AllSucceed(n + 2) <==> ros.AllSucceed(2) && after.AllSucceed(n)
  {
  }

  function Asks(id: nat, nodes: seq<string>): seq<(nat, string)> {
    seq(|nodes|, i requires 0 <= i < |nodes| => (id, nodes[i]))
  }

  lemma {:induction false} CallsIff(s: State, services: set<Entity>, id: nat, nodes: seq<string>, deleteCheck: bool)
    requires SoundBut(s, services, id) && (deleteCheck ==> s.groups[id].op.DeleteParam?)
    ensures var (s', ok) := StartCalls(s, id, nodes, deleteCheck);
      && (ok <==> s.ros.AllSucceed(2 * |nodes|)) && s'.finished == s.finished
      && (forall g :: g in s.groups && g != id ==> s'.groups[g] == s.groups[g])
      && s'.groups[id] == s.groups[id].(remaining := s'.groups[id].remaining)
      && (ok ==> s'.asked == s.asked + Asks(id, nodes) && s'.groups[id].remaining == s.groups[id].remaining + |nodes|)
    decreases |nodes|
  {
    hide SoundBut, Sound, StartCall, Owned, SameLedger, Ros.AllSucceed;
    SoundButIsOwned(s, services, id);
    if nodes == [] {
      NoneToSucceed(s.ros);
      assert s.asked + Asks(id, nodes) == s.asked;
    } else {
      OneCallIff(s, services, id, nodes[0], deleteCheck);
      StartCallKeepsSound(s, services, id, nodes[0], deleteCheck);
      var (s1, ok) := StartCall(s, id, nodes[0], deleteCheck);
      if ok {
        SoundIsSoundBut(s1, services, id);
        CallsIff(s1, services, id, nodes[1..], deleteCheck);
        SucceedSplit(s.ros, s1.ros, 2 * |nodes[1..]|);
        assert s.asked + Asks(id, nodes) == s.asked + [(id, nodes[0])] + Asks(id, nodes[1..]);
      } else {
        FewerSucceed(s.ros, 2, 2 * |nodes|);
      }
    }
  }

  lemma NoneToSucceed(ros: Ros)
    ensures ros.AllSucceed(0)
  {
  }

  lemma FewerSucceed(ros: Ros, n: nat, m: nat)
    requires n <= m
    ensures ros.AllSucceed(m) ==> ros.AllSucceed(n)
  {
  }

  /** The calls could be planned, and the backend makes all of them. */
  predicate CallsGoOut(ros: Ros, plan: Plan) {
    plan.Calls? && ros.AllSucceed(2 * |plan.nodes|)
  }

  /** It waits for a reply of each planned node, all of which have been called, until its deadline. */
  ghost predicate WaitsForAll(s: State, s': State, service: Entity, request: nat, op: Op, plan: Plan, deadline: nat) {
    && plan.Calls? && request in s'.groups
    && s'.groups[request] == Group(service, request, op, |plan.nodes|, [], deadline)
    && s'.asked == s.asked + Asks(request, plan.nodes) && s'.finished == s.finished
  }

  /** It was finished at once, over an error or not. */
  ghost predicate IsFinishedNow(s: State, s': State, request: nat, op: Op, failed: bool) {
    && request !in s'.groups
    && |s'.finished| == |s.finished| + 1 && s'.finished[..|s.finished|] == s.finished
    && var f := s'.finished[|s.finished|];
    && f.request == request
    && if failed then exists reason :: f.response == ResponseTo(op, [], None, Some(reason))
       else f.response == ResponseTo(op, [], None, None)
  }

  /**
   A request that is accepted calls exactly the planned nodes and then waits for them all, until its
   deadline, if its calls could be planned and all go out and there are any. Otherwise it is finished
   at once: without an error if there was nobody to call, and with one if something failed.
   */
  lemma AcceptedWaitsIff(s: State, services: set<Entity>, service: Entity, request: nat, op: Op, plan: Plan,
                         deadline: nat)
    requires Sound(s, services) && Enabled(s, services, ParameterRequest(service, request, op, plan))
    ensures var s' := Accept(s, service, request, op, plan, deadline).0;
      if CallsGoOut(s.ros, plan) && plan.nodes != []
      then WaitsForAll(s, s', service, request, op, plan, deadline)
      else IsFinishedNow(s, s', request, op, !CallsGoOut(s.ros, plan))
  {
    var s1 := Register(s, service, request, op, plan, deadline);
    hide Sound, SoundBut, StartCalls, FinishGroup, Ros.AllSucceed, Outstanding, Counted, Accounted, Owned, ResponseTo,
      Members;
    NewIsNoGroup(s, services, request);
    RegisterKeepsSound(s, services, service, request, op, plan, deadline);
    match plan
    case Impossible(reason) => FinishedNow(s1, request, Some(reason));
    case Calls(nodes) =>
      CallsIff(s1, services, request, nodes, op.DeleteParam?);
      var (s2, ok) := StartCalls(s1, request, nodes, op.DeleteParam?);
      FinishedNow(s2, request, Some("call failed"));
      FinishedNow(s2, request, None);
  }

  lemma NewIsNoGroup(s: State, services: set<Entity>, request: nat)
    requires Sound(s, services) && request !in s.accepted
    ensures request !in s.groups
  {
  }

  lemma FinishedNow(s: State, id: nat, error: Option<string>)
    requires id in s.groups
    ensures s.groups[id].names == [] ==>
      IsFinishedNow(s, FinishGroup(s, id, None, error).0, id, s.groups[id].op, error.Some?)
  {
    hide ResponseTo;
  }

  // ---------- deadlines ----------

  /** What is accepted in a round has this deadline. */
  ghost predicate DueAt(before: map<nat, Accepted>, after: map<nat, Accepted>, deadline: nat) {
    && (forall r :: r in before ==> r in after && after[r] == before[r])
    && forall r :: r in after && r !in before ==> after[r].deadline == deadline
  }

  lemma {:induction false} EventsDueAt(s: State, services: set<Entity>, events: seq<Event>, deadline: nat)
    requires Ready(s, services, events)
    ensures DueAt(s.accepted, HandleEvents(s, events, deadline).0.accepted, deadline)
    decreases |events|
  {
    hide Sound, HandleEvent;
    if events != [] {
      EventKeepsReady(s, services, events, deadline);
      EventKeepsSound(s, services, events[0], deadline);
      var (s1, ok) := HandleEvent(s, events[0], deadline);
      if ok { EventsDueAt(s1, services, events[1..], deadline); }
    }
  }

  lemma {:induction false} ExpiryAcceptsNothing(s: State, ids: seq<nat>)
    ensures Expire(s, ids).0.accepted == s.accepted
    decreases |ids|
  {
    if ids != [] {
      var (s1, ok) := FinishGroup(s, ids[0], None, Some("Timeout occurred"));
      if ok { ExpiryAcceptsNothing(s1, ids[1..]); }
    }
  }

  /** Whatever is accepted in a round waits until the round's time plus the timeout, and no longer. */
  lemma RoundSetsDeadlines(s: State, services: set<Entity>, round: Step)
    requires Sound(s, services) && round.Round? && Possible(s, services, round)
    ensures DueAt(s.accepted, Take(s, round).accepted, round.now + round.timeout)
  {
    hide Sound, HandleEvents, Expire;
    EventsDueAt(s, services, round.events, round.now + round.timeout);
    ExpiryAcceptsNothing(HandleEvents(s, round.events, round.now + round.timeout).0, round.expired);
  }
}

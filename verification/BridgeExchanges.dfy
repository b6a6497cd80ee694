/** Calls, forwarded requests and goals from their start to their end (src/bridge). */
module BridgeExchanges {
  import opened Basics
  import opened Backend
  import opened BridgeState
  import opened BridgeServices
  import opened BridgeActions
  import opened BridgeMoves
  import opened BridgeShapes
  import opened BridgeRuns
  import Own = BridgeOwnership
  import Requests = BridgeRequests
  import Replies = BridgeReplies
  import Tracks = BridgeClientGoals
  import Outcomes = BridgeOutcomes

  // ---------- calls ----------

  /**
   A call that starts is one new record, of this client and id, on one new entity; one that
   does not start leaves records, entities and requests as they were.
   */
  lemma CallStarts(s: State, owner: Connection, id: Id, service: string, declared: Declared,
                   known: Option<seq<string>>, permitted: bool, timeout: Timeout, now: nat)
    requires s.ros.Valid() && Replies.KnownRecords(s)
    ensures var (t, ok) := CallService(s, owner, id, service, declared, known, permitted, timeout, now);
      var ticket := (s.ros.nextEntity, s.ros.nextSequence);
      && t == s.(rpc := s.rpc.(calls := t.rpc.calls), ros := t.ros)
      && (!ok ==> t.rpc == s.rpc && Rolled(s.ros, t.ros))
      && (ok ==> ticket !in s.rpc.calls && ticket in t.rpc.calls && t.rpc.calls - {ticket} == s.rpc.calls
                 && t.rpc.calls[ticket].owner == owner && t.rpc.calls[ticket].id == id
                 && t.rpc.calls[ticket].service == service
                 && t.rpc.calls[ticket].expires == now + (if timeout.After? then timeout.duration else s.timeout)
                 && Grew(s.ros, t.ros, {ticket.0}))
  {
    CallServiceShape(s, owner, id, service, declared, known, permitted, timeout, now);
    var (t, ok) := CallService(s, owner, id, service, declared, known, permitted, timeout, now);
    var ticket := (s.ros.nextEntity, s.ros.nextSequence);
    if ok { assert t.rpc.calls - {ticket} == s.rpc.calls; }
  }

  /** The end of a call undoes its start: all that remains is one reply to the caller, under its id. */
  lemma ReplyUndoesCall(s: State, owner: Connection, id: Id, service: string, declared: Declared,
                        known: Option<seq<string>>, permitted: bool, timeout: Timeout, now: nat, success: bool)
    requires s.ros.Valid() && Replies.KnownRecords(s)
    requires CallService(s, owner, id, service, declared, known, permitted, timeout, now).1
    ensures var ticket := (s.ros.nextEntity, s.ros.nextSequence);
      var s1 := CallService(s, owner, id, service, declared, known, permitted, timeout, now).0;
      && ticket in s1.rpc.calls
      && var t := FinishCall(s1, ticket, success);
      && t == s.(desk := Post(s.desk, owner, ServiceReply(ticket, service, id, success)), ros := t.ros)
      && Rolled(s.ros, t.ros)
  {
    CallStarts(s, owner, id, service, declared, known, permitted, timeout, now);
    var s1 := CallService(s, owner, id, service, declared, known, permitted, timeout, now).0;
    hide CallService, Post;
    Outcomes.GoneAgain(s.ros, s1.ros, s.ros.nextEntity);
  }

  // ---------- forwarded requests ----------

  /** A client may answer this id: it is waiting, and the client and the service are its own. */
  predicate MayAnswer(s: State, owner: Connection, id: string, service: string, success: Option<bool>) {
    && id in s.rpc.external && s.rpc.external[id].owner == owner && s.rpc.external[id].service == service
    && success == Some(true)
  }

  /**
   An answer gets through exactly if the client may give it and the backend sends it; then its
   native request is over and cannot be answered again. Otherwise nothing waiting is lost.
   */
  lemma AnswerEndsRequest(s: State, owner: Connection, id: string, service: string, success: Option<bool>)
    requires Own.Owned(s) && Requests.Complete(s)
    ensures var (t, ok) := ServiceResponse(s, owner, id, service, success);
      && (ok <==> MayAnswer(s, owner, id, service, success) && s.ros.Succeeds())
      && t == s.(rpc := s.rpc.(external := t.rpc.external), ros := t.ros) && t.ros.live == s.ros.live
      && (!ok ==> t.rpc == s.rpc && t.ros.requests == s.ros.requests)
      && (ok ==> var native := (s.rpc.external[id].entity, s.rpc.external[id].request);
                 && native in s.ros.requests && t.ros.requests == s.ros.requests - {native}
                 && t.rpc.external == s.rpc.external - {id}
                 && !ServiceResponse(t, owner, id, service, success).1)
  {
    if id in s.rpc.external {
      assert Requests.ClaimOf(s.rpc.external, s.servers.serverGoals, Requests.Forwarded(id))
          == Some((s.rpc.external[id].entity, s.rpc.external[id].request));
    }
  }

  /**
   A request taken from the middleware is filed under an id that was free and its service's
   owner is told; the owner's answer under that id then leaves everything as it was before.
   */
  lemma AnswerUndoesForwarding(s: State, name: string, now: nat)
    requires Own.Owned(s) && Requests.Complete(s) && name in s.rpc.services
    ensures var service := s.rpc.services[name];
      var id := RequestId(name, service.nextRequest + 1);
      var (ros, request) := s.ros.Take(service.entity);
      var t := ForwardRequest(s.(ros := ros), name, request, now);
      var (u, ok) := ServiceResponse(t, service.owner, id, name, Some(true));
      && id !in s.rpc.external && id in t.rpc.external && t.rpc.external - {id} == s.rpc.external
      && t.desk == Post(s.desk, service.owner, ServiceRequest(id, name))
      && t.ros.requests == s.ros.requests + {(service.entity, request)}
      && (ok <==> ros.Succeeds())
      && (ok ==> u.rpc.external == s.rpc.external && u.ros.requests == s.ros.requests && u.ros.live == s.ros.live)
  {
    hide RequestId, Post;
    var service := s.rpc.services[name];
    var id := RequestId(name, service.nextRequest + 1);
    Requests.NextIdIsFree(s.rpc, name);
    assert Own.Holder(Own.RecordsOf(s), Own.OfService(name)) == Some(service.entity);
    var (ros, request) := s.ros.Take(service.entity);
    assert (service.entity, request) !in s.ros.requests;
    assert ros.requests - {(service.entity, request)} == s.ros.requests;
    var t := ForwardRequest(s.(ros := ros), name, request, now);
    assert t.rpc.external - {id} == s.rpc.external;
  }

  // ---------- goals ----------

  /** A goal that starts is one new record with five new entities and one request out; otherwise nothing is new. */
  lemma GoalStarts(s: State, owner: Connection, action: string, id: Id, feedback: bool, uuid: Uuid, now: nat)
    requires s.ros.Valid() && Tracks.Tracked(s.actions, s.ros.nextSequence) && uuid !in s.actions.issued
    ensures var (t, ok) := SendGoal(s, owner, action, id, feedback, uuid, now);
      && t == s.(actions := t.actions, ros := t.ros)
      && (!ok ==> t.actions == s.actions && Rolled(s.ros, t.ros))
      && (GoalActive(s, owner, action, id) ==> !ok)
      && (ok ==> uuid in t.actions.goals && t.actions.goals - {uuid} == s.actions.goals
                 && SameGoal(t.actions.goals[uuid], owner, action, id) && !t.actions.goals[uuid].accepted
                 && !t.actions.goals[uuid].cancelling && t.actions.goals[uuid].feedback == feedback
                 && t.actions.goals[uuid].acceptanceDeadline == now + s.timeout
                 && Grew(s.ros, t.ros, t.actions.goals[uuid].five.All())
                 && CallsOfOthers(t.actions.actionCalls, uuid) == s.actions.actionCalls)
  {
    assert Tracks.Named(s.actions, s.ros.nextSequence) && s.actions.goals.Keys <= s.actions.issued;
    hide SendGoal, GoalActive, Distinct, Grew, Rolled, Tracks.Tracked, Ros.Valid, Tracks.Named;
    SendGoalShape(s, owner, action, id, feedback, uuid, now);
    ActiveGoalRefused(s, owner, action, id, feedback, uuid, now);
    var (t, ok) := SendGoal(s, owner, action, id, feedback, uuid, now);
    if ok {
      assert t.actions.goals - {uuid} == s.actions.goals;
      NewCallIsItsOnly(s.actions, s.ros.nextSequence, uuid, t.actions.goals[uuid].five.send);
    }
  }

  lemma ActiveGoalRefused(s: State, owner: Connection, action: string, id: Id, feedback: bool, uuid: Uuid, now: nat)
    ensures GoalActive(s, owner, action, id) ==> !SendGoal(s, owner, action, id, feedback, uuid, now).1
  {
  }

  lemma NewCallIsItsOnly(a: Actions, sequence: nat, uuid: Uuid, e: Entity)
    requires Tracks.Named(a, sequence) && uuid !in a.goals
    ensures CallsOfOthers(a.actionCalls[(e, sequence) := ActionCall(Send, uuid)], uuid) == a.actionCalls
  {
    assert (e, sequence) !in a.actionCalls;
    assert forall k :: k in a.actionCalls ==> a.actionCalls[k].goal != uuid;
  }

  /** A goal that ends is gone with its entities and requests after one reply; no other goal is touched. */
  lemma GoalEnds(s: State, goal: Uuid, status: int, success: bool)
    requires goal in s.actions.goals
    ensures var g, t := s.actions.goals[goal], FinishGoal(s, goal, status, success);
      && t == s.(desk := t.desk, actions := t.actions, ros := t.ros)
      && t.desk == Post(s.desk, g.owner, GoalReply(goal, g.action, g.id, status, success))
      && t.actions.goals == s.actions.goals - {goal}
      && (forall k :: k in t.actions.actionCalls <==> k in s.actions.actionCalls && s.actions.actionCalls[k].goal != goal)
      && (forall k :: k in t.actions.actionCalls ==> t.actions.actionCalls[k] == s.actions.actionCalls[k])
      && (forall e :: e in t.ros.live <==> e in s.ros.live && e !in g.five.All())
  {
  }

  /** The end of a goal undoes its start: all that remains is one reply to its client, under its id. */
  lemma EndUndoesGoal(s: State, owner: Connection, action: string, id: Id, feedback: bool, uuid: Uuid, now: nat,
                      status: int, success: bool)
    requires s.ros.Valid() && Tracks.Tracked(s.actions, s.ros.nextSequence) && uuid !in s.actions.issued
    requires SendGoal(s, owner, action, id, feedback, uuid, now).1
    ensures var t := FinishGoal(SendGoal(s, owner, action, id, feedback, uuid, now).0, uuid, status, success);
      && t == s.(desk := Post(s.desk, owner, GoalReply(uuid, action, id, status, success)), actions := t.actions,
                 ros := t.ros)
      && t.actions == s.actions.(issued := s.actions.issued + {uuid})
      && t.ros.live == s.ros.live && t.ros.requests == s.ros.requests
  {
    GoalStarts(s, owner, action, id, feedback, uuid, now);
    SendGoalShape(s, owner, action, id, feedback, uuid, now);
    var s1 := SendGoal(s, owner, action, id, feedback, uuid, now).0;
    hide SendGoal, CallsOfOthers, Five.All, Post, Distinct;
    FinishGoalShape(s1, uuid, status, success);
    var five := s1.actions.goals[uuid].five;
    assert s.actions.stranded - {uuid} == s.actions.stranded;
    assert s1.ros.DestroyAll(five.All()).live == s.ros.live;
    assert s1.ros.DestroyAll(five.All()).requests == s.ros.requests;
  }

  /** The answer that ends a goal: its refusal, or its result. */
  predicate Ends(part: Part, answer: Answer) {
    (part == Part.Send && !answer.accepted) || part == Part.Result
  }

  /** How the goal changes that goes on after an answer. */
  function Advanced(g: ClientGoal, part: Part, answer: Answer): ClientGoal {
    match part
    case Send => g.(accepted := true)
    case Cancel => if answer.returnCode == Some(0) then g else g.(cancelling := false)
    case _ => g
  }

  /**
   An answer concerns one goal: it ends it with exactly one final reply, or takes it one step on
   without one. It is taken in only once, and no other goal notices.
   */
  lemma AnswerEndsOrAdvances(s: State, ticket: Ticket, answer: Answer)
    requires Tracks.Tracked(s.actions, s.ros.nextSequence) && ticket in s.actions.actionCalls
    ensures var call := s.actions.actionCalls[ticket];
      var (t, _) := ActionResponse(s, ticket, answer);
      && call.goal in s.actions.goals && var g := s.actions.goals[call.goal];
      && ticket !in t.actions.actionCalls
      && (forall h :: h != call.goal ==> (h in t.actions.goals <==> h in s.actions.goals))
      && (forall h :: h != call.goal && h in s.actions.goals ==> t.actions.goals[h] == s.actions.goals[h])
      && (call.goal in t.actions.goals <==> !Ends(call.part, answer))
      && (if Ends(call.part, answer) then
            var status := if call.part == Part.Send then 6 else answer.status;
            t.desk == Post(s.desk, g.owner, GoalReply(call.goal, g.action, g.id, status, status == 4))
          else t.actions.goals[call.goal] == Advanced(g, call.part, answer) && Chatted(s.desk, t.desk))
  {
    var call := s.actions.actionCalls[ticket];
    var s1 := s.(actions := s.actions.(actionCalls := s.actions.actionCalls - {ticket}));
    FinishGoalShape(s1, call.goal, 6, false);
    FinishGoalShape(s1, call.goal, answer.status, answer.status == 4);
    CancelAnsweredShape(s1, call.goal, answer.returnCode);
    if call.goal in s1.actions.goals { AcceptGoalShape(s1, call.goal); }
    hide FinishGoal, AcceptGoal, Post;
  }
}

/** What each operation of the bridge can change, as the proofs about it use it. */
module BridgeShapes {
  import opened Basics
  import opened Backend
  import opened BridgeState
  import opened BridgeTopics
  import opened BridgeServices
  import opened BridgeActions
  import Delivery

  // ---------- the backend ----------

  /** Entities and native requests are as before; identifiers may have been used up. */
  ghost predicate Rolled(a: Ros, b: Ros) {
    && b.live == a.live && b.requests == a.requests && b.nextRequest == a.nextRequest
    && a.nextEntity <= b.nextEntity && a.nextSequence <= b.nextSequence
  }

  /** The entities `es` are new. */
  ghost predicate Grew(a: Ros, b: Ros, es: set<Entity>) {
    && b.live == a.live + es && b.requests == a.requests && b.nextRequest == a.nextRequest
    && a.nextEntity <= b.nextEntity && a.nextSequence <= b.nextSequence
    && forall e :: e in es ==> a.nextEntity <= e < b.nextEntity
  }

  lemma RolledValid(a: Ros, b: Ros)
    requires a.Valid() && Rolled(a, b)
    ensures b.Valid()
  {
  }

  lemma GrewValid(a: Ros, b: Ros, es: set<Entity>)
    requires a.Valid() && Grew(a, b, es)
    ensures b.Valid() && es !! a.live
  {
  }

  lemma DestroyValid(a: Ros, es: set<Entity>)
    requires a.Valid()
    ensures a.DestroyAll(es).Valid()
  {
  }

  // ---------- messages ----------

  predicate Final(body: Body) {
    body.ServiceReply? || body.GoalReply?
  }

  /** Whatever was sent in between is not the final reply of a call or a goal. */
  ghost predicate NoReply(a: Wire, b: Wire) {
    && b.accepts == a.accepts && a.sent <= b.sent
    && forall i :: |a.sent| <= i < |b.sent| ==> !Final(b.sent[i].body)
  }

  /** Messages went out; clients may have failed over them. */
  ghost predicate OnlySent(a: Desk, b: Desk) {
    && b.outputs == a.outputs && a.next <= b.next && a.failed <= b.failed <= a.failed + a.outputs
    && b.wire.accepts == a.wire.accepts && a.wire.sent <= b.wire.sent
  }

  /** ... and none of them was the final reply of a call or a goal. */
  ghost predicate Chatted(a: Desk, b: Desk) {
    OnlySent(a, b) && NoReply(a.wire, b.wire)
  }

  lemma PostShape(d: Desk, owner: Connection, body: Body)
    ensures var e := Post(d, owner, body);
      && OnlySent(d, e)
      && (e.wire == d.wire || e.wire == d.wire.(sent := d.wire.sent + [Sent(owner, body)]))
      && (!Final(body) ==> Chatted(d, e))
  {
  }

  lemma SendToShape(s: State, owner: Connection, body: Body)
    requires !Final(body)
    ensures var t := SendTo(s, owner, body); t == s.(desk := t.desk) && Chatted(s.desk, t.desk)
  {
    PostShape(s.desk, owner, body);
  }

  predicate Unfinal(messages: seq<Sent>) {
    forall i :: 0 <= i < |messages| ==> !Final(messages[i].body)
  }

  lemma {:induction false} PostAllShape(d: Desk, messages: seq<Sent>)
    requires Unfinal(messages)
    ensures Chatted(d, PostAll(d, messages))
  {
    if messages != [] {
      var n := |messages| - 1;
      PostAllShape(d, messages[..n]);
      PostShape(PostAll(d, messages[..n]), messages[n].owner, messages[n].body);
    }
  }

  // ---------- topics ----------

  lemma AdvertiseShape(s: State, owner: Connection, topic: string, id: Id, setup: Setup)
    ensures var (t, ok) := Advertise(s, owner, topic, id, setup);
      || (!ok && t == s.(ros := t.ros) && Rolled(s.ros, t.ros))
      || (ok && topic in s.topics.publishers && topic in t.topics.publishers
          && t == s.(topics := s.topics.(publishers := s.topics.publishers[topic := t.topics.publishers[topic]]))
          && t.topics.publishers[topic] == s.topics.publishers[topic].(owners := t.topics.publishers[topic].owners)
          && t.topics.publishers[topic].owners.Keys == s.topics.publishers[topic].owners.Keys + {owner}
          && t.topics.publishers[topic].owners
                == s.topics.publishers[topic].owners[owner := t.topics.publishers[topic].owners[owner]]
          && id in t.topics.publishers[topic].owners[owner])
      || (ok && topic !in s.topics.publishers && topic in t.topics.publishers
          && t == s.(topics := s.topics.(publishers := s.topics.publishers[topic := t.topics.publishers[topic]]),
                     ros := t.ros)
          && Grew(s.ros, t.ros, {t.topics.publishers[topic].entity})
          && t.topics.publishers[topic].owners == map[owner := {id}])
  {
  }

  lemma UnadvertiseShape(s: State, owner: Connection, topic: string, id: Id)
    ensures var (t, ok) := Unadvertise(s, owner, topic, id);
      || (!ok && t == s)
      || (ok && topic in s.topics.publishers && owner in s.topics.publishers[topic].owners
          && topic in t.topics.publishers
          && t == s.(topics := s.topics.(publishers := s.topics.publishers[topic := t.topics.publishers[topic]]))
          && t.topics.publishers[topic] == s.topics.publishers[topic].(owners := t.topics.publishers[topic].owners)
          && t.topics.publishers[topic].owners != map[]
          && (t.topics.publishers[topic].owners == s.topics.publishers[topic].owners - {owner}
              || (id.Some? && owner in t.topics.publishers[topic].owners
                  && t.topics.publishers[topic].owners[owner] != {}
                  && t.topics.publishers[topic].owners
                        == s.topics.publishers[topic].owners[owner := t.topics.publishers[topic].owners[owner]])))
      || (ok && topic in s.topics.publishers && owner in s.topics.publishers[topic].owners
          && s.topics.publishers[topic].owners.Keys == {owner}
          && t == s.(topics := s.topics.(publishers := s.topics.publishers - {topic}),
                     ros := s.ros.Destroy(s.topics.publishers[topic].entity)))
  {
    var (t, ok) := Unadvertise(s, owner, topic, id);
    if ok && topic !in t.topics.publishers {
      var owners := s.topics.publishers[topic].owners;
      assert owners - {owner} == map[];
      assert forall c :: c in owners && c != owner ==> c in owners - {owner};
      assert owners.Keys == {owner};
    }
  }

  lemma OpenTopicShape(s: State, topic: string, setup: Setup)
    ensures var (t, ok) := OpenTopic(s, topic, setup);
      || (t == s.(ros := t.ros) && Rolled(s.ros, t.ros) && (ok ==> topic in s.topics.subscriptions))
      || (ok && topic !in s.topics.subscriptions && topic in t.topics.subscriptions
          && t == s.(topics := s.topics.(
                       subscriptions := s.topics.subscriptions[topic := t.topics.subscriptions[topic]]),
                     ros := t.ros)
          && Grew(s.ros, t.ros, {t.topics.subscriptions[topic].entity})
          && t.topics.subscriptions[topic].clients == map[] && t.topics.subscriptions[topic].retained.None?)
  {
  }

  lemma JoinTopicShape(s: State, owner: Connection, topic: string, id: Id, options: Delivery.Options, now: nat)
    requires topic in s.topics.subscriptions
    ensures var t := JoinTopic(s, owner, topic, id, options, now);
      && t == s.(topics := s.topics.(subscriptions := t.topics.subscriptions), desk := t.desk)
        && Chatted(s.desk, t.desk)
      && topic in t.topics.subscriptions
        && t.topics.subscriptions == s.topics.subscriptions[topic := t.topics.subscriptions[topic]]
      && t.topics.subscriptions[topic]
            == s.topics.subscriptions[topic].(clients := t.topics.subscriptions[topic].clients)
      && owner in t.topics.subscriptions[topic].clients
      && t.topics.subscriptions[topic].clients
            == s.topics.subscriptions[topic].clients[owner := t.topics.subscriptions[topic].clients[owner]]
      && id in t.topics.subscriptions[topic].clients[owner].registrations
  {
    var t := JoinTopic(s, owner, topic, id, options, now);
    var sub := s.topics.subscriptions[topic];
    if owner !in sub.clients && sub.retained.Some? {
      var joined := sub.clients[owner := Delivery.Join(id, options, sub.retained, now)];
      var s1 := s.(topics := s.topics.(subscriptions := s.topics.subscriptions[topic := sub.(clients := joined)]));
      PostShape(s.desk, owner, Publish(topic, sub.retained.value));
    }
  }

  lemma UnsubscribeShape(s: State, owner: Connection, topic: string, id: Id)
    ensures var (t, ok) := Unsubscribe(s, owner, topic, id);
      || (!ok && t == s)
      || (ok && topic in s.topics.subscriptions && owner in s.topics.subscriptions[topic].clients
          && topic in t.topics.subscriptions
          && t == s.(topics := s.topics.(
                       subscriptions := s.topics.subscriptions[topic := t.topics.subscriptions[topic]]))
          && t.topics.subscriptions[topic]
                == s.topics.subscriptions[topic].(clients := t.topics.subscriptions[topic].clients)
          && t.topics.subscriptions[topic].clients != map[]
          && (t.topics.subscriptions[topic].clients == s.topics.subscriptions[topic].clients - {owner}
              || (id.Some? && owner in t.topics.subscriptions[topic].clients
                  && t.topics.subscriptions[topic].clients[owner].registrations != map[]
                  && t.topics.subscriptions[topic].clients ==
                     s.topics.subscriptions[topic].clients[owner := t.topics.subscriptions[topic].clients[owner]])))
      || (ok && topic in s.topics.subscriptions && owner in s.topics.subscriptions[topic].clients
          && s.topics.subscriptions[topic].clients.Keys == {owner}
          && t == s.(topics := s.topics.(subscriptions := s.topics.subscriptions - {topic}),
                     ros := s.ros.Destroy(s.topics.subscriptions[topic].entity)))
  {
    var (t, ok) := Unsubscribe(s, owner, topic, id);
    if ok && topic !in t.topics.subscriptions {
      var clients := s.topics.subscriptions[topic].clients;
      assert clients - {owner} == map[];
      assert forall c :: c in clients && c != owner ==> c in clients - {owner};
      assert clients.Keys == {owner};
    }
  }

  /** Queues and retained samples may differ; topics, entities and clients do not. */
  ghost predicate SameClients(a: map<string, Subscription>, b: map<string, Subscription>) {
    b.Keys == a.Keys && forall t :: t in a ==> SameClientsOf(a[t], b[t])
  }

  ghost predicate SameClientsOf(a: Subscription, b: Subscription) {
    && b.entity == a.entity && b.clients.Keys == a.clients.Keys
    && forall c :: c in a.clients ==> b.clients[c].registrations == a.clients[c].registrations
  }

  lemma TopicMessageShape(s: State, topic: string, m: Delivery.Message, now: nat, order: seq<Connection>)
    requires topic in s.topics.subscriptions
    ensures var t := TopicMessage(s, topic, m, now, order);
      && t == s.(topics := s.topics.(subscriptions := t.topics.subscriptions), desk := t.desk)
        && Chatted(s.desk, t.desk)
      && SameClients(s.topics.subscriptions, t.topics.subscriptions)
  {
    var s1 := s.(topics := s.topics.(
                   subscriptions := s.topics.subscriptions[topic := Arrived(s.topics.subscriptions[topic], m, now)]));
    PostAllShape(s.desk, ToEach(order, Publish(topic, m)));
  }

  lemma DeliverShape(s: State, due: seq<(string, Connection)>, now: nat)
    requires forall i :: 0 <= i < |due| ==> IsDue(s.topics.subscriptions, due[i], now)
    ensures var t := DeliverDue(s, due, now);
      && t == s.(topics := s.topics.(subscriptions := t.topics.subscriptions), desk := t.desk)
        && Chatted(s.desk, t.desk)
      && SameClients(s.topics.subscriptions, t.topics.subscriptions)
  {
    var s1 := s.(topics := s.topics.(subscriptions := Popped(s.topics.subscriptions, now)));
    PostAllShape(s.desk, DueMessages(s.topics.subscriptions, due, now));
  }

  // ---------- services ----------

  lemma CallServiceShape(s: State, owner: Connection, id: Id, service: string, declared: Declared,
                         known: Option<seq<string>>, permitted: bool, timeout: Timeout, now: nat)
    requires s.ros.Valid()
    ensures var (t, ok) := CallService(s, owner, id, service, declared, known, permitted, timeout, now);
      var ticket := (s.ros.nextEntity, s.ros.nextSequence);
      || (!ok && t == s.(ros := t.ros) && Rolled(s.ros, t.ros))
      || (ok && ticket in t.rpc.calls
          && t == s.(rpc := s.rpc.(calls := s.rpc.calls[ticket := t.rpc.calls[ticket]]), ros := t.ros)
          && Grew(s.ros, t.ros, {ticket.0}) && t.ros.nextSequence == s.ros.nextSequence + 1
          && t.rpc.calls[ticket].owner == owner && t.rpc.calls[ticket].id == id)
  {
    var (t, ok) := CallService(s, owner, id, service, declared, known, permitted, timeout, now);
    if !ok {
      assert t.ros.live == s.ros.live;
      assert t.ros.requests == s.ros.requests;
    }
  }

  lemma OpenServiceShape(s: State, owner: Connection, name: string, typ: string)
    ensures var (t, ok) := OpenService(s, owner, name, typ);
      || (!ok && t == s.(ros := t.ros) && Rolled(s.ros, t.ros))
      || (ok && t == s.(rpc := s.rpc.(services := s.rpc.services[name := Service(0, owner, s.ros.nextEntity, typ)]),
                        ros := t.ros)
          && Grew(s.ros, t.ros, {s.ros.nextEntity}))
  {
  }

  // ---------- actions ----------

  predicate Distinct(f: Five) {
    && f.send !in {f.result, f.cancel, f.feedback, f.status}
    && f.result !in {f.cancel, f.feedback, f.status}
    && f.cancel !in {f.feedback, f.status}
    && f.feedback != f.status
  }

  lemma CreateFiveShape(a: Ros)
    requires a.Valid()
    ensures var (b, five) := CreateFive(a);
      && (five.None? ==> Rolled(a, b))
      && (five.Some? ==> Distinct(five.value) && Grew(a, b, five.value.All()) && b.nextSequence == a.nextSequence)
  {
    var (b, five) := CreateFive(a);
    if five.None? {
      assert b.live == a.live;
      assert b.requests == a.requests;
    }
  }

  lemma SendGoalShape(s: State, owner: Connection, action: string, id: Id, feedback: bool, uuid: Uuid, now: nat)
    requires s.ros.Valid()
    ensures var (t, ok) := SendGoal(s, owner, action, id, feedback, uuid, now);
      || (!ok && t == s.(ros := t.ros) && Rolled(s.ros, t.ros))
      || (ok && uuid in t.actions.goals && var g := t.actions.goals[uuid];
          && !GoalActive(s, owner, action, id)
          && t == s.(ros := t.ros,
                     actions := s.actions.(goals := s.actions.goals[uuid := g], issued := s.actions.issued + {uuid},
                                          actionCalls := s.actions.actionCalls[
                                            (g.five.send, s.ros.nextSequence) := ActionCall(Send, uuid)]))
          && g == ClientGoal(owner, id, action, feedback, g.five, false, now + s.timeout, false)
          && Distinct(g.five) && Grew(s.ros, t.ros, g.five.All()) && t.ros.nextSequence == s.ros.nextSequence + 1)
  {
    CreateFiveShape(s.ros);
    var (b, five) := CreateFive(s.ros);
    hide CreateFive, Distinct;
    if five.Some? {
      GrewValid(s.ros, b, five.value.All());
      var (c, sequence) := b.Request(five.value.send, AboutGoal(uuid));
      if sequence.None? {
        assert c.DestroyAll(five.value.All()).live == s.ros.live;
        assert c.DestroyAll(five.value.All()).requests == s.ros.requests;
      }
    }
  }

  lemma OpenActionShape(s: State, owner: Connection, action: string, typ: string)
    requires s.ros.Valid()
    ensures var (t, ok) := OpenAction(s, owner, action, typ);
      || (!ok && t == s.(ros := t.ros) && Rolled(s.ros, t.ros))
      || (ok && action in t.servers.actionServers
          && t == s.(ros := t.ros,
                     servers := s.servers.(
                       actionServers := s.servers.actionServers[action := t.servers.actionServers[action]]))
          && t.servers.actionServers[action] == ActionServer(owner, typ, t.servers.actionServers[action].five)
          && Distinct(t.servers.actionServers[action].five)
            && Grew(s.ros, t.ros, t.servers.actionServers[action].five.All()))
  {
    CreateFiveShape(s.ros);
    hide CreateFive, Distinct, Grew, Rolled;
  }

  /** Some native requests may be gone, each of them one of `asked`. */
  ghost predicate Answered(a: Ros, b: Ros, asked: set<Native>) {
    && b == a.(requests := b.requests, calls := b.calls, did := b.did)
    && b.requests <= a.requests && a.requests - asked <= b.requests
  }

  lemma AnsweredValid(a: Ros, b: Ros, asked: set<Native>)
    requires a.Valid() && Answered(a, b, asked)
    ensures b.Valid()
  {
  }

  lemma {:induction false} RespondAllShape(a: Ros, requests: seq<Native>)
    ensures Answered(a, RespondAll(a, requests), set r | r in requests)
  {
    if requests != [] {
      RespondAllShape(a, requests[..|requests| - 1]);
      assert forall r :: r in requests[..|requests| - 1] ==> r in requests;
    }
  }

  ghost function WaitersOf(goals: map<GoalKey, ServerGoal>, keys: seq<GoalKey>): set<Native> {
    set k, r | k in keys && k in goals && r in goals[k].requests :: r
  }

  lemma {:induction false} DropGoalsShape(s: State, keys: seq<GoalKey>)
    ensures var t := DropGoals(s, keys);
      && t == s.(servers := s.servers.(serverGoals := t.servers.serverGoals), ros := t.ros)
      && Answered(s.ros, t.ros, WaitersOf(s.servers.serverGoals, keys))
      && t.servers.serverGoals == map k | k in s.servers.serverGoals && k !in keys :: s.servers.serverGoals[k]
  {
    if keys != [] {
      var n := |keys| - 1;
      DropGoalsShape(s, keys[..n]);
      var s1 := DropGoals(s, keys[..n]);
      if keys[n] in s1.servers.serverGoals {
        RespondAllShape(s1.ros, s1.servers.serverGoals[keys[n]].requests);
      }
      assert forall k :: k in keys <==> k == keys[n] || k in keys[..n];
    }
  }

  lemma FinishGoalShape(s: State, goal: Uuid, status: int, success: bool)
    ensures var t := FinishGoal(s, goal, status, success);
      || (goal !in s.actions.goals && t == s)
      || (goal in s.actions.goals && var g := s.actions.goals[goal];
          && t == s.(desk := Post(s.desk, g.owner, GoalReply(goal, g.action, g.id, status, success)),
                     actions := t.actions, ros := s.ros.DestroyAll(g.five.All()))
          && t.actions == s.actions.(goals := s.actions.goals - {goal},
                                     actionCalls := CallsOfOthers(s.actions.actionCalls, goal),
                                     stranded := s.actions.stranded - {goal}))
  {
  }

  lemma AcceptGoalShape(s: State, goal: Uuid)
    requires goal in s.actions.goals
    ensures var (t, ok) := AcceptGoal(s, goal);
      var g := s.actions.goals[goal];
      var goals := s.actions.goals[goal := g.(accepted := true)];
      && Rolled(s.ros, t.ros)
      && (!ok ==> t == s.(ros := t.ros,
                          actions := s.actions.(goals := goals, stranded := s.actions.stranded + {goal})))
      && (ok ==> t.ros.nextSequence == s.ros.nextSequence + 1
                 && t == s.(ros := t.ros, actions := s.actions.(goals := goals, actionCalls :=
                        s.actions.actionCalls[(g.five.result, s.ros.nextSequence) := ActionCall(Result, goal)])))
  {
  }

  lemma CancelGoalShape(s: State, goal: Option<Uuid>)
    ensures var (t, ok) := CancelGoal(s, goal);
      && Rolled(s.ros, t.ros)
      && (!ok ==> t == s.(ros := t.ros))
      && (ok ==> goal.Some? && goal.value in s.actions.goals && t.ros.nextSequence == s.ros.nextSequence + 1
                 && var g := s.actions.goals[goal.value];
                 && g.accepted && !g.cancelling
                 && t == s.(ros := t.ros, actions := s.actions.(
                        goals := s.actions.goals[goal.value := g.(cancelling := true)],
                        actionCalls := s.actions.actionCalls[
                          (g.five.cancel, s.ros.nextSequence) := ActionCall(Cancel, goal.value)])))
  {
  }

  lemma CancelAnsweredShape(s: State, goal: Uuid, returnCode: Option<int>)
    ensures var t := CancelAnswered(s, goal, returnCode);
      || t == s
      || (goal in s.actions.goals && Chatted(s.desk, t.desk)
          && t == s.(desk := t.desk, actions := s.actions.(
                 goals := s.actions.goals[goal := s.actions.goals[goal].(cancelling := false)])))
  {
  }

  lemma {:induction false} DrainShape(a: Ros, requests: seq<Native>, answer: Content)
    ensures var (b, left) := Drain(a, requests, answer);
      && Answered(a, b, set r | r in requests)
      && b.requests == a.requests - set r | r in requests[|left|..]
    decreases |requests|
  {
    if requests != [] {
      var n := |requests| - 1;
      var (b, sent) := a.Respond(requests[n].0, requests[n].1, answer);
      if sent {
        DrainShape(b, requests[..n], answer);
        var (c, left) := Drain(b, requests[..n], answer);
        assert requests[|left|..] == requests[..n][|left|..] + [requests[n]];
        assert forall r :: r in requests[|left|..] <==> r in requests[..n][|left|..] || r == requests[n];
        assert forall r :: r in requests[..n] ==> r in requests;
      } else {
        assert requests[|requests|..] == [];
      }
    }
  }

  lemma GoalMessageShape(s: State, goal: Uuid, m: Delivery.Message)
    requires goal in s.actions.goals
    ensures var t := GoalMessage(s, goal, m); t == s.(desk := t.desk) && Chatted(s.desk, t.desk)
  {
    var g := s.actions.goals[goal];
    SendToShape(s, g.owner, GoalFeedback(goal, g.action, g.id));
  }

  lemma ForwardRequestShape(s: State, name: string, request: nat, now: nat)
    requires name in s.rpc.services
    ensures var t := ForwardRequest(s, name, request, now);
      var service := s.rpc.services[name];
      var n := service.nextRequest + 1;
      && t == s.(desk := t.desk, rpc := t.rpc) && Chatted(s.desk, t.desk)
      && t.rpc == s.rpc.(services := s.rpc.services[name := service.(nextRequest := n)],
           external := s.rpc.external[RequestId(name, n) :=
             External(service.owner, service.entity, request, name, now + s.timeout)])
  {
    var service := s.rpc.services[name];
    PostShape(s.desk, service.owner, ServiceRequest(RequestId(name, service.nextRequest + 1), name));
    hide Post, RequestId;
  }
}

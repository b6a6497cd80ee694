/** Only connected clients own anything (src/bridge/mod.rs). */
module BridgeOwners {
  import opened Basics
  import opened Backend
  import opened BridgeState
  import opened BridgeTopics
  import opened BridgeServices
  import opened BridgeActions
  import opened BridgeMoves
  import opened BridgeShapes
  import opened BridgeFrames
  import opened BridgeLeaving
  import Delivery

  /** A registered client is known by at least one registration, a topic by at least one client. */
  ghost predicate PublisherBy(p: Publisher, who: set<Connection>) {
    p.owners != map[] && p.owners.Keys <= who && forall c :: c in p.owners ==> p.owners[c] != {}
  }

  ghost predicate SubscriptionBy(p: Subscription, who: set<Connection>) {
    p.clients != map[] && p.clients.Keys <= who && forall c :: c in p.clients ==> p.clients[c].registrations != map[]
  }

  ghost predicate TopicsBy(t: Topics, who: set<Connection>) {
    && (forall k :: k in t.publishers ==> PublisherBy(t.publishers[k], who))
    && forall k :: k in t.subscriptions ==> SubscriptionBy(t.subscriptions[k], who)
  }

  ghost predicate CallsBy(calls: map<Ticket, Call>, who: set<Connection>) {
    forall k :: k in calls ==> calls[k].owner in who
  }

  ghost predicate ServicesBy(services: map<string, Service>, who: set<Connection>) {
    forall n :: n in services ==> services[n].owner in who
  }

  ghost predicate GoalsBy(goals: map<Uuid, ClientGoal>, who: set<Connection>) {
    forall g :: g in goals ==> goals[g].owner in who
  }

  ghost predicate ServersBy(servers: map<string, ActionServer>, who: set<Connection>) {
    forall a :: a in servers ==> servers[a].owner in who
  }

  ghost predicate OwnedBy(s: State, who: set<Connection>) {
    && TopicsBy(s.topics, who) && CallsBy(s.rpc.calls, who) && ServicesBy(s.rpc.services, who)
    && GoalsBy(s.actions.goals, who) && ServersBy(s.servers.actionServers, who)
  }

  /** Every owner of anything is a connected client. */
  ghost predicate Connected(s: State) {
    OwnedBy(s, s.desk.outputs)
  }

  // ---------- topics ----------

  lemma AdvertiseBy(s: State, owner: Connection, topic: string, id: Id, setup: Setup, who: set<Connection>)
    requires TopicsBy(s.topics, who) && owner in who
    ensures TopicsBy(Advertise(s, owner, topic, id, setup).0.topics, who)
  {
    AdvertiseShape(s, owner, topic, id, setup);
    hide Advertise;
    var t := Advertise(s, owner, topic, id, setup).0;
    if topic in t.topics.publishers { assert owner in t.topics.publishers[topic].owners || t.topics == s.topics; }
    forall k | k in t.topics.publishers ensures PublisherBy(t.topics.publishers[k], who) {
      if k in s.topics.publishers { assert PublisherBy(s.topics.publishers[k], who); }
    }
  }

  lemma UnadvertiseBy(s: State, owner: Connection, topic: string, id: Id, who: set<Connection>)
    requires TopicsBy(s.topics, who)
    ensures TopicsBy(Unadvertise(s, owner, topic, id).0.topics, who)
  {
    UnadvertiseShape(s, owner, topic, id);
    hide Unadvertise;
    var t := Unadvertise(s, owner, topic, id).0;
    forall k | k in t.topics.publishers ensures PublisherBy(t.topics.publishers[k], who) {
      assert PublisherBy(s.topics.publishers[k], who);
    }
  }

  lemma OpenTopicBy(s: State, topic: string, setup: Setup, who: set<Connection>)
    requires TopicsBy(s.topics, who)
    ensures var t := OpenTopic(s, topic, setup).0;
      && t.topics.publishers == s.topics.publishers
      && forall k :: k in t.topics.subscriptions && k != topic ==> SubscriptionBy(t.topics.subscriptions[k], who)
    ensures topic in OpenTopic(s, topic, setup).0.topics.subscriptions ==>
      var sub := OpenTopic(s, topic, setup).0.topics.subscriptions[topic];
      sub.clients.Keys <= who && forall c :: c in sub.clients ==> sub.clients[c].registrations != map[]
  {
    OpenTopicShape(s, topic, setup);
    hide OpenTopic;
    if topic in s.topics.subscriptions { assert SubscriptionBy(s.topics.subscriptions[topic], who); }
  }

  lemma SubscribeBy(s: State, owner: Connection, topic: string, id: Id, options: Delivery.Options, setup: Setup,
                    now: nat, who: set<Connection>)
    requires TopicsBy(s.topics, who) && owner in who
    ensures TopicsBy(Subscribe(s, owner, topic, id, options, setup, now).0.topics, who)
  {
    hide OpenTopic, JoinTopic, Rolled, Grew, Chatted;
    OpenTopicShape(s, topic, setup);
    OpenTopicBy(s, topic, setup, who);
    var (s1, ok) := OpenTopic(s, topic, setup);
    if ok && topic in s1.topics.subscriptions {
      JoinTopicShape(s1, owner, topic, id, options, now);
      var t := JoinTopic(s1, owner, topic, id, options, now);
      assert SubscriptionBy(t.topics.subscriptions[topic], who);
    } else {
      assert s1.topics == s.topics;
    }
  }

  lemma UnsubscribeBy(s: State, owner: Connection, topic: string, id: Id, who: set<Connection>)
    requires TopicsBy(s.topics, who)
    ensures TopicsBy(Unsubscribe(s, owner, topic, id).0.topics, who)
  {
    UnsubscribeShape(s, owner, topic, id);
    hide Unsubscribe;
    var t := Unsubscribe(s, owner, topic, id).0;
    forall k | k in t.topics.subscriptions ensures SubscriptionBy(t.topics.subscriptions[k], who) {
      assert SubscriptionBy(s.topics.subscriptions[k], who);
    }
  }

  lemma SameClientsBy(a: Topics, b: Topics, who: set<Connection>)
    requires TopicsBy(a, who) && b.publishers == a.publishers && SameClients(a.subscriptions, b.subscriptions)
    ensures TopicsBy(b, who)
  {
    forall k | k in b.subscriptions ensures SubscriptionBy(b.subscriptions[k], who) {
      assert SubscriptionBy(a.subscriptions[k], who) && SameClientsOf(a.subscriptions[k], b.subscriptions[k]);
      var c :| c in a.subscriptions[k].clients;
      assert c in b.subscriptions[k].clients;
    }
  }

  lemma HearBy(s: State, e: Entity, m: Delivery.Message, now: nat, order: seq<Connection>, who: set<Connection>)
    requires TopicsBy(s.topics, who)
    ensures TopicsBy(OnMessage(s, e, m, now, order).topics, who)
  {
    hide TopicsBy, GoalMessage, TopicMessage;
    if exists g :: FeedbackFor(s, e, g) {
      var g :| FeedbackFor(s, e, g) && OnMessage(s, e, m, now, order) == GoalMessage(s, g, m);
      GoalMessageShape(s, g, m);
    } else if exists t :: Subscribed(s, e, t) {
      var topic :| Subscribed(s, e, topic) && OnMessage(s, e, m, now, order) == TopicMessage(s, topic, m, now, order);
      TopicMessageShape(s, topic, m, now, order);
      SameClientsBy(s.topics, TopicMessage(s, topic, m, now, order).topics, who);
    }
  }

  lemma OperateTopicsBy(s: State, owner: Connection, name: string, op: Operation, now: nat, who: set<Connection>)
    requires s.ros.Valid() && TopicsBy(s.topics, who) && owner in who
    ensures TopicsBy(Operate(s, owner, name, op, now).0.topics, who)
  {
    OperateFrame(s, owner, name, op, now);
    hide TopicsBy, Advertise, Unadvertise, Subscribe, Unsubscribe;
    if TouchesTopics(op) {
      match op
      case AdvertiseTopic(id, setup) => AdvertiseBy(s, owner, name, id, setup, who);
      case UnadvertiseTopic(id) => UnadvertiseBy(s, owner, name, id, who);
      case PublishMessage(id, setup) => AdvertiseBy(s, owner, name, id, setup, who);
      case SubscribeTopic(id, options, setup) => SubscribeBy(s, owner, name, id, options, setup, now, who);
      case UnsubscribeTopic(id) => UnsubscribeBy(s, owner, name, id, who);
    } else {
      hide Operate;
    }
  }

  // ---------- calls, services, goals and servers ----------

  lemma OperateRpcBy(s: State, owner: Connection, name: string, op: Operation, now: nat, who: set<Connection>)
    requires s.ros.Valid() && CallsBy(s.rpc.calls, who) && ServicesBy(s.rpc.services, who) && owner in who
    ensures var t := Operate(s, owner, name, op, now).0; CallsBy(t.rpc.calls, who) && ServicesBy(t.rpc.services, who)
  {
    OperateFrame(s, owner, name, op, now);
    hide CallService;
    if op.CallRemote? {
      CallServiceShape(s, owner, op.id, name, op.declared, op.known, op.permitted, op.timeout, now);
    } else if !TouchesServices(op) {
      hide Operate;
    }
  }

  lemma OperateGoalsBy(s: State, owner: Connection, name: string, op: Operation, now: nat, who: set<Connection>)
    requires s.ros.Valid() && GoalsBy(s.actions.goals, who) && owner in who
    ensures GoalsBy(Operate(s, owner, name, op, now).0.actions.goals, who)
  {
    OperateFrame(s, owner, name, op, now);
    hide SendGoal, CancelGoal;
    if op.StartGoal? {
      SendGoalShape(s, owner, name, op.id, op.feedback, op.uuid, now);
    } else if op.StopGoal? {
      CancelGoalShape(s, ActiveGoal(s, owner, name, op.goal));
    } else {
      hide Operate;
    }
  }

  lemma OpenActionBy(s: State, owner: Connection, action: string, typ: string, who: set<Connection>)
    requires s.ros.Valid() && ServersBy(s.servers.actionServers, who) && owner in who
    ensures ServersBy(OpenAction(s, owner, action, typ).0.servers.actionServers, who)
  {
    OpenActionShape(s, owner, action, typ);
    hide OpenAction, Distinct, Grew, Rolled;
  }

  lemma AdvertiseActionBy(s: State, owner: Connection, action: string, typ: string, keys: seq<GoalKey>,
                          who: set<Connection>)
    requires s.ros.Valid() && ServersBy(s.servers.actionServers, who) && owner in who
    ensures ServersBy(AdvertiseAction(s, owner, action, typ, keys).0.servers.actionServers, who)
  {
    DropGoalsShape(s, keys);
    hide DropGoals, OpenAction;
    OpenActionBy(s, owner, action, typ, who);
    if action in s.servers.actionServers {
      AnsweredValid(s.ros, DropGoals(s, keys).ros, WaitersOf(s.servers.serverGoals, keys));
      DestroyValid(DropGoals(s, keys).ros, s.servers.actionServers[action].five.All());
      OpenActionBy(RemoveAction(s, owner, action, keys).0, owner, action, typ, who);
    }
  }

  lemma OperateServersBy(s: State, owner: Connection, name: string, op: Operation, now: nat, who: set<Connection>)
    requires s.ros.Valid() && ServersBy(s.servers.actionServers, who) && owner in who
    ensures ServersBy(Operate(s, owner, name, op, now).0.servers.actionServers, who)
  {
    OperateFrame(s, owner, name, op, now);
    hide AdvertiseAction, DropGoals, Drain;
    if op.OfferAction? {
      AdvertiseActionBy(s, owner, name, op.typ, op.keys, who);
    } else if op.WithdrawAction? {
      DropGoalsShape(s, op.keys);
    } else if !TouchesServers(op) {
      hide Operate;
    }
  }

  lemma ObeyBy(s: State, owner: Connection, c: Command, now: nat)
    requires s.ros.Valid() && Connected(s)
    ensures Connected(OnCommand(s, owner, c, now))
  {
    hide Operate, TopicsBy, CallsBy, ServicesBy, GoalsBy, ServersBy, Post, Chatted;
    var who := s.desk.outputs;
    if owner in who {
      var t := Execute(s, owner, c, now).0;
      assert OwnedBy(t, who) && t.desk.outputs == who by {
        if c.Command? && Name(c.name).Some? {
          var name := Name(c.name).value;
          OperateTopicsBy(s, owner, name, c.operation, now, who);
          OperateRpcBy(s, owner, name, c.operation, now, who);
          OperateGoalsBy(s, owner, name, c.operation, now, who);
          OperateServersBy(s, owner, name, c.operation, now, who);
          OperateFrame(s, owner, name, c.operation, now);
          ChattedOutputs(s.desk, t.desk);
        }
      }
      SendToOutputs(t, owner, Failure(c.id));
    }
  }

  lemma ChattedOutputs(a: Desk, b: Desk)
    ensures Chatted(a, b) ==> b.outputs == a.outputs
  {
  }

  lemma SendToOutputs(s: State, owner: Connection, body: Body)
    ensures SendTo(s, owner, body) == s.(desk := SendTo(s, owner, body).desk)
    ensures SendTo(s, owner, body).desk.outputs == s.desk.outputs
  {
  }

  // ---------- the other moves ----------

  lemma FinishGoalBy(s: State, goal: Uuid, status: int, success: bool, who: set<Connection>)
    requires GoalsBy(s.actions.goals, who)
    ensures var t := FinishGoal(s, goal, status, success);
      GoalsBy(t.actions.goals, who) && t == s.(desk := t.desk, actions := t.actions, ros := t.ros)
      && t.desk.outputs == s.desk.outputs
  {
    FinishGoalShape(s, goal, status, success);
    hide FinishGoal, Five.All;
  }

  lemma LearnBy(s: State, ticket: Ticket, answer: Answer)
    requires Connected(s)
    ensures Connected(OnResponse(s, ticket, answer))
  {
    hide FinishGoal, AcceptGoal, CancelAnswered, TopicsBy;
    var who := s.desk.outputs;
    if ticket in s.rpc.calls {
      var c := s.rpc.calls[ticket];
      PostShape(s.desk, c.owner, ServiceReply(ticket, c.service, c.id, true));
    } else if ticket in s.actions.actionCalls {
      var goal := s.actions.actionCalls[ticket].goal;
      var s1 := s.(actions := s.actions.(actionCalls := s.actions.actionCalls - {ticket}));
      FinishGoalBy(s1, goal, 6, false, who);
      FinishGoalBy(s1, goal, answer.status, answer.status == 4, who);
      CancelAnsweredShape(s1, goal, answer.returnCode);
      if goal in s1.actions.goals { AcceptGoalShape(s1, goal); }
    }
  }

  lemma ServeBy(s: State, e: Entity, request: nat, asked: Asked, now: nat)
    requires Connected(s) && forall k :: k in asked.notices ==> k in s.servers.serverGoals
    ensures Connected(OnRequest(s, e, request, asked, now))
  {
    hide RequestOnAction, ForwardRequest, TopicsBy, DiscardOnError;
    var s1 := Handling(s, (e, request));
    if exists a, p :: ServesPart(s, e, a, p) {
      var a, p :| ServesPart(s, e, a, p)
        && OnRequest(s, e, request, asked, now)
           == DiscardOnError(RequestOnAction(s1, a, p, request, asked), e, request);
      RequestOnActionFrame(s1, a, p, request, asked);
      DiscardOnErrorFrame(s1, RequestOnAction(s1, a, p, request, asked), e, request);
      RequestKeepsServers(s1, a, p, request, asked);
    } else if exists n :: Serves(s, e, n) {
      var n :| Serves(s, e, n) && OnRequest(s, e, request, asked, now) == ForwardRequest(s1, n, request, now);
      ForwardRequestShape(s1, n, request, now);
    }
  }

  lemma RequestKeepsServers(s: State, action: string, part: Part, request: nat, asked: Asked)
    requires action in s.servers.actionServers && forall k :: k in asked.notices ==> k in s.servers.serverGoals
    ensures RequestOnAction(s, action, part, request, asked).0.servers.actionServers == s.servers.actionServers
  {
    hide Post, PostAll, UniqueName, Cancelled, Marked;
  }

  predicate Plain(m: Move) {
    !Leaving(m)
  }

  lemma SmallMoveBy(s: State, m: Move)
    requires s.ros.Valid() && Connected(s)
    requires m.Connect? || m.Poll? || m.CallTimeout? || m.RequestTimeout? || m.ForgetResults? || m.TakeFailed?
    ensures Connected(Do(s, m))
  {
    hide Post;
    if m.Connect? { MoreClients(s, m.owner); }
    if m.CallTimeout? && m.ticket in s.rpc.calls {
      var c := s.rpc.calls[m.ticket];
      PostShape(s.desk, c.owner, ServiceReply(m.ticket, c.service, c.id, false));
    }
    hide TopicsBy;
  }

  lemma MoreClients(s: State, c: Connection)
    requires Connected(s)
    ensures OwnedBy(s, s.desk.outputs + {c})
  {
    var who := s.desk.outputs + {c};
    forall k | k in s.topics.publishers ensures PublisherBy(s.topics.publishers[k], who) {
      assert PublisherBy(s.topics.publishers[k], s.desk.outputs);
    }
    forall k | k in s.topics.subscriptions ensures SubscriptionBy(s.topics.subscriptions[k], who) {
      assert SubscriptionBy(s.topics.subscriptions[k], s.desk.outputs);
    }
  }

  /** Between disconnects, only connected clients come to own anything. */
  lemma MoveConnected(s: State, m: Move)
    requires s.ros.Valid() && Connected(s) && Plain(m)
    ensures Connected(Do(s, m))
  {
    hide Connected, OnCommand, OnMessage, OnResponse, OnRequest, FinishGoal, DeliverDue;
    if m.Connect? || m.Poll? || m.CallTimeout? || m.RequestTimeout? || m.ForgetResults? || m.TakeFailed? {
      hide Do;
      SmallMoveBy(s, m);
    } else if Fits(s, m) {
      match m
      case Obey(owner, command, now) => ObeyBy(s, owner, command, now);
      case Hear(e, message, now, order) => HearConnected(s, e, message, now, order);
      case Learn(ticket, answer) => LearnBy(s, ticket, answer);
      case Serve(e, request, asked, now) => ServeBy(s, e, request, asked, now);
      case GoalTimeout(goal) => TimeoutConnected(s, goal);
      case Deliver(due, now) => DeliverConnected(s, due, now);
    }
  }

  lemma HearConnected(s: State, e: Entity, m: Delivery.Message, now: nat, order: seq<Connection>)
    requires Connected(s)
    ensures Connected(OnMessage(s, e, m, now, order))
  {
    hide OnMessage, TopicsBy;
    HearBy(s, e, m, now, order, s.desk.outputs);
    HearFrame(s, e, m, now, order);
  }

  lemma TimeoutConnected(s: State, goal: Uuid)
    requires Connected(s)
    ensures Connected(FinishGoal(s, goal, 6, false))
  {
    hide FinishGoal, TopicsBy, GoalsBy;
    FinishGoalBy(s, goal, 6, false, s.desk.outputs);
  }

  lemma DeliverConnected(s: State, due: seq<(string, Connection)>, now: nat)
    requires Connected(s) && forall i :: 0 <= i < |due| ==> IsDue(s.topics.subscriptions, due[i], now)
    ensures Connected(DeliverDue(s, due, now))
  {
    DeliverShape(s, due, now);
    SameClientsBy(s.topics, DeliverDue(s, due, now).topics, s.desk.outputs);
    hide DeliverDue, TopicsBy, SameClients;
  }

  // ---------- disconnecting ----------

  /** Nothing is left in the name of a client that went, and the others keep what is theirs. */
  lemma LeftConnected(s: State, t: State, o: Connection)
    requires Connected(s) && Left(s, t, o)
    ensures Connected(t) && OwnedBy(t, s.desk.outputs - {o})
  {
    var who := s.desk.outputs - {o};
    forall k | k in t.topics.publishers ensures PublisherBy(t.topics.publishers[k], who) {
      assert PublisherBy(s.topics.publishers[k], s.desk.outputs);
      OthersRemain(s.topics.publishers[k].owners, o);
    }
    forall k | k in t.topics.subscriptions ensures SubscriptionBy(t.topics.subscriptions[k], who) {
      assert SubscriptionBy(s.topics.subscriptions[k], s.desk.outputs);
      OthersRemain(s.topics.subscriptions[k].clients, o);
    }
  }

  lemma OthersRemain<T>(m: map<Connection, T>, o: Connection)
    requires m != map[] && m.Keys != {o}
    ensures m - {o} != map[]
  {
    assert m.Keys == {o} || exists c :: c in m && c != o by {
      var d :| d in m;
      assert d == o || exists c :: c in m && c != o;
    }
    var c :| c in m && c != o;
    assert c in m - {o};
  }
}

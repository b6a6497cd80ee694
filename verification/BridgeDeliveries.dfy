/** What a client is sent about a topic, over runs of the whole bridge, is a delivery run (src/bridge). */
module BridgeDeliveries {
  import opened Basics
  import opened Backend
  import opened BridgeState
  import opened BridgeTopics
  import opened BridgeServices
  import opened BridgeActions
  import opened BridgeMoves
  import opened BridgeShapes
  import opened BridgeFrames
  import opened BridgeOutcomes
  import opened BridgeRuns
  import Delivery
  import Own = BridgeOwnership
  import D = DeliveryRuns

  // ---------- what was heard ----------

  predicate Publishes(m: Sent, o: Connection, topic: string) {
    m.owner == o && m.body.Publish? && m.body.topic == topic
  }

  /** The messages of a topic that were handed to a client's output, in order. */
  function Heard(sent: seq<Sent>, o: Connection, topic: string): seq<Delivery.Message> {
    if sent == [] then []
    else
      var n := |sent| - 1;
      Heard(sent[..n], o, topic) + if Publishes(sent[n], o, topic) then [sent[n].body.message] else []
  }

  lemma HeardSnoc(sent: seq<Sent>, m: Sent, o: Connection, topic: string)
    ensures Heard(sent + [m], o, topic)
         == Heard(sent, o, topic) + if Publishes(m, o, topic) then [m.body.message] else []
  {
    assert (sent + [m])[..|sent|] == sent;
  }

  ghost predicate Reached(d: Desk, o: Connection) {
    o in d.outputs && o !in d.failed
  }

  function HeardOf(d: Desk, o: Connection, topic: string): seq<Delivery.Message> {
    Heard(d.wire.sent, o, topic)
  }

  lemma PostHeard(d: Desk, owner: Connection, body: Body, o: Connection, topic: string)
    ensures var e, m := Post(d, owner, body), Sent(owner, body);
      && (Reached(e, o) ==> Reached(d, o))
      && (!Publishes(m, o, topic) ==> HeardOf(e, o, topic) == HeardOf(d, o, topic))
      && (Reached(e, o) && Publishes(m, o, topic) ==> HeardOf(e, o, topic) == HeardOf(d, o, topic) + [m.body.message])
  {
    HeardSnoc(d.wire.sent, Sent(owner, body), o, topic);
  }

  /** A client that has not failed over them hears all messages that are for it. */
  lemma {:induction false} PostAllHeard(d: Desk, messages: seq<Sent>, o: Connection, topic: string)
    requires Reached(PostAll(d, messages), o)
    ensures Reached(d, o)
    ensures HeardOf(PostAll(d, messages), o, topic) == HeardOf(d, o, topic) + Heard(messages, o, topic)
    decreases |messages|
  {
    if messages != [] {
      var n := |messages| - 1;
      PostHeard(PostAll(d, messages[..n]), messages[n].owner, messages[n].body, o, topic);
      PostAllHeard(d, messages[..n], o, topic);
      HeardSnoc(messages[..n], messages[n], o, topic);
    }
  }

  /** Nothing about the topic was said to the client. */
  ghost predicate Quiet(a: Desk, b: Desk, o: Connection, topic: string) {
    HeardOf(b, o, topic) == HeardOf(a, o, topic)
  }

  lemma {:induction false} PostAllQuiet(d: Desk, messages: seq<Sent>, o: Connection, topic: string)
    requires forall m :: m in messages ==> !Publishes(m, o, topic)
    ensures Quiet(d, PostAll(d, messages), o, topic)
    decreases |messages|
  {
    if messages != [] {
      var n := |messages| - 1;
      PostAllQuiet(d, messages[..n], o, topic);
      PostHeard(PostAll(d, messages[..n]), messages[n].owner, messages[n].body, o, topic);
    }
  }

  // ---------- moves that leave topics alone ----------

  lemma OperateDesk(s: State, owner: Connection, name: string, op: Operation, now: nat)
    requires s.ros.Valid() && !op.SubscribeTopic?
    ensures Operate(s, owner, name, op, now).0.desk == s.desk
  {
    hide Advertise, Unadvertise, Unsubscribe, CallService, AdvertiseService, RemoveService, ServiceResponse, SendGoal,
      CancelGoal, AdvertiseAction, RemoveAction, ActionFeedback, ActionResult, Ros.Valid;
    match op
    case AdvertiseTopic(id, setup) => AdvertiseShape(s, owner, name, id, setup);
    case UnadvertiseTopic(id) => UnadvertiseShape(s, owner, name, id);
    case PublishMessage(id, setup) => AdvertiseShape(s, owner, name, id, setup);
    case UnsubscribeTopic(id) => UnsubscribeShape(s, owner, name, id);
    case CallRemote(id, declared, known, permitted, timeout) =>
      CallServiceShape(s, owner, id, name, declared, known, permitted, timeout, now);
    case OfferService(typ, permitted) => ServiceFrame(s, owner, name, typ);
    case WithdrawService => ServiceFrame(s, owner, name, "");
    case AnswerService(request, success) => AnswerFrame(s, owner, request, name, success);
    case StartGoal(id, feedback, uuid) => SendGoalShape(s, owner, name, id, feedback, uuid, now);
    case StopGoal(goal) => CancelGoalShape(s, ActiveGoal(s, owner, name, goal));
    case OfferAction(typ, keys) => AdvertiseActionFrame(s, owner, name, typ, keys);
    case WithdrawAction(keys) => RemoveActionFrame(s, owner, name, keys);
    case GiveFeedback(goal) =>
      var key := ServedGoal(s, owner, name, goal);
      if key.Some? { FeedbackFrame(s, key.value); }
    case GiveResult(goal, status, values) =>
      var key := ServedGoal(s, owner, name, goal);
      if key.Some? { ActionResultFrame(s, key.value, status, values, now); }
  }

  lemma FinishGoalQuiet(s: State, goal: Uuid, status: int, success: bool, o: Connection, topic: string)
    ensures Quiet(s.desk, FinishGoal(s, goal, status, success).desk, o, topic)
  {
    hide Post;
    if goal in s.actions.goals {
      var g := s.actions.goals[goal];
      PostHeard(s.desk, g.owner, GoalReply(goal, g.action, g.id, status, success), o, topic);
    }
  }

  lemma FinishCallQuiet(s: State, ticket: Ticket, success: bool, o: Connection, topic: string)
    requires ticket in s.rpc.calls
    ensures Quiet(s.desk, FinishCall(s, ticket, success).desk, o, topic)
  {
    hide Post;
    var c := s.rpc.calls[ticket];
    PostHeard(s.desk, c.owner, ServiceReply(ticket, c.service, c.id, success), o, topic);
  }

  lemma LearnQuiet(s: State, ticket: Ticket, answer: Answer, o: Connection, topic: string)
    ensures Quiet(s.desk, OnResponse(s, ticket, answer).desk, o, topic)
  {
    hide FinishGoal, FinishCall, AcceptGoal, Post;
    if ticket in s.rpc.calls {
      FinishCallQuiet(s, ticket, true, o, topic);
    } else if ticket in s.actions.actionCalls {
      var goal := s.actions.actionCalls[ticket].goal;
      var s1 := s.(actions := s.actions.(actionCalls := s.actions.actionCalls - {ticket}));
      FinishGoalQuiet(s1, goal, 6, false, o, topic);
      FinishGoalQuiet(s1, goal, answer.status, answer.status == 4, o, topic);
      if goal in s1.actions.goals {
        AcceptGoalShape(s1, goal);
        PostHeard(s1.desk, s1.actions.goals[goal].owner, CancelRejected(s1.actions.goals[goal].id), o, topic);
      }
    }
  }

  lemma RequestOnActionQuiet(s: State, action: string, part: Part, request: nat, asked: Asked,
                             o: Connection, topic: string)
    requires action in s.servers.actionServers && forall k :: k in asked.notices ==> k in s.servers.serverGoals
    ensures Quiet(s.desk, RequestOnAction(s, action, part, request, asked).0.desk, o, topic)
  {
    hide Post, UniqueName, PostAll, Cancelled, Marked, Heard;
    var a := s.servers.actionServers[action];
    match part
    case Send =>
      var n := s.desk.next + 1;
      PostHeard(s.desk.(next := n), a.owner, GoalRequest(UniqueName(n), action), o, topic);
    case Result =>
    case Cancel => PostAllQuiet(s.desk, CancelNotices(s.servers.serverGoals, a.owner, action, asked.notices), o, topic);
    case Feedback =>
    case Status =>
  }

  lemma ForwardDesk(s: State, name: string, request: nat, now: nat)
    requires name in s.rpc.services
    ensures var service := s.rpc.services[name];
      ForwardRequest(s, name, request, now).desk
      == Post(s.desk, service.owner, ServiceRequest(RequestId(name, service.nextRequest + 1), name))
  {
    hide Post, RequestId;
  }

  lemma ServeQuiet(s: State, e: Entity, request: nat, asked: Asked, now: nat, o: Connection, topic: string)
    requires forall k :: k in asked.notices ==> k in s.servers.serverGoals
    ensures Quiet(s.desk, OnRequest(s, e, request, asked, now).desk, o, topic)
  {
    hide RequestOnAction, Post, Heard, RequestId;
    var s1 := Handling(s, (e, request));
    if exists a, p :: ServesPart(s, e, a, p) {
      var a, p :| ServesPart(s, e, a, p)
        && OnRequest(s, e, request, asked, now)
           == DiscardOnError(RequestOnAction(s1, a, p, request, asked), e, request);
      RequestOnActionQuiet(s1, a, p, request, asked, o, topic);
      assert DiscardOnError(RequestOnAction(s1, a, p, request, asked), e, request).desk
          == RequestOnAction(s1, a, p, request, asked).0.desk;
    } else if exists n :: Serves(s, e, n) {
      var n :| Serves(s, e, n) && OnRequest(s, e, request, asked, now) == ForwardRequest(s1, n, request, now);
      var service := s.rpc.services[n];
      var body := ServiceRequest(RequestId(n, service.nextRequest + 1), n);
      PostHeard(s.desk, service.owner, body, o, topic);
      ForwardDesk(s1, n, request, now);
    }
  }

  lemma ObeyQuiet(s: State, owner: Connection, c: Command, now: nat, o: Connection, topic: string)
    requires s.ros.Valid() && (c.Command? ==> !c.operation.SubscribeTopic?)
    ensures Quiet(s.desk, OnCommand(s, owner, c, now).desk, o, topic)
  {
    hide Operate, Post, Heard, Ros.Valid;
    var t := Execute(s, owner, c, now).0;
    if c.Command? && Name(c.name).Some? { OperateDesk(s, owner, Name(c.name).value, c.operation, now); }
    PostHeard(t.desk, owner, Failure(c.id), o, topic);
  }

  lemma OtherMovesQuiet(s: State, m: Move, o: Connection, topic: string)
    requires s.ros.Valid() && !MoveTouchesTopics(m)
    ensures Quiet(s.desk, Do(s, m).desk, o, topic) && Do(s, m).topics == s.topics
  {
    hide OnCommand, OnResponse, OnRequest, FinishGoal, FinishCall, RemoveAction, AbandonGoal, Heard, MoveFrame,
      Ros.Valid;
    MoveKeepsTopics(s, m);
    if Fits(s, m) {
      match m
      case Obey(owner, c, now) => ObeyQuiet(s, owner, c, now, o, topic);
      case Learn(ticket, answer) => LearnQuiet(s, ticket, answer, o, topic);
      case Serve(e, request, asked, now) => ServeQuiet(s, e, request, asked, now, o, topic);
      case GoalTimeout(goal) => FinishGoalQuiet(s, goal, 6, false, o, topic);
      case CallTimeout(ticket) => if ticket in s.rpc.calls { FinishCallQuiet(s, ticket, false, o, topic); }
      case LeaveAction(owner, name, keys) => RemoveActionFrame(s, owner, name, keys);
      case LeaveGoal(goal) => AbandonQuiet(s, goal, o, topic);
      case _ =>
    }
  }

  lemma MoveKeepsTopics(s: State, m: Move)
    requires s.ros.Valid() && !MoveTouchesTopics(m)
    ensures Do(s, m).topics == s.topics
  {
    hide Do, Ros.Valid;
    DoFrame(s, m);
  }

  lemma AbandonQuiet(s: State, goal: Uuid, o: Connection, topic: string)
    ensures Quiet(s.desk, AbandonGoal(s, goal).desk, o, topic)
  {
    hide FinishGoal, Heard;
    if goal in s.actions.goals {
      var g := s.actions.goals[goal];
      FinishGoalQuiet(if g.accepted then s.(ros := s.ros.Request(g.five.cancel, AboutGoal(goal)).0) else s, goal, 6,
                      false, o, topic);
    }
  }

  // ---------- registrations ----------

  /** The client's record, as long as it is subscribed. */
  function ClientOf(s: State, o: Connection, topic: string): Delivery.Client
    requires Subscribes(s.topics.subscriptions, o, topic)
  {
    s.topics.subscriptions[topic].clients[o]
  }

  ghost predicate Follows(s: State, o: Connection, topic: string) {
    Subscribes(s.topics.subscriptions, o, topic)
  }

  function Registration(op: Operation): seq<D.Event> {
    match op
    case SubscribeTopic(id, options, _) => [D.Register(id, options)]
    case UnsubscribeTopic(id) => [D.Unregister(id)]
    case _ => []
  }

  lemma SubscribeKeepsFollowing(s: State, owner: Connection, name: string, id: Id, options: Delivery.Options,
                                setup: Setup, now: nat, o: Connection, topic: string)
    requires Follows(s, o, topic)
    ensures var (t, ok) := Subscribe(s, owner, name, id, options, setup, now);
      && Follows(t, o, topic) && Quiet(s.desk, t.desk, o, topic)
      && ClientOf(t, o, topic) ==
         if ok && owner == o && name == topic
         then ClientOf(s, o, topic).(registrations := ClientOf(s, o, topic).registrations[id := options])
         else ClientOf(s, o, topic)
  {
    hide OpenTopic, JoinTopic, PostAll, Heard;
    OpenTopicShape(s, name, setup);
    var (s1, there) := OpenTopic(s, name, setup);
    if there && name in s1.topics.subscriptions {
      JoinTopicShape(s1, owner, name, id, options, now);
      JoinedClient(s1, owner, name, id, options, now);
      JoinSends(s1, owner, name, id, options, now);
      PostAllQuiet(s1.desk, Sample(s1.topics.subscriptions, owner, name), o, topic);
    }
  }

  lemma UnsubscribeKeepsFollowing(s: State, owner: Connection, name: string, id: Id, o: Connection, topic: string)
    requires Follows(s, o, topic) && Follows(Unsubscribe(s, owner, name, id).0, o, topic)
    ensures var (t, ok) := Unsubscribe(s, owner, name, id);
      ClientOf(t, o, topic) ==
        if ok && owner == o && name == topic
        then ClientOf(s, o, topic).(registrations := ClientOf(s, o, topic).registrations - {id})
        else ClientOf(s, o, topic)
  {
    if Unsubscribe(s, owner, name, id).1 { UnsubscribeIs(s, owner, name, id); }
  }

  /** A command leaves the record alone, or changes one registration of it. */
  lemma ObeyKeepsFollowing(s: State, owner: Connection, c: Command, now: nat, o: Connection, topic: string,
                           trace: D.Trace)
    requires s.ros.Valid() && Follows(s, o, topic) && Follows(OnCommand(s, owner, c, now), o, topic)
    requires trace.client == ClientOf(s, o, topic)
    ensures var t := OnCommand(s, owner, c, now);
      && Quiet(s.desk, t.desk, o, topic)
      && ClientOf(t, o, topic) == D.Run(trace, Commanded(s, owner, c, now, o, topic)).client
      && D.Run(trace, Commanded(s, owner, c, now, o, topic)).delivered == trace.delivered
  {
    hide Operate, Post, Heard, Ros.Valid;
    var (s1, ok) := Execute(s, owner, c, now);
    RunOfOne(trace);
    PostHeard(s1.desk, owner, Failure(c.id), o, topic);
    if owner in s.desk.outputs && c.Command? && Name(c.name).Some? && !(NeedsAccess(c.operation) && !c.permitted) {
      OperateKeepsFollowing(s, owner, Name(c.name).value, c.operation, now, o, topic);
    }
  }

  lemma RunOfOne(trace: D.Trace)
    ensures D.Run(trace, []) == trace
    ensures forall e :: D.Run(trace, [e]) == D.Next(trace, e)
  {
    forall e ensures D.Run(trace, [e]) == D.Next(trace, e) {
      assert [e][..0] == [];
      assert D.Run(trace, [e][..0]) == trace;
    }
  }

  lemma OperateKeepsFollowing(s: State, owner: Connection, name: string, op: Operation, now: nat,
                              o: Connection, topic: string)
    requires s.ros.Valid() && Follows(s, o, topic) && Follows(Operate(s, owner, name, op, now).0, o, topic)
    ensures var (t, ok) := Operate(s, owner, name, op, now);
      && Quiet(s.desk, t.desk, o, topic)
      && var c := ClientOf(s, o, topic);
      && ClientOf(t, o, topic) ==
         (if ok && owner == o && name == topic && op.SubscribeTopic? then
            c.(registrations := c.registrations[op.id := op.options])
          else if ok && owner == o && name == topic && op.UnsubscribeTopic? then
            c.(registrations := c.registrations - {op.id})
          else c)
  {
    hide Advertise, Unadvertise, Unsubscribe, Subscribe, Heard, Ros.Valid;
    if op.SubscribeTopic? {
      SubscribeKeepsFollowing(s, owner, name, op.id, op.options, op.setup, now, o, topic);
    } else {
      OperateDesk(s, owner, name, op, now);
      match op
      case AdvertiseTopic(id, setup) => AdvertiseShape(s, owner, name, id, setup);
      case UnadvertiseTopic(id) => UnadvertiseShape(s, owner, name, id);
      case PublishMessage(id, setup) => AdvertiseShape(s, owner, name, id, setup);
      case UnsubscribeTopic(id) => UnsubscribeKeepsFollowing(s, owner, name, id, o, topic);
      case _ =>
        hide Operate;
        OperateFrame(s, owner, name, op, now);
    }
  }

  // ---------- messages ----------

  lemma {:induction false} HeardToEach(order: seq<Connection>, m: Delivery.Message, name: string, o: Connection,
                                       topic: string)
    requires forall i, j :: 0 <= i < j < |order| ==> order[i] != order[j]
    ensures Heard(ToEach(order, Publish(name, m)), o, topic) == if name == topic && o in order then [m] else []
    decreases |order|
  {
    if order != [] {
      hide ToEach, Heard;
      var n := |order| - 1;
      HeardToEach(order[..n], m, name, o, topic);
      ToEachSnoc(order, Publish(name, m));
      HeardSnoc(ToEach(order[..n], Publish(name, m)), Sent(order[n], Publish(name, m)), o, topic);
      LastIsNew(order);
      assert o in order <==> o in order[..n] || o == order[n];
    }
  }

  lemma ToEachSnoc(order: seq<Connection>, body: Body)
    requires order != []
    ensures var n := |order| - 1; ToEach(order, body) == ToEach(order[..n], body) + [Sent(order[n], body)]
  {
  }

  lemma LastIsNew<T>(xs: seq<T>)
    requires xs != [] && forall i, j :: 0 <= i < j < |xs| ==> xs[i] != xs[j]
    ensures xs[|xs| - 1] !in xs[..|xs| - 1]
    ensures forall x :: x in xs <==> x in xs[..|xs| - 1] || x == xs[|xs| - 1]
  {
    assert xs == xs[..|xs| - 1] + [xs[|xs| - 1]];
  }

  lemma DueSnoc(subs: map<string, Subscription>, due: seq<(string, Connection)>, now: nat)
    requires due != [] && forall i :: 0 <= i < |due| ==> IsDue(subs, due[i], now)
    ensures var n := |due| - 1;
      DueMessages(subs, due, now) == DueMessages(subs, due[..n], now) + [DueMessage(subs, due[n], now)]
  {
    hide IsDue, DueMessage;
  }

  lemma NoneDue(subs: map<string, Subscription>, due: seq<(string, Connection)>, now: nat, o: Connection,
                topic: string)
    requires due == []
    ensures Heard(DueMessages(subs, due, now), o, topic) == []
  {
    assert DueMessages(subs, due, now) == [];
  }

  lemma DueMessageIs(subs: map<string, Subscription>, place: (string, Connection), now: nat)
    requires IsDue(subs, place, now)
    ensures place.0 in subs && place.1 in subs[place.0].clients
    ensures var m := Delivery.Due(subs[place.0].clients[place.1], now).1;
      m.Some? && DueMessage(subs, place, now) == Sent(place.1, Publish(place.0, m.value))
  {
    hide Delivery.Due;
  }

  lemma {:induction false} HeardDue(subs: map<string, Subscription>, due: seq<(string, Connection)>, now: nat,
                                    o: Connection, topic: string)
    requires forall i :: 0 <= i < |due| ==> IsDue(subs, due[i], now)
    requires forall i, j :: 0 <= i < j < |due| ==> due[i] != due[j]
    ensures Heard(DueMessages(subs, due, now), o, topic)
         == if (topic, o) in due then [Delivery.Due(subs[topic].clients[o], now).1.value] else []
    decreases |due|
  {
    hide Delivery.Due, Heard, DueMessages, IsDue, DueMessage;
    if due == [] {
      NoneDue(subs, due, now, o, topic);
    } else {
      var n := |due| - 1;
      HeardDue(subs, due[..n], now, o, topic);
      DueSnoc(subs, due, now);
      HeardSnoc(DueMessages(subs, due[..n], now), DueMessage(subs, due[n], now), o, topic);
      LastIsNew(due);
      DueMessageIs(subs, due[n], now);
      assert due[n] == (due[n].0, due[n].1);
    }
  }

  function AsSeq(m: Option<Delivery.Message>): seq<Delivery.Message> {
    if m.Some? then [m.value] else []
  }

  lemma TopicMessageFollowed(s: State, name: string, m: Delivery.Message, now: nat, order: seq<Connection>,
                             o: Connection, topic: string)
    requires Follows(s, o, topic) && name in s.topics.subscriptions
    requires Lists(order, Receivers(s.topics.subscriptions[name], m, now))
    requires Reached(TopicMessage(s, name, m, now, order).desk, o)
    ensures var t := TopicMessage(s, name, m, now, order);
      && Follows(t, o, topic)
      && var (c, out) := Delivery.Arrive(ClientOf(s, o, topic), m, now);
      && ClientOf(t, o, topic) == (if name == topic then c else ClientOf(s, o, topic))
      && HeardOf(t.desk, o, topic) == HeardOf(s.desk, o, topic) + if name == topic then AsSeq(out) else []
  {
    hide PostAll, Heard, Delivery.Ready, Delivery.Trim;
    PostAllHeard(s.desk, ToEach(order, Publish(name, m)), o, topic);
    HeardToEach(order, m, name, o, topic);
  }

  lemma GoalMessageFollowed(s: State, g: Uuid, m: Delivery.Message, o: Connection, topic: string)
    requires g in s.actions.goals
    ensures var t := GoalMessage(s, g, m);
      t.topics == s.topics && HeardOf(t.desk, o, topic) == HeardOf(s.desk, o, topic) + []
  {
    hide Post, Heard;
    var goal := s.actions.goals[g];
    PostHeard(s.desk, goal.owner, GoalFeedback(g, goal.action, goal.id), o, topic);
    assert HeardOf(s.desk, o, topic) + [] == HeardOf(s.desk, o, topic);
  }

  lemma HearFollowed(s: State, e: Entity, m: Delivery.Message, now: nat, order: seq<Connection>, o: Connection,
                     topic: string)
    requires Own.Owned(s) && Follows(s, o, topic) && HearFits(s, e, m, now, order)
    requires Reached(OnMessage(s, e, m, now, order).desk, o)
    ensures var t := OnMessage(s, e, m, now, order);
      && Follows(t, o, topic)
      && var mine := s.topics.subscriptions[topic].entity == e;
      && var (c, out) := Delivery.Arrive(ClientOf(s, o, topic), m, now);
      && ClientOf(t, o, topic) == (if mine then c else ClientOf(s, o, topic))
      && HeardOf(t.desk, o, topic) == HeardOf(s.desk, o, topic) + if mine then AsSeq(out) else []
  {
    hide TopicMessage, Receivers, Heard, Post, Delivery.Arrive, Own.Owned, Lists;
    EntitiesApart(s, e, topic);
    if exists g :: FeedbackFor(s, e, g) {
      var g :| FeedbackFor(s, e, g) && OnMessage(s, e, m, now, order) == GoalMessage(s, g, m);
      GoalMessageFollowed(s, g, m, o, topic);
    } else if exists u :: Subscribed(s, e, u) {
      var u :| Subscribed(s, e, u) && OnMessage(s, e, m, now, order) == TopicMessage(s, u, m, now, order);
      TopicMessageFollowed(s, u, m, now, order, o, topic);
    } else {
      assert !Subscribed(s, e, topic);
    }
  }

  /** An entity is that of one topic at most, and not of a goal as well. */
  lemma EntitiesApart(s: State, e: Entity, topic: string)
    requires Own.Owned(s) && topic in s.topics.subscriptions
    ensures forall u :: Subscribed(s, e, u) && Subscribed(s, e, topic) ==> u == topic
    ensures forall g :: FeedbackFor(s, e, g) ==> !Subscribed(s, e, topic)
  {
    var r := Own.RecordsOf(s);
    forall u | Subscribed(s, e, u) && Subscribed(s, e, topic) ensures u == topic {
      assert Own.Holder(r, Own.OfSubscription(u)) == Own.Holder(r, Own.OfSubscription(topic));
    }
    forall g | FeedbackFor(s, e, g) ensures !Subscribed(s, e, topic) {
      assert Own.Holder(r, Own.OfGoal(g, Feedback)) == Some(e);
      assert Subscribed(s, e, topic) ==> Own.Holder(r, Own.OfSubscription(topic)) == Some(e);
    }
  }

  lemma DeliverFollowed(s: State, due: seq<(string, Connection)>, now: nat, o: Connection, topic: string)
    requires Follows(s, o, topic) && DeliverFits(s.topics.subscriptions, due, now)
    requires Reached(DeliverDue(s, due, now).desk, o)
    ensures var t := DeliverDue(s, due, now);
      && Follows(t, o, topic)
      && var (c, out) := Delivery.Due(ClientOf(s, o, topic), now);
      && ClientOf(t, o, topic) == c
      && HeardOf(t.desk, o, topic) == HeardOf(s.desk, o, topic) + AsSeq(out)
  {
    hide PostAll, Heard, Delivery.Due;
    var subs := s.topics.subscriptions;
    PostAllHeard(s.desk, DueMessages(subs, due, now), o, topic);
    HeardDue(subs, due, now, o, topic);
    assert (topic, o) in due <==> IsDue(subs, (topic, o), now);
  }

  // ---------- runs ----------

  /** The registrations a command of this client changes on this topic. */
  ghost function Commanded(s: State, owner: Connection, c: Command, now: nat, o: Connection,
                           topic: string): seq<D.Event> {
    if owner == o && owner in s.desk.outputs && c.Command? && Name(c.name) == Some(topic) && Execute(s, owner, c, now).1
    then Registration(c.operation) else []
  }

  /** What a move of the bridge is to one client of one topic. */
  ghost function Projected(s: State, m: Move, o: Connection, topic: string): seq<D.Event>
    requires Follows(s, o, topic)
  {
    match m
    case Hear(e, message, now, _) => if s.topics.subscriptions[topic].entity == e then [D.Arrival(message, now)] else []
    case Deliver(_, now) => [D.Tick(now)]
    case Obey(owner, c, now) => Commanded(s, owner, c, now, o, topic)
    case _ => []
  }

  /** Throughout the moves the client stays subscribed and its output accepts what it is given. */
  ghost predicate Followed(s: State, moves: seq<Move>, o: Connection, topic: string) {
    && Follows(s, o, topic)
    && (moves != [] ==>
          var n := |moves| - 1;
          && Followed(s, moves[..n], o, topic)
          && Fits(DoAll(s, moves[..n]), moves[n])
          && Follows(DoAll(s, moves), o, topic) && Reached(DoAll(s, moves).desk, o))
  }

  ghost function ProjectedAll(s: State, moves: seq<Move>, o: Connection, topic: string): seq<D.Event>
    requires Followed(s, moves, o, topic)
  {
    if moves == [] then []
    else
      var n := |moves| - 1;
      assert Follows(DoAll(s, moves[..n]), o, topic) by { FollowedAtEnd(s, moves[..n], o, topic); }
      ProjectedAll(s, moves[..n], o, topic) + Projected(DoAll(s, moves[..n]), moves[n], o, topic)
  }

  lemma FollowedAtEnd(s: State, moves: seq<Move>, o: Connection, topic: string)
    requires Followed(s, moves, o, topic)
    ensures Follows(DoAll(s, moves), o, topic)
  {
  }

  function Messages(delivered: seq<D.Delivered>): seq<Delivery.Message> {
    seq(|delivered|, i requires 0 <= i < |delivered| => delivered[i].message)
  }

  /** The trace is the client's: its record, and all it has heard since `before`. */
  ghost predicate Mirrors(s: State, o: Connection, topic: string, trace: D.Trace, before: seq<Delivery.Message>) {
    && Follows(s, o, topic) && ClientOf(s, o, topic) == trace.client
    && HeardOf(s.desk, o, topic) == before + Messages(trace.delivered)
  }

  lemma MoveMirrors(s: State, m: Move, o: Connection, topic: string, trace: D.Trace, before: seq<Delivery.Message>,
                    replayed: nat)
    requires Own.Owned(s) && Mirrors(s, o, topic, trace, before) && D.InOrder(trace, replayed)
    requires Fits(s, m) && Follows(Do(s, m), o, topic) && Reached(Do(s, m).desk, o)
    ensures Mirrors(Do(s, m), o, topic, D.Run(trace, Projected(s, m, o, topic)), before)
  {
    hide Do, D.InOrder, D.Run, Mirrors, Own.Owned, Fits, Projected, Follows, Reached;
    OwnedIsValid(s);
    match m
    case Hear(e, message, now, order) => HearMirrors(s, m, o, topic, trace, before);
    case Deliver(due, now) => DeliverMirrors(s, m, o, topic, trace, before, replayed);
    case Obey(owner, c, now) => ObeyMirrors(s, m, o, topic, trace, before);
    case LeaveTopic(owner, name) => LeaveMirrors(s, m, o, topic, trace, before);
    case LeaveSubscription(owner, name) => LeaveMirrors(s, m, o, topic, trace, before);
    case _ => QuietMirrors(s, m, o, topic, trace, before);
  }

  lemma OwnedIsValid(s: State)
    requires Own.Owned(s)
    ensures s.ros.Valid()
  {
  }

  lemma HearMirrors(s: State, m: Move, o: Connection, topic: string, trace: D.Trace, before: seq<Delivery.Message>)
    requires Own.Owned(s) && Mirrors(s, o, topic, trace, before) && m.Hear?
    requires Fits(s, m) && Reached(Do(s, m).desk, o)
    ensures Mirrors(Do(s, m), o, topic, D.Run(trace, Projected(s, m, o, topic)), before)
  {
    hide Do, OnMessage, Delivery.Arrive, Heard, Own.Owned, HearFits, D.Next, D.Run;
    RunOfOne(trace);
    DoesIt(s, m);
    HearFollowed(s, m.entity, m.message, m.now, m.order, o, topic);
    ArrivalDelivers(trace, m.message, m.now);
  }

  lemma DeliverMirrors(s: State, m: Move, o: Connection, topic: string, trace: D.Trace,
                       before: seq<Delivery.Message>, replayed: nat)
    requires Mirrors(s, o, topic, trace, before) && m.Deliver? && D.InOrder(trace, replayed)
    requires Fits(s, m) && Reached(Do(s, m).desk, o)
    ensures Mirrors(Do(s, m), o, topic, D.Run(trace, Projected(s, m, o, topic)), before)
  {
    hide Do, DeliverDue, Delivery.Due, Heard, D.InOrder, D.Next, D.Run;
    RunOfOne(trace);
    DoesIt(s, m);
    DeliverFollowed(s, m.due, m.now, o, topic);
    TickDelivers(trace, m.now, replayed);
  }

  lemma ObeyMirrors(s: State, m: Move, o: Connection, topic: string, trace: D.Trace, before: seq<Delivery.Message>)
    requires s.ros.Valid() && Mirrors(s, o, topic, trace, before) && m.Obey?
    requires Fits(s, m) && Follows(Do(s, m), o, topic)
    ensures Mirrors(Do(s, m), o, topic, D.Run(trace, Projected(s, m, o, topic)), before)
  {
    hide Do, OnCommand, Heard, Fits, D.Run, Commanded, Ros.Valid;
    DoesIt(s, m);
    ObeyKeepsFollowing(s, m.owner, m.command, m.now, o, topic, trace);
  }

  lemma LeaveMirrors(s: State, m: Move, o: Connection, topic: string, trace: D.Trace, before: seq<Delivery.Message>)
    requires Mirrors(s, o, topic, trace, before) && (m.LeaveTopic? || m.LeaveSubscription?)
    requires Follows(Do(s, m), o, topic)
    ensures Mirrors(Do(s, m), o, topic, D.Run(trace, Projected(s, m, o, topic)), before)
  {
    hide Do, Heard, D.Next;
    RunOfOne(trace);
    LeaveFollowed(s, m, o, topic);
  }

  lemma QuietMirrors(s: State, m: Move, o: Connection, topic: string, trace: D.Trace, before: seq<Delivery.Message>)
    requires s.ros.Valid() && Mirrors(s, o, topic, trace, before) && !MoveTouchesTopics(m) && !m.Obey?
    ensures Mirrors(Do(s, m), o, topic, D.Run(trace, Projected(s, m, o, topic)), before)
  {
    hide Do, Heard, D.Next, Ros.Valid;
    RunOfOne(trace);
    OtherMovesQuiet(s, m, o, topic);
  }

  lemma DoesIt(s: State, m: Move)
    requires Fits(s, m)
    ensures m.Hear? ==> Do(s, m) == OnMessage(s, m.entity, m.message, m.now, m.order)
    ensures m.Deliver? ==> Do(s, m) == DeliverDue(s, m.due, m.now)
    ensures m.Obey? ==> Do(s, m) == OnCommand(s, m.owner, m.command, m.now)
  {
    hide OnMessage, DeliverDue, OnCommand;
  }

  lemma ArrivalDelivers(trace: D.Trace, m: Delivery.Message, now: nat)
    ensures var t := D.Next(trace, D.Arrival(m, now));
      var (c, out) := Delivery.Arrive(trace.client, m, now);
      t.client == c && Messages(t.delivered) == Messages(trace.delivered) + AsSeq(out)
  {
  }

  lemma TickDelivers(trace: D.Trace, now: nat, replayed: nat)
    requires D.InOrder(trace, replayed)
    ensures var t := D.Next(trace, D.Tick(now));
      var (c, out) := Delivery.Due(trace.client, now);
      t.client == c && Messages(t.delivered) == Messages(trace.delivered) + AsSeq(out)
  {
  }

  lemma LeaveFollowed(s: State, m: Move, o: Connection, topic: string)
    requires m.LeaveTopic? || m.LeaveSubscription?
    requires Follows(s, o, topic) && Follows(Do(s, m), o, topic)
    ensures ClientOf(Do(s, m), o, topic) == ClientOf(s, o, topic) && Do(s, m).desk == s.desk
  {
    hide Unadvertise, Unsubscribe;
    if m.LeaveTopic? {
      UnadvertiseShape(s, m.owner, m.topic, None);
    } else {
      UnsubscribeShape(s, m.owner, m.topic, None);
      UnsubscribeKeepsFollowing(s, m.owner, m.topic, None, o, topic);
      AllRegistrationsGo(s, m.owner, m.topic);
    }
  }

  lemma AllRegistrationsGo(s: State, owner: Connection, topic: string)
    ensures var (t, ok) := Unsubscribe(s, owner, topic, None); ok ==> !Follows(t, owner, topic)
  {
  }

  /** Over any run, what happens to one client of one topic is a delivery run, and so is all that it hears. */
  lemma {:induction false} RunsMirror(s: State, moves: seq<Move>, o: Connection, topic: string, trace: D.Trace,
                                      before: seq<Delivery.Message>, replayed: nat)
    requires Consistent(s) && Followed(s, moves, o, topic)
    requires Mirrors(s, o, topic, trace, before) && D.InOrder(trace, replayed)
    ensures var t := D.Run(trace, ProjectedAll(s, moves, o, topic));
      Mirrors(DoAll(s, moves), o, topic, t, before) && D.InOrder(t, replayed)
    decreases |moves|
  {
    hide Consistent, Do, Mirrors, D.InOrder, Projected, Fits, Follows, Reached;
    if moves != [] {
      var n := |moves| - 1;
      RunsMirror(s, moves[..n], o, topic, trace, before, replayed);
      MovesConsistent(s, moves[..n]);
      var s1 := DoAll(s, moves[..n]);
      ConsistentIsOwned(s1);
      FollowedAtEnd(s, moves[..n], o, topic);
      var earlier, event := ProjectedAll(s, moves[..n], o, topic), Projected(s1, moves[n], o, topic);
      MoveMirrors(s1, moves[n], o, topic, D.Run(trace, earlier), before, replayed);
      AtMostOne(s1, moves[n], o, topic);
      OneMoreEvent(trace, earlier, event, replayed);
    }
  }

  lemma ConsistentIsOwned(s: State)
    requires Consistent(s)
    ensures Own.Owned(s)
  {
  }

  lemma AtMostOne(s: State, m: Move, o: Connection, topic: string)
    requires Follows(s, o, topic)
    ensures |Projected(s, m, o, topic)| <= 1
  {
    hide Execute;
  }

  lemma OneMoreEvent(trace: D.Trace, earlier: seq<D.Event>, event: seq<D.Event>, replayed: nat)
    requires |event| <= 1 && D.InOrder(D.Run(trace, earlier), replayed)
    ensures D.Run(trace, earlier + event) == D.Run(D.Run(trace, earlier), event)
    ensures D.InOrder(D.Run(trace, earlier + event), replayed)
  {
    hide D.Next, D.InOrder;
    RunOfOne(D.Run(trace, earlier));
    if event == [] {
      assert earlier + event == earlier;
    } else {
      assert event == [event[0]];
      assert (earlier + event)[..|earlier|] == earlier;
      D.EventKeepsOrder(D.Run(trace, earlier), event[0], replayed);
    }
  }

  // ---------- from the subscription on ----------

  function Retained(s: State, topic: string): Option<Delivery.Message> {
    if topic in s.topics.subscriptions then s.topics.subscriptions[topic].retained else None
  }

  lemma NewFollower(s: State, o: Connection, topic: string, id: Id, options: Delivery.Options, setup: Setup, now: nat)
    requires !Follows(s, o, topic) && Subscribe(s, o, topic, id, options, setup, now).1
    requires Reached(Subscribe(s, o, topic, id, options, setup, now).0.desk, o)
    ensures var t := Subscribe(s, o, topic, id, options, setup, now).0;
      Mirrors(t, o, topic, D.Start(id, options, Retained(s, topic), now), HeardOf(s.desk, o, topic))
  {
    hide OpenTopic, JoinTopic, PostAll, Heard;
    OpenTopicShape(s, topic, setup);
    var s1 := OpenTopic(s, topic, setup).0;
    NewClientIs(s1, o, topic, id, options, now);
    JoinSends(s1, o, topic, id, options, now);
    var sample := Sample(s1.topics.subscriptions, o, topic);
    PostAllHeard(s1.desk, sample, o, topic);
    HeardSample(sample, o, topic);
    assert Messages(D.Start(id, options, Retained(s, topic), now).delivered) == AsSeq(Retained(s, topic));
  }

  lemma NewClientIs(s: State, o: Connection, topic: string, id: Id, options: Delivery.Options, now: nat)
    requires topic in s.topics.subscriptions && o !in s.topics.subscriptions[topic].clients
    ensures var t := JoinTopic(s, o, topic, id, options, now);
      Follows(t, o, topic)
      && ClientOf(t, o, topic) == Delivery.Join(id, options, s.topics.subscriptions[topic].retained, now)
  {
    hide Post;
  }

  lemma HeardSample(sample: seq<Sent>, o: Connection, topic: string)
    requires |sample| <= 1 && forall m :: m in sample ==> Publishes(m, o, topic)
    ensures sample == [] ==> Heard(sample, o, topic) == []
    ensures sample != [] ==> Publishes(sample[0], o, topic) && Heard(sample, o, topic) == [sample[0].body.message]
  {
    if sample != [] {
      assert sample[0] in sample;
      HeardSnoc([], sample[0], o, topic);
      assert [] + [sample[0]] == sample;
    }
  }

  /** All that a client has heard of a topic since it subscribed, as a delivery run. */
  ghost predicate HeardAsRun(s: State, o: Connection, topic: string, t: D.Trace, before: seq<Delivery.Message>,
                             replayed: nat)
  {
    Mirrors(s, o, topic, t, before) && D.InOrder(t, replayed) && D.Spaced(t)
  }

  /**
   From the moment a client subscribes to a topic, and as long as it does and its output works:
   through whatever else happens on the bridge, it hears at most one retained sample and then
   arrivals in order, none twice, each at least the merged throttle after the one before.
   */
  lemma FollowersHearRuns(s: State, o: Connection, topic: string, id: Id, options: Delivery.Options, setup: Setup,
                          now: nat, moves: seq<Move>)
    requires !Follows(s, o, topic) && Subscribe(s, o, topic, id, options, setup, now).1
    requires var s1 := Subscribe(s, o, topic, id, options, setup, now).0;
      Consistent(s1) && Reached(s1.desk, o) && Followed(s1, moves, o, topic)
    ensures var s1 := Subscribe(s, o, topic, id, options, setup, now).0;
      var start := D.Start(id, options, Retained(s, topic), now);
      HeardAsRun(DoAll(s1, moves), o, topic, D.Run(start, ProjectedAll(s1, moves, o, topic)),
                 HeardOf(s.desk, o, topic), if Retained(s, topic).Some? then 1 else 0)
  {
    hide Consistent, Subscribe, Followed, Follows, Mirrors, D.InOrder, D.Spaced, D.Run, DoAll, ProjectedAll;
    var s1 := Subscribe(s, o, topic, id, options, setup, now).0;
    var start := D.Start(id, options, Retained(s, topic), now);
    NewFollower(s, o, topic, id, options, setup, now);
    StartInOrder(id, options, Retained(s, topic), now);
    RunsMirror(s1, moves, o, topic, start, HeardOf(s.desk, o, topic), if Retained(s, topic).Some? then 1 else 0);
    D.DeliveriesAreOrdered(id, options, Retained(s, topic), now, ProjectedAll(s1, moves, o, topic));
  }

  lemma StartInOrder(id: Id, options: Delivery.Options, retained: Option<Delivery.Message>, now: nat)
    ensures D.InOrder(D.Start(id, options, retained, now), if retained.Some? then 1 else 0)
  {
  }
}

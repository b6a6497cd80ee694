/** Which part of the bridge each move leaves alone. */
module BridgeFrames {
  import opened Basics
  import opened Backend
  import opened BridgeState
  import opened BridgeTopics
  import opened BridgeServices
  import opened BridgeActions
  import opened BridgeMoves
  import opened BridgeShapes
  import Delivery

  predicate TouchesTopics(op: Operation) {
    op.AdvertiseTopic? || op.UnadvertiseTopic? || op.PublishMessage? || op.SubscribeTopic? || op.UnsubscribeTopic?
  }

  predicate TouchesServices(op: Operation) {
    op.OfferService? || op.WithdrawService? || op.AnswerService?
  }

  predicate TouchesServers(op: Operation) {
    op.OfferAction? || op.WithdrawAction? || op.GiveResult?
  }

  predicate TouchesGoals(op: Operation) {
    op.StartGoal? || op.StopGoal?
  }

  /** Identifiers are handed out in increasing order. */
  ghost predicate Onward(a: Ros, b: Ros) {
    a.nextEntity <= b.nextEntity && a.nextSequence <= b.nextSequence && a.nextRequest <= b.nextRequest
  }

  ghost predicate OperationFrame(s: State, t: State, op: Operation) {
    && (!TouchesTopics(op) ==> t.topics == s.topics)
    && (!op.CallRemote? ==> t.rpc.calls == s.rpc.calls)
    && (!TouchesServices(op) ==> t.rpc.services == s.rpc.services && t.rpc.external == s.rpc.external)
    && (!TouchesServers(op) ==> t.servers == s.servers)
    && (!TouchesGoals(op) ==> t.actions == s.actions)
    && t.unhandled == s.unhandled
    && Chatted(s.desk, t.desk) && Onward(s.ros, t.ros) && t.timeout == s.timeout
  }

  lemma ChattedSelf(d: Desk)
    ensures Chatted(d, d)
  {
  }

  lemma SubscribeFrame(s: State, owner: Connection, topic: string, id: Id, options: Delivery.Options, setup: Setup,
                       now: nat)
    ensures var t := Subscribe(s, owner, topic, id, options, setup, now).0;
      t == s.(topics := t.topics, desk := t.desk, ros := t.ros) && Chatted(s.desk, t.desk) && Onward(s.ros, t.ros)
  {
    OpenTopicShape(s, topic, setup);
    var (s1, ok) := OpenTopic(s, topic, setup);
    if ok && topic in s1.topics.subscriptions {
      JoinTopicShape(s1, owner, topic, id, options, now);
    }
    hide OpenTopic, JoinTopic;
  }

  lemma DrainFrame(a: Ros, requests: seq<Native>, answer: Content)
    ensures Onward(a, Drain(a, requests, answer).0)
  {
    DrainShape(a, requests, answer);
  }

  lemma ActionResultFrame(s: State, key: GoalKey, status: int, values: string, now: nat)
    requires key in s.servers.serverGoals
    ensures var t := ActionResult(s, key, status, values, now).0;
      t == s.(servers := t.servers, ros := t.ros) && Onward(s.ros, t.ros)
  {
    DrainFrame(s.ros.Query().0, s.servers.serverGoals[key].requests, ResultAnswer(status, values));
    hide Drain;
  }

  lemma RemoveActionFrame(s: State, owner: Connection, action: string, keys: seq<GoalKey>)
    ensures var t := RemoveAction(s, owner, action, keys).0;
      t == s.(servers := t.servers, ros := t.ros) && Onward(s.ros, t.ros)
  {
    DropGoalsShape(s, keys);
    hide DropGoals;
  }

  lemma AdvertiseActionFrame(s: State, owner: Connection, action: string, typ: string, keys: seq<GoalKey>)
    requires s.ros.Valid()
    ensures var t := AdvertiseAction(s, owner, action, typ, keys).0;
      t == s.(servers := t.servers, ros := t.ros) && Onward(s.ros, t.ros)
  {
    RemoveActionFrame(s, owner, action, keys);
    DropGoalsShape(s, keys);
    var s1 := if action in s.servers.actionServers then RemoveAction(s, owner, action, keys).0 else s;
    hide DropGoals, OpenAction;
    if action in s.servers.actionServers && s.servers.actionServers[action].owner == owner {
      AnsweredValid(s.ros, DropGoals(s, keys).ros, WaitersOf(s.servers.serverGoals, keys));
      DestroyValid(DropGoals(s, keys).ros, s.servers.actionServers[action].five.All());
    }
    OpenActionShape(s1, owner, action, typ);
  }

  lemma TopicFrame(s: State, owner: Connection, name: string, op: Operation, now: nat)
    requires TouchesTopics(op)
    ensures OperationFrame(s, Operate(s, owner, name, op, now).0, op)
  {
    hide Advertise, Unadvertise, Subscribe, Unsubscribe;
    ChattedSelf(s.desk);
    match op
    case AdvertiseTopic(id, setup) => AdvertiseShape(s, owner, name, id, setup);
    case UnadvertiseTopic(id) => UnadvertiseShape(s, owner, name, id);
    case PublishMessage(id, setup) => AdvertiseShape(s, owner, name, id, setup);
    case SubscribeTopic(id, options, setup) => SubscribeFrame(s, owner, name, id, options, setup, now);
    case UnsubscribeTopic(id) => UnsubscribeShape(s, owner, name, id);
  }

  lemma ServerFrame(s: State, owner: Connection, name: string, op: Operation, now: nat)
    requires s.ros.Valid() && TouchesServers(op)
    ensures OperationFrame(s, Operate(s, owner, name, op, now).0, op)
  {
    hide AdvertiseAction, RemoveAction, ActionResult;
    ChattedSelf(s.desk);
    match op
    case OfferAction(typ, keys) => AdvertiseActionFrame(s, owner, name, typ, keys);
    case WithdrawAction(keys) => RemoveActionFrame(s, owner, name, keys);
    case GiveResult(goal, status, values) =>
      var key := ServedGoal(s, owner, name, goal);
      if key.Some? { ActionResultFrame(s, key.value, status, values, now); }
  }

  lemma ServiceFrame(s: State, owner: Connection, name: string, typ: string)
    ensures var t := AdvertiseService(s, owner, name, typ).0;
      t == s.(rpc := t.rpc, ros := t.ros) && t.rpc.calls == s.rpc.calls && Onward(s.ros, t.ros)
    ensures var t := RemoveService(s, owner, name).0;
      t == s.(rpc := t.rpc, ros := t.ros) && t.rpc.calls == s.rpc.calls && Onward(s.ros, t.ros)
  {
  }

  lemma AnswerFrame(s: State, owner: Connection, id: string, service: string, success: Option<bool>)
    ensures var t := ServiceResponse(s, owner, id, service, success).0;
      t == s.(rpc := t.rpc, ros := t.ros) && t.rpc.calls == s.rpc.calls && Onward(s.ros, t.ros)
  {
  }

  lemma FeedbackFrame(s: State, key: GoalKey)
    requires key in s.servers.serverGoals
    ensures var t := ActionFeedback(s, key).0; t == s.(ros := t.ros) && Onward(s.ros, t.ros)
  {
  }

  lemma OtherFrame(s: State, owner: Connection, name: string, op: Operation, now: nat)
    requires s.ros.Valid() && !TouchesTopics(op) && !TouchesServers(op)
    ensures OperationFrame(s, Operate(s, owner, name, op, now).0, op)
  {
    hide CallService, SendGoal, CancelGoal, AdvertiseService, RemoveService, ServiceResponse, ActionFeedback, Chatted;
    ChattedSelf(s.desk);
    match op
    case CallRemote(id, declared, known, permitted, timeout) =>
      CallServiceShape(s, owner, id, name, declared, known, permitted, timeout, now);
    case OfferService(typ, permitted) => ServiceFrame(s, owner, name, typ);
    case WithdrawService => ServiceFrame(s, owner, name, "");
    case AnswerService(request, success) => AnswerFrame(s, owner, request, name, success);
    case StartGoal(id, feedback, uuid) => SendGoalShape(s, owner, name, id, feedback, uuid, now);
    case StopGoal(goal) => CancelGoalShape(s, ActiveGoal(s, owner, name, goal));
    case GiveFeedback(goal) =>
      var key := ServedGoal(s, owner, name, goal);
      if key.Some? { FeedbackFrame(s, key.value); }
  }

  lemma OperateFrame(s: State, owner: Connection, name: string, op: Operation, now: nat)
    requires s.ros.Valid()
    ensures OperationFrame(s, Operate(s, owner, name, op, now).0, op)
  {
    hide Operate;
    if TouchesTopics(op) { TopicFrame(s, owner, name, op, now); }
    else if TouchesServers(op) { ServerFrame(s, owner, name, op, now); }
    else { OtherFrame(s, owner, name, op, now); }
  }

  /** The operation an obeyed command comes down to, if it comes to one. */
  function Obeyed(m: Move): Option<Operation> {
    if m.Obey? && m.command.Command? then Some(m.command.operation) else None
  }

  predicate MoveTouchesTopics(m: Move) {
    m.Hear? || m.Deliver? || m.LeaveTopic? || m.LeaveSubscription?
    || (Obeyed(m).Some? && TouchesTopics(Obeyed(m).value))
  }

  predicate MoveTouchesCalls(m: Move) {
    m.Learn? || m.CallTimeout? || m.LeaveCall? || (Obeyed(m).Some? && Obeyed(m).value.CallRemote?)
  }

  predicate MoveTouchesServices(m: Move) {
    m.Serve? || m.RequestTimeout? || m.LeaveService? || m.LeaveExternal?
    || (Obeyed(m).Some? && TouchesServices(Obeyed(m).value))
  }

  predicate MoveTouchesServers(m: Move) {
    m.Serve? || m.ForgetResults? || m.LeaveAction? || (Obeyed(m).Some? && TouchesServers(Obeyed(m).value))
  }

  predicate MoveTouchesGoals(m: Move) {
    m.Learn? || m.GoalTimeout? || m.LeaveGoal? || (Obeyed(m).Some? && TouchesGoals(Obeyed(m).value))
  }

  /** Final replies are sent only when a call or a goal is closed. */
  predicate MoveCloses(m: Move) {
    m.Learn? || m.GoalTimeout? || m.CallTimeout? || m.LeaveGoal?
  }

  ghost predicate MoveFrame(s: State, t: State, m: Move) {
    && (!MoveTouchesTopics(m) ==> t.topics == s.topics)
    && (!MoveTouchesCalls(m) ==> t.rpc.calls == s.rpc.calls)
    && (!MoveTouchesServices(m) ==> t.rpc.services == s.rpc.services && t.rpc.external == s.rpc.external)
    && (!MoveTouchesServers(m) ==> t.servers == s.servers)
    && (!MoveTouchesGoals(m) ==> t.actions == s.actions)
    && (!MoveCloses(m) && !m.Connect? && !m.Depart? && !m.TakeFailed? ==> Chatted(s.desk, t.desk))
    && (!m.Poll? && !m.Serve? ==> t.unhandled == s.unhandled)
    && Onward(s.ros, t.ros) && t.timeout == s.timeout
  }

  lemma ObeyFrame(s: State, owner: Connection, c: Command, now: nat)
    requires s.ros.Valid() && c.Command?
    ensures OperationFrame(s, OnCommand(s, owner, c, now), c.operation)
  {
    ChattedSelf(s.desk);
    var (t, ok) := Execute(s, owner, c, now);
    assert OperationFrame(s, t, c.operation) by {
      if Name(c.name).Some? { OperateFrame(s, owner, Name(c.name).value, c.operation, now); }
      hide Operate;
    }
    PostShape(t.desk, owner, Failure(c.id));
    hide Execute, Post;
  }

  lemma MalformedFrame(s: State, owner: Connection, c: Command, now: nat)
    requires c.Malformed?
    ensures var t := OnCommand(s, owner, c, now); t == s.(desk := t.desk) && Chatted(s.desk, t.desk)
  {
    ChattedSelf(s.desk);
    SendToShape(s, owner, Failure(c.id));
    hide SendTo;
  }

  lemma ObeyMoveFrame(s: State, owner: Connection, c: Command, now: nat)
    requires s.ros.Valid()
    ensures MoveFrame(s, OnCommand(s, owner, c, now), Obey(owner, c, now))
  {
    hide OnCommand;
    if c.Command? {
      ObeyFrame(s, owner, c, now);
    } else {
      MalformedFrame(s, owner, c, now);
      var t := OnCommand(s, owner, c, now);
      assert t.topics == s.topics && t.rpc == s.rpc && t.servers == s.servers && t.actions == s.actions;
      assert Onward(s.ros, t.ros);
    }
  }

  lemma ServeFrame(s: State, e: Entity, request: nat, asked: Asked, now: nat)
    requires forall k :: k in asked.notices ==> k in s.servers.serverGoals
    ensures MoveFrame(s, OnRequest(s, e, request, asked, now), Serve(e, request, asked, now))
  {
    hide RequestOnAction, ForwardRequest, DiscardOnError;
    ChattedSelf(s.desk);
    var s1 := Handling(s, (e, request));
    if exists a, p :: ServesPart(s, e, a, p) {
      var a, p :| ServesPart(s, e, a, p)
        && OnRequest(s, e, request, asked, now)
           == DiscardOnError(RequestOnAction(s1, a, p, request, asked), e, request);
      RequestOnActionFrame(s1, a, p, request, asked);
      DiscardOnErrorFrame(s1, RequestOnAction(s1, a, p, request, asked), e, request);
    } else if exists n :: Serves(s, e, n) {
      var n :| Serves(s, e, n) && OnRequest(s, e, request, asked, now) == ForwardRequest(s1, n, request, now);
      ForwardRequestShape(s1, n, request, now);
    }
  }

  lemma DiscardOnErrorFrame(s: State, outcome: (State, bool), e: Entity, request: nat)
    requires outcome.0 == s.(servers := outcome.0.servers, desk := outcome.0.desk, ros := outcome.0.ros)
    requires Chatted(s.desk, outcome.0.desk) && Onward(s.ros, outcome.0.ros)
    ensures var t := DiscardOnError(outcome, e, request);
      t == s.(servers := t.servers, desk := t.desk, ros := t.ros) && Chatted(s.desk, t.desk) && Onward(s.ros, t.ros)
    ensures DiscardOnError(outcome, e, request).servers == outcome.0.servers
  {
  }

  lemma RequestOnActionFrame(s: State, action: string, part: Part, request: nat, asked: Asked)
    requires action in s.servers.actionServers && forall k :: k in asked.notices ==> k in s.servers.serverGoals
    ensures var t := RequestOnAction(s, action, part, request, asked).0;
      t == s.(servers := t.servers, desk := t.desk, ros := t.ros) && Chatted(s.desk, t.desk) && Onward(s.ros, t.ros)
  {
    hide Post, UniqueName, PostAll, Cancelled, Marked;
    ChattedSelf(s.desk);
    var a := s.servers.actionServers[action];
    match part
    case Send =>
      var n := s.desk.next + 1;
      PostShape(s.desk.(next := n), a.owner, GoalRequest(UniqueName(n), action));
    case Result =>
    case Cancel =>
      PostAllShape(s.desk, CancelNotices(s.servers.serverGoals, a.owner, action, asked.notices));
    case Feedback =>
    case Status =>
  }

  lemma HearFrame(s: State, e: Entity, m: Delivery.Message, now: nat, order: seq<Connection>)
    ensures var t := OnMessage(s, e, m, now, order);
      t == s.(topics := t.topics, desk := t.desk) && Chatted(s.desk, t.desk)
  {
    hide GoalMessage, TopicMessage;
    ChattedSelf(s.desk);
    if exists g :: FeedbackFor(s, e, g) {
      var g :| FeedbackFor(s, e, g) && OnMessage(s, e, m, now, order) == GoalMessage(s, g, m);
      GoalMessageShape(s, g, m);
    } else if exists t :: Subscribed(s, e, t) {
      var topic :| Subscribed(s, e, topic) && OnMessage(s, e, m, now, order) == TopicMessage(s, topic, m, now, order);
      TopicMessageShape(s, topic, m, now, order);
    }
  }

  predicate Leaving(m: Move) {
    m.Depart? || m.LeaveTopic? || m.LeaveSubscription? || m.LeaveService? || m.LeaveAction? || m.LeaveGoal?
    || m.LeaveCall? || m.LeaveExternal?
  }

  lemma LeavingFrame(s: State, m: Move)
    requires Leaving(m)
    ensures MoveFrame(s, Do(s, m), m)
  {
    hide Unadvertise, Unsubscribe, RemoveService, RemoveAction, AbandonGoal, DropCall, ForgetExternal, MoveFrame;
    match m
    case Depart(owner) => LeavingOther(s, m);
    case LeaveTopic(owner, topic) => LeavingTopics(s, m);
    case LeaveSubscription(owner, topic) => LeavingTopics(s, m);
    case LeaveService(owner, name) => LeavingOther(s, m);
    case LeaveAction(owner, name, keys) => LeavingActions(s, m);
    case LeaveGoal(goal) => LeavingActions(s, m);
    case LeaveCall(ticket) => LeavingOther(s, m);
    case LeaveExternal(owner) => LeavingOther(s, m);
  }

  lemma LeavingTopics(s: State, m: Move)
    requires m.LeaveTopic? || m.LeaveSubscription?
    ensures MoveFrame(s, Do(s, m), m)
  {
    hide Unadvertise, Unsubscribe, Chatted;
    ChattedSelf(s.desk);
    match m
    case LeaveTopic(owner, topic) => UnadvertiseShape(s, owner, topic, None);
    case LeaveSubscription(owner, topic) => UnsubscribeShape(s, owner, topic, None);
  }

  lemma LeavingActions(s: State, m: Move)
    requires m.LeaveAction? || m.LeaveGoal?
    ensures MoveFrame(s, Do(s, m), m)
  {
    hide RemoveAction, AbandonGoal, Chatted;
    ChattedSelf(s.desk);
    match m
    case LeaveAction(owner, name, keys) => RemoveActionFrame(s, owner, name, keys);
    case LeaveGoal(goal) => AbandonGoalFrame(s, goal);
  }

  lemma LeavingOther(s: State, m: Move)
    requires m.Depart? || m.LeaveService? || m.LeaveCall? || m.LeaveExternal?
    ensures MoveFrame(s, Do(s, m), m)
  {
    hide Chatted;
    ChattedSelf(s.desk);
  }

  lemma DoFrame(s: State, m: Move)
    requires s.ros.Valid()
    ensures MoveFrame(s, Do(s, m), m)
  {
    hide OnCommand, OnMessage, OnResponse, OnRequest, FinishGoal, DeliverDue, Unadvertise, Unsubscribe, RemoveService,
         RemoveAction, AbandonGoal, DropCall, ForgetExternal;
    ChattedSelf(s.desk);
    if Leaving(m) {
      LeavingFrame(s, m);
    } else if Fits(s, m) {
      match m
      case Connect(owner) =>
      case Obey(owner, command, now) => ObeyMoveFrame(s, owner, command, now);
      case Poll(taken, next) =>
      case Hear(e, message, now, order) => HearFrame(s, e, message, now, order);
      case Learn(ticket, answer) => LearnFrame(s, ticket, answer);
      case Serve(e, request, asked, now) => ServeFrame(s, e, request, asked, now);
      case GoalTimeout(goal) => FinishGoalShape(s, goal, 6, false);
      case Deliver(due, now) => DeliverShape(s, due, now);
      case CallTimeout(ticket) =>
      case RequestTimeout(id) =>
      case ForgetResults(now) =>
      case TakeFailed =>
    }
  }

  lemma LearnFrame(s: State, ticket: Ticket, answer: Answer)
    ensures var t := OnResponse(s, ticket, answer);
      && t == s.(desk := t.desk, rpc := s.rpc.(calls := t.rpc.calls), actions := t.actions, ros := t.ros)
      && Onward(s.ros, t.ros)
  {
    hide FinishGoal, AcceptGoal, CancelAnswered;
    if ticket !in s.rpc.calls && ticket in s.actions.actionCalls {
      var goal := s.actions.actionCalls[ticket].goal;
      var s1 := s.(actions := s.actions.(actionCalls := s.actions.actionCalls - {ticket}));
      FinishGoalShape(s1, goal, 6, false);
      FinishGoalShape(s1, goal, answer.status, answer.status == 4);
      CancelAnsweredShape(s1, goal, answer.returnCode);
      if goal in s1.actions.goals { AcceptGoalShape(s1, goal); }
    }
  }

  lemma AbandonGoalFrame(s: State, goal: Uuid)
    ensures var t := AbandonGoal(s, goal);
      t == s.(desk := t.desk, actions := t.actions, ros := t.ros) && Onward(s.ros, t.ros)
  {
    FinishGoalShape(s, goal, 6, false);
    if goal in s.actions.goals {
      FinishGoalShape(s.(ros := s.ros.Request(s.actions.goals[goal].five.cancel, AboutGoal(goal)).0), goal, 6, false);
    }
    hide FinishGoal;
  }
}

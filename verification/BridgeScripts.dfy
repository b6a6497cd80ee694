/** What clients are told: for everything that can happen, exactly the messages it causes (src/bridge). */
module BridgeScripts {
  import opened Basics
  import opened Backend
  import opened BridgeState
  import opened BridgeTopics
  import opened BridgeServices
  import opened BridgeActions
  import opened BridgeMoves
  import opened BridgeShapes
  import opened BridgeSuccess
  import opened BridgeRuns
  import Delivery
  import Frames = BridgeFrames
  import Leaving = BridgeLeaving
  import Lookup = BridgeLookups
  import Outcomes = BridgeOutcomes
  import Own = BridgeOwnership
  import Owners = BridgeOwners
  import Requests = BridgeRequests
  import Tracks = BridgeClientGoals

  /** These messages were handed to the outputs, in this order, and no others. */
  ghost predicate Says(a: Desk, b: Desk, messages: seq<Sent>) {
    var d := PostAll(a, messages);
    b.wire == d.wire && b.failed == d.failed && b.outputs == d.outputs
  }

  lemma SaysNothing(a: Desk, b: Desk)
    requires b.wire == a.wire && b.failed == a.failed && b.outputs == a.outputs
    ensures Says(a, b, [])
  {
  }

  lemma SaysOne(d: Desk, owner: Connection, body: Body)
    ensures Post(d, owner, body) == PostAll(d, [Sent(owner, body)])
    ensures Says(d, Post(d, owner, body), [Sent(owner, body)])
  {
    hide Post;
    assert [Sent(owner, body)][..0] == [];
    assert PostAll(d, []) == d;
  }

  /** The counter behind unique ids plays no part in what is sent. */
  lemma {:induction false} SaysAll(d: Desk, n: nat, messages: seq<Sent>)
    ensures Says(d, PostAll(d.(next := n), messages), messages)
    decreases |messages|
  {
    if messages != [] { SaysAll(d, n, messages[..|messages| - 1]); }
  }

  // ---------- scripts ----------

  /** A command that cannot be carried out is answered with one failure; of the others only a new subscriber hears. */
  ghost function ObeySays(s: State, owner: Connection, c: Command): seq<Sent> {
    if owner !in s.desk.outputs then []
    else if !CanObey(s, owner, c) then [Sent(owner, Failure(c.id))]
    else if c.operation.SubscribeTopic? then Outcomes.Sample(s.topics.subscriptions, owner, Name(c.name).value)
    else []
  }

  ghost function FeedbackSays(s: State, goal: Uuid, m: Delivery.Message): seq<Sent>
    requires goal in s.actions.goals
  {
    var g := s.actions.goals[goal];
    if g.feedback && m.goal == Some(goal) then [Sent(g.owner, GoalFeedback(goal, g.action, g.id))] else []
  }

  /** Feedback is for the goal it is about; a topic message is for its receivers; anything else is for nobody. */
  ghost predicate HearSays(s: State, e: Entity, m: Delivery.Message, order: seq<Connection>, said: seq<Sent>) {
    && (forall g :: FeedbackFor(s, e, g) ==> said == FeedbackSays(s, g, m))
    && (forall t :: Subscribed(s, e, t) ==> said == ToEach(order, Publish(t, m)))
    && ((forall g :: !FeedbackFor(s, e, g)) && (forall t :: !Subscribed(s, e, t)) ==> said == [])
  }

  function GoalReplyOf(goals: map<Uuid, ClientGoal>, goal: Uuid, status: int, success: bool): seq<Sent> {
    if goal !in goals then []
    else
      var g := goals[goal];
      [Sent(g.owner, GoalReply(goal, g.action, g.id, status, success))]
  }

  function CallReplyOf(calls: map<Ticket, Call>, ticket: Ticket, success: bool): seq<Sent> {
    if ticket !in calls then []
    else
      var c := calls[ticket];
      [Sent(c.owner, ServiceReply(ticket, c.service, c.id, success))]
  }

  /** An action answer ends its goal, or refuses to cancel it, or goes unmentioned. */
  function AnswerSays(goals: map<Uuid, ClientGoal>, call: ActionCall, answer: Answer): seq<Sent> {
    if call.part == Part.Send && !answer.accepted then GoalReplyOf(goals, call.goal, 6, false)
    else if call.part == Part.Result then GoalReplyOf(goals, call.goal, answer.status, answer.status == 4)
    else if call.part == Part.Cancel && answer.returnCode != Some(0) && call.goal in goals
    then [Sent(goals[call.goal].owner, CancelRejected(goals[call.goal].id))]
    else []
  }

  /** A service answer is its caller's successful reply. */
  function LearnSays(s: State, ticket: Ticket, answer: Answer): seq<Sent> {
    if ticket in s.rpc.calls then CallReplyOf(s.rpc.calls, ticket, true)
    else if ticket in s.actions.actionCalls then
      AnswerSays(s.actions.goals, s.actions.actionCalls[ticket], answer)
    else []
  }

  /** A goal not seen before whose submission is answered, and a cancel request that is answered, are announced. */
  function PartSays(s: State, action: string, part: Part, asked: Asked): seq<Sent>
    requires action in s.servers.actionServers && forall k :: k in asked.notices ==> k in s.servers.serverGoals
  {
    var owner := s.servers.actionServers[action].owner;
    if part == Part.Send && asked.uuid.Some? && (action, asked.uuid.value) !in s.servers.serverGoals
       && s.ros.AllSucceed(1)
    then [Sent(owner, GoalRequest(UniqueName(s.desk.next + 1), action))]
    else if part == Part.Cancel && asked.cancel.Some? && s.ros.AllSucceed(1)
    then CancelNotices(s.servers.serverGoals, owner, action, asked.notices)
    else []
  }

  function ServiceSays(s: State, name: string): seq<Sent>
    requires name in s.rpc.services
  {
    var service := s.rpc.services[name];
    [Sent(service.owner, ServiceRequest(RequestId(name, service.nextRequest + 1), name))]
  }

  ghost predicate ServeSays(s: State, e: Entity, asked: Asked, said: seq<Sent>) {
    && (forall k :: k in asked.notices ==> k in s.servers.serverGoals)
    && (forall a, p :: ServesPart(s, e, a, p) ==> said == PartSays(s, a, p, asked))
    && (forall n :: Serves(s, e, n) ==> said == ServiceSays(s, n))
    && (!Served(s, e) ==> said == [])
  }

  /** What a move has to say. */
  ghost predicate Script(s: State, m: Move, said: seq<Sent>) {
    match m
    case Obey(owner, command, now) => said == ObeySays(s, owner, command)
    case Hear(e, message, now, order) => HearSays(s, e, message, order, said)
    case Learn(ticket, answer) => said == LearnSays(s, ticket, answer)
    case Serve(e, request, asked, now) => ServeSays(s, e, asked, said)
    case GoalTimeout(goal) => said == GoalReplyOf(s.actions.goals, goal, 6, false)
    case LeaveGoal(goal) => said == GoalReplyOf(s.actions.goals, goal, 6, false)
    case CallTimeout(ticket) => said == CallReplyOf(s.rpc.calls, ticket, false)
    case Deliver(due, now) => DeliverSays(s, due, now, said)
    case _ => said == []
  }

  /** Every due client gets the oldest message of its queue. */
  ghost predicate DeliverSays(s: State, due: seq<(string, Connection)>, now: nat, said: seq<Sent>) {
    && |said| == |due|
    && forall i :: 0 <= i < |due| ==>
      && IsDue(s.topics.subscriptions, due[i], now)
      && var pending := s.topics.subscriptions[due[i].0].clients[due[i].1].pending;
      pending != [] && said[i] == Sent(due[i].1, Publish(due[i].0, pending[0]))
  }

  predicate DeskMove(m: Move) {
    m.Connect? || m.Depart? || m.TakeFailed?
  }

  // ---------- every move follows its script ----------

  lemma OperateSays(s: State, owner: Connection, name: string, op: Operation, now: nat)
    requires s.ros.Valid()
    ensures var (t, ok) := Operate(s, owner, name, op, now);
      && (ok && op.SubscribeTopic? ==> t.desk == PostAll(s.desk, Outcomes.Sample(s.topics.subscriptions, owner, name)))
      && (!(ok && op.SubscribeTopic?) ==> t.desk == s.desk)
  {
    hide Advertise, Unadvertise, PublishTo, Subscribe, Unsubscribe, CallService, SendGoal, CancelGoal, AdvertiseService,
      RemoveService, ServiceResponse, AdvertiseAction, RemoveAction, ActionFeedback, ActionResult, Outcomes.Sample;
    match op
    case AdvertiseTopic(id, setup) => AdvertiseShape(s, owner, name, id, setup);
    case UnadvertiseTopic(id) => UnadvertiseShape(s, owner, name, id);
    case PublishMessage(id, setup) => PublishSaysNothing(s, owner, name, id, setup);
    case SubscribeTopic(id, options, setup) => Outcomes.SubscribeRegisters(s, owner, name, id, options, setup, now);
    case UnsubscribeTopic(id) => UnsubscribeShape(s, owner, name, id);
    case CallRemote(id, declared, known, permitted, timeout) =>
      CallServiceShape(s, owner, id, name, declared, known, permitted, timeout, now);
    case OfferService(typ, permitted) => Frames.ServiceFrame(s, owner, name, typ);
    case WithdrawService => Frames.ServiceFrame(s, owner, name, "");
    case AnswerService(request, success) => Frames.AnswerFrame(s, owner, request, name, success);
    case StartGoal(id, feedback, uuid) => SendGoalShape(s, owner, name, id, feedback, uuid, now);
    case StopGoal(goal) => CancelGoalShape(s, ActiveGoal(s, owner, name, goal));
    case OfferAction(typ, keys) => Frames.AdvertiseActionFrame(s, owner, name, typ, keys);
    case WithdrawAction(keys) => Frames.RemoveActionFrame(s, owner, name, keys);
    case GiveFeedback(goal) =>
      var key := ServedGoal(s, owner, name, goal);
      if key.Some? { Frames.FeedbackFrame(s, key.value); }
    case GiveResult(goal, status, values) =>
      var key := ServedGoal(s, owner, name, goal);
      if key.Some? { Frames.ActionResultFrame(s, key.value, status, values, now); }
  }

  lemma PublishSaysNothing(s: State, owner: Connection, topic: string, id: Id, setup: Setup)
    ensures PublishTo(s, owner, topic, id, setup).0.desk == s.desk
  {
    AdvertiseShape(s, owner, topic, id, setup);
    hide Advertise;
  }

  lemma ObeyFollows(s: State, owner: Connection, c: Command, now: nat)
    requires Invariant(s) && Fits(s, Obey(owner, c, now))
    ensures Says(s.desk, OnCommand(s, owner, c, now).desk, ObeySays(s, owner, c))
  {
    ObeysIff(s, owner, c, now);
    assert s.ros.Valid() by { InvariantParts(s); }
    hide Invariant, CanObey, Operate, Post, PostAll, Fits;
    SaysNothing(s.desk, s.desk);
    SaysOne(s.desk, owner, Failure(c.id));
    if c.Command? && Name(c.name).Some? { OperateSays(s, owner, Name(c.name).value, c.operation, now); }
  }

  lemma HearFollows(s: State, e: Entity, m: Delivery.Message, now: nat, order: seq<Connection>)
    returns (said: seq<Sent>)
    requires Invariant(s)
    ensures HearSays(s, e, m, order, said) && Says(s.desk, OnMessage(s, e, m, now, order).desk, said)
  {
    Lookup.OneTopicOnly(s, e);
    said := [];
    if g :| FeedbackFor(s, e, g) {
      Lookup.FeedbackGoalIs(s, e, m, now, order, g);
      said := FeedbackSays(s, g, m);
      FeedbackFollows(s, g, m);
      hide OnMessage, FeedbackSays, Says, GoalMessage, Invariant, ToEach;
      OneGoalOnly(s, e, g);
    } else if t :| Subscribed(s, e, t) {
      Lookup.SubscribedTopicIs(s, e, m, now, order, t);
      said := ToEach(order, Publish(t, m));
      SaysAll(s.desk, s.desk.next, said);
    } else {
      SaysNothing(s.desk, s.desk);
    }
  }

  lemma OneGoalOnly(s: State, e: Entity, g: Uuid)
    requires Invariant(s) && FeedbackFor(s, e, g)
    ensures forall h :: FeedbackFor(s, e, h) ==> h == g
  {
    assert Own.Owned(s);
    hide Invariant, Ros.Valid;
    forall h | FeedbackFor(s, e, h) ensures h == g {
      assert Own.Holder(Own.RecordsOf(s), Own.OfGoal(g, Feedback)) == Own.Holder(Own.RecordsOf(s),
        Own.OfGoal(h, Feedback));
    }
  }

  lemma FeedbackFollows(s: State, goal: Uuid, m: Delivery.Message)
    requires goal in s.actions.goals
    ensures Says(s.desk, GoalMessage(s, goal, m).desk, FeedbackSays(s, goal, m))
  {
    var g := s.actions.goals[goal];
    hide Post;
    SaysNothing(s.desk, s.desk);
    SaysOne(s.desk, g.owner, GoalFeedback(goal, g.action, g.id));
  }

  lemma FinishFollows(s: State, goal: Uuid, status: int, success: bool)
    ensures Says(s.desk, FinishGoal(s, goal, status, success).desk, GoalReplyOf(s.actions.goals, goal, status, success))
  {
    FinishGoalShape(s, goal, status, success);
    hide FinishGoal, Post;
    SaysNothing(s.desk, s.desk);
    if goal in s.actions.goals {
      var g := s.actions.goals[goal];
      SaysOne(s.desk, g.owner, GoalReply(goal, g.action, g.id, status, success));
    }
  }

  lemma FinishCallFollows(s: State, ticket: Ticket, success: bool)
    requires ticket in s.rpc.calls
    ensures Says(s.desk, FinishCall(s, ticket, success).desk, CallReplyOf(s.rpc.calls, ticket, success))
  {
    hide Post;
    var c := s.rpc.calls[ticket];
    SaysOne(s.desk, c.owner, ServiceReply(ticket, c.service, c.id, success));
  }

  lemma LearnFollows(s: State, ticket: Ticket, answer: Answer)
    ensures Says(s.desk, OnResponse(s, ticket, answer).desk, LearnSays(s, ticket, answer))
  {
    hide FinishGoal, FinishCall, Post, CallReplyOf, GoalReplyOf, Says;
    SaysNothing(s.desk, s.desk);
    if ticket in s.rpc.calls {
      FinishCallFollows(s, ticket, true);
    } else if ticket in s.actions.actionCalls {
      var goal := s.actions.actionCalls[ticket].goal;
      var s1 := s.(actions := s.actions.(actionCalls := s.actions.actionCalls - {ticket}));
      FinishFollows(s1, goal, 6, false);
      FinishFollows(s1, goal, answer.status, answer.status == 4);
      if goal in s.actions.goals {
        SaysOne(s.desk, s.actions.goals[goal].owner, CancelRejected(s.actions.goals[goal].id));
      }
    }
  }

  /** A request not handled yet on a live entity gets its response exactly if the next call succeeds. */
  lemma UnhandledIsAnswered(s: State, e: Entity, request: nat)
    requires Invariant(s) && (e, request) in s.unhandled && e in s.ros.live
    ensures forall c :: s.ros.Respond(e, request, c).1 <==> s.ros.AllSucceed(1)
  {
    InvariantParts(s);
    hide Invariant, Own.Owned;
    assert s.ros.AllSucceed(1) <==> s.ros.fate(s.ros.calls);
    assert (e, request) in s.ros.requests by {
      hide Requests.Conserved, Requests.Filed;
    }
  }

  lemma PartFollows(s: State, e: Entity, a: string, p: Part, request: nat, asked: Asked)
    requires ServesPart(s, e, a, p) && forall k :: k in asked.notices ==> k in s.servers.serverGoals
    requires forall c :: s.ros.Respond(e, request, c).1 <==> s.ros.AllSucceed(1)
    ensures Says(s.desk, RequestOnAction(Handling(s, (e, request)), a, p, request, asked).0.desk,
                 PartSays(s, a, p, asked))
  {
    hide Post, PostAll, Says, Cancelled, Marked, UniqueName, CancelNotices, Ros.Respond, Ros.AllSucceed;
    SaysNothing(s.desk, s.desk);
    var server := s.servers.actionServers[a];
    var n := s.desk.next + 1;
    SaysOne(s.desk.(next := n), server.owner, GoalRequest(UniqueName(n), a));
    SaysAll(s.desk, n, [Sent(server.owner, GoalRequest(UniqueName(n), a))]);
    SaysNothing(s.desk, s.desk.(next := n));
    SaysAll(s.desk, s.desk.next, CancelNotices(s.servers.serverGoals, server.owner, a, asked.notices));
  }

  lemma ServeFollows(s: State, e: Entity, request: nat, asked: Asked, now: nat) returns (said: seq<Sent>)
    requires Invariant(s) && Fits(s, Serve(e, request, asked, now))
    ensures ServeSays(s, e, asked, said) && Says(s.desk, OnRequest(s, e, request, asked, now).desk, said)
  {
    said := [];
    if a, p :| ServesPart(s, e, a, p) {
      said := PartSays(s, a, p, asked);
      PartServed(s, e, request, asked, now, a, p);
    } else if n :| Serves(s, e, n) {
      said := ServiceSays(s, n);
      ServiceServed(s, e, request, asked, now, n);
    } else {
      SaysNothing(s.desk, s.desk);
    }
  }

  lemma PartServed(s: State, e: Entity, request: nat, asked: Asked, now: nat, a: string, p: Part)
    requires Invariant(s) && Fits(s, Serve(e, request, asked, now)) && ServesPart(s, e, a, p)
    ensures ServeSays(s, e, asked, PartSays(s, a, p, asked))
    ensures Says(s.desk, OnRequest(s, e, request, asked, now).desk, PartSays(s, a, p, asked))
  {
    hide Invariant, PartSays, OnRequest, RequestOnAction, Says, Lists, Cancelled;
    InvariantParts(s);
    Own.ServedEntityLives(s, Own.OfServer(a, p), e);
    UnhandledIsAnswered(s, e, request);
    PartFollows(s, e, a, p, request, asked);
    Lookup.ServedPartIs(s, e, request, asked, now, a, p);
    Lookup.OnePartOnly(s, e, a, p);
    NoServiceToo(s, e, a, p);
  }

  lemma NoServiceToo(s: State, e: Entity, a: string, p: Part)
    requires Invariant(s) && ServesPart(s, e, a, p)
    ensures forall n :: !Serves(s, e, n)
  {
    assert Own.Owned(s);
    hide Invariant, Ros.Valid;
    forall n ensures !Serves(s, e, n) {
      assert Own.Holder(Own.RecordsOf(s), Own.OfServer(a, p)) == Some(e);
      assert Serves(s, e, n) ==> Own.Holder(Own.RecordsOf(s), Own.OfService(n)) == Some(e);
    }
  }

  lemma ServiceServed(s: State, e: Entity, request: nat, asked: Asked, now: nat, n: string)
    requires Invariant(s) && Fits(s, Serve(e, request, asked, now))
    requires Serves(s, e, n) && forall a, p :: !ServesPart(s, e, a, p)
    ensures ServeSays(s, e, asked, ServiceSays(s, n))
    ensures Says(s.desk, OnRequest(s, e, request, asked, now).desk, ServiceSays(s, n))
  {
    Lookup.ServedServiceIs(s, e, request, asked, now, n);
    OneServiceOnly(s, e, n);
    hide Invariant, OnRequest, Post, RequestId, Lists, Cancelled, PartSays;
    var service := s.rpc.services[n];
    SaysOne(s.desk, service.owner, ServiceRequest(RequestId(n, service.nextRequest + 1), n));
  }

  lemma OneServiceOnly(s: State, e: Entity, n: string)
    requires Invariant(s) && Serves(s, e, n)
    ensures forall k :: Serves(s, e, k) ==> k == n
  {
    assert Own.Owned(s);
    hide Invariant, Ros.Valid;
    forall k | Serves(s, e, k) ensures k == n {
      assert Own.Holder(Own.RecordsOf(s), Own.OfService(n)) == Own.Holder(Own.RecordsOf(s), Own.OfService(k));
    }
  }

  lemma DeliverFollows(s: State, due: seq<(string, Connection)>, now: nat) returns (said: seq<Sent>)
    requires DeliverFits(s.topics.subscriptions, due, now)
    ensures DeliverSays(s, due, now, said) && Says(s.desk, DeliverDue(s, due, now).desk, said)
  {
    said := DueMessages(s.topics.subscriptions, due, now);
    SaysAll(s.desk, s.desk.next, said);
    forall i | 0 <= i < |due| ensures IsDue(s.topics.subscriptions, due[i], now)
      && var pending := s.topics.subscriptions[due[i].0].clients[due[i].1].pending;
      pending != [] && said[i] == Sent(due[i].1, Publish(due[i].0, pending[0])) {
      assert IsDue(s.topics.subscriptions, due[i], now);
    }
  }

  /**
   Whatever happens, clients are told what the script says, in its order, and nothing else;
   connecting, departing and the clearing of failed clients say nothing.
   */
  lemma MoveFollows(s: State, m: Move) returns (said: seq<Sent>)
    requires Invariant(s) && Fits(s, m) && !DeskMove(m)
    ensures Script(s, m, said) && Says(s.desk, Do(s, m).desk, said)
  {
    hide Invariant, Says, ObeySays, HearSays, ServeSays, DeliverSays, OnCommand, OnMessage, OnRequest, DeliverDue,
      HearFits, DeliverFits, NoticesFit;
    match m
    case Obey(owner, command, now) =>
      said := ObeySays(s, owner, command);
      ObeyFollows(s, owner, command, now);
    case Hear(e, message, now, order) => said := HearFollows(s, e, message, now, order);
    case Serve(e, request, asked, now) => said := ServeFollows(s, e, request, asked, now);
    case Deliver(due, now) => said := DeliverFollows(s, due, now);
    case _ => said := EndingFollows(s, m);
  }

  lemma EndingFollows(s: State, m: Move) returns (said: seq<Sent>)
    requires Fits(s, m) && !DeskMove(m) && !m.Obey? && !m.Hear? && !m.Serve? && !m.Deliver?
    ensures Script(s, m, said) && Says(s.desk, Do(s, m).desk, said)
  {
    hide Says, OnResponse, FinishGoal, FinishCall, LearnSays, GoalReplyOf, CallReplyOf, CanTake;
    said := [];
    match m
    case Learn(ticket, answer) =>
      LearnFollows(s, ticket, answer);
      said := LearnSays(s, ticket, answer);
    case GoalTimeout(goal) =>
      FinishFollows(s, goal, 6, false);
      said := GoalReplyOf(s.actions.goals, goal, 6, false);
    case LeaveGoal(goal) =>
      AbandonFollows(s, goal);
      said := GoalReplyOf(s.actions.goals, goal, 6, false);
    case CallTimeout(ticket) =>
      ExpireFollows(s, ticket);
      said := CallReplyOf(s.rpc.calls, ticket, false);
    case _ => OthersSayNothing(s, m);
  }

  lemma AbandonFollows(s: State, goal: Uuid)
    ensures Says(s.desk, AbandonGoal(s, goal).desk, GoalReplyOf(s.actions.goals, goal, 6, false))
  {
    hide FinishGoal, Says;
    SaysNothing(s.desk, s.desk);
    FinishFollows(s, goal, 6, false);
    if goal in s.actions.goals {
      FinishFollows(s.(ros := s.ros.Request(s.actions.goals[goal].five.cancel, AboutGoal(goal)).0), goal, 6, false);
    }
  }

  lemma ExpireFollows(s: State, ticket: Ticket)
    ensures Says(s.desk, ExpireCall(s, ticket).desk, CallReplyOf(s.rpc.calls, ticket, false))
  {
    hide FinishCall, Says;
    SaysNothing(s.desk, s.desk);
    if ticket in s.rpc.calls { FinishCallFollows(s, ticket, false); }
  }

  predicate Silent(m: Move) {
    m.Poll? || m.RequestTimeout? || m.ForgetResults? || m.LeaveTopic? || m.LeaveSubscription? || m.LeaveService?
    || m.LeaveAction? || m.LeaveCall? || m.LeaveExternal?
  }

  lemma OthersSayNothing(s: State, m: Move)
    requires Silent(m)
    ensures Says(s.desk, Do(s, m).desk, [])
  {
    hide Says, Unadvertise, Unsubscribe, RemoveAction, CanTake, Lists;
    SaysNothing(s.desk, s.desk);
    match m
    case LeaveTopic(owner, topic) => UnadvertiseShape(s, owner, topic, None);
    case LeaveSubscription(owner, topic) => UnsubscribeShape(s, owner, topic, None);
    case LeaveAction(owner, name, keys) => Frames.RemoveActionFrame(s, owner, name, keys);
    case _ =>
  }
}

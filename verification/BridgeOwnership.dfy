/** Every live ROS entity is held by exactly one record (src/bridge). */
module BridgeOwnership {
  import opened Basics
  import opened Backend
  import opened BridgeState
  import opened BridgeTopics
  import opened BridgeServices
  import opened BridgeActions
  import opened BridgeMoves
  import opened BridgeShapes
  import opened BridgeFrames
  import Delivery

  /** The places in which the bridge keeps an entity. */
  datatype Slot =
    | OfTopic(topic: string)
    | OfSubscription(topic: string)
    | OfService(name: string)
    | OfCall(ticket: Ticket)
    | OfGoal(goal: Uuid, part: Part)
    | OfServer(action: string, part: Part)

  /** The records that hold entities. */
  datatype Records = Records(
    publishers: map<string, Publisher>,
    subscriptions: map<string, Subscription>,
    services: map<string, Service>,
    calls: map<Ticket, Call>,
    goals: map<Uuid, ClientGoal>,
    servers: map<string, ActionServer>)

  ghost function RecordsOf(s: State): Records {
    Records(s.topics.publishers, s.topics.subscriptions, s.rpc.services, s.rpc.calls, s.actions.goals,
            s.servers.actionServers)
  }

  ghost function Holder(r: Records, slot: Slot): Option<Entity> {
    match slot
    case OfTopic(t) => if t in r.publishers then Some(r.publishers[t].entity) else None
    case OfSubscription(t) => if t in r.subscriptions then Some(r.subscriptions[t].entity) else None
    case OfService(n) => if n in r.services then Some(r.services[n].entity) else None
    case OfCall(k) => if k in r.calls then Some(k.0) else None
    case OfGoal(g, p) => if g in r.goals then Some(r.goals[g].five.At(p)) else None
    case OfServer(a, p) => if a in r.servers then Some(r.servers[a].five.At(p)) else None
  }

  ghost predicate HeldBySomeone(r: Records, e: Entity) {
    exists a :: Holder(r, a) == Some(e)
  }

  /** The live entities are the disjoint union of those in the slots: none leaks, none is held twice. */
  ghost predicate Partition(r: Records, live: set<Entity>) {
    && (forall a :: Holder(r, a).Some? ==> Holder(r, a).value in live)
    && (forall a, b :: Holder(r, a).Some? && Holder(r, a) == Holder(r, b) ==> a == b)
    && (forall e :: e in live ==> HeldBySomeone(r, e))
  }

  ghost predicate Owned(s: State) {
    Partition(RecordsOf(s), s.ros.live) && s.ros.Valid()
  }

  // ---------- changing slots ----------

  lemma SameSlots(r: Records, r': Records, live: set<Entity>)
    requires Partition(r, live) && forall a :: Holder(r', a) == Holder(r, a)
    ensures Partition(r', live)
  {
    forall e | e in live ensures HeldBySomeone(r', e) {
      var a :| Holder(r, a) == Some(e);
      assert Holder(r', a) == Some(e);
    }
  }

  /** Slots that were empty take distinct entities that were not live. */
  lemma MoreSlots(r: Records, r': Records, live: set<Entity>, added: map<Slot, Entity>)
    requires Partition(r, live)
    requires forall a :: Holder(r', a) == if a in added then Some(added[a]) else Holder(r, a)
    requires forall a :: a in added ==> Holder(r, a).None? && added[a] !in live
    requires forall a, b :: a in added && b in added && added[a] == added[b] ==> a == b
    ensures Partition(r', live + added.Values)
  {
    forall e | e in live + added.Values ensures HeldBySomeone(r', e) {
      if e in live {
        var a :| Holder(r, a) == Some(e);
        assert Holder(r', a) == Some(e);
      } else {
        var a :| a in added && added[a] == e;
        assert Holder(r', a) == Some(e);
      }
    }
  }

  /** Slots are emptied and exactly their entities die. */
  lemma FewerSlots(r: Records, r': Records, live: set<Entity>, gone: set<Slot>, dead: set<Entity>)
    requires Partition(r, live)
    requires forall a :: Holder(r', a) == if a in gone then None else Holder(r, a)
    requires forall a :: a in gone ==> Holder(r, a).Some? && Holder(r, a).value in dead
    requires forall e :: e in dead ==> exists a :: a in gone && Holder(r, a) == Some(e)
    ensures Partition(r', live - dead)
  {
    forall e | e in live - dead ensures HeldBySomeone(r', e) {
      var a :| Holder(r, a) == Some(e);
      assert Holder(r', a) == Some(e);
    }
  }

  lemma OneMoreSlot(r: Records, r': Records, live: set<Entity>, slot: Slot, e: Entity)
    requires Partition(r, live) && Holder(r, slot).None? && e !in live
    requires forall a :: Holder(r', a) == if a == slot then Some(e) else Holder(r, a)
    ensures Partition(r', live + {e})
  {
    var added := map[slot := e];
    assert slot in added && added.Values == {e};
    MoreSlots(r, r', live, added);
  }

  lemma OneSlotFewer(r: Records, r': Records, live: set<Entity>, slot: Slot, e: Entity)
    requires Partition(r, live) && Holder(r, slot) == Some(e)
    requires forall a :: Holder(r', a) == if a == slot then None else Holder(r, a)
    ensures Partition(r', live - {e})
  {
    FewerSlots(r, r', live, {slot}, {e});
  }

  // ---------- one record at a time ----------

  lemma PublisherAdded(r: Records, live: set<Entity>, topic: string, p: Publisher)
    requires Partition(r, live) && topic !in r.publishers && p.entity !in live
    ensures Partition(r.(publishers := r.publishers[topic := p]), live + {p.entity})
  {
    hide Partition;
    OneMoreSlot(r, r.(publishers := r.publishers[topic := p]), live, OfTopic(topic), p.entity);
  }

  lemma PublisherRemoved(r: Records, live: set<Entity>, topic: string)
    requires Partition(r, live) && topic in r.publishers
    ensures Partition(r.(publishers := r.publishers - {topic}), live - {r.publishers[topic].entity})
  {
    hide Partition;
    OneSlotFewer(r, r.(publishers := r.publishers - {topic}), live, OfTopic(topic), r.publishers[topic].entity);
  }

  lemma PublisherKept(r: Records, live: set<Entity>, topic: string, p: Publisher)
    requires Partition(r, live) && topic in r.publishers && p.entity == r.publishers[topic].entity
    ensures Partition(r.(publishers := r.publishers[topic := p]), live)
  {
    hide Partition;
    SameSlots(r, r.(publishers := r.publishers[topic := p]), live);
  }

  lemma SubscriptionAdded(r: Records, live: set<Entity>, topic: string, p: Subscription)
    requires Partition(r, live) && topic !in r.subscriptions && p.entity !in live
    ensures Partition(r.(subscriptions := r.subscriptions[topic := p]), live + {p.entity})
  {
    hide Partition;
    OneMoreSlot(r, r.(subscriptions := r.subscriptions[topic := p]), live, OfSubscription(topic), p.entity);
  }

  lemma SubscriptionRemoved(r: Records, live: set<Entity>, topic: string)
    requires Partition(r, live) && topic in r.subscriptions
    ensures Partition(r.(subscriptions := r.subscriptions - {topic}), live - {r.subscriptions[topic].entity})
  {
    hide Partition;
    OneSlotFewer(r, r.(subscriptions := r.subscriptions - {topic}), live, OfSubscription(topic),
                 r.subscriptions[topic].entity);
  }

  lemma SubscriptionsKept(r: Records, live: set<Entity>, subs: map<string, Subscription>)
    requires Partition(r, live) && subs.Keys == r.subscriptions.Keys
    requires forall t :: t in subs ==> subs[t].entity == r.subscriptions[t].entity
    ensures Partition(r.(subscriptions := subs), live)
  {
    hide Partition;
    SameSlots(r, r.(subscriptions := subs), live);
  }

  lemma ServiceAdded(r: Records, live: set<Entity>, name: string, p: Service)
    requires Partition(r, live) && name !in r.services && p.entity !in live
    ensures Partition(r.(services := r.services[name := p]), live + {p.entity})
  {
    hide Partition;
    OneMoreSlot(r, r.(services := r.services[name := p]), live, OfService(name), p.entity);
  }

  lemma ServiceRemoved(r: Records, live: set<Entity>, name: string)
    requires Partition(r, live) && name in r.services
    ensures Partition(r.(services := r.services - {name}), live - {r.services[name].entity})
  {
    hide Partition;
    OneSlotFewer(r, r.(services := r.services - {name}), live, OfService(name), r.services[name].entity);
  }

  lemma ServiceKept(r: Records, live: set<Entity>, name: string, p: Service)
    requires Partition(r, live) && name in r.services && p.entity == r.services[name].entity
    ensures Partition(r.(services := r.services[name := p]), live)
  {
    hide Partition;
    SameSlots(r, r.(services := r.services[name := p]), live);
  }

  lemma CallAdded(r: Records, live: set<Entity>, ticket: Ticket, c: Call)
    requires Partition(r, live) && ticket.0 !in live
    ensures Partition(r.(calls := r.calls[ticket := c]), live + {ticket.0})
  {
    assert Holder(r, OfCall(ticket)).None?;
    OneMoreSlot(r, r.(calls := r.calls[ticket := c]), live, OfCall(ticket), ticket.0);
  }

  lemma CallRemoved(r: Records, live: set<Entity>, ticket: Ticket)
    requires Partition(r, live) && ticket in r.calls
    ensures Partition(r.(calls := r.calls - {ticket}), live - {ticket.0})
  {
    hide Partition;
    OneSlotFewer(r, r.(calls := r.calls - {ticket}), live, OfCall(ticket), ticket.0);
  }

  lemma PartsDiffer(f: Five)
    requires Distinct(f)
    ensures forall p, q :: f.At(p) == f.At(q) ==> p == q
  {
  }

  function GoalSlots(goal: Uuid, f: Five): map<Slot, Entity> {
    map[OfGoal(goal, Send) := f.send, OfGoal(goal, Result) := f.result, OfGoal(goal, Cancel) := f.cancel,
        OfGoal(goal, Feedback) := f.feedback, OfGoal(goal, Status) := f.status]
  }

  function ServerSlots(action: string, f: Five): map<Slot, Entity> {
    map[OfServer(action, Send) := f.send, OfServer(action, Result) := f.result, OfServer(action, Cancel) := f.cancel,
        OfServer(action, Feedback) := f.feedback, OfServer(action, Status) := f.status]
  }

  lemma GoalSlotsAre(goal: Uuid, f: Five)
    ensures forall a :: a in GoalSlots(goal, f) <==> a.OfGoal? && a.goal == goal
    ensures forall p :: OfGoal(goal, p) in GoalSlots(goal, f) && GoalSlots(goal, f)[OfGoal(goal, p)] == f.At(p)
    ensures GoalSlots(goal, f).Values == f.All()
  {
    var slots := GoalSlots(goal, f);
    forall p: Part ensures OfGoal(goal, p) in slots && slots[OfGoal(goal, p)] == f.At(p) {
      match p { case Send => case Result => case Cancel => case Feedback => case Status => }
    }
    forall e | e in f.All() ensures e in slots.Values {
      var p := if e == f.send then Send else if e == f.result then Result else if e == f.cancel then Cancel
               else if e == f.feedback then Feedback else Status;
      assert OfGoal(goal, p) in slots && slots[OfGoal(goal, p)] == e;
    }
  }

  /** Slots are emptied and what they held dies. */
  lemma GoneSlots(r: Records, r': Records, live: set<Entity>, gone: map<Slot, Entity>)
    requires Partition(r, live)
    requires forall a :: Holder(r', a) == if a in gone then None else Holder(r, a)
    requires forall a :: a in gone ==> Holder(r, a) == Some(gone[a])
    ensures Partition(r', live - gone.Values)
  {
    hide Partition, Holder;
    forall a | a in gone.Keys ensures Holder(r, a).Some? && Holder(r, a).value in gone.Values {
      assert gone[a] in gone.Values;
    }
    forall e | e in gone.Values ensures exists a :: a in gone.Keys && Holder(r, a) == Some(e) {
      var a :| a in gone && gone[a] == e;
      assert a in gone.Keys;
    }
    FewerSlots(r, r', live, gone.Keys, gone.Values);
  }

  lemma GoalAdded(r: Records, live: set<Entity>, goal: Uuid, g: ClientGoal)
    requires Partition(r, live) && goal !in r.goals && Distinct(g.five) && g.five.All() !! live
    ensures Partition(r.(goals := r.goals[goal := g]), live + g.five.All())
  {
    hide Partition, GoalSlots, Distinct, Five.All, Five.At;
    var added := GoalSlots(goal, g.five);
    var more := r.(goals := r.goals[goal := g]);
    GoalSlotsAre(goal, g.five);
    PartsDiffer(g.five);
    forall a | a in added ensures a == OfGoal(goal, a.part) && added[a] == g.five.At(a.part) && added[a] in g.five.All() {
      assert added[OfGoal(goal, a.part)] in added.Values;
    }
    forall a ensures Holder(more, a) == if a in added then Some(added[a]) else Holder(r, a) {
      assert a in added <==> a.OfGoal? && a.goal == goal;
    }
    MoreSlots(r, more, live, added);
  }

  lemma GoalRemoved(r: Records, live: set<Entity>, goal: Uuid)
    requires Partition(r, live) && goal in r.goals
    ensures Partition(r.(goals := r.goals - {goal}), live - r.goals[goal].five.All())
  {
    hide Partition, GoalSlots, Five.All, Five.At;
    var five := r.goals[goal].five;
    var gone := GoalSlots(goal, five);
    GoalSlotsAre(goal, five);
    GoneSlots(r, r.(goals := r.goals - {goal}), live, gone);
  }

  lemma GoalKept(r: Records, live: set<Entity>, goal: Uuid, g: ClientGoal)
    requires Partition(r, live) && goal in r.goals && g.five == r.goals[goal].five
    ensures Partition(r.(goals := r.goals[goal := g]), live)
  {
    hide Partition;
    SameSlots(r, r.(goals := r.goals[goal := g]), live);
  }

  lemma ServerSlotsAre(action: string, f: Five)
    ensures forall a :: a in ServerSlots(action, f) <==> a.OfServer? && a.action == action
    ensures forall p ::
      OfServer(action, p) in ServerSlots(action, f) && ServerSlots(action, f)[OfServer(action, p)] == f.At(p)
    ensures ServerSlots(action, f).Values == f.All()
  {
    var slots := ServerSlots(action, f);
    forall p: Part ensures OfServer(action, p) in slots && slots[OfServer(action, p)] == f.At(p) {
      match p { case Send => case Result => case Cancel => case Feedback => case Status => }
    }
    forall e | e in f.All() ensures e in slots.Values {
      var p := if e == f.send then Send else if e == f.result then Result else if e == f.cancel then Cancel
               else if e == f.feedback then Feedback else Status;
      assert OfServer(action, p) in slots && slots[OfServer(action, p)] == e;
    }
  }

  lemma ServerAdded(r: Records, live: set<Entity>, action: string, a: ActionServer)
    requires Partition(r, live) && action !in r.servers && Distinct(a.five) && a.five.All() !! live
    ensures Partition(r.(servers := r.servers[action := a]), live + a.five.All())
  {
    hide Partition, ServerSlots, Distinct, Five.All, Five.At;
    var added := ServerSlots(action, a.five);
    var more := r.(servers := r.servers[action := a]);
    ServerSlotsAre(action, a.five);
    PartsDiffer(a.five);
    forall x | x in added
      ensures x == OfServer(action, x.part) && added[x] == a.five.At(x.part) && added[x] in a.five.All()
    {
      assert added[OfServer(action, x.part)] in added.Values;
    }
    forall x ensures Holder(more, x) == if x in added then Some(added[x]) else Holder(r, x) {
      assert x in added <==> x.OfServer? && x.action == action;
    }
    MoreSlots(r, more, live, added);
  }

  lemma ServerRemoved(r: Records, live: set<Entity>, action: string)
    requires Partition(r, live) && action in r.servers
    ensures Partition(r.(servers := r.servers - {action}), live - r.servers[action].five.All())
  {
    hide Partition, ServerSlots, Five.All, Five.At;
    var five := r.servers[action].five;
    var gone := ServerSlots(action, five);
    ServerSlotsAre(action, five);
    GoneSlots(r, r.(servers := r.servers - {action}), live, gone);
  }

  // ---------- topics ----------

  lemma AdvertiseOwned(s: State, owner: Connection, topic: string, id: Id, setup: Setup)
    requires Owned(s)
    ensures Owned(Advertise(s, owner, topic, id, setup).0)
  {
    AdvertiseShape(s, owner, topic, id, setup);
    hide Partition, Advertise;
    var t := Advertise(s, owner, topic, id, setup).0;
    if topic in s.topics.publishers {
      PublisherKept(RecordsOf(s), s.ros.live, topic, t.topics.publishers[topic]);
    } else if topic in t.topics.publishers {
      PublisherAdded(RecordsOf(s), s.ros.live, topic, t.topics.publishers[topic]);
    }
  }

  lemma UnadvertiseOwned(s: State, owner: Connection, topic: string, id: Id)
    requires Owned(s)
    ensures Owned(Unadvertise(s, owner, topic, id).0)
  {
    UnadvertiseShape(s, owner, topic, id);
    hide Partition, Unadvertise;
    var t := Unadvertise(s, owner, topic, id).0;
    if topic in s.topics.publishers {
      if topic !in t.topics.publishers {
        PublisherRemoved(RecordsOf(s), s.ros.live, topic);
      } else {
        PublisherKept(RecordsOf(s), s.ros.live, topic, t.topics.publishers[topic]);
      }
    }
  }

  lemma SubscribeOwned(s: State, owner: Connection, topic: string, id: Id, options: Delivery.Options, setup: Setup,
                       now: nat)
    requires Owned(s)
    ensures Owned(Subscribe(s, owner, topic, id, options, setup, now).0)
  {
    OpenTopicShape(s, topic, setup);
    var (s1, ok) := OpenTopic(s, topic, setup);
    if ok && topic in s1.topics.subscriptions {
      JoinTopicShape(s1, owner, topic, id, options, now);
    }
    hide Partition, OpenTopic, JoinTopic;
    if topic in s1.topics.subscriptions && topic !in s.topics.subscriptions {
      SubscriptionAdded(RecordsOf(s), s.ros.live, topic, s1.topics.subscriptions[topic]);
    }
    assert Owned(s1);
    if ok && topic in s1.topics.subscriptions {
      SubscriptionsKept(RecordsOf(s1), s1.ros.live,
                        JoinTopic(s1, owner, topic, id, options, now).topics.subscriptions);
    }
  }

  lemma UnsubscribeOwned(s: State, owner: Connection, topic: string, id: Id)
    requires Owned(s)
    ensures Owned(Unsubscribe(s, owner, topic, id).0)
  {
    UnsubscribeShape(s, owner, topic, id);
    hide Partition, Unsubscribe;
    var t := Unsubscribe(s, owner, topic, id).0;
    if topic in s.topics.subscriptions {
      if topic !in t.topics.subscriptions {
        SubscriptionRemoved(RecordsOf(s), s.ros.live, topic);
      } else {
        SubscriptionsKept(RecordsOf(s), s.ros.live, t.topics.subscriptions);
      }
    }
  }

  /** The same entities under the same topics: what hearing and delivering messages leaves. */
  lemma SameClientsOwned(s: State, t: State)
    requires Owned(s) && SameClients(s.topics.subscriptions, t.topics.subscriptions)
    requires t == s.(topics := s.topics.(subscriptions := t.topics.subscriptions), desk := t.desk)
    ensures Owned(t)
  {
    hide Partition;
    SubscriptionsKept(RecordsOf(s), s.ros.live, t.topics.subscriptions);
  }

  lemma HearOwned(s: State, e: Entity, m: Delivery.Message, now: nat, order: seq<Connection>)
    requires Owned(s)
    ensures Owned(OnMessage(s, e, m, now, order))
  {
    hide Partition, TopicMessage;
    if exists g :: FeedbackFor(s, e, g) {
    } else if exists t :: Subscribed(s, e, t) {
      var topic :| Subscribed(s, e, topic) && OnMessage(s, e, m, now, order) == TopicMessage(s, topic, m, now, order);
      TopicMessageShape(s, topic, m, now, order);
      SameClientsOwned(s, TopicMessage(s, topic, m, now, order));
    }
  }

  lemma DeliverOwned(s: State, due: seq<(string, Connection)>, now: nat)
    requires Owned(s) && forall i :: 0 <= i < |due| ==> IsDue(s.topics.subscriptions, due[i], now)
    ensures Owned(DeliverDue(s, due, now))
  {
    DeliverShape(s, due, now);
    SameClientsOwned(s, DeliverDue(s, due, now));
  }

  // ---------- services ----------

  lemma CallServiceOwned(s: State, owner: Connection, id: Id, service: string, declared: Declared,
                         known: Option<seq<string>>, permitted: bool, timeout: Timeout, now: nat)
    requires Owned(s)
    ensures Owned(CallService(s, owner, id, service, declared, known, permitted, timeout, now).0)
  {
    CallServiceShape(s, owner, id, service, declared, known, permitted, timeout, now);
    hide Partition, CallService;
    var (t, ok) := CallService(s, owner, id, service, declared, known, permitted, timeout, now);
    var ticket := (s.ros.nextEntity, s.ros.nextSequence);
    if ok {
      CallAdded(RecordsOf(s), s.ros.live, ticket, t.rpc.calls[ticket]);
    }
  }

  lemma RemoveServiceOwned(s: State, owner: Connection, name: string)
    requires Owned(s)
    ensures Owned(RemoveService(s, owner, name).0)
  {
    hide Partition;
    if name in s.rpc.services {
      ServiceRemoved(RecordsOf(s), s.ros.live, name);
    }
  }

  lemma AdvertiseServiceOwned(s: State, owner: Connection, name: string, typ: string)
    requires Owned(s)
    ensures Owned(AdvertiseService(s, owner, name, typ).0)
  {
    RemoveServiceOwned(s, owner, name);
    var s1 := if name in s.rpc.services then RemoveService(s, owner, name).0 else s;
    OpenServiceShape(s1, owner, name, typ);
    hide Partition, OpenService;
    var (t, ok) := OpenService(s1, owner, name, typ);
    if name !in s1.rpc.services && ok {
      ServiceAdded(RecordsOf(s1), s1.ros.live, name, t.rpc.services[name]);
    }
  }

  lemma ForwardOwned(s: State, name: string, request: nat, now: nat)
    requires Owned(s) && name in s.rpc.services
    ensures Owned(ForwardRequest(s, name, request, now))
  {
    hide Partition;
    var t := ForwardRequest(s, name, request, now);
    ServiceKept(RecordsOf(s), s.ros.live, name, t.rpc.services[name]);
  }

  lemma FinishCallOwned(s: State, ticket: Ticket, success: bool)
    requires Owned(s) && ticket in s.rpc.calls
    ensures Owned(FinishCall(s, ticket, success))
  {
    hide Partition;
    CallRemoved(RecordsOf(s), s.ros.live, ticket);
  }

  lemma DropCallOwned(s: State, ticket: Ticket)
    requires Owned(s) && ticket in s.rpc.calls
    ensures Owned(DropCall(s, ticket))
  {
    hide Partition;
    CallRemoved(RecordsOf(s), s.ros.live, ticket);
  }

  // ---------- client goals ----------

  lemma SendGoalOwned(s: State, owner: Connection, action: string, id: Id, feedback: bool, uuid: Uuid, now: nat)
    requires Owned(s) && uuid !in s.actions.goals
    ensures Owned(SendGoal(s, owner, action, id, feedback, uuid, now).0)
  {
    SendGoalShape(s, owner, action, id, feedback, uuid, now);
    hide Partition, SendGoal, Distinct, Five.All;
    var (t, ok) := SendGoal(s, owner, action, id, feedback, uuid, now);
    if ok {
      GoalAdded(RecordsOf(s), s.ros.live, uuid, t.actions.goals[uuid]);
    }
  }

  lemma CancelGoalOwned(s: State, goal: Option<Uuid>)
    requires Owned(s)
    ensures Owned(CancelGoal(s, goal).0)
  {
    CancelGoalShape(s, goal);
    hide Partition, CancelGoal;
    var (t, ok) := CancelGoal(s, goal);
    if ok {
      GoalKept(RecordsOf(s), s.ros.live, goal.value, t.actions.goals[goal.value]);
    }
  }

  lemma FinishGoalOwned(s: State, goal: Uuid, status: int, success: bool)
    requires Owned(s)
    ensures Owned(FinishGoal(s, goal, status, success))
  {
    FinishGoalShape(s, goal, status, success);
    hide Partition, FinishGoal, Five.All;
    if goal in s.actions.goals {
      GoalRemoved(RecordsOf(s), s.ros.live, goal);
    }
  }

  lemma ActionResponseOwned(s: State, ticket: Ticket, answer: Answer)
    requires Owned(s) && ticket in s.actions.actionCalls
    ensures Owned(ActionResponse(s, ticket, answer).0)
  {
    hide Partition, FinishGoal, AcceptGoal, CancelAnswered;
    var goal := s.actions.actionCalls[ticket].goal;
    var s1 := s.(actions := s.actions.(actionCalls := s.actions.actionCalls - {ticket}));
    assert Owned(s1);
    FinishGoalOwned(s1, goal, 6, false);
    FinishGoalOwned(s1, goal, answer.status, answer.status == 4);
    CancelAnsweredShape(s1, goal, answer.returnCode);
    if goal in s1.actions.goals {
      AcceptGoalShape(s1, goal);
      GoalKept(RecordsOf(s1), s1.ros.live, goal, s1.actions.goals[goal].(accepted := true));
      GoalKept(RecordsOf(s1), s1.ros.live, goal, s1.actions.goals[goal].(cancelling := false));
    }
  }

  lemma AbandonGoalOwned(s: State, goal: Uuid)
    requires Owned(s)
    ensures Owned(AbandonGoal(s, goal))
  {
    hide Partition, FinishGoal;
    if goal in s.actions.goals {
      FinishGoalOwned(s, goal, 6, false);
      FinishGoalOwned(s.(ros := s.ros.Request(s.actions.goals[goal].five.cancel, AboutGoal(goal)).0), goal, 6, false);
    }
  }

  // ---------- action servers ----------

  lemma RemoveActionOwned(s: State, owner: Connection, action: string, keys: seq<GoalKey>)
    requires Owned(s)
    ensures Owned(RemoveAction(s, owner, action, keys).0)
  {
    DropGoalsShape(s, keys);
    hide Partition, DropGoals, Five.All;
    if action in s.servers.actionServers {
      ServerRemoved(RecordsOf(s), s.ros.live, action);
    }
  }

  lemma AdvertiseActionOwned(s: State, owner: Connection, action: string, typ: string, keys: seq<GoalKey>)
    requires Owned(s)
    ensures Owned(AdvertiseAction(s, owner, action, typ, keys).0)
  {
    hide Partition, OpenAction, RemoveAction;
    RemoveActionOwned(s, owner, action, keys);
    if action !in s.servers.actionServers {
      OpenActionOwned(s, owner, action, typ);
    } else if s.servers.actionServers[action].owner == owner {
      RemovedIsGone(s, owner, action, keys);
      OpenActionOwned(RemoveAction(s, owner, action, keys).0, owner, action, typ);
    }
  }

  lemma RemovedIsGone(s: State, owner: Connection, action: string, keys: seq<GoalKey>)
    requires action in s.servers.actionServers && s.servers.actionServers[action].owner == owner
    ensures action !in RemoveAction(s, owner, action, keys).0.servers.actionServers
  {
    hide DropGoals;
    DropGoalsShape(s, keys);
  }

  lemma OpenActionOwned(s: State, owner: Connection, action: string, typ: string)
    requires Owned(s) && action !in s.servers.actionServers
    ensures Owned(OpenAction(s, owner, action, typ).0)
  {
    hide Partition, OpenAction, Distinct, Five.All;
    OpenActionShape(s, owner, action, typ);
    var (t, ok) := OpenAction(s, owner, action, typ);
    if ok {
      GrewValid(s.ros, t.ros, t.servers.actionServers[action].five.All());
      ServerAdded(RecordsOf(s), s.ros.live, action, t.servers.actionServers[action]);
    } else {
      RolledValid(s.ros, t.ros);
    }
  }

  lemma ActionResultOwned(s: State, key: GoalKey, status: int, values: string, now: nat)
    requires Owned(s) && key in s.servers.serverGoals
    ensures Owned(ActionResult(s, key, status, values, now).0)
  {
    hide Partition, Drain;
    DrainShape(s.ros.Query().0, s.servers.serverGoals[key].requests, ResultAnswer(status, values));
  }

  lemma RequestOnActionOwned(s: State, action: string, part: Part, request: nat, asked: Asked)
    requires Owned(s) && action in s.servers.actionServers
    requires forall k :: k in asked.notices ==> k in s.servers.serverGoals
    ensures Owned(RequestOnAction(s, action, part, request, asked).0)
  {
    hide Partition, Cancelled, Marked, UniqueName, Post, PostAll, PublishStatus, CancelAnswerOf, CancelNotices;
    match part
    case Send => SubmitGoalOwned(s, action, asked.uuid, request, asked.stamp);
    case Cancel => CancelGoalsOwned(s, action, asked.cancel, request, asked.notices);
    case _ =>
  }

  lemma PublishStatusOwned(s: State, action: string)
    requires Owned(s)
    ensures Owned(PublishStatus(s, action).0)
  {
    hide Partition, StatusOf;
  }

  lemma SubmitGoalOwned(s: State, action: string, uuid: Option<Uuid>, request: nat, stamp: (int, nat))
    requires Owned(s) && action in s.servers.actionServers
    ensures Owned(SubmitGoal(s, action, uuid, request, stamp).0)
  {
    hide Partition, UniqueName, Post, PublishStatus;
    forall t | Owned(t) ensures Owned(PublishStatus(t, action).0) { PublishStatusOwned(t, action); }
  }

  lemma CancelGoalsOwned(s: State, action: string, ask: Option<CancelAsk>, request: nat, order: seq<GoalKey>)
    requires Owned(s) && action in s.servers.actionServers && forall k :: k in order ==> k in s.servers.serverGoals
    ensures Owned(CancelGoals(s, action, ask, request, order).0)
  {
    hide Partition, Cancelled, Marked, PostAll, PublishStatus, CancelAnswerOf, CancelNotices;
    forall t | Owned(t) ensures Owned(PublishStatus(t, action).0) { PublishStatusOwned(t, action); }
  }

  lemma ServeOwned(s: State, e: Entity, request: nat, asked: Asked, now: nat)
    requires Owned(s) && forall k :: k in asked.notices ==> k in s.servers.serverGoals
    ensures Owned(OnRequest(s, e, request, asked, now))
  {
    hide Partition, RequestOnAction, ForwardRequest;
    var s1 := Handling(s, (e, request));
    if exists a, p :: ServesPart(s, e, a, p) {
      var a, p :| ServesPart(s, e, a, p)
        && OnRequest(s, e, request, asked, now)
           == DiscardOnError(RequestOnAction(s1, a, p, request, asked), e, request);
      assert e in s.ros.live by { ServedEntityLives(s, OfServer(a, p), e); }
      RequestOnActionOwned(s1, a, p, request, asked);
      DiscardOnErrorOwned(RequestOnAction(s1, a, p, request, asked), e, request);
    } else if exists n :: Serves(s, e, n) {
      var n :| Serves(s, e, n) && OnRequest(s, e, request, asked, now) == ForwardRequest(s1, n, request, now);
      assert e in s.ros.live by { ServedEntityLives(s, OfService(n), e); }
      ForwardOwned(s1, n, request, now);
    }
  }

  lemma PollOwned(s: State, taken: set<Native>, next: nat)
    requires Owned(s) && CanTake(s, taken, next)
    ensures Owned(Polled(s, taken, next))
  {
    hide Partition;
    forall r | r in taken ensures r.0 in s.ros.live {
      if a, p :| ServesPart(s, r.0, a, p) {
        ServedEntityLives(s, OfServer(a, p), r.0);
      } else {
        var n :| Serves(s, r.0, n);
        ServedEntityLives(s, OfService(n), r.0);
      }
    }
  }

  lemma DiscardOnErrorOwned(outcome: (State, bool), e: Entity, request: nat)
    requires Owned(outcome.0)
    ensures Owned(DiscardOnError(outcome, e, request))
  {
    hide Partition;
  }

  lemma ServedEntityLives(s: State, slot: Slot, e: Entity)
    requires Owned(s) && Holder(RecordsOf(s), slot) == Some(e)
    ensures e in s.ros.live
  {
  }

  // ---------- every move, every run ----------

  lemma PublishToOwned(s: State, owner: Connection, topic: string, id: Id, setup: Setup)
    requires Owned(s)
    ensures Owned(PublishTo(s, owner, topic, id, setup).0)
  {
    hide Partition, Advertise;
    AdvertiseOwned(s, owner, topic, id, setup);
  }

  lemma ServiceResponseOwned(s: State, owner: Connection, id: string, service: string, success: Option<bool>)
    requires Owned(s)
    ensures Owned(ServiceResponse(s, owner, id, service, success).0)
  {
    hide Partition;
  }

  lemma ActionFeedbackOwned(s: State, key: GoalKey)
    requires Owned(s) && key in s.servers.serverGoals
    ensures Owned(ActionFeedback(s, key).0)
  {
    hide Partition;
  }

  lemma OperateOwned(s: State, owner: Connection, name: string, op: Operation, now: nat)
    requires Owned(s) && OperationFits(s, name, op) && IssuedGoals(s)
    ensures Owned(Operate(s, owner, name, op, now).0)
  {
    hide Owned, Advertise, Unadvertise, PublishTo, Subscribe, Unsubscribe, CallService, AdvertiseService,
      RemoveService, ServiceResponse, SendGoal, CancelGoal, AdvertiseAction, RemoveAction, ActionFeedback, ActionResult;
    match op
    case AdvertiseTopic(id, setup) => AdvertiseOwned(s, owner, name, id, setup);
    case UnadvertiseTopic(id) => UnadvertiseOwned(s, owner, name, id);
    case PublishMessage(id, setup) => PublishToOwned(s, owner, name, id, setup);
    case SubscribeTopic(id, options, setup) => SubscribeOwned(s, owner, name, id, options, setup, now);
    case UnsubscribeTopic(id) => UnsubscribeOwned(s, owner, name, id);
    case CallRemote(id, declared, known, permitted, timeout) =>
      CallServiceOwned(s, owner, id, name, declared, known, permitted, timeout, now);
    case OfferService(typ, permitted) => AdvertiseServiceOwned(s, owner, name, typ);
    case WithdrawService => RemoveServiceOwned(s, owner, name);
    case AnswerService(request, success) => ServiceResponseOwned(s, owner, request, name, success);
    case StartGoal(id, feedback, uuid) => SendGoalOwned(s, owner, name, id, feedback, uuid, now);
    case StopGoal(goal) => CancelGoalOwned(s, ActiveGoal(s, owner, name, goal));
    case OfferAction(typ, keys) => AdvertiseActionOwned(s, owner, name, typ, keys);
    case WithdrawAction(keys) => RemoveActionOwned(s, owner, name, keys);
    case GiveFeedback(goal) =>
      var key := ServedGoal(s, owner, name, goal);
      if key.Some? { ActionFeedbackOwned(s, key.value); }
    case GiveResult(goal, status, values) =>
      var key := ServedGoal(s, owner, name, goal);
      if key.Some? { ActionResultOwned(s, key.value, status, values, now); }
  }

  /** The UUIDs of the active goals have been issued. */
  ghost predicate IssuedGoals(s: State) {
    s.actions.goals.Keys <= s.actions.issued
  }

  lemma ObeyOwned(s: State, owner: Connection, c: Command, now: nat)
    requires Owned(s) && IssuedGoals(s) && Fits(s, Obey(owner, c, now))
    ensures Owned(OnCommand(s, owner, c, now))
  {
    hide Partition, Operate;
    if c.Command? && Name(c.name).Some? {
      OperateOwned(s, owner, Name(c.name).value, c.operation, now);
    }
  }

  lemma LeavingOwned(s: State, m: Move)
    requires Owned(s) && Leaving(m)
    ensures Owned(Do(s, m))
  {
    hide Owned, Unadvertise, Unsubscribe, RemoveService, RemoveAction, AbandonGoal, DropCall, ForgetExternal;
    match m
    case Depart(owner) => OtherPartsOwned(s, Do(s, m));
    case LeaveTopic(owner, topic) => UnadvertiseOwned(s, owner, topic, None);
    case LeaveSubscription(owner, topic) => UnsubscribeOwned(s, owner, topic, None);
    case LeaveService(owner, name) => RemoveServiceOwned(s, owner, name);
    case LeaveAction(owner, name, keys) => RemoveActionOwned(s, owner, name, keys);
    case LeaveGoal(goal) => AbandonGoalOwned(s, goal);
    case LeaveCall(ticket) => DropAnyCallOwned(s, ticket);
    case LeaveExternal(owner) => ForgetExternalOwned(s, owner);
  }

  lemma OtherPartsOwned(s: State, t: State)
    requires Owned(s) && t == s.(desk := t.desk)
    ensures Owned(t)
  {
    hide Partition, Ros.Valid;
  }

  lemma DropAnyCallOwned(s: State, ticket: Ticket)
    requires Owned(s)
    ensures Owned(DropCall(s, ticket))
  {
    hide Owned;
    if ticket in s.rpc.calls { DropCallOwned(s, ticket); }
  }

  lemma ForgetExternalOwned(s: State, owner: Connection)
    requires Owned(s)
    ensures Owned(ForgetExternal(s, owner))
  {
    hide Partition, Ros.Valid;
  }

  lemma LearnOwned(s: State, ticket: Ticket, answer: Answer)
    requires Owned(s)
    ensures Owned(OnResponse(s, ticket, answer))
  {
    hide Owned, FinishCall, ActionResponse;
    if ticket in s.rpc.calls { FinishCallOwned(s, ticket, true); }
    else if ticket in s.actions.actionCalls { ActionResponseOwned(s, ticket, answer); }
  }

  /** Whatever happens, nothing leaks and nothing is held twice; partial creations are rolled back. */
  lemma MoveOwned(s: State, m: Move)
    requires Owned(s) && IssuedGoals(s)
    ensures Owned(Do(s, m))
  {
    hide Partition, OnCommand, OnMessage, OnRequest, OnResponse, FinishGoal, DeliverDue, FinishCall, Ros.Valid,
      IssuedGoals;
    if Leaving(m) {
      hide Do;
      LeavingOwned(s, m);
    } else if Fits(s, m) {
      match m
      case Connect(owner) =>
      case Obey(owner, command, now) => ObeyOwned(s, owner, command, now);
      case Poll(taken, next) => PollOwned(s, taken, next);
      case Hear(e, message, now, order) => HearOwned(s, e, message, now, order);
      case Learn(ticket, answer) => LearnOwned(s, ticket, answer);
      case Serve(e, request, asked, now) => ServeOwned(s, e, request, asked, now);
      case GoalTimeout(goal) => FinishGoalOwned(s, goal, 6, false);
      case Deliver(due, now) => DeliverOwned(s, due, now);
      case CallTimeout(ticket) => if ticket in s.rpc.calls { FinishCallOwned(s, ticket, false); }
      case RequestTimeout(id) => DiscardValid(s, id);
      case ForgetResults(now) =>
      case TakeFailed =>
    }
  }

  lemma DiscardValid(s: State, id: string)
    requires s.ros.Valid()
    ensures ExpireExternal(s, id).ros.Valid()
  {
  }
}

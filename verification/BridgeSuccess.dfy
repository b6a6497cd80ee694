/** When a command succeeds (src/bridge). */
module BridgeSuccess {
  import opened Basics
  import opened Backend
  import opened BridgeState
  import opened BridgeTopics
  import opened BridgeServices
  import opened BridgeActions
  import opened BridgeMoves
  import opened BridgeShapes
  import opened BridgeRuns
  import Own = BridgeOwnership
  import Requests = BridgeRequests
  import Goals = BridgeServerGoals
  import Exchanges = BridgeExchanges
  import Outcomes = BridgeOutcomes
  import Owners = BridgeOwners
  import Lookup = BridgeLookups
  import Tracks = BridgeClientGoals
  import Delivery

  // ---------- names and types ----------

  /** A name is refused exactly if it is empty or has a character that names do not have; a good name is absolute. */
  lemma NamesAreAbsolute(raw: string)
    ensures Name(raw).None? <==> raw == "" || exists i :: 0 <= i < |raw| && !NameChar(raw[i])
    ensures Name(raw).Some? ==>
      && Name(raw).value[0] == '/' && Name(Name(raw).value) == Name(raw)
      && (Name(raw).value == raw <==> raw[0] == '/') && (raw[0] != '/' ==> Name(raw).value[1..] == raw)
  {
  }

  /** The graph knows this type, and no other, under the name. */
  predicate OnlyType(known: Option<seq<string>>, t: string) {
    known.Some? && forall i :: 0 <= i < |known.value| ==> known.value[i] == t
  }

  /** A declared type holds unless the graph knows another; an undeclared one is the only one the graph knows. */
  lemma TypeIs(declared: Declared, known: Option<seq<string>>, t: string)
    ensures Resolve(declared, known) == Some(t) <==>
      || (declared == Type(t) && (known.Some? ==> OnlyType(known, t)))
      || (declared.Undeclared? && known == Some([t]))
  {
    assert known.Some? && |known.value| == 1 ==> known.value == [known.value[0]];
  }

  // ---------- topics ----------

  /** The topic's type does not contradict what is declared. */
  predicate Agrees(declared: Declared, typ: string) {
    declared.Undeclared? || declared == Type(typ)
  }

  /** The topic is advertised already, with this type, or its type is known and it can be created. */
  predicate CanAdvertise(s: State, topic: string, setup: Setup) {
    if topic in s.topics.publishers then Agrees(setup.declared, s.topics.publishers[topic].typ)
    else s.ros.AllSucceed(2) && Resolve(setup.declared, setup.known).Some? && !setup.settings.BadSettings?
  }

  predicate CanPublish(s: State, topic: string, setup: Setup) {
    CanAdvertise(s, topic, setup) && s.ros.fate(s.ros.calls + if topic in s.topics.publishers then 0 else 2)
  }

  /** The graph can be listed and settles the type; an open topic has that type, a new one can be created. */
  predicate CanSubscribe(s: State, topic: string, setup: Setup) {
    && s.ros.AllSucceed(1) && Resolve(setup.declared, setup.known).Some?
    && if topic in s.topics.subscriptions
       then Some(s.topics.subscriptions[topic].typ) == Resolve(setup.declared, setup.known)
       else match setup.settings
         case NoSettings(_) => s.ros.AllSucceed(3)
         case BadSettings => false
         case Durable(_) => s.ros.AllSucceed(2)
  }

  lemma AdvertiseSucceedsIff(s: State, owner: Connection, topic: string, id: Id, setup: Setup)
    ensures var (t, ok) := Advertise(s, owner, topic, id, setup);
      && (ok <==> CanAdvertise(s, topic, setup))
      && (ok ==> topic in t.topics.publishers
                 && t.ros.calls == s.ros.calls + (if topic in s.topics.publishers then 0 else 2)
                 && t.ros.fate == s.ros.fate)
      && (ok && topic !in s.topics.publishers ==>
            Some(t.topics.publishers[topic].typ) == Resolve(setup.declared, setup.known)
            && t.topics.publishers[topic].entity == s.ros.nextEntity)
  {
    assert s.ros.AllSucceed(2) <==> s.ros.fate(s.ros.calls) && s.ros.fate(s.ros.calls + 1);
    hide Resolve;
  }

  lemma PublishSucceedsIff(s: State, owner: Connection, topic: string, id: Id, setup: Setup)
    requires Own.Owned(s)
    ensures PublishTo(s, owner, topic, id, setup).1 <==> CanPublish(s, topic, setup)
  {
    hide Advertise, Own.Partition, CanAdvertise;
    AdvertiseSucceedsIff(s, owner, topic, id, setup);
    Own.AdvertiseOwned(s, owner, topic, id, setup);
    var t := Advertise(s, owner, topic, id, setup).0;
    if topic in t.topics.publishers {
      Own.ServedEntityLives(t, Own.OfTopic(topic), t.topics.publishers[topic].entity);
    }
  }

  lemma SubscribeSucceedsIff(s: State, owner: Connection, topic: string, id: Id, options: Delivery.Options,
                             setup: Setup, now: nat)
    ensures var (t, ok) := Subscribe(s, owner, topic, id, options, setup, now);
      && (ok <==> CanSubscribe(s, topic, setup))
      && (ok ==> topic in t.topics.subscriptions
                 && Some(t.topics.subscriptions[topic].typ) == Resolve(setup.declared, setup.known))
      && (ok && topic !in s.topics.subscriptions ==>
            t.topics.subscriptions[topic].transientLocal
            == if setup.settings.NoSettings? then setup.settings.offered else setup.settings.transientLocal)
  {
    assert s.ros.AllSucceed(1) <==> s.ros.fate(s.ros.calls);
    assert s.ros.AllSucceed(2) <==> s.ros.fate(s.ros.calls) && s.ros.fate(s.ros.calls + 1);
    assert s.ros.AllSucceed(3) <==>
      s.ros.fate(s.ros.calls) && s.ros.fate(s.ros.calls + 1) && s.ros.fate(s.ros.calls + 2);
    hide Resolve, JoinTopic;
    var (s1, ok) := OpenTopic(s, topic, setup);
    if ok && topic in s1.topics.subscriptions { JoinTopicShape(s1, owner, topic, id, options, now); }
  }

  // ---------- services ----------

  predicate CanCall(s: State, declared: Declared, known: Option<seq<string>>, permitted: bool, timeout: Timeout) {
    s.ros.AllSucceed(3) && Resolve(declared, known).Some? && permitted && !timeout.BadTimeout?
  }

  lemma CallSucceedsIff(s: State, owner: Connection, id: Id, service: string, declared: Declared,
                        known: Option<seq<string>>, permitted: bool, timeout: Timeout, now: nat)
    ensures CallService(s, owner, id, service, declared, known, permitted, timeout, now).1
            <==> CanCall(s, declared, known, permitted, timeout)
  {
    assert s.ros.AllSucceed(3) <==>
      s.ros.fate(s.ros.calls) && s.ros.fate(s.ros.calls + 1) && s.ros.fate(s.ros.calls + 2);
    hide Resolve;
  }

  predicate OwnService(s: State, owner: Connection, name: string) {
    name in s.rpc.services && s.rpc.services[name].owner == owner
  }

  /** The name is free or the client's own, and a new entity is not needed or can be created. */
  predicate CanOffer(s: State, owner: Connection, name: string, typ: string) {
    && (name in s.rpc.services ==> OwnService(s, owner, name))
    && (!(name in s.rpc.services && s.rpc.services[name].typ == typ) ==> s.ros.AllSucceed(1))
  }

  lemma OfferSucceedsIff(s: State, owner: Connection, name: string, typ: string)
    ensures AdvertiseService(s, owner, name, typ).1 <==> CanOffer(s, owner, name, typ)
    ensures RemoveService(s, owner, name).1 <==> OwnService(s, owner, name)
  {
    assert s.ros.AllSucceed(1) <==> s.ros.fate(s.ros.calls);
  }

  // ---------- client goals ----------

  lemma CreateFiveIff(a: Ros)
    ensures var (b, five) := CreateFive(a);
      && (five.Some? <==> a.AllSucceed(5))
      && (five.Some? ==> b.calls == a.calls + 5 && b.fate == a.fate && b.did == a.did
                         && b.live == a.live + five.value.All() && five.value.send == a.nextEntity
                         && b.nextSequence == a.nextSequence)
      && (five.None? ==> b.did == a.did)
  {
    assert a.AllSucceed(5) <==>
      a.fate(a.calls) && a.fate(a.calls + 1) && a.fate(a.calls + 2) && a.fate(a.calls + 3) && a.fate(a.calls + 4);
  }

  /** The active goals of a client on an action, under an id. */
  predicate IsActive(s: State, k: Uuid, owner: Connection, action: string, id: Id) {
    && k in s.actions.goals && s.actions.goals[k].owner == owner && s.actions.goals[k].action == action
    && s.actions.goals[k].id == id
  }

  /** No goal of the client is active under the id, and five entities and one request are to be had. */
  ghost predicate CanStart(s: State, owner: Connection, action: string, id: Id) {
    (forall k :: !IsActive(s, k, owner, action, id)) && s.ros.AllSucceed(6)
  }

  lemma ActiveIs(s: State, owner: Connection, action: string, id: Id)
    ensures GoalActive(s, owner, action, id) <==> exists k :: IsActive(s, k, owner, action, id)
  {
    forall k ensures k in s.actions.goals && SameGoal(s.actions.goals[k], owner, action, id)
                     <==> IsActive(s, k, owner, action, id) {
    }
  }

  lemma StartSucceedsIff(s: State, owner: Connection, action: string, id: Id, feedback: bool, uuid: Uuid, now: nat)
    ensures SendGoal(s, owner, action, id, feedback, uuid, now).1 <==> CanStart(s, owner, action, id)
  {
    hide CreateFive, GoalActive, IsActive;
    ActiveIs(s, owner, action, id);
    CreateFiveIff(s.ros);
    SixIsFiveAndOne(s.ros);
  }

  lemma SixIsFiveAndOne(a: Ros)
    ensures a.AllSucceed(6) <==> a.AllSucceed(5) && a.fate(a.calls + 5)
  {
  }

  /** The client has such a goal, which was accepted and is not cancelling, and the request goes out. */
  ghost predicate CanStop(s: State, owner: Connection, action: string, goal: string) {
    && s.ros.AllSucceed(1)
    && exists g :: IsActive(s, g, owner, action, Some(goal))
                   && s.actions.goals[g].accepted && !s.actions.goals[g].cancelling
  }

  lemma StopSucceedsIff(s: State, owner: Connection, action: string, goal: string)
    requires Own.Owned(s) && Tracks.Tracked(s.actions, s.ros.nextSequence)
    ensures CancelGoal(s, ActiveGoal(s, owner, action, goal)).1 <==> CanStop(s, owner, action, goal)
  {
    assert Tracks.OneById(s.actions.goals);
    hide Own.Partition, Tracks.Tracked;
    assert s.ros.AllSucceed(1) <==> s.ros.fate(s.ros.calls);
    var found := ActiveGoal(s, owner, action, goal);
    if found.Some? {
      Own.ServedEntityLives(s, Own.OfGoal(found.value, Cancel), s.actions.goals[found.value].five.cancel);
      assert IsActive(s, found.value, owner, action, Some(goal));
      forall g | IsActive(s, g, owner, action, Some(goal)) ensures g == found.value {
        assert Wanted(s, g, owner, action, goal);
        Lookup.ActiveGoalIs(s, g, owner, action, goal);
      }
    } else {
      forall g ensures !IsActive(s, g, owner, action, Some(goal)) {
        assert !Wanted(s, g, owner, action, goal);
      }
    }
  }

  // ---------- action servers ----------

  predicate OwnAction(s: State, owner: Connection, action: string) {
    action in s.servers.actionServers && s.servers.actionServers[action].owner == owner
  }

  /** How many requests wait for the results of some goals. */
  function WaiterCount(goals: map<GoalKey, ServerGoal>, keys: seq<GoalKey>): nat {
    if keys == [] then 0
    else
      var last := keys[|keys| - 1];
      WaiterCount(goals, keys[..|keys| - 1]) + if last in goals then |goals[last].requests| else 0
  }

  lemma {:induction false} RespondAllCalls(a: Ros, requests: seq<Native>)
    ensures var b := RespondAll(a, requests); b.calls == a.calls + |requests| && b.fate == a.fate
  {
    if requests != [] { RespondAllCalls(a, requests[..|requests| - 1]); }
  }

  lemma {:induction false} DropGoalsCalls(s: State, keys: seq<GoalKey>)
    requires forall i, j :: 0 <= i < j < |keys| ==> keys[i] != keys[j]
    ensures var t := DropGoals(s, keys);
      t.ros.calls == s.ros.calls + WaiterCount(s.servers.serverGoals, keys) && t.ros.fate == s.ros.fate
    decreases |keys|
  {
    hide RespondAll;
    if keys != [] {
      var n := |keys| - 1;
      DropGoalsCalls(s, keys[..n]);
      DropGoalsShape(s, keys[..n]);
      var s1 := DropGoals(s, keys[..n]);
      assert keys[n] !in keys[..n];
      if keys[n] in s1.servers.serverGoals { RespondAllCalls(s1.ros, s1.servers.serverGoals[keys[n]].requests); }
    }
  }

  /** The next `n` calls after the first `skip` succeed. */
  predicate SucceedAfter(a: Ros, skip: nat, n: nat) {
    forall k :: a.calls + skip <= k < a.calls + skip + n ==> a.fate(k)
  }

  /**
   The name is free or the client's own, and five new entities are not needed or can be created,
   once those who wait for the results of the old action's goals have been answered.
   */
  predicate CanOfferAction(s: State, owner: Connection, action: string, typ: string, keys: seq<GoalKey>) {
    if action !in s.servers.actionServers then s.ros.AllSucceed(5)
    else
      OwnAction(s, owner, action)
      && (s.servers.actionServers[action].typ != typ ==>
            SucceedAfter(s.ros, WaiterCount(s.servers.serverGoals, keys), 5))
  }

  lemma OfferActionSucceedsIff(s: State, owner: Connection, action: string, typ: string, keys: seq<GoalKey>)
    requires Lists(keys, GoalsOf(s.servers.serverGoals, action))
    ensures AdvertiseAction(s, owner, action, typ, keys).1 <==> CanOfferAction(s, owner, action, typ, keys)
    ensures RemoveAction(s, owner, action, keys).1 <==> OwnAction(s, owner, action)
  {
    hide CreateFive, DropGoals, Five.All;
    DropGoalsCalls(s, keys);
    DropGoalsShape(s, keys);
    var s1 := RemoveAction(s, owner, action, keys).0;
    CreateFiveIff(s.ros);
    CreateFiveIff(s1.ros);
  }

  /** The client's goal under this id, among those of the actions it serves. */
  predicate IsServed(s: State, k: GoalKey, owner: Connection, action: string, goal: string) {
    && k in s.servers.serverGoals && k.0 == action && s.servers.serverGoals[k].owner == owner
    && s.servers.serverGoals[k].id == goal
  }

  /** It serves a goal of that id, not yet over, and the feedback goes out. */
  ghost predicate CanGiveFeedback(s: State, owner: Connection, action: string, goal: string) {
    s.ros.AllSucceed(1)
    && exists k :: IsServed(s, k, owner, action, goal) && s.servers.serverGoals[k].result.None?
  }

  /** It serves such a goal; the result is final and valid, all requests for it are answered, and the status goes out. */
  ghost predicate CanGiveResult(s: State, owner: Connection, action: string, goal: string, status: int) {
    4 <= status <= 6
    && exists k :: IsServed(s, k, owner, action, goal) && s.servers.serverGoals[k].result.None?
                   && s.ros.AllSucceed(|s.servers.serverGoals[k].requests| + 2)
  }

  lemma FeedbackSucceedsIff(s: State, k: GoalKey)
    requires Own.Owned(s) && Goals.Sound(s.servers) && k in s.servers.serverGoals
    ensures ActionFeedback(s, k).1 <==> s.ros.AllSucceed(1) && s.servers.serverGoals[k].result.None?
  {
    hide Own.Partition;
    assert s.ros.AllSucceed(1) <==> s.ros.fate(s.ros.calls);
    assert Goals.Served(s.servers, k);
    Own.ServedEntityLives(s, Own.OfServer(k.0, Feedback), s.servers.actionServers[k.0].five.feedback);
  }

  /** The requests are outstanding on a live entity, each once. */
  ghost predicate AllOutstanding(a: Ros, requests: seq<Native>) {
    && (forall i :: 0 <= i < |requests| ==> requests[i] in a.requests && requests[i].0 in a.live)
    && forall i, j :: 0 <= i < j < |requests| ==> requests[i] != requests[j]
  }

  lemma {:induction false} DrainsIff(a: Ros, requests: seq<Native>, answer: Content)
    requires AllOutstanding(a, requests)
    ensures var (b, left) := Drain(a, requests, answer);
      && b.fate == a.fate && b.live == a.live
      && (left == [] <==> a.AllSucceed(|requests|)) && (left == [] ==> b.calls == a.calls + |requests|)
    decreases |requests|
  {
    if requests != [] {
      var n := |requests| - 1;
      var (b, sent) := a.Respond(requests[n].0, requests[n].1, answer);
      if sent {
        assert AllOutstanding(b, requests[..n]);
        DrainsIff(b, requests[..n], answer);
      }
    }
  }

  lemma WaitersAreOutstanding(s: State, k: GoalKey)
    requires Own.Owned(s) && Requests.Complete(s) && k in s.servers.serverGoals
    ensures AllOutstanding(s.ros, s.servers.serverGoals[k].requests)
  {
    var requests := s.servers.serverGoals[k].requests;
    hide Own.Partition, Requests.Filed, Requests.Lying;
    forall i | 0 <= i < |requests| ensures requests[i] in s.ros.requests && requests[i].0 in s.ros.live {
      assert Requests.ClaimOf(s.rpc.external, s.servers.serverGoals, Requests.Waiter(k, i)) == Some(requests[i]);
      Requests.ClaimIsHandled(s, Requests.Waiter(k, i));
    }
    forall i, j | 0 <= i < j < |requests| ensures requests[i] != requests[j] {
      assert Requests.ClaimOf(s.rpc.external, s.servers.serverGoals, Requests.Waiter(k, i)) == Some(requests[i]);
      assert Requests.ClaimOf(s.rpc.external, s.servers.serverGoals, Requests.Waiter(k, j)) == Some(requests[j]);
    }
  }

  lemma ResultSucceedsIff(s: State, k: GoalKey, status: int, values: string, now: nat)
    requires Own.Owned(s) && Requests.Complete(s) && Goals.Sound(s.servers) && k in s.servers.serverGoals
    ensures var g := s.servers.serverGoals[k];
      ActionResult(s, k, status, values, now).1
      <==> 4 <= status <= 6 && g.result.None? && s.ros.AllSucceed(|g.requests| + 2)
  {
    var g := s.servers.serverGoals[k];
    WaitersAreOutstanding(s, k);
    assert Goals.Served(s.servers, k);
    Own.ServedEntityLives(s, Own.OfServer(k.0, Status), s.servers.actionServers[k.0].five.status);
    var (ros, valid) := s.ros.Query();
    DrainsIff(ros, g.requests, ResultAnswer(status, values));
    hide Drain, Own.Owned, Requests.Complete, Goals.Sound;
    assert s.ros.AllSucceed(|g.requests| + 2)
       <==> valid && ros.AllSucceed(|g.requests|) && s.ros.fate(s.ros.calls + |g.requests| + 1);
  }

  // ---------- every command ----------

  /** The client advertises the topic, under this id if one is named. */
  ghost predicate SomeAdvertised(pubs: map<string, Publisher>, owner: Connection, topic: string, id: Id) {
    exists i :: Outcomes.Advertised(pubs, owner, topic, i) && (id.None? || i == id)
  }

  ghost predicate SomeRegistered(subs: map<string, Subscription>, owner: Connection, topic: string, id: Id) {
    exists i :: Outcomes.Registered(subs, owner, topic, i) && (id.None? || i == id)
  }

  ghost predicate CanGive(s: State, owner: Connection, name: string, op: Operation) {
    match op
    case GiveFeedback(goal) => CanGiveFeedback(s, owner, name, goal)
    case GiveResult(goal, status, _) => CanGiveResult(s, owner, name, goal, status)
    case _ => false
  }

  ghost predicate CanOperate(s: State, owner: Connection, name: string, op: Operation) {
    match op
    case AdvertiseTopic(_, setup) => CanAdvertise(s, name, setup)
    case UnadvertiseTopic(id) => SomeAdvertised(s.topics.publishers, owner, name, id)
    case PublishMessage(_, setup) => CanPublish(s, name, setup)
    case SubscribeTopic(_, _, setup) => CanSubscribe(s, name, setup)
    case UnsubscribeTopic(id) => SomeRegistered(s.topics.subscriptions, owner, name, id)
    case CallRemote(_, declared, known, permitted, timeout) => CanCall(s, declared, known, permitted, timeout)
    case OfferService(typ, permitted) => permitted && CanOffer(s, owner, name, typ)
    case WithdrawService => OwnService(s, owner, name)
    case AnswerService(request, success) =>
      Exchanges.MayAnswer(s, owner, request, name, success) && s.ros.AllSucceed(1)
    case StartGoal(id, _, _) => CanStart(s, owner, name, id)
    case StopGoal(goal) => CanStop(s, owner, name, goal)
    case OfferAction(typ, keys) => CanOfferAction(s, owner, name, typ, keys)
    case WithdrawAction(_) => OwnAction(s, owner, name)
    case _ => CanGive(s, owner, name, op)
  }

  lemma GivesIff(s: State, owner: Connection, name: string, op: Operation, now: nat)
    requires Invariant(s) && (op.GiveFeedback? || op.GiveResult?)
    ensures Operate(s, owner, name, op, now).1 <==> CanGive(s, owner, name, op)
  {
    assert Own.Owned(s) && Goals.Sound(s.servers) && Requests.Complete(s)
        && Goals.Numbered(s.servers.serverGoals, s.desk.next);
    hide Invariant, Goals.Sound, Requests.Complete, Own.Owned, ActionFeedback, ActionResult, Goals.Numbered,
      Ros.AllSucceed;
    var goal := if op.GiveFeedback? then op.goal else op.goal;
    var found := ServedGoal(s, owner, name, goal);
    forall k | IsServed(s, k, owner, name, goal) ensures found == Some(k) {
      Lookup.ServedGoalIs(s, k, owner, name, goal);
    }
    if found.Some? {
      assert IsServed(s, found.value, owner, name, goal);
      if op.GiveFeedback? { FeedbackSucceedsIff(s, found.value); }
      else { ResultSucceedsIff(s, found.value, op.status, op.values, now); }
    }
  }

  /** An operation succeeds exactly if the backend and what is there allow it. */
  lemma OperatesIff(s: State, owner: Connection, name: string, op: Operation, now: nat)
    requires Invariant(s) && OperationFits(s, name, op)
    ensures Operate(s, owner, name, op, now).1 <==> CanOperate(s, owner, name, op)
  {
    InvariantParts(s);
    hide Invariant, Own.Owned, Tracks.Tracked, Owners.TopicsBy, Requests.Complete, Advertise, Unadvertise, PublishTo,
      Subscribe, Unsubscribe, CallService, AdvertiseService, RemoveService, ServiceResponse, SendGoal, CancelGoal,
      AdvertiseAction, RemoveAction, CanGive, CanAdvertise, CanPublish, CanSubscribe, CanCall, CanOffer, CanStart,
      CanStop, CanOfferAction, Ros.AllSucceed, Exchanges.MayAnswer, Outcomes.Advertised, Outcomes.Registered, Lists;
    match op
    case AdvertiseTopic(id, setup) => AdvertiseSucceedsIff(s, owner, name, id, setup);
    case UnadvertiseTopic(id) => Outcomes.UnadvertiseForgets(s, owner, name, id);
    case PublishMessage(id, setup) => PublishSucceedsIff(s, owner, name, id, setup);
    case SubscribeTopic(id, options, setup) => SubscribeSucceedsIff(s, owner, name, id, options, setup, now);
    case UnsubscribeTopic(id) => Outcomes.UnsubscribeForgets(s, owner, name, id);
    case CallRemote(id, declared, known, permitted, timeout) =>
      CallSucceedsIff(s, owner, id, name, declared, known, permitted, timeout, now);
    case OfferService(typ, permitted) => OfferSucceedsIff(s, owner, name, typ);
    case WithdrawService => OfferSucceedsIff(s, owner, name, "");
    case AnswerService(request, success) => AnswersIff(s, owner, request, name, success);
    case StartGoal(id, feedback, uuid) => StartSucceedsIff(s, owner, name, id, feedback, uuid, now);
    case StopGoal(goal) => StopSucceedsIff(s, owner, name, goal);
    case OfferAction(typ, keys) => OfferActionSucceedsIff(s, owner, name, typ, keys);
    case WithdrawAction(keys) => OfferActionSucceedsIff(s, owner, name, "", keys);
    case _ => GivesIff(s, owner, name, op, now);
  }

  lemma AnswersIff(s: State, owner: Connection, id: string, service: string, success: Option<bool>)
    requires Own.Owned(s) && Requests.Complete(s)
    ensures ServiceResponse(s, owner, id, service, success).1
            <==> Exchanges.MayAnswer(s, owner, id, service, success) && s.ros.AllSucceed(1)
  {
    assert s.ros.AllSucceed(1) <==> s.ros.fate(s.ros.calls);
    hide Own.Owned, Requests.Complete, ServiceResponse;
    Exchanges.AnswerEndsRequest(s, owner, id, service, success);
  }

  lemma InvariantParts(s: State)
    requires Invariant(s)
    ensures Own.Owned(s) && Tracks.Tracked(s.actions, s.ros.nextSequence) && Requests.Complete(s)
    ensures Owners.TopicsBy(s.topics, s.desk.outputs)
  {
  }

  /** The command is well formed and named, its name is open to the client, and its operation succeeds. */
  ghost predicate CanObey(s: State, owner: Connection, c: Command) {
    && c.Command? && Name(c.name).Some? && (NeedsAccess(c.operation) ==> c.permitted)
    && CanOperate(s, owner, Name(c.name).value, c.operation)
  }

  lemma ObeysIff(s: State, owner: Connection, c: Command, now: nat)
    requires Invariant(s) && Fits(s, Obey(owner, c, now))
    ensures Execute(s, owner, c, now).1 <==> CanObey(s, owner, c)
  {
    hide Invariant, Operate, CanOperate, Name;
    if c.Command? && Name(c.name).Some? { OperatesIff(s, owner, Name(c.name).value, c.operation, now); }
  }

  /** The operations whose names the access rules are asked about. */
  predicate IsGuarded(op: Operation) {
    match op
    case AdvertiseTopic(_, _) => true
    case PublishMessage(_, _) => true
    case SubscribeTopic(_, _, _) => true
    case CallRemote(_, _, _, _, _) => true
    case OfferService(_, _) => true
    case StartGoal(_, _, _) => true
    case OfferAction(_, _) => true
    case _ => false
  }

  /** Whatever the access rules refuse is answered with a failure and changes nothing. */
  lemma AccessIsChecked(s: State, owner: Connection, c: Command, now: nat)
    requires owner in s.desk.outputs && c.Command? && IsGuarded(c.operation) && !c.permitted
    ensures OnCommand(s, owner, c, now) == SendTo(s, owner, Failure(c.id))
  {
    hide Operate;
  }
}

/** What becomes of the bridge's records when requests, commands and messages get through (src/bridge). */
module BridgeEffects {
  import opened Basics
  import opened Backend
  import opened BridgeState
  import opened BridgeTopics
  import opened BridgeServices
  import opened BridgeActions
  import opened BridgeMoves
  import opened BridgeShapes
  import opened BridgeSuccess
  import opened BridgeRuns
  import Delivery
  import Goals = BridgeServerGoals
  import Lookup = BridgeLookups
  import Own = BridgeOwnership
  import Requests = BridgeRequests

  // ---------- native requests on actions ----------

  /** The action's goals changed, and apart from that only messages and the backend. */
  ghost predicate OnlyGoals(s: State, t: State, r: Native) {
    t == s.(servers := s.servers.(serverGoals := t.servers.serverGoals), desk := t.desk, ros := t.ros,
            unhandled := s.unhandled - {r})
  }

  /**
   A submission under a new UUID that can be answered is one new goal, accepted, with its time and a
   fresh id; any other changes no goal. Either way its native request is over.
   */
  ghost predicate Submitted(s: State, t: State, a: string, uuid: Option<Uuid>, stamp: (int, nat), r: Native)
    requires a in s.servers.actionServers
  {
    var goals, id := s.servers.serverGoals, UniqueName(s.desk.next + 1);
    && OnlyGoals(s, t, r) && t.ros.requests == s.ros.requests - {r} && t.ros.live == s.ros.live
    && if uuid.Some? && (a, uuid.value) !in goals && s.ros.AllSucceed(1) then
         && t.servers.serverGoals
            == goals[(a, uuid.value) := ServerGoal(s.servers.actionServers[a].owner, id, 2, stamp, None, [], None)]
         && forall k :: k in goals ==> goals[k].id != id
       else t.servers.serverGoals == goals
  }

  /** A request for a result to come joins the queue of its goal; any other is over, and changes no goal. */
  ghost predicate AskedFor(s: State, t: State, a: string, uuid: Option<Uuid>, r: Native) {
    var goals := s.servers.serverGoals;
    && OnlyGoals(s, t, r) && t.ros.live == s.ros.live
    && if uuid.Some? && (a, uuid.value) in goals && goals[(a, uuid.value)].result.None? then
         var g := goals[(a, uuid.value)];
         && t.servers.serverGoals == goals[(a, uuid.value) := g.(requests := g.requests + [r])]
         && t.ros.requests == s.ros.requests
       else t.servers.serverGoals == goals && t.ros.requests == s.ros.requests - {r}
  }

  /** A cancel request takes its goals to the status 3 whether or not it can be answered, and is over. */
  ghost predicate AskedToCancel(s: State, t: State, a: string, ask: Option<CancelAsk>, r: Native) {
    var goals := s.servers.serverGoals;
    && OnlyGoals(s, t, r) && t.ros.live == s.ros.live && t.ros.requests == s.ros.requests - {r}
    && t.servers.serverGoals.Keys == goals.Keys
    && forall k :: k in goals ==>
         if ask.Some? && k.0 == a && goals[k].result.None? && Chosen(k.1, goals[k].stamp, ask.value)
         then t.servers.serverGoals[k] == goals[k].(status := 3)
         else t.servers.serverGoals[k] == goals[k]
  }

  ghost predicate PartDone(s: State, t: State, a: string, p: Part, asked: Asked, r: Native)
    requires a in s.servers.actionServers
  {
    match p
    case Send => Submitted(s, t, a, asked.uuid, asked.stamp, r)
    case Result => AskedFor(s, t, a, asked.uuid, r)
    case Cancel => AskedToCancel(s, t, a, asked.cancel, r)
    case _ => true
  }

  /** A request on a service waits under a new id for the service's owner, until its time is over. */
  ghost predicate Forwarded(s: State, t: State, name: string, request: nat, now: nat)
    requires name in s.rpc.services
  {
    var service := s.rpc.services[name];
    var id := RequestId(name, service.nextRequest + 1);
    && id !in s.rpc.external
    && t == s.(desk := t.desk, unhandled := s.unhandled - {(service.entity, request)}, rpc := s.rpc.(
           services := s.rpc.services[name := service.(nextRequest := service.nextRequest + 1)],
           external := s.rpc.external[
             id := External(service.owner, service.entity, request, name, now + s.timeout)]))
  }

  function Outcome(s: State, e: Entity, a: string, p: Part, request: nat, asked: Asked): State
    requires a in s.servers.actionServers && forall k :: k in asked.notices ==> k in s.servers.serverGoals
  {
    DiscardOnError(RequestOnAction(Handling(s, (e, request)), a, p, request, asked), e, request)
  }

  predicate IsNewGoal(s: State, a: string, uuid: Option<Uuid>) {
    uuid.Some? && (a, uuid.value) !in s.servers.serverGoals && s.ros.fate(s.ros.calls)
  }

  lemma SubmitAccepted(s: State, e: Entity, a: string, request: nat, asked: Asked)
    requires ServesPart(s, e, a, Send) && (e, request) in s.ros.requests && e in s.ros.live
    requires forall k :: k in asked.notices ==> k in s.servers.serverGoals
    requires IsNewGoal(s, a, asked.uuid)
    ensures var t, r := Outcome(s, e, a, Send, request, asked), (e, request);
      && OnlyGoals(s, t, r) && t.ros.requests == s.ros.requests - {r} && t.ros.live == s.ros.live
      && t.servers.serverGoals
         == s.servers.serverGoals[(a, asked.uuid.value) := ServerGoal(s.servers.actionServers[a].owner,
              UniqueName(s.desk.next + 1), 2, asked.stamp, None, [], None)]
  {
    hide Post, UniqueName, PublishStatus, StatusOf;
    var n, owner := s.desk.next + 1, s.servers.actionServers[a].owner;
    var goal := ServerGoal(owner, UniqueName(n), 2, asked.stamp, None, [], None);
    var desk := Post(s.desk.(next := n), owner, GoalRequest(UniqueName(n), a));
    var s1 := Handling(s, (e, request));
    var s2 := s1.(desk := desk, ros := s1.ros.Respond(e, request, GoalAnswer(true, asked.stamp)).0,
      servers := s1.servers.(serverGoals := s1.servers.serverGoals[(a, asked.uuid.value) := goal]));
    AfterStatus(s2, a);
    assert RequestOnAction(s1, a, Send, request, asked) == PublishStatus(s2, a);
  }

  lemma SubmitRefused(s: State, e: Entity, a: string, request: nat, asked: Asked)
    requires ServesPart(s, e, a, Send) && (e, request) in s.ros.requests && e in s.ros.live
    requires forall k :: k in asked.notices ==> k in s.servers.serverGoals
    requires !IsNewGoal(s, a, asked.uuid)
    ensures var t, r := Outcome(s, e, a, Send, request, asked), (e, request);
      && OnlyGoals(s, t, r) && t.ros.requests == s.ros.requests - {r} && t.ros.live == s.ros.live
      && t.servers.serverGoals == s.servers.serverGoals
  {
    hide Post, UniqueName, PublishStatus, StatusOf;
  }

  lemma SubmitDone(s: State, e: Entity, a: string, request: nat, asked: Asked)
    requires Invariant(s) && ServesPart(s, e, a, Send) && (e, request) in s.ros.requests && e in s.ros.live
    requires forall k :: k in asked.notices ==> k in s.servers.serverGoals
    ensures Submitted(s, Outcome(s, e, a, Send, request, asked), a, asked.uuid, asked.stamp, (e, request))
  {
    assert Goals.Numbered(s.servers.serverGoals, s.desk.next);
    hide Invariant, UniqueName, Goals.Numbered, Outcome;
    NextIsNew(s);
    assert s.ros.AllSucceed(1) <==> s.ros.fate(s.ros.calls);
    if IsNewGoal(s, a, asked.uuid) { SubmitAccepted(s, e, a, request, asked); }
    else { SubmitRefused(s, e, a, request, asked); }
  }

  lemma AfterStatus(s: State, a: string)
    ensures var (t, _) := PublishStatus(s, a);
      t == s.(ros := t.ros) && t.ros.requests == s.ros.requests && t.ros.live == s.ros.live
  {
  }

  lemma NextIsNew(s: State)
    requires Goals.Numbered(s.servers.serverGoals, s.desk.next)
    ensures forall k :: k in s.servers.serverGoals ==> s.servers.serverGoals[k].id != UniqueName(s.desk.next + 1)
  {
    forall k | k in s.servers.serverGoals ensures s.servers.serverGoals[k].id != UniqueName(s.desk.next + 1) {
      Goals.NextIsUnused(s.servers.serverGoals, s.desk.next, k);
    }
  }

  lemma AskDone(s: State, e: Entity, a: string, request: nat, asked: Asked)
    requires ServesPart(s, e, a, Result) && (e, request) in s.ros.requests && e in s.ros.live
    requires forall k :: k in asked.notices ==> k in s.servers.serverGoals
    ensures AskedFor(s, Outcome(s, e, a, Result, request, asked), a, asked.uuid, (e, request))
  {
  }

  lemma CancelDone(s: State, e: Entity, a: string, request: nat, asked: Asked)
    requires ServesPart(s, e, a, Cancel) && (e, request) in s.ros.requests && e in s.ros.live
    requires forall k :: k in asked.notices ==> k in s.servers.serverGoals
    ensures AskedToCancel(s, Outcome(s, e, a, Cancel, request, asked), a, asked.cancel, (e, request))
  {
    hide Post, PostAll, CancelNotices, PublishStatus, Chosen;
    var s1 := Handling(s, (e, request));
    if asked.cancel.Some? {
      var goals := Marked(s.servers.serverGoals, Cancelled(s.servers.serverGoals, a, asked.cancel.value));
      var answer := CancelAnswerOf(s.servers.serverGoals, a, asked.cancel.value, asked.notices);
      var marked := s1.(servers := s1.servers.(serverGoals := goals), ros := s1.ros.Respond(e, request, answer).0);
      var owner := s.servers.actionServers[a].owner;
      AfterStatus(SendAll(marked, CancelNotices(s.servers.serverGoals, owner, a, asked.notices)), a);
    }
  }

  /** What a native request on an action comes to. */
  lemma ActionRequestDone(s: State, e: Entity, request: nat, asked: Asked, now: nat, a: string, p: Part)
    requires Invariant(s) && Fits(s, Serve(e, request, asked, now)) && ServesPart(s, e, a, p)
    ensures PartDone(s, Do(s, Serve(e, request, asked, now)), a, p, asked, (e, request))
  {
    InvariantParts(s);
    hide Invariant, OnRequest, RequestOnAction, DiscardOnError, Submitted, AskedFor, AskedToCancel, Lists, Cancelled,
      Own.Owned, Requests.Complete;
    Own.ServedEntityLives(s, Own.OfServer(a, p), e);
    Lookup.ServedPartIs(s, e, request, asked, now, a, p);
    UnhandledIsOutstanding(s, e, request);
    match p
    case Send => SubmitDone(s, e, a, request, asked);
    case Result => AskDone(s, e, a, request, asked);
    case Cancel => CancelDone(s, e, a, request, asked);
    case _ =>
  }

  lemma UnhandledIsOutstanding(s: State, e: Entity, request: nat)
    requires Requests.Complete(s) && (e, request) in s.unhandled && e in s.ros.live
    ensures (e, request) in s.ros.requests
  {
    hide Requests.Conserved, Requests.Filed;
  }

  lemma ForwardDone(s: State, name: string, request: nat, now: nat)
    requires name in s.rpc.services && Requests.Filed(s.rpc)
    ensures var r := (s.rpc.services[name].entity, request);
      Forwarded(s, ForwardRequest(Handling(s, r), name, request, now), name, request, now)
  {
    hide ForwardRequest, RequestId, Requests.Filed;
    ForwardRequestShape(Handling(s, (s.rpc.services[name].entity, request)), name, request, now);
    Requests.NextIdIsFree(s.rpc, name);
  }

  /** What a native request on a service comes to. */
  lemma ServiceRequestDone(s: State, e: Entity, request: nat, asked: Asked, now: nat, name: string)
    requires Invariant(s) && Fits(s, Serve(e, request, asked, now)) && Serves(s, e, name)
    ensures Forwarded(s, Do(s, Serve(e, request, asked, now)), name, request, now)
  {
    InvariantParts(s);
    hide Invariant, OnRequest, Lists, Cancelled, Own.Owned, Requests.Complete, Forwarded, ForwardRequest,
      Requests.Filed;
    NoPartToo(s, e, name);
    Lookup.ServedServiceIs(s, e, request, asked, now, name);
    CompleteIsFiled(s);
    ForwardDone(s, name, request, now);
  }

  lemma CompleteIsFiled(s: State)
    requires Requests.Complete(s)
    ensures Requests.Filed(s.rpc)
  {
  }

  lemma NoPartToo(s: State, e: Entity, n: string)
    requires Own.Owned(s) && Serves(s, e, n)
    ensures !exists a, p :: ServesPart(s, e, a, p)
  {
    forall a, p ensures !ServesPart(s, e, a, p) {
      assert Own.Holder(Own.RecordsOf(s), Own.OfService(n)) == Some(e);
      assert ServesPart(s, e, a, p) ==> Own.Holder(Own.RecordsOf(s), Own.OfServer(a, p)) == Some(e);
    }
  }

  // ---------- services and actions come and go ----------

  /** The services but this one are as they were. */
  ghost predicate OtherServices(s: State, t: State, name: string) {
    && t == s.(rpc := s.rpc.(services := t.rpc.services, external := t.rpc.external), ros := t.ros)
    && forall n :: n != name ==>
         && (n in t.rpc.services <==> n in s.rpc.services)
         && (n in s.rpc.services ==> t.rpc.services[n] == s.rpc.services[n])
  }

  /** The requests that wait on this entity are given up, and no others. */
  ghost predicate GaveUp(s: State, t: State, e: Entity) {
    && (forall id :: id in t.rpc.external <==> id in s.rpc.external && s.rpc.external[id].entity != e)
    && forall id :: id in t.rpc.external ==> t.rpc.external[id] == s.rpc.external[id]
  }

  /** A service that is offered is the client's, of this type, and new unless it was that before. */
  lemma ServiceComes(s: State, owner: Connection, name: string, typ: string)
    ensures var (t, ok) := AdvertiseService(s, owner, name, typ);
      && OtherServices(s, t, name)
      && (ok ==> && name in t.rpc.services && t.rpc.services[name].owner == owner && t.rpc.services[name].typ == typ
                 && (if name in s.rpc.services && s.rpc.services[name].typ == typ then t == s
                     else t.rpc.services[name] == Service(0, owner, s.ros.nextEntity, typ)))
      && (OwnService(s, owner, name) && t != s ==> GaveUp(s, t, s.rpc.services[name].entity))
      && (!OwnService(s, owner, name) ==> t.rpc.external == s.rpc.external)
      && (name in s.rpc.services && !OwnService(s, owner, name) ==> t == s)
  {
  }

  /** A service that is withdrawn is gone with its entity and with what waits on it. */
  lemma ServiceGoes(s: State, owner: Connection, name: string)
    ensures var (t, ok) := RemoveService(s, owner, name);
      && (!ok ==> t == s)
      && (ok ==> && OwnService(s, owner, name) && OtherServices(s, t, name) && name !in t.rpc.services
                 && GaveUp(s, t, s.rpc.services[name].entity)
                 && t.ros == s.ros.Destroy(s.rpc.services[name].entity))
  {
  }

  /** The actions but this one are as they were, with their goals. */
  ghost predicate OtherActions(s: State, t: State, action: string) {
    && t == s.(servers := t.servers, ros := t.ros)
    && (forall a :: a != action ==>
          && (a in t.servers.actionServers <==> a in s.servers.actionServers)
          && (a in s.servers.actionServers ==> t.servers.actionServers[a] == s.servers.actionServers[a]))
    && forall k: GoalKey :: k.0 != action ==>
         && (k in t.servers.serverGoals <==> k in s.servers.serverGoals)
         && (k in s.servers.serverGoals ==> t.servers.serverGoals[k] == s.servers.serverGoals[k])
  }

  ghost predicate NoGoals(t: State, action: string) {
    forall k :: k in t.servers.serverGoals ==> k.0 != action
  }

  /** An action that is withdrawn is gone with its five entities and with its goals. */
  lemma ActionGoes(s: State, owner: Connection, action: string, keys: seq<GoalKey>)
    requires Lists(keys, GoalsOf(s.servers.serverGoals, action))
    ensures var (t, ok) := RemoveAction(s, owner, action, keys);
      && (!ok ==> t == s)
      && (ok ==> && OwnAction(s, owner, action) && OtherActions(s, t, action)
                 && action !in t.servers.actionServers && NoGoals(t, action)
                 && t.ros.live == s.ros.live - s.servers.actionServers[action].five.All())
  {
    DropGoalsShape(s, keys);
    hide DropGoals, Five.All;
  }

  /** The action has a server with five entities of its own, all of them new, and no goals yet. */
  ghost predicate NewServer(t: State, owner: Connection, action: string, typ: string, next: Entity) {
    && action in t.servers.actionServers && var server := t.servers.actionServers[action];
    && server == ActionServer(owner, typ, server.five) && NoGoals(t, action)
    && Distinct(server.five) && forall e :: e in server.five.All() ==> next <= e
  }

  lemma OpenComes(s: State, owner: Connection, action: string, typ: string)
    requires s.ros.Valid() && NoGoals(s, action)
    ensures var (t, ok) := OpenAction(s, owner, action, typ);
      OtherActions(s, t, action) && (ok ==> NewServer(t, owner, action, typ, s.ros.nextEntity))
  {
    OpenActionShape(s, owner, action, typ);
    hide OpenAction, Five.All, Distinct;
  }

  lemma OthersTwice(s: State, t: State, u: State, action: string)
    requires OtherActions(s, t, action) && OtherActions(t, u, action)
    ensures OtherActions(s, u, action)
  {
  }

  lemma OthersSelf(s: State, action: string)
    ensures OtherActions(s, s, action)
  {
  }

  /** An action that is offered is the client's, of this type, and new and without goals unless it was that before. */
  lemma ActionComes(s: State, owner: Connection, action: string, typ: string, keys: seq<GoalKey>)
    requires Own.Owned(s) && Requests.Complete(s) && Goals.Sound(s.servers)
    requires Lists(keys, GoalsOf(s.servers.serverGoals, action))
    ensures var (t, ok) := AdvertiseAction(s, owner, action, typ, keys);
      && OtherActions(s, t, action)
      && (ok ==>
            if action in s.servers.actionServers && s.servers.actionServers[action].typ == typ
            then t == s && OwnAction(s, owner, action)
            else NewServer(t, owner, action, typ, s.ros.nextEntity))
      && (action in s.servers.actionServers && !OwnAction(s, owner, action) ==> t == s)
  {
    assert s.ros.Valid();
    hide Own.Owned, Requests.Complete, Goals.Sound, RemoveAction, OpenAction, Ros.Valid, NewServer, OtherActions, Lists;
    OthersSelf(s, action);
    if action !in s.servers.actionServers {
      NoGoalsUnserved(s, action);
      OpenComes(s, owner, action, typ);
    } else if OwnAction(s, owner, action) && s.servers.actionServers[action].typ != typ {
      ActionGoes(s, owner, action, keys);
      RemovedIsValid(s, owner, action, keys);
      RemovesIff(s, owner, action, keys);
      var s1 := RemoveAction(s, owner, action, keys).0;
      OpenComes(s1, owner, action, typ);
      OthersTwice(s, s1, OpenAction(s1, owner, action, typ).0, action);
    }
  }

  lemma RemovesIff(s: State, owner: Connection, action: string, keys: seq<GoalKey>)
    ensures RemoveAction(s, owner, action, keys).1 <==> OwnAction(s, owner, action)
  {
  }

  lemma RemovedIsValid(s: State, owner: Connection, action: string, keys: seq<GoalKey>)
    requires s.ros.Valid()
    ensures var t := RemoveAction(s, owner, action, keys).0; t.ros.Valid() && t.ros.nextEntity == s.ros.nextEntity
  {
    DropGoalsShape(s, keys);
    hide DropGoals, Five.All;
  }

  lemma NoGoalsUnserved(s: State, action: string)
    requires Goals.Sound(s.servers) && action !in s.servers.actionServers
    ensures NoGoals(s, action)
  {
    forall k | k in s.servers.serverGoals ensures k.0 != action {
      assert Goals.Served(s.servers, k);
    }
  }

  // ---------- goals ----------

  /** A goal that is told to stop is marked, and one request more is out for it. */
  lemma GoalStops(s: State, goal: Uuid)
    ensures var (t, ok) := CancelGoal(s, Some(goal));
      && (!ok ==> t == s.(ros := t.ros))
      && (ok ==> && goal in s.actions.goals && var g := s.actions.goals[goal];
                 && g.accepted && !g.cancelling
                 && t == s.(ros := t.ros, actions := s.actions.(
                        goals := s.actions.goals[goal := g.(cancelling := true)],
                        actionCalls := s.actions.actionCalls[
                          (g.five.cancel, s.ros.nextSequence) := ActionCall(Part.Cancel, goal)])))
  {
  }

  /**
   A result is kept, with its status and its time, exactly if it is the first, is final and everybody
   who waits for it was answered; then nobody waits any more.
   */
  lemma ResultIsKept(s: State, key: GoalKey, status: int, values: string, now: nat)
    requires Own.Owned(s) && Requests.Complete(s) && key in s.servers.serverGoals
    ensures var t := ActionResult(s, key, status, values, now).0;
      var g := s.servers.serverGoals[key];
      && t == s.(servers := s.servers.(serverGoals := s.servers.serverGoals[key := t.servers.serverGoals[key]]),
                 ros := t.ros)
      && if 4 <= status <= 6 && g.result.None? && s.ros.AllSucceed(|g.requests| + 1) then
           t.servers.serverGoals[key]
             == g.(requests := [], status := status, result := Some(values), completed := Some(now))
         else
           && t.servers.serverGoals[key].requests <= g.requests
           && t.servers.serverGoals[key] == g.(requests := t.servers.serverGoals[key].requests)
  {
    var g := s.servers.serverGoals[key];
    WaitersAreOutstanding(s, key);
    hide Own.Owned, Requests.Complete, Drain, PublishStatus;
    var ros := s.ros.Query().0;
    OutstandingStill(s.ros, ros, g.requests);
    DrainsIff(ros, g.requests, ResultAnswer(status, values));
    OneAndMore(s.ros, |g.requests|);
    var kept := g.(requests := [], status := status, result := Some(values), completed := Some(now));
    AfterStatus(s.(ros := Drain(ros, g.requests, ResultAnswer(status, values)).0,
                   servers := s.servers.(serverGoals := s.servers.serverGoals[key := kept])), key.0);
    assert s.servers.serverGoals == s.servers.serverGoals[key := g];
  }

  lemma OutstandingStill(a: Ros, b: Ros, requests: seq<Native>)
    requires AllOutstanding(a, requests) && b.requests == a.requests && b.live == a.live
    ensures AllOutstanding(b, requests)
  {
  }

  lemma OneAndMore(a: Ros, n: nat)
    ensures a.AllSucceed(n + 1) <==> a.Succeeds() && a.Query().0.AllSucceed(n)
  {
  }

  /** A result is forgotten a minute after it came, and nothing else is. */
  lemma ResultsAreForgotten(s: State, now: nat)
    ensures var t := Do(s, ForgetResults(now));
      && t == s.(servers := s.servers.(serverGoals := t.servers.serverGoals))
      && (forall k :: k in t.servers.serverGoals <==>
            k in s.servers.serverGoals && var g := s.servers.serverGoals[k];
            g.completed.Some? ==> now - g.completed.value < 60000)
      && forall k :: k in t.servers.serverGoals ==> t.servers.serverGoals[k] == s.servers.serverGoals[k]
  {
  }

  // ---------- messages and time ----------

  /** The topic's sample is this one if the topic is durable, every client was offered it, and no other topic was. */
  ghost predicate Offered(a: map<string, Subscription>, b: map<string, Subscription>, topic: string,
                          m: Delivery.Message, now: nat)
    requires topic in a
  {
    && b.Keys == a.Keys && (forall u :: u in a && u != topic ==> b[u] == a[u])
    && b[topic].retained == (if a[topic].transientLocal then Some(m) else a[topic].retained)
    && b[topic] == a[topic].(retained := b[topic].retained, clients := b[topic].clients)
    && b[topic].clients.Keys == a[topic].clients.Keys
    && forall c :: c in a[topic].clients ==>
         b[topic].clients[c] == Delivery.Arrive(a[topic].clients[c], m, now).0
  }

  lemma OfferedByMessage(s: State, topic: string, m: Delivery.Message, now: nat, order: seq<Connection>)
    requires topic in s.topics.subscriptions
    ensures var t := TopicMessage(s, topic, m, now, order);
      && t == s.(topics := s.topics.(subscriptions := t.topics.subscriptions), desk := t.desk)
      && Offered(s.topics.subscriptions, t.topics.subscriptions, topic, m, now)
  {
    hide Delivery.Arrive, PostAll;
  }

  /** A message becomes its topic's retained sample exactly if the topic is durable, and goes to no other topic. */
  lemma SampleIsKept(s: State, e: Entity, m: Delivery.Message, now: nat, order: seq<Connection>, topic: string)
    requires Invariant(s) && Subscribed(s, e, topic) && HearFits(s, e, m, now, order)
    ensures var t := Do(s, Hear(e, m, now, order));
      && t == s.(topics := s.topics.(subscriptions := t.topics.subscriptions), desk := t.desk)
      && Offered(s.topics.subscriptions, t.topics.subscriptions, topic, m, now)
  {
    hide Invariant, OnMessage, TopicMessage, HearFits, Offered;
    Lookup.OneTopicOnly(s, e);
    Lookup.SubscribedTopicIs(s, e, m, now, order, topic);
    OfferedByMessage(s, topic, m, now, order);
  }

  /** A request nobody answered in time is given up, and no other. */
  lemma RequestExpires(s: State, id: string)
    requires id in s.rpc.external
    ensures var t, x := Do(s, RequestTimeout(id)), s.rpc.external[id];
      && t == s.(rpc := s.rpc.(external := t.rpc.external), ros := t.ros)
      && t.ros == s.ros.(requests := s.ros.requests - {(x.entity, x.request)})
      && (forall k :: k in t.rpc.external <==> k in s.rpc.external && k != id)
      && forall k :: k in t.rpc.external ==> t.rpc.external[k] == s.rpc.external[k]
  {
  }

  /** Every client that is due lost its oldest message, now; the others are as they were. */
  ghost predicate ServedIfDue(a: map<string, Subscription>, b: map<string, Subscription>, u: string, c: Connection,
                              due: bool, now: nat)
    requires u in a && u in b && c in a[u].clients && c in b[u].clients
  {
    var x := a[u].clients[c];
    if due then x.pending != [] && b[u].clients[c] == x.(last := Some(now), pending := x.pending[1..])
    else b[u].clients[c] == x
  }

  ghost predicate DeliveredFrom(a: map<string, Subscription>, b: map<string, Subscription>, now: nat) {
    && b.Keys == a.Keys
    && forall u :: u in a ==>
         && b[u] == a[u].(clients := b[u].clients) && b[u].clients.Keys == a[u].clients.Keys
         && forall c :: c in a[u].clients ==> ServedIfDue(a, b, u, c, IsDue(a, (u, c), now), now)
  }

  /** Delivering takes its oldest message from every client that is due, and leaves the others alone. */
  lemma DueArePopped(s: State, due: seq<(string, Connection)>, now: nat)
    requires Fits(s, Deliver(due, now))
    ensures var a, t := s.topics.subscriptions, Do(s, Deliver(due, now));
      && t == s.(topics := s.topics.(subscriptions := t.topics.subscriptions), desk := t.desk)
      && DeliveredFrom(a, t.topics.subscriptions, now)
  {
    hide DueMessages, PostAll, DuePlaces, Lists, Delivery.Merged;
  }
}

/** The bridge with its tables, as one worker updates them in place (src/bridge). */
module BridgeObject {
  import opened Basics
  import opened Backend
  import opened BridgeState
  import Delivery
  import Topic = BridgeTopics
  import Rpcs = BridgeServices
  import Action = BridgeActions
  import Move = BridgeMoves
  import Leaving = BridgeLeaving
  import Ticks = BridgeTicks
  import Polls = BridgePolls
  import Lookup = BridgeLookups
  import Runs = BridgeRuns
  import Owners = BridgeOwners
  import Goals = BridgeServerGoals
  import Tracks = BridgeClientGoals

  class Bridge {
    var outputs: set<Connection>
    var failed: set<Connection>
    var next: nat
    var wire: Wire
    var publishers: map<string, Publisher>
    var subscriptions: map<string, Subscription>
    var services: map<string, Service>
    var calls: map<Ticket, Call>
    var external: map<string, External>
    var goals: map<Uuid, ClientGoal>
    var actionCalls: map<Ticket, ActionCall>
    var actionServers: map<string, ActionServer>
    var serverGoals: map<GoalKey, ServerGoal>
    var ros: Ros
    const timeout: nat
    ghost var issued: set<Uuid>
    ghost var stranded: set<Uuid>
    ghost var unhandled: set<Native>

    ghost function View(): State
      reads this
    {
      State(Desk(outputs, failed, next, wire), Topics(publishers, subscriptions), Rpc(services, calls, external),
            Actions(goals, actionCalls, issued, stranded), Servers(actionServers, serverGoals), ros,
            unhandled, timeout)
    }

    ghost predicate Valid()
      reads this
    {
      Runs.Invariant(View())
    }

    constructor (ros: Ros, timeout: nat, accepts: nat -> bool)
      ensures View() == Initial(ros, timeout, accepts)
      ensures ros.live == {} && ros.requests == {} ==> Valid()
    {
      outputs, failed, next, wire := {}, {}, 0, Wire([], accepts);
      publishers, subscriptions := map[], map[];
      services, calls, external := map[], map[], map[];
      goals, actionCalls, issued, stranded := map[], map[], {}, {};
      actionServers, serverGoals := map[], map[];
      this.ros, unhandled, this.timeout := ros, {}, timeout;
      new;
      if ros.live == {} && ros.requests == {} {
        Runs.InitiallyInvariant(ros, timeout, accepts);
      }
    }

    // ---------- sending ----------

    method Send(owner: Connection, body: Body)
      modifies this`failed, this`next, this`wire
      ensures View() == SendTo(old(View()), owner, body)
    {
      if owner in failed { return; }
      next := next + 1;
      if owner in outputs {
        var accepted := wire.accepts(|wire.sent|);
        wire := wire.(sent := wire.sent + [Sent(owner, body)]);
        if !accepted { failed := failed + {owner}; }
      }
    }

    method SendEach(messages: seq<Sent>)
      modifies this`failed, this`next, this`wire
      ensures View() == SendAll(old(View()), messages)
    {
      var i := 0;
      assert messages[..0] == [];
      while i < |messages|
        invariant 0 <= i <= |messages|
        invariant View() == SendAll(old(View()), messages[..i])
      {
        assert messages[..i + 1][..i] == messages[..i];
        Send(messages[i].owner, messages[i].body);
        i := i + 1;
      }
      assert messages[..|messages|] == messages;
    }

    // ---------- topics ----------

    method Advertise(owner: Connection, topic: string, id: Id, setup: Topic.Setup) returns (ok: bool)
      modifies this`publishers, this`ros
      ensures (View(), ok) == Topic.Advertise(old(View()), owner, topic, id, setup)
    {
      hide Resolve, Ros.Query, Ros.Create;
      if topic in publishers {
        var p := publishers[topic];
        if setup.declared.Invalid? { return false; }
        if setup.declared.Type? && setup.declared.name != p.typ { return false; }
        var ids := if owner in p.owners then p.owners[owner] else {};
        publishers := publishers[topic := p.(owners := p.owners[owner := ids + {id}])];
        return true;
      }
      var listed := ros.Query();
      ros := listed.0;
      if !listed.1 { return false; }
      var typ := Resolve(setup.declared, setup.known);
      if typ.None? || setup.settings.BadSettings? { return false; }
      var created := ros.Create();
      ros := created.0;
      if created.1.None? { return false; }
      publishers := publishers[topic := Publisher(created.1.value, typ.value, map[owner := {id}])];
      return true;
    }

    method Unadvertise(owner: Connection, topic: string, id: Id) returns (ok: bool)
      modifies this`publishers, this`ros
      ensures (View(), ok) == Topic.Unadvertise(old(View()), owner, topic, id)
    {
      if topic !in publishers || owner !in publishers[topic].owners { return false; }
      var p := publishers[topic];
      var ids := p.owners[owner];
      if id.Some? {
        if id !in ids { return false; }
        ids := ids - {id};
      } else {
        ids := {};
      }
      var owners := if ids == {} then p.owners - {owner} else p.owners[owner := ids];
      if owners == map[] {
        publishers := publishers - {topic};
        ros := ros.Destroy(p.entity);
      } else {
        publishers := publishers[topic := p.(owners := owners)];
      }
      return true;
    }

    method PublishTo(owner: Connection, topic: string, id: Id, setup: Topic.Setup) returns (ok: bool)
      modifies this`publishers, this`ros
      ensures (View(), ok) == Topic.PublishTo(old(View()), owner, topic, id, setup)
    {
      ok := Advertise(owner, topic, id, setup);
      if ok && topic in publishers {
        var published := ros.Publish(publishers[topic].entity);
        ros := published.0;
        return published.1;
      }
      return false;
    }

    method OpenTopic(topic: string, setup: Topic.Setup) returns (ok: bool)
      modifies this`subscriptions, this`ros
      ensures (View(), ok) == Topic.OpenTopic(old(View()), topic, setup)
    {
      hide Resolve, Ros.Query, Ros.Create;
      var listed := ros.Query();
      ros := listed.0;
      if !listed.1 { return false; }
      var typ := Resolve(setup.declared, setup.known);
      if typ.None? { return false; }
      if topic in subscriptions { return subscriptions[topic].typ == typ.value; }
      var durable;
      match setup.settings {
        case BadSettings => return false;
        case Durable(transientLocal) => durable := transientLocal;
        case NoSettings(offered) =>
          var asked := ros.Query();
          ros := asked.0;
          if !asked.1 { return false; }
          durable := offered;
      }
      var created := ros.Create();
      ros := created.0;
      if created.1.None? { return false; }
      subscriptions := subscriptions[topic := Subscription(durable, None, created.1.value, typ.value, map[])];
      return true;
    }

    method Subscribe(owner: Connection, topic: string, id: Id, options: Delivery.Options, setup: Topic.Setup,
                     now: nat)
      returns (ok: bool)
      modifies this`subscriptions, this`ros, this`failed, this`next, this`wire
      ensures (View(), ok) == Topic.Subscribe(old(View()), owner, topic, id, options, setup, now)
    {
      ok := OpenTopic(topic, setup);
      if !ok || topic !in subscriptions { return false; }
      var sub := subscriptions[topic];
      if owner in sub.clients {
        var c := sub.clients[owner];
        c := c.(registrations := c.registrations[id := options]);
        subscriptions := subscriptions[topic := sub.(clients := sub.clients[owner := c])];
      } else {
        var c := Delivery.Join(id, options, sub.retained, now);
        subscriptions := subscriptions[topic := sub.(clients := sub.clients[owner := c])];
        if sub.retained.Some? { Send(owner, Publish(topic, sub.retained.value)); }
      }
      return true;
    }

    method Unsubscribe(owner: Connection, topic: string, id: Id) returns (ok: bool)
      modifies this`subscriptions, this`ros
      ensures (View(), ok) == Topic.Unsubscribe(old(View()), owner, topic, id)
    {
      if topic !in subscriptions || owner !in subscriptions[topic].clients { return false; }
      var sub := subscriptions[topic];
      var c := sub.clients[owner];
      if id.Some? && id !in c.registrations { return false; }
      var rest := if id.Some? then c.registrations - {id} else map[];
      var clients := if rest == map[] then sub.clients - {owner} else sub.clients[owner := c.(registrations := rest)];
      if clients == map[] {
        subscriptions := subscriptions - {topic};
        ros := ros.Destroy(sub.entity);
      } else {
        subscriptions := subscriptions[topic := sub.(clients := clients)];
      }
      return true;
    }

    /** The merged options, computed over the registrations in whatever order they come. */
    method MergedOptions(c: Delivery.Client) returns (options: Delivery.Options)
      ensures options == c.Options()
    {
      var order: seq<Delivery.Options> := [];
      var todo := c.registrations.Keys;
      while todo != {}
        invariant todo <= c.registrations.Keys
        invariant forall o :: o in order <==> exists k :: k in c.registrations && k !in todo && c.registrations[k] == o
        decreases todo
      {
        var k :| k in todo;
        todo := todo - {k};
        order := order + [c.registrations[k]];
      }
      Delivery.MergeIgnoresOrder(order, c.registrations.Values);
      options := Delivery.InOrder(order);
    }

    /** A message for one client: sent at once, queued behind the others, or dropped. */
    method Offer(c: Delivery.Client, m: Delivery.Message, now: nat)
      returns (c': Delivery.Client, out: Option<Delivery.Message>)
      ensures (c', out) == Delivery.Arrive(c, m, now)
    {
      var options := MergedOptions(c);
      if c.pending == [] && (c.last.None? || Delivery.Since(now, c.last.value) >= options.throttle) {
        return c.(last := Some(now)), Some(m);
      }
      if options.queue > 0 {
        var pending := c.pending;
        while |pending| >= options.queue
          invariant |pending| + 1 >= options.queue || pending == c.pending
          invariant |pending| <= |c.pending| && pending == c.pending[|c.pending| - |pending|..]
        {
          pending := pending[1..];
        }
        return c.(pending := pending + [m]), None;
      }
      return c, None;
    }

    /** A message is offered to every client of a topic; those it goes to at once are listed. */
    method OfferAll(sub: Subscription, m: Delivery.Message, now: nat)
      returns (clients: map<Connection, Delivery.Client>, receivers: seq<Connection>)
      ensures clients == Topic.Arrived(sub, m, now).clients
      ensures Lists(receivers, Topic.Receivers(sub, m, now))
    {
      hide Delivery.Arrive;
      clients, receivers := sub.clients, [];
      var todo := sub.clients.Keys;
      while todo != {}
        invariant todo <= sub.clients.Keys && clients.Keys == sub.clients.Keys
        invariant forall c :: c in sub.clients ==>
          clients[c] == if c in todo then sub.clients[c] else Delivery.Arrive(sub.clients[c], m, now).0
        invariant forall c :: c in receivers <==>
          c in sub.clients && c !in todo && Delivery.Arrive(sub.clients[c], m, now).1.Some?
        invariant forall i, j :: 0 <= i < j < |receivers| ==> receivers[i] != receivers[j]
        decreases todo
      {
        var c :| c in todo;
        todo := todo - {c};
        var offered, out := Offer(sub.clients[c], m, now);
        clients := clients[c := offered];
        if out.Some? { receivers := receivers + [c]; }
      }
    }

    /** The message of a topic is kept if asked for, offered to all, and sent on. */
    method TopicMessage(topic: string, m: Delivery.Message, now: nat) returns (ghost order: seq<Connection>)
      requires topic in subscriptions
      modifies this`subscriptions, this`failed, this`next, this`wire
      ensures Lists(order, Topic.Receivers(old(subscriptions[topic]), m, now))
      ensures View() == Topic.TopicMessage(old(View()), topic, m, now, order)
    {
      hide Delivery.Arrive, PostAll;
      var sub := subscriptions[topic];
      var clients, receivers := OfferAll(sub, m, now);
      var retained := if sub.transientLocal then Some(m) else sub.retained;
      subscriptions := subscriptions[topic := sub.(retained := retained, clients := clients)];
      assert subscriptions[topic] == Topic.Arrived(sub, m, now);
      SendEach(Topic.ToEach(receivers, Publish(topic, m)));
      order := receivers;
    }

    // ---------- services ----------

    method NewCall() returns (ticket: Option<Ticket>)
      modifies this`ros
      ensures (ros, ticket) == Rpcs.NewCall(old(ros))
    {
      var created := ros.Create();
      ros := created.0;
      if created.1.None? { return None; }
      var entity := created.1.value;
      var requested := ros.Request(entity);
      ros := requested.0;
      if requested.1.None? {
        ros := ros.Destroy(entity);
        return None;
      }
      return Some((entity, requested.1.value));
    }

    method CallService(owner: Connection, id: Id, service: string, declared: Declared, known: Option<seq<string>>,
                       permitted: bool, wait: Rpcs.Timeout, now: nat) returns (ok: bool)
      modifies this`calls, this`ros
      ensures (View(), ok) == Rpcs.CallService(old(View()), owner, id, service, declared, known, permitted, wait, now)
    {
      hide Resolve, Ros.Query, Rpcs.NewCall;
      var listed := ros.Query();
      ros := listed.0;
      if !listed.1 { return false; }
      var typ := Resolve(declared, known);
      if typ.None? || !permitted || wait.BadTimeout? { return false; }
      var ticket := NewCall();
      if ticket.None? { return false; }
      var expires := now + if wait.After? then wait.duration else timeout;
      calls := calls[ticket.value := Call(owner, id, service, expires)];
      return true;
    }

    method RemoveService(owner: Connection, name: string) returns (ok: bool)
      modifies this`services, this`external, this`ros
      ensures (View(), ok) == Rpcs.RemoveService(old(View()), owner, name)
    {
      if name !in services || services[name].owner != owner { return false; }
      var entity := services[name].entity;
      services := services - {name};
      ros := ros.Destroy(entity);
      external := map k | k in external && external[k].entity != entity :: external[k];
      return true;
    }

    method AdvertiseService(owner: Connection, name: string, typ: string) returns (ok: bool)
      modifies this`services, this`external, this`ros
      ensures (View(), ok) == Rpcs.AdvertiseService(old(View()), owner, name, typ)
    {
      hide Ros.Query, Ros.Create, Ros.Destroy;
      if name in services {
        if services[name].owner != owner { return false; }
        if services[name].typ == typ { return true; }
        var _ := RemoveService(owner, name);
      }
      var created := ros.Create();
      ros := created.0;
      if created.1.None? { return false; }
      services := services[name := Service(0, owner, created.1.value, typ)];
      return true;
    }

    method ServiceResponse(owner: Connection, id: string, service: string, success: Option<bool>) returns (ok: bool)
      modifies this`external, this`ros
      ensures (View(), ok) == Rpcs.ServiceResponse(old(View()), owner, id, service, success)
    {
      hide Ros.Respond;
      if id !in external { return false; }
      var r := external[id];
      if r.owner != owner || r.service != service || success != Some(true) { return false; }
      var answered := ros.Respond(r.entity, r.request);
      ros := answered.0;
      if answered.1 { external := external - {id}; }
      return answered.1;
    }

    method ForwardRequest(name: string, request: nat, now: nat)
      requires name in services
      modifies this`services, this`external, this`failed, this`next, this`wire
      ensures View() == Rpcs.ForwardRequest(old(View()), name, request, now)
    {
      var service := services[name];
      var n := service.nextRequest + 1;
      services := services[name := service.(nextRequest := n)];
      var id := RequestId(name, n);
      external := external[id := External(service.owner, service.entity, request, name, now + timeout)];
      Send(service.owner, ServiceRequest(id, name));
    }

    method FinishCall(ticket: Ticket, success: bool)
      requires ticket in calls
      modifies this`calls, this`ros, this`failed, this`next, this`wire
      ensures View() == Rpcs.FinishCall(old(View()), ticket, success)
    {
      var c := calls[ticket];
      calls := calls - {ticket};
      Send(c.owner, ServiceReply(ticket, c.service, c.id, success));
      ros := ros.Destroy(ticket.0);
    }

    // ---------- entities created and destroyed together ----------

    method DestroyEach(es: seq<Entity>)
      modifies this`ros
      ensures ros == old(ros).DestroyAll(Entities(es))
    {
      ghost var before := ros;
      assert before.DestroyAll({}) == before;
      assert Entities(es[..0]) == {};
      var i := 0;
      while i < |es|
        invariant 0 <= i <= |es|
        invariant ros == before.DestroyAll(Entities(es[..i]))
      {
        DestroyEachIsDestroyAll(before, Entities(es[..i]), es[i]);
        assert Entities(es[..i + 1]) == Entities(es[..i]) + {es[i]};
        ros := ros.Destroy(es[i]);
        i := i + 1;
      }
      assert es[..|es|] == es;
    }

    method DestroyFive(five: Five)
      modifies this`ros
      ensures ros == old(ros).DestroyAll(five.All())
    {
      var es := [five.send, five.result, five.cancel, five.feedback, five.status];
      assert Entities(es) == five.All();
      DestroyEach(es);
    }

    /** Creates the entities one by one; when one fails, those created are destroyed again. */
    method CreateFive() returns (five: Option<Five>)
      modifies this`ros
      ensures (ros, five) == Action.CreateFive(old(ros))
    {
      var c1 := ros.Create();
      ros := c1.0;
      if c1.1.None? { return None; }
      var c2 := ros.Create();
      ros := c2.0;
      if c2.1.None? {
        assert Entities([c1.1.value]) == {c1.1.value};
        DestroyEach([c1.1.value]);
        return None;
      }
      var c3 := ros.Create();
      ros := c3.0;
      if c3.1.None? {
        assert Entities([c1.1.value, c2.1.value]) == {c1.1.value, c2.1.value};
        DestroyEach([c1.1.value, c2.1.value]);
        return None;
      }
      var c4 := ros.Create();
      ros := c4.0;
      if c4.1.None? {
        assert Entities([c1.1.value, c2.1.value, c3.1.value]) == {c1.1.value, c2.1.value, c3.1.value};
        DestroyEach([c1.1.value, c2.1.value, c3.1.value]);
        return None;
      }
      var c5 := ros.Create();
      ros := c5.0;
      if c5.1.None? {
        assert Entities([c1.1.value, c2.1.value, c3.1.value, c4.1.value])
            == {c1.1.value, c2.1.value, c3.1.value, c4.1.value};
        DestroyEach([c1.1.value, c2.1.value, c3.1.value, c4.1.value]);
        return None;
      }
      return Some(Five(c1.1.value, c2.1.value, c3.1.value, c4.1.value, c5.1.value));
    }

    // ---------- client goals ----------

    method SendGoal(owner: Connection, action: string, id: Id, feedback: bool, uuid: Uuid,
                    now: nat) returns (ok: bool)
      modifies this`goals, this`actionCalls, this`issued, this`ros
      ensures (View(), ok) == Action.SendGoal(old(View()), owner, action, id, feedback, uuid, now)
    {
      hide Action.CreateFive, Five.All, Ros.Request, Ros.DestroyAll;
      if exists k :: k in goals && Action.SameGoal(goals[k], owner, action, id) { return false; }
      var five := CreateFive();
      if five.None? { return false; }
      var requested := ros.Request(five.value.send, AboutGoal(uuid));
      ros := requested.0;
      if requested.1.None? {
        DestroyFive(five.value);
        return false;
      }
      actionCalls := actionCalls[(five.value.send, requested.1.value) := ActionCall(Part.Send, uuid)];
      goals := goals[uuid := ClientGoal(owner, id, action, feedback, five.value, false, now + timeout, false)];
      issued := issued + {uuid};
      return true;
    }

    method CancelGoal(goal: Option<Uuid>) returns (ok: bool)
      modifies this`goals, this`actionCalls, this`ros
      ensures (View(), ok) == Action.CancelGoal(old(View()), goal)
    {
      hide Ros.Request;
      if goal.None? || goal.value !in goals { return false; }
      var g := goals[goal.value];
      if g.cancelling || !g.accepted { return false; }
      var requested := ros.Request(g.five.cancel, AboutGoal(goal.value));
      ros := requested.0;
      if requested.1.None? { return false; }
      goals := goals[goal.value := g.(cancelling := true)];
      actionCalls := actionCalls[(g.five.cancel, requested.1.value) := ActionCall(Part.Cancel, goal.value)];
      return true;
    }

    method FinishGoal(goal: Uuid, status: int, success: bool)
      modifies this`goals, this`actionCalls, this`stranded, this`ros, this`failed, this`next, this`wire
      ensures View() == Action.FinishGoal(old(View()), goal, status, success)
    {
      hide Five.All, Post, Action.CallsOfOthers, Ros.DestroyAll;
      if goal !in goals { return; }
      var g := goals[goal];
      goals := goals - {goal};
      Send(g.owner, GoalReply(goal, g.action, g.id, status, success));
      ghost var s := View();
      DestroyFive(g.five);
      assert View() == s.(ros := s.ros.DestroyAll(g.five.All()));
      actionCalls := Action.CallsOfOthers(actionCalls, goal);
      stranded := stranded - {goal};
    }

    method AcceptGoal(goal: Uuid) returns (ok: bool)
      requires goal in goals
      modifies this`goals, this`actionCalls, this`stranded, this`ros
      ensures (View(), ok) == Action.AcceptGoal(old(View()), goal)
    {
      hide Ros.Request;
      var g := goals[goal].(accepted := true);
      goals := goals[goal := g];
      var requested := ros.Request(g.five.result, AboutGoal(goal));
      ros := requested.0;
      if requested.1.None? {
        stranded := stranded + {goal};
        return false;
      }
      actionCalls := actionCalls[(g.five.result, requested.1.value) := ActionCall(Part.Result, goal)];
      return true;
    }

    method CancelAnswered(goal: Uuid, returnCode: Option<int>)
      modifies this`goals, this`failed, this`next, this`wire
      ensures View() == Action.CancelAnswered(old(View()), goal, returnCode)
    {
      hide Post;
      if returnCode != Some(0) && goal in goals {
        var g := goals[goal];
        goals := goals[goal := g.(cancelling := false)];
        Send(g.owner, CancelRejected(g.id));
      }
    }

    method ActionResponse(ticket: Ticket, answer: Action.Answer) returns (ok: bool)
      requires ticket in actionCalls
      modifies this`goals, this`actionCalls, this`stranded, this`ros, this`failed, this`next, this`wire
      ensures (View(), ok) == Action.ActionResponse(old(View()), ticket, answer)
    {
      hide Action.FinishGoal, Action.AcceptGoal, Action.CancelAnswered;
      var call := actionCalls[ticket];
      actionCalls := actionCalls - {ticket};
      match call.part
      case Send =>
        if !answer.accepted {
          FinishGoal(call.goal, 6, false);
        } else if call.goal in goals {
          ok := AcceptGoal(call.goal);
          return;
        }
        return true;
      case Result =>
        FinishGoal(call.goal, answer.status, answer.status == 4);
        return true;
      case Cancel =>
        CancelAnswered(call.goal, answer.returnCode);
        return true;
      case Feedback => return true;
      case Status => return true;
    }

    // ---------- action servers ----------

    /** Gives up a goal of a server: its waiters are told, whether or not that reaches them. */
    method DropGoal(key: GoalKey)
      modifies this`serverGoals, this`ros
      ensures View() == Action.DropGoal(old(View()), key)
    {
      if key !in serverGoals { return; }
      var g := serverGoals[key];
      serverGoals := serverGoals - {key};
      ghost var before := ros;
      assert g.requests[..0] == [];
      var i := 0;
      while i < |g.requests|
        invariant 0 <= i <= |g.requests|
        invariant ros == Action.RespondAll(before, g.requests[..i])
        invariant serverGoals == old(serverGoals) - {key}
      {
        assert g.requests[..i + 1][..i] == g.requests[..i];
        ros := ros.Respond(g.requests[i].0, g.requests[i].1, ResultAnswer(6, Action.NOTHING)).0;
        i := i + 1;
      }
      assert g.requests[..|g.requests|] == g.requests;
    }

    method RemoveAction(owner: Connection, action: string) returns (ok: bool, ghost keys: seq<GoalKey>)
      modifies this`serverGoals, this`actionServers, this`ros
      ensures Lists(keys, Action.GoalsOf(old(serverGoals), action))
      ensures (View(), ok) == Action.RemoveAction(old(View()), owner, action, keys)
    {
      hide Five.All, Action.DropGoal;
      var todo := Action.GoalsOf(serverGoals, action);
      if action !in actionServers || actionServers[action].owner != owner {
        keys := Enumerate(todo);
        return false, keys;
      }
      keys := [];
      while todo != {}
        invariant todo <= Action.GoalsOf(old(serverGoals), action)
        invariant forall k :: k in keys <==> k in Action.GoalsOf(old(serverGoals), action) && k !in todo
        invariant forall i, j :: 0 <= i < j < |keys| ==> keys[i] != keys[j]
        invariant View() == Action.DropGoals(old(View()), keys)
        invariant actionServers == old(actionServers)
        decreases todo
      {
        var key :| key in todo;
        todo := todo - {key};
        assert (keys + [key])[..|keys|] == keys;
        DropGoal(key);
        keys := keys + [key];
      }
      var a := actionServers[action];
      actionServers := actionServers - {action};
      DestroyFive(a.five);
      return true, keys;
    }

    method AdvertiseAction(owner: Connection, action: string, typ: string)
      returns (ok: bool, ghost keys: seq<GoalKey>)

      modifies this`serverGoals, this`actionServers, this`ros
      ensures Lists(keys, Action.GoalsOf(old(serverGoals), action))
      ensures (View(), ok) == Action.AdvertiseAction(old(View()), owner, action, typ, keys)
    {
      hide Action.RemoveAction, Action.CreateFive;
      keys := Enumerate(Action.GoalsOf(serverGoals, action));
      if action in actionServers {
        if actionServers[action].owner != owner { return false, keys; }
        if actionServers[action].typ == typ { return true, keys; }
        var _, dropped := RemoveAction(owner, action);
        keys := dropped;
      }
      var five := CreateFive();
      if five.None? { return false, keys; }
      actionServers := actionServers[action := ActionServer(owner, typ, five.value)];
      return true, keys;
    }

    method PublishStatus(action: string) returns (ok: bool)
      modifies this`ros
      ensures (View(), ok) == Action.PublishStatus(old(View()), action)
    {
      if action !in actionServers { return false; }
      var published := ros.Publish(actionServers[action].five.status, Action.StatusOf(serverGoals, action));
      ros := published.0;
      return published.1;
    }

    method ActionFeedback(key: GoalKey) returns (ok: bool)
      requires key in serverGoals
      modifies this`ros
      ensures (View(), ok) == Action.ActionFeedback(old(View()), key)
    {
      if serverGoals[key].result.Some? || key.0 !in actionServers { return false; }
      var published := ros.Publish(actionServers[key.0].five.feedback, AboutGoal(key.1));
      ros := published.0;
      return published.1;
    }

    method ActionResult(key: GoalKey, status: int, values: string, now: nat) returns (ok: bool)
      requires key in serverGoals
      modifies this`serverGoals, this`ros
      ensures (View(), ok) == Action.ActionResult(old(View()), key, status, values, now)
    {
      hide Ros.Respond, Ros.Publish, Ros.Query;
      var g := serverGoals[key];
      if g.result.Some? || !(4 <= status <= 6) { return false; }
      var validated := ros.Query();
      ros := validated.0;
      if !validated.1 { return false; }
      ghost var before := ros;
      var answer := ResultAnswer(status, values);
      var waiting := g.requests;
      while waiting != []
        invariant Action.Drain(before, g.requests, answer) == Action.Drain(ros, waiting, answer)
        invariant waiting <= g.requests
        invariant serverGoals == old(serverGoals)
        decreases |waiting|
      {
        var last := waiting[|waiting| - 1];
        var answered := ros.Respond(last.0, last.1, answer);
        ros := answered.0;
        if !answered.1 {
          serverGoals := serverGoals[key := g.(requests := waiting)];
          return false;
        }
        waiting := waiting[..|waiting| - 1];
      }
      serverGoals := serverGoals[key :=
        g.(requests := [], status := status, result := Some(values), completed := Some(now))];
      ok := PublishStatus(key.0);
    }

    method SubmitGoal(action: string, uuid: Option<Uuid>, request: nat, stamp: (int, nat)) returns (ok: bool)
      requires action in actionServers
      modifies this`serverGoals, this`ros, this`failed, this`next, this`wire
      ensures (View(), ok) == Action.SubmitGoal(old(View()), action, uuid, request, stamp)
    {
      hide Post, UniqueName, Ros.Respond, Ros.Publish;
      var a := actionServers[action];
      if uuid.None? { return false; }
      var key := (action, uuid.value);
      if key in serverGoals {
        var refused := ros.Respond(a.five.send, request, GoalAnswer(false, stamp));
        ros := refused.0;
        return refused.1;
      }
      next := next + 1;
      var id := UniqueName(next);
      var answered := ros.Respond(a.five.send, request, GoalAnswer(true, stamp));
      ros := answered.0;
      if !answered.1 { return false; }
      serverGoals := serverGoals[key := ServerGoal(a.owner, id, 2, stamp, None, [], None)];
      Send(a.owner, GoalRequest(id, action));
      ok := PublishStatus(action);
    }

    method AskResult(action: string, uuid: Option<Uuid>, request: nat) returns (ok: bool)
      requires action in actionServers
      modifies this`serverGoals, this`ros
      ensures (View(), ok) == Action.AskResult(old(View()), action, uuid, request)
    {
      var entity := actionServers[action].five.result;
      if uuid.None? { return false; }
      var key := (action, uuid.value);
      if key in serverGoals && serverGoals[key].result.None? {
        var g := serverGoals[key];
        serverGoals := serverGoals[key := g.(requests := g.requests + [(entity, request)])];
        return true;
      }
      var answered := ros.Respond(entity, request, Action.ResultOf(serverGoals, key));
      ros := answered.0;
      return answered.1;
    }

    /** Marks the goals to cancel one by one, in whatever order they come. */
    method MarkCancelled(action: string, ask: Action.CancelAsk)
      returns (order: seq<GoalKey>, stamps: seq<(Uuid, (int, nat))>, known: bool, terminal: bool)
      modifies this`serverGoals
      ensures Lists(order, Action.Cancelled(old(serverGoals), action, ask))
      ensures serverGoals == Action.Marked(old(serverGoals), Action.Cancelled(old(serverGoals), action, ask))
      ensures Stamped(old(serverGoals), order, stamps)
      ensures known == ((action, ask.goal) in old(serverGoals))
      ensures terminal == (known && old(serverGoals)[(action, ask.goal)].result.Some?)
    {
      hide Action.Chosen;
      order, stamps, known, terminal := [], [], false, false;
      var todo := serverGoals.Keys;
      while todo != {}
        invariant todo <= old(serverGoals).Keys && serverGoals.Keys == old(serverGoals).Keys
        invariant forall k :: k in order <==> k in Action.Cancelled(old(serverGoals), action, ask) && k !in todo
        invariant forall i, j :: 0 <= i < j < |order| ==> order[i] != order[j]
        invariant forall k :: k in serverGoals ==>
          serverGoals[k] == if k in order then old(serverGoals)[k].(status := 3) else old(serverGoals)[k]
        invariant Stamped(old(serverGoals), order, stamps)
        invariant known == ((action, ask.goal) in old(serverGoals) && (action, ask.goal) !in todo)
        invariant terminal == (known && old(serverGoals)[(action, ask.goal)].result.Some?)
        decreases todo
      {
        var k :| k in todo;
        todo := todo - {k};
        var g := serverGoals[k];
        if k == (action, ask.goal) { known, terminal := true, g.result.Some?; }
        if k.0 == action && g.result.None? && Action.Chosen(k.1, g.stamp, ask) {
          serverGoals := serverGoals[k := g.(status := 3)];
          order, stamps := order + [k], stamps + [(k.1, g.stamp)];
        }
      }
    }

    method CancelGoals(action: string, ask: Option<Action.CancelAsk>, request: nat)
      returns (ok: bool, ghost order: seq<GoalKey>)
      requires action in actionServers
      modifies this`serverGoals, this`ros, this`failed, this`next, this`wire
      ensures forall k :: k in order ==> k in old(serverGoals)
      ensures ask.Some? ==> Lists(order, Action.Cancelled(old(serverGoals), action, ask.value))
      ensures (View(), ok) == Action.CancelGoals(old(View()), action, ask, request, order)
    {
      hide Post, PostAll, Action.Chosen, Action.CancelAnswerOf, Action.StatusOf, Stamped;
      order := [];
      if ask.None? { return false, order; }
      ghost var before := serverGoals;
      var cancelling, stamps, known, terminal := MarkCancelled(action, ask.value);
      order := cancelling;
      var a := actionServers[action];
      var code := if cancelling != [] || ask.value.goal == 0 then 0 else if terminal then 3 else if !known then 2 else 1;
      ListsNone(cancelling, Action.Cancelled(before, action, ask.value));
      AnswerIs(before, action, ask.value, cancelling, code, stamps);
      var answered := ros.Respond(a.five.cancel, request, CancelAnswer(code, stamps));
      ros := answered.0;
      if !answered.1 { return false, order; }
      var notices := Action.CancelNotices(serverGoals, a.owner, action, cancelling);
      assert notices == Action.CancelNotices(before, a.owner, action, cancelling);
      SendEach(notices);
      ok := PublishStatus(action);
    }

    // ---------- commands ----------

    method StopGoal(owner: Connection, name: string, goal: string) returns (ok: bool)
      requires Valid()
      modifies this`goals, this`actionCalls, this`ros
      ensures (View(), ok) == Move.Operate(old(View()), owner, name, Move.StopGoal(goal), 0)
    {
      hide Action.CancelGoal, Move.ActiveGoal;
      var found := None;
      if exists k :: k in goals && Action.SameGoal(goals[k], owner, name, Some(goal)) {
        var k :| k in goals && Action.SameGoal(goals[k], owner, name, Some(goal));
        Lookup.ActiveGoalIs(View(), k, owner, name, goal);
        found := Some(k);
      } else {
        assert forall k :: !Move.Wanted(View(), k, owner, name, goal);
      }
      assert found == Move.ActiveGoal(View(), owner, name, goal);
      ok := CancelGoal(found);
    }

    /** The server goal a client means, if there is one. */
    method FindServed(owner: Connection, name: string, goal: string) returns (found: Option<GoalKey>)
      requires Valid()
      ensures found == Move.ServedGoal(View(), owner, name, goal)
    {
      hide Move.ServedGoal;
      if exists k :: k in serverGoals && k.0 == name && serverGoals[k].owner == owner && serverGoals[k].id == goal {
        var k :| k in serverGoals && k.0 == name && serverGoals[k].owner == owner && serverGoals[k].id == goal;
        Lookup.ServedGoalIs(View(), k, owner, name, goal);
        found := Some(k);
      } else {
        assert forall k :: !Action.GoalNamed(View(), k, owner, name, goal);
        found := None;
      }
    }

    method Operate(owner: Connection, name: string, op: Move.Operation, now: nat)
      returns (ok: bool, ghost keys: seq<GoalKey>)
      requires Valid()
      modifies this
      ensures Lists(keys, Action.GoalsOf(old(serverGoals), name))
      ensures (View(), ok) == Move.Operate(old(View()), owner, name, Ordered(op, keys), now)
    {
      hide Topic.Advertise, Topic.Unadvertise, Topic.PublishTo, Topic.Subscribe, Topic.Unsubscribe, Rpcs.CallService,
           Rpcs.AdvertiseService, Rpcs.RemoveService, Rpcs.ServiceResponse, Action.SendGoal, Action.CancelGoal,
           Action.AdvertiseAction, Action.RemoveAction, Action.ActionFeedback, Action.ActionResult, Runs.Invariant,
           Lists, Action.GoalsOf;
      keys := Enumerate(Action.GoalsOf(serverGoals, name));
      match op
      case AdvertiseTopic(id, setup) => ok := Advertise(owner, name, id, setup);
      case UnadvertiseTopic(id) => ok := Unadvertise(owner, name, id);
      case PublishMessage(id, setup) => ok := PublishTo(owner, name, id, setup);
      case SubscribeTopic(id, options, setup) => ok := Subscribe(owner, name, id, options, setup, now);
      case UnsubscribeTopic(id) => ok := Unsubscribe(owner, name, id);
      case CallRemote(id, declared, known, permitted, wait) =>
        ok := CallService(owner, id, name, declared, known, permitted, wait, now);
      case OfferService(typ, permitted) =>
        if permitted { ok := AdvertiseService(owner, name, typ); } else { ok := false; }
      case WithdrawService => ok := RemoveService(owner, name);
      case AnswerService(request, success) => ok := ServiceResponse(owner, request, name, success);
      case StartGoal(id, feedback, uuid) => ok := SendGoal(owner, name, id, feedback, uuid, now);
      case StopGoal(goal) => ok := StopGoal(owner, name, goal);
      case OfferAction(typ, _) => ok, keys := AdvertiseAction(owner, name, typ);
      case WithdrawAction(_) => ok, keys := RemoveAction(owner, name);
      case _ => ok := Give(owner, name, op, now);
    }

    /** Feedback or a result for the server goal that is meant. */
    method Give(owner: Connection, name: string, op: Move.Operation, now: nat) returns (ok: bool)
      requires Valid() && (op.GiveFeedback? || op.GiveResult?)
      modifies this`serverGoals, this`ros
      ensures (View(), ok) == Move.Operate(old(View()), owner, name, op, now)
    {
      hide Action.ActionFeedback, Action.ActionResult, Runs.Invariant, Move.ServedGoal;
      var found := FindServed(owner, name, op.goal);
      if found.None? { return false; }
      match op
      case GiveFeedback(_) => ok := ActionFeedback(found.value);
      case GiveResult(_, status, values) => ok := ActionResult(found.value, status, values, now);
    }

    /** A command is checked, carried out, and answered with an error when that fails. */
    method Execute(owner: Connection, c: Move.Command, now: nat) returns (ok: bool, ghost done: Move.Command)
      requires Valid()
      modifies this
      ensures exists keys :: done == Reordered(c, keys)
      ensures done.Command? && Name(done.name).Some? ==>
        Move.OperationFits(old(View()), Name(done.name).value, done.operation)
        || (done.operation.StartGoal? && done.operation.uuid in old(issued))
      ensures (View(), ok) == Move.Execute(old(View()), owner, done, now)
    {
      hide Runs.Invariant, Move.Operate, Lists, Name;
      if c.Malformed? {
        done := Reordered(c, []);
        return false, done;
      }
      var name := Name(c.name);
      ghost var keys := if name.Some? then Enumerate(Action.GoalsOf(serverGoals, name.value)) else [];
      done := Reordered(c, keys);
      if name.None? || (Move.NeedsAccess(c.operation) && !c.permitted) { return false, done; }
      ok, keys := Operate(owner, name.value, c.operation, now);
      done := Reordered(c, keys);
    }

    method Obey(owner: Connection, c: Move.Command, now: nat) returns (ghost done: Move.Command)
      requires Valid()
      requires c.Command? && c.operation.StartGoal? ==> c.operation.uuid !in issued
      modifies this
      ensures exists keys :: done == Reordered(c, keys)
      ensures Move.Fits(old(View()), Move.Obey(owner, done, now))
      ensures View() == Move.OnCommand(old(View()), owner, done, now)
    {
      hide Runs.Invariant, Move.Execute, Post, Lists, Name;
      if owner !in outputs {
        done := Fitting(View(), c);
        return;
      }
      var ok;
      ok, done := Execute(owner, c, now);
      if !ok { Send(owner, Failure(c.id)); }
    }

    /** A command of a client; `m` is the move it makes. A new goal comes with a UUID never used before. */
    method Command(owner: Connection, c: Move.Command, now: nat) returns (ghost m: Move.Move)
      requires Valid()
      requires c.Command? && c.operation.StartGoal? ==> c.operation.uuid !in issued
      modifies this
      ensures Valid()
      ensures Move.Fits(old(View()), m) && View() == Move.Do(old(View()), m)
      ensures exists keys :: m == Move.Obey(owner, Reordered(c, keys), now)
    {
      hide Runs.Invariant, Move.OnCommand, Reordered;
      ghost var done := Obey(owner, c, now);
      m := Move.Obey(owner, done, now);
      Runs.StepInvariant(old(View()), Runs.One(m));
    }

    // ---------- events ----------

    /** Feedback goes to the client that wants it, when it is about its own goal. */
    method GoalMessage(g: Uuid, m: Delivery.Message)
      requires g in goals
      modifies this`failed, this`next, this`wire
      ensures View() == Topic.GoalMessage(old(View()), g, m)
    {
      hide Post;
      var goal := goals[g];
      if goal.feedback && m.goal == Some(g) { Send(goal.owner, GoalFeedback(g, goal.action, goal.id)); }
    }

    method OnMessage(e: Entity, m: Delivery.Message, now: nat) returns (ghost order: seq<Connection>)
      requires Valid()
      modifies this
      ensures Move.Fits(old(View()), Move.Hear(e, m, now, order))
      ensures Valid() && View() == Move.Do(old(View()), Move.Hear(e, m, now, order)) && unhandled == old(unhandled)
    {
      hide Runs.Invariant, Topic.TopicMessage, Move.OnMessage, Move.Do, Post, Topic.GoalMessage, Lists, Topic.Receivers;
      order := [];
      Lookup.OneTopicOnly(View(), e);
      if exists g :: g in goals && goals[g].five.feedback == e {
        var g :| g in goals && goals[g].five.feedback == e;
        Lookup.FeedbackGoalIs(View(), e, m, now, order, g);
        GoalMessage(g, m);
      } else if exists t :: t in subscriptions && subscriptions[t].entity == e {
        var t :| t in subscriptions && subscriptions[t].entity == e;
        assert !exists g :: Topic.FeedbackFor(View(), e, g);
        assert Topic.Subscribed(View(), e, t);
        order := TopicMessage(t, m, now);
        Lookup.SubscribedTopicIs(old(View()), e, m, now, order, t);
      } else {
        Unheard(View(), e, m, now);
      }
      MessageIs(old(View()), e, m, now, order);
      Runs.StepInvariant(old(View()), Runs.One(Move.Hear(e, m, now, order)));
    }

    method OnResponse(ticket: Ticket, answer: Action.Answer)
      requires Valid()
      modifies this
      ensures Valid() && View() == Move.Do(old(View()), Move.Learn(ticket, answer)) && unhandled == old(unhandled)
    {
      hide Runs.Invariant, Rpcs.FinishCall, Action.ActionResponse, Move.Do;
      if ticket in calls {
        FinishCall(ticket, true);
      } else if ticket in actionCalls {
        var _ := ActionResponse(ticket, answer);
      }
      ResponseIs(old(View()), ticket, answer);
      Runs.StepInvariant(old(View()), Runs.One(Move.Learn(ticket, answer)));
    }

    method OnActionRequest(action: string, part: Part, request: nat, asked: Move.Asked)
      returns (ok: bool, ghost notices: seq<GoalKey>)
      requires action in actionServers && (part == Part.Send || part == Part.Result || part == Part.Cancel)
      modifies this`serverGoals, this`ros, this`failed, this`next, this`wire
      ensures forall k :: k in notices ==> k in old(serverGoals)
      ensures part == Part.Cancel && asked.cancel.Some? ==>
        Lists(notices, Action.Cancelled(old(serverGoals), action, asked.cancel.value))
      ensures (View(), ok) == Move.RequestOnAction(old(View()), action, part, request, asked.(notices := notices))
    {
      hide Action.SubmitGoal, Action.AskResult, Action.CancelGoals;
      notices := [];
      match part
      case Send => ok := SubmitGoal(action, asked.uuid, request, asked.stamp);
      case Result => ok := AskResult(action, asked.uuid, request);
      case Cancel => ok, notices := CancelGoals(action, asked.cancel, request);
    }

    /** A request taken by an action server; handling that fails gives the request up. */
    method ServeAction(e: Entity, action: string, part: Part, request: nat, asked: Move.Asked)
      returns (ghost notices: seq<GoalKey>)
      requires Move.ServesPart(View(), e, action, part)
      modifies this`serverGoals, this`ros, this`failed, this`next, this`wire, this`unhandled
      ensures forall k :: k in notices ==> k in old(serverGoals)
      ensures part == Part.Cancel && asked.cancel.Some? ==>
        Lists(notices, Action.Cancelled(old(serverGoals), action, asked.cancel.value))
      ensures var s := Move.Handling(old(View()), (e, request));
        View() == Move.DiscardOnError(
                    Move.RequestOnAction(s, action, part, request, asked.(notices := notices)), e, request)
    {
      hide Move.RequestOnAction, Action.Cancelled;
      unhandled := unhandled - {(e, request)};
      var ok;
      ok, notices := OnActionRequest(action, part, request, asked);
      if !ok { ros := ros.Discard(e, request); }
    }

    method ServeService(e: Entity, name: string, request: nat, now: nat)
      requires name in services
      modifies this`services, this`external, this`failed, this`next, this`wire, this`unhandled
      ensures View() == Rpcs.ForwardRequest(Move.Handling(old(View()), (e, request)), name, request, now)
    {
      hide Rpcs.ForwardRequest;
      unhandled := unhandled - {(e, request)};
      ForwardRequest(name, request, now);
    }

    predicate AsksAction(a: string, e: Entity)
      reads this
    {
      && a in actionServers
      && (actionServers[a].five.send == e || actionServers[a].five.cancel == e || actionServers[a].five.result == e)
    }

    /** A request on one of the bridge's services, for whoever offers it. */
    method Serve(e: Entity, request: nat, asked: Move.Asked, now: nat) returns (ghost notices: seq<GoalKey>)
      requires Valid()
      modifies this`services, this`external, this`serverGoals, this`ros, this`failed, this`next, this`wire,
               this`unhandled
      ensures Move.NoticesFit(old(View()), e, asked.(notices := notices))
      ensures View() == Move.OnRequest(old(View()), e, request, asked.(notices := notices), now)
    {
      hide Runs.Invariant, Move.RequestOnAction, Rpcs.ForwardRequest, Move.OnRequest, Move.DiscardOnError, Lists,
        Action.Cancelled;
      notices := [];
      if exists a :: a in actionServers && AsksAction(a, e) {
        var a :| a in actionServers && AsksAction(a, e);
        var five := actionServers[a].five;
        var part := if e == five.send then Part.Send else if e == five.result then Part.Result else Part.Cancel;
        Lookup.OnePartOnly(View(), e, a, part);
        notices := ServeAction(e, a, part, request, asked);
        Lookup.ServedPartIs(old(View()), e, request, asked.(notices := notices), now, a, part);
      } else {
        NoPartServed(View(), e);
        if exists n :: n in services && services[n].entity == e {
          var n :| n in services && services[n].entity == e;
          ServeService(e, n, request, now);
          Lookup.ServedServiceIs(old(View()), e, request, asked.(notices := []), now, n);
        } else {
          Unserved(View(), e, request, asked.(notices := []), now);
        }
      }
    }

    method OnRequest(e: Entity, request: nat, asked: Move.Asked, now: nat) returns (ghost notices: seq<GoalKey>)
      requires Valid() && (e, request) in unhandled
      modifies this
      ensures Move.Fits(old(View()), Move.Serve(e, request, asked.(notices := notices), now))
      ensures Valid() && View() == Move.Do(old(View()), Move.Serve(e, request, asked.(notices := notices), now))
      ensures unhandled >= old(unhandled) - {(e, request)}
    {
      hide Runs.Invariant, Move.OnRequest, Lists, Action.Cancelled, Move.ServesPart;
      notices := Serve(e, request, asked, now);
      Runs.StepInvariant(old(View()), Runs.One(Move.Serve(e, request, asked.(notices := notices), now)));
      Polls.ServeHandlesOne(old(View()), e, request, asked.(notices := notices), now);
    }

    // ---------- leaving ----------

    method LeaveTopics(o: Connection) returns (ghost xs: seq<string>)
      modifies this`publishers, this`ros
      ensures Lists(xs, Leaving.OwnTopics(old(publishers), o))
      ensures View() == Move.DoAll(old(View()), Leaving.TopicMoves(o, xs))
    {
      hide Topic.Unadvertise, Move.Do, Move.DoAll;
      var todo := Leaving.OwnTopics(publishers, o);
      ghost var all := todo;
      xs := [];
      Leaving.NoMoves(View(), o);
      while todo != {}
        invariant todo <= all && forall x :: x in xs <==> x in all && x !in todo
        invariant forall i, j :: 0 <= i < j < |xs| ==> xs[i] != xs[j]
        invariant View() == Move.DoAll(old(View()), Leaving.TopicMoves(o, xs))
        decreases todo
      {
        var t :| t in todo;
        todo := todo - {t};
        Leaving.OneMoreTopic(old(View()), o, xs, t);
        var _ := Unadvertise(o, t, None);
        xs := xs + [t];
      }
    }

    method LeaveSubscriptions(o: Connection) returns (ghost xs: seq<string>)
      modifies this`subscriptions, this`ros
      ensures Lists(xs, Leaving.OwnSubscriptions(old(subscriptions), o))
      ensures View() == Move.DoAll(old(View()), Leaving.SubscriptionMoves(o, xs))
    {
      hide Topic.Unsubscribe, Move.Do, Move.DoAll;
      var todo := Leaving.OwnSubscriptions(subscriptions, o);
      ghost var all := todo;
      xs := [];
      Leaving.NoMoves(View(), o);
      while todo != {}
        invariant todo <= all && forall x :: x in xs <==> x in all && x !in todo
        invariant forall i, j :: 0 <= i < j < |xs| ==> xs[i] != xs[j]
        invariant View() == Move.DoAll(old(View()), Leaving.SubscriptionMoves(o, xs))
        decreases todo
      {
        var t :| t in todo;
        todo := todo - {t};
        Leaving.OneMoreSubscription(old(View()), o, xs, t);
        var _ := Unsubscribe(o, t, None);
        xs := xs + [t];
      }
    }

    method LeaveServices(o: Connection) returns (ghost xs: seq<string>)
      modifies this`services, this`external, this`ros
      ensures Lists(xs, Leaving.OwnServices(old(services), o))
      ensures View() == Move.DoAll(old(View()), Leaving.ServiceMoves(o, xs))
    {
      hide Rpcs.RemoveService, Move.Do, Move.DoAll;
      var todo := Leaving.OwnServices(services, o);
      ghost var all := todo;
      xs := [];
      Leaving.NoMoves(View(), o);
      while todo != {}
        invariant todo <= all && forall x :: x in xs <==> x in all && x !in todo
        invariant forall i, j :: 0 <= i < j < |xs| ==> xs[i] != xs[j]
        invariant View() == Move.DoAll(old(View()), Leaving.ServiceMoves(o, xs))
        decreases todo
      {
        var n :| n in todo;
        todo := todo - {n};
        Leaving.OneMoreService(old(View()), o, xs, n);
        var _ := RemoveService(o, n);
        xs := xs + [n];
      }
    }

    method LeaveActions(o: Connection) returns (ghost xs: seq<(string, seq<GoalKey>)>)
      modifies this`actionServers, this`serverGoals, this`ros
      ensures forall a :: Leaving.Leaves(xs, a) <==> a in old(actionServers) && old(actionServers)[a].owner == o
      ensures Leaving.OwnsActions(old(View()).servers, o, xs)
      ensures View() == Move.DoAll(old(View()), Leaving.ActionMoves(o, xs))
    {
      hide Action.RemoveAction, Leaving.Leaves, Move.Do, Lists;
      var todo := set a | a in actionServers && actionServers[a].owner == o;
      ghost var all := todo;
      xs := [];
      NoneLeaves();
      while todo != {}
        invariant todo <= all && forall a :: Leaving.Leaves(xs, a) <==> a in all && a !in todo
        invariant Leaving.OwnsActions(old(View()).servers, o, xs)
        invariant View() == Move.DoAll(old(View()), Leaving.ActionMoves(o, xs))
        decreases todo
      {
        var a :| a in todo;
        todo := todo - {a};
        Leaving.LeaveActions(old(View()), o, xs);
        ghost var before := View();
        var _, keys := RemoveAction(o, a);
        ghost var last := (a, keys);
        NextLeaves(old(View()), o, xs, last, before);
        Leaving.DoAllSnoc(old(View()), Leaving.ActionMoves(o, xs), Move.LeaveAction(o, a, keys));
        assert Leaving.ActionMoves(o, xs + [last]) == Leaving.ActionMoves(o, xs) + [Move.LeaveAction(o, a, keys)];
        xs := xs + [last];
      }
    }

    method LeaveGoals(o: Connection) returns (ghost xs: seq<Uuid>)
      modifies this`goals, this`actionCalls, this`stranded, this`ros, this`failed, this`next, this`wire
      ensures Lists(xs, Leaving.OwnGoals(old(goals), o))
      ensures View() == Move.DoAll(old(View()), Leaving.GoalMoves(xs))
    {
      hide Action.FinishGoal, Move.Do, Move.DoAll, Move.AbandonGoal;
      var todo := Leaving.OwnGoals(goals, o);
      ghost var all := todo;
      xs := [];
      Leaving.NoMoves(View(), o);
      while todo != {}
        invariant todo <= all && forall x :: x in xs <==> x in all && x !in todo
        invariant forall i, j :: 0 <= i < j < |xs| ==> xs[i] != xs[j]
        invariant View() == Move.DoAll(old(View()), Leaving.GoalMoves(xs))
        decreases todo
      {
        var g :| g in todo;
        todo := todo - {g};
        Leaving.OneMoreGoal(old(View()), xs, g);
        AbandonGoal(g);
        xs := xs + [g];
      }
    }

    method AbandonGoal(g: Uuid)
      modifies this`goals, this`actionCalls, this`stranded, this`ros, this`failed, this`next, this`wire
      ensures View() == Move.AbandonGoal(old(View()), g)
    {
      hide Action.FinishGoal;
      if g in goals {
        if goals[g].accepted {
          ros := ros.Request(goals[g].five.cancel, AboutGoal(g)).0;
        }
        FinishGoal(g, 6, false);
      }
    }

    method LeaveCalls(o: Connection) returns (ghost xs: seq<Ticket>)
      modifies this`calls, this`ros
      ensures Lists(xs, Leaving.OwnCalls(old(calls), o))
      ensures View() == Move.DoAll(old(View()), Leaving.CallMoves(xs))
    {
      hide Move.Do, Move.DoAll;
      var todo := Leaving.OwnCalls(calls, o);
      ghost var all := todo;
      xs := [];
      Leaving.NoMoves(View(), o);
      while todo != {}
        invariant todo <= all && forall x :: x in xs <==> x in all && x !in todo
        invariant forall i, j :: 0 <= i < j < |xs| ==> xs[i] != xs[j]
        invariant View() == Move.DoAll(old(View()), Leaving.CallMoves(xs))
        invariant calls == old(calls) - (all - todo)
        decreases todo
      {
        var t :| t in todo;
        todo := todo - {t};
        Leaving.OneMoreCall(old(View()), xs, t);
        calls := calls - {t};
        ros := ros.Destroy(t.0);
        xs := xs + [t];
      }
    }

    /** Takes out what a client offers and follows: topics, services and actions, kind by kind. */
    method LeaveOffers(o: Connection)
      returns (ghost topics: seq<string>, ghost subs: seq<string>, ghost servs: seq<string>,
               ghost acts: seq<(string, seq<GoalKey>)>)
      modifies this`publishers, this`subscriptions, this`services, this`external, this`actionServers, this`serverGoals,
        this`ros
      ensures Lists(topics, Leaving.OwnTopics(old(publishers), o))
      ensures Lists(subs, Leaving.OwnSubscriptions(old(subscriptions), o))
      ensures Lists(servs, Leaving.OwnServices(old(services), o))
      ensures services == Leaving.ServicesLeft(old(services), servs)
      ensures forall a :: Leaving.Leaves(acts, a) <==> a in old(actionServers) && old(actionServers)[a].owner == o
      ensures Leaving.OwnsActions(old(View()).servers, o, acts)
      ensures View() == Move.DoAll(Move.DoAll(Move.DoAll(Move.DoAll(old(View()), Leaving.TopicMoves(o, topics)),
        Leaving.SubscriptionMoves(o, subs)), Leaving.ServiceMoves(o, servs)), Leaving.ActionMoves(o, acts))
    {
      hide Move.Do, Move.DoAll, Leaving.OwnsActions, Leaving.Leaves, Leaving.TopicsLeft, Leaving.SubscriptionsLeft,
        Leaving.ServersLeft, Leaving.ServicesLeft, Leaving.ExternalLeft;
      ghost var s1 := View();
      topics := LeaveTopics(o);
      Leaving.LeaveTopics(s1, o, topics);
      ghost var s2 := View();
      subs := LeaveSubscriptions(o);
      Leaving.LeaveSubscriptions(s2, o, subs);
      ghost var s3 := View();
      servs := LeaveServices(o);
      Leaving.LeaveServices(s3, o, servs);
      ghost var s4 := View();
      acts := LeaveActions(o);
      Leaving.LeaveActions(s4, o, acts);
    }

    /** Takes a client out: what it offers, its goals, its calls, and what was forwarded to it. */
    method TakeDown(o: Connection) returns (ghost l: Leaving.Leave)
      modifies this
      ensures Leaving.LeaveFits(old(View()), o, l)
      ensures View() == Leaving.Disconnect(old(View()), o, l)
    {
      hide Move.Do, Move.DoAll, Leaving.OwnsActions, Leaving.Leaves, Leaving.Disconnect, Leaving.ActionsLeft,
        Leaving.ServicesLeft, Leaving.CallsLeft, Leaving.OwnTopics, Leaving.OwnSubscriptions, Leaving.OwnServices,
        Leaving.OwnCalls, Leaving.RestExternal, Leaving.GoalMoves, Leaving.CallMoves, Leaving.TopicMoves,
        Leaving.SubscriptionMoves, Leaving.ServiceMoves, Leaving.ActionMoves;
      ghost var s := View();
      outputs := outputs - {o};
      Leaving.FirstMove(s, o);
      ghost var topics, subs, servs, acts := LeaveOffers(o);
      ghost var s5 := View();
      ghost var gs := LeaveGoals(o);
      Leaving.LeaveGoals(s5, o, gs);
      ghost var s6 := View();
      ghost var cs := LeaveCalls(o);
      Leaving.LeaveCalls(s6, cs);
      l := Leaving.Leave(topics, subs, servs, acts, gs, cs);
      NoServicesLeft(s.rpc.services, o, servs);
      Leaving.LastMove(View(), o);
      external := Leaving.RestExternal(external, o);
      Leaving.LeaveInTurn(s, o, l);
    }

    method Disconnect(o: Connection) returns (ghost l: Leaving.Leave)
      requires Valid()
      modifies this
      ensures Valid() && Leaving.LeaveFits(old(View()), o, l)
      ensures View() == Runs.Take(old(View()), Runs.Gone(o, l)) && Leaving.Left(old(View()), View(), o)
      ensures outputs == old(outputs) - {o} && failed == old(failed)
    {
      hide Runs.Invariant, Leaving.LeaveFits, Leaving.Disconnect;
      l := TakeDown(o);
      Runs.DisconnectInvariant(old(View()), o, l);
    }

    method DisconnectEach(who: set<Connection>) returns (ghost gone: seq<(Connection, Leaving.Leave)>)
      requires Valid()
      modifies this
      ensures Valid() && Ticks.Departs(old(View()), gone, who)
      ensures View() == Ticks.DisconnectAll(old(View()), gone)
      ensures outputs == old(outputs) - who && failed == old(failed)
    {
      hide Runs.Invariant, Leaving.LeaveFits, Leaving.Left, Runs.Take;
      gone := [];
      var todo := who;
      while todo != {}
        invariant Valid() && todo <= who
        invariant Ticks.Departs(old(View()), gone, who - todo)
        invariant View() == Ticks.DisconnectAll(old(View()), gone)
        invariant outputs == old(outputs) - (who - todo) && failed == old(failed)
        decreases todo
      {
        var o :| o in todo;
        ghost var done := who - todo;
        todo := todo - {o};
        ghost var l := Disconnect(o);
        OneMoreGone(old(View()), gone, done, o, l);
        gone := gone + [(o, l)];
        assert done + {o} == who - todo;
      }
      assert who - todo == who;
    }

    /** `shutdown`: afterwards nothing is connected, and the backend holds nothing of the bridge. */
    method Shutdown()
      requires Valid()
      modifies this
      ensures Valid() && outputs == {} && ros.live == {} && ros.requests == {}
    {
      hide Runs.Invariant, Ticks.Departs;
      ghost var gone := DisconnectEach(outputs);
      Ticks.ShutdownLeavesNothing(old(View()), gone);
    }

    // ---------- how long to wait ----------

    method CallWait(now: nat, limit: nat) returns (wait: nat)
      ensures wait == Delivery.Least({limit} + Ticks.CallWaits(calls, now))
    {
      wait := limit;
      var todo := calls.Keys;
      ghost var seen: set<nat> := {};
      while todo != {}
        invariant todo <= calls.Keys
        invariant seen == set k | k in calls && k !in todo :: Ticks.Until(calls[k].expires, now)
        invariant wait == Delivery.Least({limit} + seen)
        decreases todo
      {
        var k :| k in todo;
        todo := todo - {k};
        var candidate := Ticks.Until(calls[k].expires, now);
        Ticks.OneMoreWait(limit, seen, candidate);
        seen := seen + {candidate};
        if candidate < wait { wait := candidate; }
      }
      assert seen == Ticks.CallWaits(calls, now);
    }

    method RequestWait(now: nat, limit: nat) returns (wait: nat)
      ensures wait == Delivery.Least({limit} + Ticks.RequestWaits(external, now))
    {
      wait := limit;
      var todo := external.Keys;
      ghost var seen: set<nat> := {};
      while todo != {}
        invariant todo <= external.Keys
        invariant seen == set k | k in external && k !in todo :: Ticks.Until(external[k].expires, now)
        invariant wait == Delivery.Least({limit} + seen)
        decreases todo
      {
        var k :| k in todo;
        todo := todo - {k};
        var candidate := Ticks.Until(external[k].expires, now);
        Ticks.OneMoreWait(limit, seen, candidate);
        seen := seen + {candidate};
        if candidate < wait { wait := candidate; }
      }
      assert seen == Ticks.RequestWaits(external, now);
    }

    method GoalWait(now: nat, limit: nat) returns (wait: nat)
      ensures wait == Delivery.Least({limit} + Ticks.GoalWaits(goals, now))
    {
      wait := limit;
      var todo := set g | g in goals && !goals[g].accepted;
      ghost var seen: set<nat> := {};
      while todo != {}
        invariant forall g :: g in todo ==> g in goals && !goals[g].accepted
        invariant seen == set g | g in goals && !goals[g].accepted
          && g !in todo :: Ticks.Until(goals[g].acceptanceDeadline, now)
        invariant wait == Delivery.Least({limit} + seen)
        decreases todo
      {
        var g :| g in todo;
        todo := todo - {g};
        var candidate := Ticks.Until(goals[g].acceptanceDeadline, now);
        Ticks.OneMoreWait(limit, seen, candidate);
        seen := seen + {candidate};
        if candidate < wait { wait := candidate; }
      }
      assert seen == Ticks.GoalWaits(goals, now);
    }

    method ClientWait(sub: Subscription, now: nat, limit: nat) returns (wait: nat)
      ensures wait == Delivery.Least({limit} + Ticks.ClientWaits(sub, now))
    {
      hide Delivery.Least, Ticks.Until;
      wait := limit;
      NoWaits(limit);
      var todo := set c | c in sub.clients && sub.clients[c].pending != [];
      ghost var seen: set<nat> := {};
      while todo != {}
        invariant forall c :: c in todo ==> c in sub.clients && sub.clients[c].pending != []
        invariant seen == set c | c in sub.clients && sub.clients[c].pending != []
          && c !in todo :: Ticks.DueIn(sub.clients[c], now)
        invariant wait == Delivery.Least({limit} + seen)
        decreases todo
      {
        var c :| c in todo;
        todo := todo - {c};
        var options := MergedOptions(sub.clients[c]);
        var last := sub.clients[c].last;
        var candidate := if last.None? then 0 else Ticks.Until(options.throttle, Delivery.Since(now, last.value));
        Ticks.OneMoreWait(limit, seen, candidate);
        seen := seen + {candidate};
        if candidate < wait { wait := candidate; }
      }
      assert seen == Ticks.ClientWaits(sub, now);
    }

    method DeliveryWait(now: nat, limit: nat) returns (wait: nat)
      ensures wait == Delivery.Least({limit} + Ticks.DeliveryWaits(subscriptions, now))
    {
      hide Ticks.ClientWaits;
      wait := limit;
      var todo := subscriptions.Keys;
      ghost var seen: set<nat> := {};
      while todo != {}
        invariant todo <= subscriptions.Keys
        invariant seen == set t, w | t in subscriptions && t !in todo
          && w in Ticks.ClientWaits(subscriptions[t], now) :: w
        invariant wait == Delivery.Least({limit} + seen)
        decreases todo
      {
        var t :| t in todo;
        todo := todo - {t};
        wait := ClientWait(subscriptions[t], now, wait);
        Ticks.MoreWaits(limit, seen, Ticks.ClientWaits(subscriptions[t], now));
        seen := seen + Ticks.ClientWaits(subscriptions[t], now);
      }
      assert seen == Ticks.DeliveryWaits(subscriptions, now);
    }

    /** `next_wakeup`: exactly the earliest of 100 ms, every deadline and every due delivery. */
    method NextWakeup(now: nat) returns (wait: nat)
      ensures wait == Ticks.NextWakeup(View(), now)
    {
      hide Ticks.CallWaits, Ticks.RequestWaits, Ticks.GoalWaits, Ticks.DeliveryWaits;
      wait := CallWait(now, Ticks.MAX_WAIT);
      ghost var seen := Ticks.CallWaits(calls, now);
      wait := RequestWait(now, wait);
      Ticks.MoreWaits(Ticks.MAX_WAIT, seen, Ticks.RequestWaits(external, now));
      seen := seen + Ticks.RequestWaits(external, now);
      wait := GoalWait(now, wait);
      Ticks.MoreWaits(Ticks.MAX_WAIT, seen, Ticks.GoalWaits(goals, now));
      seen := seen + Ticks.GoalWaits(goals, now);
      wait := DeliveryWait(now, wait);
      Ticks.MoreWaits(Ticks.MAX_WAIT, seen, Ticks.DeliveryWaits(subscriptions, now));
      assert {Ticks.MAX_WAIT} + (seen + Ticks.DeliveryWaits(subscriptions, now))
          == {Ticks.MAX_WAIT} + Ticks.CallWaits(calls, now) + Ticks.RequestWaits(external, now)
             + Ticks.GoalWaits(goals, now) + Ticks.DeliveryWaits(subscriptions, now);
    }

    // ---------- the tick ----------

    method Connect(o: Connection)
      requires Valid()
      modifies this
      ensures Valid() && View() == Move.Do(old(View()), Move.Connect(o))
    {
      hide Runs.Invariant;
      outputs := outputs + {o};
      Runs.StepInvariant(old(View()), Runs.One(Move.Connect(o)));
    }

    /** Handles what the backend reported, in order. */
    method Handle(arrivals: seq<Arrival>, now: nat) returns (ghost moves: seq<Move.Move>)
      requires Valid() && Distinct(arrivals) && forall r :: Arrived(arrivals, r) ==> r in unhandled
      modifies this
      ensures Valid() && View() == Move.DoAll(old(View()), moves)
      ensures Plans(moves, arrivals, now) && Ticks.AllFitting(old(View()), moves)
    {
      hide Runs.Invariant, Move.Do, Move.DoAll;
      moves := [];
      NothingDone(View());
      var i := 0;
      while i < |arrivals|
        invariant 0 <= i <= |arrivals| && Valid()
        invariant |moves| == i && forall j :: 0 <= j < i ==> Reports(moves[j], arrivals[j], now)
        invariant View() == Move.DoAll(old(View()), moves)
        invariant Ticks.AllFitting(old(View()), moves)
        invariant forall j :: i <= j < |arrivals| && arrivals[j].Request? ==> NativeOf(arrivals[j]) in unhandled
      {
        ghost var m;
        match arrivals[i] {
          case Message(e, message) =>
            ghost var order := OnMessage(e, message, now);
            m := Move.Hear(e, message, now, order);
          case Response(ticket, answer) =>
            OnResponse(ticket, answer);
            m := Move.Learn(ticket, answer);
          case Request(e, request, asked) =>
            ghost var notices := OnRequest(e, request, asked, now);
            m := Move.Serve(e, request, asked.(notices := notices), now);
        }
        Leaving.DoAllSnoc(old(View()), moves, m);
        OneMoreFits(old(View()), moves, m);
        moves := moves + [m];
        i := i + 1;
      }
    }

    method ExpireGoals(now: nat) returns (ghost xs: seq<Uuid>)
      modifies this`goals, this`actionCalls, this`stranded, this`ros, this`failed, this`next, this`wire
      ensures Lists(xs, Ticks.OverdueGoals(old(goals), now))
      ensures View() == Move.DoAll(old(View()), Ticks.GoalTimeouts(xs))
    {
      hide Move.Do, Move.DoAll, Action.FinishGoal;
      var todo := Ticks.OverdueGoals(goals, now);
      ghost var all := todo;
      xs := [];
      Ticks.NoTimeouts(View());
      while todo != {}
        invariant todo <= all && forall x :: x in xs <==> x in all && x !in todo
        invariant forall i, j :: 0 <= i < j < |xs| ==> xs[i] != xs[j]
        invariant View() == Move.DoAll(old(View()), Ticks.GoalTimeouts(xs))
        decreases todo
      {
        var g :| g in todo;
        todo := todo - {g};
        Ticks.OneMoreGoal(old(View()), xs, g);
        FinishGoal(g, 6, false);
        xs := xs + [g];
      }
    }

    method ExpireCalls(now: nat) returns (ghost xs: seq<Ticket>)
      modifies this`calls, this`ros, this`failed, this`next, this`wire
      ensures Lists(xs, Ticks.OverdueCalls(old(calls), now))
      ensures View() == Move.DoAll(old(View()), Ticks.CallTimeouts(xs))
    {
      hide Move.Do, Move.DoAll, Rpcs.FinishCall;
      var todo := Ticks.OverdueCalls(calls, now);
      ghost var all := todo;
      xs := [];
      Ticks.NoTimeouts(View());
      while todo != {}
        invariant todo <= all && forall x :: x in xs <==> x in all && x !in todo
        invariant forall i, j :: 0 <= i < j < |xs| ==> xs[i] != xs[j]
        invariant View() == Move.DoAll(old(View()), Ticks.CallTimeouts(xs))
        decreases todo
      {
        var k :| k in todo;
        todo := todo - {k};
        Ticks.OneMoreCall(old(View()), xs, k);
        if k in calls { FinishCall(k, false); }
        xs := xs + [k];
      }
    }

    method ExpireRequests(now: nat) returns (ghost xs: seq<string>)
      modifies this`external, this`ros
      ensures Lists(xs, Ticks.OverdueRequests(old(external), now))
      ensures View() == Move.DoAll(old(View()), Ticks.RequestTimeouts(xs))
    {
      hide Move.Do, Move.DoAll;
      var todo := Ticks.OverdueRequests(external, now);
      ghost var all := todo;
      xs := [];
      Ticks.NoTimeouts(View());
      while todo != {}
        invariant todo <= all && forall x :: x in xs <==> x in all && x !in todo
        invariant forall i, j :: 0 <= i < j < |xs| ==> xs[i] != xs[j]
        invariant View() == Move.DoAll(old(View()), Ticks.RequestTimeouts(xs))
        decreases todo
      {
        var k :| k in todo;
        todo := todo - {k};
        Ticks.OneMoreRequest(old(View()), xs, k);
        if k in external {
          ros := ros.Discard(external[k].entity, external[k].request);
          external := external - {k};
        }
        xs := xs + [k];
      }
    }

    /** Takes the due message of one client off its queue. */
    method PopDue(c: Delivery.Client, now: nat) returns (c': Delivery.Client, out: Option<Delivery.Message>)
      ensures (c', out) == Delivery.Due(c, now)
    {
      var options := MergedOptions(c);
      if (c.last.None? || Delivery.Since(now, c.last.value) >= options.throttle) && c.pending != [] {
        return c.(last := Some(now), pending := c.pending[1..]), Some(c.pending[0]);
      }
      return c, None;
    }

    /** Pops what is due of one topic, with the messages to send and where each was found. */
    method PopTopic(topic: string, sub: Subscription, now: nat)
      returns (clients: map<Connection, Delivery.Client>, out: seq<Sent>, ghost places: seq<(string, Connection)>)
      ensures sub.(clients := clients) == Topic.PoppedTopic(sub, now)
      ensures |out| == |places| && forall i :: 0 <= i < |out| ==> IsPopped(topic, sub, places[i], out[i], now)
      ensures forall p :: p in places <==> DueAt(topic, sub, p, now)
      ensures forall i, j :: 0 <= i < j < |places| ==> places[i] != places[j]
    {
      hide Delivery.Due;
      clients, out, places := sub.clients, [], [];
      var todo := sub.clients.Keys;
      while todo != {}
        invariant todo <= sub.clients.Keys && clients.Keys == sub.clients.Keys
        invariant forall c :: c in sub.clients ==>
          clients[c] == if c in todo then sub.clients[c] else Delivery.Due(sub.clients[c], now).0
        invariant |out| == |places| && forall i :: 0 <= i < |out| ==> IsPopped(topic, sub, places[i], out[i], now)
        invariant forall p :: p in places <==> DueAt(topic, sub, p, now) && p.1 !in todo
        invariant forall i, j :: 0 <= i < j < |places| ==> places[i] != places[j]
        decreases todo
      {
        var c :| c in todo;
        todo := todo - {c};
        var popped, message := PopDue(sub.clients[c], now);
        clients := clients[c := popped];
        if message.Some? {
          out := out + [Sent(c, Publish(topic, message.value))];
          places := places + [(topic, c)];
        }
      }
    }

    /** Pops everything that is due, of every topic. */
    method PopAll(now: nat) returns (out: seq<Sent>, ghost due: seq<(string, Connection)>)
      modifies this`subscriptions
      ensures subscriptions == Topic.Popped(old(subscriptions), now)
      ensures PoppedFrom(old(subscriptions), old(subscriptions).Keys, out, due, now)
    {
      hide Delivery.Due, PoppedFrom, DueAt, IsPopped, Topic.PoppedTopic;
      out, due := [], [];
      var todo := subscriptions.Keys;
      ghost var before := subscriptions;
      NothingPopped(before, now);
      while todo != {}
        invariant todo <= before.Keys && subscriptions.Keys == before.Keys
        invariant forall t :: t in subscriptions ==>
          subscriptions[t] == if t in todo then before[t] else Topic.PoppedTopic(before[t], now)
        invariant PoppedFrom(before, before.Keys - todo, out, due, now)
        decreases todo
      {
        var t :| t in todo;
        ghost var done := before.Keys - todo;
        todo := todo - {t};
        var sub := subscriptions[t];
        var clients, messages, places := PopTopic(t, sub, now);
        subscriptions := subscriptions[t := sub.(clients := clients)];
        MorePopped(before, done, out, due, t, messages, places, now);
        assert done + {t} == before.Keys - todo;
        out, due := out + messages, due + places;
      }
      assert before.Keys - {} == before.Keys;
    }

    method DeliverDue(now: nat) returns (ghost due: seq<(string, Connection)>)
      modifies this`subscriptions, this`failed, this`next, this`wire
      ensures Move.Fits(old(View()), Move.Deliver(due, now)) && Lists(due, Topic.DuePlaces(old(subscriptions), now))
      ensures View() == Move.Do(old(View()), Move.Deliver(due, now))
    {
      hide PostAll, Topic.IsDue, Topic.Popped, Topic.DueMessage, Topic.DuePlaces;
      var out;
      out, due := PopAll(now);
      AllPopped(old(subscriptions), out, due, now);
      SendEach(out);
    }

    /** Everything of a tick between polling and disconnecting; returns the clients that had failed. */
    method Upkeep(polled: Polled, now: nat) returns (lost: set<Connection>, ghost plan: Ticks.Plan)
      requires Valid() && polled.Reported? && Consistent(polled) && Move.CanTake(View(), polled.taken, polled.next)
      modifies this
      ensures Ticks.UpkeepPlanned(old(View()), plan, now) && View() == Ticks.AfterUpkeep(old(View()), plan, now)
      ensures plan.taken == polled.taken && Plans(plan.events, polled.arrivals, now)
      ensures lost == Ticks.AfterRequests(old(View()), plan, now).desk.failed && failed == {}
    {
      hide Runs.Invariant, Move.Do, Move.DoAll, Ticks.OverdueGoals, Ticks.OverdueCalls, Ticks.OverdueRequests,
           Topic.DuePlaces, Ticks.GoalTimeouts, Ticks.CallTimeouts, Ticks.RequestTimeouts, Lists, Move.Fits,
           Ticks.AllFitting, Ticks.Handles, Arrived, Distinct;
      ghost var s := View();
      Poll(polled.taken, polled.next);
      ghost var events := Handle(polled.arrivals, now);
      ghost var late := ExpireGoals(now);
      ghost var due := DeliverDue(now);
      ghost var called := ExpireCalls(now);
      ghost var asked := ExpireRequests(now);
      plan := Ticks.Plan(polled.taken, polled.next, events, late, due, called, asked, []);
      lost := failed;
      assert View() == Ticks.AfterRequests(s, plan, now);
      Forget(now);
      TakeFailed();
      AllAreEvents(events, polled.arrivals, now);
    }

    method Poll(taken: set<Native>, next: nat)
      requires Valid() && Move.CanTake(View(), taken, next)
      modifies this`ros, this`unhandled
      ensures Valid() && View() == Move.Do(old(View()), Move.Poll(taken, next)) && taken <= unhandled
    {
      hide Runs.Invariant, Move.CanTake;
      ros, unhandled := ros.TakeAll(taken, next), unhandled + taken;
      Runs.StepInvariant(old(View()), Runs.One(Move.Poll(taken, next)));
    }

    method Forget(now: nat)
      modifies this`serverGoals
      ensures View() == Move.Do(old(View()), Move.ForgetResults(now))
    {
      serverGoals := map k | k in serverGoals &&
        (serverGoals[k].completed.None? || now < serverGoals[k].completed.value + 60000) :: serverGoals[k];
    }

    method TakeFailed()
      modifies this`failed
      ensures failed == {} && View() == Move.Do(old(View()), Move.TakeFailed)
    {
      failed := {};
    }

    /**
     `tick`: a poll that fails ends it. Otherwise reports are handled, what is overdue ends, what is
     due goes out, and the clients whose output failed or is `closed` are disconnected.
     */
    method Tick(polled: Polled, closed: set<Connection>, now: nat) returns (ok: bool, ghost plan: Ticks.Plan)
      requires Valid() && Consistent(polled) && Move.CanTake(View(), polled.taken, polled.next)
      modifies this
      ensures Valid() && ok == polled.Reported?
      ensures !ok ==> View() == Ticks.FailedTick(old(View()), polled.taken, polled.next)
      ensures ok ==>
        && View() == Ticks.Tick(old(View()), plan, now) && unhandled == old(unhandled)
        && Ticks.WellPlanned(old(View()), plan, closed, now) && Ticks.NothingOverdue(View(), now)
        && plan.taken == polled.taken && Plans(plan.events, polled.arrivals, now)
        && outputs == old(outputs) - Ticks.AfterRequests(old(View()), plan, now).desk.failed - closed && failed == {}
    {
      hide Runs.Invariant, Move.Do, Move.DoAll, Ticks.UpkeepPlanned, Ticks.NothingOverdue, Ticks.AfterUpkeep,
        Ticks.Departs, Ticks.DisconnectAll, Ticks.AfterRequests, Move.CanTake, Consistent;
      ghost var s := View();
      if polled.Failed? {
        Poll(polled.taken, polled.next);
        plan := Ticks.Plan({}, 0, [], [], [], [], [], []);
        return false, plan;
      }
      ok := true;
      var lost;
      lost, plan := Upkeep(polled, now);
      Ticks.PlanKeepsInvariant(s, plan, now);
      ghost var middle := View();
      ghost var first := DisconnectEach(lost);
      assert outputs * closed == middle.desk.outputs * closed - lost;
      ghost var second := DisconnectEach(outputs * closed);
      Ticks.DisconnectsConcat(middle, first, second);
      Ticks.UpkeepDesk(s, plan, now);
      Ticks.DepartsConcat(middle, first, lost, second, middle.desk.outputs * closed - lost);
      assert lost + (middle.desk.outputs * closed - lost) == Ticks.Leaving(s, plan, closed, now);
      Ticks.GoneIsLast(s, plan, first + second, now);
      plan := plan.(gone := first + second);
      Ticks.TickLeavesNothingOverdue(s, plan, now);
      Ticks.TickKeepsTheRest(s, plan, closed, now);
      Polls.TickHandlesAll(s, plan, now);
    }
  }

  /** The same operation, with the order in which goals are given up filled in. */
  ghost function Ordered(op: Move.Operation, keys: seq<GoalKey>): Move.Operation {
    match op
    case OfferAction(typ, _) => Move.OfferAction(typ, keys)
    case WithdrawAction(_) => Move.WithdrawAction(keys)
    case _ => op
  }

  ghost function Reordered(c: Move.Command, keys: seq<GoalKey>): Move.Command {
    if c.Malformed? then c else c.(operation := Ordered(c.operation, keys))
  }

  /** A command with its order filled in so that it fits. */
  ghost function Fitting(s: State, c: Move.Command): (done: Move.Command)
    ensures exists keys :: done == Reordered(c, keys)
    ensures done.Command? && Name(done.name).Some? && !done.operation.StartGoal? ==>
      Move.OperationFits(s, Name(done.name).value, done.operation)
  {
    if c.Malformed? || Name(c.name).None? then Reordered(c, [])
    else Reordered(c, Enumerate(Action.GoalsOf(s.servers.serverGoals, Name(c.name).value)))
  }

  /** The goals with the times at which they were accepted. */
  predicate Stamped(goals: map<GoalKey, ServerGoal>, order: seq<GoalKey>, stamps: seq<(Uuid, (int, nat))>) {
    && |stamps| == |order|
    && forall i :: 0 <= i < |order| ==> order[i] in goals && stamps[i] == (order[i].1, goals[order[i]].stamp)
  }

  lemma AnswerIs(goals: map<GoalKey, ServerGoal>, action: string, ask: Action.CancelAsk, order: seq<GoalKey>, code: nat,
                 stamps: seq<(Uuid, (int, nat))>)
    requires Stamped(goals, order, stamps) && code == Action.ReturnCode(goals, action, ask)
    ensures (forall k :: k in order ==> k in goals)
            && CancelAnswer(code, stamps) == Action.CancelAnswerOf(goals, action, ask, order)
  {
    hide Action.ReturnCode;
  }

  lemma ListsNone<T(!new)>(xs: seq<T>, all: set<T>)
    requires Lists(xs, all)
    ensures xs == [] <==> all == {}
  {
    if xs != [] { assert xs[0] in xs; }
  }

  function Entities(es: seq<Entity>): set<Entity> {
    set e | e in es
  }

  /** The members of a set in some order. */
  ghost function Enumerate<T(!new)>(all: set<T>): (xs: seq<T>)
    ensures Lists(xs, all)
  {
    if all == {} then []
    else
      var x :| x in all;
      [x] + Enumerate(all - {x})
  }

  /** What messages and responses come down to. */
  lemma MessageIs(s: State, e: Entity, m: Delivery.Message, now: nat, order: seq<Connection>)
    requires Move.HearFits(s, e, m, now, order)
    ensures Move.Do(s, Move.Hear(e, m, now, order)) == Move.OnMessage(s, e, m, now, order)
  {
    hide Move.OnMessage, Move.HearFits;
  }

  lemma ResponseIs(s: State, ticket: Ticket, answer: Action.Answer)
    ensures Move.Do(s, Move.Learn(ticket, answer)) == Move.OnResponse(s, ticket, answer)
  {
    hide Move.OnResponse;
  }

  lemma Unheard(s: State, e: Entity, m: Delivery.Message, now: nat)
    requires forall g :: g in s.actions.goals ==> s.actions.goals[g].five.feedback != e
    requires forall t :: t in s.topics.subscriptions ==> s.topics.subscriptions[t].entity != e
    ensures Move.OnMessage(s, e, m, now, []) == s
  {
    assert forall g :: !Topic.FeedbackFor(s, e, g);
    assert forall t :: !Topic.Subscribed(s, e, t);
  }

  lemma NoPartServed(s: State, e: Entity)
    requires forall a :: a in s.servers.actionServers ==>
      (var five := s.servers.actionServers[a].five; e != five.send && e != five.cancel && e != five.result)
    ensures !exists a, p :: Move.ServesPart(s, e, a, p)
  {
  }

  lemma Unserved(s: State, e: Entity, request: nat, asked: Move.Asked, now: nat)
    requires forall k :: k in asked.notices ==> k in s.servers.serverGoals
    requires forall n :: n in s.rpc.services ==> s.rpc.services[n].entity != e
    requires !exists a, p :: Move.ServesPart(s, e, a, p)
    ensures Move.OnRequest(s, e, request, asked, now) == s
  {
    assert forall n :: !Move.Serves(s, e, n);
  }

  lemma NoneLeaves()
    ensures forall a :: !Leaving.Leaves([], a)
  {
  }

  lemma NextLeaves(s: State, o: Connection, xs: seq<(string, seq<GoalKey>)>, last: (string, seq<GoalKey>), r: State)
    requires Leaving.OwnsActions(s.servers, o, xs) && !Leaving.Leaves(xs, last.0)
    requires last.0 in s.servers.actionServers && s.servers.actionServers[last.0].owner == o
    requires r.servers == Leaving.ServersLeft(s.servers, xs)
    requires Lists(last.1, Action.GoalsOf(r.servers.serverGoals, last.0))
    ensures Leaving.OwnsActions(s.servers, o, xs + [last])
    ensures forall a :: Leaving.Leaves(xs + [last], a) <==> Leaving.Leaves(xs, a) || a == last.0
    ensures Move.Do(r, Move.LeaveAction(o, last.0, last.1)) == Action.RemoveAction(r, o, last.0, last.1).0
  {
    hide Action.RemoveAction;
    assert Action.GoalsOf(r.servers.serverGoals, last.0) == Action.GoalsOf(s.servers.serverGoals, last.0);
    assert forall i :: 0 <= i < |xs| ==> xs[i].0 != last.0;
    Leaving.LeavesOneMore(xs + [last]);
    assert (xs + [last])[..|xs|] == xs;
  }

  lemma NoServicesLeft(services: map<string, Service>, o: Connection, xs: seq<string>)
    requires Lists(xs, Leaving.OwnServices(services, o))
    ensures forall n :: n in Leaving.ServicesLeft(services, xs) ==> Leaving.ServicesLeft(services, xs)[n].owner != o
  {
  }

  lemma OneMoreGone(s: State, gone: seq<(Connection, Leaving.Leave)>, who: set<Connection>, o: Connection,
                    l: Leaving.Leave)
    requires Ticks.Departs(s, gone, who) && Leaving.LeaveFits(Ticks.DisconnectAll(s, gone), o, l)
    ensures Ticks.Departs(s, gone + [(o, l)], who + {o})
    ensures Ticks.DisconnectAll(s, gone + [(o, l)]) == Runs.Take(Ticks.DisconnectAll(s, gone), Runs.Gone(o, l))
  {
    hide Leaving.LeaveFits, Runs.Take;
    var more := gone + [(o, l)];
    assert more[..|gone|] == gone;
    forall i | 0 <= i < |more| ensures Leaving.LeaveFits(Ticks.DisconnectAll(s, more[..i]), more[i].0, more[i].1) {
      if i < |gone| { assert more[..i] == gone[..i]; }
    }
    Ticks.GoesConcat(gone, [(o, l)]);
    assert [(o, l)][0].0 == o;
  }

  /** What the backend reports when it is polled. */
  datatype Arrival =
    | Message(entity: Entity, message: Delivery.Message)
    | Response(ticket: Ticket, answer: Action.Answer)
    | Request(service: Entity, request: nat, asked: Move.Asked)

  function NativeOf(a: Arrival): Native
    requires a.Request?
  {
    (a.service, a.request)
  }

  ghost predicate Arrived(arrivals: seq<Arrival>, r: Native) {
    exists i :: 0 <= i < |arrivals| && arrivals[i].Request? && NativeOf(arrivals[i]) == r
  }

  ghost predicate Distinct(arrivals: seq<Arrival>) {
    forall i, j :: 0 <= i < j < |arrivals| && arrivals[i].Request? && arrivals[j].Request? ==>
      NativeOf(arrivals[i]) != NativeOf(arrivals[j])
  }

  /** What polling comes to: reports, or a failure over which the reports are lost; either way it took requests. */
  datatype Polled =
    | Reported(taken: set<Native>, next: nat, arrivals: seq<Arrival>)
    | Failed(taken: set<Native>, next: nat)

  /** A poll that succeeds reports exactly the requests it took, each once. */
  ghost predicate Consistent(p: Polled) {
    p.Reported? ==> Distinct(p.arrivals) && forall r :: r in p.taken <==> Arrived(p.arrivals, r)
  }

  /** The move is the handling of the report. */
  ghost predicate Reports(m: Move.Move, a: Arrival, now: nat) {
    match a
    case Message(e, message) => m.Hear? && m == Move.Hear(e, message, now, m.order)
    case Response(ticket, answer) => m == Move.Learn(ticket, answer)
    case Request(e, request, asked) => m.Serve? && m == Move.Serve(e, request, asked.(notices := m.asked.notices), now)
  }

  lemma NoWaits(limit: nat)
    ensures Delivery.Least({limit} + {}) == limit
  {
  }

  lemma NothingDone(s: State)
    ensures Move.DoAll(s, []) == s
  {
  }

  ghost predicate DueAt(topic: string, sub: Subscription, place: (string, Connection), now: nat) {
    place.0 == topic && place.1 in sub.clients && Delivery.Due(sub.clients[place.1], now).1.Some?
  }

  ghost predicate IsPopped(topic: string, sub: Subscription, place: (string, Connection), m: Sent, now: nat) {
    DueAt(topic, sub, place, now)
      && m == Sent(place.1, Publish(topic, Delivery.Due(sub.clients[place.1], now).1.value))
  }

  /** The moves handle the reports, in order. */
  ghost predicate Plans(moves: seq<Move.Move>, arrivals: seq<Arrival>, now: nat) {
    |moves| == |arrivals| && forall i :: 0 <= i < |moves| ==> Reports(moves[i], arrivals[i], now)
  }

  lemma OneMoreFits(s: State, moves: seq<Move.Move>, m: Move.Move)
    requires Ticks.AllFitting(s, moves) && Move.Fits(Move.DoAll(s, moves), m)
    ensures Ticks.AllFitting(s, moves + [m])
  {
    hide Move.DoAll, Move.Fits;
    var more := moves + [m];
    forall i | 0 <= i < |more| ensures Move.Fits(Move.DoAll(s, more[..i]), more[i]) {
      if i < |moves| {
        assert more[..i] == moves[..i];
      } else {
        assert more[..i] == moves;
      }
    }
  }

  lemma AllAreEvents(moves: seq<Move.Move>, arrivals: seq<Arrival>, now: nat)
    requires Plans(moves, arrivals, now)
    ensures forall m :: m in moves ==> Ticks.IsEvent(m)
    ensures forall r :: Arrived(arrivals, r) <==> Ticks.Handles(moves, r)
  {
    forall r ensures Arrived(arrivals, r) <==> Ticks.Handles(moves, r) {
      if i :| 0 <= i < |arrivals| && arrivals[i].Request? && NativeOf(arrivals[i]) == r {
        assert Reports(moves[i], arrivals[i], now) && moves[i] in moves;
      }
      if m :| m in moves && m.Serve? && (m.entity, m.request) == r {
        var i :| 0 <= i < |moves| && moves[i] == m;
        assert Reports(moves[i], arrivals[i], now);
      }
    }
    forall m | m in moves ensures Ticks.IsEvent(m) {
      var i :| 0 <= i < |moves| && moves[i] == m;
      assert Reports(moves[i], arrivals[i], now);
    }
  }

  /** `due` lists the due places of `topics`, and `out` is what was found there. */
  ghost predicate PoppedFrom(subs: map<string, Subscription>, topics: set<string>, out: seq<Sent>,
                             due: seq<(string, Connection)>, now: nat)
  {
    && |out| == |due|
    && (forall i :: 0 <= i < |due| ==> Topic.IsDue(subs, due[i], now) && out[i] == Topic.DueMessage(subs, due[i], now))
    && (forall p :: p in due <==> Topic.IsDue(subs, p, now) && p.0 in topics)
    && forall i, j :: 0 <= i < j < |due| ==> due[i] != due[j]
  }

  lemma NothingPopped(subs: map<string, Subscription>, now: nat)
    ensures PoppedFrom(subs, subs.Keys - subs.Keys, [], [], now)
  {
  }

  lemma PoppedIsDue(subs: map<string, Subscription>, t: string, place: (string, Connection), m: Sent, now: nat)
    requires t in subs && IsPopped(t, subs[t], place, m, now)
    ensures Topic.IsDue(subs, place, now) && m == Topic.DueMessage(subs, place, now) && place.0 == t
  {
    hide Delivery.Due;
  }

  lemma DueOfTopic(subs: map<string, Subscription>, t: string, place: (string, Connection), now: nat)
    requires t in subs
    ensures DueAt(t, subs[t], place, now) <==> Topic.IsDue(subs, place, now) && place.0 == t
  {
    hide Delivery.Due;
  }

  lemma MorePopped(subs: map<string, Subscription>, topics: set<string>, out: seq<Sent>,
                   due: seq<(string, Connection)>,
                   t: string, messages: seq<Sent>, places: seq<(string, Connection)>, now: nat)
    requires PoppedFrom(subs, topics, out, due, now) && t in subs && t !in topics
    requires |messages| == |places| && forall i :: 0 <= i < |places| ==> IsPopped(t, subs[t], places[i], messages[i], now)
    requires forall p :: p in places <==> DueAt(t, subs[t], p, now)
    requires forall i, j :: 0 <= i < j < |places| ==> places[i] != places[j]
    ensures PoppedFrom(subs, topics + {t}, out + messages, due + places, now)
  {
    hide Delivery.Due, Topic.DueMessage, IsPopped, Topic.IsDue, DueAt;
    forall i | 0 <= i < |places| ensures Topic.IsDue(subs, places[i], now)
      && messages[i] == Topic.DueMessage(subs, places[i], now) && places[i].0 == t {
      PoppedIsDue(subs, t, places[i], messages[i], now);
    }
    forall p ensures DueAt(t, subs[t], p, now) <==> Topic.IsDue(subs, p, now) && p.0 == t {
      DueOfTopic(subs, t, p, now);
    }
    forall p ensures p in due + places <==> Topic.IsDue(subs, p, now) && p.0 in topics + {t} {
      assert p in due + places <==> p in due || p in places;
    }
    forall i, j | 0 <= i < j < |due + places| ensures (due + places)[i] != (due + places)[j] {
      if i < |due| && |due| <= j {
        assert due[i] in due && places[j - |due|] in places;
      }
    }
  }

  lemma AllPopped(subs: map<string, Subscription>, out: seq<Sent>, due: seq<(string, Connection)>, now: nat)
    requires PoppedFrom(subs, subs.Keys, out, due, now)
    ensures forall i :: 0 <= i < |due| ==> Topic.IsDue(subs, due[i], now)
    ensures out == Topic.DueMessages(subs, due, now) && Lists(due, Topic.DuePlaces(subs, now))
  {
    hide Delivery.Due, Topic.DueMessage;
    assert forall p :: p in Topic.DuePlaces(subs, now) <==> Topic.IsDue(subs, p, now) by {
      forall p | Topic.IsDue(subs, p, now) ensures p in Topic.DuePlaces(subs, now) {
        assert p == (p.0, p.1);
      }
    }
  }
}

/** Topic registrations, shared entities and message delivery (src/bridge/topics.rs). */
module BridgeTopics {
  import opened Basics
  import opened Backend
  import opened BridgeState
  import opened Delivery

  /** What a topic command says about its type and its quality of service. */
  datatype Setup = Setup(declared: Declared, known: Option<seq<string>>, settings: Settings)

  /** The `qos` field: absent, malformed, or with a durability; `offered` is what the publishers suggest. */
  datatype Settings = NoSettings(offered: bool) | BadSettings | Durable(transientLocal: bool)

  function Advertise(s: State, owner: Connection, topic: string, id: Id, setup: Setup): (State, bool) {
    if topic in s.topics.publishers then
      var p := s.topics.publishers[topic];
      if setup.declared.Invalid? || (setup.declared.Type? && setup.declared.name != p.typ) then (s, false)
      else
        var ids := if owner in p.owners then p.owners[owner] else {};
        (s.(topics := s.topics.(
           publishers := s.topics.publishers[topic := p.(owners := p.owners[owner := ids + {id}])])), true)
    else
      var (ros, listed) := s.ros.Query();
      var typ := if listed then Resolve(setup.declared, setup.known) else None;
      if typ.None? || setup.settings.BadSettings? then (s.(ros := ros), false)
      else
        match ros.Create()
        case (ros2, None) => (s.(ros := ros2), false)
        case (ros2, Some(e)) =>
          (s.(ros := ros2, topics := s.topics.(publishers := s.topics.publishers[topic := Publisher(e, typ.value,
            map[owner := {id}])])), true)
  }

  function Unadvertise(s: State, owner: Connection, topic: string, id: Id): (State, bool) {
    if topic !in s.topics.publishers || owner !in s.topics.publishers[topic].owners then (s, false)
    else
      var p := s.topics.publishers[topic];
      if id.Some? && id !in p.owners[owner] then (s, false)
      else
        var ids := if id.Some? then p.owners[owner] - {id} else {};
        var owners := if ids == {} then p.owners - {owner} else p.owners[owner := ids];
        if owners == map[] then
          (s.(topics := s.topics.(publishers := s.topics.publishers - {topic}), ros := s.ros.Destroy(p.entity)), true)
        else (s.(topics := s.topics.(publishers := s.topics.publishers[topic := p.(owners := owners)])), true)
  }

  function PublishTo(s: State, owner: Connection, topic: string, id: Id, setup: Setup): (State, bool) {
    var (s1, ok) := Advertise(s, owner, topic, id, setup);
    if !ok || topic !in s1.topics.publishers then (s1, false)
    else
      var (ros, sent) := s1.ros.Publish(s1.topics.publishers[topic].entity);
      (s1.(ros := ros), sent)
  }

  /** The shared entity a subscription needs, created on first use. */
  function OpenTopic(s: State, topic: string, setup: Setup): (State, bool) {
    var (ros, listed) := s.ros.Query();
    var typ := if listed then Resolve(setup.declared, setup.known) else None;
    if typ.None? then (s.(ros := ros), false)
    else if topic in s.topics.subscriptions then (s.(ros := ros), s.topics.subscriptions[topic].typ == typ.value)
    else
      var (ros2, known) := if setup.settings.NoSettings? then ros.Query() else (ros, setup.settings.Durable?);
      if !known then (s.(ros := ros2), false)
      else
        var durable := if setup.settings.NoSettings? then setup.settings.offered else setup.settings.transientLocal;
        match ros2.Create()
        case (ros3, None) => (s.(ros := ros3), false)
        case (ros3, Some(e)) =>
          (s.(ros := ros3, topics := s.topics.(subscriptions := s.topics.subscriptions[topic := Subscription(durable,
            None, e, typ.value, map[])])), true)
  }

  /** Registers the client; a new one gets the retained sample. */
  function JoinTopic(s: State, owner: Connection, topic: string, id: Id, options: Options, now: nat): State
    requires topic in s.topics.subscriptions
  {
    var sub := s.topics.subscriptions[topic];
    if owner in sub.clients then
      var c := sub.clients[owner];
      var clients := sub.clients[owner := c.(registrations := c.registrations[id := options])];
      s.(topics := s.topics.(subscriptions := s.topics.subscriptions[topic := sub.(clients := clients)]))
    else
      var clients := sub.clients[owner := Join(id, options, sub.retained, now)];
      var s1 := s.(topics := s.topics.(subscriptions := s.topics.subscriptions[topic := sub.(clients := clients)]));
      if sub.retained.Some? then SendTo(s1, owner, Publish(topic, sub.retained.value)) else s1
  }

  function Subscribe(s: State, owner: Connection, topic: string, id: Id, options: Options, setup: Setup,
                     now: nat): (State, bool) {
    var (s1, ok) := OpenTopic(s, topic, setup);
    if !ok || topic !in s1.topics.subscriptions then (s1, false)
    else (JoinTopic(s1, owner, topic, id, options, now), true)
  }

  function Unsubscribe(s: State, owner: Connection, topic: string, id: Id): (State, bool) {
    if topic !in s.topics.subscriptions || owner !in s.topics.subscriptions[topic].clients then (s, false)
    else
      var sub := s.topics.subscriptions[topic];
      var c := sub.clients[owner];
      if id.Some? && id !in c.registrations then (s, false)
      else
        var rest := if id.Some? then c.registrations - {id} else map[];
        var clients := if rest == map[] then sub.clients - {owner}
                       else sub.clients[owner := c.(registrations := rest)];
        if clients == map[] then
          (s.(topics := s.topics.(subscriptions := s.topics.subscriptions - {topic}),
              ros := s.ros.Destroy(sub.entity)), true)
        else (s.(topics := s.topics.(subscriptions := s.topics.subscriptions[topic := sub.(clients := clients)])), true)
  }

  // ---------- messages ----------

  ghost predicate FeedbackFor(s: State, e: Entity, goal: Uuid) {
    goal in s.actions.goals && s.actions.goals[goal].five.feedback == e
  }

  ghost predicate Subscribed(s: State, e: Entity, topic: string) {
    topic in s.topics.subscriptions && s.topics.subscriptions[topic].entity == e
  }

  /** Feedback on a client goal, for the client that wants it and only about its own goal. */
  function GoalMessage(s: State, goal: Uuid, m: Message): State
    requires goal in s.actions.goals
  {
    var g := s.actions.goals[goal];
    if g.feedback && m.goal == Some(goal) then SendTo(s, g.owner, GoalFeedback(goal, g.action, g.id)) else s
  }

  ghost function Arrived(sub: Subscription, m: Message, now: nat): Subscription {
    sub.(retained := if sub.transientLocal then Some(m) else sub.retained,
    clients := map c | c in sub.clients :: Arrive(sub.clients[c], m, now).0)
  }

  /** The clients a message goes to at once. */
  ghost function Receivers(sub: Subscription, m: Message, now: nat): set<Connection> {
    set c | c in sub.clients && Arrive(sub.clients[c], m, now).1.Some?
  }

  function ToEach(order: seq<Connection>, body: Body): seq<Sent> {
    seq(|order|, i requires 0 <= i < |order| => Sent(order[i], body))
  }

  /** The message is offered to every client of the topic, then sent on in `order`. */
  ghost function TopicMessage(s: State, topic: string, m: Message, now: nat, order: seq<Connection>): State
    requires topic in s.topics.subscriptions
  {
    SendAll(s.(topics := s.topics.(
                 subscriptions := s.topics.subscriptions[topic := Arrived(s.topics.subscriptions[topic], m, now)])),
            ToEach(order, Publish(topic, m)))
  }

  /** `tick`: every client whose oldest queued message is due loses it from its queue. */
  ghost function Popped(subs: map<string, Subscription>, now: nat): map<string, Subscription> {
    map t | t in subs :: PoppedTopic(subs[t], now)
  }

  ghost function PoppedTopic(sub: Subscription, now: nat): Subscription {
    sub.(clients := map c | c in sub.clients :: Due(sub.clients[c], now).0)
  }

  ghost predicate IsDue(subs: map<string, Subscription>, place: (string, Connection), now: nat) {
    place.0 in subs && place.1 in subs[place.0].clients && Due(subs[place.0].clients[place.1], now).1.Some?
  }

  ghost function DuePlaces(subs: map<string, Subscription>, now: nat): set<(string, Connection)> {
    set t, c | t in subs && c in subs[t].clients && IsDue(subs, (t, c), now) :: (t, c)
  }

  ghost function DueMessage(subs: map<string, Subscription>, place: (string, Connection), now: nat): Sent
    requires IsDue(subs, place, now)
  {
    Sent(place.1, Publish(place.0, Due(subs[place.0].clients[place.1], now).1.value))
  }

  ghost function DueMessages(subs: map<string, Subscription>, order: seq<(string, Connection)>, now: nat): seq<Sent>
    requires forall i :: 0 <= i < |order| ==> IsDue(subs, order[i], now)
  {
    seq(|order|, i requires 0 <= i < |order| && IsDue(subs, order[i], now) => DueMessage(subs, order[i], now))
  }

  ghost function DeliverDue(s: State, order: seq<(string, Connection)>, now: nat): State
    requires forall i :: 0 <= i < |order| ==> IsDue(s.topics.subscriptions, order[i], now)
  {
    SendAll(s.(topics := s.topics.(subscriptions := Popped(s.topics.subscriptions, now))),
            DueMessages(s.topics.subscriptions, order, now))
  }
}

/** What a client gets from the operations on topics and services, and what undoes them (src/bridge). */
module BridgeOutcomes {
  import opened Basics
  import opened Backend
  import opened BridgeState
  import opened BridgeTopics
  import opened BridgeServices
  import opened BridgeMoves
  import opened BridgeShapes
  import opened BridgeRuns
  import Delivery
  import Own = BridgeOwnership
  import Owners = BridgeOwners
  import Requests = BridgeRequests
  import Replies = BridgeReplies

  // ---------- messages ----------

  /** A message reaches a connected client that has not failed, and only that client can fail over it. */
  lemma SendReaches(s: State, owner: Connection, body: Body)
    ensures var t := SendTo(s, owner, body);
      && t == s.(desk := t.desk) && t.desk.outputs == s.desk.outputs
      && t.desk.wire.accepts == s.desk.wire.accepts
      && (t.desk.wire.sent == s.desk.wire.sent + [Sent(owner, body)]
          <==> owner in s.desk.outputs && owner !in s.desk.failed)
      && (t.desk.wire.sent == s.desk.wire.sent <==> owner !in s.desk.outputs || owner in s.desk.failed)
      && forall o :: o in t.desk.failed <==>
           o in s.desk.failed
           || (o == owner && owner in s.desk.outputs && !s.desk.wire.accepts(|s.desk.wire.sent|))
  {
  }

  /** However much is sent, a client that failed hears nothing more and stays failed. */
  lemma {:induction false} FailedHearsNothing(d: Desk, owner: Connection, messages: seq<Sent>)
    requires owner in d.failed
    ensures var e := PostAll(d, messages);
      && owner in e.failed && d.wire.sent <= e.wire.sent
      && forall i :: |d.wire.sent| <= i < |e.wire.sent| ==> e.wire.sent[i].owner != owner
    decreases |messages|
  {
    if messages != [] { FailedHearsNothing(d, owner, messages[..|messages| - 1]); }
  }

  // ---------- advertising ----------

  ghost predicate Advertised(pubs: map<string, Publisher>, o: Connection, topic: string, id: Id) {
    topic in pubs && o in pubs[topic].owners && id in pubs[topic].owners[o]
  }

  /** One registration more, on a topic that keeps its entity if it had one. */
  ghost predicate AdvertisedMore(a: map<string, Publisher>, b: map<string, Publisher>, owner: Connection,
                                 topic: string, id: Id)
  {
    && (forall o: Connection, n, i ::
          Advertised(b, o, n, i) <==> Advertised(a, o, n, i) || (o == owner && n == topic && i == id))
    && (forall n :: n in a ==> n in b && b[n].entity == a[n].entity)
    && b.Keys == a.Keys + {topic}
  }

  /**
   Advertising registers exactly this id of this client, on the topic's one entity, which is
   created if it was missing; failing, it changes no record, entity or request.
   */
  lemma AdvertiseRegisters(s: State, owner: Connection, topic: string, id: Id, setup: Setup)
    ensures var (t, ok) := Advertise(s, owner, topic, id, setup);
      && t == s.(topics := s.topics.(publishers := t.topics.publishers), ros := t.ros)
      && (!ok ==> t.topics == s.topics && Rolled(s.ros, t.ros))
      && (ok ==>
            && AdvertisedMore(s.topics.publishers, t.topics.publishers, owner, topic, id)
            && (if topic in s.topics.publishers then t.ros == s.ros
                else Grew(s.ros, t.ros, {t.topics.publishers[topic].entity})))
  {
    AdvertiseShape(s, owner, topic, id, setup);
    if topic in s.topics.publishers { OwnerJoins(s.topics.publishers, owner, topic, id); }
  }

  /** The registrations of a topic once a client has one id more. */
  function With(owners: map<Connection, set<Id>>, owner: Connection, id: Id): map<Connection, set<Id>> {
    owners[owner := (if owner in owners then owners[owner] else {}) + {id}]
  }

  lemma OwnerJoins(a: map<string, Publisher>, owner: Connection, topic: string, id: Id)
    requires topic in a
    ensures AdvertisedMore(a, a[topic := a[topic].(owners := With(a[topic].owners, owner, id))], owner, topic, id)
  {
  }

  /** Exactly what is named was taken back, and a topic stays as long as something on it is left. */
  ghost predicate AdvertisedLess(a: map<string, Publisher>, b: map<string, Publisher>, owner: Connection,
                                 topic: string, id: Id)
  {
    && (forall o: Connection, n, i ::
          Advertised(b, o, n, i) <==> Advertised(a, o, n, i) && !(o == owner && n == topic && (id.None? || i == id)))
    && (topic in b <==> exists o: Connection, i :: Advertised(b, o, topic, i))
    && b.Keys + {topic} == a.Keys + {topic}
  }

  /** Unadvertising takes back exactly what it names, if it names anything, and the entity with the last of it. */
  lemma UnadvertiseForgets(s: State, owner: Connection, topic: string, id: Id)
    requires Owners.TopicsBy(s.topics, s.desk.outputs)
    ensures var (t, ok) := Unadvertise(s, owner, topic, id);
      && (ok <==> exists i :: Advertised(s.topics.publishers, owner, topic, i) && (id.None? || i == id))
      && t == s.(topics := s.topics.(publishers := t.topics.publishers), ros := t.ros)
      && (!ok ==> t == s)
      && (ok ==>
            && AdvertisedLess(s.topics.publishers, t.topics.publishers, owner, topic, id)
            && t.ros == if topic in t.topics.publishers then s.ros else s.ros.Destroy(s.topics.publishers[topic].entity))
  {
    var (t, ok) := Unadvertise(s, owner, topic, id);
    if topic in s.topics.publishers && owner in s.topics.publishers[topic].owners {
      var p := s.topics.publishers[topic];
      assert Owners.PublisherBy(p, s.desk.outputs);
      var i :| i in p.owners[owner];
      assert Advertised(s.topics.publishers, owner, topic, i);
      if ok {
        assert Advertised(s.topics.publishers, owner, topic, if id.Some? then id else i);
        OwnersLeft(s.topics.publishers, owner, topic, id);
      }
    }
  }

  /** The registrations of a topic once a client gave up one of its ids, or all. */
  function Without(owners: map<Connection, set<Id>>, owner: Connection, id: Id): map<Connection, set<Id>>
    requires owner in owners
  {
    var ids := if id.Some? then owners[owner] - {id} else {};
    if ids == {} then owners - {owner} else owners[owner := ids]
  }

  lemma WithoutIs(owners: map<Connection, set<Id>>, owner: Connection, id: Id, c: Connection, i: Id)
    requires owner in owners
    ensures var left := Without(owners, owner, id);
      c in left && i in left[c] <==> c in owners && i in owners[c] && !(c == owner && (id.None? || i == id))
    ensures (forall d :: d in owners ==> owners[d] != {}) ==>
      forall d :: d in Without(owners, owner, id) ==> Without(owners, owner, id)[d] != {}
  {
    var ids := if id.Some? then owners[owner] - {id} else {};
    assert i in ids <==> i in owners[owner] && !(id.None? || i == id);
  }

  lemma OwnersLeft(a: map<string, Publisher>, owner: Connection, topic: string, id: Id)
    requires topic in a && owner in a[topic].owners && forall c :: c in a[topic].owners ==> a[topic].owners[c] != {}
    ensures var left := Without(a[topic].owners, owner, id);
      AdvertisedLess(a, if left == map[] then a - {topic} else a[topic := a[topic].(owners := left)], owner, topic, id)
  {
    var owners := a[topic].owners;
    var left := Without(owners, owner, id);
    var b := if left == map[] then a - {topic} else a[topic := a[topic].(owners := left)];
    forall c: Connection, i ensures c in left && i in left[c]
                                    <==> c in owners && i in owners[c] && !(c == owner && (id.None? || i == id)) {
      WithoutIs(owners, owner, id, c, i);
    }
    WithoutIs(owners, owner, id, owner, id);
    hide Without;
    if left != map[] {
      var o :| o in left;
      var i :| i in left[o];
      assert Advertised(b, o, topic, i);
    }
  }

  /** Unadvertising an id undoes advertising it, down to the backend's entities and requests. */
  lemma UnadvertiseUndoesAdvertise(s: State, owner: Connection, topic: string, id: Id, setup: Setup)
    requires s.ros.Valid() && Owners.TopicsBy(s.topics, s.desk.outputs)
    requires id.Some? && !Advertised(s.topics.publishers, owner, topic, id)
    requires Advertise(s, owner, topic, id, setup).1
    ensures var (t, ok) := Unadvertise(Advertise(s, owner, topic, id, setup).0, owner, topic, id);
      ok && t == s.(ros := t.ros) && Rolled(s.ros, t.ros)
  {
    hide Advertise, Unadvertise, Rolled, Grew;
    var s1 := Advertise(s, owner, topic, id, setup).0;
    if topic in s.topics.publishers {
      var p := s.topics.publishers[topic];
      assert Owners.PublisherBy(p, s.desk.outputs);
      OwnerComesAndGoes(s, owner, topic, id, setup);
      SameIsRolled(s.ros);
    } else {
      AdvertiseShape(s, owner, topic, id, setup);
      var e := s1.topics.publishers[topic].entity;
      LastOwnerGoes(s1, owner, topic, id);
      assert s1.topics.publishers - {topic} == s.topics.publishers;
      GoneAgain(s.ros, s1.ros, e);
    }
  }

  lemma SameIsRolled(a: Ros)
    ensures Rolled(a, a)
  {
  }

  lemma OwnerComesAndGoes(s: State, owner: Connection, topic: string, id: Id, setup: Setup)
    requires topic in s.topics.publishers && id.Some? && !Advertised(s.topics.publishers, owner, topic, id)
    requires s.topics.publishers[topic].owners != map[]
    requires owner in s.topics.publishers[topic].owners ==> s.topics.publishers[topic].owners[owner] != {}
    requires Advertise(s, owner, topic, id, setup).1
    ensures Unadvertise(Advertise(s, owner, topic, id, setup).0, owner, topic, id) == (s, true)
  {
    var p := s.topics.publishers[topic];
    var ids := if owner in p.owners then p.owners[owner] else {};
    var more := With(p.owners, owner, id);
    var s1 := Advertise(s, owner, topic, id, setup).0;
    assert s1 == s.(topics := s.topics.(publishers := s.topics.publishers[topic := p.(owners := more)]));
    assert more[owner] - {id} == ids;
    assert Without(more, owner, Some(id.value)) == p.owners;
    assert s.topics.publishers[topic := p.(owners := more)][topic := p] == s.topics.publishers;
    hide Advertise;
    assert Unadvertise(s1, owner, topic, id) == (s, true);
  }

  lemma LastOwnerGoes(s: State, owner: Connection, topic: string, id: Id)
    requires topic in s.topics.publishers && s.topics.publishers[topic].owners == map[owner := {id}] && id.Some?
    ensures Unadvertise(s, owner, topic, id)
         == (s.(topics := s.topics.(publishers := s.topics.publishers - {topic}),
                ros := s.ros.Destroy(s.topics.publishers[topic].entity)), true)
  {
    assert {id} - {id} == {};
    assert map[owner := {id}] - {owner} == map[];
  }

  /** A new entity that is destroyed leaves nothing behind. */
  lemma GoneAgain(a: Ros, b: Ros, e: Entity)
    requires a.Valid() && Grew(a, b, {e})
    ensures Rolled(a, b.Destroy(e))
  {
    assert e in {e};
    assert b.Destroy(e).live == a.live;
    assert b.Destroy(e).requests == a.requests;
  }

  // ---------- subscribing ----------

  ghost predicate Registered(subs: map<string, Subscription>, o: Connection, topic: string, id: Id) {
    topic in subs && o in subs[topic].clients && id in subs[topic].clients[o].registrations
  }

  ghost function OptionsOf(subs: map<string, Subscription>, o: Connection, topic: string, id: Id): Delivery.Options
    requires Registered(subs, o, topic, id)
  {
    subs[topic].clients[o].registrations[id]
  }

  ghost predicate Subscribes(subs: map<string, Subscription>, o: Connection, topic: string) {
    topic in subs && o in subs[topic].clients
  }

  ghost predicate KeepsClient(a: map<string, Subscription>, b: map<string, Subscription>, o: Connection, n: string) {
    && Subscribes(a, o, n) && Subscribes(b, o, n)
    && b[n].clients[o].pending == a[n].clients[o].pending && b[n].clients[o].last == a[n].clients[o].last
  }

  /** Whoever stays subscribed keeps what is queued, and when it was last served. */
  ghost predicate KeepsQueues(a: map<string, Subscription>, b: map<string, Subscription>) {
    forall o: Connection, n :: Subscribes(a, o, n) && Subscribes(b, o, n) ==> KeepsClient(a, b, o, n)
  }

  /** One registration more, with these options. */
  ghost predicate RegisteredMore(a: map<string, Subscription>, b: map<string, Subscription>, owner: Connection,
                                 topic: string, id: Id, options: Delivery.Options)
  {
    && (forall o: Connection, n, i ::
          Registered(b, o, n, i) <==> Registered(a, o, n, i) || (o == owner && n == topic && i == id))
    && OptionsOf(b, owner, topic, id) == options
    && (forall o: Connection, n, i :: Registered(a, o, n, i) && !(o == owner && n == topic && i == id) ==>
          OptionsOf(b, o, n, i) == OptionsOf(a, o, n, i))
  }

  /** The sample a client that is new to a topic is given at once. */
  ghost function Sample(subs: map<string, Subscription>, owner: Connection, topic: string): seq<Sent> {
    if topic in subs && owner !in subs[topic].clients && subs[topic].retained.Some?
    then [Sent(owner, Publish(topic, subs[topic].retained.value))]
    else []
  }

  /**
   Subscribing registers exactly this id with its options, disturbs nobody's queue, and sends
   one message at most: the retained sample, to a client new to the topic.
   */
  lemma SubscribeRegisters(s: State, owner: Connection, topic: string, id: Id, options: Delivery.Options,
                           setup: Setup, now: nat)
    ensures var (t, ok) := Subscribe(s, owner, topic, id, options, setup, now);
      var a, b := s.topics.subscriptions, t.topics.subscriptions;
      && t == s.(topics := s.topics.(subscriptions := b), desk := t.desk, ros := t.ros)
      && (!ok ==> b == a && t.desk == s.desk && Rolled(s.ros, t.ros))
      && (ok ==>
            && RegisteredMore(a, b, owner, topic, id, options) && KeepsQueues(a, b)
            && t.desk == PostAll(s.desk, Sample(a, owner, topic))
            && (if topic in a then Rolled(s.ros, t.ros) else Grew(s.ros, t.ros, {b[topic].entity})))
  {
    OpenTopicShape(s, topic, setup);
    var (s1, there) := OpenTopic(s, topic, setup);
    hide OpenTopic, JoinTopic, RegisteredMore, KeepsQueues, PostAll, Sample;
    if there && topic in s1.topics.subscriptions {
      JoinTopicShape(s1, owner, topic, id, options, now);
      JoinRegisters(s1, owner, topic, id, options, now);
      JoinSends(s1, owner, topic, id, options, now);
      var t := JoinTopic(s1, owner, topic, id, options, now);
      OpenedIsEmpty(s.topics.subscriptions, s1.topics.subscriptions, owner, topic);
      RegisteredFrom(s.topics.subscriptions, s1.topics.subscriptions, t.topics.subscriptions, owner, topic, id, options);
    }
  }

  /** The topic is there already, or was opened without a client. */
  ghost predicate OnlyOpened(a: map<string, Subscription>, b: map<string, Subscription>, topic: string) {
    && topic in b
    && (b == a
        || (topic !in a && b[topic].clients == map[] && b[topic].retained.None? && b == a[topic := b[topic]]))
  }

  lemma OpenedIsEmpty(a: map<string, Subscription>, b: map<string, Subscription>, owner: Connection, topic: string)
    requires OnlyOpened(a, b, topic)
    ensures Sample(b, owner, topic) == Sample(a, owner, topic)
  {
  }

  lemma RegisteredFrom(a: map<string, Subscription>, b: map<string, Subscription>, c: map<string, Subscription>,
                       owner: Connection, topic: string, id: Id, options: Delivery.Options)
    requires OnlyOpened(a, b, topic) && RegisteredMore(b, c, owner, topic, id, options) && KeepsQueues(b, c)
    ensures RegisteredMore(a, c, owner, topic, id, options) && KeepsQueues(a, c)
  {
    assert forall o: Connection, n, i :: Registered(a, o, n, i) <==> Registered(b, o, n, i);
    assert forall o: Connection, n :: Subscribes(a, o, n) <==> Subscribes(b, o, n);
  }

  lemma JoinRegisters(s: State, owner: Connection, topic: string, id: Id, options: Delivery.Options, now: nat)
    requires topic in s.topics.subscriptions
    ensures var a, b := s.topics.subscriptions, JoinTopic(s, owner, topic, id, options, now).topics.subscriptions;
      RegisteredMore(a, b, owner, topic, id, options) && KeepsQueues(a, b)
  {
    hide JoinTopic;
    var a, b := s.topics.subscriptions, JoinTopic(s, owner, topic, id, options, now).topics.subscriptions;
    JoinTopicShape(s, owner, topic, id, options, now);
    JoinedClient(s, owner, topic, id, options, now);
    OneClientMore(a, owner, topic, id, options, b[topic].clients[owner]);
    assert b == a[topic := a[topic].(clients := a[topic].clients[owner := b[topic].clients[owner]])];
  }

  lemma OneClientMore(a: map<string, Subscription>, owner: Connection, topic: string, id: Id,
                      options: Delivery.Options, c: Delivery.Client)
    requires topic in a
    requires if owner in a[topic].clients then
               c == a[topic].clients[owner].(registrations := a[topic].clients[owner].registrations[id := options])
             else c.registrations == map[id := options]
    ensures var b := a[topic := a[topic].(clients := a[topic].clients[owner := c])];
      RegisteredMore(a, b, owner, topic, id, options) && KeepsQueues(a, b)
  {
    var b := a[topic := a[topic].(clients := a[topic].clients[owner := c])];
    assert KeepsQueues(a, b);
    assert OptionsOf(b, owner, topic, id) == options;
  }

  lemma JoinedClient(s: State, owner: Connection, topic: string, id: Id, options: Delivery.Options, now: nat)
    requires topic in s.topics.subscriptions
    ensures var a, t := s.topics.subscriptions, JoinTopic(s, owner, topic, id, options, now);
      && topic in t.topics.subscriptions && owner in t.topics.subscriptions[topic].clients
      && var c := t.topics.subscriptions[topic].clients[owner];
      if owner in a[topic].clients then
        c == a[topic].clients[owner].(registrations := a[topic].clients[owner].registrations[id := options])
      else c.registrations == map[id := options]
  {
    hide Post;
  }

  lemma JoinSends(s: State, owner: Connection, topic: string, id: Id, options: Delivery.Options, now: nat)
    requires topic in s.topics.subscriptions
    ensures JoinTopic(s, owner, topic, id, options, now).desk
         == PostAll(s.desk, Sample(s.topics.subscriptions, owner, topic))
  {
    hide Post;
    var m := Sample(s.topics.subscriptions, owner, topic);
    if m != [] { assert m[..0] == []; }
  }

  /** Exactly what is named was taken back, and a topic stays as long as something on it is left. */
  ghost predicate RegisteredLess(a: map<string, Subscription>, b: map<string, Subscription>, owner: Connection,
                                 topic: string, id: Id)
  {
    && (forall o: Connection, n, i ::
          Registered(b, o, n, i) <==> Registered(a, o, n, i) && !(o == owner && n == topic && (id.None? || i == id)))
    && (topic in b <==> exists o: Connection, i :: Registered(b, o, topic, i))
    && b.Keys + {topic} == a.Keys + {topic}
  }

  /** Unsubscribing takes back exactly what it names, if anything, and the entity with the last of it. */
  lemma UnsubscribeForgets(s: State, owner: Connection, topic: string, id: Id)
    requires Owners.TopicsBy(s.topics, s.desk.outputs)
    ensures var (t, ok) := Unsubscribe(s, owner, topic, id);
      var a, b := s.topics.subscriptions, t.topics.subscriptions;
      && (ok <==> exists i :: Registered(a, owner, topic, i) && (id.None? || i == id))
      && t == s.(topics := s.topics.(subscriptions := b), ros := t.ros)
      && (!ok ==> t == s)
      && (ok ==> RegisteredLess(a, b, owner, topic, id) && KeepsQueues(a, b)
                 && t.ros == if topic in b then s.ros else s.ros.Destroy(a[topic].entity))
  {
    var (t, ok) := Unsubscribe(s, owner, topic, id);
    var a := s.topics.subscriptions;
    if topic in a && owner in a[topic].clients {
      assert Owners.SubscriptionBy(a[topic], s.desk.outputs);
      var i :| i in a[topic].clients[owner].registrations;
      assert Registered(a, owner, topic, i);
      if ok {
        assert Registered(a, owner, topic, if id.Some? then id else i);
        ClientsLeft(a, owner, topic, id);
        UnsubscribeIs(s, owner, topic, id);
      }
    }
  }

  lemma UnsubscribeIs(s: State, owner: Connection, topic: string, id: Id)
    requires Unsubscribe(s, owner, topic, id).1
    ensures var a, t := s.topics.subscriptions, Unsubscribe(s, owner, topic, id).0;
      && t.topics.subscriptions == SubscriptionsAfter(a, owner, topic, id)
      && t.ros == if topic in t.topics.subscriptions then s.ros else s.ros.Destroy(a[topic].entity)
  {
  }

  function ClientsWithout(clients: map<Connection, Delivery.Client>, owner: Connection, id: Id)
    : map<Connection, Delivery.Client>
    requires owner in clients
  {
    var rest := if id.Some? then clients[owner].registrations - {id} else map[];
    if rest == map[] then clients - {owner} else clients[owner := clients[owner].(registrations := rest)]
  }

  lemma ClientsWithoutIs(clients: map<Connection, Delivery.Client>, owner: Connection, id: Id, c: Connection, i: Id)
    requires owner in clients && forall d :: d in clients ==> clients[d].registrations != map[]
    ensures var left := ClientsWithout(clients, owner, id);
      && (c in left && i in left[c].registrations <==>
          c in clients && i in clients[c].registrations && !(c == owner && (id.None? || i == id)))
      && (c in left ==> c in clients && left[c].registrations != map[]
                        && left[c].pending == clients[c].pending && left[c].last == clients[c].last)
  {
    var rest := if id.Some? then clients[owner].registrations - {id} else map[];
    assert i in rest <==> i in clients[owner].registrations && !(id.None? || i == id);
  }

  function SubscriptionsAfter(a: map<string, Subscription>, owner: Connection, topic: string, id: Id)
    : map<string, Subscription>
    requires topic in a && owner in a[topic].clients
  {
    var left := ClientsWithout(a[topic].clients, owner, id);
    if left == map[] then a - {topic} else a[topic := a[topic].(clients := left)]
  }

  lemma RegisteredAfter(a: map<string, Subscription>, owner: Connection, topic: string, id: Id,
                        o: Connection, n: string, i: Id)
    requires topic in a && owner in a[topic].clients
    requires forall c :: c in a[topic].clients ==> a[topic].clients[c].registrations != map[]
    ensures var b := SubscriptionsAfter(a, owner, topic, id);
      && (Registered(b, o, n, i) <==>
          Registered(a, o, n, i) && !(o == owner && n == topic && (id.None? || i == id)))
      && (Subscribes(b, o, n) ==> KeepsClient(a, b, o, n))
  {
    ClientsWithoutIs(a[topic].clients, owner, id, o, i);
    hide ClientsWithout;
  }

  lemma SomeoneStays(a: map<string, Subscription>, owner: Connection, topic: string, id: Id)
    requires topic in a && owner in a[topic].clients
    requires forall c :: c in a[topic].clients ==> a[topic].clients[c].registrations != map[]
    ensures var b := SubscriptionsAfter(a, owner, topic, id);
      topic in b ==> exists o: Connection, i :: Registered(b, o, topic, i)
  {
    var b := SubscriptionsAfter(a, owner, topic, id);
    var left := ClientsWithout(a[topic].clients, owner, id);
    if left != map[] {
      var o :| o in left;
      ClientsWithoutIs(a[topic].clients, owner, id, o, id);
      var i :| i in left[o].registrations;
      assert Registered(b, o, topic, i);
    }
  }

  lemma ClientsLeft(a: map<string, Subscription>, owner: Connection, topic: string, id: Id)
    requires topic in a && owner in a[topic].clients
    requires forall c :: c in a[topic].clients ==> a[topic].clients[c].registrations != map[]
    ensures RegisteredLess(a, SubscriptionsAfter(a, owner, topic, id), owner, topic, id)
    ensures KeepsQueues(a, SubscriptionsAfter(a, owner, topic, id))
  {
    hide SubscriptionsAfter, Registered;
    var b := SubscriptionsAfter(a, owner, topic, id);
    SomeoneStays(a, owner, topic, id);
    SameTopicsAfter(a, owner, topic, id);
    forall o: Connection, n, i
      ensures Registered(b, o, n, i) <==>
              Registered(a, o, n, i) && !(o == owner && n == topic && (id.None? || i == id))
    {
      RegisteredAfter(a, owner, topic, id, o, n, i);
    }
    forall o: Connection, n
      ensures Subscribes(b, o, n) ==> KeepsClient(a, b, o, n)
    {
      RegisteredAfter(a, owner, topic, id, o, n, id);
    }
    assert topic in b <==> exists o: Connection, i :: Registered(b, o, topic, i) by { RegisteredSomewhere(b, topic); }
  }

  lemma SameTopicsAfter(a: map<string, Subscription>, owner: Connection, topic: string, id: Id)
    requires topic in a && owner in a[topic].clients
    ensures SubscriptionsAfter(a, owner, topic, id).Keys + {topic} == a.Keys + {topic}
  {
    hide ClientsWithout;
  }

  lemma RegisteredSomewhere(b: map<string, Subscription>, topic: string)
    ensures forall o: Connection, i :: Registered(b, o, topic, i) ==> topic in b
  {
  }

  /** Unsubscribing an id undoes subscribing it, but for the sample already sent. */
  lemma UnsubscribeUndoesSubscribe(s: State, owner: Connection, topic: string, id: Id, options: Delivery.Options,
                                   setup: Setup, now: nat)
    requires s.ros.Valid() && Owners.TopicsBy(s.topics, s.desk.outputs)
    requires id.Some? && !Registered(s.topics.subscriptions, owner, topic, id)
    requires Subscribe(s, owner, topic, id, options, setup, now).1
    ensures var (t, ok) := Unsubscribe(Subscribe(s, owner, topic, id, options, setup, now).0, owner, topic, id);
      && ok && t == s.(desk := t.desk, ros := t.ros)
      && t.desk == PostAll(s.desk, Sample(s.topics.subscriptions, owner, topic)) && Rolled(s.ros, t.ros)
  {
    hide Subscribe, JoinTopic, Unsubscribe, PostAll, Sample, Owners.TopicsBy, Owners.SubscriptionBy, Rolled, Grew,
      Ros.Valid;
    var s0 := SubscribeIs(s, owner, topic, id, options, setup, now);
    OpenedIsEmpty(s.topics.subscriptions, s0.topics.subscriptions, owner, topic);
    JoinSends(s0, owner, topic, id, options, now);
    LeavingUndoesJoining(s0, owner, topic, id, options, now);
    if topic !in s.topics.subscriptions {
      assert s0.topics.subscriptions - {topic} == s.topics.subscriptions;
      GoneAgain(s.ros, s0.ros, s0.topics.subscriptions[topic].entity);
    }
  }

  /** Subscribing opens the topic if need be, and then joins. */
  lemma SubscribeIs(s: State, owner: Connection, topic: string, id: Id, options: Delivery.Options, setup: Setup,
                    now: nat) returns (s0: State)
    requires Owners.TopicsBy(s.topics, s.desk.outputs) && Subscribe(s, owner, topic, id, options, setup, now).1
    ensures s0 == s.(topics := s0.topics, ros := s0.ros) && s0.topics.publishers == s.topics.publishers
    ensures OnlyOpened(s.topics.subscriptions, s0.topics.subscriptions, topic)
    ensures Subscribe(s, owner, topic, id, options, setup, now).0 == JoinTopic(s0, owner, topic, id, options, now)
    ensures if topic in s.topics.subscriptions then Rolled(s.ros, s0.ros)
            else Grew(s.ros, s0.ros, {s0.topics.subscriptions[topic].entity})
    ensures topic in s.topics.subscriptions ==>
      && s.topics.subscriptions[topic].clients != map[]
      && forall c :: c in s.topics.subscriptions[topic].clients ==>
           s.topics.subscriptions[topic].clients[c].registrations != map[]
  {
    OpenTopicShape(s, topic, setup);
    s0 := OpenTopic(s, topic, setup).0;
    if topic in s.topics.subscriptions {
      assert Owners.SubscriptionBy(s.topics.subscriptions[topic], s.desk.outputs);
    }
    hide OpenTopic, JoinTopic;
  }

  lemma LeavingUndoesJoining(s: State, owner: Connection, topic: string, id: Id, options: Delivery.Options, now: nat)
    requires topic in s.topics.subscriptions && id.Some? && !Registered(s.topics.subscriptions, owner, topic, id)
    requires owner in s.topics.subscriptions[topic].clients ==>
      s.topics.subscriptions[topic].clients[owner].registrations != map[]
    ensures var joined := JoinTopic(s, owner, topic, id, options, now);
      var (t, ok) := Unsubscribe(joined, owner, topic, id);
      && ok && t.desk == joined.desk
      && t == s.(topics := s.topics.(subscriptions := t.topics.subscriptions), desk := t.desk, ros := t.ros)
      && (if s.topics.subscriptions[topic].clients == map[]
          then t.topics.subscriptions == s.topics.subscriptions - {topic}
               && t.ros == s.ros.Destroy(s.topics.subscriptions[topic].entity)
          else t.topics.subscriptions == s.topics.subscriptions && t.ros == s.ros)
  {
    var a := s.topics.subscriptions;
    var joined := JoinTopic(s, owner, topic, id, options, now);
    JoinTopicShape(s, owner, topic, id, options, now);
    JoinedClient(s, owner, topic, id, options, now);
    hide JoinTopic;
    ClientComesAndGoes(a[topic].clients, joined.topics.subscriptions[topic].clients, owner, id, options);
    UnsubscribeIs(joined, owner, topic, id);
  }

  lemma ClientComesAndGoes(before: map<Connection, Delivery.Client>, after: map<Connection, Delivery.Client>,
                           owner: Connection, id: Id, options: Delivery.Options)
    requires owner in after && after == before[owner := after[owner]] && id.Some?
    requires if owner in before then
               && id !in before[owner].registrations && before[owner].registrations != map[]
               && after[owner] == before[owner].(registrations := before[owner].registrations[id := options])
             else after[owner].registrations == map[id := options]
    ensures id in after[owner].registrations && ClientsWithout(after, owner, id) == before
  {
    if owner in before {
      assert after[owner].registrations - {id} == before[owner].registrations;
      assert ClientsWithout(after, owner, id) == before;
    } else {
      assert after[owner].registrations - {id} == map[];
      assert after - {owner} == before;
    }
  }
}

/** Whatever a table search finds is the only thing it could find (src/bridge). */
module BridgeLookups {
  import opened Basics
  import opened Backend
  import opened BridgeState
  import opened BridgeTopics
  import opened BridgeServices
  import opened BridgeActions
  import opened BridgeMoves
  import Delivery
  import Own = BridgeOwnership
  import Tracks = BridgeClientGoals
  import Goals = BridgeServerGoals
  import Runs = BridgeRuns

  lemma ActiveGoalIs(s: State, k: Uuid, owner: Connection, action: string, id: string)
    requires Tracks.OneById(s.actions.goals) && Wanted(s, k, owner, action, id)
    ensures ActiveGoal(s, owner, action, id) == Some(k)
  {
    var found := ActiveGoal(s, owner, action, id);
    assert found.Some?;
    assert SameGoal(s.actions.goals[found.value], s.actions.goals[k].owner, s.actions.goals[k].action,
                    s.actions.goals[k].id);
  }

  lemma ServedGoalIs(s: State, k: GoalKey, owner: Connection, action: string, id: string)
    requires Goals.Numbered(s.servers.serverGoals, s.desk.next) && GoalNamed(s, k, owner, action, id)
    ensures ServedGoal(s, owner, action, id) == Some(k)
  {
    var found := ServedGoal(s, owner, action, id);
    assert found.Some?;
  }

  lemma FeedbackGoalIs(s: State, e: Entity, m: Delivery.Message, now: nat, order: seq<Connection>, g: Uuid)
    requires Runs.Invariant(s) && FeedbackFor(s, e, g)
    ensures OnMessage(s, e, m, now, order) == GoalMessage(s, g, m)
  {
    assert Own.Owned(s);
    hide GoalMessage, Ros.Valid, Runs.Invariant;
    forall h | FeedbackFor(s, e, h) ensures h == g {
      assert Own.Holder(Own.RecordsOf(s), Own.OfGoal(g, Feedback)) == Own.Holder(Own.RecordsOf(s),
        Own.OfGoal(h, Feedback));
    }
  }

  /** Entities are not shared: one that carries a goal's feedback carries no topic, and no entity carries two. */
  lemma OneTopicOnly(s: State, e: Entity)
    requires Runs.Invariant(s)
    ensures forall g, t :: FeedbackFor(s, e, g) ==> !Subscribed(s, e, t)
    ensures forall t, u :: Subscribed(s, e, t) && Subscribed(s, e, u) ==> t == u
  {
    assert Own.Owned(s);
    hide Ros.Valid, Runs.Invariant;
    forall g, t | FeedbackFor(s, e, g) ensures !Subscribed(s, e, t) {
      assert Own.Holder(Own.RecordsOf(s), Own.OfGoal(g, Feedback)) == Some(e);
      assert Subscribed(s, e, t) ==> Own.Holder(Own.RecordsOf(s), Own.OfSubscription(t)) == Some(e);
    }
    forall t, u | Subscribed(s, e, t) && Subscribed(s, e, u) ensures t == u {
      assert Own.Holder(Own.RecordsOf(s), Own.OfSubscription(t)) == Own.Holder(Own.RecordsOf(s), Own.OfSubscription(u));
    }
  }

  lemma OnePartOnly(s: State, e: Entity, a: string, p: Part)
    requires Runs.Invariant(s) && ServesPart(s, e, a, p)
    ensures forall b, q :: ServesPart(s, e, b, q) ==> b == a && q == p
  {
    assert Own.Owned(s);
    hide Ros.Valid, Runs.Invariant;
    forall b, q | ServesPart(s, e, b, q) ensures b == a && q == p {
      assert Own.Holder(Own.RecordsOf(s), Own.OfServer(a, p)) == Own.Holder(Own.RecordsOf(s), Own.OfServer(b, q));
    }
  }

  lemma SubscribedTopicIs(s: State, e: Entity, m: Delivery.Message, now: nat, order: seq<Connection>, t: string)
    requires Runs.Invariant(s) && Subscribed(s, e, t) && !exists g :: FeedbackFor(s, e, g)
    ensures OnMessage(s, e, m, now, order) == TopicMessage(s, t, m, now, order)
  {
    assert Own.Owned(s);
    hide TopicMessage, GoalMessage, Ros.Valid, Runs.Invariant;
    forall u | Subscribed(s, e, u) ensures u == t {
      assert Own.Holder(Own.RecordsOf(s), Own.OfSubscription(t)) == Own.Holder(Own.RecordsOf(s),
        Own.OfSubscription(u));
    }
  }

  lemma ServedPartIs(s: State, e: Entity, request: nat, asked: Asked, now: nat, a: string, p: Part)
    requires Runs.Invariant(s) && ServesPart(s, e, a, p)
    requires forall k :: k in asked.notices ==> k in s.servers.serverGoals
    ensures OnRequest(s, e, request, asked, now)
         == DiscardOnError(RequestOnAction(Handling(s, (e, request)), a, p, request, asked), e, request)
  {
    assert Own.Owned(s);
    hide RequestOnAction, DiscardOnError, Ros.Valid, Runs.Invariant;
    forall b, q | ServesPart(s, e, b, q) ensures b == a && q == p {
      assert Own.Holder(Own.RecordsOf(s), Own.OfServer(a, p)) == Own.Holder(Own.RecordsOf(s), Own.OfServer(b, q));
    }
  }

  lemma ServedServiceIs(s: State, e: Entity, request: nat, asked: Asked, now: nat, n: string)
    requires Runs.Invariant(s) && Serves(s, e, n) && !exists a, p :: ServesPart(s, e, a, p)
    requires forall k :: k in asked.notices ==> k in s.servers.serverGoals
    ensures OnRequest(s, e, request, asked, now) == ForwardRequest(Handling(s, (e, request)), n, request, now)
  {
    assert Own.Owned(s);
    hide ForwardRequest, RequestOnAction, Ros.Valid, Runs.Invariant;
    forall m | Serves(s, e, m) ensures m == n {
      assert Own.Holder(Own.RecordsOf(s), Own.OfService(n)) == Own.Holder(Own.RecordsOf(s), Own.OfService(m));
    }
  }
}

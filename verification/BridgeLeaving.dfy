/** A client leaves: everything it owned goes, everything it shared stays with the others (src/bridge/mod.rs). */
module BridgeLeaving {
  import opened Basics
  import opened Backend
  import opened BridgeState
  import opened BridgeTopics
  import opened BridgeServices
  import opened BridgeActions
  import opened BridgeMoves
  import opened BridgeShapes
  import Requests = BridgeRequests
  import Goals = BridgeServerGoals
  import Delivery

  /** What a client leaves behind, in the order in which it is taken down. */
  datatype Leave = Leave(
    topics: seq<string>,
    subscriptions: seq<string>,
    services: seq<string>,
    actions: seq<(string, seq<GoalKey>)>,
    goals: seq<Uuid>,
    calls: seq<Ticket>)

  function TopicMoves(o: Connection, xs: seq<string>): seq<Move> {
    seq(|xs|, i requires 0 <= i < |xs| => LeaveTopic(o, xs[i]))
  }

  function SubscriptionMoves(o: Connection, xs: seq<string>): seq<Move> {
    seq(|xs|, i requires 0 <= i < |xs| => LeaveSubscription(o, xs[i]))
  }

  function ServiceMoves(o: Connection, xs: seq<string>): seq<Move> {
    seq(|xs|, i requires 0 <= i < |xs| => LeaveService(o, xs[i]))
  }

  function ActionMoves(o: Connection, xs: seq<(string, seq<GoalKey>)>): seq<Move> {
    seq(|xs|, i requires 0 <= i < |xs| => LeaveAction(o, xs[i].0, xs[i].1))
  }

  function GoalMoves(xs: seq<Uuid>): seq<Move> {
    seq(|xs|, i requires 0 <= i < |xs| => LeaveGoal(xs[i]))
  }

  function CallMoves(xs: seq<Ticket>): seq<Move> {
    seq(|xs|, i requires 0 <= i < |xs| => LeaveCall(xs[i]))
  }

  /** `disconnect` as moves. */
  function LeaveMoves(o: Connection, l: Leave): seq<Move> {
    [Depart(o)] + TopicMoves(o, l.topics) + SubscriptionMoves(o, l.subscriptions) + ServiceMoves(o, l.services)
    + ActionMoves(o, l.actions) + GoalMoves(l.goals) + CallMoves(l.calls) + [LeaveExternal(o)]
  }

  lemma {:induction false} DoAllConcat(s: State, a: seq<Move>, b: seq<Move>)
    ensures DoAll(s, a + b) == DoAll(DoAll(s, a), b)
    decreases |b|
  {
    hide Do;
    if b == [] {
      assert a + b == a;
    } else {
      var n := |b| - 1;
      DoAllConcat(s, a, b[..n]);
      assert (a + b)[..|a + b| - 1] == a + b[..n];
    }
  }

  lemma DoAllSnoc(s: State, a: seq<Move>, m: Move)
    ensures DoAll(s, a + [m]) == Do(DoAll(s, a), m)
  {
    hide Do;
    assert (a + [m])[..|a|] == a;
  }

  lemma NoMoves(s: State, o: Connection)
    ensures DoAll(s, TopicMoves(o, [])) == s && DoAll(s, SubscriptionMoves(o, [])) == s
      && DoAll(s, ServiceMoves(o, [])) == s
    ensures DoAll(s, ActionMoves(o, [])) == s && DoAll(s, GoalMoves([])) == s && DoAll(s, CallMoves([])) == s
  {
  }

  lemma OneMoreTopic(s: State, o: Connection, xs: seq<string>, x: string)
    ensures DoAll(s, TopicMoves(o, xs + [x])) == Unadvertise(DoAll(s, TopicMoves(o, xs)), o, x, None).0
  {
    hide Unadvertise, DoAll;
    assert TopicMoves(o, xs + [x]) == TopicMoves(o, xs) + [LeaveTopic(o, x)];
    DoAllSnoc(s, TopicMoves(o, xs), LeaveTopic(o, x));
  }

  lemma OneMoreSubscription(s: State, o: Connection, xs: seq<string>, x: string)
    ensures DoAll(s, SubscriptionMoves(o, xs + [x])) == Unsubscribe(DoAll(s, SubscriptionMoves(o, xs)), o, x, None).0
  {
    hide Unsubscribe, DoAll;
    assert SubscriptionMoves(o, xs + [x]) == SubscriptionMoves(o, xs) + [LeaveSubscription(o, x)];
    DoAllSnoc(s, SubscriptionMoves(o, xs), LeaveSubscription(o, x));
  }

  lemma OneMoreService(s: State, o: Connection, xs: seq<string>, x: string)
    ensures DoAll(s, ServiceMoves(o, xs + [x])) == RemoveService(DoAll(s, ServiceMoves(o, xs)), o, x).0
  {
    hide RemoveService, DoAll;
    assert ServiceMoves(o, xs + [x]) == ServiceMoves(o, xs) + [LeaveService(o, x)];
    DoAllSnoc(s, ServiceMoves(o, xs), LeaveService(o, x));
  }

  lemma OneMoreGoal(s: State, xs: seq<Uuid>, x: Uuid)
    ensures DoAll(s, GoalMoves(xs + [x])) == AbandonGoal(DoAll(s, GoalMoves(xs)), x)
  {
    hide AbandonGoal, Do, DoAll;
    assert GoalMoves(xs + [x]) == GoalMoves(xs) + [LeaveGoal(x)];
    DoAllSnoc(s, GoalMoves(xs), LeaveGoal(x));
    LeavingIs(DoAll(s, GoalMoves(xs)), 0, "", x);
  }

  lemma LeavingIs(s: State, o: Connection, x: string, g: Uuid)
    ensures Do(s, LeaveTopic(o, x)) == Unadvertise(s, o, x, None).0
    ensures Do(s, LeaveSubscription(o, x)) == Unsubscribe(s, o, x, None).0
    ensures Do(s, LeaveGoal(g)) == AbandonGoal(s, g)
  {
    hide Unadvertise, Unsubscribe, AbandonGoal;
  }

  lemma OneMoreCall(s: State, xs: seq<Ticket>, x: Ticket)
    ensures DoAll(s, CallMoves(xs + [x])) == DropCall(DoAll(s, CallMoves(xs)), x)
  {
    hide DropCall, DoAll;
    assert CallMoves(xs + [x]) == CallMoves(xs) + [LeaveCall(x)];
    DoAllSnoc(s, CallMoves(xs), LeaveCall(x));
  }

  ghost predicate NoDuplicates<T(!new)>(xs: seq<T>) {
    forall i, j :: 0 <= i < j < |xs| ==> xs[i] != xs[j]
  }

  // ---------- what is left ----------

  function RestPublishers(a: map<string, Publisher>, o: Connection): map<string, Publisher> {
    map t | t in a && a[t].owners.Keys != {o} :: a[t].(owners := a[t].owners - {o})
  }

  function RestSubscriptions(a: map<string, Subscription>, o: Connection): map<string, Subscription> {
    map t | t in a && a[t].clients.Keys != {o} :: a[t].(clients := a[t].clients - {o})
  }

  function RestServices(a: map<string, Service>, o: Connection): map<string, Service> {
    map n | n in a && a[n].owner != o :: a[n]
  }

  function RestExternal(a: map<string, External>, o: Connection): map<string, External> {
    map k | k in a && a[k].owner != o :: a[k]
  }

  function RestCalls(a: map<Ticket, Call>, o: Connection): map<Ticket, Call> {
    map k | k in a && a[k].owner != o :: a[k]
  }

  function RestGoals(a: map<Uuid, ClientGoal>, o: Connection): map<Uuid, ClientGoal> {
    map k | k in a && a[k].owner != o :: a[k]
  }

  function RestServers(a: map<string, ActionServer>, o: Connection): map<string, ActionServer> {
    map k | k in a && a[k].owner != o :: a[k]
  }

  function RestServerGoals(v: Servers, o: Connection): map<GoalKey, ServerGoal> {
    map k | k in v.serverGoals && !(k.0 in v.actionServers && v.actionServers[k.0].owner == o) :: v.serverGoals[k]
  }

  // ---------- what a client has ----------

  function OwnTopics(a: map<string, Publisher>, o: Connection): set<string> {
    set t | t in a && o in a[t].owners
  }

  function OwnSubscriptions(a: map<string, Subscription>, o: Connection): set<string> {
    set t | t in a && o in a[t].clients
  }

  function OwnServices(a: map<string, Service>, o: Connection): set<string> {
    set n | n in a && a[n].owner == o
  }

  function OwnGoals(a: map<Uuid, ClientGoal>, o: Connection): set<Uuid> {
    set g | g in a && a[g].owner == o
  }

  function OwnCalls(a: map<Ticket, Call>, o: Connection): set<Ticket> {
    set t | t in a && a[t].owner == o
  }

  // ---------- phase by phase ----------

  function TopicsLeft(a: map<string, Publisher>, o: Connection, xs: seq<string>): map<string, Publisher> {
    map t | t in a && !(t in xs && a[t].owners.Keys == {o}) ::
      if t in xs then a[t].(owners := a[t].owners - {o}) else a[t]
  }

  ghost predicate OwnsTopics(a: map<string, Publisher>, o: Connection, xs: seq<string>) {
    NoDuplicates(xs) && forall t :: t in xs ==> t in a && o in a[t].owners
  }

  /** One more topic; the call the source ignores the result of cannot fail. */
  lemma LeaveOneTopic(r: State, o: Connection, a: map<string, Publisher>, xs: seq<string>)
    requires xs != [] && OwnsTopics(a, o, xs) && r.topics.publishers == TopicsLeft(a, o, xs[..|xs| - 1])
    ensures var (t, ok) := Unadvertise(r, o, xs[|xs| - 1], None);
      && ok && t == r.(topics := r.topics.(publishers := TopicsLeft(a, o, xs)), ros := t.ros)
      && Do(r, LeaveTopic(o, xs[|xs| - 1])) == t
  {
    hide Do;
    var x := xs[|xs| - 1];
    LeavingIs(r, o, x, 0);
    UnadvertiseShape(r, o, x, None);
    var t := Unadvertise(r, o, x, None).0;
    assert r.topics.publishers[x] == a[x];
    assert forall y :: y in xs <==> y in xs[..|xs| - 1] || y == x;
    assert t.topics.publishers == TopicsLeft(a, o, xs);
  }

  lemma {:induction false} LeaveTopics(s: State, o: Connection, xs: seq<string>)
    requires OwnsTopics(s.topics.publishers, o, xs)
    ensures var r := DoAll(s, TopicMoves(o, xs));
      r == s.(topics := s.topics.(publishers := TopicsLeft(s.topics.publishers, o, xs)), ros := r.ros)
    decreases |xs|
  {
    hide Do, Unadvertise;
    if xs == [] {
      assert TopicsLeft(s.topics.publishers, o, xs) == s.topics.publishers;
    } else {
      var n := |xs| - 1;
      LeaveTopics(s, o, xs[..n]);
      assert TopicMoves(o, xs) == TopicMoves(o, xs[..n]) + [LeaveTopic(o, xs[n])];
      DoAllSnoc(s, TopicMoves(o, xs[..n]), LeaveTopic(o, xs[n]));
      LeaveOneTopic(DoAll(s, TopicMoves(o, xs[..n])), o, s.topics.publishers, xs);
    }
  }

  function SubscriptionsLeft(a: map<string, Subscription>, o: Connection, xs: seq<string>)
    : map<string, Subscription> {
    map t | t in a && !(t in xs && a[t].clients.Keys == {o}) ::
      if t in xs then a[t].(clients := a[t].clients - {o}) else a[t]
  }

  ghost predicate OwnsSubscriptions(a: map<string, Subscription>, o: Connection, xs: seq<string>) {
    NoDuplicates(xs) && forall t :: t in xs ==> t in a && o in a[t].clients
  }

  lemma LeaveOneSubscription(r: State, o: Connection, a: map<string, Subscription>, xs: seq<string>)
    requires xs != [] && OwnsSubscriptions(a, o, xs)
      && r.topics.subscriptions == SubscriptionsLeft(a, o, xs[..|xs| - 1])
    ensures var (t, ok) := Unsubscribe(r, o, xs[|xs| - 1], None);
      && ok && t == r.(topics := r.topics.(subscriptions := SubscriptionsLeft(a, o, xs)), ros := t.ros)
      && Do(r, LeaveSubscription(o, xs[|xs| - 1])) == t
  {
    hide Do;
    var x := xs[|xs| - 1];
    LeavingIs(r, o, x, 0);
    UnsubscribeShape(r, o, x, None);
    var t := Unsubscribe(r, o, x, None).0;
    assert r.topics.subscriptions[x] == a[x];
    assert forall y :: y in xs <==> y in xs[..|xs| - 1] || y == x;
    assert t.topics.subscriptions == SubscriptionsLeft(a, o, xs);
  }

  lemma {:induction false} LeaveSubscriptions(s: State, o: Connection, xs: seq<string>)
    requires OwnsSubscriptions(s.topics.subscriptions, o, xs)
    ensures var r := DoAll(s, SubscriptionMoves(o, xs));
      r == s.(topics := s.topics.(subscriptions := SubscriptionsLeft(s.topics.subscriptions, o, xs)), ros := r.ros)
    decreases |xs|
  {
    hide Do, Unsubscribe;
    if xs == [] {
      assert SubscriptionsLeft(s.topics.subscriptions, o, xs) == s.topics.subscriptions;
    } else {
      var n := |xs| - 1;
      LeaveSubscriptions(s, o, xs[..n]);
      assert SubscriptionMoves(o, xs) == SubscriptionMoves(o, xs[..n]) + [LeaveSubscription(o, xs[n])];
      DoAllSnoc(s, SubscriptionMoves(o, xs[..n]), LeaveSubscription(o, xs[n]));
      LeaveOneSubscription(DoAll(s, SubscriptionMoves(o, xs[..n])), o, s.topics.subscriptions, xs);
    }
  }

  // ---------- services ----------

  function ServicesLeft(a: map<string, Service>, xs: seq<string>): map<string, Service> {
    map n | n in a && n !in xs :: a[n]
  }

  function ExternalLeft(a: Rpc, xs: seq<string>): map<string, External> {
    map k | k in a.external
      && !(exists i :: 0 <= i < |xs| && xs[i] in a.services && a.services[xs[i]].entity == a.external[k].entity)
      :: a.external[k]
  }

  ghost predicate OwnsServices(a: map<string, Service>, o: Connection, xs: seq<string>) {
    NoDuplicates(xs) && forall n :: n in xs ==> n in a && a[n].owner == o
  }

  lemma RestAfterService(a: Rpc, xs: seq<string>)
    requires xs != [] && xs[|xs| - 1] in a.services && xs[|xs| - 1] !in xs[..|xs| - 1]
    ensures ServicesLeft(a.services, xs[..|xs| - 1]) - {xs[|xs| - 1]} == ServicesLeft(a.services, xs)
    ensures var before := ExternalLeft(a, xs[..|xs| - 1]);
      (map k | k in before && before[k].entity != a.services[xs[|xs| - 1]].entity :: before[k]) == ExternalLeft(a, xs)
  {
    var n := |xs| - 1;
    assert forall y :: y in xs <==> y in xs[..n] || y == xs[n];
    assert forall i :: 0 <= i < n ==> xs[..n][i] == xs[i];
  }

  lemma LeaveOneService(r: State, o: Connection, a: Rpc, xs: seq<string>)
    requires xs != [] && OwnsServices(a.services, o, xs)
    requires r.rpc.services == ServicesLeft(a.services, xs[..|xs| - 1])
      && r.rpc.external == ExternalLeft(a, xs[..|xs| - 1])
    ensures var (t, ok) := RemoveService(r, o, xs[|xs| - 1]);
      && ok && t == r.(rpc := r.rpc.(services := ServicesLeft(a.services, xs), external := ExternalLeft(a, xs)),
                       ros := t.ros)
      && Do(r, LeaveService(o, xs[|xs| - 1])) == t
  {
    var n := |xs| - 1;
    assert xs[n] !in xs[..n];
    assert r.rpc.services[xs[n]] == a.services[xs[n]];
    RestAfterService(a, xs);
    hide ExternalLeft;
  }

  lemma {:induction false} LeaveServices(s: State, o: Connection, xs: seq<string>)
    requires OwnsServices(s.rpc.services, o, xs)
    ensures var r := DoAll(s, ServiceMoves(o, xs));
      r == s.(rpc := s.rpc.(services := ServicesLeft(s.rpc.services, xs), external := ExternalLeft(s.rpc, xs)),
              ros := r.ros)
    decreases |xs|
  {
    hide Do, RemoveService;
    if xs == [] {
      assert ServicesLeft(s.rpc.services, xs) == s.rpc.services;
      assert ExternalLeft(s.rpc, xs) == s.rpc.external;
    } else {
      var n := |xs| - 1;
      LeaveServices(s, o, xs[..n]);
      assert ServiceMoves(o, xs) == ServiceMoves(o, xs[..n]) + [LeaveService(o, xs[n])];
      DoAllSnoc(s, ServiceMoves(o, xs[..n]), LeaveService(o, xs[n]));
      LeaveOneService(DoAll(s, ServiceMoves(o, xs[..n])), o, s.rpc, xs);
    }
  }

  // ---------- action servers ----------

  predicate Leaves(xs: seq<(string, seq<GoalKey>)>, action: string) {
    exists i :: 0 <= i < |xs| && xs[i].0 == action
  }

  function ServersLeft(v: Servers, xs: seq<(string, seq<GoalKey>)>): Servers {
    Servers(map a | a in v.actionServers && !Leaves(xs, a) :: v.actionServers[a],
            map k | k in v.serverGoals && !Leaves(xs, k.0) :: v.serverGoals[k])
  }

  ghost predicate OwnsActions(v: Servers, o: Connection, xs: seq<(string, seq<GoalKey>)>) {
    && (forall i, j :: 0 <= i < j < |xs| ==> xs[i].0 != xs[j].0)
    && forall i :: 0 <= i < |xs| ==>
         xs[i].0 in v.actionServers && v.actionServers[xs[i].0].owner == o
           && Lists(xs[i].1, GoalsOf(v.serverGoals, xs[i].0))
  }

  lemma LeavesOneMore(xs: seq<(string, seq<GoalKey>)>)
    requires xs != []
    ensures forall a :: Leaves(xs, a) <==> Leaves(xs[..|xs| - 1], a) || a == xs[|xs| - 1].0
  {
    var n := |xs| - 1;
    forall a ensures Leaves(xs, a) <==> Leaves(xs[..n], a) || a == xs[n].0 {
      if i :| 0 <= i < |xs| && xs[i].0 == a {
        if i < n { assert xs[..n][i].0 == a; }
      }
      if i :| 0 <= i < n && xs[..n][i].0 == a { assert xs[i].0 == a; }
    }
  }

  lemma RestAfterDrop(v: Servers, xs: seq<(string, seq<GoalKey>)>, goals: map<GoalKey, ServerGoal>)
    requires xs != [] && forall k :: k in xs[|xs| - 1].1 <==> k in v.serverGoals && k.0 == xs[|xs| - 1].0
    requires var before := ServersLeft(v, xs[..|xs| - 1]).serverGoals;
      goals == map k | k in before && k !in xs[|xs| - 1].1 :: before[k]
    ensures goals == ServersLeft(v, xs).serverGoals
    ensures ServersLeft(v, xs[..|xs| - 1]).actionServers - {xs[|xs| - 1].0} == ServersLeft(v, xs).actionServers
  {
    LeavesOneMore(xs);
    hide Leaves;
  }

  lemma LeaveOneAction(r: State, o: Connection, v: Servers, xs: seq<(string, seq<GoalKey>)>)
    requires xs != [] && OwnsActions(v, o, xs) && r.servers == ServersLeft(v, xs[..|xs| - 1])
    ensures var n := |xs| - 1; var (t, ok) := RemoveAction(r, o, xs[n].0, xs[n].1);
      && ok && Lists(xs[n].1, GoalsOf(r.servers.serverGoals, xs[n].0))
      && t == r.(servers := ServersLeft(v, xs), ros := t.ros)
      && Do(r, LeaveAction(o, xs[n].0, xs[n].1)) == t
  {
    hide Leaves, DropGoals, Answered, Five.All;
    var n := |xs| - 1;
    var (action, keys) := xs[n];
    NotYetLeft(v, o, xs);
    assert r.servers.actionServers[action] == v.actionServers[action];
    assert GoalsOf(r.servers.serverGoals, action) == GoalsOf(v.serverGoals, action);
    DropGoalsShape(r, keys);
    assert forall k :: k in keys <==> k in GoalsOf(v.serverGoals, action);
    RestAfterDrop(v, xs, DropGoals(r, keys).servers.serverGoals);
  }

  lemma NotYetLeft(v: Servers, o: Connection, xs: seq<(string, seq<GoalKey>)>)
    requires xs != [] && OwnsActions(v, o, xs)
    ensures !Leaves(xs[..|xs| - 1], xs[|xs| - 1].0)
  {
    var n := |xs| - 1;
    var before := xs[..n];
    assert forall i :: 0 <= i < n ==> before[i].0 != xs[n].0;
  }

  lemma {:induction false} LeaveActions(s: State, o: Connection, xs: seq<(string, seq<GoalKey>)>)
    requires OwnsActions(s.servers, o, xs)
    ensures var r := DoAll(s, ActionMoves(o, xs)); r == s.(servers := ServersLeft(s.servers, xs), ros := r.ros)
    decreases |xs|
  {
    hide Do, RemoveAction, Leaves;
    if xs == [] {
      assert ServersLeft(s.servers, xs) == s.servers by { NobodyLeaves(s.servers); }
    } else {
      var n := |xs| - 1;
      LeaveActions(s, o, xs[..n]);
      assert ActionMoves(o, xs) == ActionMoves(o, xs[..n]) + [LeaveAction(o, xs[n].0, xs[n].1)];
      DoAllSnoc(s, ActionMoves(o, xs[..n]), LeaveAction(o, xs[n].0, xs[n].1));
      LeaveOneAction(DoAll(s, ActionMoves(o, xs[..n])), o, s.servers, xs);
    }
  }

  lemma NobodyLeaves(v: Servers)
    ensures ServersLeft(v, []) == v
  {
    assert forall a :: !Leaves([], a);
    assert ServersLeft(v, []).actionServers == v.actionServers;
    assert ServersLeft(v, []).serverGoals == v.serverGoals;
  }

  // ---------- goals and calls ----------

  function ActionsLeft(a: Actions, xs: seq<Uuid>): Actions {
    Actions(map g | g in a.goals && g !in xs :: a.goals[g],
            map t | t in a.actionCalls && a.actionCalls[t].goal !in xs :: a.actionCalls[t],
            a.issued, a.stranded - set g | g in xs)
  }

  /** A client that is gone is sent nothing; only the counter behind unique ids may move. */
  ghost predicate Silent(a: Desk, b: Desk) {
    b == a.(next := b.next)
  }

  lemma LeaveOneGoal(r: State, o: Connection, a: Actions, xs: seq<Uuid>)
    requires xs != [] && NoDuplicates(xs) && (forall g :: g in xs ==> g in a.goals && a.goals[g].owner == o)
    requires r.actions == ActionsLeft(a, xs[..|xs| - 1]) && o !in r.desk.outputs
    ensures var t := AbandonGoal(r, xs[|xs| - 1]);
      && t == r.(actions := ActionsLeft(a, xs), ros := t.ros, desk := t.desk) && Silent(r.desk, t.desk)
      && Do(r, LeaveGoal(xs[|xs| - 1])) == t
  {
    hide Do, FinishGoal;
    var n := |xs| - 1;
    LeavingIs(r, o, "", xs[n]);
    var t := AbandonGoal(r, xs[n]);
    assert xs[n] !in xs[..n];
    assert r.actions.goals[xs[n]] == a.goals[xs[n]];
    FinishGoalShape(r, xs[n], 6, false);
    FinishGoalShape(r.(ros := r.ros.Request(r.actions.goals[xs[n]].five.cancel, AboutGoal(xs[n])).0), xs[n], 6, false);
    assert forall y :: y in xs <==> y in xs[..n] || y == xs[n];
    assert t.actions.goals == ActionsLeft(a, xs).goals;
    assert t.actions.actionCalls == ActionsLeft(a, xs).actionCalls;
    assert t.actions.stranded == ActionsLeft(a, xs).stranded;
  }

  lemma {:induction false} LeaveGoals(s: State, o: Connection, xs: seq<Uuid>)
    requires NoDuplicates(xs) && (forall g :: g in xs ==> g in s.actions.goals && s.actions.goals[g].owner == o)
    requires o !in s.desk.outputs
    ensures var r := DoAll(s, GoalMoves(xs));
      r == s.(actions := ActionsLeft(s.actions, xs), ros := r.ros, desk := r.desk) && Silent(s.desk, r.desk)
    decreases |xs|
  {
    hide Do, AbandonGoal;
    if xs == [] {
      assert ActionsLeft(s.actions, xs).goals == s.actions.goals;
      assert ActionsLeft(s.actions, xs).actionCalls == s.actions.actionCalls;
      assert ActionsLeft(s.actions, xs).stranded == s.actions.stranded;
    } else {
      var n := |xs| - 1;
      LeaveGoals(s, o, xs[..n]);
      assert GoalMoves(xs) == GoalMoves(xs[..n]) + [LeaveGoal(xs[n])];
      DoAllSnoc(s, GoalMoves(xs[..n]), LeaveGoal(xs[n]));
      LeaveOneGoal(DoAll(s, GoalMoves(xs[..n])), o, s.actions, xs);
    }
  }

  function CallsLeft(a: map<Ticket, Call>, xs: seq<Ticket>): map<Ticket, Call> {
    map t | t in a && t !in xs :: a[t]
  }

  lemma LeaveOneCall(r: State, a: map<Ticket, Call>, xs: seq<Ticket>)
    requires xs != [] && r.rpc.calls == CallsLeft(a, xs[..|xs| - 1])
    ensures var t := Do(r, LeaveCall(xs[|xs| - 1]));
      t == r.(rpc := r.rpc.(calls := CallsLeft(a, xs)), ros := t.ros)
  {
    var n := |xs| - 1;
    assert forall y :: y in xs <==> y in xs[..n] || y == xs[n];
    assert DropCall(r, xs[n]).rpc.calls == CallsLeft(a, xs);
  }

  lemma {:induction false} LeaveCalls(s: State, xs: seq<Ticket>)
    ensures var r := DoAll(s, CallMoves(xs));
      r == s.(rpc := s.rpc.(calls := CallsLeft(s.rpc.calls, xs)), ros := r.ros)
    decreases |xs|
  {
    hide Do;
    if xs == [] {
      assert CallsLeft(s.rpc.calls, xs) == s.rpc.calls;
    } else {
      var n := |xs| - 1;
      LeaveCalls(s, xs[..n]);
      assert CallMoves(xs) == CallMoves(xs[..n]) + [LeaveCall(xs[n])];
      DoAllSnoc(s, CallMoves(xs[..n]), LeaveCall(xs[n]));
      LeaveOneCall(DoAll(s, CallMoves(xs[..n])), s.rpc.calls, xs);
    }
  }

  // ---------- the whole disconnect ----------

  /** What `disconnect` finds of the client when it starts. */
  ghost predicate LeaveFits(s: State, o: Connection, l: Leave) {
    && Lists(l.topics, OwnTopics(s.topics.publishers, o))
    && Lists(l.subscriptions, OwnSubscriptions(s.topics.subscriptions, o))
    && Lists(l.services, OwnServices(s.rpc.services, o))
    && (forall a :: Leaves(l.actions, a) <==> a in s.servers.actionServers && s.servers.actionServers[a].owner == o)
    && OwnsActions(s.servers, o, l.actions)
    && Lists(l.goals, OwnGoals(s.actions.goals, o))
    && Lists(l.calls, OwnCalls(s.rpc.calls, o))
  }

  ghost function Disconnect(s: State, o: Connection, l: Leave): State {
    DoAll(s, LeaveMoves(o, l))
  }

  /** Apart from the backend and a counter, what the bridge is when `o` is taken out of it. */
  ghost predicate Left(s: State, t: State, o: Connection) {
    && Silent(s.desk.(outputs := s.desk.outputs - {o}), t.desk)
    && t.topics == Topics(RestPublishers(s.topics.publishers, o), RestSubscriptions(s.topics.subscriptions, o))
    && t.rpc == Rpc(RestServices(s.rpc.services, o), RestCalls(s.rpc.calls, o), RestExternal(s.rpc.external, o))
    && t.actions.goals == RestGoals(s.actions.goals, o)
    && t.servers == Servers(RestServers(s.servers.actionServers, o), RestServerGoals(s.servers, o))
    && t.actions.issued == s.actions.issued && t.timeout == s.timeout
  }

  lemma TopicsLeftAre(a: map<string, Publisher>, o: Connection, xs: seq<string>)
    requires forall t :: t in xs <==> t in a && o in a[t].owners
    ensures TopicsLeft(a, o, xs) == RestPublishers(a, o)
  {
    forall t | t in a && t !in xs ensures a[t].(owners := a[t].owners - {o}) == a[t] {
      assert a[t].owners - {o} == a[t].owners;
    }
  }

  lemma SubscriptionsLeftAre(a: map<string, Subscription>, o: Connection, xs: seq<string>)
    requires forall t :: t in xs <==> t in a && o in a[t].clients
    ensures SubscriptionsLeft(a, o, xs) == RestSubscriptions(a, o)
  {
    forall t | t in a && t !in xs ensures a[t].(clients := a[t].clients - {o}) == a[t] {
      assert a[t].clients - {o} == a[t].clients;
    }
  }

  /** Requests forwarded for the client's services are exactly those forwarded to the client. */
  lemma ExternalLeftAre(a: Rpc, o: Connection, xs: seq<string>)
    requires Requests.Filed(a) && forall n :: n in xs <==> n in a.services && a.services[n].owner == o
    requires forall m, n :: m in a.services && n in a.services && a.services[m].entity == a.services[n].entity ==> m == n
    ensures ExternalLeft(a, xs) == RestExternal(a.external, o)
  {
    forall k | k in a.external ensures k in ExternalLeft(a, xs) <==> a.external[k].owner != o {
      var x := a.external[k];
      assert Requests.FiledAs(a.services, k, x);
      if x.owner == o {
        assert x.service in xs;
        var i :| 0 <= i < |xs| && xs[i] == x.service;
        assert a.services[xs[i]].entity == x.entity;
      }
    }
  }

  lemma ServersLeftAre(v: Servers, o: Connection, xs: seq<(string, seq<GoalKey>)>)
    requires forall a :: Leaves(xs, a) <==> a in v.actionServers && v.actionServers[a].owner == o
    ensures ServersLeft(v, xs) == Servers(RestServers(v.actionServers, o), RestServerGoals(v, o))
  {
    hide Leaves;
    assert ServersLeft(v, xs).actionServers == RestServers(v.actionServers, o);
    assert ServersLeft(v, xs).serverGoals == RestServerGoals(v, o);
  }

  lemma LeaveInTurn(s: State, o: Connection, l: Leave)
    ensures Disconnect(s, o, l) ==
      Do(DoAll(DoAll(DoAll(DoAll(DoAll(DoAll(Do(s, Depart(o)), TopicMoves(o, l.topics)),
        SubscriptionMoves(o, l.subscriptions)), ServiceMoves(o, l.services)), ActionMoves(o, l.actions)),
        GoalMoves(l.goals)), CallMoves(l.calls)), LeaveExternal(o))
  {
    hide Do, TopicMoves, SubscriptionMoves, ServiceMoves, ActionMoves, GoalMoves, CallMoves;
    var a := [Depart(o)];
    var b := a + TopicMoves(o, l.topics);
    var c := b + SubscriptionMoves(o, l.subscriptions);
    var d := c + ServiceMoves(o, l.services);
    var e := d + ActionMoves(o, l.actions);
    var f := e + GoalMoves(l.goals);
    var g := f + CallMoves(l.calls);
    DoAllSnoc(s, [], Depart(o));
    assert [] + [Depart(o)] == a;
    DoAllConcat(s, a, TopicMoves(o, l.topics));
    DoAllConcat(s, b, SubscriptionMoves(o, l.subscriptions));
    DoAllConcat(s, c, ServiceMoves(o, l.services));
    DoAllConcat(s, d, ActionMoves(o, l.actions));
    DoAllConcat(s, e, GoalMoves(l.goals));
    DoAllConcat(s, f, CallMoves(l.calls));
    DoAllSnoc(s, g, LeaveExternal(o));
  }

  lemma LastMove(s: State, o: Connection)
    requires forall n :: n in s.rpc.services ==> s.rpc.services[n].owner != o
    ensures Do(s, LeaveExternal(o)) == s.(rpc := s.rpc.(external := RestExternal(s.rpc.external, o)))
  {
  }

  lemma FirstMove(s: State, o: Connection)
    ensures Do(s, Depart(o)) == s.(desk := s.desk.(outputs := s.desk.outputs - {o}))
  {
  }

  ghost predicate OneServicePerEntity(services: map<string, Service>) {
    forall m, n :: m in services && n in services && services[m].entity == services[n].entity ==> m == n
  }

  /** Disconnecting leaves exactly what the other clients have, whatever order it goes in. */
  lemma DisconnectLeavesTheRest(s: State, o: Connection, l: Leave)
    requires LeaveFits(s, o, l) && Requests.Filed(s.rpc) && OneServicePerEntity(s.rpc.services)
    ensures Left(s, Disconnect(s, o, l), o)
  {
    hide Do, DoAll, Disconnect, Requests.Filed, OneServicePerEntity, Leaves, OwnsActions, TopicsLeft,
      SubscriptionsLeft, ServicesLeft, ExternalLeft, ServersLeft;
    LeaveInTurn(s, o, l);
    FirstMove(s, o);
    var s1 := Do(s, Depart(o));
    LeaveTopics(s1, o, l.topics);
    TopicsLeftAre(s.topics.publishers, o, l.topics);
    var s2 := DoAll(s1, TopicMoves(o, l.topics));
    LeaveSubscriptions(s2, o, l.subscriptions);
    SubscriptionsLeftAre(s.topics.subscriptions, o, l.subscriptions);
    var s3 := DoAll(s2, SubscriptionMoves(o, l.subscriptions));
    LeaveServices(s3, o, l.services);
    ExternalLeftAre2(s.rpc, o, l.services);
    var s4 := DoAll(s3, ServiceMoves(o, l.services));
    LeaveActions(s4, o, l.actions);
    ServersLeftAre(s.servers, o, l.actions);
    var s5 := DoAll(s4, ActionMoves(o, l.actions));
    LeaveGoals(s5, o, l.goals);
    var s6 := DoAll(s5, GoalMoves(l.goals));
    LeaveCalls(s6, l.calls);
    var s7 := DoAll(s6, CallMoves(l.calls));
    LastMove(s7, o);
    assert RestExternal(RestExternal(s.rpc.external, o), o) == RestExternal(s.rpc.external, o);
    assert s6.actions.goals == RestGoals(s.actions.goals, o);
    assert s7.rpc.calls == RestCalls(s.rpc.calls, o);
    assert s7.rpc.services == RestServices(s.rpc.services, o);
  }

  lemma ExternalLeftAre2(a: Rpc, o: Connection, xs: seq<string>)
    requires Requests.Filed(a) && OneServicePerEntity(a.services)
    requires forall n :: n in xs <==> n in a.services && a.services[n].owner == o
    ensures ExternalLeft(a, xs) == RestExternal(a.external, o)
    ensures ServicesLeft(a.services, xs) == RestServices(a.services, o)
  {
    ExternalLeftAre(a, o, xs);
  }
}

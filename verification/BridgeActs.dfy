/** What the bridge does towards ROS: for everything that can happen, exactly the acts it causes (src/bridge). */
module BridgeActs {
  import opened Basics
  import opened Backend
  import opened BridgeState
  import opened BridgeTopics
  import opened BridgeServices
  import opened BridgeActions
  import opened BridgeMoves
  import opened BridgeShapes
  import opened BridgeSuccess
  import opened BridgeRuns
  import Delivery
  import Exchanges = BridgeExchanges
  import Frames = BridgeFrames
  import Goals = BridgeServerGoals
  import Lookup = BridgeLookups
  import Own = BridgeOwnership
  import Requests = BridgeRequests
  import Tracks = BridgeClientGoals

  // ---------- many responses ----------

  /** Each request in turn is told that its goal was aborted, if the call succeeds. */
  function Answers(a: Ros, requests: seq<Native>): seq<Act> {
    if requests == [] then []
    else
      var n := |requests| - 1;
      Answers(a, requests[..n])
      + if a.fate(a.calls + n) then [Responded(requests[n].0, requests[n].1, ResultAnswer(6, "{}"))] else []
  }

  lemma {:induction false} RespondAllDoes(a: Ros, requests: seq<Native>)
    requires AllOutstanding(a, requests)
    ensures RespondAll(a, requests).did == a.did + Answers(a, requests)
    decreases |requests|
  {
    if requests != [] {
      var n := |requests| - 1;
      RespondAllDoes(a, requests[..n]);
      RespondAllShape(a, requests[..n]);
      RespondAllCalls(a, requests[..n]);
    }
  }

  lemma {:induction false} RespondAllConcat(a: Ros, xs: seq<Native>, ys: seq<Native>)
    ensures RespondAll(a, xs + ys) == RespondAll(RespondAll(a, xs), ys)
    decreases |ys|
  {
    if ys == [] {
      assert xs + ys == xs;
    } else {
      var n := |ys| - 1;
      RespondAllConcat(a, xs, ys[..n]);
      assert (xs + ys)[..|xs + ys| - 1] == xs + ys[..n];
    }
  }

  /** All who wait for the results of these goals, in order. */
  function AllWaiters(goals: map<GoalKey, ServerGoal>, keys: seq<GoalKey>): seq<Native> {
    if keys == [] then []
    else
      var last := keys[|keys| - 1];
      AllWaiters(goals, keys[..|keys| - 1]) + if last in goals then goals[last].requests else []
  }

  lemma {:induction false} DropGoalsResponds(s: State, keys: seq<GoalKey>)
    requires forall i, j :: 0 <= i < j < |keys| ==> keys[i] != keys[j]
    ensures DropGoals(s, keys).ros == RespondAll(s.ros, AllWaiters(s.servers.serverGoals, keys))
    decreases |keys|
  {
    hide RespondAll;
    if keys == [] {
      NobodyResponds(s.ros);
    } else {
      var n := |keys| - 1;
      DropGoalsResponds(s, keys[..n]);
      DropGoalsShape(s, keys[..n]);
      assert keys[n] !in keys[..n];
      var first := AllWaiters(s.servers.serverGoals, keys[..n]);
      if keys[n] in s.servers.serverGoals {
        RespondAllConcat(s.ros, first, s.servers.serverGoals[keys[n]].requests);
      } else {
        assert first + [] == first;
      }
    }
  }

  lemma NobodyResponds(a: Ros)
    ensures RespondAll(a, []) == a
  {
  }

  /** Those who wait for the results of different goals wait with different requests. */
  lemma {:induction false} AllWaitersAreOutstanding(s: State, keys: seq<GoalKey>)
    requires Own.Owned(s) && Requests.Complete(s)
    requires forall i, j :: 0 <= i < j < |keys| ==> keys[i] != keys[j]
    ensures var all := AllWaiters(s.servers.serverGoals, keys);
      && AllOutstanding(s.ros, all)
      && forall r :: r in all ==> exists k, i :: k in keys && WaitsAs(s, k, i, r)
    decreases |keys|
  {
    hide Own.Owned, Requests.Complete, AllOutstanding, WaitsAs;
    if keys == [] {
      NoneOutstanding(s.ros);
    } else {
      var n := |keys| - 1;
      AllWaitersAreOutstanding(s, keys[..n]);
      assert keys[n] !in keys[..n];
      var first := AllWaiters(s.servers.serverGoals, keys[..n]);
      if keys[n] in s.servers.serverGoals {
        var more := s.servers.serverGoals[keys[n]].requests;
        WaitersAreOutstanding(s, keys[n]);
        forall r | r in more ensures exists i :: WaitsAs(s, keys[n], i, r) { WaitsFor(s, keys[n], r); }
        forall r | r in first && r in more ensures false {
          var k, i :| k in keys[..n] && WaitsAs(s, k, i, r);
          var j :| WaitsAs(s, keys[n], j, r);
          OneWaitOnly(s, k, i, keys[n], j, r);
        }
        BothOutstanding(s.ros, first, more);
      } else {
        assert first + [] == first;
      }
    }
  }

  ghost predicate WaitsAs(s: State, k: GoalKey, i: nat, r: Native) {
    Requests.ClaimOf(s.rpc.external, s.servers.serverGoals, Requests.Waiter(k, i)) == Some(r)
  }

  lemma WaitsFor(s: State, k: GoalKey, r: Native)
    requires k in s.servers.serverGoals && r in s.servers.serverGoals[k].requests
    ensures exists i :: WaitsAs(s, k, i, r)
  {
    var i :| 0 <= i < |s.servers.serverGoals[k].requests| && s.servers.serverGoals[k].requests[i] == r;
    assert WaitsAs(s, k, i, r);
  }

  lemma OneWaitOnly(s: State, k: GoalKey, i: nat, l: GoalKey, j: nat, r: Native)
    requires Requests.Complete(s) && WaitsAs(s, k, i, r) && WaitsAs(s, l, j, r)
    ensures k == l && i == j
  {
    assert Requests.Waiter(k, i) == Requests.Waiter(l, j);
  }

  lemma NoneOutstanding(a: Ros)
    ensures AllOutstanding(a, [])
  {
  }

  lemma BothOutstanding(a: Ros, xs: seq<Native>, ys: seq<Native>)
    requires AllOutstanding(a, xs) && AllOutstanding(a, ys) && forall r :: r in xs ==> r !in ys
    ensures AllOutstanding(a, xs + ys)
  {
    assert forall i :: 0 <= i < |xs| ==> xs[i] in xs;
  }

  /** How many of the next `n` calls succeed before one fails. */
  function Streak(a: Ros, n: nat): (k: nat)
    ensures k <= n && (k < n ==> !a.fate(a.calls + k))
    ensures forall i :: a.calls <= i < a.calls + k ==> a.fate(i)
    decreases n
  {
    if n == 0 || !a.fate(a.calls) then 0 else 1 + Streak(a.(calls := a.calls + 1), n - 1)
  }

  /** The last `k` requests are answered, from the last one on. */
  function Backwards(requests: seq<Native>, k: nat, answer: Content): seq<Act>
    requires k <= |requests|
  {
    seq(k, i requires 0 <= i < k => Responded(requests[|requests| - 1 - i].0, requests[|requests| - 1 - i].1, answer))
  }

  lemma {:induction false} StreakIs(a: Ros, b: Ros, n: nat)
    requires a.calls == b.calls && a.fate == b.fate
    ensures Streak(a, n) == Streak(b, n)
    decreases n
  {
    if n > 0 { StreakIs(a.(calls := a.calls + 1), b.(calls := b.calls + 1), n - 1); }
  }

  lemma LastResponds(a: Ros, requests: seq<Native>, answer: Content)
    requires AllOutstanding(a, requests) && requests != []
    ensures var n := |requests| - 1;
      var (b, sent) := a.Respond(requests[n].0, requests[n].1, answer);
      && sent == a.fate(a.calls) && b.calls == a.calls + 1 && b.fate == a.fate && b.live == a.live
      && b.did == a.did + (if sent then [Responded(requests[n].0, requests[n].1, answer)] else [])
      && (sent ==> AllOutstanding(b, requests[..n]))
  {
  }

  lemma NoneBackwards(requests: seq<Native>, answer: Content)
    ensures Backwards(requests, 0, answer) == []
  {
  }

  lemma OneMoreBackwards(requests: seq<Native>, k: nat, answer: Content)
    requires requests != [] && k < |requests|
    ensures var n := |requests| - 1;
      Backwards(requests, k + 1, answer)
      == [Responded(requests[n].0, requests[n].1, answer)] + Backwards(requests[..n], k, answer)
  {
  }

  lemma StreakStarts(a: Ros, b: Ros, n: nat)
    requires n > 0 && b.calls == a.calls + 1 && b.fate == a.fate
    ensures Streak(a, n) == if a.fate(a.calls) then 1 + Streak(b, n - 1) else 0
  {
    StreakIs(b, a.(calls := a.calls + 1), n - 1);
  }

  lemma {:induction false} DrainDoes(a: Ros, requests: seq<Native>, answer: Content)
    requires AllOutstanding(a, requests)
    ensures var (b, left) := Drain(a, requests, answer);
      var k := Streak(a, |requests|);
      && b.did == a.did + Backwards(requests, k, answer) && left == requests[..|requests| - k]
      && (left == [] ==> b.calls == a.calls + |requests|) && b.fate == a.fate && b.live == a.live
    decreases |requests|
  {
    hide AllOutstanding, Ros.Respond, Backwards, Streak;
    if requests == [] {
      NoneBackwards(requests, answer);
    } else {
      var n := |requests| - 1;
      LastResponds(a, requests, answer);
      var (b, sent) := a.Respond(requests[n].0, requests[n].1, answer);
      StreakStarts(a, b, |requests|);
      if sent {
        DrainDoes(b, requests[..n], answer);
        OneMoreBackwards(requests, Streak(b, n), answer);
      } else {
        NoneBackwards(requests, answer);
      }
    }
  }

  // ---------- what an operation does ----------

  /** The entity of a topic once it is advertised. */
  function PublisherOf(s: State, topic: string): Entity {
    if topic in s.topics.publishers then s.topics.publishers[topic].entity else s.ros.nextEntity
  }

  /** The status of every goal of an action, with the time at which it was accepted. */
  ghost predicate Tells(goals: map<GoalKey, ServerGoal>, action: string, c: Content) {
    && c.StatusList?
    && (forall k :: k in c.statuses <==> k in goals && k.0 == action)
    && forall k :: k in c.statuses ==> c.statuses[k] == (goals[k].status, goals[k].stamp)
  }

  /** A list of statuses goes out on the action's status topic. */
  ghost predicate TellsStatus(s: State, action: string, goals: map<GoalKey, ServerGoal>, act: Act) {
    && action in s.servers.actionServers
    && act == Published(s.servers.actionServers[action].five.status, act.content) && act.Published?
    && Tells(goals, action, act.content)
  }

  lemma StatusTells(s: State, action: string, goals: map<GoalKey, ServerGoal>)
    requires action in s.servers.actionServers
    ensures TellsStatus(s, action, goals, Published(s.servers.actionServers[action].five.status, StatusOf(goals, action)))
  {
  }

  /** A result goes to those who wait for it, from the last one on while the calls succeed; the status follows all. */
  ghost predicate ResultDoes(s: State, key: GoalKey, status: int, values: string, did: seq<Act>)
    requires key in s.servers.serverGoals
  {
    var g := s.servers.serverGoals[key];
    if g.result.Some? || !(4 <= status <= 6) || !s.ros.Succeeds() then did == []
    else
      var k := Streak(s.ros.Query().0, |g.requests|);
      var answers := Backwards(g.requests, k, ResultAnswer(status, values));
      if k == |g.requests| && s.ros.fate(s.ros.calls + 1 + k)
      then |did| == k + 1 && did[..k] == answers
           && TellsStatus(s, key.0, s.servers.serverGoals[key := g.(status := status)], did[k])
      else did == answers
  }

  /** The waiters of an action's goals are answered when the action goes, for good or for one of a new type. */
  function DropDoes(s: State, owner: Connection, action: string, keys: seq<GoalKey>): seq<Act> {
    if OwnAction(s, owner, action) then Answers(s.ros, AllWaiters(s.servers.serverGoals, keys)) else []
  }

  ghost predicate GoalDoes(s: State, owner: Connection, name: string, op: Operation, did: seq<Act>) {
    match op
    case StopGoal(goal) =>
      if CanStop(s, owner, name, goal)
      then exists g :: IsActive(s, g, owner, name, Some(goal))
                       && did == [Requested(s.actions.goals[g].five.cancel, s.ros.nextSequence, AboutGoal(g))]
      else did == []
    case GiveFeedback(goal) =>
      if CanGiveFeedback(s, owner, name, goal)
      then && name in s.servers.actionServers
           && forall k :: IsServed(s, k, owner, name, goal) ==>
                did == [Published(s.servers.actionServers[name].five.feedback, AboutGoal(k.1))]
      else did == []
    case GiveResult(goal, status, values) =>
      && (forall k :: IsServed(s, k, owner, name, goal) ==> ResultDoes(s, k, status, values, did))
      && ((forall k :: !IsServed(s, k, owner, name, goal)) ==> did == [])
    case _ => did == []
  }

  ghost function OperationActs(s: State, owner: Connection, name: string, op: Operation): seq<Act> {
    match op
    case PublishMessage(_, setup) => if CanPublish(s, name, setup) then [Published(PublisherOf(s, name), Passed)] else []
    case CallRemote(_, declared, known, permitted, timeout) =>
      if CanCall(s, declared, known, permitted, timeout)
      then [Requested(s.ros.nextEntity, s.ros.nextSequence, Passed)] else []
    case AnswerService(request, success) =>
      if Exchanges.MayAnswer(s, owner, request, name, success) && s.ros.AllSucceed(1)
      then [Responded(s.rpc.external[request].entity, s.rpc.external[request].request, Passed)] else []
    case StartGoal(id, _, uuid) =>
      if CanStart(s, owner, name, id) then [Requested(s.ros.nextEntity, s.ros.nextSequence, AboutGoal(uuid))] else []
    case OfferAction(typ, keys) =>
      if OwnAction(s, owner, name) && s.servers.actionServers[name].typ != typ then DropDoes(s, owner, name, keys)
      else []
    case WithdrawAction(keys) => DropDoes(s, owner, name, keys)
    case _ => []
  }

  predicate AboutGoals(op: Operation) {
    op.StopGoal? || op.GiveFeedback? || op.GiveResult?
  }

  ghost predicate OperationDoes(s: State, owner: Connection, name: string, op: Operation, did: seq<Act>) {
    if AboutGoals(op) then GoalDoes(s, owner, name, op, did) else did == OperationActs(s, owner, name, op)
  }

  // ---------- operations ----------

  lemma PublishDoes(s: State, owner: Connection, topic: string, id: Id, setup: Setup)
    requires Own.Owned(s)
    ensures PublishTo(s, owner, topic, id, setup).0.ros.did
         == s.ros.did + if CanPublish(s, topic, setup) then [Published(PublisherOf(s, topic), Passed)] else []
  {
    PublishSucceedsIff(s, owner, topic, id, setup);
    AdvertiseSucceedsIff(s, owner, topic, id, setup);
    AdvertiseKeeps(s, owner, topic, id, setup);
    hide Advertise, Own.Owned, CanPublish, CanAdvertise;
  }

  lemma AdvertiseKeeps(s: State, owner: Connection, topic: string, id: Id, setup: Setup)
    ensures var (t, ok) := Advertise(s, owner, topic, id, setup);
      && t.ros.did == s.ros.did
      && (ok && topic in t.topics.publishers ==> t.topics.publishers[topic].entity == PublisherOf(s, topic))
  {
    hide Resolve;
  }

  lemma SubscribeKeeps(s: State, owner: Connection, topic: string, id: Id, options: Delivery.Options, setup: Setup,
                       now: nat)
    ensures Subscribe(s, owner, topic, id, options, setup, now).0.ros.did == s.ros.did
  {
    hide Resolve, Post;
  }

  lemma CallDoes(s: State, owner: Connection, id: Id, service: string, declared: Declared,
                 known: Option<seq<string>>, permitted: bool, timeout: Timeout, now: nat)
    ensures CallService(s, owner, id, service, declared, known, permitted, timeout, now).0.ros.did
         == s.ros.did + if CanCall(s, declared, known, permitted, timeout)
                        then [Requested(s.ros.nextEntity, s.ros.nextSequence, Passed)] else []
  {
    CallSucceedsIff(s, owner, id, service, declared, known, permitted, timeout, now);
    hide Resolve, CanCall;
  }

  lemma AnswerDoes(s: State, owner: Connection, id: string, service: string, success: Option<bool>)
    requires Own.Owned(s) && Requests.Complete(s)
    ensures ServiceResponse(s, owner, id, service, success).0.ros.did
         == s.ros.did + if Exchanges.MayAnswer(s, owner, id, service, success) && s.ros.AllSucceed(1)
                        then [Responded(s.rpc.external[id].entity, s.rpc.external[id].request, Passed)] else []
  {
    AnswersIff(s, owner, id, service, success);
    hide Own.Owned, Requests.Complete, Ros.AllSucceed;
  }

  lemma StartDoes(s: State, owner: Connection, action: string, id: Id, feedback: bool, uuid: Uuid, now: nat)
    ensures SendGoal(s, owner, action, id, feedback, uuid, now).0.ros.did
         == s.ros.did + if CanStart(s, owner, action, id)
                        then [Requested(s.ros.nextEntity, s.ros.nextSequence, AboutGoal(uuid))] else []
  {
    StartSucceedsIff(s, owner, action, id, feedback, uuid, now);
    CreateFiveIff(s.ros);
    hide CreateFive, GoalActive, CanStart, Five.All;
  }

  lemma StopDoes(s: State, owner: Connection, action: string, goal: string)
    requires Own.Owned(s) && Tracks.Tracked(s.actions, s.ros.nextSequence)
    ensures var t := CancelGoal(s, ActiveGoal(s, owner, action, goal)).0;
      exists did :: GoalDoes(s, owner, action, StopGoal(goal), did) && t.ros.did == s.ros.did + did
  {
    hide Own.Owned, Tracks.Tracked, CanStop;
    StopSucceedsIff(s, owner, action, goal);
    var found := ActiveGoal(s, owner, action, goal);
    var (t, ok) := CancelGoal(s, found);
    if ok {
      assert IsActive(s, found.value, owner, action, Some(goal));
      var did := [Requested(s.actions.goals[found.value].five.cancel, s.ros.nextSequence, AboutGoal(found.value))];
      assert GoalDoes(s, owner, action, StopGoal(goal), did) && t.ros.did == s.ros.did + did;
    } else {
      assert GoalDoes(s, owner, action, StopGoal(goal), []) && t.ros.did == s.ros.did + [];
    }
  }

  lemma FeedbackDoes(s: State, key: GoalKey)
    requires key in s.servers.serverGoals && key.0 in s.servers.actionServers
    ensures ActionFeedback(s, key).0.ros.did
         == s.ros.did + if ActionFeedback(s, key).1
                        then [Published(s.servers.actionServers[key.0].five.feedback, AboutGoal(key.1))] else []
  {
  }

  lemma SameStatuses(goals: map<GoalKey, ServerGoal>, key: GoalKey, g: ServerGoal, h: ServerGoal, action: string)
    requires h.status == g.status && h.stamp == g.stamp
    ensures StatusOf(goals[key := h], action) == StatusOf(goals[key := g], action)
  {
    var a, b := StatusOf(goals[key := h], action), StatusOf(goals[key := g], action);
    assert forall k :: k in a.statuses <==> k in goals[key := h] && k.0 == action;
    assert forall k :: k in b.statuses <==> k in goals[key := g] && k.0 == action;
    assert a.statuses == b.statuses;
  }

  lemma GiveResultDoes(s: State, key: GoalKey, status: int, values: string, now: nat) returns (did: seq<Act>)
    requires Own.Owned(s) && Requests.Complete(s) && Goals.Sound(s.servers) && key in s.servers.serverGoals
    ensures ResultDoes(s, key, status, values, did)
    ensures ActionResult(s, key, status, values, now).0.ros.did == s.ros.did + did
  {
    hide Drain, Own.Owned, Requests.Complete, Goals.Sound, Backwards, AllOutstanding, Streak, StatusOf, TellsStatus;
    var g := s.servers.serverGoals[key];
    WaitersAreOutstanding(s, key);
    GoalIsServed(s, key);
    Own.ServedEntityLives(s, Own.OfServer(key.0, Status), s.servers.actionServers[key.0].five.status);
    SameOutstanding(s.ros, s.ros.Query().0, g.requests);
    DrainDoes(s.ros.Query().0, g.requests, ResultAnswer(status, values));
    var told, kept := g.(status := status),
      g.(requests := [], status := status, result := Some(values), completed := Some(now));
    SameStatuses(s.servers.serverGoals, key, told, kept, key.0);
    StatusTells(s, key.0, s.servers.serverGoals[key := told]);
    did := [];
    if g.result.None? && 4 <= status <= 6 && s.ros.Succeeds() {
      var k := Streak(s.ros.Query().0, |g.requests|);
      did := Backwards(g.requests, k, ResultAnswer(status, values));
      BackwardsLength(g.requests, k, ResultAnswer(status, values));
      if k == |g.requests| && s.ros.fate(s.ros.calls + 1 + k) {
        did := did + [Published(s.servers.actionServers[key.0].five.status,
                                StatusOf(s.servers.serverGoals[key := told], key.0))];
      }
    }
  }

  lemma BackwardsLength(requests: seq<Native>, k: nat, answer: Content)
    requires k <= |requests|
    ensures |Backwards(requests, k, answer)| == k
  {
  }

  lemma SameOutstanding(a: Ros, b: Ros, requests: seq<Native>)
    requires AllOutstanding(a, requests) && b.requests == a.requests && b.live == a.live
    ensures AllOutstanding(b, requests)
  {
  }

  lemma RemoveDoes(s: State, owner: Connection, action: string, typ: string, keys: seq<GoalKey>)
    requires Own.Owned(s) && Requests.Complete(s) && Lists(keys, GoalsOf(s.servers.serverGoals, action))
    ensures RemoveAction(s, owner, action, keys).0.ros.did == s.ros.did + DropDoes(s, owner, action, keys)
    ensures AdvertiseAction(s, owner, action, typ, keys).0.ros.did
         == s.ros.did + if OwnAction(s, owner, action) && s.servers.actionServers[action].typ != typ
                        then DropDoes(s, owner, action, keys) else []
  {
    hide Own.Owned, Requests.Complete, AllOutstanding, DropGoals, RespondAll, Answers, AllWaiters, CreateFive, Five.All;
    DropGoalsResponds(s, keys);
    AllWaitersAreOutstanding(s, keys);
    RespondAllDoes(s.ros, AllWaiters(s.servers.serverGoals, keys));
    DropGoalsShape(s, keys);
    CreateFiveIff(s.ros);
    CreateFiveIff(RemoveAction(s, owner, action, keys).0.ros);
  }

  /** What the operation did. */
  ghost predicate Did(s: State, t: State, owner: Connection, name: string, op: Operation) {
    exists did :: OperationDoes(s, owner, name, op, did) && t.ros.did == s.ros.did + did
  }

  lemma Does(s: State, t: State, owner: Connection, name: string, op: Operation, did: seq<Act>)
    requires OperationDoes(s, owner, name, op, did) && t.ros.did == s.ros.did + did
    ensures Did(s, t, owner, name, op)
  {
  }

  lemma PlainlyDoes(s: State, owner: Connection, name: string, op: Operation, now: nat)
    requires Invariant(s) && OperationFits(s, name, op) && !AboutGoals(op)
    ensures Operate(s, owner, name, op, now).0.ros.did == s.ros.did + OperationActs(s, owner, name, op)
  {
    InvariantParts(s);
    hide Invariant, Own.Owned, Tracks.Tracked, Requests.Complete, Advertise, PublishTo, Subscribe, CallService,
      ServiceResponse, SendGoal, AdvertiseAction, RemoveAction, CanPublish, CanCall, CanStart, DropDoes, Lists,
      Exchanges.MayAnswer;
    match op
    case AdvertiseTopic(id, setup) => AdvertiseKeeps(s, owner, name, id, setup);
    case SubscribeTopic(id, options, setup) => SubscribeKeeps(s, owner, name, id, options, setup, now);
    case PublishMessage(id, setup) => PublishDoes(s, owner, name, id, setup);
    case CallRemote(id, declared, known, permitted, timeout) =>
      CallDoes(s, owner, id, name, declared, known, permitted, timeout, now);
    case AnswerService(request, success) => AnswerDoes(s, owner, request, name, success);
    case StartGoal(id, feedback, uuid) => StartDoes(s, owner, name, id, feedback, uuid, now);
    case OfferAction(typ, keys) => RemoveDoes(s, owner, name, typ, keys);
    case WithdrawAction(keys) => RemoveDoes(s, owner, name, "", keys);
    case _ =>
  }

  lemma ResultGivenDoes(s: State, owner: Connection, name: string, goal: string, status: int, values: string, now: nat)
    requires Own.Owned(s) && Requests.Complete(s) && Goals.Sound(s.servers)
    requires forall k :: IsServed(s, k, owner, name, goal) ==> ServedGoal(s, owner, name, goal) == Some(k)
    ensures Did(s, Operate(s, owner, name, GiveResult(goal, status, values), now).0, owner, name,
                GiveResult(goal, status, values))
  {
    hide Own.Owned, Goals.Sound, Requests.Complete, ActionResult, ResultDoes, Did;
    var op := GiveResult(goal, status, values);
    var t := Operate(s, owner, name, op, now).0;
    var found := ServedGoal(s, owner, name, goal);
    if found.Some? {
      var did := GiveResultDoes(s, found.value, status, values, now);
      Does(s, t, owner, name, op, did);
    } else {
      assert forall k :: !IsServed(s, k, owner, name, goal);
      Does(s, t, owner, name, op, []);
    }
  }

  lemma FeedbackGivenDoes(s: State, owner: Connection, name: string, goal: string, now: nat)
    requires Goals.Sound(s.servers)
    requires forall k :: IsServed(s, k, owner, name, goal) ==> ServedGoal(s, owner, name, goal) == Some(k)
    requires Operate(s, owner, name, GiveFeedback(goal), now).1 <==> CanGiveFeedback(s, owner, name, goal)
    ensures Did(s, Operate(s, owner, name, GiveFeedback(goal), now).0, owner, name, GiveFeedback(goal))
  {
    hide Goals.Sound, ActionFeedback, CanGiveFeedback, Did;
    var t := Operate(s, owner, name, GiveFeedback(goal), now).0;
    var found := ServedGoal(s, owner, name, goal);
    if found.Some? {
      GoalIsServed(s, found.value);
      FeedbackDoes(s, found.value);
      var feedback := Published(s.servers.actionServers[name].five.feedback, AboutGoal(found.value.1));
      Does(s, t, owner, name, GiveFeedback(goal), if CanGiveFeedback(s, owner, name, goal) then [feedback] else []);
    } else {
      NoGoalNoFeedback(s, owner, name, goal);
      Does(s, t, owner, name, GiveFeedback(goal), []);
    }
  }

  /** Giving feedback or a result, of the one goal that is meant. */
  lemma GivingDoes(s: State, owner: Connection, name: string, op: Operation, now: nat)
    requires Invariant(s) && (op.GiveFeedback? || op.GiveResult?)
    ensures Did(s, Operate(s, owner, name, op, now).0, owner, name, op)
  {
    GivesIff(s, owner, name, op, now);
    InvariantParts(s);
    assert Goals.Sound(s.servers) && Goals.Numbered(s.servers.serverGoals, s.desk.next);
    hide Invariant, Own.Owned, Goals.Sound, Goals.Numbered, Requests.Complete, CanGiveFeedback, Did, Operate;
    forall k | IsServed(s, k, owner, name, op.goal) ensures ServedGoal(s, owner, name, op.goal) == Some(k) {
      Lookup.ServedGoalIs(s, k, owner, name, op.goal);
    }
    if op.GiveResult? {
      ResultGivenDoes(s, owner, name, op.goal, op.status, op.values, now);
    } else {
      FeedbackGivenDoes(s, owner, name, op.goal, now);
    }
  }

  lemma GoalIsServed(s: State, k: GoalKey)
    requires Goals.Sound(s.servers) && k in s.servers.serverGoals
    ensures k.0 in s.servers.actionServers
  {
    assert Goals.Served(s.servers, k);
  }

  lemma NoGoalNoFeedback(s: State, owner: Connection, name: string, goal: string)
    requires forall k :: !IsServed(s, k, owner, name, goal)
    ensures !CanGiveFeedback(s, owner, name, goal)
  {
  }

  /** Every operation does exactly what it should, whether it succeeds or not. */
  lemma OperateDoes(s: State, owner: Connection, name: string, op: Operation, now: nat)
    requires Invariant(s) && OperationFits(s, name, op)
    ensures Did(s, Operate(s, owner, name, op, now).0, owner, name, op)
  {
    var t := Operate(s, owner, name, op, now).0;
    InvariantParts(s);
    hide Invariant, Own.Owned, Tracks.Tracked, OperationFits, OperationActs, GoalDoes, Did;
    if op.StopGoal? {
      StopDoes(s, owner, name, op.goal);
      hide ActiveGoal, CancelGoal;
      var did :| GoalDoes(s, owner, name, StopGoal(op.goal), did) && t.ros.did == s.ros.did + did;
      Does(s, t, owner, name, op, did);
    } else if AboutGoals(op) {
      GivingDoes(s, owner, name, op, now);
    } else {
      PlainlyDoes(s, owner, name, op, now);
      hide Operate;
      Does(s, t, owner, name, op, OperationActs(s, owner, name, op));
    }
  }

  // ---------- moves ----------

  /** An answer is sent if its call succeeds, and then, if that call succeeds too, the statuses of the goals. */
  ghost predicate ThenStatus(s: State, a: string, answer: Act, goals: map<GoalKey, ServerGoal>, did: seq<Act>) {
    if s.ros.AllSucceed(2) then |did| == 2 && did[0] == answer && TellsStatus(s, a, goals, did[1])
    else did == if s.ros.AllSucceed(1) then [answer] else []
  }

  ghost predicate OnlyAnswer(s: State, answer: Act, did: seq<Act>) {
    did == if s.ros.AllSucceed(1) then [answer] else []
  }

  /** A submission is accepted exactly if its UUID is new; then the statuses go out, with the new goal executing. */
  ghost predicate SubmitDoes(s: State, a: string, r: Native, uuid: Option<Uuid>, stamp: (int, nat), did: seq<Act>)
    requires a in s.servers.actionServers
  {
    var goals := s.servers.serverGoals;
    if uuid.None? then did == []
    else if (a, uuid.value) in goals then OnlyAnswer(s, Responded(r.0, r.1, GoalAnswer(false, stamp)), did)
    else
      var added := ServerGoal(s.servers.actionServers[a].owner, "", 2, stamp, None, [], None);
      ThenStatus(s, a, Responded(r.0, r.1, GoalAnswer(true, stamp)), goals[(a, uuid.value) := added], did)
  }

  /** The goals that the answer to a cancel request lists are those it cancels, and the code fits. */
  ghost predicate AnswersCancel(goals: map<GoalKey, ServerGoal>, a: string, ask: CancelAsk, c: Content) {
    var chosen := Cancelled(goals, a, ask);
    && c.CancelAnswer?
    && (forall x :: x in c.goals <==> (a, x.0) in chosen && goals[(a, x.0)].stamp == x.1)
    && |c.goals| == |chosen|
    && (c.code == 0 <==> chosen != {} || ask.goal == 0)
    && (c.code == 2 <==> chosen == {} && ask.goal != 0 && (a, ask.goal) !in goals)
    && (c.code == 3 <==> chosen == {} && ask.goal != 0 && (a, ask.goal) in goals)
  }

  /** A cancel request is answered, and then the statuses go out, with the chosen goals cancelling. */
  ghost predicate CancelDoes(s: State, a: string, r: Native, ask: Option<CancelAsk>, did: seq<Act>) {
    var goals := s.servers.serverGoals;
    if ask.None? then did == []
    else
      exists c :: AnswersCancel(goals, a, ask.value, c)
        && ThenStatus(s, a, Responded(r.0, r.1, c), Marked(goals, Cancelled(goals, a, ask.value)), did)
  }

  /** A result that is there goes out, and one of an unknown goal is empty; one still to come has to be waited for. */
  ghost predicate AskDoes(s: State, a: string, r: Native, uuid: Option<Uuid>, did: seq<Act>) {
    var goals := s.servers.serverGoals;
    if uuid.None? || ResultToCome(s, (a, uuid.value)) then did == []
    else if (a, uuid.value) !in goals then OnlyAnswer(s, Responded(r.0, r.1, ResultAnswer(0, "{}")), did)
    else
      var g := goals[(a, uuid.value)];
      OnlyAnswer(s, Responded(r.0, r.1, ResultAnswer(g.status, g.result.value)), did)
  }

  ghost predicate PartActs(s: State, a: string, p: Part, r: Native, asked: Asked, did: seq<Act>)
    requires a in s.servers.actionServers
  {
    match p
    case Send => SubmitDoes(s, a, r, asked.uuid, asked.stamp, did)
    case Result => AskDoes(s, a, r, asked.uuid, did)
    case Cancel => CancelDoes(s, a, r, asked.cancel, did)
    case _ => did == []
  }

  predicate ResultToCome(s: State, key: GoalKey) {
    key in s.servers.serverGoals && s.servers.serverGoals[key].result.None?
  }

  ghost predicate ServeActs(s: State, e: Entity, request: nat, asked: Asked, did: seq<Act>) {
    && (forall a, p :: ServesPart(s, e, a, p) ==> PartActs(s, a, p, (e, request), asked, did))
    && ((forall a, p :: !ServesPart(s, e, a, p)) ==> did == [])
  }

  /** A goal that was accepted asks for its result. */
  function LearnActs(s: State, ticket: Ticket, answer: Answer): seq<Act> {
    if ticket !in s.rpc.calls && ticket in s.actions.actionCalls && s.ros.AllSucceed(1)
       && s.actions.actionCalls[ticket].part == Part.Send && answer.accepted
       && s.actions.actionCalls[ticket].goal in s.actions.goals
    then [Requested(s.actions.goals[s.actions.actionCalls[ticket].goal].five.result, s.ros.nextSequence,
                    AboutGoal(s.actions.actionCalls[ticket].goal))]
    else []
  }

  ghost predicate ObeyActs(s: State, owner: Connection, c: Command, did: seq<Act>) {
    if owner in s.desk.outputs && c.Command? && Name(c.name).Some? && (NeedsAccess(c.operation) ==> c.permitted)
    then OperationDoes(s, owner, Name(c.name).value, c.operation, did)
    else did == []
  }

  /** What a move does towards ROS. */
  ghost predicate Acts(s: State, m: Move, did: seq<Act>) {
    match m
    case Obey(owner, command, _) => ObeyActs(s, owner, command, did)
    case Learn(ticket, answer) => did == LearnActs(s, ticket, answer)
    case Serve(e, request, asked, _) => ServeActs(s, e, request, asked, did)
    case LeaveGoal(goal) => did == AbandonActs(s, goal)
    case LeaveAction(owner, name, keys) => did == DropDoes(s, owner, name, keys)
    case _ => did == []
  }

  /** A goal that was accepted is asked to stop when its client leaves. */
  function AbandonActs(s: State, goal: Uuid): seq<Act> {
    if goal in s.actions.goals && s.actions.goals[goal].accepted && s.ros.AllSucceed(1)
    then [Requested(s.actions.goals[goal].five.cancel, s.ros.nextSequence, AboutGoal(goal))] else []
  }

  lemma ObeyDoes(s: State, owner: Connection, c: Command, now: nat) returns (did: seq<Act>)
    requires Invariant(s) && Fits(s, Obey(owner, c, now))
    ensures ObeyActs(s, owner, c, did) && OnCommand(s, owner, c, now).ros.did == s.ros.did + did
  {
    hide Invariant, Operate, OperationDoes, OperationFits, Name;
    did := [];
    if owner in s.desk.outputs && c.Command? && Name(c.name).Some? && (NeedsAccess(c.operation) ==> c.permitted) {
      var name := Name(c.name).value;
      OperateDoes(s, owner, name, c.operation, now);
      var t := Operate(s, owner, name, c.operation, now).0;
      did :| OperationDoes(s, owner, name, c.operation, did) && t.ros.did == s.ros.did + did;
    }
  }

  lemma NextCalls(a: Ros)
    ensures a.AllSucceed(1) <==> a.fate(a.calls)
    ensures a.AllSucceed(2) <==> a.fate(a.calls) && a.fate(a.calls + 1)
  {
  }

  lemma PublishDoesTell(s: State, a: string)
    requires a in s.servers.actionServers
    ensures var (t, ok) := PublishStatus(s, a);
      var status := s.servers.actionServers[a].five.status;
      t.ros.did == s.ros.did + if status in s.ros.live && s.ros.fate(s.ros.calls)
                               then [Published(status, StatusOf(s.servers.serverGoals, a))] else []
  {
  }

  /** The answer goes out, and the statuses after it. */
  lemma AnswerThenStatus(s: State, t: State, a: string, e: Entity, request: nat, c: Content,
                         goals: map<GoalKey, ServerGoal>) returns (did: seq<Act>)
    requires a in s.servers.actionServers && t.servers == s.servers.(serverGoals := t.servers.serverGoals)
    requires (e, request) in s.ros.requests && e in s.ros.live && s.servers.actionServers[a].five.status in s.ros.live
    requires s.ros.AllSucceed(1) && t.ros == s.ros.Respond(e, request, c).0
    requires StatusOf(t.servers.serverGoals, a) == StatusOf(goals, a)
    ensures ThenStatus(s, a, Responded(e, request, c), goals, did)
    ensures PublishStatus(t, a).0.ros.did == s.ros.did + did
  {
    hide StatusOf, TellsStatus;
    NextCalls(s.ros);
    PublishDoesTell(t, a);
    StatusTells(s, a, goals);
    hide Ros.AllSucceed;
    did := [Responded(e, request, c)];
    if s.ros.AllSucceed(2) {
      did := did + [Published(s.servers.actionServers[a].five.status, StatusOf(goals, a))];
    }
  }

  lemma SubmitActs(s: State, e: Entity, a: string, request: nat, asked: Asked) returns (did: seq<Act>)
    requires ServesPart(s, e, a, Send) && forall k :: k in asked.notices ==> k in s.servers.serverGoals
    requires (e, request) in s.ros.requests && e in s.ros.live && s.servers.actionServers[a].five.status in s.ros.live
    ensures SubmitDoes(s, a, (e, request), asked.uuid, asked.stamp, did)
    ensures RequestOnAction(Handling(s, (e, request)), a, Send, request, asked).0.ros.did == s.ros.did + did
  {
    hide Post, UniqueName, StatusOf, PublishStatus;
    NextCalls(s.ros);
    did := [];
    if asked.uuid.Some? && s.ros.AllSucceed(1) {
      var key := (a, asked.uuid.value);
      if key in s.servers.serverGoals {
        did := [Responded(e, request, GoalAnswer(false, asked.stamp))];
      } else {
        var owner, n := s.servers.actionServers[a].owner, s.desk.next + 1;
        var s1 := Handling(s, (e, request));
        var added := ServerGoal(owner, UniqueName(n), 2, asked.stamp, None, [], None);
        var listed := ServerGoal(owner, "", 2, asked.stamp, None, [], None);
        var t := s1.(desk := Post(s.desk.(next := n), owner, GoalRequest(UniqueName(n), a)),
          ros := s.ros.Respond(e, request, GoalAnswer(true, asked.stamp)).0,
          servers := s.servers.(serverGoals := s.servers.serverGoals[key := added]));
        SameStatuses(s.servers.serverGoals, key, listed, added, a);
        did := AnswerThenStatus(s, t, a, e, request, GoalAnswer(true, asked.stamp), s.servers.serverGoals[key := listed]);
        assert RequestOnAction(s1, a, Send, request, asked) == PublishStatus(t, a);
      }
    }
  }

  lemma AskActs(s: State, e: Entity, a: string, request: nat, asked: Asked) returns (did: seq<Act>)
    requires ServesPart(s, e, a, Result) && forall k :: k in asked.notices ==> k in s.servers.serverGoals
    requires (e, request) in s.ros.requests && e in s.ros.live
    ensures AskDoes(s, a, (e, request), asked.uuid, did)
    ensures RequestOnAction(Handling(s, (e, request)), a, Result, request, asked).0.ros.did == s.ros.did + did
  {
    NextCalls(s.ros);
    did := [];
    if asked.uuid.Some? && !ResultToCome(s, (a, asked.uuid.value)) && s.ros.AllSucceed(1) {
      did := [Responded(e, request, ResultOf(s.servers.serverGoals, (a, asked.uuid.value)))];
    }
  }

  /** What the answer to a cancel request says. */
  lemma CancelAnswerTells(goals: map<GoalKey, ServerGoal>, a: string, ask: CancelAsk, order: seq<GoalKey>)
    requires Lists(order, Cancelled(goals, a, ask)) && forall k :: k in order ==> k in goals
    ensures AnswersCancel(goals, a, ask, CancelAnswerOf(goals, a, ask, order))
  {
    var c := CancelAnswerOf(goals, a, ask, order);
    Goals.ReturnCodeMeaning(goals, a, ask);
    ListedOnce(order, Cancelled(goals, a, ask));
    if (a, ask.goal) in goals && goals[(a, ask.goal)].result.None? {
      assert (a, ask.goal) in Cancelled(goals, a, ask);
    }
    hide ReturnCode, Chosen;
    forall x ensures x in c.goals <==> (a, x.0) in Cancelled(goals, a, ask) && goals[(a, x.0)].stamp == x.1 {
      if x in c.goals {
        var i :| 0 <= i < |order| && c.goals[i] == x;
        assert order[i] in order && order[i] == (a, x.0);
      }
      if (a, x.0) in Cancelled(goals, a, ask) && goals[(a, x.0)].stamp == x.1 {
        assert (a, x.0) in order;
        var i :| 0 <= i < |order| && order[i] == (a, x.0);
        assert c.goals[i] == x;
      }
    }
  }

  lemma {:induction false} ListedOnce<T(!new)>(xs: seq<T>, all: set<T>)
    requires Lists(xs, all)
    ensures |xs| == |all|
    decreases |xs|
  {
    if xs == [] {
      assert all == {};
    } else {
      var n := |xs| - 1;
      assert xs[n] !in xs[..n];
      assert forall x :: x in xs <==> x in xs[..n] || x == xs[n];
      ListedOnce(xs[..n], all - {xs[n]});
    }
  }

  lemma CancelActs(s: State, e: Entity, a: string, request: nat, asked: Asked) returns (did: seq<Act>)
    requires ServesPart(s, e, a, Cancel) && forall k :: k in asked.notices ==> k in s.servers.serverGoals
    requires NoticesFit(s, e, asked)
    requires (e, request) in s.ros.requests && e in s.ros.live && s.servers.actionServers[a].five.status in s.ros.live
    ensures CancelDoes(s, a, (e, request), asked.cancel, did)
    ensures RequestOnAction(Handling(s, (e, request)), a, Cancel, request, asked).0.ros.did == s.ros.did + did
  {
    hide PostAll, CancelNotices, StatusOf, PublishStatus, Cancelled, Marked, CancelAnswerOf, AnswersCancel, ThenStatus;
    NextCalls(s.ros);
    did := [];
    if asked.cancel.Some? {
      var goals, ask := s.servers.serverGoals, asked.cancel.value;
      var c := CancelAnswerOf(goals, a, ask, asked.notices);
      CancelAnswerTells(goals, a, ask, asked.notices);
      if s.ros.AllSucceed(1) {
        var s1 := Handling(s, (e, request));
        var notices := CancelNotices(goals, s.servers.actionServers[a].owner, a, asked.notices);
        var t := s1.(desk := PostAll(s.desk, notices), ros := s.ros.Respond(e, request, c).0,
          servers := s.servers.(serverGoals := Marked(goals, Cancelled(goals, a, ask))));
        did := AnswerThenStatus(s, t, a, e, request, c, Marked(goals, Cancelled(goals, a, ask)));
        assert RequestOnAction(s1, a, Cancel, request, asked) == PublishStatus(t, a);
      } else {
        assert ThenStatus(s, a, Responded(e, request, c), Marked(goals, Cancelled(goals, a, ask)), did) by {
          NothingThen(s, a, Responded(e, request, c), Marked(goals, Cancelled(goals, a, ask)));
        }
      }
    }
  }

  lemma NothingThen(s: State, a: string, answer: Act, goals: map<GoalKey, ServerGoal>)
    requires !s.ros.AllSucceed(1)
    ensures ThenStatus(s, a, answer, goals, [])
  {
    NextCalls(s.ros);
  }

  lemma PartDoes(s: State, e: Entity, a: string, p: Part, request: nat, asked: Asked) returns (did: seq<Act>)
    requires ServesPart(s, e, a, p) && NoticesFit(s, e, asked)
    requires (e, request) in s.ros.requests && e in s.ros.live && s.servers.actionServers[a].five.status in s.ros.live
    ensures PartActs(s, a, p, (e, request), asked, did)
    ensures RequestOnAction(Handling(s, (e, request)), a, p, request, asked).0.ros.did == s.ros.did + did
  {
    hide RequestOnAction, SubmitDoes, AskDoes, CancelDoes, Lists, Cancelled;
    match p
    case Send => did := SubmitActs(s, e, a, request, asked);
    case Result => did := AskActs(s, e, a, request, asked);
    case Cancel => did := CancelActs(s, e, a, request, asked);
    case _ =>
  }

  lemma ServeDoes(s: State, e: Entity, request: nat, asked: Asked, now: nat) returns (did: seq<Act>)
    requires Invariant(s) && Fits(s, Serve(e, request, asked, now))
    ensures ServeActs(s, e, request, asked, did) && OnRequest(s, e, request, asked, now).ros.did == s.ros.did + did
  {
    did := [];
    if a, p :| ServesPart(s, e, a, p) { did := PartActed(s, e, request, asked, now, a, p); }
  }

  lemma PartActed(s: State, e: Entity, request: nat, asked: Asked, now: nat, a: string, p: Part)
    returns (did: seq<Act>)
    requires Invariant(s) && Fits(s, Serve(e, request, asked, now)) && ServesPart(s, e, a, p)
    ensures ServeActs(s, e, request, asked, did)
    ensures OnRequest(s, e, request, asked, now).ros.did == s.ros.did + did
  {
    hide Invariant, PartActs, OnRequest, RequestOnAction, Lists, Cancelled;
    InvariantParts(s);
    Own.ServedEntityLives(s, Own.OfServer(a, p), e);
    Own.ServedEntityLives(s, Own.OfServer(a, Status), s.servers.actionServers[a].five.status);
    Outstanding(s, e, request);
    did := PartDoes(s, e, a, p, request, asked);
    Lookup.ServedPartIs(s, e, request, asked, now, a, p);
    Lookup.OnePartOnly(s, e, a, p);
  }

  lemma Outstanding(s: State, e: Entity, request: nat)
    requires Requests.Complete(s) && (e, request) in s.unhandled && e in s.ros.live
    ensures (e, request) in s.ros.requests
  {
    hide Requests.Conserved, Requests.Filed;
  }

  lemma LearnDoes(s: State, ticket: Ticket, answer: Answer)
    requires Own.Owned(s)
    ensures OnResponse(s, ticket, answer).ros.did == s.ros.did + LearnActs(s, ticket, answer)
  {
    hide Own.Owned, Post, Five.All;
    NextCalls(s.ros);
    if ticket in s.actions.actionCalls {
      var goal := s.actions.actionCalls[ticket].goal;
      if goal in s.actions.goals {
        Own.ServedEntityLives(s, Own.OfGoal(goal, Result), s.actions.goals[goal].five.result);
      }
    }
    hide Ros.AllSucceed;
  }

  lemma AbandonDoes(s: State, goal: Uuid)
    requires Own.Owned(s)
    ensures AbandonGoal(s, goal).ros.did == s.ros.did + AbandonActs(s, goal)
  {
    hide Own.Owned, Post, Five.All;
    NextCalls(s.ros);
    if goal in s.actions.goals {
      Own.ServedEntityLives(s, Own.OfGoal(goal, Cancel), s.actions.goals[goal].five.cancel);
    }
    hide Ros.AllSucceed;
  }

  lemma TopicsActNot(s: State, owner: Connection, topic: string)
    ensures Unadvertise(s, owner, topic, None).0.ros.did == s.ros.did
    ensures Unsubscribe(s, owner, topic, None).0.ros.did == s.ros.did
  {
  }

  /** What a disconnect's moves do, which happen while only part of the client is left. */
  lemma LeavingDoes(s: State, m: Move) returns (did: seq<Act>)
    requires Own.Owned(s) && Requests.Complete(s) && Frames.Leaving(m) && Fits(s, m)
    ensures Acts(s, m, did) && Do(s, m).ros.did == s.ros.did + did
  {
    hide Own.Owned, Requests.Complete, RemoveAction, AbandonGoal, Unadvertise, Unsubscribe, DropDoes, AbandonActs;
    did := [];
    if m.LeaveTopic? || m.LeaveSubscription? { TopicsActNot(s, m.owner, m.topic); }
    if m.LeaveAction? {
      RemoveDoes(s, m.owner, m.name, "", m.keys);
      did := DropDoes(s, m.owner, m.name, m.keys);
    }
    if m.LeaveGoal? {
      AbandonDoes(s, m.goal);
      did := AbandonActs(s, m.goal);
    }
  }

  /** Whatever happens, ROS sees exactly the acts it calls for, in order, and no others. */
  lemma MoveActs(s: State, m: Move) returns (did: seq<Act>)
    requires Invariant(s) && Fits(s, m)
    ensures Acts(s, m, did) && Do(s, m).ros.did == s.ros.did + did
  {
    InvariantParts(s);
    hide Invariant, Own.Owned, Requests.Complete, Do, Acts, Fits;
    if Frames.Leaving(m) { did := LeavingDoes(s, m); }
    else if m.Obey? || m.Learn? || m.Serve? { did := AskedDoes(s, m); }
    else {
      did := [];
      OthersDoNothing(s, m);
    }
  }

  lemma AskedDoes(s: State, m: Move) returns (did: seq<Act>)
    requires Invariant(s) && Fits(s, m) && (m.Obey? || m.Learn? || m.Serve?)
    ensures Acts(s, m, did) && Do(s, m).ros.did == s.ros.did + did
  {
    InvariantParts(s);
    hide Invariant, Own.Owned, ObeyActs, LearnActs, ServeActs, OnCommand, OnResponse, OnRequest, NoticesFit,
      OperationFits, Name;
    match m
    case Obey(owner, command, now) => did := ObeyDoes(s, owner, command, now);
    case Learn(ticket, answer) =>
      LearnDoes(s, ticket, answer);
      did := LearnActs(s, ticket, answer);
    case Serve(e, request, asked, now) => did := ServeDoes(s, e, request, asked, now);
  }

  lemma OthersDoNothing(s: State, m: Move)
    requires Fits(s, m) && !Frames.Leaving(m) && !m.Obey? && !m.Learn? && !m.Serve?
    ensures Acts(s, m, []) && Do(s, m).ros.did == s.ros.did + []
  {
    hide OnMessage, DeliverDue, HearFits, DeliverFits, CanTake, FinishGoal, Ros.DestroyAll;
    if m.Hear? { Frames.HearFrame(s, m.entity, m.message, m.now, m.order); }
    if m.Deliver? { DeliverActsNot(s, m.due, m.now); }
    if m.GoalTimeout? { FinishActsNot(s, m.goal); }
    if m.CallTimeout? { ExpireActsNot(s, m.ticket); }
  }

  lemma FinishActsNot(s: State, goal: Uuid)
    ensures FinishGoal(s, goal, 6, false).ros.did == s.ros.did
  {
    FinishGoalShape(s, goal, 6, false);
    hide FinishGoal;
  }

  lemma ExpireActsNot(s: State, ticket: Ticket)
    ensures ExpireCall(s, ticket).ros.did == s.ros.did
  {
  }

  lemma DeliverActsNot(s: State, due: seq<(string, Connection)>, now: nat)
    requires DeliverFits(s.topics.subscriptions, due, now)
    ensures DeliverDue(s, due, now).ros == s.ros
  {
    DeliverShape(s, due, now);
    hide DeliverDue;
  }
}

/** Goals accepted on behalf of WebSocket action servers (src/bridge/actions.rs). */
module BridgeServerGoals {
  import opened Basics
  import opened Backend
  import opened BridgeState
  import opened BridgeTopics
  import opened BridgeServices
  import opened BridgeActions
  import opened BridgeMoves
  import opened BridgeShapes
  import opened BridgeFrames
  import opened BridgeRequestIds

  // ---------- what holds of every goal ----------

  /** A goal without a result is executing or cancelling; with one it is over, and nobody waits. */
  predicate Coherent(g: ServerGoal) {
    if g.result.None? then (g.status == 2 || g.status == 3) && g.completed.None?
    else 4 <= g.status <= 6 && g.completed.Some? && g.requests == []
  }

  /** The goal's action is served by its owner, and every waiter asked that server. */
  ghost predicate Served(v: Servers, k: GoalKey)
    requires k in v.serverGoals
  {
    && k.0 in v.actionServers
    && v.serverGoals[k].owner == v.actionServers[k.0].owner
    && forall i :: 0 <= i < |v.serverGoals[k].requests| ==>
         v.serverGoals[k].requests[i].0 == v.actionServers[k.0].five.result
  }

  ghost predicate Sound(v: Servers) {
    forall k :: k in v.serverGoals ==> Served(v, k) && Coherent(v.serverGoals[k])
  }

  // ---------- how a goal moves ----------

  /** 2 may become 3 or final, 3 may become final, a result is never taken back. */
  predicate Advances(g: ServerGoal, h: ServerGoal) {
    && h.owner == g.owner && h.id == g.id && h.stamp == g.stamp
    && (h.status == g.status || (g.status == 2 && h.status == 3) || (g.status < 4 && 4 <= h.status <= 6))
    && (g.result.Some? ==> h == g)
  }

  ghost predicate AllAdvance(a: Servers, b: Servers) {
    forall k :: k in a.serverGoals && k in b.serverGoals ==> Advances(a.serverGoals[k], b.serverGoals[k])
  }

  // ---------- operations ----------

  lemma RemoveActionSound(s: State, owner: Connection, action: string, keys: seq<GoalKey>)
    requires Sound(s.servers) && Lists(keys, GoalsOf(s.servers.serverGoals, action))
    ensures var t := RemoveAction(s, owner, action, keys).0; Sound(t.servers) && AllAdvance(s.servers, t.servers)
  {
    DropGoalsShape(s, keys);
    hide DropGoals;
    var t := RemoveAction(s, owner, action, keys).0;
    forall k | k in t.servers.serverGoals ensures Served(t.servers, k) && Coherent(t.servers.serverGoals[k]) {
      assert Served(s.servers, k);
      assert action in s.servers.actionServers && s.servers.actionServers[action].owner == owner ==>
          k !in GoalsOf(s.servers.serverGoals, action);
    }
  }

  lemma AdvertiseActionSound(s: State, owner: Connection, action: string, typ: string, keys: seq<GoalKey>)
    requires s.ros.Valid() && Sound(s.servers) && Lists(keys, GoalsOf(s.servers.serverGoals, action))
    ensures var t := AdvertiseAction(s, owner, action, typ, keys).0; Sound(t.servers) && AllAdvance(s.servers, t.servers)
  {
    RemoveActionSound(s, owner, action, keys);
    DropGoalsShape(s, keys);
    hide DropGoals, OpenAction, CreateFive;
    if action !in s.servers.actionServers {
      OpenActionSound(s, owner, action, typ);
    } else if s.servers.actionServers[action].owner == owner {
      var s1 := RemoveAction(s, owner, action, keys).0;
      AnsweredValid(s.ros, DropGoals(s, keys).ros, WaitersOf(s.servers.serverGoals, keys));
      DestroyValid(DropGoals(s, keys).ros, s.servers.actionServers[action].five.All());
      OpenActionSound(s1, owner, action, typ);
    }
  }

  lemma OpenActionSound(s: State, owner: Connection, action: string, typ: string)
    requires s.ros.Valid() && Sound(s.servers) && action !in s.servers.actionServers
    ensures var t := OpenAction(s, owner, action, typ).0;
      Sound(t.servers) && t.servers.serverGoals == s.servers.serverGoals
  {
    OpenActionShape(s, owner, action, typ);
    hide OpenAction, Distinct, Grew, Rolled;
    var t := OpenAction(s, owner, action, typ).0;
    forall k | k in t.servers.serverGoals ensures Served(t.servers, k) && Coherent(t.servers.serverGoals[k]) {
      assert Served(s.servers, k);
    }
  }

  lemma ActionResultSound(s: State, key: GoalKey, status: int, values: string, now: nat)
    requires Sound(s.servers) && key in s.servers.serverGoals
    ensures var (t, ok) := ActionResult(s, key, status, values, now);
      && Sound(t.servers) && AllAdvance(s.servers, t.servers)
      && (ok ==> key in t.servers.serverGoals && t.servers.serverGoals[key].result == Some(values)
                 && t.servers.serverGoals[key].status == status && 4 <= status <= 6)
  {
    hide Drain;
    assert Served(s.servers, key) && Coherent(s.servers.serverGoals[key]);
    var t := ActionResult(s, key, status, values, now).0;
    forall k | k in t.servers.serverGoals ensures Served(t.servers, k) && Coherent(t.servers.serverGoals[k]) {
      assert Served(s.servers, k) && Coherent(s.servers.serverGoals[k]);
    }
  }

  lemma ForgetSound(s: State, now: nat)
    requires Sound(s.servers)
    ensures Sound(Forget(s, now).servers) && AllAdvance(s.servers, Forget(s, now).servers)
  {
    var t := Forget(s, now);
    forall k | k in t.servers.serverGoals ensures Served(t.servers, k) && Coherent(t.servers.serverGoals[k]) {
      assert Served(s.servers, k) && Coherent(s.servers.serverGoals[k]);
    }
  }

  lemma SubmitGoalSound(s: State, action: string, uuid: Option<Uuid>, request: nat, stamp: (int, nat))
    requires Sound(s.servers) && action in s.servers.actionServers
    ensures var t := SubmitGoal(s, action, uuid, request, stamp).0; Sound(t.servers) && AllAdvance(s.servers, t.servers)
  {
    hide Post, UniqueName;
    var t := SubmitGoal(s, action, uuid, request, stamp).0;
    forall k | k in t.servers.serverGoals ensures Served(t.servers, k) && Coherent(t.servers.serverGoals[k]) {
      if k in s.servers.serverGoals { assert Served(s.servers, k) && Coherent(s.servers.serverGoals[k]); }
    }
  }

  lemma AskResultSound(s: State, action: string, uuid: Option<Uuid>, request: nat)
    requires Sound(s.servers) && action in s.servers.actionServers
    ensures var t := AskResult(s, action, uuid, request).0; Sound(t.servers) && AllAdvance(s.servers, t.servers)
  {
    var t := AskResult(s, action, uuid, request).0;
    forall k | k in t.servers.serverGoals ensures Served(t.servers, k) && Coherent(t.servers.serverGoals[k]) {
      assert Served(s.servers, k) && Coherent(s.servers.serverGoals[k]);
    }
  }

  lemma CancelGoalsSound(s: State, action: string, ask: Option<CancelAsk>, request: nat, order: seq<GoalKey>)
    requires Sound(s.servers) && action in s.servers.actionServers
    requires forall k :: k in order ==> k in s.servers.serverGoals
    ensures var t := CancelGoals(s, action, ask, request, order).0; Sound(t.servers) && AllAdvance(s.servers, t.servers)
  {
    hide PostAll, Chosen;
    var t := CancelGoals(s, action, ask, request, order).0;
    forall k | k in t.servers.serverGoals ensures Served(t.servers, k) && Coherent(t.servers.serverGoals[k]) {
      assert Served(s.servers, k) && Coherent(s.servers.serverGoals[k]);
    }
    forall k | k in t.servers.serverGoals ensures Advances(s.servers.serverGoals[k], t.servers.serverGoals[k]) {
      assert Coherent(s.servers.serverGoals[k]);
    }
  }

  lemma RequestOnActionSound(s: State, action: string, part: Part, request: nat, asked: Asked)
    requires Sound(s.servers) && action in s.servers.actionServers
    requires forall k :: k in asked.notices ==> k in s.servers.serverGoals
    ensures var t := RequestOnAction(s, action, part, request, asked).0;
      Sound(t.servers) && AllAdvance(s.servers, t.servers)
  {
    hide Sound, AllAdvance, SubmitGoal, AskResult, CancelGoals;
    SameAdvance(s.servers);
    SubmitGoalSound(s, action, asked.uuid, request, asked.stamp);
    AskResultSound(s, action, asked.uuid, request);
    CancelGoalsSound(s, action, asked.cancel, request, asked.notices);
  }

  lemma ServeSound(s: State, e: Entity, request: nat, asked: Asked, now: nat)
    requires Sound(s.servers) && forall k :: k in asked.notices ==> k in s.servers.serverGoals
    ensures var t := OnRequest(s, e, request, asked, now); Sound(t.servers) && AllAdvance(s.servers, t.servers)
  {
    hide Sound, AllAdvance, RequestOnAction, ForwardRequest;
    SameAdvance(s.servers);
    var s1 := Handling(s, (e, request));
    if exists a, p :: ServesPart(s, e, a, p) {
      var a, p :| ServesPart(s, e, a, p)
        && OnRequest(s, e, request, asked, now)
           == DiscardOnError(RequestOnAction(s1, a, p, request, asked), e, request);
      RequestOnActionSound(s1, a, p, request, asked);
      RequestOnActionFrame(s1, a, p, request, asked);
      DiscardOnErrorFrame(s1, RequestOnAction(s1, a, p, request, asked), e, request);
    } else if exists n :: Serves(s, e, n) {
      var n :| Serves(s, e, n) && OnRequest(s, e, request, asked, now) == ForwardRequest(s1, n, request, now);
      ForwardRequestShape(s1, n, request, now);
    }
  }

  lemma SameAdvance(v: Servers)
    ensures AllAdvance(v, v)
  {
  }

  lemma OperateSound(s: State, owner: Connection, name: string, op: Operation, now: nat)
    requires s.ros.Valid() && Sound(s.servers) && OperationFits(s, name, op) && TouchesServers(op)
    ensures var t := Operate(s, owner, name, op, now).0; Sound(t.servers) && AllAdvance(s.servers, t.servers)
  {
    hide Sound, AllAdvance, AdvertiseAction, RemoveAction, ActionResult;
    SameAdvance(s.servers);
    match op
    case OfferAction(typ, keys) => AdvertiseActionSound(s, owner, name, typ, keys);
    case WithdrawAction(keys) => RemoveActionSound(s, owner, name, keys);
    case GiveResult(goal, status, values) =>
      var key := ServedGoal(s, owner, name, goal);
      if key.Some? { ActionResultSound(s, key.value, status, values, now); }
  }

  /** In every run the goals of the action servers stay sound, and each only advances. */
  lemma MoveSound(s: State, m: Move)
    requires s.ros.Valid() && Sound(s.servers)
    ensures Sound(Do(s, m).servers) && AllAdvance(s.servers, Do(s, m).servers)
  {
    hide Sound, AllAdvance, Operate, OnRequest, RemoveAction, Forget, Chatted, Post;
    DoFrame(s, m);
    SameAdvance(s.servers);
    if !MoveTouchesServers(m) {
      hide Do;
    } else if Fits(s, m) {
      match m
      case Obey(owner, c, now) =>
        if Name(c.name).Some? { OperateSound(s, owner, Name(c.name).value, c.operation, now); }
      case Serve(e, request, asked, now) => ServeSound(s, e, request, asked, now);
      case ForgetResults(now) => ForgetSound(s, now);
      case LeaveAction(owner, name, keys) => RemoveActionSound(s, owner, name, keys);
    }
  }

  // ---------- goal ids ----------

  ghost predicate NamedBy(id: string, limit: nat) {
    exists n: nat :: n <= limit && id == UniqueName(n)
  }

  /** The ids given to clients are made from the bridge's counter, and no two goals share one. */
  ghost predicate Numbered(goals: map<GoalKey, ServerGoal>, next: nat) {
    && (forall k :: k in goals ==> NamedBy(goals[k].id, next))
    && forall k, l :: k in goals && l in goals && goals[k].id == goals[l].id ==> k == l
  }

  /** At most one goal is new, and it takes the next number. */
  ghost predicate NumbersNew(a: map<GoalKey, ServerGoal>, n: nat, b: map<GoalKey, ServerGoal>, n': nat) {
    && n <= n'
    && (forall k :: k in b && k in a ==> b[k].id == a[k].id)
    && (forall k :: k in b && k !in a ==> n < n' && b[k].id == UniqueName(n + 1))
    && forall k, l :: k in b && k !in a && l in b && l !in a ==> k == l
  }

  lemma StillNumbered(a: map<GoalKey, ServerGoal>, n: nat, b: map<GoalKey, ServerGoal>, n': nat)
    requires Numbered(a, n) && NumbersNew(a, n, b, n')
    ensures Numbered(b, n')
  {
    hide UniqueName;
    forall k | k in b ensures NamedBy(b[k].id, n') {
      if k in a {
        var m: nat :| m <= n && a[k].id == UniqueName(m);
        assert b[k].id == UniqueName(m);
      }
    }
    forall k, l | k in b && l in b && b[k].id == b[l].id ensures k == l {
      if k in a && l !in a { NextIsUnused(a, n, k); }
      if l in a && k !in a { NextIsUnused(a, n, l); }
    }
  }

  lemma NextIsUnused(a: map<GoalKey, ServerGoal>, n: nat, k: GoalKey)
    requires Numbered(a, n) && k in a
    ensures a[k].id != UniqueName(n + 1)
  {
    hide UniqueName;
    var m: nat :| m <= n && a[k].id == UniqueName(m);
    if a[k].id == UniqueName(n + 1) { UniqueNameInjective(m, n + 1); }
  }

  lemma SubmitGoalNumbers(s: State, action: string, uuid: Option<Uuid>, request: nat, stamp: (int, nat))
    requires action in s.servers.actionServers
    ensures var t := SubmitGoal(s, action, uuid, request, stamp).0;
      NumbersNew(s.servers.serverGoals, s.desk.next, t.servers.serverGoals, t.desk.next)
  {
    var n := s.desk.next + 1;
    PostShape(s.desk.(next := n), s.servers.actionServers[action].owner, GoalRequest(UniqueName(n), action));
    hide Post, UniqueName;
  }

  lemma RequestOnActionNumbers(s: State, action: string, part: Part, request: nat, asked: Asked)
    requires action in s.servers.actionServers && forall k :: k in asked.notices ==> k in s.servers.serverGoals
    ensures var t := RequestOnAction(s, action, part, request, asked).0;
      NumbersNew(s.servers.serverGoals, s.desk.next, t.servers.serverGoals, t.desk.next)
  {
    hide SubmitGoal, PostAll, Chosen, UniqueName;
    SubmitGoalNumbers(s, action, asked.uuid, request, asked.stamp);
    PostAllShape(s.desk,
                 CancelNotices(s.servers.serverGoals, s.servers.actionServers[action].owner, action, asked.notices));
  }

  lemma ServeNumbers(s: State, e: Entity, request: nat, asked: Asked, now: nat)
    requires forall k :: k in asked.notices ==> k in s.servers.serverGoals
    ensures var t := OnRequest(s, e, request, asked, now);
      NumbersNew(s.servers.serverGoals, s.desk.next, t.servers.serverGoals, t.desk.next)
  {
    hide NumbersNew, RequestOnAction, ForwardRequest, DiscardOnError;
    SameNumbers(s.servers.serverGoals, s.desk.next, s.servers.serverGoals, s.desk.next);
    var s1 := Handling(s, (e, request));
    if exists a, p :: ServesPart(s, e, a, p) {
      var a, p :| ServesPart(s, e, a, p)
        && OnRequest(s, e, request, asked, now)
           == DiscardOnError(RequestOnAction(s1, a, p, request, asked), e, request);
      RequestOnActionNumbers(s1, a, p, request, asked);
      DiscardKeepsDesk(RequestOnAction(s1, a, p, request, asked), e, request);
    } else if exists n :: Serves(s, e, n) {
      var n :| Serves(s, e, n) && OnRequest(s, e, request, asked, now) == ForwardRequest(s1, n, request, now);
      ForwardRequestShape(s1, n, request, now);
      SameNumbers(s.servers.serverGoals, s.desk.next, s.servers.serverGoals,
                  ForwardRequest(s1, n, request, now).desk.next);
    }
  }

  lemma DiscardKeepsDesk(outcome: (State, bool), e: Entity, request: nat)
    ensures var t := DiscardOnError(outcome, e, request); t.desk == outcome.0.desk && t.servers == outcome.0.servers
  {
  }

  lemma SameNumbers(a: map<GoalKey, ServerGoal>, n: nat, b: map<GoalKey, ServerGoal>, n': nat)
    requires n <= n' && forall k :: k in b ==> k in a && b[k].id == a[k].id
    ensures NumbersNew(a, n, b, n')
  {
    hide UniqueName;
  }

  lemma OperateOnlyRemoves(s: State, owner: Connection, name: string, op: Operation, now: nat)
    requires TouchesServers(op)
    ensures Operate(s, owner, name, op, now).0.servers.serverGoals.Keys <= s.servers.serverGoals.Keys
  {
    hide DropGoals, Drain, CreateFive;
    if op.OfferAction? || op.WithdrawAction? { DropGoalsShape(s, op.keys); }
  }

  lemma CounterGrows(s: State, m: Move)
    requires s.ros.Valid()
    ensures s.desk.next <= Do(s, m).desk.next
  {
    DoFrame(s, m);
    hide Post, FinishGoal, ActionResponse, AbandonGoal;
    if m.Connect? || m.Depart? || m.TakeFailed? {
    } else if !MoveCloses(m) {
      hide Do;
    } else {
      match m
      case Learn(ticket, answer) =>
        if ticket in s.rpc.calls {
          var c := s.rpc.calls[ticket];
          PostShape(s.desk, c.owner, ServiceReply(ticket, c.service, c.id, true));
        } else if ticket in s.actions.actionCalls {
          ActionResponseCounts(s, ticket, answer);
        }
      case GoalTimeout(goal) => FinishGoalCounts(s, goal, 6, false);
      case CallTimeout(ticket) =>
        if ticket in s.rpc.calls {
          var c := s.rpc.calls[ticket];
          PostShape(s.desk, c.owner, ServiceReply(ticket, c.service, c.id, false));
        }
      case LeaveGoal(goal) => AbandonGoalCounts(s, goal);
    }
  }

  lemma FinishGoalCounts(s: State, goal: Uuid, status: int, success: bool)
    ensures s.desk.next <= FinishGoal(s, goal, status, success).desk.next
  {
    FinishGoalShape(s, goal, status, success);
    if goal in s.actions.goals {
      var g := s.actions.goals[goal];
      PostShape(s.desk, g.owner, GoalReply(goal, g.action, g.id, status, success));
    }
    hide FinishGoal, Post, Five.All;
  }

  lemma ActionResponseCounts(s: State, ticket: Ticket, answer: Answer)
    requires ticket in s.actions.actionCalls
    ensures s.desk.next <= ActionResponse(s, ticket, answer).0.desk.next
  {
    hide FinishGoal, AcceptGoal, CancelAnswered;
    var goal := s.actions.actionCalls[ticket].goal;
    var s1 := s.(actions := s.actions.(actionCalls := s.actions.actionCalls - {ticket}));
    FinishGoalCounts(s1, goal, 6, false);
    FinishGoalCounts(s1, goal, answer.status, answer.status == 4);
    CancelAnsweredShape(s1, goal, answer.returnCode);
    if goal in s1.actions.goals { AcceptGoalShape(s1, goal); }
  }

  lemma AbandonGoalCounts(s: State, goal: Uuid)
    ensures s.desk.next <= AbandonGoal(s, goal).desk.next
  {
    hide FinishGoal;
    if goal in s.actions.goals {
      FinishGoalCounts(s, goal, 6, false);
      FinishGoalCounts(s.(ros := s.ros.Request(s.actions.goals[goal].five.cancel, AboutGoal(goal)).0), goal, 6, false);
    }
  }

  /** In every run, the goals of the action servers keep distinct ids. */
  lemma MoveNumbered(s: State, m: Move)
    requires s.ros.Valid() && Sound(s.servers) && Numbered(s.servers.serverGoals, s.desk.next)
    ensures Numbered(Do(s, m).servers.serverGoals, Do(s, m).desk.next)
  {
    CounterGrows(s, m);
    MoveSound(s, m);
    DoFrame(s, m);
    hide Numbered, NumbersNew, Sound, OnRequest, OnCommand, RemoveAction, Do;
    var t := Do(s, m);
    assert NumbersNew(s.servers.serverGoals, s.desk.next, t.servers.serverGoals, t.desk.next) by {
      MoveNumbers(s, m);
    }
    StillNumbered(s.servers.serverGoals, s.desk.next, t.servers.serverGoals, t.desk.next);
  }

  lemma SameIds(a: Servers, b: Servers)
    requires AllAdvance(a, b)
    ensures forall k :: k in a.serverGoals && k in b.serverGoals ==> b.serverGoals[k].id == a.serverGoals[k].id
  {
  }

  lemma MoveNumbers(s: State, m: Move)
    requires s.ros.Valid() && Sound(s.servers) && s.desk.next <= Do(s, m).desk.next
    ensures NumbersNew(s.servers.serverGoals, s.desk.next, Do(s, m).servers.serverGoals, Do(s, m).desk.next)
  {
    hide NumbersNew, Sound, OnRequest, Operate, DropGoals, AllAdvance, Coherent;
    MoveSound(s, m);
    DoFrame(s, m);
    SameIds(s.servers, Do(s, m).servers);
    if m.Serve? && Fits(s, m) {
      ServeNumbers(s, m.entity, m.request, m.asked, m.now);
    } else {
      if m.LeaveAction? { DropGoalsShape(s, m.keys); }
      if m.Obey? && m.command.Command? && Name(m.command.name).Some? && TouchesServers(m.command.operation) {
        OperateOnlyRemoves(s, m.owner, Name(m.command.name).value, m.command.operation, m.now);
      }
      assert Do(s, m).servers.serverGoals.Keys <= s.servers.serverGoals.Keys;
      SameNumbers(s.servers.serverGoals, s.desk.next, Do(s, m).servers.serverGoals, Do(s, m).desk.next);
    }
  }

  // ---------- the cancel policy ----------

  /** The article "Actions" of the ROS 2 design documents, section "Cancel Goal Service". */
  predicate Policy(uuid: Uuid, stamp: (int, nat), ask: CancelAsk) {
    if ask.goal == 0 && ask.stamp == (0, 0) then true
    else if ask.goal == 0 then NotAfter(stamp, ask.stamp)
    else if ask.stamp == (0, 0) then uuid == ask.goal
    else uuid == ask.goal || NotAfter(stamp, ask.stamp)
  }

  function ByPolicy(goals: map<GoalKey, ServerGoal>, action: string, ask: CancelAsk): set<GoalKey> {
    set k | k in goals && k.0 == action && goals[k].result.None? && Policy(k.1, goals[k].stamp, ask)
  }

  /** A live goal whose UUID is all zero, accepted after the time up to which goals are to be cancelled. */
  predicate ZeroGoalTooLate(goals: map<GoalKey, ServerGoal>, action: string, ask: CancelAsk) {
    && ask.goal == 0 && ask.stamp != (0, 0) && (action, 0) in goals
    && goals[(action, 0)].result.None? && !NotAfter(goals[(action, 0)].stamp, ask.stamp)
  }

  /** The code cancels what the policy says, except for one goal with an all-zero UUID. */
  lemma CancelledByPolicyExactly(goals: map<GoalKey, ServerGoal>, action: string, ask: CancelAsk)
    ensures Cancelled(goals, action, ask) == ByPolicy(goals, action, ask) <==> !ZeroGoalTooLate(goals, action, ask)
  {
    if ZeroGoalTooLate(goals, action, ask) {
      assert (action, 0) in Cancelled(goals, action, ask) && (action, 0) !in ByPolicy(goals, action, ask);
    } else {
      forall k ensures k in Cancelled(goals, action, ask) <==> k in ByPolicy(goals, action, ask) {
        assert k == (k.0, k.1);
      }
    }
  }

  /** ... which it does cancel against the policy. */
  lemma ZeroGoalIsCancelledAnyway()
    ensures var g := ServerGoal(1, UniqueName(1), 2, (5, 0), None, [], None);
      var goals: map<GoalKey, ServerGoal> := map[("/a", 0) := g];
      var ask := CancelAsk(0, (3, 0));
      ("/a", 0) in Cancelled(goals, "/a", ask) && ("/a", 0) !in ByPolicy(goals, "/a", ask)
  {
  }

  /** 1, "rejected", is never returned; 3 says that the goal asked for is over and nothing else was cancelled. */
  lemma ReturnCodeMeaning(goals: map<GoalKey, ServerGoal>, action: string, ask: CancelAsk)
    ensures var code := ReturnCode(goals, action, ask);
      var named := (action, ask.goal) in goals;
      && (code == 0 <==> Cancelled(goals, action, ask) != {} || ask.goal == 0)
      && (code == 2 <==> Cancelled(goals, action, ask) == {} && ask.goal != 0 && !named)
      && (code == 3 <==> Cancelled(goals, action, ask) == {} && ask.goal != 0 && named
                         && goals[(action, ask.goal)].result.Some?)
      && code != 1
  {
    var key := (action, ask.goal);
    if key in goals && goals[key].result.None? {
      assert key in Cancelled(goals, action, ask);
    }
  }
}

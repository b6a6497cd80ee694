/** Where a failing backend call leaves something behind, and exactly when (src/bridge). */
module BridgeFailures {
  import opened Basics
  import opened Backend
  import opened BridgeState
  import opened BridgeTopics
  import opened BridgeServices
  import opened BridgeActions
  import opened BridgeMoves
  import opened BridgeShapes
  import Frames = BridgeFrames
  import Replies = BridgeReplies

  // ---------- commands that fail ----------

  function NewCalls(s: State, t: State): set<Ticket> { t.rpc.calls.Keys - s.rpc.calls.Keys }

  function NewGoals(s: State, t: State): set<Uuid> { t.actions.goals.Keys - s.actions.goals.Keys }

  /** What a client is told at once when its command fails; for calls and goals it is their reply. */
  predicate SaysFailure(s: State, t: State, owner: Connection, c: Command) {
    t.desk.wire.sent == s.desk.wire.sent + [Sent(owner, Failure(c.id))]
  }

  /**
   A command to call a service or to start a goal either opens exactly one call or goal and says
   nothing yet, or opens none and is answered by one failure; so with the replies that close what
   was opened, it gets one final reply at most.
   */
  lemma CommandOpensOrFails(s: State, owner: Connection, c: Command, now: nat)
    requires s.ros.Valid() && Replies.KnownRecords(s) && Fits(s, Obey(owner, c, now))
    requires owner in s.desk.outputs && owner !in s.desk.failed
    requires c.Command? && (c.operation.CallRemote? || c.operation.StartGoal?)
    ensures var t := OnCommand(s, owner, c, now);
      if Execute(s, owner, c, now).1 then
        t.desk == s.desk && |NewCalls(s, t)| + |NewGoals(s, t)| == 1
      else
        NewCalls(s, t) == {} && NewGoals(s, t) == {} && SaysFailure(s, t, owner, c)
  {
    var (t, ok) := Execute(s, owner, c, now);
    if Name(c.name).Some? && !(NeedsAccess(c.operation) && !c.permitted) {
      OpensOne(s, owner, Name(c.name).value, c.operation, now);
    }
    hide Operate;
  }

  ghost predicate OpensOneOrNone(s: State, outcome: (State, bool)) {
    var (t, ok) := outcome;
    && t.desk == s.desk
    && (ok ==> |NewCalls(s, t)| + |NewGoals(s, t)| == 1)
    && (!ok ==> NewCalls(s, t) == {} && NewGoals(s, t) == {})
  }

  lemma OpensOne(s: State, owner: Connection, name: string, op: Operation, now: nat)
    requires s.ros.Valid() && Replies.KnownRecords(s) && OperationFits(s, name, op)
    requires op.CallRemote? || op.StartGoal?
    ensures OpensOneOrNone(s, Operate(s, owner, name, op, now))
  {
    hide CallService, SendGoal, OpensOneOrNone;
    match op
    case CallRemote(id, declared, known, permitted, timeout) =>
      CallOpensOne(s, owner, id, name, declared, known, permitted, timeout, now);
    case StartGoal(id, feedback, uuid) =>
      GoalOpensOne(s, owner, name, id, feedback, uuid, now);
  }

  lemma CallOpensOne(s: State, owner: Connection, id: Id, service: string, declared: Declared,
                     known: Option<seq<string>>, permitted: bool, timeout: Timeout, now: nat)
    requires s.ros.Valid() && Replies.KnownRecords(s)
    ensures OpensOneOrNone(s, CallService(s, owner, id, service, declared, known, permitted, timeout, now))
  {
    hide CallService;
    CallServiceShape(s, owner, id, service, declared, known, permitted, timeout, now);
    var (t, ok) := CallService(s, owner, id, service, declared, known, permitted, timeout, now);
    if ok { assert NewCalls(s, t) == {(s.ros.nextEntity, s.ros.nextSequence)} && NewGoals(s, t) == {}; }
  }

  lemma GoalOpensOne(s: State, owner: Connection, action: string, id: Id, feedback: bool, uuid: Uuid, now: nat)
    requires s.ros.Valid() && Replies.KnownRecords(s) && uuid !in s.actions.issued
    ensures OpensOneOrNone(s, SendGoal(s, owner, action, id, feedback, uuid, now))
  {
    hide SendGoal, Five.All, GoalActive, Distinct, Grew, Rolled, Ros.Valid, NewGoals, NewCalls;
    KnownGoal(s, uuid);
    SendGoalShape(s, owner, action, id, feedback, uuid, now);
    var (t, ok) := SendGoal(s, owner, action, id, feedback, uuid, now);
    if ok { NewGoal(s, t, uuid); } else { NothingNew(s, t); }
  }

  lemma KnownGoal(s: State, uuid: Uuid)
    requires Replies.KnownRecords(s) && uuid !in s.actions.issued
    ensures uuid !in s.actions.goals
  {
  }

  lemma NewGoal(s: State, t: State, uuid: Uuid)
    requires t.rpc == s.rpc && uuid !in s.actions.goals && t.actions.goals.Keys == s.actions.goals.Keys + {uuid}
    ensures NewGoals(s, t) == {uuid} && NewCalls(s, t) == {}
  {
  }

  lemma NothingNew(s: State, t: State)
    requires t.rpc == s.rpc && t.actions == s.actions
    ensures NewGoals(s, t) == {} && NewCalls(s, t) == {}
  {
  }

  // ---------- a cancel request that cannot be answered ----------

  /** Everything sent from now on is accepted. */
  ghost predicate Listening(d: Desk, owner: Connection) {
    owner in d.outputs && owner !in d.failed && forall n :: |d.wire.sent| <= n ==> d.wire.accepts(n)
  }

  lemma {:induction false} ListenerHearsAll(d: Desk, owner: Connection, messages: seq<Sent>)
    requires Listening(d, owner) && forall m :: m in messages ==> m.owner == owner
    ensures var e := PostAll(d, messages);
      e.wire == d.wire.(sent := d.wire.sent + messages) && e.outputs == d.outputs && e.failed == d.failed
    decreases |messages|
  {
    if messages != [] {
      var n := |messages| - 1;
      ListenerHearsAll(d, owner, messages[..n]);
      assert messages[..n] + [messages[n]] == messages;
    }
  }

  /** The client was told to cancel this goal. */
  ghost predicate Told(s: State, t: State, action: string, key: GoalKey)
    requires key in s.servers.serverGoals && action in s.servers.actionServers
  {
    exists i :: |s.desk.wire.sent| <= i < |t.desk.wire.sent| && t.desk.wire.sent[i]
      == Sent(s.servers.actionServers[action].owner, CancelRequest(s.servers.serverGoals[key].id, action))
  }

  /**
   The chosen goals are cancelling from now on in any case, but a listening client is told, of
   each of them, exactly if the backend sent the response; otherwise it is told of none.
   */
  lemma ToldIffAnswered(s: State, action: string, ask: CancelAsk, request: nat, order: seq<GoalKey>, key: GoalKey)
    requires action in s.servers.actionServers
    requires Lists(order, Cancelled(s.servers.serverGoals, action, ask))
    requires key in Cancelled(s.servers.serverGoals, action, ask)
    requires Listening(s.desk, s.servers.actionServers[action].owner)
    ensures var t := CancelGoals(s, action, Some(ask), request, order).0;
      && key in t.servers.serverGoals && t.servers.serverGoals[key].status == 3
      && (Told(s, t, action, key) <==> s.ros.Respond(s.servers.actionServers[action].five.cancel, request).1)
      && (t.desk == s.desk <==> !s.ros.Respond(s.servers.actionServers[action].five.cancel, request).1)
  {
    var a := s.servers.actionServers[action];
    var (t, _) := CancelGoals(s, action, Some(ask), request, order);
    if s.ros.Respond(a.five.cancel, request).1 {
      var notices := CancelNotices(s.servers.serverGoals, a.owner, action, order);
      ListenerHearsAll(s.desk, a.owner, notices);
      assert t.desk.wire.sent == s.desk.wire.sent + notices;
      assert key in order;
      var i :| 0 <= i < |order| && order[i] == key;
      assert t.desk.wire.sent[|s.desk.wire.sent| + i] == notices[i];
    }
  }

  /** Seven calls succeed: five entities, a response and a status; the response to the cancel request is the eighth. */
  function Unanswering(): Ros { Ros({}, {}, 0, 0, 0, 0, [], call => call < 7) }

  /** A goal is submitted, then all goals are asked to cancel; that response fails. */
  lemma CancelCanGoUntold()
    ensures var s0 := Initial(Unanswering(), 5000, n => true);
      var s1 := AdvertiseAction(s0.(desk := s0.desk.(outputs := {1})), 1, "/a", "T", []).0;
      && "/a" in s1.servers.actionServers && var five := s1.servers.actionServers["/a"].five;
      var s2 := SubmitGoal(s1.(ros := s1.ros.Take(five.send).0), "/a", Some(7), 0, (3, 0)).0;
      var s3 := s2.(ros := s2.ros.Take(five.cancel).0);
      var ask := CancelAsk(0, (0, 0));
      && s3.servers.serverGoals.Keys == {("/a", 7)} && s3.servers.serverGoals[("/a", 7)].status == 2
      && var t := CancelGoals(s3, "/a", Some(ask), 1, [("/a", 7)]).0;
      && ("/a", 7) in t.servers.serverGoals && t.servers.serverGoals[("/a", 7)].status == 3 && t.desk == s3.desk
  {
    hide UniqueName;
  }

  // ---------- a new type ----------

  /** Advertising a service again loses it exactly if the type is new and the new entity cannot be created. */
  lemma RetypingLosesServiceIff(s: State, owner: Connection, name: string, typ: string)
    requires name in s.rpc.services && s.rpc.services[name].owner == owner
    ensures name !in AdvertiseService(s, owner, name, typ).0.rpc.services
            <==> s.rpc.services[name].typ != typ && !s.ros.Succeeds()
  {
  }

  lemma ServiceCanBeLost()
    ensures var s0 := Initial(Ros({}, {}, 0, 0, 0, 0, [], call => call < 1), 5000, n => true);
      var (s1, first) := AdvertiseService(s0, 1, "/s", "T");
      var (s2, second) := AdvertiseService(s1, 1, "/s", "U");
      first && "/s" in s1.rpc.services && !second && s2.rpc.services == map[] && s2.ros.live == {}
  {
  }

  /** So does advertising an action again, exactly if one of the five new entities cannot be created. */
  lemma RetypingLosesActionIff(s: State, owner: Connection, action: string, typ: string, keys: seq<GoalKey>)
    requires action in s.servers.actionServers && s.servers.actionServers[action].owner == owner
    ensures action !in AdvertiseAction(s, owner, action, typ, keys).0.servers.actionServers
            <==> s.servers.actionServers[action].typ != typ
                 && CreateFive(DropGoals(s, keys).ros.DestroyAll(s.servers.actionServers[action].five.All())).1.None?
  {
    DropGoalsShape(s, keys);
    hide DropGoals, CreateFive, Five.All;
  }

  lemma ActionCanBeLost()
    ensures var s0 := Initial(Ros({}, {}, 0, 0, 0, 0, [], call => call < 5), 5000, n => true);
      var (s1, first) := AdvertiseAction(s0, 1, "/a", "T", []);
      var (s2, second) := AdvertiseAction(s1, 1, "/a", "U", []);
      first && "/a" in s1.servers.actionServers && !second && s2.servers.actionServers == map[] && s2.ros.live == {}
  {
  }
}

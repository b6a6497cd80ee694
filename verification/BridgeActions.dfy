/** Client goals and WebSocket action servers (src/bridge/actions.rs). */
module BridgeActions {
  import opened Basics
  import opened Backend
  import opened BridgeState

  // ---------- the five entities of an action ----------

  /** All five are created, or those that were are destroyed again. */
  function CreateFive(ros: Ros): (Ros, Option<Five>) {
    match ros.Create()
    case (r1, None) => (r1, None)
    case (r1, Some(a)) =>
      (match r1.Create()
       case (r2, None) => (r2.DestroyAll({a}), None)
       case (r2, Some(b)) =>
         (match r2.Create()
          case (r3, None) => (r3.DestroyAll({a, b}), None)
          case (r3, Some(c)) =>
            (match r3.Create()
             case (r4, None) => (r4.DestroyAll({a, b, c}), None)
             case (r4, Some(d)) =>
               (match r4.Create()
                case (r5, None) => (r5.DestroyAll({a, b, c, d}), None)
                case (r5, Some(e)) => (r5, Some(Five(a, b, c, d, e)))))))
  }

  // ---------- client goals ----------

  predicate SameGoal(g: ClientGoal, owner: Connection, action: string, id: Id) {
    g.owner == owner && g.action == action && g.id == id
  }

  predicate GoalActive(s: State, owner: Connection, action: string, id: Id) {
    exists k :: k in s.actions.goals && SameGoal(s.actions.goals[k], owner, action, id)
  }

  function SendGoal(s: State, owner: Connection, action: string, id: Id, feedback: bool, uuid: Uuid,
                    now: nat): (State, bool) {
    if GoalActive(s, owner, action, id) then (s, false)
    else
      match CreateFive(s.ros)
      case (ros, None) => (s.(ros := ros), false)
      case (ros, Some(five)) =>
        (match ros.Request(five.send, AboutGoal(uuid))
         case (ros2, None) => (s.(ros := ros2.DestroyAll(five.All())), false)
         case (ros2, Some(sequence)) =>
           (s.(ros := ros2,
            actions := s.actions.(
              actionCalls := s.actions.actionCalls[(five.send, sequence) := ActionCall(Part.Send, uuid)],
              goals := s.actions.goals[
                uuid := ClientGoal(owner, id, action, feedback, five, false, now + s.timeout, false)],
              issued := s.actions.issued + {uuid})), true))
  }

  /** The goal a cancel command means is found by the caller; here it is asked to stop. */
  function CancelGoal(s: State, goal: Option<Uuid>): (State, bool) {
    if goal.None? || goal.value !in s.actions.goals then (s, false)
    else
      var g := s.actions.goals[goal.value];
      if g.cancelling || !g.accepted then (s, false)
      else
        match s.ros.Request(g.five.cancel, AboutGoal(goal.value))
        case (ros, None) => (s.(ros := ros), false)
        case (ros, Some(sequence)) =>
          (s.(ros := ros, actions := s.actions.(
             goals := s.actions.goals[goal.value := g.(cancelling := true)],
             actionCalls := s.actions.actionCalls[(g.five.cancel, sequence) := ActionCall(Part.Cancel, goal.value)])),
           true)
  }

  function CallsOfOthers(calls: map<Ticket, ActionCall>, goal: Uuid): map<Ticket, ActionCall> {
    map t | t in calls && calls[t].goal != goal :: calls[t]
  }

  /** The goal is over: one final reply, then its entities and outstanding requests go. */
  function FinishGoal(s: State, goal: Uuid, status: int, success: bool): State {
    if goal !in s.actions.goals then s
    else
      var g := s.actions.goals[goal];
      var s1 := SendTo(s.(actions := s.actions.(goals := s.actions.goals - {goal})), g.owner,
                       GoalReply(goal, g.action, g.id, status, success));
      s1.(ros := s1.ros.DestroyAll(g.five.All()),
          actions := s1.actions.(actionCalls := CallsOfOthers(s1.actions.actionCalls, goal),
                                 stranded := s1.actions.stranded - {goal}))
  }

  /** What an action response says, as far as it is looked at. */
  datatype Answer = Answer(accepted: bool, status: int, returnCode: Option<int>)

  /** The goal was accepted, so its result is requested. */
  function AcceptGoal(s: State, goal: Uuid): (State, bool)
    requires goal in s.actions.goals
  {
    var g := s.actions.goals[goal].(accepted := true);
    var s1 := s.(actions := s.actions.(goals := s.actions.goals[goal := g]));
    match s1.ros.Request(g.five.result, AboutGoal(goal))
    case (ros, None) => (s1.(ros := ros, actions := s1.actions.(stranded := s1.actions.stranded + {goal})), false)
    case (ros, Some(sequence)) =>
      (s1.(ros := ros, actions := s1.actions.(
         actionCalls := s1.actions.actionCalls[(g.five.result, sequence) := ActionCall(Part.Result, goal)])), true)
  }

  function CancelAnswered(s: State, goal: Uuid, returnCode: Option<int>): State {
    if returnCode == Some(0) || goal !in s.actions.goals then s
    else
      var g := s.actions.goals[goal];
      SendTo(s.(actions := s.actions.(goals := s.actions.goals[goal := g.(cancelling := false)])), g.owner,
             CancelRejected(g.id))
  }

  /** `response` for a request of a client goal. */
  function ActionResponse(s: State, ticket: Ticket, answer: Answer): (State, bool)
    requires ticket in s.actions.actionCalls
  {
    var call := s.actions.actionCalls[ticket];
    var s1 := s.(actions := s.actions.(actionCalls := s.actions.actionCalls - {ticket}));
    match call.part
    case Send =>
      if !answer.accepted then (FinishGoal(s1, call.goal, 6, false), true)
      else if call.goal in s1.actions.goals then AcceptGoal(s1, call.goal)
      else (s1, true)
    case Result => (FinishGoal(s1, call.goal, answer.status, answer.status == 4), true)
    case Cancel => (CancelAnswered(s1, call.goal, answer.returnCode), true)
    case Feedback => (s1, true)
    case Status => (s1, true)
  }

  // ---------- action servers ----------

  /** The values of a result that has none. */
  const NOTHING: string := "{}"

  /** Whoever waits for the result of a goal that is given up is told that it was aborted. */
  function RespondAll(ros: Ros, requests: seq<Native>): Ros {
    if requests == [] then ros
    else
      var last := requests[|requests| - 1];
      RespondAll(ros, requests[..|requests| - 1]).Respond(last.0, last.1, ResultAnswer(6, NOTHING)).0
  }

  function DropGoal(s: State, key: GoalKey): State {
    if key !in s.servers.serverGoals then s
    else s.(servers := s.servers.(serverGoals := s.servers.serverGoals - {key}),
            ros := RespondAll(s.ros, s.servers.serverGoals[key].requests))
  }

  function DropGoals(s: State, keys: seq<GoalKey>): State {
    if keys == [] then s else DropGoal(DropGoals(s, keys[..|keys| - 1]), keys[|keys| - 1])
  }

  function GoalsOf(goals: map<GoalKey, ServerGoal>, action: string): set<GoalKey> {
    set k | k in goals && k.0 == action
  }

  /** `keys` lists the goals of the action in the order they are given up. */
  function RemoveAction(s: State, owner: Connection, action: string, keys: seq<GoalKey>): (State, bool) {
    if action !in s.servers.actionServers || s.servers.actionServers[action].owner != owner then (s, false)
    else
      var s1 := DropGoals(s, keys);
      (s1.(servers := s1.servers.(actionServers := s1.servers.actionServers - {action}),
           ros := s1.ros.DestroyAll(s.servers.actionServers[action].five.All())), true)
  }

  function OpenAction(s: State, owner: Connection, action: string, typ: string): (State, bool) {
    match CreateFive(s.ros)
    case (ros, None) => (s.(ros := ros), false)
    case (ros, Some(five)) =>
      (s.(ros := ros, servers := s.servers.(
         actionServers := s.servers.actionServers[action := ActionServer(owner, typ, five)])), true)
  }

  /** A new type replaces the client's own server, even when the new one cannot be created. */
  function AdvertiseAction(s: State, owner: Connection, action: string, typ: string, keys: seq<GoalKey>)
    : (State, bool) {
    if action !in s.servers.actionServers then OpenAction(s, owner, action, typ)
    else if s.servers.actionServers[action].owner != owner then (s, false)
    else if s.servers.actionServers[action].typ == typ then (s, true)
    else OpenAction(RemoveAction(s, owner, action, keys).0, owner, action, typ)
  }

  /** The status of every goal of the action. */
  function StatusOf(goals: map<GoalKey, ServerGoal>, action: string): Content {
    StatusList(map k | k in goals && k.0 == action :: (goals[k].status, goals[k].stamp))
  }

  /** Fails when the action is not served; the invariants show that cannot happen where it is called. */
  function PublishStatus(s: State, action: string): (State, bool) {
    if action !in s.servers.actionServers then (s, false)
    else
      var (ros, sent) := s.ros.Publish(s.servers.actionServers[action].five.status,
                                       StatusOf(s.servers.serverGoals, action));
      (s.(ros := ros), sent)
  }

  predicate GoalNamed(s: State, key: GoalKey, owner: Connection, action: string, id: string) {
    key in s.servers.serverGoals && key.0 == action && s.servers.serverGoals[key].owner == owner
      && s.servers.serverGoals[key].id == id
  }

  function ActionFeedback(s: State, key: GoalKey): (State, bool)
    requires key in s.servers.serverGoals
  {
    if s.servers.serverGoals[key].result.Some? || key.0 !in s.servers.actionServers then (s, false)
    else
      var (ros, sent) := s.ros.Publish(s.servers.actionServers[key.0].five.feedback, AboutGoal(key.1));
      (s.(ros := ros), sent)
  }

  /** Answers the waiting requests from the last one on; stops at the first response that fails. */
  function Drain(ros: Ros, requests: seq<Native>, answer: Content): (r: (Ros, seq<Native>))
    ensures r.1 <= requests
    decreases |requests|
  {
    if requests == [] then (ros, [])
    else
      var last := requests[|requests| - 1];
      var (ros1, sent) := ros.Respond(last.0, last.1, answer);
      if sent then Drain(ros1, requests[..|requests| - 1], answer) else (ros1, requests)
  }

  /** The client delivers a result; it is kept only when every waiting request was answered. */
  function ActionResult(s: State, key: GoalKey, status: int, values: string, now: nat): (State, bool)
    requires key in s.servers.serverGoals
  {
    var g := s.servers.serverGoals[key];
    if g.result.Some? || !(4 <= status <= 6) then (s, false)
    else
      var (ros, valid) := s.ros.Query();
      if !valid then (s.(ros := ros), false)
      else
        var (ros2, left) := Drain(ros, g.requests, ResultAnswer(status, values));
        if left != [] then
          (s.(ros := ros2, servers := s.servers.(serverGoals := s.servers.serverGoals[key := g.(requests := left)])),
           false)
        else
          PublishStatus(s.(ros := ros2, servers := s.servers.(serverGoals := s.servers.serverGoals[key :=
            g.(requests := [], status := status, result := Some(values), completed := Some(now))])), key.0)
  }

  // ---------- requests on an action server ----------

  function SubmitGoal(s: State, action: string, uuid: Option<Uuid>, request: nat, stamp: (int, nat)): (State, bool)
    requires action in s.servers.actionServers
  {
    var a := s.servers.actionServers[action];
    if uuid.None? then (s, false)
    else
      var key := (action, uuid.value);
      if key in s.servers.serverGoals then
        var (ros, sent) := s.ros.Respond(a.five.send, request, GoalAnswer(false, stamp));
        (s.(ros := ros), sent)
      else
        var n := s.desk.next + 1;
        var id := UniqueName(n);
        var s1 := s.(desk := s.desk.(next := n));
        var (ros, sent) := s1.ros.Respond(a.five.send, request, GoalAnswer(true, stamp));
        if !sent then (s1.(ros := ros), false)
        else
          var s2 := s1.(ros := ros, servers := s1.servers.(serverGoals := s1.servers.serverGoals[key :=
            ServerGoal(a.owner, id, 2, stamp, None, [], None)]));
          PublishStatus(SendTo(s2, a.owner, GoalRequest(id, action)), action)
  }

  /** What is known of a goal's result; of an unknown goal it is status 0 and nothing. */
  function ResultOf(goals: map<GoalKey, ServerGoal>, key: GoalKey): Content {
    if key in goals && goals[key].result.Some? then ResultAnswer(goals[key].status, goals[key].result.value)
    else ResultAnswer(0, NOTHING)
  }

  function AskResult(s: State, action: string, uuid: Option<Uuid>, request: nat): (State, bool)
    requires action in s.servers.actionServers
  {
    var e := s.servers.actionServers[action].five.result;
    if uuid.None? then (s, false)
    else
      var key := (action, uuid.value);
      if key in s.servers.serverGoals && s.servers.serverGoals[key].result.None? then
        var g := s.servers.serverGoals[key];
        (s.(servers := s.servers.(
           serverGoals := s.servers.serverGoals[key := g.(requests := g.requests + [(e, request)])])), true)
      else
        var (ros, sent) := s.ros.Respond(e, request, ResultOf(s.servers.serverGoals, key));
        (s.(ros := ros), sent)
  }

  // ---------- cancelling ----------

  /** `(sec, nanosec)` pairs compare in that order. */
  predicate NotAfter(a: (int, nat), b: (int, nat)) {
    a.0 < b.0 || (a.0 == b.0 && a.1 <= b.1)
  }

  /** The request: a goal UUID and a time, each possibly zero. */
  datatype CancelAsk = CancelAsk(goal: Uuid, stamp: (int, nat))

  predicate Chosen(uuid: Uuid, stamp: (int, nat), ask: CancelAsk) {
    uuid == ask.goal || (ask.goal == 0 && ask.stamp == (0, 0)) || (ask.stamp != (0, 0) && NotAfter(stamp, ask.stamp))
  }

  function Cancelled(goals: map<GoalKey, ServerGoal>, action: string, ask: CancelAsk): set<GoalKey> {
    set k | k in goals && k.0 == action && goals[k].result.None? && Chosen(k.1, goals[k].stamp, ask)
  }

  /** 0: cancelling, 1: rejected, 2: unknown goal, 3: goal already over. */
  function ReturnCode(goals: map<GoalKey, ServerGoal>, action: string, ask: CancelAsk): nat {
    if Cancelled(goals, action, ask) != {} || ask.goal == 0 then 0
    else if (action, ask.goal) in goals && goals[(action, ask.goal)].result.Some? then 3
    else if (action, ask.goal) !in goals then 2
    else 1
  }

  function Marked(goals: map<GoalKey, ServerGoal>, keys: set<GoalKey>): map<GoalKey, ServerGoal> {
    map k | k in goals :: if k in keys then goals[k].(status := 3) else goals[k]
  }

  function CancelNotices(goals: map<GoalKey, ServerGoal>, owner: Connection, action: string,
                         order: seq<GoalKey>): seq<Sent>
    requires forall k :: k in order ==> k in goals
  {
    seq(|order|, i requires 0 <= i < |order| => Sent(owner, CancelRequest(goals[order[i]].id, action)))
  }

  /** The return code, and the goals in question with the times at which they were accepted. */
  function CancelAnswerOf(goals: map<GoalKey, ServerGoal>, action: string, ask: CancelAsk, order: seq<GoalKey>): Content
    requires forall k :: k in order ==> k in goals
  {
    CancelAnswer(ReturnCode(goals, action, ask),
                 seq(|order|, i requires 0 <= i < |order| => (order[i].1, goals[order[i]].stamp)))
  }

  /** The chosen goals become cancelling before the response is sent; `order` is the order of the notices. */
  function CancelGoals(s: State, action: string, ask: Option<CancelAsk>, request: nat,
                       order: seq<GoalKey>): (State, bool)
    requires action in s.servers.actionServers && forall k :: k in order ==> k in s.servers.serverGoals
  {
    if ask.None? then (s, false)
    else
      var a := s.servers.actionServers[action];
      var s1 := s.(servers := s.servers.(serverGoals := Marked(s.servers.serverGoals,
        Cancelled(s.servers.serverGoals, action, ask.value))));
      var (ros, sent) := s1.ros.Respond(a.five.cancel, request,
                                         CancelAnswerOf(s.servers.serverGoals, action, ask.value, order));
      if !sent then (s1.(ros := ros), false)
      else PublishStatus(SendAll(s1.(ros := ros), CancelNotices(s.servers.serverGoals, a.owner, action, order)),
                         action)
  }

  /** `tick`: results are kept for a minute. */
  function Forget(s: State, now: nat): State {
    s.(servers := s.servers.(
         serverGoals := map k | k in s.servers.serverGoals
             && (s.servers.serverGoals[k].completed.None? || now < s.servers.serverGoals[k].completed.value + 60000)
           :: s.servers.serverGoals[k]))
  }
}

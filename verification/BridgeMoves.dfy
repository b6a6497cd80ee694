/** Commands, backend events, ticks and disconnects as sequences of moves (src/bridge/mod.rs). */
module BridgeMoves {
  import opened Basics
  import opened Backend
  import opened BridgeState
  import opened BridgeTopics
  import opened BridgeServices
  import opened BridgeActions
  import Delivery

  // ---------- commands ----------

  /** A command's own arguments; its topic, service or action name stands in `Command`. */
  datatype Operation =
    | AdvertiseTopic(id: Id, setup: Setup)
    | UnadvertiseTopic(id: Id)
    | PublishMessage(id: Id, setup: Setup)
    | SubscribeTopic(id: Id, options: Delivery.Options, setup: Setup)
    | UnsubscribeTopic(id: Id)
    | CallRemote(id: Id, declared: Declared, known: Option<seq<string>>, permitted: bool, timeout: Timeout)
    | OfferService(typ: string, permitted: bool)
    | WithdrawService
    | AnswerService(request: string, success: Option<bool>)
    | StartGoal(id: Id, feedback: bool, uuid: Uuid)
    | StopGoal(goal: string)
    | OfferAction(typ: string, keys: seq<GoalKey>)
    | WithdrawAction(keys: seq<GoalKey>)
    | GiveFeedback(goal: string)
    | GiveResult(goal: string, status: int, values: string)

  /** `id` answers errors; `permitted` is the verdict of the access rules on the name. */
  datatype Command =
    | Malformed(id: Id)
    | Command(id: Id, name: string, permitted: bool, operation: Operation)

  predicate NeedsAccess(op: Operation) {
    op.AdvertiseTopic? || op.PublishMessage? || op.SubscribeTopic? || op.CallRemote? || op.OfferService?
    || op.StartGoal? || op.OfferAction?
  }

  predicate Wanted(s: State, key: Uuid, owner: Connection, action: string, id: string) {
    key in s.actions.goals && SameGoal(s.actions.goals[key], owner, action, Some(id))
  }

  /** The active goal a client means. */
  ghost function ActiveGoal(s: State, owner: Connection, action: string, id: string): (r: Option<Uuid>)
    ensures r.Some? ==> Wanted(s, r.value, owner, action, id)
    ensures r.None? ==> forall k :: !Wanted(s, k, owner, action, id)
  {
    if exists k :: Wanted(s, k, owner, action, id)
    then var k :| Wanted(s, k, owner, action, id); Some(k)
    else None
  }

  /** The server goal a client means. */
  ghost function ServedGoal(s: State, owner: Connection, action: string, id: string): (r: Option<GoalKey>)
    ensures r.Some? ==> GoalNamed(s, r.value, owner, action, id)
    ensures r.None? ==> forall k :: !GoalNamed(s, k, owner, action, id)
  {
    if exists k :: GoalNamed(s, k, owner, action, id)
    then var k :| GoalNamed(s, k, owner, action, id); Some(k)
    else None
  }

  ghost function Operate(s: State, owner: Connection, name: string, op: Operation, now: nat): (State, bool) {
    match op
    case AdvertiseTopic(id, setup) => Advertise(s, owner, name, id, setup)
    case UnadvertiseTopic(id) => Unadvertise(s, owner, name, id)
    case PublishMessage(id, setup) => PublishTo(s, owner, name, id, setup)
    case SubscribeTopic(id, options, setup) => Subscribe(s, owner, name, id, options, setup, now)
    case UnsubscribeTopic(id) => Unsubscribe(s, owner, name, id)
    case CallRemote(id, declared, known, permitted, timeout) =>
      CallService(s, owner, id, name, declared, known, permitted, timeout, now)
    case OfferService(typ, permitted) => if permitted then AdvertiseService(s, owner, name, typ) else (s, false)
    case WithdrawService => RemoveService(s, owner, name)
    case AnswerService(request, success) => ServiceResponse(s, owner, request, name, success)
    case StartGoal(id, feedback, uuid) => SendGoal(s, owner, name, id, feedback, uuid, now)
    case StopGoal(goal) => CancelGoal(s, ActiveGoal(s, owner, name, goal))
    case OfferAction(typ, keys) => AdvertiseAction(s, owner, name, typ, keys)
    case WithdrawAction(keys) => RemoveAction(s, owner, name, keys)
    case GiveFeedback(goal) =>
      (match ServedGoal(s, owner, name, goal)
       case None => (s, false)
       case Some(key) => ActionFeedback(s, key))
    case GiveResult(goal, status, values) =>
      (match ServedGoal(s, owner, name, goal)
       case None => (s, false)
       case Some(key) => ActionResult(s, key, status, values, now))
  }

  ghost function Execute(s: State, owner: Connection, c: Command, now: nat): (State, bool) {
    if c.Malformed? || Name(c.name).None? || (NeedsAccess(c.operation) && !c.permitted) then (s, false)
    else Operate(s, owner, Name(c.name).value, c.operation, now)
  }

  /** Commands of a client that is gone do nothing; failing ones are answered with an error. */
  ghost function OnCommand(s: State, owner: Connection, c: Command, now: nat): State {
    if owner !in s.desk.outputs then s
    else
      var (s1, ok) := Execute(s, owner, c, now);
      if ok then s1 else SendTo(s1, owner, Failure(c.id))
  }

  // ---------- events ----------

  ghost function OnMessage(s: State, e: Entity, m: Delivery.Message, now: nat, order: seq<Connection>): State {
    if exists g :: FeedbackFor(s, e, g) then
      var g :| FeedbackFor(s, e, g); GoalMessage(s, g, m)
    else if exists t :: Subscribed(s, e, t) then
      var t :| Subscribed(s, e, t); TopicMessage(s, t, m, now, order)
    else s
  }

  function OnResponse(s: State, ticket: Ticket, answer: Answer): State {
    if ticket in s.rpc.calls then FinishCall(s, ticket, true)
    else if ticket in s.actions.actionCalls then ActionResponse(s, ticket, answer).0
    else s
  }

  /** What a native request asks for; only the fields its service reads matter. */
  datatype Asked = Asked(uuid: Option<Uuid>, cancel: Option<CancelAsk>, stamp: (int, nat), notices: seq<GoalKey>)

  ghost predicate ServesPart(s: State, e: Entity, action: string, part: Part) {
    && action in s.servers.actionServers
    && s.servers.actionServers[action].five.At(part) == e
    && (part == Send || part == Result || part == Cancel)
  }

  ghost predicate Serves(s: State, e: Entity, name: string) {
    name in s.rpc.services && s.rpc.services[name].entity == e
  }

  function RequestOnAction(s: State, action: string, part: Part, request: nat, asked: Asked): (State, bool)
    requires action in s.servers.actionServers && forall k :: k in asked.notices ==> k in s.servers.serverGoals
  {
    match part
    case Send => SubmitGoal(s, action, asked.uuid, request, asked.stamp)
    case Result => AskResult(s, action, asked.uuid, request)
    case Cancel => CancelGoals(s, action, asked.cancel, request, asked.notices)
    case Feedback => (s, true)
    case Status => (s, true)
  }

  function DiscardOnError(outcome: (State, bool), e: Entity, request: nat): State {
    if outcome.1 then outcome.0 else outcome.0.(ros := outcome.0.ros.Discard(e, request))
  }

  /** The entity is one on which requests are served. */
  ghost predicate Served(s: State, e: Entity) {
    (exists a, p :: ServesPart(s, e, a, p)) || exists n :: Serves(s, e, n)
  }

  function Handling(s: State, r: Native): State {
    s.(unhandled := s.unhandled - {r})
  }

  /** A request whose handling fails is discarded; one on an entity that serves nothing is left lying. */
  ghost function OnRequest(s: State, e: Entity, request: nat, asked: Asked, now: nat): State
    requires forall k :: k in asked.notices ==> k in s.servers.serverGoals
  {
    if exists a, p :: ServesPart(s, e, a, p) then
      var a, p :| ServesPart(s, e, a, p);
      DiscardOnError(RequestOnAction(Handling(s, (e, request)), a, p, request, asked), e, request)
    else if exists n :: Serves(s, e, n) then
      var n :| Serves(s, e, n);
      ForwardRequest(Handling(s, (e, request)), n, request, now)
    else s
  }

  /** Polling takes all requests at once; what was asked is looked at later, or never if the poll fails. */
  function Polled(s: State, taken: set<Native>, next: nat): State {
    s.(ros := s.ros.TakeAll(taken, next), unhandled := s.unhandled + taken)
  }

  /** A poll takes requests on what is served, under numbers never used before. */
  ghost predicate CanTake(s: State, taken: set<Native>, next: nat) {
    s.ros.nextRequest <= next && forall r :: r in taken ==> Served(s, r.0) && s.ros.nextRequest <= r.1 < next
  }

  // ---------- leaving ----------

  function AbandonGoal(s: State, goal: Uuid): State {
    if goal !in s.actions.goals then s
    else
      var g := s.actions.goals[goal];
      FinishGoal(if g.accepted then s.(ros := s.ros.Request(g.five.cancel, AboutGoal(goal)).0) else s, goal, 6, false)
  }

  function DropCall(s: State, ticket: Ticket): State {
    if ticket !in s.rpc.calls then s
    else s.(rpc := s.rpc.(calls := s.rpc.calls - {ticket}), ros := s.ros.Destroy(ticket.0))
  }

  function ForgetExternal(s: State, owner: Connection): State {
    s.(rpc := s.rpc.(
         external := map k | k in s.rpc.external && s.rpc.external[k].owner != owner :: s.rpc.external[k]))
  }

  // ---------- moves ----------

  /** The smallest changes in whose terms the whole bridge runs. */
  datatype Move =
    | Connect(owner: Connection)
    | Obey(owner: Connection, command: Command, now: nat)
    | Poll(taken: set<Native>, next: nat)
    | Hear(entity: Entity, message: Delivery.Message, now: nat, order: seq<Connection>)
    | Learn(ticket: Ticket, answer: Answer)
    | Serve(entity: Entity, request: nat, asked: Asked, now: nat)
    | GoalTimeout(goal: Uuid)
    | Deliver(due: seq<(string, Connection)>, now: nat)
    | CallTimeout(ticket: Ticket)
    | RequestTimeout(id: string)
    | ForgetResults(now: nat)
    | TakeFailed
    | Depart(owner: Connection)
    | LeaveTopic(owner: Connection, topic: string)
    | LeaveSubscription(owner: Connection, topic: string)
    | LeaveService(owner: Connection, name: string)
    | LeaveAction(owner: Connection, name: string, keys: seq<GoalKey>)
    | LeaveGoal(goal: Uuid)
    | LeaveCall(ticket: Ticket)
    | LeaveExternal(owner: Connection)

  /** Orders list what they claim to, and a new goal gets a UUID never used before. */
  ghost predicate OperationFits(s: State, name: string, op: Operation) {
    match op
    case StartGoal(_, _, uuid) => uuid !in s.actions.issued
    case OfferAction(_, keys) => Lists(keys, GoalsOf(s.servers.serverGoals, name))
    case WithdrawAction(keys) => Lists(keys, GoalsOf(s.servers.serverGoals, name))
    case _ => true
  }

  /** The message goes to each of its receivers in turn. */
  ghost predicate HearFits(s: State, e: Entity, m: Delivery.Message, now: nat, order: seq<Connection>) {
    forall u :: Subscribed(s, e, u) ==> Lists(order, Receivers(s.topics.subscriptions[u], m, now))
  }

  ghost predicate DeliverFits(subs: map<string, Subscription>, due: seq<(string, Connection)>, now: nat) {
    (forall i :: 0 <= i < |due| ==> IsDue(subs, due[i], now)) && Lists(due, DuePlaces(subs, now))
  }

  /** The notices are about server goals, and those of a cancel request about each goal it cancels. */
  ghost predicate NoticesFit(s: State, e: Entity, asked: Asked) {
    && (forall k :: k in asked.notices ==> k in s.servers.serverGoals)
    && (asked.cancel.Some? ==> forall a :: ServesPart(s, e, a, Cancel) ==>
          Lists(asked.notices, Cancelled(s.servers.serverGoals, a, asked.cancel.value)))
  }

  ghost predicate Fits(s: State, m: Move) {
    match m
    case Hear(e, message, now, order) => HearFits(s, e, message, now, order)
    case Obey(_, c, _) => c.Malformed? || Name(c.name).None? || OperationFits(s, Name(c.name).value, c.operation)
    case Poll(taken, next) => CanTake(s, taken, next)
    case Serve(e, request, asked, _) => (e, request) in s.unhandled && NoticesFit(s, e, asked)
    case Deliver(due, now) => DeliverFits(s.topics.subscriptions, due, now)
    case LeaveAction(_, name, keys) => Lists(keys, GoalsOf(s.servers.serverGoals, name))
    case LeaveExternal(owner) => forall n :: n in s.rpc.services ==> s.rpc.services[n].owner != owner
    case _ => true
  }

  /** A move that does not fit does not happen. */
  ghost function Do(s: State, m: Move): State {
    if !Fits(s, m) then s
    else match m
    case Connect(owner) => s.(desk := s.desk.(outputs := s.desk.outputs + {owner}))
    case Obey(owner, command, now) => OnCommand(s, owner, command, now)
    case Poll(taken, next) => Polled(s, taken, next)
    case Hear(e, message, now, order) => OnMessage(s, e, message, now, order)
    case Learn(ticket, answer) => OnResponse(s, ticket, answer)
    case Serve(e, request, asked, now) => OnRequest(s, e, request, asked, now)
    case GoalTimeout(goal) => FinishGoal(s, goal, 6, false)
    case Deliver(due, now) => DeliverDue(s, due, now)
    case CallTimeout(ticket) => ExpireCall(s, ticket)
    case RequestTimeout(id) => ExpireExternal(s, id)
    case ForgetResults(now) => Forget(s, now)
    case TakeFailed => s.(desk := s.desk.(failed := {}))
    case Depart(owner) => s.(desk := s.desk.(outputs := s.desk.outputs - {owner}))
    case LeaveTopic(owner, topic) => Unadvertise(s, owner, topic, None).0
    case LeaveSubscription(owner, topic) => Unsubscribe(s, owner, topic, None).0
    case LeaveService(owner, name) => RemoveService(s, owner, name).0
    case LeaveAction(owner, name, keys) => RemoveAction(s, owner, name, keys).0
    case LeaveGoal(goal) => AbandonGoal(s, goal)
    case LeaveCall(ticket) => DropCall(s, ticket)
    case LeaveExternal(owner) => ForgetExternal(s, owner)
  }

  ghost function DoAll(s: State, moves: seq<Move>): State {
    if moves == [] then s else Do(DoAll(s, moves[..|moves| - 1]), moves[|moves| - 1])
  }
}

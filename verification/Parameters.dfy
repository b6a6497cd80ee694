/** Parameter requests fanned out to nodes and gathered again (src/ros/parameters.rs, src/ros/api.rs). */
module Parameters {
  import opened Basics
  import opened Backend

  /** `fallback` is what a client wants to get when there is no such parameter. */
  datatype Op = GetParam(fallback: string) | SetParam | HasParam | DeleteParam | GetParamNames

  /** A pending call: its client entity and its sequence number. */
  type Key = (Entity, nat)

  datatype Pending = Pending(group: nat, node: string, deleteCheck: bool)

  datatype Group = Group(service: Entity, request: nat, op: Op, remaining: nat, names: seq<string>, deadline: nat)

  /** A parameter's value: 0 is no value at all, and only 1 to 9 are kinds of values. */
  datatype Value = Value(kind: nat, text: string)

  predicate Present(value: Option<Value>) { value.Some? && value.value.kind != 0 }

  predicate Known(value: Option<Value>) { value.Some? && 1 <= value.value.kind <= 9 }

  function AsJson(value: Value): string {
    if 1 <= value.kind <= 9 then value.text else "null"
  }

  /** What a node answered, as far as it is looked at. */
  datatype Reply = Reply(names: seq<string>, value: Option<Value>, refusal: Option<string>)

  /** What a client gets; without a reason there was no error. */
  datatype Response =
    | Names(names: seq<string>)
    | Existence(found: bool)
    | Gotten(value: string, reason: Option<string>)
    | Done(reason: Option<string>)

  /** Only some responses have room for an error: a list of names and an existence do not. */
  function ResponseTo(op: Op, names: seq<string>, value: Option<Value>, error: Option<string>): Response {
    match op
    case GetParamNames => Names(names)
    case HasParam => Existence(error.None? && Known(value))
    case GetParam(fallback) =>
      Gotten(if error.None? && value.Some? then AsJson(value.value) else fallback, error)
    case _ => Done(error)
  }

  /** What is known of a request from when it is accepted. */
  datatype Accepted = Accepted(service: Entity, op: Op, plan: Plan, deadline: nat)

  datatype Heard = Heard(request: nat, node: string, reply: Reply)

  /** How a request was finished: how many calls were still out, and whether the response went out. */
  datatype Finished = Finished(request: nat, response: Response, waiting: nat, sent: bool)

  /**
   `accepted`, `asked`, `heard`, `finished` and `lost` are the ledger: every request ever
   accepted, every call made, every reply and every finish, in order, and the requests whose
   response failed to go out and whose native request nobody discards.
   */
  datatype State = State(
    groups: map<nat, Group>,
    pending: map<Key, Pending>,
    ros: Ros,
    accepted: map<nat, Accepted>,
    asked: seq<(nat, string)>,
    heard: seq<Heard>,
    finished: seq<Finished>,
    lost: set<nat>)

  function Initial(ros: Ros): State {
    State(map[], map[], ros, map[], [], [], [], {})
  }

  /** The calls a request needs, or why it cannot be set up. */
  datatype Plan = Impossible(reason: string) | Calls(nodes: seq<string>)

  function Members(pending: map<Key, Pending>, group: nat): set<Key> {
    set k | k in pending && pending[k].group == group
  }

  function Clients(keys: set<Key>): set<Entity> {
    set k | k in keys :: k.0
  }

  /** Removes the group with all its calls and clients, and answers the request. */
  function FinishGroup(s: State, id: nat, value: Option<Value>, error: Option<string>): (State, bool) {
    if id !in s.groups then (s, false)
    else
      var g := s.groups[id];
      var keys := Members(s.pending, id);
      var (ros, sent) := s.ros.DestroyAll(Clients(keys)).Respond(g.service, g.request);
      (s.(groups := s.groups - {id}, pending := s.pending - keys, ros := ros,
       finished := s.finished + [Finished(id, ResponseTo(g.op, g.names, value, error), g.remaining, sent)],
       lost := if sent then s.lost else s.lost + {id}), sent)
  }

  /** Starts one call of a group; `None` is its client or request failing. */
  function StartCall(s: State, id: nat, node: string, deleteCheck: bool): (State, bool)
    requires id in s.groups
  {
    match s.ros.Create()
    case (ros, None) => (s.(ros := ros), false)
    case (ros, Some(e)) =>
      (match ros.Request(e)
       case (ros2, None) => (s.(ros := ros2.Destroy(e)), false)
       case (ros2, Some(sequence)) =>
         (s.(ros := ros2, asked := s.asked + [(id, node)],
          pending := s.pending[(e, sequence) := Pending(id, node, deleteCheck)],
          groups := s.groups[id := s.groups[id].(remaining := s.groups[id].remaining + 1)]), true))
  }

  function StartCalls(s: State, id: nat, nodes: seq<string>, deleteCheck: bool): (r: (State, bool))
    requires id in s.groups
    ensures id in r.0.groups && r.0.groups.Keys == s.groups.Keys
    decreases |nodes|
  {
    if nodes == [] then (s, true)
    else
      var (s1, ok) := StartCall(s, id, nodes[0], deleteCheck);
      if !ok then (s1, false) else StartCalls(s1, id, nodes[1..], deleteCheck)
  }

  /** A new parameter request; false means the caller discards the native request. */
  function Accept(s: State, service: Entity, request: nat, op: Op, plan: Plan, deadline: nat): (State, bool) {
    var s1 := s.(groups := s.groups[request := Group(service, request, op, 0, [], deadline)],
                 accepted := s.accepted[request := Accepted(service, op, plan, deadline)]);
    match plan
    case Impossible(reason) => FinishGroup(s1, request, None, Some(reason))
    case Calls(nodes) =>
      var (s2, ok) := StartCalls(s1, request, nodes, op.DeleteParam?);
      if !ok then FinishGroup(s2, request, None, Some("call failed"))
      else if s2.groups[request].remaining == 0 then FinishGroup(s2, request, None, None)
      else (s2, true)
  }

  /** The call has been answered: its client is gone and its group waits for one reply less. */
  function TakeReply(s: State, key: Key, reply: Reply): State
    requires key in s.pending && s.pending[key].group in s.groups && s.groups[s.pending[key].group].remaining > 0
  {
    var id := s.pending[key].group;
    s.(pending := s.pending - {key}, ros := s.ros.Destroy(key.0),
    heard := s.heard + [Heard(id, s.pending[key].node, reply)],
    groups := s.groups[id := s.groups[id].(remaining := s.groups[id].remaining - 1)])
  }

  /** A node's names, each with the node's own in front. */
  function Qualified(node: string, names: seq<string>): seq<string> {
    seq(|names|, i requires 0 <= i < |names| => node + ":" + names[i])
  }

  function AddNames(s: State, id: nat, names: seq<string>): (State, bool)
    requires id in s.groups
  {
    var g := s.groups[id].(names := s.groups[id].names + names);
    var s' := s.(groups := s.groups[id := g]);
    if g.remaining == 0 then FinishGroup(s', id, None, None) else (s', true)
  }

  /** What a reply means for its group, once counted. */
  function Conclude(s: State, p: Pending, reply: Reply): (State, bool)
    requires p.group in s.groups
  {
    var missing := if Present(reply.value) then None else Some("Parameter not found");
    if p.deleteCheck then
      if !Present(reply.value) then FinishGroup(s, p.group, None, None) else SecondPhase(s, p)
    else
      match s.groups[p.group].op
      case GetParamNames => AddNames(s, p.group, Qualified(p.node, reply.names))
      case GetParam(_) => FinishGroup(s, p.group, reply.value, missing)
      case HasParam => FinishGroup(s, p.group, reply.value, missing)
      case _ => FinishGroup(s, p.group, None, reply.refusal)
  }

  /** The parameter exists, so delete it: a failing client aborts, a failing request finishes. */
  function SecondPhase(s: State, p: Pending): (State, bool)
    requires p.group in s.groups
  {
    match s.ros.Create()
    case (ros, None) => (s.(ros := ros), false)
    case (ros, Some(e)) =>
      (match ros.Request(e)
       case (ros2, None) => FinishGroup(s.(ros := ros2.Destroy(e)), p.group, None, Some("request failed"))
       case (ros2, Some(sequence)) =>
         (s.(ros := ros2, asked := s.asked + [(p.group, p.node)],
          pending := s.pending[(e, sequence) := p.(deleteCheck := false)],
          groups := s.groups[p.group := s.groups[p.group].(remaining := s.groups[p.group].remaining + 1)]), true))
  }

  datatype Event =
    | ParameterRequest(service: Entity, request: nat, op: Op, plan: Plan)
    | NodeReply(key: Key, reply: Reply)

  /** One event of `process`; false aborts the rest. */
  function HandleEvent(s: State, event: Event, deadline: nat): (State, bool) {
    match event
    case ParameterRequest(service, request, op, plan) =>
      var (s', ok) := Accept(s, service, request, op, plan, deadline);
      (if ok then s' else s'.(ros := s'.ros.Discard(service, request), lost := s'.lost - {request}), true)
    case NodeReply(key, reply) =>
      if key !in s.pending then (s, true)
      else
        var p := s.pending[key];
        if p.group in s.groups && s.groups[p.group].remaining > 0 then Conclude(TakeReply(s, key, reply), p, reply)
        else (s.(pending := s.pending - {key}, ros := s.ros.Destroy(key.0)), false)
  }

  function HandleEvents(s: State, events: seq<Event>, deadline: nat): (State, bool)
    decreases |events|
  {
    if events == [] then (s, true)
    else
      var (s1, ok) := HandleEvent(s, events[0], deadline);
      if !ok then (s1, false) else HandleEvents(s1, events[1..], deadline)
  }

  /** Deadlines are enforced one group at a time; a response that cannot be sent stops the round. */
  function Expire(s: State, ids: seq<nat>): (State, bool)
    decreases |ids|
  {
    if ids == [] then (s, true)
    else
      var (s1, ok) := FinishGroup(s, ids[0], None, Some("Timeout occurred"));
      if !ok then (s1, false) else Expire(s1, ids[1..])
  }

  function Overdue(s: State, now: nat): set<nat> {
    set id | id in s.groups && s.groups[id].deadline <= now
  }

  /** `process`: the events in order until one aborts, then the overdue groups, found in some order. */
  function Process(s: State, events: seq<Event>, now: nat, timeout: nat, expired: seq<nat>): (State, bool) {
    var (s1, ok) := HandleEvents(s, events, now + timeout);
    if ok then Expire(s1, expired) else (s1, false)
  }
}

/** What the bridge owns on behalf of its clients (src/bridge/mod.rs). */
module BridgeState {
  import opened Basics
  import opened Backend
  import Delivery

  type Connection = nat
  type Id = Option<string>

  /** A goal UUID, as the number its 16 bytes spell. */
  type Uuid = nat

  /** A request in flight: its client entity and its sequence number. */
  type Ticket = (Entity, nat)

  /** A native service request: its service entity and its handle. */
  type Native = (Entity, nat)

  /** A server goal is filed under its action and its UUID. */
  type GoalKey = (string, Uuid)

  datatype Publisher = Publisher(entity: Entity, typ: string, owners: map<Connection, set<Id>>)

  datatype Subscription = Subscription(
    transientLocal: bool,
    retained: Option<Delivery.Message>,
    entity: Entity,
    typ: string,
    clients: map<Connection, Delivery.Client>)

  datatype Service = Service(nextRequest: nat, owner: Connection, entity: Entity, typ: string)

  datatype Call = Call(owner: Connection, id: Id, service: string, expires: nat)

  datatype External = External(owner: Connection, entity: Entity, request: nat, service: string, expires: nat)

  datatype Part = Send | Result | Cancel | Feedback | Status

  /** The five entities of an action, for its client goals and its servers alike. */
  datatype Five = Five(send: Entity, result: Entity, cancel: Entity, feedback: Entity, status: Entity)
  {
    function At(part: Part): Entity {
      match part
      case Send => send
      case Result => result
      case Cancel => cancel
      case Feedback => feedback
      case Status => status
    }

    function All(): set<Entity> { {send, result, cancel, feedback, status} }
  }

  datatype ClientGoal = ClientGoal(
    owner: Connection,
    id: Id,
    action: string,
    feedback: bool,
    five: Five,
    accepted: bool,
    acceptanceDeadline: nat,
    cancelling: bool)

  /** What an outstanding request of a client goal is for. */
  datatype ActionCall = ActionCall(part: Part, goal: Uuid)

  datatype ActionServer = ActionServer(owner: Connection, typ: string, five: Five)

  datatype ServerGoal = ServerGoal(
    owner: Connection,
    id: string,
    status: int,
    stamp: (int, nat),
    result: Option<string>,
    requests: seq<Native>,
    completed: Option<nat>)

  /** A message to a client; the first argument of a final reply names the record it closes. */
  datatype Body =
    | Failure(id: Id)
    | ServiceReply(call: Ticket, service: string, id: Id, success: bool)
    | GoalReply(goal: Uuid, action: string, id: Id, status: int, success: bool)
    | GoalFeedback(goal: Uuid, action: string, id: Id)
    | CancelRejected(id: Id)
    | ServiceRequest(request: string, service: string)
    | GoalRequest(request: string, action: string)
    | CancelRequest(request: string, action: string)
    | Publish(topic: string, message: Delivery.Message)

  datatype Sent = Sent(owner: Connection, body: Body)

  /** Everything handed to the outputs; whether the n-th one is accepted is up to its queue. */
  datatype Wire = Wire(sent: seq<Sent>, accepts: nat -> bool)

  /** The connected clients, those whose output failed, and the counter behind unique ids. */
  datatype Desk = Desk(outputs: set<Connection>, failed: set<Connection>, next: nat, wire: Wire)

  datatype Topics = Topics(publishers: map<string, Publisher>, subscriptions: map<string, Subscription>)

  datatype Rpc = Rpc(services: map<string, Service>, calls: map<Ticket, Call>, external: map<string, External>)

  /**
   `issued` and `stranded` are history: the goal UUIDs ever used, and the accepted goals
   whose result could not be requested.
   */
  datatype Actions = Actions(
    goals: map<Uuid, ClientGoal>,
    actionCalls: map<Ticket, ActionCall>,
    issued: set<Uuid>,
    stranded: set<Uuid>)

  datatype Servers = Servers(actionServers: map<string, ActionServer>, serverGoals: map<GoalKey, ServerGoal>)

  /** `unhandled` is history: the native requests taken from the middleware and not handled since. */
  datatype State = State(desk: Desk, topics: Topics, rpc: Rpc, actions: Actions, servers: Servers, ros: Ros,
                         unhandled: set<Native>, timeout: nat)

  /** A new bridge: no client, no record. */
  function Initial(ros: Ros, timeout: nat, accepts: nat -> bool): State {
    State(Desk({}, {}, 0, Wire([], accepts)), Topics(map[], map[]), Rpc(map[], map[], map[]),
          Actions(map[], map[], {}, {}), Servers(map[], map[]), ros, {}, timeout)
  }

  function UniqueName(n: nat): string {
    "rosbridge:" + Decimal(n)
  }

  /** `send`: nothing for a client that failed already; a refused message makes it fail. */
  function Post(d: Desk, owner: Connection, body: Body): Desk {
    if owner in d.failed then d
    else if owner !in d.outputs then d.(next := d.next + 1)
    else
      Desk(d.outputs, if d.wire.accepts(|d.wire.sent|) then d.failed else d.failed + {owner}, d.next + 1,
           d.wire.(sent := d.wire.sent + [Sent(owner, body)]))
  }

  function PostAll(d: Desk, messages: seq<Sent>): Desk {
    if messages == [] then d
    else Post(PostAll(d, messages[..|messages| - 1]), messages[|messages| - 1].owner, messages[|messages| - 1].body)
  }

  function SendTo(s: State, owner: Connection, body: Body): State {
    s.(desk := Post(s.desk, owner, body))
  }

  function SendAll(s: State, messages: seq<Sent>): State {
    s.(desk := PostAll(s.desk, messages))
  }

  // ---------- names ----------

  predicate NameChar(c: char) {
    'a' <= c <= 'z' || 'A' <= c <= 'Z' || '0' <= c <= '9' || c == '_' || c == '/'
  }

  /** `name`: a nonempty ROS name, made absolute. */
  function Name(raw: string): (r: Option<string>)
    ensures r.Some? ==> forall i :: 0 <= i < |r.value| ==> NameChar(r.value[i])
  {
    if raw == "" || exists i :: 0 <= i < |raw| && !NameChar(raw[i]) then None
    else if raw[0] == '/' then Some(raw)
    else Some("/" + raw)
  }

  function Digit(n: nat): (c: char)
    requires n < 10
    ensures '0' <= c <= '9'
  {
    '0' + n as char
  }

  function Decimal(n: nat): string {
    if n < 10 then [Digit(n)] else Decimal(n / 10) + [Digit(n % 10)]
  }

  /** `service_request:{name}:{counter}`. */
  function RequestId(service: string, n: nat): string {
    "service_request:" + service + ":" + Decimal(n)
  }

  // ---------- types from the ROS graph ----------

  /** The optional `type` field of a command. */
  datatype Declared = Undeclared | Invalid | Type(name: string)

  /** `resolve`: a declared type must agree with the graph; without one the graph must be unambiguous. */
  function Resolve(declared: Declared, known: Option<seq<string>>): Option<string> {
    match declared
    case Invalid => None
    case Type(t) => if known.Some? && exists i :: 0 <= i < |known.value| && known.value[i] != t then None else Some(t)
    case Undeclared => if known.Some? && |known.value| == 1 then Some(known.value[0]) else None
  }
}

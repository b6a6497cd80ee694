/** Service advertisements, calls and responses (src/bridge/services.rs). */
module BridgeServices {
  import opened Basics
  import opened Backend
  import opened BridgeState

  /** The optional `timeout` field of a call. */
  datatype Timeout = Standard | BadTimeout | After(duration: nat)

  /** A client for one request, which is sent; a client whose request fails is destroyed again. */
  function NewCall(ros: Ros): (Ros, Option<Ticket>) {
    match ros.Create()
    case (ros2, None) => (ros2, None)
    case (ros2, Some(e)) =>
      (match ros2.Request(e)
       case (ros3, None) => (ros3.Destroy(e), None)
       case (ros3, Some(sequence)) => (ros3, Some((e, sequence))))
  }

  function CallService(s: State, owner: Connection, id: Id, service: string, declared: Declared,
                       known: Option<seq<string>>, permitted: bool, timeout: Timeout, now: nat): (State, bool)
  {
    var (ros, listed) := s.ros.Query();
    var typ := if listed then Resolve(declared, known) else None;
    if typ.None? || !permitted || timeout.BadTimeout? then (s.(ros := ros), false)
    else
      match NewCall(ros)
      case (ros2, None) => (s.(ros := ros2), false)
      case (ros2, Some(ticket)) =>
        var expires := now + if timeout.After? then timeout.duration else s.timeout;
        (s.(ros := ros2, rpc := s.rpc.(calls := s.rpc.calls[ticket := Call(owner, id, service, expires)])), true)
  }

  /** The service goes with everything still waiting for it. */
  function RemoveService(s: State, owner: Connection, name: string): (State, bool) {
    if name !in s.rpc.services || s.rpc.services[name].owner != owner then (s, false)
    else
      var e := s.rpc.services[name].entity;
      (s.(rpc := s.rpc.(
            services := s.rpc.services - {name},
            external := map k | k in s.rpc.external && s.rpc.external[k].entity != e :: s.rpc.external[k]),
          ros := s.ros.Destroy(e)), true)
  }

  function OpenService(s: State, owner: Connection, name: string, typ: string): (State, bool) {
    match s.ros.Create()
    case (ros, None) => (s.(ros := ros), false)
    case (ros, Some(e)) => (s.(ros := ros,
                               rpc := s.rpc.(services := s.rpc.services[name := Service(0, owner, e, typ)])), true)
  }

  /** A new type replaces the client's own service, even when the new one cannot be created. */
  function AdvertiseService(s: State, owner: Connection, name: string, typ: string): (State, bool) {
    if name !in s.rpc.services then OpenService(s, owner, name, typ)
    else if s.rpc.services[name].owner != owner then (s, false)
    else if s.rpc.services[name].typ == typ then (s, true)
    else OpenService(RemoveService(s, owner, name).0, owner, name, typ)
  }

  /** The client answers; the request is over only when the response went out. */
  function ServiceResponse(s: State, owner: Connection, id: string, service: string, success: Option<bool>)
    : (State, bool) {
    if id !in s.rpc.external then (s, false)
    else
      var r := s.rpc.external[id];
      if r.owner != owner || r.service != service || success != Some(true) then (s, false)
      else
        var (ros, sent) := s.ros.Respond(r.entity, r.request);
        if sent then (s.(ros := ros, rpc := s.rpc.(external := s.rpc.external - {id})), true)
        else (s.(ros := ros), false)
  }

  /** A native request on a service is filed under a fresh id and forwarded to the service's owner. */
  function ForwardRequest(s: State, name: string, request: nat, now: nat): State
    requires name in s.rpc.services
  {
    var service := s.rpc.services[name];
    var n := service.nextRequest + 1;
    var id := RequestId(name, n);
    SendTo(s.(rpc := s.rpc.(services := s.rpc.services[name := service.(nextRequest := n)],
                            external := s.rpc.external[id := External(service.owner, service.entity, request, name,
                                                                      now + s.timeout)])),
           service.owner, ServiceRequest(id, name))
  }

  /** A call is over: its reply goes to its owner and its client entity goes away. */
  function FinishCall(s: State, ticket: Ticket, success: bool): State
    requires ticket in s.rpc.calls
  {
    var c := s.rpc.calls[ticket];
    var s1 := SendTo(s.(rpc := s.rpc.(calls := s.rpc.calls - {ticket})), c.owner,
                     ServiceReply(ticket, c.service, c.id, success));
    s1.(ros := s1.ros.Destroy(ticket.0))
  }

  /** `tick`: a call past its deadline fails. */
  function ExpireCall(s: State, ticket: Ticket): State {
    if ticket in s.rpc.calls then FinishCall(s, ticket, false) else s
  }

  /** `tick`: a request nobody answered in time is discarded. */
  function ExpireExternal(s: State, id: string): State {
    if id in s.rpc.external then
      s.(rpc := s.rpc.(external := s.rpc.external - {id}),
         ros := s.ros.Discard(s.rpc.external[id].entity, s.rpc.external[id].request))
    else s
  }
}

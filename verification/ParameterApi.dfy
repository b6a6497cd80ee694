/** The parameter half of the rosapi worker, with its tables (src/ros/parameters.rs, src/ros/api.rs). */
module ParameterApi {
  import opened Basics
  import opened Backend
  import opened Parameters
  import Runs = ParameterRuns

  class Api {
    var groups: map<nat, Group>
    var pending: map<Key, Pending>
    var ros: Ros
    ghost var accepted: map<nat, Accepted>
    ghost var asked: seq<(nat, string)>
    ghost var heard: seq<Heard>
    ghost var finished: seq<Finished>
    ghost var lost: set<nat>

    ghost function View(): State
      reads this
    {
      State(groups, pending, ros, accepted, asked, heard, finished, lost)
    }

    constructor (ros: Ros)
      ensures View() == Initial(ros)
      ensures ros.Valid() ==> Runs.Sound(View(), ros.live)
    {
      groups, pending := map[], map[];
      this.ros := ros;
      accepted, asked, heard, finished, lost := map[], [], [], [], {};
      new;
      if ros.Valid() { Runs.InitiallySound(ros, ros.live); }
    }

    /** Removes the group, tears down its calls one by one, and sends the response. */
    method Finish(id: nat, value: Option<Value>, error: Option<string>) returns (ok: bool)
      modifies this
      ensures (View(), ok) == FinishGroup(old(View()), id, value, error)
    {
      if id !in groups {
        return false;
      }
      var group := groups[id];
      groups := groups - {id};
      ghost var before, calls := ros, pending;
      var todo := Members(pending, id);
      ghost var done: set<Key> := {};
      assert before.DestroyAll({}) == before && calls - {} == calls;
      assert Clients({}) == {};
      while todo != {}
        invariant done !! todo && done + todo == Members(calls, id)
        invariant pending == calls - done
        invariant ros == before.DestroyAll(Clients(done))
        invariant groups == old(groups) - {id}
        invariant accepted == old(accepted) && asked == old(asked) && heard == old(heard)
        invariant finished == old(finished) && lost == old(lost)
        decreases todo
      {
        var key :| key in todo;
        todo := todo - {key};
        pending := pending - {key};
        DestroyEachIsDestroyAll(before, Clients(done), key.0);
        ros := ros.Destroy(key.0);
        assert Clients(done + {key}) == Clients(done) + {key.0};
        assert calls - done - {key} == calls - (done + {key});
        done := done + {key};
      }
      var sent;
      var answered := ros.Respond(group.service, group.request);
      ros, sent := answered.0, answered.1;
      finished := finished + [Finished(id, ResponseTo(group.op, group.names, value, error), group.remaining, sent)];
      if !sent { lost := lost + {id}; }
      return sent;
    }

    /** Creates a client and sends its request, undoing the client when that fails. */
    method Call(id: nat, node: string, deleteCheck: bool) returns (ok: bool)
      requires id in groups
      modifies this
      ensures (View(), ok) == StartCall(old(View()), id, node, deleteCheck)
    {
      var created := ros.Create();
      ros := created.0;
      if created.1.None? {
        return false;
      }
      var entity := created.1.value;
      var requested := ros.Request(entity);
      ros := requested.0;
      if requested.1.None? {
        ros := ros.Destroy(entity);
        return false;
      }
      asked := asked + [(id, node)];
      pending := pending[(entity, requested.1.value) := Pending(id, node, deleteCheck)];
      groups := groups[id := groups[id].(remaining := groups[id].remaining + 1)];
      return true;
    }

    /** `parameter`: register the group, start its calls, finish at once when there are none. */
    method Parameter(service: Entity, request: nat, op: Op, plan: Plan, deadline: nat) returns (ok: bool)
      modifies this
      ensures (View(), ok) == Accept(old(View()), service, request, op, plan, deadline)
    {
      hide FinishGroup, StartCall;
      groups := groups[request := Group(service, request, op, 0, [], deadline)];
      accepted := accepted[request := Accepted(service, op, plan, deadline)];
      ghost var registered := View();
      match plan
      case Impossible(reason) =>
        ok := Finish(request, None, Some(reason));
      case Calls(nodes) =>
        var started := true;
        var i := 0;
        assert nodes[0..] == nodes;
        while i < |nodes| && started
          invariant 0 <= i <= |nodes|
          invariant request in groups
          invariant StartCalls(registered, request, nodes, op.DeleteParam?) ==
                    if started then StartCalls(View(), request, nodes[i..], op.DeleteParam?) else (View(), false)
        {
          assert nodes[i..][0] == nodes[i] && nodes[i..][1..] == nodes[i + 1..];
          started := Call(request, nodes[i], op.DeleteParam?);
          i := i + 1;
        }
        if !started {
          ok := Finish(request, None, Some("call failed"));
        } else if groups[request].remaining == 0 {
          ok := Finish(request, None, None);
        } else {
          ok := true;
        }
    }

    /** `parameter_response`, after the pending call was removed and its client destroyed. */
    method ParameterResponse(p: Pending, reply: Reply) returns (ok: bool)
      requires p.group in groups && groups[p.group].remaining > 0
      modifies this
      ensures (View(), ok) == Conclude(
        old(View()).(groups := old(groups)[
                       p.group := old(groups)[p.group].(remaining := old(groups)[p.group].remaining - 1)]),
        p, reply)
    {
      groups := groups[p.group := groups[p.group].(remaining := groups[p.group].remaining - 1)];
      if p.deleteCheck {
        if !Present(reply.value) {
          ok := Finish(p.group, None, None);
          return;
        }
        var created := ros.Create();
        ros := created.0;
        if created.1.None? {
          return false;
        }
        var entity := created.1.value;
        var requested := ros.Request(entity);
        ros := requested.0;
        if requested.1.None? {
          ros := ros.Destroy(entity);
          ok := Finish(p.group, None, Some("request failed"));
          return;
        }
        groups := groups[p.group := groups[p.group].(remaining := groups[p.group].remaining + 1)];
        asked := asked + [(p.group, p.node)];
        pending := pending[(entity, requested.1.value) := p.(deleteCheck := false)];
        return true;
      }
      match groups[p.group].op
      case GetParamNames =>
        groups := groups[p.group := groups[p.group].(names := groups[p.group].names + Qualified(p.node, reply.names))];
        if groups[p.group].remaining == 0 {
          ok := Finish(p.group, None, None);
        } else {
          ok := true;
        }
      case GetParam(_) =>
        ok := Finish(p.group, reply.value, if Present(reply.value) then None else Some("Parameter not found"));
      case HasParam =>
        ok := Finish(p.group, reply.value, if Present(reply.value) then None else Some("Parameter not found"));
      case SetParam =>
        ok := Finish(p.group, None, reply.refusal);
      case DeleteParam =>
        ok := Finish(p.group, None, reply.refusal);
    }

    method HandleOne(event: Event, deadline: nat) returns (ok: bool)
      requires Runs.Counted(View())
      modifies this
      ensures (View(), ok) == HandleEvent(old(View()), event, deadline)
    {
      match event
      case ParameterRequest(service, request, op, plan) =>
        var accepted_ := Parameter(service, request, op, plan, deadline);
        if !accepted_ {
          ros := ros.Discard(service, request);
          lost := lost - {request};
        }
        ok := true;
      case NodeReply(key, reply) =>
        if key in pending {
          Runs.ReplyFindsItsGroup(View(), key);
          var p := pending[key];
          pending := pending - {key};
          ros := ros.Destroy(key.0);
          heard := heard + [Heard(p.group, p.node, reply)];
          ok := ParameterResponse(p, reply);
        } else {
          ok := true;
        }
    }

    method HandleAll(events: seq<Event>, deadline: nat, ghost services: set<Entity>) returns (ok: bool)
      requires Runs.Ready(View(), services, events)
      modifies this
      ensures (View(), ok) == HandleEvents(old(View()), events, deadline)
    {
      hide Runs.Ready, HandleEvent;
      var i := 0;
      ok := true;
      assert events[0..] == events;
      while i < |events| && ok
        invariant 0 <= i <= |events|
        invariant ok ==> Runs.Ready(View(), services, events[i..])
        invariant HandleEvents(old(View()), events, deadline) ==
                  if ok then HandleEvents(View(), events[i..], deadline) else (View(), false)
      {
        assert events[i..][0] == events[i] && events[i..][1..] == events[i + 1..];
        Runs.ReadyIsCounted(View(), services, events[i..]);
        Runs.EventKeepsReady(View(), services, events[i..], deadline);
        ok := HandleOne(events[i], deadline);
        i := i + 1;
      }
    }

    /** The overdue groups, in whatever order the table yields them. */
    method FindOverdue(now: nat) returns (expired: seq<nat>)
      ensures Lists(expired, Overdue(View(), now))
    {
      expired := [];
      var todo := groups.Keys;
      while todo != {}
        invariant todo <= groups.Keys
        invariant forall id :: id in expired <==> id in Overdue(View(), now) && id !in todo
        invariant forall i, j :: 0 <= i < j < |expired| ==> expired[i] != expired[j]
        decreases todo
      {
        var id :| id in todo;
        todo := todo - {id};
        if groups[id].deadline <= now { expired := expired + [id]; }
      }
    }

    /** Finishes the groups one by one, until a response cannot be sent. */
    method ExpireAll(expired: seq<nat>) returns (ok: bool)
      modifies this
      ensures (View(), ok) == Expire(old(View()), expired)
    {
      ok := true;
      var i := 0;
      assert expired[0..] == expired;
      while i < |expired| && ok
        invariant 0 <= i <= |expired|
        invariant Expire(old(View()), expired) == if ok then Expire(View(), expired[i..]) else (View(), false)
      {
        assert expired[i..][0] == expired[i] && expired[i..][1..] == expired[i + 1..];
        ok := Finish(expired[i], None, Some("Timeout occurred"));
        i := i + 1;
      }
    }

    /**
     One round of `process`: the events in order until one aborts, then exactly the groups that
     are overdue by then. Everything stays sound, and a completed round leaves nothing overdue.
     */
    method Process(events: seq<Event>, now: nat, timeout: nat, ghost services: set<Entity>)
      returns (ok: bool, ghost expired: seq<nat>)
      requires Runs.Ready(View(), services, events)
      modifies this
      ensures (View(), ok) == Parameters.Process(old(View()), events, now, timeout, expired)
      ensures Lists(expired, Overdue(HandleEvents(old(View()), events, now + timeout).0, now))
      ensures Runs.Sound(View(), services)
      ensures ok ==> Overdue(View(), now) == {}
    {
      hide Runs.Sound, Runs.Expected, HandleEvents, Expire, Overdue;
      Runs.EventsKeepSound(View(), services, events, now + timeout);
      ok := HandleAll(events, now + timeout, services);
      var found := FindOverdue(now);
      expired := found;
      if ok {
        Runs.ExpiryFinishesOverdue(View(), services, found, now);
        ok := ExpireAll(found);
      }
    }
  }
}

/** Every parameter request is finished exactly once, with its calls and clients (src/ros/parameters.rs). */
module ParameterRuns {
  import opened Basics
  import opened Backend
  import opened Parameters

  /** Counters count, calls belong to live groups, and each call owns its own client. */
  ghost predicate Counted(s: State) {
    && (forall g :: g in s.groups ==> s.groups[g].remaining == |Members(s.pending, g)|)
    && (forall k :: k in s.pending ==> s.pending[k].group in s.groups)
    && (forall k :: k in s.pending && s.pending[k].deleteCheck ==> s.groups[s.pending[k].group].op.DeleteParam?)
    && (forall g :: g in s.groups && s.groups[g].remaining == 0 ==> s.groups[g].op.DeleteParam?)
  }

  /** The live entities are the services plus exactly one client per pending call. */
  ghost predicate Owned(s: State, services: set<Entity>) {
    && s.ros.Valid()
    && s.ros.live == services + Clients(s.pending.Keys)
    && (forall k :: k in s.pending ==> k.0 !in services)
    && (forall k, l :: k in s.pending && l in s.pending && k.0 == l.0 ==> k == l)
  }

  /** Accepted requests are either live or finished, never both, never finished twice. */
  ghost predicate Accounted(s: State) {
    && (forall g :: g in s.groups ==> g in s.accepted)
    && (forall i :: 0 <= i < |s.finished| ==> s.finished[i].request in s.accepted && s.finished[i].request !in s.groups)
    && (forall i, j :: 0 <= i < j < |s.finished| ==> s.finished[i].request != s.finished[j].request)
    && (forall r :: r in s.accepted ==> r in s.groups || IsFinished(s.finished, r))
  }

  /** A native request is outstanding exactly while its group lives or after its response was lost. */
  ghost predicate Outstanding(s: State, services: set<Entity>) {
    && (forall g :: g in s.groups ==>
          && s.groups[g].request == g && g in s.accepted && g !in s.lost
          && s.accepted[g].service == s.groups[g].service && s.accepted[g].op == s.groups[g].op
          && s.accepted[g].deadline == s.groups[g].deadline)
    && (forall r :: r in s.accepted ==> s.accepted[r].service in services && r < s.ros.nextRequest)
    && (forall r :: r in s.lost ==> r in s.accepted)
    && (forall r :: r in s.accepted ==> ((s.accepted[r].service, r) in s.ros.requests <==> r in s.groups || r in s.lost))
  }

  ghost predicate IsFinished(finished: seq<Finished>, request: nat) {
    exists i :: 0 <= i < |finished| && finished[i].request == request
  }

  ghost predicate Sound(s: State, services: set<Entity>) {
    Counted(s) && Owned(s, services) && Accounted(s) && Outstanding(s, services)
  }

  lemma FinishKeepsCounted(s: State, id: nat, value: Option<Value>, error: Option<string>)
    requires id in s.groups
    requires forall g :: g in s.groups && g != id ==> s.groups[g].remaining == |Members(s.pending, g)|
    requires forall k :: k in s.pending ==> s.pending[k].group in s.groups
    requires forall k :: k in s.pending && s.pending[k].deleteCheck ==> s.groups[s.pending[k].group].op.DeleteParam?
    requires forall g :: g in s.groups && g != id && s.groups[g].remaining == 0 ==> s.groups[g].op.DeleteParam?
    ensures Counted(FinishGroup(s, id, value, error).0)
  {
    var s' := FinishGroup(s, id, value, error).0;
    forall g | g in s'.groups
      ensures Members(s'.pending, g) == Members(s.pending, g)
    {
    }
  }

  lemma FinishKeepsOwned(s: State, services: set<Entity>, id: nat, value: Option<Value>, error: Option<string>)
    requires Owned(s, services) && id in s.groups
    ensures var s' := FinishGroup(s, id, value, error).0;
      && Owned(s', services)
      && (forall k :: k in Members(s.pending, id) ==> k.0 !in s'.ros.live)
      && (forall r :: r in s.ros.requests && r.0 in services && r != (s.groups[id].service, s.groups[id].request) ==>
            r in s'.ros.requests)
      && (forall r :: r in s'.ros.requests ==> r in s.ros.requests)
      && s'.ros.nextRequest == s.ros.nextRequest
  {
    var s' := FinishGroup(s, id, value, error).0;
    var keys := Members(s.pending, id);
    forall e
      ensures e in s'.ros.live <==> e in services + Clients(s'.pending.Keys)
    {
      if e in Clients(s'.pending.Keys) {
        var k :| k in s'.pending && k.0 == e;
        assert k in s.pending && k !in keys;
        assert forall l :: l in keys ==> l.0 != e;
      }
      if e in s'.ros.live && e !in services {
        var k :| k in s.pending && k.0 == e;
        assert k !in keys;
        assert k in s'.pending;
      }
    }
  }

  lemma FinishKeepsAccounted(s: State, id: nat, value: Option<Value>, error: Option<string>)
    requires Accounted(s) && id in s.groups
    ensures Accounted(FinishGroup(s, id, value, error).0)
  {
    var s' := FinishGroup(s, id, value, error).0;
    assert s'.finished[|s.finished|].request == id;
    forall r | r in s'.accepted
      ensures r in s'.groups || IsFinished(s'.finished, r)
    {
      if r != id && r !in s.groups {
        var i :| 0 <= i < |s.finished| && s.finished[i].request == r;
        assert s'.finished[i].request == r;
      }
    }
  }

  lemma FinishKeepsOutstanding(s: State, services: set<Entity>, id: nat, value: Option<Value>, error: Option<string>)
    requires Owned(s, services) && Outstanding(s, services) && id in s.groups
    ensures Outstanding(FinishGroup(s, id, value, error).0, services)
  {
    FinishKeepsOwned(s, services, id, value, error);
  }

  /**
   Finishing a group removes it and its calls, destroys their clients and nobody else's,
   and answers its request at most once; other groups do not notice.
   */
  lemma FinishIsClean(s: State, services: set<Entity>, id: nat, value: Option<Value>, error: Option<string>)
    requires Sound(s, services) && id in s.groups
    ensures var (s', sent) := FinishGroup(s, id, value, error);
      && Sound(s', services)
      && s'.groups == s.groups - {id}
      && (forall k :: k in s'.pending <==> k in s.pending && s.pending[k].group != id)
      && (forall k :: k in s.pending && s.pending[k].group == id ==> k.0 !in s'.ros.live)
      && |s'.finished| == |s.finished| + 1 && s'.finished[|s.finished|].request == id
  {
    FinishKeepsCounted(s, id, value, error);
    FinishKeepsOwned(s, services, id, value, error);
    FinishKeepsAccounted(s, id, value, error);
    FinishKeepsOutstanding(s, services, id, value, error);
  }

  // ------------------------------------------------------------ starting calls

  /** `Counted`, except that group `id` may still be waiting for its first call. */
  ghost predicate CountedBut(s: State, id: nat) {
    && (forall g :: g in s.groups ==> s.groups[g].remaining == |Members(s.pending, g)|)
    && (forall k :: k in s.pending ==> s.pending[k].group in s.groups)
    && (forall k :: k in s.pending && s.pending[k].deleteCheck ==> s.groups[s.pending[k].group].op.DeleteParam?)
    && (forall g :: g in s.groups && g != id && s.groups[g].remaining == 0 ==> s.groups[g].op.DeleteParam?)
  }

  ghost predicate SoundBut(s: State, services: set<Entity>, id: nat) {
    && id in s.groups
    && CountedBut(s, id) && Owned(s, services) && Accounted(s) && Outstanding(s, services)
  }

  /** What a step may not touch: requests other than its own. */
  ghost predicate KeepsRequests(s: State, s': State, services: set<Entity>, own: nat) {
    && s'.ros.nextRequest == s.ros.nextRequest
    && (forall r :: r in s.ros.requests && r.0 in services && r.1 != own ==> r in s'.ros.requests)
  }

  /** A new call of group `id`: a fresh client and one more reply to wait for. */
  function AddCall(s: State, ros: Ros, key: Key, p: Pending): State
    requires p.group in s.groups
  {
    s.(ros := ros, pending := s.pending[key := p], asked := s.asked + [(p.group, p.node)],
    groups := s.groups[p.group := s.groups[p.group].(remaining := s.groups[p.group].remaining + 1)])
  }

  lemma AddCallKeepsCounted(s: State, ros: Ros, key: Key, p: Pending)
    requires p.group in s.groups && CountedBut(s, p.group) && key !in s.pending
    requires p.deleteCheck ==> s.groups[p.group].op.DeleteParam?
    ensures Counted(AddCall(s, ros, key, p))
  {
    hide Members;
    var s' := AddCall(s, ros, key, p);
    forall g | g in s'.groups
      ensures s'.groups[g].remaining == |Members(s'.pending, g)|
    {
      OneMoreMember(s.pending, key, p, g);
    }
  }

  lemma OneMoreMember(pending: map<Key, Pending>, key: Key, p: Pending, g: nat)
    requires key !in pending
    ensures |Members(pending[key := p], g)| == |Members(pending, g)| + if g == p.group then 1 else 0
  {
    assert Members(pending[key := p], g) == if g == p.group then Members(pending, g) + {key} else Members(pending, g);
  }

  lemma AddCallKeepsOwned(s: State, services: set<Entity>, ros: Ros, key: Key, p: Pending)
    requires p.group in s.groups && Owned(s, services)
    requires key.0 == s.ros.nextEntity && ros.live == s.ros.live + {key.0} && ros.requests == s.ros.requests
    requires ros.nextEntity == s.ros.nextEntity + 1 && ros.nextRequest == s.ros.nextRequest
    ensures key !in s.pending
    ensures Owned(AddCall(s, ros, key, p), services)
  {
    var s' := AddCall(s, ros, key, p);
    assert forall k :: k in s.pending ==> k.0 in Clients(s.pending.Keys) && k.0 in s.ros.live;
    assert s'.pending.Keys == s.pending.Keys + {key};
    assert Clients(s'.pending.Keys) == Clients(s.pending.Keys) + {key.0};
  }

  /** The ledger does not depend on calls, clients or counters. */
  ghost predicate SameLedger(s: State, s': State) {
    && s'.groups.Keys == s.groups.Keys
    && (forall g :: g in s.groups ==>
          s'.groups[g].request == s.groups[g].request && s'.groups[g].service == s.groups[g].service
          && s'.groups[g].op == s.groups[g].op && s'.groups[g].deadline == s.groups[g].deadline)
    && s'.accepted == s.accepted && s'.finished == s.finished && s'.lost == s.lost
    && s'.ros.nextRequest == s.ros.nextRequest
    && s'.ros.requests == s.ros.requests
  }

  lemma SameLedgerKeeps(s: State, s': State, services: set<Entity>)
    requires SameLedger(s, s') && Accounted(s) && Outstanding(s, services)
    ensures Accounted(s') && Outstanding(s', services)
  {
  }

  lemma AddCallSameLedger(s: State, ros: Ros, key: Key, p: Pending)
    requires p.group in s.groups && ros.requests == s.ros.requests && ros.nextRequest == s.ros.nextRequest
    ensures SameLedger(s, AddCall(s, ros, key, p))
  {
  }

  lemma AddCallKeepsSound(s: State, services: set<Entity>, ros: Ros, key: Key, p: Pending)
    requires SoundBut(s, services, p.group)
    requires p.deleteCheck ==> s.groups[p.group].op.DeleteParam?
    requires key.0 == s.ros.nextEntity && ros.live == s.ros.live + {key.0} && ros.requests == s.ros.requests
    requires ros.nextEntity == s.ros.nextEntity + 1 && ros.nextRequest == s.ros.nextRequest
    ensures Sound(AddCall(s, ros, key, p), services)
  {
    AddCallKeepsOwned(s, services, ros, key, p);
    AddCallKeepsCounted(s, ros, key, p);
    AddCallSameLedger(s, ros, key, p);
    SameLedgerKeeps(s, AddCall(s, ros, key, p), services);
  }

  /** A client that failed to get its request out is destroyed again. */
  lemma RollbackKeepsRos(b: Ros, created: (Ros, Option<Entity>))
    requires b.Valid() && created == b.Create() && created.1.Some?
    requires created.0.Request(created.1.value).1.None?
    ensures var ros := created.0.Request(created.1.value).0.Destroy(created.1.value);
      ros.Valid() && ros.live == b.live && ros.requests == b.requests && ros.nextRequest == b.nextRequest
  {
    assert created.1.value !in b.live;
  }

  /** Failed attempts leave only the backend's bookkeeping changed. */
  lemma IdleRosKeepsSound(s: State, services: set<Entity>, id: nat, ros: Ros)
    requires SoundBut(s, services, id)
    requires ros.Valid() && ros.live == s.ros.live && ros.requests == s.ros.requests
      && ros.nextRequest == s.ros.nextRequest
    ensures SoundBut(s.(ros := ros), services, id)
    ensures SameLedger(s, s.(ros := ros))
  {
    SameLedgerKeeps(s, s.(ros := ros), services);
  }

  /** Starting a call either adds it with a fresh client, or changes nothing but backend bookkeeping. */
  lemma StartCallShape(s: State, id: nat, node: string, deleteCheck: bool) returns (ros: Ros, key: Key)
    requires id in s.groups && s.ros.Valid()
    ensures ros.requests == s.ros.requests && ros.nextRequest == s.ros.nextRequest && ros.Valid()
    ensures var (s', ok) := StartCall(s, id, node, deleteCheck);
      if ok then
        && key.0 == s.ros.nextEntity && ros.live == s.ros.live + {key.0} && ros.nextEntity == s.ros.nextEntity + 1
        && s' == AddCall(s, ros, key, Pending(id, node, deleteCheck))
      else
        ros.live == s.ros.live && s' == s.(ros := ros)
  {
    var (ros1, created) := s.ros.Create();
    ros, key := ros1, (0, 0);
    if created.Some? {
      var (ros2, sequence) := ros1.Request(created.value);
      if sequence.Some? {
        ros, key := ros2, (created.value, sequence.value);
      } else {
        RollbackKeepsRos(s.ros, s.ros.Create());
        ros := ros2.Destroy(created.value);
      }
    }
  }

  lemma StartCallKeepsSound(s: State, services: set<Entity>, id: nat, node: string, deleteCheck: bool)
    requires SoundBut(s, services, id)
    requires deleteCheck ==> s.groups[id].op.DeleteParam?
    ensures var (s', ok) := StartCall(s, id, node, deleteCheck);
      && SameLedger(s, s')
      && (ok ==> Sound(s', services) && s'.groups[id].remaining > 0)
      && (!ok ==> SoundBut(s', services, id))
  {
    var ros, key := StartCallShape(s, id, node, deleteCheck);
    if StartCall(s, id, node, deleteCheck).1 {
      AddCallKeepsSound(s, services, ros, key, Pending(id, node, deleteCheck));
      AddCallSameLedger(s, ros, key, Pending(id, node, deleteCheck));
    } else {
      IdleRosKeepsSound(s, services, id, ros);
    }
  }

  lemma SoundIsSoundBut(s: State, services: set<Entity>, id: nat)
    requires Sound(s, services) && id in s.groups
    ensures SoundBut(s, services, id)
  {
  }

  lemma {:induction false} StartCallsKeepSound(s: State, services: set<Entity>, id: nat, nodes: seq<string>,
                                               deleteCheck: bool)
    requires SoundBut(s, services, id)
    requires deleteCheck ==> s.groups[id].op.DeleteParam?
    ensures var (s', ok) := StartCalls(s, id, nodes, deleteCheck);
      && SoundBut(s', services, id)
      && SameLedger(s, s')
      && (s'.groups[id].remaining > 0 ==> Sound(s', services))
    decreases |nodes|
  {
    if nodes != [] {
      StartCallKeepsSound(s, services, id, nodes[0], deleteCheck);
      var (s1, ok) := StartCall(s, id, nodes[0], deleteCheck);
      if ok { SoundIsSoundBut(s1, services, id); StartCallsKeepSound(s1, services, id, nodes[1..], deleteCheck); }
    }
  }

  /** A group can always be finished, even one still without calls. */
  lemma FinishKeepsSound(s: State, services: set<Entity>, id: nat, value: Option<Value>, error: Option<string>)
    requires SoundBut(s, services, id)
    ensures var (s', sent) := FinishGroup(s, id, value, error);
      && Sound(s', services)
      && KeepsRequests(s, s', services, id)
      && s'.accepted == s.accepted
      && s'.lost == (if sent then s.lost else s.lost + {id})
      && s'.groups == s.groups - {id}
  {
    hide Owned, Accounted, Outstanding, Counted, Members, Clients;
    OwnRequest(s, services, id);
    FinishKeepsCounted(s, id, value, error);
    FinishKeepsOwned(s, services, id, value, error);
    FinishKeepsAccounted(s, id, value, error);
    FinishKeepsOutstanding(s, services, id, value, error);
  }

  lemma OwnRequest(s: State, services: set<Entity>, id: nat)
    requires Outstanding(s, services) && id in s.groups
    ensures s.groups[id].request == id
  {
  }

  /** Registering the group, before any call is made. */
  function Register(s: State, service: Entity, request: nat, op: Op, plan: Plan, deadline: nat): State {
    s.(groups := s.groups[request := Group(service, request, op, 0, [], deadline)],
    accepted := s.accepted[request := Accepted(service, op, plan, deadline)])
  }

  lemma RegisterKeepsCounted(s: State, service: Entity, request: nat, op: Op, plan: Plan,
                             deadline: nat)
    requires Counted(s) && request !in s.groups
    ensures CountedBut(Register(s, service, request, op, plan, deadline), request)
  {
    assert Members(s.pending, request) == {};
  }

  lemma RegisterKeepsAccounted(s: State, service: Entity, request: nat, op: Op, plan: Plan,
                               deadline: nat)
    requires Accounted(s) && request !in s.accepted
    ensures Accounted(Register(s, service, request, op, plan, deadline))
  {
  }

  lemma RegisterKeepsSound(s: State, services: set<Entity>, service: Entity, request: nat, op: Op, plan: Plan,
                           deadline: nat)
    requires Sound(s, services)
    requires service in services && request !in s.accepted && (service, request) in s.ros.requests
    ensures SoundBut(Register(s, service, request, op, plan, deadline), services, request)
  {
    hide Members, Clients, Ros.Valid, Counted, CountedBut, Accounted, Outstanding;
    OnlyAccepted(s, services, request);
    RegisterKeepsCounted(s, service, request, op, plan, deadline);
    RegisterKeepsAccounted(s, service, request, op, plan, deadline);
    RegisterKeepsOutstanding(s, services, service, request, op, plan, deadline);
  }

  lemma OnlyAccepted(s: State, services: set<Entity>, request: nat)
    requires Outstanding(s, services) && request !in s.accepted
    ensures request !in s.groups && request !in s.lost
  {
  }

  lemma RegisterKeepsOutstanding(s: State, services: set<Entity>, service: Entity, request: nat, op: Op, plan: Plan,
                                 deadline: nat)
    requires Outstanding(s, services) && s.ros.Valid()
    requires service in services && request !in s.accepted && (service, request) in s.ros.requests
    ensures Outstanding(Register(s, service, request, op, plan, deadline), services)
  {
  }

  // ------------------------------------------------------------------- events

  lemma SameLedgerKeepsRequests(s: State, s': State, services: set<Entity>, own: nat)
    requires SameLedger(s, s')
    ensures KeepsRequests(s, s', services, own)
  {
  }

  lemma AcceptKeepsSound(s: State, services: set<Entity>, service: Entity, request: nat, op: Op, plan: Plan,
                         deadline: nat)
    requires Sound(s, services)
    requires service in services && request !in s.accepted && (service, request) in s.ros.requests
    ensures var (s', ok) := Accept(s, service, request, op, plan, deadline);
      && Sound(s', services)
      && KeepsRequests(s, s', services, request)
      && s'.accepted == s.accepted[request := Accepted(service, op, plan, deadline)]
      && (!ok ==> request in s'.lost && request !in s'.groups && s'.lost == s.lost + {request})
      && (ok ==> s'.lost == s.lost)
  {
    RegisterKeepsSound(s, services, service, request, op, plan, deadline);
    var s1 := Register(s, service, request, op, plan, deadline);
    match plan
    case Impossible(reason) => FinishKeepsSound(s1, services, request, None, Some(reason));
    case Calls(nodes) =>
      StartCallsKeepSound(s1, services, request, nodes, op.DeleteParam?);
      var (s2, ok) := StartCalls(s1, request, nodes, op.DeleteParam?);
      SameLedgerKeepsRequests(s1, s2, services, request);
      if !ok { FinishKeepsSound(s2, services, request, None, Some("call failed")); }
      else if s2.groups[request].remaining == 0 { FinishKeepsSound(s2, services, request, None, None); }
  }

  /** A pending call's group is live and still waiting, so the unwrap and the decrement are safe. */
  lemma ReplyFindsItsGroup(s: State, key: Key)
    requires Counted(s) && key in s.pending
    ensures s.pending[key].group in s.groups && s.groups[s.pending[key].group].remaining > 0
  {
    assert key in Members(s.pending, s.pending[key].group);
  }

  lemma TakeReplyKeepsCounted(s: State, key: Key, reply: Reply)
    requires Counted(s) && key in s.pending
    requires s.pending[key].group in s.groups && s.groups[s.pending[key].group].remaining > 0
    ensures CountedBut(TakeReply(s, key, reply), s.pending[key].group)
  {
    var s' := TakeReply(s, key, reply);
    forall g | g in s'.groups
      ensures s'.groups[g].remaining == |Members(s'.pending, g)|
    {
      assert Members(s'.pending, g) == Members(s.pending, g) - {key};
      assert g == s.pending[key].group ==> key in Members(s.pending, g);
    }
  }

  lemma TakeReplyKeepsOwned(s: State, services: set<Entity>, key: Key, reply: Reply)
    requires Owned(s, services) && key in s.pending
    requires s.pending[key].group in s.groups && s.groups[s.pending[key].group].remaining > 0
    ensures Owned(TakeReply(s, key, reply), services)
    ensures forall r ::
      r in s.ros.requests && r.0 in services <==> r in TakeReply(s, key, reply).ros.requests && r.0 in services
  {
    var s' := TakeReply(s, key, reply);
    assert s'.pending.Keys == s.pending.Keys - {key};
    assert Clients(s'.pending.Keys) == Clients(s.pending.Keys) - {key.0};
  }

  lemma TakeReplyKeepsLedger(s: State, services: set<Entity>, key: Key, reply: Reply)
    requires Owned(s, services) && Accounted(s) && Outstanding(s, services) && key in s.pending
    requires s.pending[key].group in s.groups && s.groups[s.pending[key].group].remaining > 0
    ensures Accounted(TakeReply(s, key, reply)) && Outstanding(TakeReply(s, key, reply), services)
  {
    hide Members, Clients, Ros.Valid, Owned;
    TakeReplyKeepsOwned(s, services, key, reply);
    var s' := TakeReply(s, key, reply);
    SameAccountsKeeps(s, s');
    SameOutstandingKeeps(s, s', services);
  }

  /** Who was accepted and finished, and whose groups live, is the same. */
  lemma SameAccountsKeeps(s: State, s': State)
    requires Accounted(s) && s'.groups.Keys == s.groups.Keys && s'.accepted == s.accepted && s'.finished == s.finished
    ensures Accounted(s')
  {
  }

  lemma SameOutstandingKeeps(s: State, s': State, services: set<Entity>)
    requires Outstanding(s, services) && s'.groups.Keys == s.groups.Keys && s'.accepted == s.accepted
    requires forall g :: g in s.groups ==> s'.groups[g] == s.groups[g].(remaining := s'.groups[g].remaining,
                                                                          names := s'.groups[g].names)
    requires s'.lost == s.lost && s.ros.nextRequest <= s'.ros.nextRequest
    requires forall r: (Entity, nat) :: r.0 in services && r.1 < s.ros.nextRequest ==>
      (r in s'.ros.requests <==> r in s.ros.requests)
    ensures Outstanding(s', services)
  {
  }

  /** Learning names changes no counter. */
  lemma NamesKeepSound(s: State, services: set<Entity>, id: nat, names: seq<string>)
    requires SoundBut(s, services, id)
    ensures var s' := s.(groups := s.groups[id := s.groups[id].(names := names)]);
      SoundBut(s', services, id) && SameLedger(s, s')
  {
    hide Accounted, Outstanding, Members, Ros.Valid;
    var s' := s.(groups := s.groups[id := s.groups[id].(names := names)]);
    SameLedgerKeeps(s, s', services);
  }

  /** A group that is deleting may be without pending calls. */
  lemma DeletingIsSound(s: State, services: set<Entity>, id: nat)
    requires SoundBut(s, services, id) && s.groups[id].op.DeleteParam?
    ensures Sound(s, services)
  {
    hide Owned, Accounted, Outstanding, Members;
  }

  lemma SoundButFacts(s: State, services: set<Entity>, id: nat)
    requires SoundBut(s, services, id)
    ensures id in s.groups && s.ros.Valid()
  {
  }

  lemma SecondPhaseKeepsSound(s: State, services: set<Entity>, p: Pending)
    requires SoundBut(s, services, p.group) && p.group in s.groups && s.groups[p.group].op.DeleteParam?
    ensures var (s', ok) := SecondPhase(s, p);
      && Sound(s', services)
      && KeepsRequests(s, s', services, p.group)
      && s'.accepted == s.accepted
  {
    hide Sound, SoundBut, SameLedger, KeepsRequests, FinishGroup, Ros.Valid;
    SoundButFacts(s, services, p.group);
    var (ros, created) := s.ros.Create();
    var ros', key := StartCallShape(s, p.group, p.node, false);
    if created.None? {
      IdleRosKeepsSound(s, services, p.group, ros');
      DeletingIsSound(s.(ros := ros'), services, p.group);
      SameLedgerKeepsRequests(s, s.(ros := ros'), services, p.group);
    } else if ros.Request(created.value).1.Some? {
      AddCallKeepsSound(s, services, ros', key, p.(deleteCheck := false));
      AddCallSameLedger(s, ros', key, p.(deleteCheck := false));
      SameLedgerKeepsRequests(s, AddCall(s, ros', key, p.(deleteCheck := false)), services, p.group);
    } else {
      SecondPhaseGivesUp(s, services, p.group, ros');
    }
  }

  lemma SecondPhaseGivesUp(s: State, services: set<Entity>, id: nat, ros: Ros)
    requires SoundBut(s, services, id)
    requires ros.Valid() && ros.live == s.ros.live && ros.requests == s.ros.requests
      && ros.nextRequest == s.ros.nextRequest
    ensures var s' := FinishGroup(s.(ros := ros), id, None, Some("request failed")).0;
      Sound(s', services) && KeepsRequests(s, s', services, id) && s'.accepted == s.accepted
  {
    hide Sound, SoundBut, SameLedger, KeepsRequests, FinishGroup, Ros.Valid;
    var idle := s.(ros := ros);
    IdleRosKeepsSound(s, services, id, ros);
    SameLedgerKeepsRequests(s, idle, services, id);
    FinishKeepsSound(idle, services, id, None, Some("request failed"));
    KeepsRequestsTransitive(s, idle, FinishGroup(idle, id, None, Some("request failed")).0, services, id);
  }

  lemma NamesReplyKeepsSound(s: State, services: set<Entity>, id: nat, names: seq<string>)
    requires SoundBut(s, services, id)
    ensures var (s', ok) := AddNames(s, id, names);
      && Sound(s', services)
      && KeepsRequests(s, s', services, id)
      && s'.accepted == s.accepted
  {
    NamesKeepSound(s, services, id, s.groups[id].names + names);
    var s2 := s.(groups := s.groups[id := s.groups[id].(names := s.groups[id].names + names)]);
    if s.groups[id].remaining == 0 { FinishKeepsSound(s2, services, id, None, None); }
  }

  lemma ConcludeKeepsSound(s: State, services: set<Entity>, p: Pending, reply: Reply)
    requires SoundBut(s, services, p.group)
    requires p.deleteCheck ==> s.groups[p.group].op.DeleteParam?
    ensures var (s', ok) := Conclude(s, p, reply);
      && Sound(s', services)
      && KeepsRequests(s, s', services, p.group)
      && s'.accepted == s.accepted
  {
    hide Sound, CountedBut, Owned, Accounted, Outstanding, KeepsRequests, FinishGroup, SecondPhase, AddNames;
    var g := s.groups[p.group];
    var missing := if Present(reply.value) then None else Some("Parameter not found");
    if p.deleteCheck {
      if Present(reply.value) { SecondPhaseKeepsSound(s, services, p); }
      else { FinishKeepsSound(s, services, p.group, None, None); }
    } else if g.op.GetParamNames? {
      NamesReplyKeepsSound(s, services, p.group, Qualified(p.node, reply.names));
    } else if g.op.GetParam? || g.op.HasParam? {
      FinishKeepsSound(s, services, p.group, reply.value, missing);
    } else {
      FinishKeepsSound(s, services, p.group, None, reply.refusal);
    }
  }

  lemma TakeReplyIsSound(s: State, services: set<Entity>, key: Key, reply: Reply)
    requires Sound(s, services) && key in s.pending
    requires s.pending[key].group in s.groups && s.groups[s.pending[key].group].remaining > 0
    ensures SoundBut(TakeReply(s, key, reply), services, s.pending[key].group)
    ensures KeepsRequests(s, TakeReply(s, key, reply), services, s.pending[key].group)
    ensures s.pending[key].deleteCheck ==> TakeReply(s, key, reply).groups[s.pending[key].group].op.DeleteParam?
  {
    TakeReplyKeepsCounted(s, key, reply);
    TakeReplyKeepsOwned(s, services, key, reply);
    TakeReplyKeepsLedger(s, services, key, reply);
  }

  lemma NodeReplyKeepsSound(s: State, services: set<Entity>, key: Key, reply: Reply, deadline: nat)
    requires Sound(s, services) && key in s.pending
    ensures var (s', ok) := HandleEvent(s, NodeReply(key, reply), deadline);
      && Sound(s', services)
      && KeepsRequests(s, s', services, s.pending[key].group)
      && s'.accepted == s.accepted
  {
    ReplyFindsItsGroup(s, key);
    TakeReplyIsSound(s, services, key, reply);
    ConcludeKeepsSound(TakeReply(s, key, reply), services, s.pending[key], reply);
    KeepsRequestsTransitive(s, TakeReply(s, key, reply), Conclude(TakeReply(s, key, reply), s.pending[key], reply).0,
                            services, s.pending[key].group);
    NodeReplySteps(s, key, reply, deadline);
  }

  lemma NodeReplySteps(s: State, key: Key, reply: Reply, deadline: nat)
    requires key in s.pending
    requires s.pending[key].group in s.groups && s.groups[s.pending[key].group].remaining > 0
    ensures HandleEvent(s, NodeReply(key, reply), deadline) == Conclude(TakeReply(s, key, reply), s.pending[key], reply)
    ensures TakeReply(s, key, reply).accepted == s.accepted
  {
  }

  lemma KeepsRequestsTransitive(a: State, b: State, c: State, services: set<Entity>, own: nat)
    requires KeepsRequests(a, b, services, own) && KeepsRequests(b, c, services, own)
    ensures KeepsRequests(a, c, services, own)
  {
  }

  /**
   A request event names a native request that is outstanding and not yet accepted; only
   a request for all names makes other than one call.
   */
  ghost predicate Enabled(s: State, services: set<Entity>, event: Event) {
    event.ParameterRequest? ==>
      && event.service in services && event.request !in s.accepted
      && (event.service, event.request) in s.ros.requests
      && (event.plan.Calls? && !event.op.GetParamNames? ==> |event.plan.nodes| == 1)
  }

  lemma DiscardKeepsSound(s: State, services: set<Entity>, request: nat)
    requires Sound(s, services) && request in s.accepted && request !in s.groups
    ensures var s' := s.(ros := s.ros.Discard(s.accepted[request].service, request), lost := s.lost - {request});
      Sound(s', services) && KeepsRequests(s, s', services, request)
  {
    var s' := s.(ros := s.ros.Discard(s.accepted[request].service, request), lost := s.lost - {request});
    assert Outstanding(s', services);
  }

  /** One event, whatever the backend does, keeps counters, clients, ledger and native requests exact. */
  lemma EventKeepsSound(s: State, services: set<Entity>, event: Event, deadline: nat)
    requires Sound(s, services) && Enabled(s, services, event)
    ensures var (s', ok) := HandleEvent(s, event, deadline);
      && Sound(s', services)
      && (event.ParameterRequest? ==>
            ok && s'.accepted == s.accepted[event.request := Accepted(event.service, event.op, event.plan, deadline)])
      && (event.NodeReply? ==> s'.accepted == s.accepted)
      && (forall r :: r in s.ros.requests && r.0 in services && r.1 !in s'.accepted ==> r in s'.ros.requests)
  {
    hide Sound, Accept, KeepsRequests;
    match event
    case ParameterRequest(service, request, op, plan) =>
      AcceptKeepsSound(s, services, service, request, op, plan, deadline);
      var (s1, ok) := Accept(s, service, request, op, plan, deadline);
      if !ok {
        DiscardKeepsSound(s1, services, request);
        KeepsRequestsTransitive(s, s1, HandleEvent(s, event, deadline).0, services, request);
      }
      OthersKept(s, HandleEvent(s, event, deadline).0, services, request);
    case NodeReply(key, reply) =>
      if key in s.pending {
        NodeReplyKeepsSound(s, services, key, reply, deadline);
        GroupIsAccepted(s, services, key);
        OthersKept(s, HandleEvent(s, event, deadline).0, services, s.pending[key].group);
      }
  }

  lemma OthersKept(s: State, s': State, services: set<Entity>, own: nat)
    requires KeepsRequests(s, s', services, own) && own in s'.accepted
    ensures forall r :: r in s.ros.requests && r.0 in services && r.1 !in s'.accepted ==> r in s'.ros.requests
  {
  }

  lemma GroupIsAccepted(s: State, services: set<Entity>, key: Key)
    requires Sound(s, services) && key in s.pending
    ensures s.pending[key].group in s.accepted
  {
  }

  /** The events name distinct native requests that are outstanding and new. */
  ghost predicate Expected(s: State, services: set<Entity>, events: seq<Event>) {
    && (forall i :: 0 <= i < |events| ==> Enabled(s, services, events[i]))
    && (forall i, j :: 0 <= i < j < |events| && events[i].ParameterRequest? && events[j].ParameterRequest? ==>
          events[i].request != events[j].request)
  }

  /** A sound state facing events whose requests are distinct, outstanding and new. */
  ghost predicate Ready(s: State, services: set<Entity>, events: seq<Event>) {
    Sound(s, services) && Expected(s, services, events)
  }

  lemma ReadyIsCounted(s: State, services: set<Entity>, events: seq<Event>)
    requires Ready(s, services, events)
    ensures Counted(s)
  {
  }

  lemma EventKeepsReady(s: State, services: set<Entity>, events: seq<Event>, deadline: nat)
    requires Ready(s, services, events) && events != []
    ensures Sound(HandleEvent(s, events[0], deadline).0, services)
    ensures Ready(HandleEvent(s, events[0], deadline).0, services, events[1..])
  {
    EventKeepsSound(s, services, events[0], deadline);
    var s1 := HandleEvent(s, events[0], deadline).0;
    forall i | 0 <= i < |events[1..]|
      ensures Enabled(s1, services, events[1..][i])
    {
      assert Enabled(s, services, events[i + 1]);
    }
  }

  /** All events of a poll, even when an unsendable response or a failed client aborts it. */
  lemma {:induction false} EventsKeepSound(s: State, services: set<Entity>, events: seq<Event>, deadline: nat)
    requires Ready(s, services, events)
    ensures Sound(HandleEvents(s, events, deadline).0, services)
    decreases |events|
  {
    if events != [] {
      EventKeepsReady(s, services, events, deadline);
      var (s1, ok) := HandleEvent(s, events[0], deadline);
      if ok { EventsKeepSound(s1, services, events[1..], deadline); }
    }
  }

  // ---------------------------------------------------------------- deadlines

  lemma OverdueAfterFinish(s: State, id: nat, now: nat)
    requires id in s.groups
    ensures var s' := FinishGroup(s, id, None, Some("Timeout occurred")).0;
      s'.groups == s.groups - {id} && Overdue(s', now) == Overdue(s, now) - {id}
  {
  }

  lemma ListsRest(s: State, ids: seq<nat>, now: nat)
    requires Lists(ids, Overdue(s, now)) && ids != []
    ensures ids[0] in Overdue(s, now)
    ensures Lists(ids[1..], Overdue(FinishGroup(s, ids[0], None, Some("Timeout occurred")).0, now))
  {
    assert ids[0] in ids;
    OverdueAfterFinish(s, ids[0], now);
    assert ids == [ids[0]] + ids[1..];
  }

  lemma {:induction false} ExpiryLeavesOthers(s: State, ids: seq<nat>, g: nat)
    requires g in s.groups && g !in ids
    ensures var s' := Expire(s, ids).0; g in s'.groups && s'.groups[g] == s.groups[g]
    decreases |ids|
  {
    if ids != [] {
      assert ids[0] in ids;
      var (s1, ok) := FinishGroup(s, ids[0], None, Some("Timeout occurred"));
      assert g !in ids[1..];
      if ok { ExpiryLeavesOthers(s1, ids[1..], g); }
    }
  }

  /** A completed expiry round leaves no overdue group. */
  lemma {:induction false} ExpiryFinishesOverdue(s: State, services: set<Entity>, ids: seq<nat>, now: nat)
    requires Sound(s, services) && Lists(ids, Overdue(s, now))
    ensures var (s', ok) := Expire(s, ids); Sound(s', services) && (ok ==> Overdue(s', now) == {})
    decreases |ids|
  {
    if ids != [] {
      ListsRest(s, ids, now);
      SoundIsSoundBut(s, services, ids[0]);
      FinishKeepsSound(s, services, ids[0], None, Some("Timeout occurred"));
      var (s1, ok) := FinishGroup(s, ids[0], None, Some("Timeout occurred"));
      if ok { ExpiryFinishesOverdue(s1, services, ids[1..], now); }
    } else {
      assert forall id :: id in Overdue(s, now) ==> id in ids;
    }
  }

  // ---------------------------------------------------------------- over runs

  /** A new worker has no request, and its only entities are its services. */
  lemma InitiallySound(ros: Ros, services: set<Entity>)
    requires ros.Valid() && ros.live == services
    ensures Sound(Initial(ros), services)
  {
    assert Clients({}) == {};
  }

  /** A native request reaches a service, or the worker goes through one round of `process`. */
  datatype Step =
    | Arrive(service: Entity)
    | Round(events: seq<Event>, now: nat, timeout: nat, expired: seq<nat>)

  function Take(s: State, step: Step): State {
    match step
    case Arrive(service) => s.(ros := s.ros.Take(service).0)
    case Round(events, now, timeout, expired) => Process(s, events, now, timeout, expired).0
  }

  ghost predicate Possible(s: State, services: set<Entity>, step: Step) {
    match step
    case Arrive(service) => service in services
    case Round(events, now, timeout, expired) =>
      Expected(s, services, events) && Lists(expired, Overdue(HandleEvents(s, events, now + timeout).0, now))
  }

  function Run(s: State, steps: seq<Step>): State {
    if steps == [] then s else Take(Run(s, steps[..|steps| - 1]), steps[|steps| - 1])
  }

  ghost predicate Legal(s: State, services: set<Entity>, steps: seq<Step>) {
    steps != [] ==>
      var n := |steps| - 1;
      Legal(s, services, steps[..n]) && Possible(Run(s, steps[..n]), services, steps[n])
  }

  lemma ArrivalKeepsSound(s: State, services: set<Entity>, service: Entity)
    requires Sound(s, services) && service in services
    ensures Sound(s.(ros := s.ros.Take(service).0), services)
  {
    hide Members, Clients;
    var s' := s.(ros := s.ros.Take(service).0);
    SameAccountsKeeps(s, s');
    SameOutstandingKeeps(s, s', services);
    assert Owned(s', services) by { hide Counted, Accounted, Outstanding; }
  }

  lemma StepKeepsSound(s: State, services: set<Entity>, step: Step)
    requires Sound(s, services) && Possible(s, services, step)
    ensures Sound(Take(s, step), services)
  {
    hide Sound, HandleEvents, Expire;
    match step
    case Arrive(service) => ArrivalKeepsSound(s, services, service);
    case Round(events, now, timeout, expired) =>
      EventsKeepSound(s, services, events, now + timeout);
      ExpiryFinishesOverdue(HandleEvents(s, events, now + timeout).0, services, expired, now);
  }

  /** Counters, calls, clients, ledger and native requests are exact after every run. */
  lemma {:induction false} RunsAreSound(ros: Ros, services: set<Entity>, steps: seq<Step>)
    requires ros.Valid() && ros.live == services && Legal(Initial(ros), services, steps)
    ensures Sound(Run(Initial(ros), steps), services)
    decreases |steps|
  {
    hide Sound, Take, Possible;
    if steps == [] {
      InitiallySound(ros, services);
    } else {
      var n := |steps| - 1;
      RunsAreSound(ros, services, steps[..n]);
      StepKeepsSound(Run(Initial(ros), steps[..n]), services, steps[n]);
    }
  }

  /** How often a request was finished. */
  function Times(finished: seq<Finished>, request: nat): nat {
    if finished == [] then 0
    else Times(finished[..|finished| - 1], request)
         + if finished[|finished| - 1].request == request then 1 else 0
  }

  lemma {:induction false} TimesAre(finished: seq<Finished>, request: nat)
    requires forall i, j :: 0 <= i < j < |finished| ==> finished[i].request != finished[j].request
    ensures Times(finished, request) == if IsFinished(finished, request) then 1 else 0
    decreases |finished|
  {
    if finished != [] {
      var n := |finished| - 1;
      TimesAre(finished[..n], request);
      if i :| 0 <= i < |finished| && finished[i].request == request {
        assert i < n ==> finished[..n][i].request == request;
      }
      if i :| 0 <= i < n && finished[..n][i].request == request { assert finished[i].request == request; }
    }
  }

  /** After every run each accepted request either has a live group or was finished exactly once. */
  lemma FinishedExactlyOnce(ros: Ros, services: set<Entity>, steps: seq<Step>, request: nat)
    requires ros.Valid() && ros.live == services && Legal(Initial(ros), services, steps)
    requires request in Run(Initial(ros), steps).accepted
    ensures var s := Run(Initial(ros), steps);
      Times(s.finished, request) == if request in s.groups then 0 else 1
  {
    RunsAreSound(ros, services, steps);
    var s := Run(Initial(ros), steps);
    TimesAre(s.finished, request);
    if IsFinished(s.finished, request) {
      var i :| 0 <= i < |s.finished| && s.finished[i].request == request;
    }
  }

  /** Once a round has completed, every request whose deadline had passed was finished exactly once. */
  lemma DeadlinesAreKept(ros: Ros, services: set<Entity>, steps: seq<Step>, round: Step, request: nat)
    requires ros.Valid() && ros.live == services && Legal(Initial(ros), services, steps + [round])
    requires round.Round?
    requires Process(Run(Initial(ros), steps), round.events, round.now, round.timeout, round.expired).1
    requires var accepted := Run(Initial(ros), steps + [round]).accepted;
      request in accepted && accepted[request].deadline <= round.now
    ensures Times(Run(Initial(ros), steps + [round]).finished, request) == 1
  {
    hide Process;
    assert (steps + [round])[..|steps|] == steps;
    var s := Run(Initial(ros), steps);
    RunsAreSound(ros, services, steps);
    RunsAreSound(ros, services, steps + [round]);
    FinishedExactlyOnce(ros, services, steps + [round], request);
    RoundLeavesNothingOverdue(s, services, round);
    assert request !in Overdue(Take(s, round), round.now);
  }

  lemma RoundLeavesNothingOverdue(s: State, services: set<Entity>, round: Step)
    requires Sound(s, services) && round.Round? && Possible(s, services, round)
    requires Process(s, round.events, round.now, round.timeout, round.expired).1
    ensures Overdue(Take(s, round), round.now) == {}
  {
    hide Sound, HandleEvents, Expire;
    EventsKeepSound(s, services, round.events, round.now + round.timeout);
    var s1 := HandleEvents(s, round.events, round.now + round.timeout).0;
    ExpiryFinishesOverdue(s1, services, round.expired, round.now);
  }

  // ------------------------------------------------- requests nobody accepted

  /** The requests some events ask for. */
  function Asking(events: seq<Event>): set<nat> {
    set e | e in events && e.ParameterRequest? :: e.request
  }

  /** Native requests on the services that are not accepted are outstanding as before. */
  ghost predicate KeepsOthers(s: State, s': State, services: set<Entity>) {
    && s.accepted.Keys <= s'.accepted.Keys
    && forall r :: r in s.ros.requests && r.0 in services && r.1 !in s'.accepted ==> r in s'.ros.requests
  }

  /** Exactly the requests up to the event that aborts are accepted; no event before it aborts. */
  lemma {:induction false} AcceptedUpToAbort(s: State, services: set<Entity>, events: seq<Event>, deadline: nat)
    returns (k: nat)
    requires Ready(s, services, events)
    ensures k <= |events|
    ensures var (s', ok) := HandleEvents(s, events, deadline);
      && (ok ==> k == |events|)
      && (!ok ==> 0 < k && events[k - 1].NodeReply? && HandleEvents(s, events[..k - 1], deadline).1)
      && s'.accepted.Keys == s.accepted.Keys + Asking(events[..k])
      && KeepsOthers(s, s', services)
    decreases |events|
  {
    hide Sound, HandleEvent, Enabled;
    if events == [] {
      return 0;
    }
    EventKeepsReady(s, services, events, deadline);
    EventKeepsOthers(s, services, events, deadline);
    var (s1, ok) := HandleEvent(s, events[0], deadline);
    if ok {
      k := AcceptedUpToAbort(s1, services, events[1..], deadline);
      if k > 0 { OneEventMore(s, events, k - 1, deadline); }
      k := k + 1;
    } else {
      k := 1;
    }
    AskingOneMore(events, k);
  }

  lemma OneEventMore(s: State, events: seq<Event>, n: nat, deadline: nat)
    requires events != [] && n <= |events[1..]|
    ensures var (s1, ok) := HandleEvent(s, events[0], deadline);
      ok ==> HandleEvents(s, events[..n + 1], deadline) == HandleEvents(s1, events[1..][..n], deadline)
  {
    hide HandleEvent;
    assert events[..n + 1][1..] == events[1..][..n];
  }

  lemma AskingOneMore(events: seq<Event>, k: nat)
    requires 0 < k <= |events|
    ensures Asking(events[..k])
         == Asking(events[1..][..k - 1]) + if events[0].ParameterRequest? then {events[0].request} else {}
  {
    assert events[..k] == [events[0]] + events[1..][..k - 1];
  }

  lemma EventKeepsOthers(s: State, services: set<Entity>, events: seq<Event>, deadline: nat)
    requires Ready(s, services, events) && events != []
    ensures var (s', ok) := HandleEvent(s, events[0], deadline);
      && KeepsOthers(s, s', services)
      && s'.accepted.Keys
         == s.accepted.Keys + (if events[0].ParameterRequest? then {events[0].request} else {})
      && (!ok ==> events[0].NodeReply?)
  {
    hide Sound, HandleEvent;
    EventKeepsSound(s, services, events[0], deadline);
  }

  /** Whatever lies behind an event that aborts is outstanding, with no group, and not finished. */
  lemma BehindAnAbort(s: State, services: set<Entity>, events: seq<Event>, deadline: nat) returns (k: nat)
    requires Ready(s, services, events) && !HandleEvents(s, events, deadline).1
    ensures 0 < k <= |events| && events[k - 1].NodeReply? && HandleEvents(s, events[..k - 1], deadline).1
    ensures var s' := HandleEvents(s, events, deadline).0;
      forall i :: 0 <= i < |events| && events[i].ParameterRequest? ==>
        && (i < k ==> events[i].request in s'.accepted)
        && (i >= k ==> Untouched(s', events[i].service, events[i].request))
  {
    var s' := HandleEvents(s, events, deadline).0;
    EventsKeepSound(s, services, events, deadline);
    k := AcceptedUpToAbort(s, services, events, deadline);
    hide Sound, HandleEvents;
    forall i | 0 <= i < |events| && events[i].ParameterRequest?
      ensures i < k ==> events[i].request in s'.accepted
      ensures i >= k ==> Untouched(s', events[i].service, events[i].request)
    {
      if i < k {
        assert events[..k][i] == events[i];
      } else {
        assert events[i].request !in Asking(events[..k]);
        UntouchedIfNotAccepted(s', services, events[i].service, events[i].request);
      }
    }
  }

  /** The request is outstanding, and nothing was ever done about it. */
  ghost predicate Untouched(s: State, service: Entity, request: nat) {
    && (service, request) in s.ros.requests && request !in s.accepted
    && request !in s.groups && request !in s.lost && Times(s.finished, request) == 0
  }

  lemma UntouchedIfNotAccepted(s: State, services: set<Entity>, service: Entity, request: nat)
    requires Sound(s, services) && (service, request) in s.ros.requests && request !in s.accepted
    ensures Untouched(s, service, request)
  {
    TimesAre(s.finished, request);
  }

  lemma {:induction false} ExpiryKeepsOthers(s: State, services: set<Entity>, ids: seq<nat>)
    requires Sound(s, services)
    ensures KeepsOthers(s, Expire(s, ids).0, services)
    decreases |ids|
  {
    hide Sound, FinishGroup;
    if ids != [] && ids[0] in s.groups {
      SoundIsSoundBut(s, services, ids[0]);
      OnlyGroupsAreAccepted(s, services, ids[0]);
      FinishKeepsSound(s, services, ids[0], None, Some("Timeout occurred"));
      var (s1, ok) := FinishGroup(s, ids[0], None, Some("Timeout occurred"));
      OthersKept(s, s1, services, ids[0]);
      if ok { ExpiryKeepsOthers(s1, services, ids[1..]); }
    } else if ids != [] {
      assert !FinishGroup(s, ids[0], None, Some("Timeout occurred")).1
          && FinishGroup(s, ids[0], None, Some("Timeout occurred")).0 == s by { NoGroup(s, ids[0]); }
    }
  }

  lemma NoGroup(s: State, id: nat)
    requires id !in s.groups
    ensures FinishGroup(s, id, None, Some("Timeout occurred")) == (s, false)
  {
  }

  lemma OnlyGroupsAreAccepted(s: State, services: set<Entity>, id: nat)
    requires Sound(s, services) && id in s.groups
    ensures id in s.accepted
  {
  }

  lemma StepKeepsOthers(s: State, services: set<Entity>, step: Step)
    requires Sound(s, services) && Possible(s, services, step)
    ensures KeepsOthers(s, Take(s, step), services)
  {
    hide Sound, HandleEvents, Expire;
    match step
    case Arrive(service) =>
    case Round(events, now, timeout, expired) =>
      var _ := AcceptedUpToAbort(s, services, events, now + timeout);
      EventsKeepSound(s, services, events, now + timeout);
      ExpiryKeepsOthers(HandleEvents(s, events, now + timeout).0, services, expired);
  }

  /**
   Whatever becomes of the rounds: a native request that came to a service and was not accepted
   stays outstanding, has no group and is never finished.
   */
  lemma {:induction false} NotAcceptedIsUntouched(ros: Ros, services: set<Entity>, steps: seq<Step>, j: nat)
    requires ros.Valid() && ros.live == services && Legal(Initial(ros), services, steps)
    requires j < |steps| && steps[j].Arrive?
    ensures var request := Run(Initial(ros), steps[..j]).ros.nextRequest;
      request in Run(Initial(ros), steps).accepted || Untouched(Run(Initial(ros), steps), steps[j].service, request)
    decreases |steps|
  {
    hide Sound, Possible, Take;
    var n := |steps| - 1;
    var request, s := Run(Initial(ros), steps[..j]).ros.nextRequest, Run(Initial(ros), steps[..n]);
    RunsAreSound(ros, services, steps);
    RunsAreSound(ros, services, steps[..n]);
    if j < n {
      assert steps[..n][..j] == steps[..j];
      NotAcceptedIsUntouched(ros, services, steps[..n], j);
      ArrivedOnService(ros, services, steps, j);
      StepKeepsOthers(s, services, steps[n]);
    } else {
      JustArrived(s, steps[n].service);
    }
    if request !in Run(Initial(ros), steps).accepted {
      UntouchedIfNotAccepted(Run(Initial(ros), steps), services, steps[j].service, request);
    }
  }

  lemma JustArrived(s: State, service: Entity)
    ensures (service, s.ros.nextRequest) in Take(s, Arrive(service)).ros.requests
  {
  }

  lemma {:induction false} ArrivedOnService(ros: Ros, services: set<Entity>, steps: seq<Step>, j: nat)
    requires Legal(Initial(ros), services, steps) && j < |steps| && steps[j].Arrive?
    ensures steps[j].service in services
    decreases |steps|
  {
    var n := |steps| - 1;
    if j < n { ArrivedOnService(ros, services, steps[..n], j); }
  }
}

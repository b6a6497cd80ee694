/** Which nodes a list of parameter names covers, and how a client cannot tell (src/ros/parameters.rs). */
module ParameterNames {
  import opened Basics
  import opened Backend
  import opened Parameters
  import opened ParameterRuns
  import opened ParameterAnswers

  /** The nodes called for one request, in order. */
  function AskedOf(asked: seq<(nat, string)>, id: nat): seq<string> {
    if asked == [] then []
    else
      var n := |asked| - 1;
      AskedOf(asked[..n], id) + if asked[n].0 == id then [asked[n].1] else []
  }

  function NodesOf(replies: seq<Heard>): seq<string> {
    seq(|replies|, i requires 0 <= i < |replies| => replies[i].node)
  }

  function PlannedNodes(plan: Plan): seq<string> {
    if plan.Calls? then plan.nodes else []
  }

  function CallsAt(calls: map<Key, Pending>, node: string): set<Key> {
    set k | k in calls && calls[k].node == node
  }

  /** Each call made to a node was answered or is still out. */
  ghost predicate Tally(asked: seq<string>, replies: seq<Heard>, calls: map<Key, Pending>) {
    && |asked| == |replies| + |calls|
    && forall n :: multiset(asked)[n] == multiset(NodesOf(replies))[n] + |CallsAt(calls, n)|
  }

  /** Of the calls made, some were answered, and `waiting` were not. */
  ghost predicate Final(asked: seq<string>, replies: seq<Heard>, waiting: nat) {
    |asked| == |replies| + waiting && multiset(NodesOf(replies)) <= multiset(asked)
  }

  ghost predicate IsTallied(s: State, g: nat) {
    Tally(AskedOf(s.asked, g), RepliesTo(s.heard, g), CallsOf(s.pending, g))
  }

  ghost predicate IsFinal(s: State, f: Finished) {
    Final(AskedOf(s.asked, f.request), RepliesTo(s.heard, f.request), f.waiting)
  }

  ghost predicate AsPlanned(s: State, r: nat)
    requires r in s.accepted
  {
    s.accepted[r].op.GetParamNames? ==> AskedOf(s.asked, r) <= PlannedNodes(s.accepted[r].plan)
  }

  ghost predicate Tallied(s: State) {
    && (forall i :: 0 <= i < |s.asked| ==> s.asked[i].0 in s.accepted)
    && (forall i :: 0 <= i < |s.heard| ==> s.heard[i].request in s.accepted)
    && (forall g :: g in s.groups ==> IsTallied(s, g))
    && (forall i :: 0 <= i < |s.finished| ==> IsFinal(s, s.finished[i]))
    && (forall r :: r in s.accepted ==> AsPlanned(s, r))
  }

  // ---------------------------------------------------------------- tallies

  lemma TallyNothing()
    ensures Tally([], [], map[])
  {
    assert forall n :: CallsAt(map[], n) == {};
  }

  lemma OneMoreCallAt(calls: map<Key, Pending>, key: Key, p: Pending, n: string)
    requires key !in calls
    ensures |CallsAt(calls[key := p], n)| == |CallsAt(calls, n)| + if n == p.node then 1 else 0
  {
    if n == p.node {
      assert CallsAt(calls[key := p], n) == CallsAt(calls, n) + {key};
    } else {
      assert CallsAt(calls[key := p], n) == CallsAt(calls, n);
    }
  }

  lemma TallyCall(asked: seq<string>, replies: seq<Heard>, calls: map<Key, Pending>, key: Key, p: Pending)
    requires Tally(asked, replies, calls) && key !in calls
    ensures Tally(asked + [p.node], replies, calls[key := p])
  {
    hide CallsAt, NodesOf;
    assert calls[key := p].Keys == calls.Keys + {key};
    forall n ensures multiset(asked + [p.node])[n]
        == multiset(NodesOf(replies))[n] + |CallsAt(calls[key := p], n)| {
      OneMoreCallAt(calls, key, p, n);
      OneMoreOf(asked, p.node, n);
    }
  }

  lemma OneMoreOf(xs: seq<string>, x: string, n: string)
    ensures multiset(xs + [x])[n] == multiset(xs)[n] + if n == x then 1 else 0
  {
    assert multiset(xs + [x]) == multiset(xs) + multiset{x};
  }

  lemma TallyReply(asked: seq<string>, replies: seq<Heard>, calls: map<Key, Pending>, key: Key, x: Heard)
    requires Tally(asked, replies, calls) && key in calls && x.node == calls[key].node
    ensures Tally(asked, replies + [x], calls - {key})
  {
    assert (calls - {key}).Keys == calls.Keys - {key};
    assert NodesOf(replies + [x]) == NodesOf(replies) + [x.node];
    forall n ensures |CallsAt(calls, n)| == |CallsAt(calls - {key}, n)| + if n == x.node then 1 else 0 {
      assert CallsAt(calls - {key}, n) == if n == x.node then CallsAt(calls, n) - {key} else CallsAt(calls, n);
      assert n == x.node ==> key in CallsAt(calls, n);
    }
  }

  lemma TallyEnds(asked: seq<string>, replies: seq<Heard>, calls: map<Key, Pending>)
    requires Tally(asked, replies, calls)
    ensures Final(asked, replies, |calls|)
  {
    forall n ensures multiset(NodesOf(replies))[n] <= multiset(asked)[n] {
    }
  }

  lemma OneMoreAsked(asked: seq<(nat, string)>, x: (nat, string), g: nat)
    ensures AskedOf(asked + [x], g) == if g == x.0 then AskedOf(asked, g) + [x.1] else AskedOf(asked, g)
  {
    assert (asked + [x])[..|asked|] == asked;
  }

  lemma {:induction false} Unasked(asked: seq<(nat, string)>, id: nat)
    requires forall i :: 0 <= i < |asked| ==> asked[i].0 != id
    ensures AskedOf(asked, id) == []
  {
    if asked != [] { Unasked(asked[..|asked| - 1], id); }
  }

  // ------------------------------------------------------------------ steps

  /** The ledger is the same, and so are the groups and their calls. */
  ghost predicate SameTallies(s: State, s': State) {
    && s'.accepted == s.accepted && s'.asked == s.asked && s'.heard == s.heard && s'.finished == s.finished
    && s'.groups.Keys == s.groups.Keys && s'.pending == s.pending
  }

  lemma SameTallied(s: State, s': State)
    requires Tallied(s) && SameTallies(s, s')
    ensures Tallied(s')
  {
    hide Tally, Final, AskedOf, RepliesTo, CallsOf;
    forall g | g in s'.groups ensures IsTallied(s', g) { assert IsTallied(s, g); }
    forall i | 0 <= i < |s'.finished| ensures IsFinal(s', s'.finished[i]) { assert IsFinal(s, s.finished[i]); }
    forall r | r in s'.accepted ensures AsPlanned(s', r) { assert AsPlanned(s, r); }
  }

  lemma CallsAreMembers(pending: map<Key, Pending>, g: nat)
    ensures |CallsOf(pending, g)| == |Members(pending, g)|
  {
    assert CallsOf(pending, g).Keys == Members(pending, g);
  }

  /** Whatever is not about `id` is tallied as before. */
  ghost predicate TalliedBut(s: State, id: nat) {
    && (forall i :: 0 <= i < |s.asked| ==> s.asked[i].0 in s.accepted)
    && (forall i :: 0 <= i < |s.heard| ==> s.heard[i].request in s.accepted)
    && (forall g :: g in s.groups && g != id ==> IsTallied(s, g))
    && (forall i :: 0 <= i < |s.finished| && s.finished[i].request != id ==> IsFinal(s, s.finished[i]))
    && (forall r :: r in s.accepted && r != id ==> AsPlanned(s, r))
  }

  /** Only `id` has been asked, heard or called for. */
  ghost predicate OnlyAbout(s: State, s': State, id: nat) {
    && (forall g :: g != id ==>
          AskedOf(s'.asked, g) == AskedOf(s.asked, g) && RepliesTo(s'.heard, g) == RepliesTo(s.heard, g)
          && CallsOf(s'.pending, g) == CallsOf(s.pending, g))
    && (forall i :: 0 <= i < |s'.asked| ==> s'.asked[i].0 == id || (i < |s.asked| && s'.asked[i] == s.asked[i]))
    && (forall i :: 0 <= i < |s'.heard| ==>
          s'.heard[i].request == id || (i < |s.heard| && s'.heard[i] == s.heard[i]))
    && (forall g :: g in s'.groups && g != id ==> g in s.groups)
    && (forall r :: r in s.accepted && r != id ==> r in s'.accepted && s'.accepted[r] == s.accepted[r])
    && (forall r :: r in s'.accepted && r != id ==> r in s.accepted) && id in s'.accepted
    && (forall i :: 0 <= i < |s'.finished| ==>
          s'.finished[i].request == id || (i < |s.finished| && s'.finished[i] == s.finished[i]))
  }

  lemma OthersTallied(s: State, s': State, id: nat)
    requires Tallied(s) && OnlyAbout(s, s', id)
    ensures TalliedBut(s', id)
  {
    hide Tally, Final, AskedOf, RepliesTo, CallsOf;
    forall g | g in s'.groups && g != id ensures IsTallied(s', g) { assert IsTallied(s, g); }
    forall i | 0 <= i < |s'.finished| && s'.finished[i].request != id ensures IsFinal(s', s'.finished[i]) {
      assert IsFinal(s, s.finished[i]);
    }
    forall r | r in s'.accepted && r != id ensures AsPlanned(s', r) { assert AsPlanned(s, r); }
  }

  lemma TalliedNow(s: State, id: nat)
    requires TalliedBut(s, id) && (id in s.groups ==> IsTallied(s, id)) && (id in s.accepted ==> AsPlanned(s, id))
    requires forall i :: 0 <= i < |s.finished| && s.finished[i].request == id ==> IsFinal(s, s.finished[i])
    ensures Tallied(s)
  {
    hide IsTallied, IsFinal, AsPlanned;
  }

  lemma FinishIsAbout(s: State, id: nat, value: Option<Value>, error: Option<string>)
    requires Accounted(s) && id in s.groups
    ensures var s' := FinishGroup(s, id, value, error).0;
      && OnlyAbout(s, s', id)
      && s'.asked == s.asked && s'.heard == s.heard && s'.accepted == s.accepted && id !in s'.groups
      && forall i :: 0 <= i < |s'.finished| && s'.finished[i].request == id ==>
           s'.finished[i].waiting == s.groups[id].remaining
  {
    var s' := FinishGroup(s, id, value, error).0;
    forall g | g != id ensures CallsOf(s'.pending, g) == CallsOf(s.pending, g) {
    }
    hide CallsOf, AskedOf, RepliesTo;
  }

  lemma FinishTallied(s: State, id: nat, value: Option<Value>, error: Option<string>)
    requires Tallied(s) && Accounted(s) && id in s.groups && s.groups[id].remaining == |Members(s.pending, id)|
    ensures Tallied(FinishGroup(s, id, value, error).0)
  {
    hide Tally, Final, AskedOf, RepliesTo, CallsOf, OnlyAbout, TalliedBut, Members, FinishGroup;
    var s' := FinishGroup(s, id, value, error).0;
    FinishIsAbout(s, id, value, error);
    OthersTallied(s, s', id);
    CallsAreMembers(s.pending, id);
    assert IsTallied(s, id) && AsPlanned(s, id);
    TallyEnds(AskedOf(s.asked, id), RepliesTo(s.heard, id), CallsOf(s.pending, id));
    TalliedNow(s', id);
  }

  lemma RegisterIsAbout(s: State, service: Entity, request: nat, op: Op, plan: Plan, deadline: nat)
    ensures OnlyAbout(s, Register(s, service, request, op, plan, deadline), request)
  {
    hide Tally, Final, AskedOf, RepliesTo, CallsOf;
  }

  lemma RegisterTallied(s: State, services: set<Entity>, service: Entity, request: nat, op: Op, plan: Plan,
                        deadline: nat)
    requires Tallied(s) && Sound(s, services) && request !in s.accepted
    ensures var s' := Register(s, service, request, op, plan, deadline);
      Tallied(s') && AskedOf(s'.asked, request) == []
  {
    hide Tally, Final, AskedOf, RepliesTo, CallsOf, OnlyAbout, TalliedBut, Counted, Owned, Outstanding;
    var s' := Register(s, service, request, op, plan, deadline);
    Unasked(s.asked, request);
    Unheard(s.heard, request);
    NoCallsYet(s, services, request);
    TallyNothing();
    RegisterIsAbout(s, service, request, op, plan, deadline);
    OthersTallied(s, s', request);
    TalliedNow(s', request);
  }

  lemma NoCallsYet(s: State, services: set<Entity>, request: nat)
    requires Sound(s, services) && request !in s.accepted
    ensures CallsOf(s.pending, request) == map[]
  {
    assert forall k :: k in s.pending ==> s.pending[k].group in s.accepted;
  }

  /** One call more is out, to a node whose turn it is by the plan. */
  lemma AddCallTallied(s: State, ros: Ros, key: Key, p: Pending)
    requires Tallied(s) && Accounted(s) && p.group in s.groups && key !in s.pending
    requires s.accepted[p.group].op.GetParamNames? ==>
      AskedOf(s.asked, p.group) + [p.node] <= PlannedNodes(s.accepted[p.group].plan)
    ensures Tallied(AddCall(s, ros, key, p))
    ensures AskedOf(AddCall(s, ros, key, p).asked, p.group) == AskedOf(s.asked, p.group) + [p.node]
  {
    var s', id := AddCall(s, ros, key, p), p.group;
    AddCallIsAbout(s, ros, key, p);
    OthersTallied(s, s', id);
    OneMoreAsked(s.asked, (id, p.node), id);
    OneMoreCall(s.pending, key, p, id);
    assert key !in CallsOf(s.pending, id);
    hide Tally, Final, AskedOf, RepliesTo, CallsOf, OnlyAbout, TalliedBut;
    assert IsTallied(s, id);
    TallyCall(AskedOf(s.asked, id), RepliesTo(s.heard, id), CallsOf(s.pending, id), key, p);
    TalliedNow(s', id);
  }

  lemma AddCallIsAbout(s: State, ros: Ros, key: Key, p: Pending)
    requires p.group in s.groups && p.group in s.accepted && key !in s.pending
    ensures OnlyAbout(s, AddCall(s, ros, key, p), p.group)
  {
    hide AskedOf, RepliesTo, CallsOf;
    var s' := AddCall(s, ros, key, p);
    forall g | g != p.group ensures
        AskedOf(s'.asked, g) == AskedOf(s.asked, g) && CallsOf(s'.pending, g) == CallsOf(s.pending, g) {
      OneMoreAsked(s.asked, (p.group, p.node), g);
      OneMoreCall(s.pending, key, p, g);
    }
  }

  lemma TakeReplyTallied(s: State, key: Key, reply: Reply)
    requires Tallied(s) && Accounted(s) && key in s.pending
    requires s.pending[key].group in s.groups && s.groups[s.pending[key].group].remaining > 0
    ensures Tallied(TakeReply(s, key, reply))
  {
    var s', p := TakeReply(s, key, reply), s.pending[key];
    var id, x := p.group, Heard(p.group, p.node, reply);
    TakeReplyIsAbout(s, key, reply);
    OthersTallied(s, s', id);
    OneMoreReply(s.heard, x, id);
    OneCallLess(s.pending, key, id);
    assert key in CallsOf(s.pending, id) && CallsOf(s.pending, id)[key] == p;
    hide Tally, Final, AskedOf, RepliesTo, CallsOf, OnlyAbout, TalliedBut;
    assert IsTallied(s, id) && AsPlanned(s, id);
    TallyReply(AskedOf(s.asked, id), RepliesTo(s.heard, id), CallsOf(s.pending, id), key, x);
    TalliedNow(s', id);
  }

  lemma TakeReplyIsAbout(s: State, key: Key, reply: Reply)
    requires Accounted(s) && key in s.pending
    requires s.pending[key].group in s.groups && s.groups[s.pending[key].group].remaining > 0
    ensures OnlyAbout(s, TakeReply(s, key, reply), s.pending[key].group)
  {
    var s', p := TakeReply(s, key, reply), s.pending[key];
    forall g | g != p.group ensures
        RepliesTo(s'.heard, g) == RepliesTo(s.heard, g) && CallsOf(s'.pending, g) == CallsOf(s.pending, g) {
      OneMoreReply(s.heard, Heard(p.group, p.node, reply), g);
      OneCallLess(s.pending, key, g);
    }
    hide AskedOf, RepliesTo, CallsOf;
  }

  // ------------------------------------------------------------------ events

  lemma IdleTallied(s: State, ros: Ros)
    requires Tallied(s)
    ensures Tallied(s.(ros := ros))
  {
    hide Tallied;
    SameTallied(s, s.(ros := ros));
  }

  lemma StartCallTallied(s: State, services: set<Entity>, id: nat, node: string, deleteCheck: bool)
    requires Tallied(s) && Accounted(s) && Owned(s, services) && id in s.groups
    requires s.accepted[id].op.GetParamNames? ==>
      AskedOf(s.asked, id) + [node] <= PlannedNodes(s.accepted[id].plan)
    ensures var (s', ok) := StartCall(s, id, node, deleteCheck);
      && Tallied(s') && s'.accepted == s.accepted
      && (ok ==> AskedOf(s'.asked, id) == AskedOf(s.asked, id) + [node])
  {
    var ros, key := StartCallShape(s, id, node, deleteCheck);
    NewKey(s, services, key);
    hide Tallied, Accounted, Owned, AskedOf, StartCall;
    if StartCall(s, id, node, deleteCheck).1 {
      AddCallTallied(s, ros, key, Pending(id, node, deleteCheck));
    } else {
      IdleTallied(s, ros);
    }
  }

  /** The calls still to be made are the rest of the plan. */
  lemma {:induction false} StartCallsTallied(s: State, services: set<Entity>, id: nat, nodes: seq<string>,
                                             deleteCheck: bool)
    requires Tallied(s) && SoundBut(s, services, id) && (deleteCheck ==> s.groups[id].op.DeleteParam?)
    requires s.accepted[id].op.GetParamNames? ==>
      AskedOf(s.asked, id) + nodes <= PlannedNodes(s.accepted[id].plan)
    ensures Tallied(StartCalls(s, id, nodes, deleteCheck).0)
    decreases |nodes|
  {
    hide Tallied, Accounted, SoundBut, Sound, AskedOf, StartCall, Owned, SameLedger, PlannedNodes, Members;
    SoundButIsCounted(s, services, id);
    if nodes != [] {
      SoundButIsOwned(s, services, id);
      RestOfPlan(AskedOf(s.asked, id), nodes, PlannedNodes(s.accepted[id].plan));
      StartCallTallied(s, services, id, nodes[0], deleteCheck);
      StartCallKeepsSound(s, services, id, nodes[0], deleteCheck);
      var (s1, ok) := StartCall(s, id, nodes[0], deleteCheck);
      if ok {
        SoundIsSoundBut(s1, services, id);
        StartCallsTallied(s1, services, id, nodes[1..], deleteCheck);
      }
    }
  }

  lemma RestOfPlan(done: seq<string>, nodes: seq<string>, planned: seq<string>)
    requires nodes != []
    ensures done + nodes <= planned ==> done + [nodes[0]] <= planned && (done + [nodes[0]]) + nodes[1..] <= planned
  {
    assert done + nodes == (done + [nodes[0]]) + nodes[1..];
  }

  lemma SoundButIsCounted(s: State, services: set<Entity>, id: nat)
    requires SoundBut(s, services, id)
    ensures id in s.groups && Accounted(s) && s.groups[id].remaining == |Members(s.pending, id)|
    ensures id in s.accepted && s.accepted[id].op == s.groups[id].op
  {
  }

  lemma EndTallied(s: State, services: set<Entity>, id: nat, value: Option<Value>, error: Option<string>)
    requires Tallied(s) && SoundBut(s, services, id)
    ensures Tallied(FinishGroup(s, id, value, error).0)
  {
    hide Tallied, SoundBut, FinishGroup, Members, Accounted;
    SoundButIsCounted(s, services, id);
    FinishTallied(s, id, value, error);
  }

  lemma AcceptTallied(s: State, services: set<Entity>, service: Entity, request: nat, op: Op, plan: Plan,
                      deadline: nat)
    requires Tallied(s) && Sound(s, services)
    requires Enabled(s, services, ParameterRequest(service, request, op, plan))
    ensures Tallied(Accept(s, service, request, op, plan, deadline).0)
  {
    var s1 := Register(s, service, request, op, plan, deadline);
    hide Tallied, Sound, SoundBut, FinishGroup, AskedOf, StartCalls;
    RegisterTallied(s, services, service, request, op, plan, deadline);
    RegisterKeepsSound(s, services, service, request, op, plan, deadline);
    match plan
    case Impossible(reason) => EndTallied(s1, services, request, None, Some(reason));
    case Calls(nodes) =>
      assert [] + nodes == nodes;
      StartCallsTallied(s1, services, request, nodes, op.DeleteParam?);
      StartCallsKeepSound(s1, services, request, nodes, op.DeleteParam?);
      var (s2, ok) := StartCalls(s1, request, nodes, op.DeleteParam?);
      if !ok { EndTallied(s2, services, request, None, Some("call failed")); }
      else if s2.groups[request].remaining == 0 { EndTallied(s2, services, request, None, None); }
  }

  /** The second call is made, or its group is finished, or nothing has changed. */
  lemma SecondPhaseShape(s: State, p: Pending) returns (ros: Ros, key: Key)
    requires p.group in s.groups && s.ros.Valid()
    ensures ros.Valid() && ros.requests == s.ros.requests && ros.nextRequest == s.ros.nextRequest
    ensures var s' := SecondPhase(s, p).0;
      || (s' == s.(ros := ros) && ros.live == s.ros.live)
      || (s' == AddCall(s, ros, key, p.(deleteCheck := false)) && key.0 == s.ros.nextEntity)
      || (s' == FinishGroup(s.(ros := ros), p.group, None, Some("request failed")).0 && ros.live == s.ros.live)
  {
    hide FinishGroup, Ros.Valid;
    ros, key := StartCallShape(s, p.group, p.node, false);
  }

  lemma SecondPhaseTallied(s: State, services: set<Entity>, p: Pending)
    requires Tallied(s) && SoundBut(s, services, p.group) && s.groups[p.group].op.DeleteParam?
    ensures Tallied(SecondPhase(s, p).0)
  {
    hide Tallied, SoundBut, FinishGroup, AskedOf, Accounted, Owned, Members, SecondPhase, AddCall;
    SoundButIsOwned(s, services, p.group);
    SoundButIsCounted(s, services, p.group);
    SoundButFacts(s, services, p.group);
    var ros, key := SecondPhaseShape(s, p);
    NewKey(s, services, key);
    IdleTallied(s, ros);
    if key !in s.pending { AddCallTallied(s, ros, key, p.(deleteCheck := false)); }
    if ros.live == s.ros.live {
      IdleRosKeepsSound(s, services, p.group, ros);
      EndTallied(s.(ros := ros), services, p.group, None, Some("request failed"));
    }
  }

  lemma AddNamesTallied(s: State, services: set<Entity>, id: nat, names: seq<string>)
    requires Tallied(s) && SoundBut(s, services, id)
    ensures id in s.groups && Tallied(AddNames(s, id, names).0)
  {
    hide Tallied, SoundBut, FinishGroup;
    SoundButFacts(s, services, id);
    var s' := s.(groups := s.groups[id := s.groups[id].(names := s.groups[id].names + names)]);
    SameTallied(s, s');
    NamesKeepSound(s, services, id, s.groups[id].names + names);
    if s.groups[id].remaining == 0 { EndTallied(s', services, id, None, None); }
  }

  lemma ConcludeTallied(s: State, services: set<Entity>, p: Pending, reply: Reply)
    requires Tallied(s) && SoundBut(s, services, p.group)
    requires p.deleteCheck ==> s.groups[p.group].op.DeleteParam?
    ensures Tallied(Conclude(s, p, reply).0)
  {
    hide Tallied, SoundBut, FinishGroup, SecondPhase, AddNames, Present, Qualified, Ros.Valid;
    SoundButFacts(s, services, p.group);
    var g := s.groups[p.group];
    var missing := if Present(reply.value) then None else Some("Parameter not found");
    if p.deleteCheck {
      if Present(reply.value) { SecondPhaseTallied(s, services, p); }
      else { EndTallied(s, services, p.group, None, None); }
    } else if g.op.GetParamNames? {
      AddNamesTallied(s, services, p.group, Qualified(p.node, reply.names));
    } else if g.op.GetParam? || g.op.HasParam? {
      EndTallied(s, services, p.group, reply.value, missing);
    } else {
      EndTallied(s, services, p.group, None, reply.refusal);
    }
  }

  lemma EventTallied(s: State, services: set<Entity>, event: Event, deadline: nat)
    requires Sound(s, services) && Tallied(s) && Enabled(s, services, event)
    ensures Tallied(HandleEvent(s, event, deadline).0)
  {
    hide Counted, Owned, Outstanding, Tallied, Accept, Conclude, TakeReply, Enabled;
    match event
    case ParameterRequest(service, request, op, plan) =>
      AcceptTallied(s, services, service, request, op, plan, deadline);
      var s1 := Accept(s, service, request, op, plan, deadline).0;
      SameTallied(s1, s1.(ros := s1.ros.Discard(service, request), lost := s1.lost - {request}));
    case NodeReply(key, reply) =>
      if key in s.pending {
        hide SoundBut;
        ReplyFindsItsGroup(s, key);
        DeletingGroup(s, key);
        TakeReplyTallied(s, key, reply);
        TakeReplyIsSound(s, services, key, reply);
        ConcludeTallied(TakeReply(s, key, reply), services, s.pending[key], reply);
      }
  }

  // ---------------------------------------------------------------- over runs

  lemma {:induction false} EventsTallied(s: State, services: set<Entity>, events: seq<Event>, deadline: nat)
    requires Ready(s, services, events) && Tallied(s)
    ensures Tallied(HandleEvents(s, events, deadline).0)
    decreases |events|
  {
    hide Sound, HandleEvent, Tallied;
    if events != [] {
      EventKeepsReady(s, services, events, deadline);
      EventTallied(s, services, events[0], deadline);
      var (s1, ok) := HandleEvent(s, events[0], deadline);
      if ok { EventsTallied(s1, services, events[1..], deadline); }
    }
  }

  lemma {:induction false} ExpiryTallied(s: State, services: set<Entity>, ids: seq<nat>)
    requires Tallied(s) && Sound(s, services)
    ensures Tallied(Expire(s, ids).0)
    decreases |ids|
  {
    hide Tallied, Sound, FinishGroup;
    if ids != [] {
      var (s1, ok) := FinishGroup(s, ids[0], None, Some("Timeout occurred"));
      if ids[0] in s.groups {
        SoundIsSoundBut(s, services, ids[0]);
        EndTallied(s, services, ids[0], None, Some("Timeout occurred"));
        FinishKeepsSound(s, services, ids[0], None, Some("Timeout occurred"));
        if ok { ExpiryTallied(s1, services, ids[1..]); }
      } else {
        NothingFinished(s, ids[0]);
      }
    }
  }

  lemma NothingFinished(s: State, id: nat)
    requires id !in s.groups
    ensures FinishGroup(s, id, None, Some("Timeout occurred")) == (s, false)
  {
  }

  lemma StepTallied(s: State, services: set<Entity>, step: Step)
    requires Sound(s, services) && Possible(s, services, step) && Tallied(s)
    ensures Tallied(Take(s, step))
  {
    hide Sound, Tallied, HandleEvents, Expire;
    match step
    case Arrive(service) => SameTallied(s, s.(ros := s.ros.Take(service).0));
    case Round(events, now, timeout, expired) =>
      EventsTallied(s, services, events, now + timeout);
      EventsKeepSound(s, services, events, now + timeout);
      ExpiryTallied(HandleEvents(s, events, now + timeout).0, services, expired);
  }

  lemma {:induction false} RunsTallied(ros: Ros, services: set<Entity>, steps: seq<Step>)
    requires ros.Valid() && ros.live == services && Legal(Initial(ros), services, steps)
    ensures Tallied(Run(Initial(ros), steps))
    decreases |steps|
  {
    hide Sound, Take, Possible;
    if steps != [] {
      var n := |steps| - 1;
      RunsTallied(ros, services, steps[..n]);
      RunsAreSound(ros, services, steps[..n]);
      StepTallied(Run(Initial(ros), steps[..n]), services, steps[n]);
    }
  }

  /** Every node there was to ask has replied. */
  predicate Covers(plan: Plan, replies: seq<Heard>) {
    plan.Calls? && multiset(NodesOf(replies)) == multiset(plan.nodes)
  }

  lemma CoversIff(plan: Plan, asked: seq<string>, replies: seq<Heard>, waiting: nat)
    requires Final(asked, replies, waiting) && asked <= PlannedNodes(plan)
    ensures Covers(plan, replies) <==> plan.Calls? && waiting == 0 && asked == plan.nodes
  {
    if plan.Calls? && waiting == 0 && asked == plan.nodes {
      var missing := multiset(asked) - multiset(NodesOf(replies));
      assert multiset(asked) == multiset(NodesOf(replies)) + missing;
      assert |missing| == 0;
    }
    if Covers(plan, replies) {
      assert |multiset(NodesOf(replies))| == |replies| && |multiset(plan.nodes)| == |plan.nodes|;
    }
  }

  /**
   In every run, the names a client gets are those of the replies heard, be they all or not. They
   cover every node exactly if the calls could be planned and were all made, and none was waited for.
   */
  lemma NamesCoverIff(ros: Ros, services: set<Entity>, steps: seq<Step>, i: nat)
    requires ros.Valid() && ros.live == services && Legal(Initial(ros), services, steps)
    requires i < |Run(Initial(ros), steps).finished|
    ensures var s := Run(Initial(ros), steps);
      var f := s.finished[i];
      && f.request in s.accepted
      && var a, replies := s.accepted[f.request], RepliesTo(s.heard, f.request);
      a.op.GetParamNames? ==>
        && f.response == Names(NamesIn(replies))
        && (Covers(a.plan, replies)
            <==> a.plan.Calls? && AskedOf(s.asked, f.request) == a.plan.nodes && f.waiting == 0)
  {
    hide AskedOf, RepliesTo, NamesIn;
    ResponsesTell(ros, services, steps, i);
    RunsTallied(ros, services, steps);
    var s := Run(Initial(ros), steps);
    var f := s.finished[i];
    assert IsFinal(s, f) && AsPlanned(s, f.request);
    if s.accepted[f.request].op.GetParamNames? {
      CoversIff(s.accepted[f.request].plan, AskedOf(s.asked, f.request), RepliesTo(s.heard, f.request), f.waiting);
    }
  }

  // --------------------------------------------------------- a list cut short

  /** One service, and every call succeeds. */
  function Reliable(): Ros { Ros({0}, {}, 1, 0, 0, 0, [], call => true) }

  const LISTING: Event := ParameterRequest(0, 0, GetParamNames, Calls(["/a", "/b"]))
  const HAS_X: Reply := Reply(["x"], None, None)

  /** Both nodes are called, one replies, and then the deadline is reached. */
  function SilentSteps(): seq<Step> {
    [Arrive(0), Round([LISTING], 0, 5, []), Round([NodeReply((1, 0), HAS_X)], 1, 5, []), Round([], 5, 5, [0])]
  }

  function BothAsked(): State {
    State(map[0 := Group(0, 0, GetParamNames, 2, [], 5)],
          map[(1, 0) := Pending(0, "/a", false), (2, 1) := Pending(0, "/b", false)],
          Reliable().(live := {0, 1, 2}, requests := {(0, 0)}, nextEntity := 3, nextRequest := 1, nextSequence := 2,
                      calls := 4, did := [Requested(1, 0, Passed), Requested(2, 1, Passed)]),
          map[0 := Accepted(0, GetParamNames, LISTING.plan, 5)], [(0, "/a"), (0, "/b")], [], [], {})
  }

  function OneReplied(): State {
    BothAsked().(groups := map[0 := Group(0, 0, GetParamNames, 1, ["/a:x"], 5)],
    pending := map[(2, 1) := Pending(0, "/b", false)], heard := [Heard(0, "/a", HAS_X)],
    ros := BothAsked().ros.(live := {0, 2}))
  }

  lemma BothAreAsked()
    ensures var s1 := Take(Initial(Reliable()), Arrive(0));
      && Enabled(s1, {0}, LISTING) && HandleEvents(s1, [LISTING], 5) == (BothAsked(), true)
      && Overdue(BothAsked(), 0) == {}
  {
    var s1 := Register(Take(Initial(Reliable()), Arrive(0)), 0, 0, GetParamNames, LISTING.plan, 5);
    var s2 := StartCall(s1, 0, "/a", false).0;
    var s3 := StartCall(s2, 0, "/b", false).0;
    assert s3.ros.live == {0, 1, 2} && s3.pending == BothAsked().pending;
    assert s3.groups == BothAsked().groups && s3.asked == BothAsked().asked;
    assert s3.ros.requests == {(0, 0)} && s3.accepted == BothAsked().accepted;
    assert s3.ros.did == BothAsked().ros.did;
    assert StartCall(s2, 0, "/b", false) == (BothAsked(), true);
    assert ["/a", "/b"][1..] == ["/b"] && ["/b"][1..] == [];
    assert StartCalls(s2, 0, ["/b"], false) == (BothAsked(), true);
    assert StartCalls(s1, 0, ["/a", "/b"], false) == (BothAsked(), true);
    assert [LISTING][1..] == [];
  }

  lemma OneReplies()
    ensures HandleEvents(BothAsked(), [NodeReply((1, 0), HAS_X)], 6) == (OneReplied(), true)
    ensures Overdue(OneReplied(), 1) == {}
  {
    assert "/a" + ":" + "x" == "/a:x";
    assert Qualified("/a", ["x"]) == ["/a:x"];
    assert [NodeReply((1, 0), HAS_X)][1..] == [];
    var s := TakeReply(BothAsked(), (1, 0), HAS_X);
    assert s.pending == map[(2, 1) := Pending(0, "/b", false)];
    assert s.ros.live == {0, 2} && s.ros.requests == {(0, 0)};
    assert [] + ["/a:x"] == ["/a:x"];
    var u := AddNames(s, 0, ["/a:x"]).0;
    assert u.groups == OneReplied().groups && u.heard == OneReplied().heard;
    assert AddNames(s, 0, ["/a:x"]) == (OneReplied(), true);
  }

  lemma DeadlineIsReached()
    ensures HandleEvents(OneReplied(), [], 10) == (OneReplied(), true)
    ensures Overdue(OneReplied(), 5) == {0}
    ensures var (s, sent) := Expire(OneReplied(), [0]);
      sent && s.finished == [Finished(0, Names(["/a:x"]), 1, true)] && s.heard == [Heard(0, "/a", HAS_X)]
      && s.accepted == OneReplied().accepted
  {
    assert [0][1..] == [];
    assert Members(OneReplied().pending, 0) == {(2, 1)};
    assert Clients({(2, 1)}) == {2};
  }

  lemma BeforeTheDeadline()
    ensures var s0, steps := Initial(Reliable()), SilentSteps();
      Run(s0, steps[..3]) == OneReplied() && Legal(s0, {0}, steps[..3])
  {
    hide HandleEvents, Overdue, Enabled;
    BothAreAsked();
    OneReplies();
    var s0, steps := Initial(Reliable()), SilentSteps();
    assert steps[..0] == [] && steps[..1][..0] == [];
    assert steps[..2][..1] == steps[..1] && steps[..3][..2] == steps[..2];
    assert Run(s0, steps[..1]) == Take(s0, steps[0]) && Legal(s0, {0}, steps[..1]);
    assert Run(s0, steps[..2]) == BothAsked() && Legal(s0, {0}, steps[..2]);
    assert Possible(BothAsked(), {0}, steps[2]) by { RepliesAreEnabled(BothAsked(), {0}, (1, 0), HAS_X); }
  }

  /** The silent node is left out of a list that was sent, and nothing in it says so. */
  lemma ListCanBeCutShort()
    ensures Reliable().Valid() && Legal(Initial(Reliable()), {0}, SilentSteps())
    ensures var s := Run(Initial(Reliable()), SilentSteps());
      && s.finished == [Finished(0, Names(["/a:x"]), 1, true)]
      && 0 in s.accepted && !Covers(s.accepted[0].plan, RepliesTo(s.heard, 0))
  {
    hide HandleEvents, Overdue, Enabled, RepliesTo, Covers, OneReplied, Expire;
    BeforeTheDeadline();
    DeadlineIsReached();
    var steps := SilentSteps();
    assert steps[..4][..3] == steps[..3] && steps[..4] == steps;
    assert Possible(OneReplied(), {0}, steps[3]);
    RepliedIsAccepted();
    OneDoesNotCover();
  }

  lemma RepliedIsAccepted()
    ensures OneReplied().accepted == map[0 := Accepted(0, GetParamNames, LISTING.plan, 5)]
  {
  }

  lemma OneDoesNotCover()
    ensures !Covers(LISTING.plan, RepliesTo([Heard(0, "/a", HAS_X)], 0))
  {
    assert |multiset(["/a", "/b"])| == |["/a", "/b"]|;
  }
}

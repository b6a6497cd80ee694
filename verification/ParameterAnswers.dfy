/** What the responses to parameter requests say, and what a lost one leaves behind (src/ros/parameters.rs). */
module ParameterAnswers {
  import opened Basics
  import opened Backend
  import opened Parameters
  import opened ParameterRuns

  /** The replies heard for one request, in order. */
  function RepliesTo(heard: seq<Heard>, id: nat): seq<Heard> {
    if heard == [] then []
    else
      var n := |heard| - 1;
      RepliesTo(heard[..n], id) + if heard[n].request == id then [heard[n]] else []
  }

  /** The names in some replies, one reply after the other. */
  function NamesIn(replies: seq<Heard>): seq<string> {
    if replies == [] then []
    else
      var last := replies[|replies| - 1];
      NamesIn(replies[..|replies| - 1]) + Qualified(last.node, last.reply.names)
  }

  /** There was nothing to delete, or the node that was told to delete it did. */
  predicate Deleted(replies: seq<Heard>) {
    || (|replies| == 1 && !Present(replies[0].reply.value))
    || (|replies| == 2 && replies[1].reply.refusal.None?)
  }

  /**
   What a response says, exactly, of the replies heard: all the names in them, whether it was cut
   short or not; what the node said of the parameter, or else the fallback or that there is none.
   */
  predicate Tells(op: Op, replies: seq<Heard>, response: Response) {
    var heard := replies != [];
    match op
    case GetParamNames => response == Names(NamesIn(replies))
    case HasParam => response == Existence(heard && Known(replies[|replies| - 1].reply.value))
    case GetParam(fallback) =>
      var found := heard && Present(replies[|replies| - 1].reply.value);
      && response.Gotten? && (response.reason.None? <==> found)
      && response.value == if found then AsJson(replies[|replies| - 1].reply.value.value) else fallback
    case SetParam =>
      response.Done? && (response.reason.None? <==> heard && replies[|replies| - 1].reply.refusal.None?)
    case DeleteParam => response.Done? && (response.reason.None? <==> Deleted(replies))
  }

  /** A group's calls that are still out. */
  function CallsOf(pending: map<Key, Pending>, g: nat): map<Key, Pending> {
    map k | k in pending && pending[k].group == g :: pending[k]
  }

  /** What goes with the replies heard for a request that is still waited on. */
  predicate Waits(op: Op, names: seq<string>, replies: seq<Heard>, calls: map<Key, Pending>) {
    match op
    case GetParamNames => names == NamesIn(replies)
    case DeleteParam =>
      && |replies| <= 1 && (replies != [] ==> Present(replies[0].reply.value))
      && (forall k, l :: k in calls && l in calls ==> k == l)
      && forall k :: k in calls ==> (calls[k].deleteCheck <==> replies == [])
    case _ => replies == []
  }

  ghost predicate Expecting(s: State, g: nat)
    requires g in s.groups
  {
    Waits(s.groups[g].op, s.groups[g].names, RepliesTo(s.heard, g), CallsOf(s.pending, g))
  }

  ghost predicate IsTold(s: State, f: Finished) {
    f.request in s.accepted && Tells(s.accepted[f.request].op, RepliesTo(s.heard, f.request), f.response)
  }

  /** Everything but what group `id` has yet to make of its last reply. */
  ghost predicate AnsweredBut(s: State, id: nat) {
    && (forall i :: 0 <= i < |s.heard| ==> s.heard[i].request in s.accepted)
    && (forall g :: g in s.groups ==> g in s.accepted && s.groups[g].op == s.accepted[g].op)
    && (forall g :: g in s.groups && g != id ==> Expecting(s, g))
    && (forall i :: 0 <= i < |s.finished| ==> IsTold(s, s.finished[i]))
  }

  ghost predicate Answered(s: State) {
    && (forall g :: g in s.groups ==> Expecting(s, g))
    && forall id :: AnsweredBut(s, id)
  }

  lemma AnsweredNow(s: State, id: nat)
    requires AnsweredBut(s, id) && (id in s.groups ==> Expecting(s, id))
    ensures Answered(s)
  {
  }

  lemma AnsweredIsAnsweredBut(s: State, id: nat)
    requires Answered(s)
    ensures AnsweredBut(s, id)
  {
  }

  /** Nothing was heard or finished; groups are the same but for counters, and so are the calls of all but `id`. */
  ghost predicate SameBooks(s: State, s': State, id: nat) {
    && s'.accepted == s.accepted && s'.heard == s.heard && s'.finished == s.finished
    && s'.groups.Keys == s.groups.Keys
    && (forall g :: g in s.groups ==> s'.groups[g].op == s.groups[g].op && s'.groups[g].names == s.groups[g].names)
    && forall g :: g != id ==> CallsOf(s'.pending, g) == CallsOf(s.pending, g)
  }

  lemma SameBooksAnswered(s: State, s': State, id: nat)
    requires AnsweredBut(s, id) && SameBooks(s, s', id)
    ensures AnsweredBut(s', id)
  {
    hide RepliesTo, Waits, Tells, CallsOf;
    forall i | 0 <= i < |s'.finished| ensures IsTold(s', s'.finished[i]) {
      assert IsTold(s, s.finished[i]);
    }
    forall g | g in s'.groups && g != id ensures Expecting(s', g) {
      assert Expecting(s, g);
    }
  }

  lemma OneMoreCall(pending: map<Key, Pending>, key: Key, p: Pending, g: nat)
    requires key !in pending
    ensures CallsOf(pending[key := p], g)
         == if g == p.group then CallsOf(pending, g)[key := p] else CallsOf(pending, g)
  {
  }

  lemma OneCallLess(pending: map<Key, Pending>, key: Key, g: nat)
    requires key in pending
    ensures CallsOf(pending - {key}, g)
         == if g == pending[key].group then CallsOf(pending, g) - {key} else CallsOf(pending, g)
  {
  }

  /** A group may be finished when the response tells of its replies. */
  lemma FinishAnswered(s: State, id: nat, value: Option<Value>, error: Option<string>)
    requires AnsweredBut(s, id) && id in s.groups
    requires Tells(s.groups[id].op, RepliesTo(s.heard, id),
                   ResponseTo(s.groups[id].op, s.groups[id].names, value, error))
    ensures Answered(FinishGroup(s, id, value, error).0)
  {
    var s' := FinishGroup(s, id, value, error).0;
    forall g | g != id ensures CallsOf(s'.pending, g) == CallsOf(s.pending, g) {
    }
    hide RepliesTo, Waits, Tells, CallsOf;
    forall i | 0 <= i < |s'.finished| ensures IsTold(s', s'.finished[i]) {
      if i < |s.finished| { assert IsTold(s, s.finished[i]); }
    }
    forall g | g in s'.groups ensures Expecting(s', g) {
      assert Expecting(s, g);
    }
  }

  /** A group that is still waiting may be finished over an error at any time. */
  lemma GiveUpAnswered(s: State, id: nat, error: string)
    requires AnsweredBut(s, id) && id in s.groups && Expecting(s, id)
    ensures Answered(FinishGroup(s, id, None, Some(error)).0)
  {
    hide RepliesTo, AnsweredBut, Answered, FinishGroup;
    FinishAnswered(s, id, None, Some(error));
  }

  // ---------------------------------------------------------------- one event

  lemma {:induction false} Unheard(heard: seq<Heard>, id: nat)
    requires forall i :: 0 <= i < |heard| ==> heard[i].request != id
    ensures RepliesTo(heard, id) == []
  {
    if heard != [] { Unheard(heard[..|heard| - 1], id); }
  }

  /** Nothing was heard of a new request, and no call made for it. */
  lemma NewRequest(s: State, services: set<Entity>, request: nat)
    requires AnsweredBut(s, request) && Sound(s, services) && request !in s.accepted
    ensures request !in s.groups && RepliesTo(s.heard, request) == [] && CallsOf(s.pending, request) == map[]
  {
    hide Owned, Outstanding, RepliesTo, Expecting, IsTold, Members;
    assert request !in s.groups;
    Unheard(s.heard, request);
    assert forall k :: k in s.pending ==> s.pending[k].group in s.groups;
  }

  lemma RegisterAnswered(s: State, service: Entity, request: nat, op: Op, plan: Plan, deadline: nat)
    requires AnsweredBut(s, request) && request !in s.accepted && request !in s.groups
    ensures AnsweredBut(Register(s, service, request, op, plan, deadline), request)
  {
    var s' := Register(s, service, request, op, plan, deadline);
    hide RepliesTo, Tells, CallsOf, Waits;
    forall i | 0 <= i < |s'.finished| ensures IsTold(s', s'.finished[i]) {
      assert IsTold(s, s.finished[i]);
    }
    forall g | g in s'.groups && g != request ensures Expecting(s', g) {
      assert Expecting(s, g);
    }
  }

  predicate OneMore(calls: map<Key, Pending>, more: map<Key, Pending>, p: Pending) {
    exists key :: key in more && more == calls[key := p]
  }

  /** What a started call adds; a failed one adds nothing. */
  lemma StartCallBooks(s: State, services: set<Entity>, id: nat, node: string, deleteCheck: bool)
    requires id in s.groups && Owned(s, services)
    ensures var (s', ok) := StartCall(s, id, node, deleteCheck);
      && SameBooks(s, s', id)
      && (!ok ==> s'.pending == s.pending)
      && (ok ==> s'.groups[id].remaining == s.groups[id].remaining + 1)
      && (ok ==> OneMore(CallsOf(s.pending, id), CallsOf(s'.pending, id), Pending(id, node, deleteCheck)))
  {
    var ros, key := StartCallShape(s, id, node, deleteCheck);
    var s' := StartCall(s, id, node, deleteCheck).0;
    NewKey(s, services, key);
    hide CallsOf, StartCall, Owned;
    if StartCall(s, id, node, deleteCheck).1 {
      forall g ensures CallsOf(s'.pending, g) == if g == id
          then CallsOf(s.pending, g)[key := Pending(id, node, deleteCheck)] else CallsOf(s.pending, g) {
        OneMoreCall(s.pending, key, Pending(id, node, deleteCheck), g);
      }
      assert key in CallsOf(s'.pending, id);
    }
  }

  lemma NewKey(s: State, services: set<Entity>, key: Key)
    requires Owned(s, services)
    ensures key.0 == s.ros.nextEntity ==> key !in s.pending
  {
    if key in s.pending { assert key.0 in Clients(s.pending.Keys); }
  }

  lemma SoundButIsOwned(s: State, services: set<Entity>, id: nat)
    requires SoundBut(s, services, id)
    ensures id in s.groups && Owned(s, services)
  {
  }

  lemma {:induction false} StartCallsBooks(s: State, services: set<Entity>, id: nat, nodes: seq<string>,
                                           deleteCheck: bool)
    requires SoundBut(s, services, id) && (deleteCheck ==> s.groups[id].op.DeleteParam?)
    ensures var (s', ok) := StartCalls(s, id, nodes, deleteCheck);
      SameBooks(s, s', id) && (ok ==> s'.groups[id].remaining == s.groups[id].remaining + |nodes|)
    decreases |nodes|
  {
    hide SoundBut, Sound, StartCall, CallsOf, Owned, SameLedger;
    SoundButIsOwned(s, services, id);
    if nodes != [] {
      StartCallBooks(s, services, id, nodes[0], deleteCheck);
      StartCallKeepsSound(s, services, id, nodes[0], deleteCheck);
      var (s1, ok) := StartCall(s, id, nodes[0], deleteCheck);
      if ok {
        SoundIsSoundBut(s1, services, id);
        StartCallsBooks(s1, services, id, nodes[1..], deleteCheck);
      }
    }
  }

  /** A first call to a single node is the only one out. */
  lemma OnlyCall(s: State, services: set<Entity>, id: nat, node: string, deleteCheck: bool)
    requires SoundBut(s, services, id) && CallsOf(s.pending, id) == map[]
    ensures var (s', ok) := StartCalls(s, id, [node], deleteCheck);
      ok ==> OneMore(map[], CallsOf(s'.pending, id), Pending(id, node, deleteCheck))
  {
    hide SoundBut, StartCall, CallsOf, Owned;
    SoundButIsOwned(s, services, id);
    StartCallBooks(s, services, id, node, deleteCheck);
    assert [node][1..] == [];
  }

  /** Once its calls are out, a group is waiting like any other. */
  lemma CallsStarted(s: State, services: set<Entity>, id: nat, nodes: seq<string>)
    requires SoundBut(s, services, id) && RepliesTo(s.heard, id) == [] && CallsOf(s.pending, id) == map[]
    requires s.groups[id].names == [] && (s.groups[id].op.DeleteParam? ==> |nodes| == 1)
    ensures var (s', ok) := StartCalls(s, id, nodes, s.groups[id].op.DeleteParam?);
      ok ==> Expecting(s', id)
  {
    hide SoundBut, RepliesTo, CallsOf, StartCalls, SameBooks, OneMore, Expecting;
    SoundButIsOwned(s, services, id);
    var deleting := s.groups[id].op.DeleteParam?;
    StartCallsBooks(s, services, id, nodes, deleting);
    if deleting { OnlyCalls(s, services, id, nodes, deleting); }
    var (s', ok) := StartCalls(s, id, nodes, deleting);
    if ok { FirstCallsWait(s, s', id, nodes); }
  }

  lemma OnlyCalls(s: State, services: set<Entity>, id: nat, nodes: seq<string>, deleteCheck: bool)
    requires SoundBut(s, services, id) && CallsOf(s.pending, id) == map[] && |nodes| == 1
    ensures var (s', ok) := StartCalls(s, id, nodes, deleteCheck);
      ok ==> OneMore(map[], CallsOf(s'.pending, id), Pending(id, nodes[0], deleteCheck))
  {
    hide SoundBut, CallsOf, StartCalls, OneMore;
    SoundButIsOwned(s, services, id);
    assert nodes == [nodes[0]];
    OnlyCall(s, services, id, nodes[0], deleteCheck);
  }

  lemma FirstCallsWait(s: State, s': State, id: nat, nodes: seq<string>)
    requires id in s.groups && SameBooks(s, s', id) && RepliesTo(s.heard, id) == [] && s.groups[id].names == []
    requires s.groups[id].op.DeleteParam? ==>
      nodes != [] && OneMore(map[], CallsOf(s'.pending, id), Pending(id, nodes[0], true))
    ensures Expecting(s', id)
  {
    hide RepliesTo, CallsOf, OneMore;
    if s.groups[id].op.DeleteParam? { FirstCheckWaits(CallsOf(s'.pending, id), Pending(id, nodes[0], true)); }
  }

  lemma FirstCheckWaits(calls: map<Key, Pending>, p: Pending)
    requires OneMore(map[], calls, p) && p.deleteCheck
    ensures Waits(DeleteParam, [], [], calls)
  {
  }

  lemma AcceptAnswered(s: State, services: set<Entity>, service: Entity, request: nat, op: Op, plan: Plan,
                       deadline: nat)
    requires AnsweredBut(s, request) && Sound(s, services)
    requires Enabled(s, services, ParameterRequest(service, request, op, plan))
    ensures Answered(Accept(s, service, request, op, plan, deadline).0)
  {
    var s1 := Register(s, service, request, op, plan, deadline);
    hide AnsweredBut, Answered, RepliesTo, CallsOf, StartCalls, FinishGroup, Sound, SoundBut;
    NewRequest(s, services, request);
    RegisterAnswered(s, service, request, op, plan, deadline);
    RegisterKeepsSound(s, services, service, request, op, plan, deadline);
    match plan
    case Impossible(reason) => FinishAnswered(s1, request, None, Some(reason));
    case Calls(nodes) =>
      CallsStarted(s1, services, request, nodes);
      StartCallsBooks(s1, services, request, nodes, op.DeleteParam?);
      var (s2, ok) := StartCalls(s1, request, nodes, op.DeleteParam?);
      SameBooksAnswered(s1, s2, request);
      if !ok { FinishAnswered(s2, request, None, Some("call failed")); }
      else if s2.groups[request].remaining == 0 { FinishAnswered(s2, request, None, None); }
      else { AnsweredNow(s2, request); }
  }

  lemma OneMoreReply(heard: seq<Heard>, x: Heard, g: nat)
    ensures RepliesTo(heard + [x], g) == if g == x.request then RepliesTo(heard, g) + [x] else RepliesTo(heard, g)
  {
    assert (heard + [x])[..|heard|] == heard;
  }

  /** A reply has come in for group `id`, and the group has yet to make something of it. */
  ghost predicate JustHeard(s: State, id: nat, x: Heard, check: bool) {
    && id in s.groups
    && var before := RepliesTo(s.heard, id);
    && before != [] && before[|before| - 1] == x
    && var g := s.groups[id];
    match g.op
    case GetParamNames => NamesIn(before) == g.names + Qualified(x.node, x.reply.names)
    case DeleteParam =>
      CallsOf(s.pending, id) == map[]
      && if check then before == [x] else |before| == 2 && Present(before[0].reply.value)
    case _ => before == [x]
  }

  lemma TakeReplyAnswered(s: State, key: Key, reply: Reply)
    requires Answered(s) && Accounted(s) && key in s.pending
    requires s.pending[key].group in s.groups && s.groups[s.pending[key].group].remaining > 0
    ensures AnsweredBut(TakeReply(s, key, reply), s.pending[key].group)
    ensures var p := s.pending[key];
      JustHeard(TakeReply(s, key, reply), p.group, Heard(p.group, p.node, reply), p.deleteCheck)
  {
    var p := s.pending[key];
    var s' := TakeReply(s, key, reply);
    var x := Heard(p.group, p.node, reply);
    forall g ensures RepliesTo(s'.heard, g)
        == if g == p.group then RepliesTo(s.heard, g) + [x] else RepliesTo(s.heard, g) {
      OneMoreReply(s.heard, x, g);
    }
    forall g ensures CallsOf(s'.pending, g) == if g == p.group then CallsOf(s.pending, g) - {key}
                                               else CallsOf(s.pending, g) {
      OneCallLess(s.pending, key, g);
    }
    assert key in CallsOf(s.pending, p.group) && CallsOf(s.pending, p.group)[key] == p;
    assert AnsweredBut(s, p.group) && Expecting(s, p.group);
    hide CallsOf, RepliesTo, Answered;
    TakenRepliesAnswered(s, s', p.group);
    ReplyJustHeard(s, s', key, x);
  }

  lemma TakenRepliesAnswered(s: State, s': State, id: nat)
    requires AnsweredBut(s, id) && s'.accepted == s.accepted && s'.finished == s.finished
    requires s'.groups.Keys == s.groups.Keys && id in s.groups
    requires |s'.heard| == |s.heard| + 1 && s'.heard[..|s.heard|] == s.heard && s'.heard[|s.heard|].request == id
    requires forall g :: g in s.groups ==> s'.groups[g].op == s.groups[g].op && s'.groups[g].names == s.groups[g].names
    requires forall g :: g != id ==>
      RepliesTo(s'.heard, g) == RepliesTo(s.heard, g) && CallsOf(s'.pending, g) == CallsOf(s.pending, g)
    requires forall i :: 0 <= i < |s.finished| ==> s.finished[i].request != id
    ensures AnsweredBut(s', id)
  {
    hide RepliesTo, CallsOf, Tells, Waits;
    forall i | 0 <= i < |s'.heard| ensures s'.heard[i].request in s'.accepted {
      if i < |s.heard| { assert s'.heard[i] == s'.heard[..|s.heard|][i]; }
    }
    forall i | 0 <= i < |s'.finished| ensures IsTold(s', s'.finished[i]) {
      assert IsTold(s, s.finished[i]);
    }
    forall g | g in s'.groups && g != id ensures Expecting(s', g) {
      assert Expecting(s, g);
    }
  }

  lemma ReplyJustHeard(s: State, s': State, key: Key, x: Heard)
    requires key in s.pending && x.request == s.pending[key].group
    requires var p := s.pending[key];
      && p.group in s.groups && p.group in s'.groups && Expecting(s, p.group)
      && s'.groups[p.group].op == s.groups[p.group].op && s'.groups[p.group].names == s.groups[p.group].names
      && RepliesTo(s'.heard, p.group) == RepliesTo(s.heard, p.group) + [x]
      && CallsOf(s'.pending, p.group) == CallsOf(s.pending, p.group) - {key}
      && key in CallsOf(s.pending, p.group) && CallsOf(s.pending, p.group)[key] == p
    ensures JustHeard(s', s.pending[key].group, x, s.pending[key].deleteCheck)
  {
    hide RepliesTo, CallsOf;
    var p := s.pending[key];
    var before, calls := RepliesTo(s.heard, p.group), CallsOf(s.pending, p.group);
    assert (before + [x])[..|before|] == before;
    if s.groups[p.group].op.DeleteParam? {
      assert forall k :: k in calls ==> k == key;
      assert calls - {key} == map[];
    }
  }

  lemma SecondPhaseAnswered(s: State, services: set<Entity>, p: Pending, x: Heard)
    requires AnsweredBut(s, p.group) && Owned(s, services) && JustHeard(s, p.group, x, true)
    requires s.groups[p.group].op.DeleteParam? && Present(x.reply.value)
    ensures Answered(SecondPhase(s, p).0)
  {
    var s' := SecondPhase(s, p).0;
    var (ros, created) := s.ros.Create();
    if created.Some? && ros.Request(created.value).1.None? {
      var s1 := s.(ros := ros.Request(created.value).0.Destroy(created.value));
      hide RepliesTo, CallsOf, FinishGroup, Owned;
      SameBooksAnswered(s, s1, p.group);
      FinishAnswered(s1, p.group, None, Some("request failed"));
    } else {
      SecondCall(s, services, p);
      hide RepliesTo, CallsOf, SecondPhase, Owned;
      SameBooksAnswered(s, s', p.group);
      AnsweredNow(s', p.group);
    }
  }

  lemma SecondCall(s: State, services: set<Entity>, p: Pending)
    requires Owned(s, services) && p.group in s.groups && CallsOf(s.pending, p.group) == map[]
    requires var (ros, created) := s.ros.Create(); created.Some? ==> ros.Request(created.value).1.Some?
    ensures var s' := SecondPhase(s, p).0;
      && SameBooks(s, s', p.group) && p.group in s'.groups
      && forall k, l :: k in CallsOf(s'.pending, p.group) && l in CallsOf(s'.pending, p.group) ==>
        k == l && !CallsOf(s'.pending, p.group)[k].deleteCheck
  {
    var (ros, created) := s.ros.Create();
    if created.Some? {
      var key := (created.value, ros.Request(created.value).1.value);
      NewKey(s, services, key);
      forall g ensures CallsOf(s.pending[key := p.(deleteCheck := false)], g)
          == if g == p.group then CallsOf(s.pending, g)[key := p.(deleteCheck := false)] else CallsOf(s.pending, g) {
        OneMoreCall(s.pending, key, p.(deleteCheck := false), g);
      }
    }
    hide CallsOf, Owned;
  }

  lemma AddNamesAnswered(s: State, id: nat, x: Heard)
    requires AnsweredBut(s, id) && JustHeard(s, id, x, false) && s.groups[id].op.GetParamNames?
    ensures Answered(AddNames(s, id, Qualified(x.node, x.reply.names)).0)
  {
    var names := s.groups[id].names + Qualified(x.node, x.reply.names);
    var s' := s.(groups := s.groups[id := s.groups[id].(names := names)]);
    hide RepliesTo, NamesIn, FinishGroup, CallsOf;
    assert AnsweredBut(s', id) by {
      forall i | 0 <= i < |s'.finished| ensures IsTold(s', s'.finished[i]) {
        assert IsTold(s, s.finished[i]);
      }
      forall g | g in s'.groups && g != id ensures Expecting(s', g) {
        assert Expecting(s, g);
      }
    }
    assert Expecting(s', id);
    if s.groups[id].remaining == 0 { FinishAnswered(s', id, None, None); } else { AnsweredNow(s', id); }
  }

  lemma ConcludeAnswered(s: State, services: set<Entity>, p: Pending, reply: Reply)
    requires AnsweredBut(s, p.group) && Owned(s, services)
    requires JustHeard(s, p.group, Heard(p.group, p.node, reply), p.deleteCheck)
    requires p.deleteCheck ==> s.groups[p.group].op.DeleteParam?
    ensures Answered(Conclude(s, p, reply).0)
  {
    hide RepliesTo, NamesIn, CallsOf, FinishGroup, SecondPhase, AddNames, AnsweredBut, Answered, Owned;
    var g, x := s.groups[p.group], Heard(p.group, p.node, reply);
    var missing := if Present(reply.value) then None else Some("Parameter not found");
    if p.deleteCheck {
      if Present(reply.value) { SecondPhaseAnswered(s, services, p, x); }
      else { FinishAnswered(s, p.group, None, None); }
    } else if g.op.GetParamNames? {
      AddNamesAnswered(s, p.group, x);
    } else if g.op.GetParam? || g.op.HasParam? {
      FinishAnswered(s, p.group, reply.value, missing);
    } else {
      FinishAnswered(s, p.group, None, reply.refusal);
    }
  }

  lemma EventAnswered(s: State, services: set<Entity>, event: Event, deadline: nat)
    requires Sound(s, services) && Answered(s) && Enabled(s, services, event)
    ensures Answered(HandleEvent(s, event, deadline).0)
  {
    hide Counted, Accounted, Outstanding, Answered, AnsweredBut, Accept, Conclude, TakeReply, JustHeard, SoundBut;
    match event
    case ParameterRequest(service, request, op, plan) =>
      hide Enabled, Owned;
      AnsweredIsAnsweredBut(s, request);
      AcceptAnswered(s, services, service, request, op, plan, deadline);
      DiscardAnswered(Accept(s, service, request, op, plan, deadline).0, service, request);
    case NodeReply(key, reply) =>
      if key in s.pending {
        hide Owned;
        ReplyFindsItsGroup(s, key);
        DeletingGroup(s, key);
        TakeReplyAnswered(s, key, reply);
        TakeReplyIsSound(s, services, key, reply);
        SoundButIsOwned(TakeReply(s, key, reply), services, s.pending[key].group);
        ConcludeAnswered(TakeReply(s, key, reply), services, s.pending[key], reply);
      }
  }

  lemma DeletingGroup(s: State, key: Key)
    requires Counted(s) && key in s.pending
    ensures s.pending[key].deleteCheck ==> s.groups[s.pending[key].group].op.DeleteParam?
  {
  }

  lemma DiscardAnswered(s: State, service: Entity, request: nat)
    requires Answered(s)
    ensures Answered(s.(ros := s.ros.Discard(service, request), lost := s.lost - {request}))
  {
    hide RepliesTo, CallsOf;
    var s' := s.(ros := s.ros.Discard(service, request), lost := s.lost - {request});
    assert AnsweredBut(s, request);
    SameBooksAnswered(s, s', request);
    AnsweredNow(s', request);
  }

  // ---------------------------------------------------------------- over runs

  lemma {:induction false} EventsAnswered(s: State, services: set<Entity>, events: seq<Event>, deadline: nat)
    requires Ready(s, services, events) && Answered(s)
    ensures Answered(HandleEvents(s, events, deadline).0)
    decreases |events|
  {
    hide Sound, HandleEvent, Answered;
    if events != [] {
      EventKeepsReady(s, services, events, deadline);
      EventAnswered(s, services, events[0], deadline);
      var (s1, ok) := HandleEvent(s, events[0], deadline);
      if ok { EventsAnswered(s1, services, events[1..], deadline); }
    }
  }

  lemma {:induction false} ExpiryAnswered(s: State, ids: seq<nat>)
    requires Answered(s)
    ensures Answered(Expire(s, ids).0)
    decreases |ids|
  {
    hide Answered, AnsweredBut;
    if ids != [] {
      var (s1, ok) := FinishGroup(s, ids[0], None, Some("Timeout occurred"));
      if ids[0] in s.groups {
        AnsweredIsAnsweredBut(s, ids[0]);
        AnsweredIsExpecting(s, ids[0]);
        GiveUpAnswered(s, ids[0], "Timeout occurred");
      }
      if ok { ExpiryAnswered(s1, ids[1..]); }
    }
  }

  lemma AnsweredIsExpecting(s: State, id: nat)
    requires Answered(s) && id in s.groups
    ensures Expecting(s, id)
  {
  }

  lemma StepAnswered(s: State, services: set<Entity>, step: Step)
    requires Sound(s, services) && Possible(s, services, step) && Answered(s)
    ensures Answered(Take(s, step))
  {
    hide Sound, Answered, HandleEvents, Expire;
    match step
    case Arrive(service) => ArrivalAnswered(s, service);
    case Round(events, now, timeout, expired) =>
      EventsAnswered(s, services, events, now + timeout);
      ExpiryAnswered(HandleEvents(s, events, now + timeout).0, expired);
  }

  lemma ArrivalAnswered(s: State, service: Entity)
    requires Answered(s)
    ensures Answered(s.(ros := s.ros.Take(service).0))
  {
    hide RepliesTo, CallsOf;
    var s' := s.(ros := s.ros.Take(service).0);
    assert AnsweredBut(s, 0);
    SameBooksAnswered(s, s', 0);
    AnsweredNow(s', 0);
  }

  lemma {:induction false} RunsAnswered(ros: Ros, services: set<Entity>, steps: seq<Step>)
    requires ros.Valid() && ros.live == services && Legal(Initial(ros), services, steps)
    ensures Answered(Run(Initial(ros), steps))
    decreases |steps|
  {
    hide Sound, Take, Possible, Answered;
    if steps == [] {
      NothingToAnswer(ros);
    } else {
      var n := |steps| - 1;
      RunsAnswered(ros, services, steps[..n]);
      RunsAreSound(ros, services, steps[..n]);
      StepAnswered(Run(Initial(ros), steps[..n]), services, steps[n]);
    }
  }

  lemma NothingToAnswer(ros: Ros)
    ensures Answered(Initial(ros))
  {
  }

  /** In every run, each response tells exactly what was heard, whether or not there was an error. */
  lemma ResponsesTell(ros: Ros, services: set<Entity>, steps: seq<Step>, i: nat)
    requires ros.Valid() && ros.live == services && Legal(Initial(ros), services, steps)
    requires i < |Run(Initial(ros), steps).finished|
    ensures var s := Run(Initial(ros), steps);
      var f := s.finished[i];
      f.request in s.accepted && Tells(s.accepted[f.request].op, RepliesTo(s.heard, f.request), f.response)
  {
    RunsAnswered(ros, services, steps);
    AnsweredIsAnsweredBut(Run(Initial(ros), steps), 0);
    assert IsTold(Run(Initial(ros), steps), Run(Initial(ros), steps).finished[i]);
  }

  // ------------------------------------------------------------- lost answers

  /** A finished request is still outstanding exactly when the backend failed to send its answer. */
  lemma OutstandingIffUnsent(s: State, services: set<Entity>, id: nat, value: Option<Value>, error: Option<string>)
    requires Sound(s, services) && id in s.groups
    ensures var (s', sent) := FinishGroup(s, id, value, error);
      && (sent <==> s.ros.Succeeds())
      && ((s.groups[id].service, id) in s'.ros.requests <==> !s.ros.Succeeds())
      && (id in s'.lost <==> !s.ros.Succeeds())
  {
    var keys := Members(s.pending, id);
    assert forall k :: k in keys ==> k.0 !in services;
    assert s.groups[id].service !in Clients(keys);
  }

  lemma EventKeepsLost(s: State, services: set<Entity>, event: Event, deadline: nat)
    requires Sound(s, services) && Enabled(s, services, event)
    ensures s.lost <= HandleEvent(s, event, deadline).0.lost
  {
    hide Counted, Owned;
    assert event.ParameterRequest? ==> event.request !in s.lost;
    match event
    case ParameterRequest(service, request, op, plan) =>
      hide FinishGroup, StartCalls;
      AcceptKeepsSound(s, services, service, request, op, plan, deadline);
    case NodeReply(key, reply) =>
  }

  lemma {:induction false} EventsKeepLost(s: State, services: set<Entity>, events: seq<Event>, deadline: nat)
    requires Ready(s, services, events)
    ensures s.lost <= HandleEvents(s, events, deadline).0.lost
    decreases |events|
  {
    hide Sound, HandleEvent;
    if events != [] {
      EventKeepsReady(s, services, events, deadline);
      EventKeepsLost(s, services, events[0], deadline);
      var (s1, ok) := HandleEvent(s, events[0], deadline);
      if ok { EventsKeepLost(s1, services, events[1..], deadline); }
    }
  }

  lemma {:induction false} ExpiryKeepsLost(s: State, ids: seq<nat>)
    ensures s.lost <= Expire(s, ids).0.lost
    decreases |ids|
  {
    if ids != [] {
      var (s1, ok) := FinishGroup(s, ids[0], None, Some("Timeout occurred"));
      if ok { ExpiryKeepsLost(s1, ids[1..]); }
    }
  }

  /** Nothing ever takes care of a native request whose answer was lost: it stays outstanding. */
  lemma {:induction false} LostForever(ros: Ros, services: set<Entity>, steps: seq<Step>, more: seq<Step>, request: nat)
    requires ros.Valid() && ros.live == services && Legal(Initial(ros), services, steps + more)
    requires request in Run(Initial(ros), steps).lost
    ensures var s := Run(Initial(ros), steps + more);
      && request in s.lost && request in s.accepted
      && (s.accepted[request].service, request) in s.ros.requests
    decreases |more|
  {
    hide Take, Possible;
    RunsAreSound(ros, services, steps + more);
    if more == [] {
      assert steps + more == steps;
    } else {
      var n := |more| - 1;
      assert (steps + more)[..|steps| + n] == steps + more[..n];
      LostForever(ros, services, steps, more[..n], request);
      RunsAreSound(ros, services, steps + more[..n]);
      StepKeepsLost(Run(Initial(ros), steps + more[..n]), services, more[n]);
    }
  }

  lemma StepKeepsLost(s: State, services: set<Entity>, step: Step)
    requires Sound(s, services) && Possible(s, services, step)
    ensures s.lost <= Take(s, step).lost
  {
    hide Sound, HandleEvents, Expire;
    match step
    case Arrive(service) =>
    case Round(events, now, timeout, expired) =>
      EventsKeepLost(s, services, events, now + timeout);
      ExpiryKeepsLost(HandleEvents(s, events, now + timeout).0, expired);
  }

  /** A client is created and its request sent, and then nothing succeeds any more. */
  function Unlucky(): Ros { Ros({0}, {}, 1, 0, 0, 0, [], call => call < 2) }

  const ASKING: Event := ParameterRequest(0, 0, HasParam, Calls(["/node"]))
  const FOUND: Reply := Reply([], Some(Value(2, "1")), None)

  /** The request has been accepted, and the node's reply is awaited. */
  function Awaiting(): State {
    State(map[0 := Group(0, 0, HasParam, 1, [], 5)], map[(1, 0) := Pending(0, "/node", false)],
          Unlucky().(live := {0, 1}, requests := {(0, 0)}, nextEntity := 2, nextRequest := 1, nextSequence := 1,
                     calls := 2, did := [Requested(1, 0, Passed)]),
          map[0 := Accepted(0, HasParam, Calls(["/node"]), 5)], [(0, "/node")], [], [], {})
  }

  lemma RequestComesIn()
    ensures var s1 := Take(Initial(Unlucky()), Arrive(0));
      && Enabled(s1, {0}, ASKING) && HandleEvents(s1, [ASKING], 5) == (Awaiting(), true)
      && Overdue(Awaiting(), 0) == {}
  {
    var s1 := Take(Initial(Unlucky()), Arrive(0));
    assert [ASKING][1..] == [];
    var s2 := HandleEvent(s1, ASKING, 5).0;
    assert s2.ros.live == {0, 1};
    assert s2 == Awaiting();
  }

  lemma AnswerIsLost()
    ensures var s3 := HandleEvents(Awaiting(), [NodeReply((1, 0), FOUND)], 6).0;
      s3.groups == map[] && 0 in s3.lost && (0, 0) in s3.ros.requests && Overdue(s3, 1) == {}
    ensures !HandleEvents(Awaiting(), [NodeReply((1, 0), FOUND)], 6).1
  {
    var s := TakeReply(Awaiting(), (1, 0), FOUND);
    assert Members(s.pending, 0) == {};
    assert Clients({}) == {};
  }

  function UnluckySteps(): seq<Step> {
    [Arrive(0), Round([ASKING], 0, 5, []), Round([NodeReply((1, 0), FOUND)], 1, 5, [])]
  }

  /** Such a run: the request has no group any more, and yet it is outstanding. */
  lemma AnswerCanBeLost()
    ensures Unlucky().Valid() && Unlucky().live == {0}
    ensures Legal(Initial(Unlucky()), {0}, UnluckySteps())
    ensures var s := Run(Initial(Unlucky()), UnluckySteps());
      s.groups == map[] && 0 in s.lost && (0, 0) in s.ros.requests
  {
    hide HandleEvents, Overdue, Enabled;
    RequestComesIn();
    AnswerIsLost();
    var s0, steps := Initial(Unlucky()), UnluckySteps();
    assert steps[..0] == [] && steps[..1][..0] == [];
    assert steps[..2][..1] == steps[..1] && steps[..3][..2] == steps[..2] && steps[..3] == steps;
    assert Run(s0, steps[..1]) == Take(s0, steps[0]) && Legal(s0, {0}, steps[..1]);
    assert Run(s0, steps[..2]) == Awaiting() && Legal(s0, {0}, steps[..2]);
    assert Possible(Awaiting(), {0}, steps[2]) by { RepliesAreEnabled(Awaiting(), {0}, (1, 0), FOUND); }
  }

  lemma RepliesAreEnabled(s: State, services: set<Entity>, key: Key, reply: Reply)
    ensures Enabled(s, services, NodeReply(key, reply))
  {
  }

  /**
   When the parameter to delete is there, its group is left waiting for nothing exactly if the
   second client cannot be created; the round ends there.
   */
  lemma DeleteWaitsForNothingIff(s: State, services: set<Entity>, key: Key, reply: Reply, deadline: nat)
    requires Sound(s, services) && key in s.pending && s.pending[key].deleteCheck && Present(reply.value)
    requires s.groups[s.pending[key].group].remaining == 1
    ensures var id := s.pending[key].group;
      var (t, ok) := HandleEvent(s, NodeReply(key, reply), deadline);
      && (id in t.groups && Members(t.pending, id) == {} <==> !s.ros.Succeeds())
      && (!s.ros.Succeeds() ==> !ok)
  {
    hide Counted, Owned, Accounted, Outstanding, SecondPhase;
    ReplyFindsItsGroup(s, key);
    DeletingGroup(s, key);
    LastCallTaken(s, key, reply);
    NothingPendingAfterwardsIff(TakeReply(s, key, reply), s.pending[key]);
  }

  lemma LastCallTaken(s: State, key: Key, reply: Reply)
    requires Counted(s) && key in s.pending && s.groups[s.pending[key].group].remaining == 1
    ensures Members(TakeReply(s, key, reply).pending, s.pending[key].group) == {}
  {
    var id := s.pending[key].group;
    var left := Members(TakeReply(s, key, reply).pending, id);
    assert key in Members(s.pending, id);
    assert left == Members(s.pending, id) - {key};
    assert |left| == 0;
  }

  lemma NothingPendingAfterwardsIff(s: State, p: Pending)
    requires p.group in s.groups && Members(s.pending, p.group) == {}
    ensures var (t, ok) := SecondPhase(s, p);
      && (p.group in t.groups && Members(t.pending, p.group) == {} <==> !s.ros.Succeeds())
      && (!s.ros.Succeeds() ==> !ok)
  {
    var t := SecondPhase(s, p).0;
    if s.ros.Succeeds() {
      var (ros, created) := s.ros.Create();
      var (ros2, sequence) := ros.Request(created.value);
      if sequence.Some? { assert (created.value, sequence.value) in Members(t.pending, p.group); }
    }
  }
}

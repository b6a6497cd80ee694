/**
 Every native service request that was handled and is still outstanding is waited for by exactly
 one record; the others are exactly those that nobody has handled (src/bridge).
 */
module BridgeRequests {
  import opened Basics
  import opened Backend
  import opened BridgeState
  import opened BridgeTopics
  import opened BridgeServices
  import opened BridgeActions
  import opened BridgeMoves
  import opened BridgeShapes
  import opened BridgeFrames
  import opened BridgeRequestIds
  import Own = BridgeOwnership
  import Delivery
  import Goals = BridgeServerGoals

  /** The places in which a native request waits: forwarded to a client, or for a goal's result. */
  datatype Claim = Forwarded(id: string) | Waiter(key: GoalKey, index: nat)

  ghost function ClaimOf(external: map<string, External>, goals: map<GoalKey, ServerGoal>, c: Claim): Option<Native> {
    match c
    case Forwarded(id) => if id in external then Some((external[id].entity, external[id].request)) else None
    case Waiter(k, i) => if k in goals && i < |goals[k].requests| then Some(goals[k].requests[i]) else None
  }

  ghost predicate Claimed(external: map<string, External>, goals: map<GoalKey, ServerGoal>, r: Native) {
    exists c :: ClaimOf(external, goals, c) == Some(r)
  }

  /** The outstanding requests are the disjoint union of those waited for. */
  ghost predicate Conserved(external: map<string, External>, goals: map<GoalKey, ServerGoal>, requests: set<Native>) {
    && (forall c :: ClaimOf(external, goals, c).Some? ==> ClaimOf(external, goals, c).value in requests)
    && (forall c, d ::
          ClaimOf(external, goals, c).Some? && ClaimOf(external, goals, c) == ClaimOf(external, goals, d) ==> c == d)
    && (forall r :: r in requests ==> Claimed(external, goals, r))
  }

  ghost predicate CountedId(name: string, limit: nat, id: string) {
    exists n :: 1 <= n <= limit && id == RequestId(name, n)
  }

  ghost predicate FiledAs(services: map<string, Service>, id: string, x: External) {
    && x.service in services && services[x.service].entity == x.entity && services[x.service].owner == x.owner
    && CountedId(x.service, services[x.service].nextRequest, id)
  }

  /** A forwarded request belongs to a live service and carries one of the ids that service gave out. */
  ghost predicate Filed(rpc: Rpc) {
    forall id :: id in rpc.external ==> FiledAs(rpc.services, id, rpc.external[id])
  }

  /** The outstanding requests that were handled. */
  ghost function Handled(s: State): set<Native> {
    s.ros.requests - s.unhandled
  }

  /** A request nobody has handled stays outstanding for as long as its entity lives. */
  ghost predicate Lying(s: State) {
    forall r :: r in s.unhandled ==>
      r.0 < s.ros.nextEntity && r.1 < s.ros.nextRequest && (r.0 in s.ros.live ==> r in s.ros.requests)
  }

  ghost predicate Complete(s: State) {
    Conserved(s.rpc.external, s.servers.serverGoals, Handled(s)) && Lying(s) && Filed(s.rpc)
  }

  ghost predicate Abandoned(s: State, r: Native) {
    r in s.unhandled && r.0 in s.ros.live
  }

  /** What is outstanding is either waited for or abandoned, and never both. */
  lemma OutstandingIff(s: State, r: Native)
    requires Complete(s) && s.ros.Valid()
    ensures r in s.ros.requests <==> Claimed(s.rpc.external, s.servers.serverGoals, r) || Abandoned(s, r)
    ensures !(Claimed(s.rpc.external, s.servers.serverGoals, r) && Abandoned(s, r))
  {
  }

  /** Every outstanding request is waited for exactly if none was taken, never handled and has a live entity. */
  lemma ConservedIff(s: State)
    requires Complete(s) && s.ros.Valid()
    ensures Conserved(s.rpc.external, s.servers.serverGoals, s.ros.requests) <==> forall r :: !Abandoned(s, r)
  {
    if r :| Abandoned(s, r) {
      OutstandingIff(s, r);
    } else {
      forall r | r in s.ros.requests ensures r in Handled(s) {
        assert !Abandoned(s, r);
      }
      assert s.ros.requests == Handled(s);
    }
  }

  /** Entities may have gone, and any that came are new. */
  ghost predicate Newer(a: Ros, b: Ros) {
    && a.nextEntity <= b.nextEntity && a.nextRequest <= b.nextRequest
    && forall e :: e in b.live ==> e in a.live || a.nextEntity <= e
  }

  // ---------- changing claims ----------

  lemma SameClaims(x: map<string, External>, g: map<GoalKey, ServerGoal>,
                   x': map<string, External>, g': map<GoalKey, ServerGoal>, requests: set<Native>)
    requires Conserved(x, g, requests) && forall c :: ClaimOf(x', g', c) == ClaimOf(x, g, c)
    ensures Conserved(x', g', requests)
  {
    forall r | r in requests ensures Claimed(x', g', r) {
      var c :| ClaimOf(x, g, c) == Some(r);
      assert ClaimOf(x', g', c) == Some(r);
    }
  }

  lemma OneMoreClaim(x: map<string, External>, g: map<GoalKey, ServerGoal>,
                     x': map<string, External>, g': map<GoalKey, ServerGoal>, requests: set<Native>, d: Claim,
                       r: Native)
    requires Conserved(x, g, requests) && ClaimOf(x, g, d).None? && r !in requests
    requires forall c :: ClaimOf(x', g', c) == if c == d then Some(r) else ClaimOf(x, g, c)
    ensures Conserved(x', g', requests + {r})
  {
    forall q | q in requests + {r} ensures Claimed(x', g', q) {
      if q == r {
        assert ClaimOf(x', g', d) == Some(r);
      } else {
        var c :| ClaimOf(x, g, c) == Some(q);
        assert ClaimOf(x', g', c) == Some(q);
      }
    }
  }

  /** The claims in `gone` end, and with them exactly their requests. */
  lemma FewerClaims(x: map<string, External>, g: map<GoalKey, ServerGoal>,
                    x': map<string, External>, g': map<GoalKey, ServerGoal>,
                    requests: set<Native>, gone: set<Claim>, over: set<Native>)
    requires Conserved(x, g, requests)
    requires forall c :: ClaimOf(x', g', c) == if c in gone then None else ClaimOf(x, g, c)
    requires forall c :: c in gone ==> ClaimOf(x, g, c).Some? && ClaimOf(x, g, c).value in over
    requires forall r :: r in over ==> exists c :: c in gone && ClaimOf(x, g, c) == Some(r)
    ensures Conserved(x', g', requests - over)
  {
    forall r | r in requests - over ensures Claimed(x', g', r) {
      var c :| ClaimOf(x, g, c) == Some(r);
      assert ClaimOf(x', g', c) == Some(r);
    }
  }

  ghost function WithoutDead(claim: Option<Native>, dead: set<Entity>): Option<Native> {
    if claim.Some? && claim.value.0 in dead then None else claim
  }

  /** Entities go, and with them every claim and every request on them. */
  lemma DeadClaims(x: map<string, External>, g: map<GoalKey, ServerGoal>,
                   x': map<string, External>, g': map<GoalKey, ServerGoal>,
                   requests: set<Native>, rest: set<Native>, dead: set<Entity>)
    requires Conserved(x, g, requests)
    requires forall c :: ClaimOf(x', g', c) == WithoutDead(ClaimOf(x, g, c), dead)
    requires forall r :: r in rest <==> r in requests && r.0 !in dead
    ensures Conserved(x', g', rest)
  {
    forall r | r in rest ensures Claimed(x', g', r) {
      var c :| ClaimOf(x, g, c) == Some(r);
      assert ClaimOf(x', g', c) == Some(r);
    }
  }

  lemma ClaimIsHandled(s: State, c: Claim)
    requires Complete(s) && ClaimOf(s.rpc.external, s.servers.serverGoals, c).Some?
    ensures ClaimOf(s.rpc.external, s.servers.serverGoals, c).value in Handled(s)
  {
  }

  // ---------- moves that have nothing to do with requests ----------

  /** Requests go only with their entities. */
  ghost predicate Quietly(a: Ros, b: Ros) {
    Newer(a, b) && forall r :: r in b.requests <==> r in a.requests && r.0 in b.live
  }

  lemma RolledQuietly(a: Ros, b: Ros)
    requires a.Valid() && Rolled(a, b)
    ensures Quietly(a, b)
  {
  }

  lemma GrewQuietly(a: Ros, b: Ros, es: set<Entity>)
    requires a.Valid() && Grew(a, b, es)
    ensures Quietly(a, b)
  {
  }

  lemma DestroyQuietly(a: Ros, es: set<Entity>)
    requires a.Valid()
    ensures Quietly(a, a.DestroyAll(es))
  {
  }

  /** A handled request waits on a service or on the result service of an action. */
  lemma HandledLives(s: State, t: State, r: Native)
    requires Complete(s) && Goals.Sound(s.servers) && Own.Owned(t)
    requires t.rpc.services == s.rpc.services && t.servers == s.servers && r in Handled(s)
    ensures r.0 in t.ros.live
  {
    var c :| ClaimOf(s.rpc.external, s.servers.serverGoals, c) == Some(r);
    match c
    case Forwarded(id) =>
      assert FiledAs(s.rpc.services, id, s.rpc.external[id]);
      assert Own.Holder(Own.RecordsOf(t), Own.OfService(s.rpc.external[id].service)) == Some(r.0);
    case Waiter(k, i) =>
      assert Goals.Served(s.servers, k);
      assert Own.Holder(Own.RecordsOf(t), Own.OfServer(k.0, Result)) == Some(r.0);
  }

  lemma QuietComplete(s: State, t: State)
    requires Complete(s) && s.ros.Valid() && Goals.Sound(s.servers) && Own.Owned(t) && Quietly(s.ros, t.ros)
    requires t.rpc.external == s.rpc.external && t.rpc.services == s.rpc.services && t.servers == s.servers
    requires t.unhandled == s.unhandled
    ensures Complete(t)
  {
    assert Lying(t);
    assert Handled(t) == Handled(s) by {
      hide Goals.Sound, Own.Owned, Conserved, Filed;
      forall r | r in Handled(s) ensures r in Handled(t) {
        HandledLives(s, t, r);
      }
    }
    hide Conserved, FiledAs, Goals.Sound, Own.Owned;
  }

  // ---------- operations ----------

  lemma KeptElsewhere(s: State, t: State)
    requires Complete(s) && t.rpc.external == s.rpc.external && t.rpc.services == s.rpc.services
    requires t.servers.serverGoals == s.servers.serverGoals && t.ros.requests == s.ros.requests
    requires t.unhandled == s.unhandled && Newer(s.ros, t.ros)
    ensures Complete(t)
  {
    hide Conserved, FiledAs;
  }

  /** The ids of a service outlive the requests on other services. */
  lemma StillFiled(a: Rpc, b: Rpc)
    requires Filed(a)
    requires forall id :: id in b.external ==> id in a.external && b.external[id] == a.external[id]
    requires forall id :: id in b.external ==>
      var n := b.external[id].service;
      n in a.services && n in b.services && b.services[n] == a.services[n]
    ensures Filed(b)
  {
    hide CountedId;
    forall id | id in b.external ensures FiledAs(b.services, id, b.external[id]) {
      assert FiledAs(a.services, id, a.external[id]);
    }
  }

  lemma RemoveServiceComplete(s: State, owner: Connection, name: string)
    requires Complete(s) && Own.Owned(s) && Goals.Sound(s.servers)
    ensures Complete(RemoveService(s, owner, name).0)
  {
    var t := RemoveService(s, owner, name).0;
    if name in s.rpc.services && s.rpc.services[name].owner == owner {
      var e := s.rpc.services[name].entity;
      assert forall id :: id in s.rpc.external ==> FiledAs(s.rpc.services, id, s.rpc.external[id]);
      ServerGoalsElsewhere(s, Own.OfService(name), e);
      assert Lying(t);
      hide Conserved, FiledAs, Goals.Sound, Own.Owned;
      DeadClaims(s.rpc.external, s.servers.serverGoals, t.rpc.external, t.servers.serverGoals,
                 Handled(s), Handled(t), {e});
      RemainingFiled(s.rpc, t.rpc, name);
    }
  }

  lemma RemainingFiled(a: Rpc, b: Rpc, name: string)
    requires Filed(a) && name in a.services && b.services == a.services - {name}
    requires b.external == map k | k in a.external && a.external[k].entity != a.services[name].entity :: a.external[k]
    ensures Filed(b)
  {
    hide CountedId;
    forall id | id in b.external ensures FiledAs(b.services, id, b.external[id]) {
      assert FiledAs(a.services, id, a.external[id]);
    }
  }

  /** Nobody waits for a goal's result on an entity that is not a result service. */
  lemma ServerGoalsElsewhere(s: State, slot: Own.Slot, e: Entity)
    requires Own.Owned(s) && Goals.Sound(s.servers) && Own.Holder(Own.RecordsOf(s), slot) == Some(e)
    requires !slot.OfServer? || slot.part != Result
    ensures forall k, i :: k in s.servers.serverGoals && 0 <= i < |s.servers.serverGoals[k].requests| ==>
              s.servers.serverGoals[k].requests[i].0 != e
  {
    forall k, i | k in s.servers.serverGoals && 0 <= i < |s.servers.serverGoals[k].requests|
      ensures s.servers.serverGoals[k].requests[i].0 != e
    {
      assert Goals.Served(s.servers, k);
      assert Own.Holder(Own.RecordsOf(s), Own.OfServer(k.0, Result)) == Some(s.servers.serverGoals[k].requests[i].0);
    }
  }

  lemma OpenServiceComplete(s: State, owner: Connection, name: string, typ: string)
    requires Complete(s) && name !in s.rpc.services
    ensures Complete(OpenService(s, owner, name, typ).0)
  {
    OpenServiceShape(s, owner, name, typ);
    var t := OpenService(s, owner, name, typ).0;
    assert forall id :: id in s.rpc.external ==> FiledAs(s.rpc.services, id, s.rpc.external[id]);
    assert Lying(t) && Handled(t) == Handled(s);
    hide OpenService, Conserved, CountedId;
    StillFiled(s.rpc, t.rpc);
  }

  lemma AdvertiseServiceComplete(s: State, owner: Connection, name: string, typ: string)
    requires Complete(s) && Own.Owned(s) && Goals.Sound(s.servers)
    ensures Complete(AdvertiseService(s, owner, name, typ).0)
  {
    RemoveServiceComplete(s, owner, name);
    hide Complete, OpenService;
    if name !in s.rpc.services {
      OpenServiceComplete(s, owner, name, typ);
    } else if s.rpc.services[name].owner == owner && s.rpc.services[name].typ != typ {
      OpenServiceComplete(RemoveService(s, owner, name).0, owner, name, typ);
    }
  }

  /** A forwarded request is over. */
  lemma ForwardedOver(s: State, t: State, id: string)
    requires Complete(s) && id in s.rpc.external && var x := s.rpc.external[id];
      t.ros.requests == s.ros.requests - {(x.entity, x.request)}
    requires t.rpc.external == s.rpc.external - {id} && t.rpc.services == s.rpc.services
    requires t.servers.serverGoals == s.servers.serverGoals && t.unhandled == s.unhandled && Newer(s.ros, t.ros)
    ensures Complete(t)
  {
    var x := s.rpc.external[id];
    ClaimIsHandled(s, Forwarded(id));
    hide Conserved, CountedId;
    FewerClaims(s.rpc.external, s.servers.serverGoals, t.rpc.external, t.servers.serverGoals, Handled(s),
                {Forwarded(id)}, {(x.entity, x.request)});
    assert Handled(t) == Handled(s) - {(x.entity, x.request)};
    forall k | k in t.rpc.external ensures FiledAs(t.rpc.services, k, t.rpc.external[k]) {
      assert FiledAs(s.rpc.services, k, s.rpc.external[k]);
    }
  }

  lemma ServiceResponseComplete(s: State, owner: Connection, id: string, service: string, success: Option<bool>)
    requires Complete(s)
    ensures Complete(ServiceResponse(s, owner, id, service, success).0)
  {
    hide Complete;
    var (t, ok) := ServiceResponse(s, owner, id, service, success);
    if ok { ForwardedOver(s, t, id); } else { KeptElsewhere(s, t); }
  }

  lemma ExpireExternalComplete(s: State, id: string)
    requires Complete(s)
    ensures Complete(ExpireExternal(s, id))
  {
    hide Complete;
    if id in s.rpc.external { ForwardedOver(s, ExpireExternal(s, id), id); }
  }

  /** Once its services are gone, nothing forwarded to a client is left. */
  lemma NothingToForget(s: State, owner: Connection)
    requires Filed(s.rpc) && forall n :: n in s.rpc.services ==> s.rpc.services[n].owner != owner
    ensures ForgetExternal(s, owner) == s
  {
    forall id | id in s.rpc.external ensures s.rpc.external[id].owner != owner {
      assert FiledAs(s.rpc.services, id, s.rpc.external[id]);
    }
    assert ForgetExternal(s, owner).rpc.external == s.rpc.external;
  }

  /** The next id of a service is not in use. */
  lemma NextIdIsFree(rpc: Rpc, name: string)
    requires Filed(rpc) && name in rpc.services
    ensures RequestId(name, rpc.services[name].nextRequest + 1) !in rpc.external
  {
    var n := rpc.services[name].nextRequest + 1;
    var id := RequestId(name, n);
    if id in rpc.external {
      var x := rpc.external[id];
      assert FiledAs(rpc.services, id, x);
      var m :| 1 <= m <= rpc.services[x.service].nextRequest && id == RequestId(x.service, m);
      RequestIdInjective(name, n, x.service, m);
      assert false;
    }
  }

  lemma ForwardedFiled(a: Rpc, b: Rpc, name: string, x: External)
    requires Filed(a) && name in a.services && x.service == name
    requires x.entity == a.services[name].entity && x.owner == a.services[name].owner
    requires var n := a.services[name].nextRequest + 1;
      b.services == a.services[name := a.services[name].(nextRequest := n)]
      && b.external == a.external[RequestId(name, n) := x]
    ensures Filed(b)
  {
    var n := a.services[name].nextRequest + 1;
    hide RequestId;
    forall id | id in b.external ensures FiledAs(b.services, id, b.external[id]) {
      if id == RequestId(name, n) {
        assert CountedId(name, n, id);
      } else {
        assert FiledAs(a.services, id, a.external[id]);
        var s := a.external[id].service;
        var m :| 1 <= m <= a.services[s].nextRequest && id == RequestId(s, m);
        assert CountedId(s, b.services[s].nextRequest, id);
      }
    }
  }

  /** A request whose handling begins is the only one handled for which nobody waits yet. */
  ghost predicate Taken(s: State, r: Native) {
    && r in Handled(s) && Conserved(s.rpc.external, s.servers.serverGoals, Handled(s) - {r})
    && Lying(s) && Filed(s.rpc)
  }

  lemma HandlingTakes(s: State, r: Native)
    requires Complete(s) && Abandoned(s, r)
    ensures Taken(Handling(s, r), r)
  {
    hide Conserved, Filed;
    assert Handled(Handling(s, r)) - {r} == Handled(s);
  }

  lemma ForwardRequestComplete(s: State, name: string, request: nat, now: nat)
    requires name in s.rpc.services && Taken(s, (s.rpc.services[name].entity, request))
    ensures Complete(ForwardRequest(s, name, request, now))
  {
    var t := ForwardRequest(s, name, request, now);
    var service := s.rpc.services[name];
    var n := service.nextRequest + 1;
    var r := (service.entity, request);
    ForwardRequestShape(s, name, request, now);
    NextIdIsFree(s.rpc, name);
    ForwardedFiled(s.rpc, t.rpc, name, External(service.owner, service.entity, request, name, now + s.timeout));
    hide Conserved, Filed, RequestId, ForwardRequest;
    OneMoreClaim(s.rpc.external, s.servers.serverGoals, t.rpc.external, t.servers.serverGoals,
                 Handled(s) - {r}, Forwarded(RequestId(name, n)), r);
    assert Handled(s) - {r} + {r} == Handled(t);
  }

  /** Either the request was answered, or it still lies there for the caller to discard. */
  lemma Settled(s: State, outcome: (State, bool), e: Entity, request: nat)
    requires Taken(s, (e, request)) && outcome.0.rpc == s.rpc
    requires forall c :: ClaimOf(s.rpc.external, outcome.0.servers.serverGoals, c)
                      == ClaimOf(s.rpc.external, s.servers.serverGoals, c)
    requires outcome.0.ros.requests == s.ros.requests - {(e, request)}
             || (!outcome.1 && outcome.0.ros.requests == s.ros.requests)
    requires outcome.0.unhandled == s.unhandled && Newer(s.ros, outcome.0.ros)
    ensures Complete(DiscardOnError(outcome, e, request))
  {
    hide Conserved, Filed;
    SameClaims(s.rpc.external, s.servers.serverGoals, s.rpc.external, outcome.0.servers.serverGoals,
               Handled(s) - {(e, request)});
    assert Handled(DiscardOnError(outcome, e, request)) == Handled(s) - {(e, request)};
  }

  lemma SubmitGoalComplete(s: State, action: string, uuid: Option<Uuid>, request: nat, stamp: (int, nat))
    requires action in s.servers.actionServers && Taken(s, (s.servers.actionServers[action].five.send, request))
    ensures Complete(DiscardOnError(SubmitGoal(s, action, uuid, request, stamp),
                                    s.servers.actionServers[action].five.send, request))
  {
    hide Post, UniqueName, Taken, Complete;
    Settled(s, SubmitGoal(s, action, uuid, request, stamp), s.servers.actionServers[action].five.send, request);
  }

  lemma AskResultComplete(s: State, action: string, uuid: Option<Uuid>, request: nat)
    requires action in s.servers.actionServers && Taken(s, (s.servers.actionServers[action].five.result, request))
    ensures Complete(DiscardOnError(AskResult(s, action, uuid, request),
                                    s.servers.actionServers[action].five.result, request))
  {
    var e := s.servers.actionServers[action].five.result;
    var (t, ok) := AskResult(s, action, uuid, request);
    hide Conserved, Filed, DiscardOnError;
    if ok && t.servers != s.servers {
      var key := (action, uuid.value);
      OneMoreClaim(s.rpc.external, s.servers.serverGoals, s.rpc.external, t.servers.serverGoals,
                   Handled(s) - {(e, request)}, Waiter(key, |s.servers.serverGoals[key].requests|), (e, request));
      assert Handled(s) - {(e, request)} + {(e, request)} == Handled(t);
      assert Complete(t);
      DiscardNothing(t, e, request);
    } else {
      Settled(s, (t, ok), e, request);
    }
  }

  lemma DiscardNothing(t: State, e: Entity, request: nat)
    ensures DiscardOnError((t, true), e, request) == t
  {
  }

  lemma CancelGoalsComplete(s: State, action: string, ask: Option<CancelAsk>, request: nat, order: seq<GoalKey>)
    requires action in s.servers.actionServers && Taken(s, (s.servers.actionServers[action].five.cancel, request))
    requires forall k :: k in order ==> k in s.servers.serverGoals
    ensures Complete(DiscardOnError(CancelGoals(s, action, ask, request, order),
                                    s.servers.actionServers[action].five.cancel, request))
  {
    hide PostAll, Taken, Complete, Chosen;
    Settled(s, CancelGoals(s, action, ask, request, order), s.servers.actionServers[action].five.cancel, request);
  }

  lemma RequestOnActionComplete(s: State, action: string, part: Part, request: nat, asked: Asked)
    requires action in s.servers.actionServers && (part == Send || part == Result || part == Cancel)
    requires Taken(s, (s.servers.actionServers[action].five.At(part), request))
    requires forall k :: k in asked.notices ==> k in s.servers.serverGoals
    ensures Complete(DiscardOnError(RequestOnAction(s, action, part, request, asked),
                                    s.servers.actionServers[action].five.At(part), request))
  {
    hide Complete, Taken, SubmitGoal, AskResult, CancelGoals, DiscardOnError;
    match part
    case Send => SubmitGoalComplete(s, action, asked.uuid, request, asked.stamp);
    case Result => AskResultComplete(s, action, asked.uuid, request);
    case Cancel => CancelGoalsComplete(s, action, asked.cancel, request, asked.notices);
  }

  lemma ServeComplete(s: State, e: Entity, request: nat, asked: Asked, now: nat)
    requires Own.Owned(s) && Complete(s) && (e, request) in s.unhandled
    requires forall k :: k in asked.notices ==> k in s.servers.serverGoals
    ensures Complete(OnRequest(s, e, request, asked, now))
  {
    hide Own.Owned, Complete, Taken, RequestOnAction, ForwardRequest, DiscardOnError;
    var s1 := Handling(s, (e, request));
    if exists a, p :: ServesPart(s, e, a, p) {
      var a, p :| ServesPart(s, e, a, p)
        && OnRequest(s, e, request, asked, now)
           == DiscardOnError(RequestOnAction(s1, a, p, request, asked), e, request);
      Own.ServedEntityLives(s, Own.OfServer(a, p), e);
      HandlingTakes(s, (e, request));
      RequestOnActionComplete(s1, a, p, request, asked);
    } else if exists n :: Serves(s, e, n) {
      var n :| Serves(s, e, n) && OnRequest(s, e, request, asked, now) == ForwardRequest(s1, n, request, now);
      Own.ServedEntityLives(s, Own.OfService(n), e);
      HandlingTakes(s, (e, request));
      ForwardRequestComplete(s1, n, request, now);
    }
  }

  /** What a poll takes is outstanding, and nobody has handled it. */
  lemma PollComplete(s: State, taken: set<Native>, next: nat)
    requires Own.Owned(s) && Complete(s) && CanTake(s, taken, next) && Own.Owned(Polled(s, taken, next))
    ensures Complete(Polled(s, taken, next))
  {
    hide Own.Partition, Conserved, Filed;
    assert Handled(Polled(s, taken, next)) == Handled(s);
  }

  // ---------- action servers and results ----------

  lemma RemoveActionComplete(s: State, owner: Connection, action: string, keys: seq<GoalKey>)
    requires Complete(s) && Own.Owned(s) && Goals.Sound(s.servers)
    requires Lists(keys, GoalsOf(s.servers.serverGoals, action))
    ensures Complete(RemoveAction(s, owner, action, keys).0)
  {
    if action in s.servers.actionServers && s.servers.actionServers[action].owner == owner {
      var t := RemoveAction(s, owner, action, keys).0;
      var dead := s.servers.actionServers[action].five.All();
      DropGoalsShape(s, keys);
      WaitersAreOnServer(s, action, keys);
      ClaimsOfServer(s, action);
      hide Conserved, Filed, DropGoals, Own.Owned, Goals.Sound;
      forall r ensures r in t.ros.requests <==> r in s.ros.requests && r.0 !in dead {
      }
      assert Lying(t);
      DeadClaims(s.rpc.external, s.servers.serverGoals, t.rpc.external, t.servers.serverGoals,
                 Handled(s), Handled(t), dead);
    }
  }

  lemma WaitersAreOnServer(s: State, action: string, keys: seq<GoalKey>)
    requires Goals.Sound(s.servers) && action in s.servers.actionServers
    requires Lists(keys, GoalsOf(s.servers.serverGoals, action))
    ensures forall r :: r in WaitersOf(s.servers.serverGoals, keys) ==> r.0 == s.servers.actionServers[action].five.result
  {
    forall r | r in WaitersOf(s.servers.serverGoals, keys)
      ensures r.0 == s.servers.actionServers[action].five.result {
      var k :| k in keys && k in s.servers.serverGoals && r in s.servers.serverGoals[k].requests;
      assert k in GoalsOf(s.servers.serverGoals, action);
      assert Goals.Served(s.servers, k);
    }
  }

  /** Of all claims, exactly those of the action's goals are on the action's entities. */
  lemma ClaimsOfServer(s: State, action: string)
    requires Complete(s) && Own.Owned(s) && Goals.Sound(s.servers) && action in s.servers.actionServers
    ensures forall id :: id in s.rpc.external ==> s.rpc.external[id].entity !in s.servers.actionServers[action].five.All()
    ensures forall k, i :: k in s.servers.serverGoals && 0 <= i < |s.servers.serverGoals[k].requests| ==>
      (s.servers.serverGoals[k].requests[i].0 in s.servers.actionServers[action].five.All() <==> k.0 == action)
  {
    var five := s.servers.actionServers[action].five;
    var r := Own.RecordsOf(s);
    PartsAreHeld(s, action);
    hide Conserved, Ros.Valid;
    forall id | id in s.rpc.external ensures s.rpc.external[id].entity !in five.All() {
      assert FiledAs(s.rpc.services, id, s.rpc.external[id]);
      assert Own.Holder(r, Own.OfService(s.rpc.external[id].service)) == Some(s.rpc.external[id].entity);
    }
    forall k, i | k in s.servers.serverGoals && 0 <= i < |s.servers.serverGoals[k].requests|
      ensures s.servers.serverGoals[k].requests[i].0 in five.All() <==> k.0 == action
    {
      assert Goals.Served(s.servers, k);
      assert Own.Holder(r, Own.OfServer(k.0, Result)) == Some(s.servers.serverGoals[k].requests[i].0);
    }
  }

  lemma PartsAreHeld(s: State, action: string)
    requires action in s.servers.actionServers
    ensures forall e :: e in s.servers.actionServers[action].five.All() ==>
      exists p :: Own.Holder(Own.RecordsOf(s), Own.OfServer(action, p)) == Some(e)
  {
    var five := s.servers.actionServers[action].five;
    forall e | e in five.All() ensures exists p :: Own.Holder(Own.RecordsOf(s), Own.OfServer(action, p)) == Some(e) {
      var p := if e == five.send then Send else if e == five.result then Result else if e == five.cancel then Cancel
               else if e == five.feedback then Feedback else Status;
      assert Own.Holder(Own.RecordsOf(s), Own.OfServer(action, p)) == Some(e);
    }
  }

  lemma AdvertiseActionComplete(s: State, owner: Connection, action: string, typ: string, keys: seq<GoalKey>)
    requires Complete(s) && Own.Owned(s) && Goals.Sound(s.servers)
    requires Lists(keys, GoalsOf(s.servers.serverGoals, action))
    ensures Complete(AdvertiseAction(s, owner, action, typ, keys).0)
  {
    Own.RemoveActionOwned(s, owner, action, keys);
    RemoveActionComplete(s, owner, action, keys);
    var s1 := if action in s.servers.actionServers then RemoveAction(s, owner, action, keys).0 else s;
    OpenActionShape(s1, owner, action, typ);
    hide Complete, OpenAction, RemoveAction, Own.Partition, Distinct;
    KeptElsewhere(s1, OpenAction(s1, owner, action, typ).0);
  }

  lemma ForgetComplete(s: State, now: nat)
    requires Complete(s) && Goals.Sound(s.servers)
    ensures Complete(Forget(s, now))
  {
    var t := Forget(s, now);
    hide Conserved, Filed, Goals.Served;
    forall c ensures ClaimOf(t.rpc.external, t.servers.serverGoals, c) == ClaimOf(s.rpc.external,
      s.servers.serverGoals, c) {
      if c.Waiter? && c.key in s.servers.serverGoals { assert Goals.Coherent(s.servers.serverGoals[c.key]); }
    }
    SameClaims(s.rpc.external, s.servers.serverGoals, t.rpc.external, t.servers.serverGoals, Handled(s));
  }

  /** Answering waiters from the last on ends exactly their requests, however far it gets. */
  lemma DrainedComplete(s: State, t: State, key: GoalKey, left: seq<Native>)
    requires Complete(s) && key in s.servers.serverGoals && key in t.servers.serverGoals && t.rpc == s.rpc
    requires left <= s.servers.serverGoals[key].requests && t.servers.serverGoals[key].requests == left
    requires t.servers.serverGoals == s.servers.serverGoals[key := t.servers.serverGoals[key]]
    requires t.ros.requests == s.ros.requests - set r | r in s.servers.serverGoals[key].requests[|left|..]
    requires t.unhandled == s.unhandled && Newer(s.ros, t.ros)
    ensures Complete(t)
  {
    var requests := s.servers.serverGoals[key].requests;
    var over := set r | r in requests[|left|..];
    var gone := set i | |left| <= i < |requests| :: Waiter(key, i);
    hide Conserved, Filed;
    forall r | r in over ensures exists c :: c in gone && ClaimOf(s.rpc.external, s.servers.serverGoals, c) == Some(r) {
      var i :| 0 <= i < |requests[|left|..]| && requests[|left|..][i] == r;
      assert Waiter(key, |left| + i) in gone;
      assert ClaimOf(s.rpc.external, s.servers.serverGoals, Waiter(key, |left| + i)) == Some(r);
    }
    forall c | c in gone ensures ClaimOf(s.rpc.external, s.servers.serverGoals, c).Some?
                              && ClaimOf(s.rpc.external, s.servers.serverGoals, c).value in over {
      assert requests[|left|..][c.index - |left|] == requests[c.index];
    }
    forall r | r in over ensures r in Handled(s) {
      var c :| c in gone && ClaimOf(s.rpc.external, s.servers.serverGoals, c) == Some(r);
      ClaimIsHandled(s, c);
    }
    FewerClaims(s.rpc.external, s.servers.serverGoals, t.rpc.external, t.servers.serverGoals, Handled(s),
                gone, over);
    assert Handled(t) == Handled(s) - over;
  }

  lemma ActionResultComplete(s: State, key: GoalKey, status: int, values: string, now: nat)
    requires Complete(s) && key in s.servers.serverGoals
    ensures Complete(ActionResult(s, key, status, values, now).0)
  {
    var t := ActionResult(s, key, status, values, now).0;
    var g := s.servers.serverGoals[key];
    var (ros, valid) := s.ros.Query();
    var (ros2, left) := Drain(ros, g.requests, ResultAnswer(status, values));
    DrainShape(ros, g.requests, ResultAnswer(status, values));
    hide Complete, Drain;
    if g.result.Some? || !(4 <= status <= 6) || !valid {
      KeptElsewhere(s, t);
    } else {
      DrainedComplete(s, t, key, left);
    }
  }

  // ---------- operations that have nothing to do with requests ----------

  lemma FinishGoalQuietly(s: State, goal: Uuid, status: int, success: bool)
    requires s.ros.Valid()
    ensures Quietly(s.ros, FinishGoal(s, goal, status, success).ros)
  {
    FinishGoalShape(s, goal, status, success);
    hide FinishGoal, Five.All;
    if goal in s.actions.goals { DestroyQuietly(s.ros, s.actions.goals[goal].five.All()); }
  }

  lemma CallQuietly(s: State, ticket: Ticket, success: bool)
    requires s.ros.Valid() && ticket in s.rpc.calls
    ensures Quietly(s.ros, FinishCall(s, ticket, success).ros) && Quietly(s.ros, DropCall(s, ticket).ros)
  {
    DestroyQuietly(s.ros, {ticket.0});
  }

  lemma AdvertiseQuietly(s: State, owner: Connection, topic: string, id: Id, setup: Setup)
    requires s.ros.Valid()
    ensures Quietly(s.ros, Advertise(s, owner, topic, id, setup).0.ros)
  {
    AdvertiseShape(s, owner, topic, id, setup);
    hide Advertise;
  }

  lemma UnadvertiseQuietly(s: State, owner: Connection, topic: string, id: Id)
    requires s.ros.Valid()
    ensures Quietly(s.ros, Unadvertise(s, owner, topic, id).0.ros)
  {
    UnadvertiseShape(s, owner, topic, id);
    hide Unadvertise;
    if topic in s.topics.publishers { DestroyQuietly(s.ros, {s.topics.publishers[topic].entity}); }
  }

  lemma UnsubscribeQuietly(s: State, owner: Connection, topic: string, id: Id)
    requires s.ros.Valid()
    ensures Quietly(s.ros, Unsubscribe(s, owner, topic, id).0.ros)
  {
    UnsubscribeShape(s, owner, topic, id);
    hide Unsubscribe;
    if topic in s.topics.subscriptions { DestroyQuietly(s.ros, {s.topics.subscriptions[topic].entity}); }
  }

  lemma SubscribeQuietly(s: State, owner: Connection, topic: string, id: Id, options: Delivery.Options,
                         setup: Setup, now: nat)
    requires s.ros.Valid()
    ensures Quietly(s.ros, Subscribe(s, owner, topic, id, options, setup, now).0.ros)
  {
    OpenTopicShape(s, topic, setup);
    var (s1, ok) := OpenTopic(s, topic, setup);
    if ok && topic in s1.topics.subscriptions { JoinTopicShape(s1, owner, topic, id, options, now); }
    hide OpenTopic, JoinTopic;
  }

  lemma ActionResponseQuietly(s: State, ticket: Ticket, answer: Answer)
    requires s.ros.Valid() && ticket in s.actions.actionCalls
    ensures Quietly(s.ros, ActionResponse(s, ticket, answer).0.ros)
  {
    var goal := s.actions.actionCalls[ticket].goal;
    var s1 := s.(actions := s.actions.(actionCalls := s.actions.actionCalls - {ticket}));
    hide FinishGoal, AcceptGoal, CancelAnswered;
    FinishGoalQuietly(s1, goal, 6, false);
    FinishGoalQuietly(s1, goal, answer.status, answer.status == 4);
    CancelAnsweredShape(s1, goal, answer.returnCode);
    if goal in s1.actions.goals { AcceptGoalShape(s1, goal); }
  }

  lemma AbandonGoalQuietly(s: State, goal: Uuid)
    requires s.ros.Valid()
    ensures Quietly(s.ros, AbandonGoal(s, goal).ros)
  {
    hide FinishGoal;
    if goal in s.actions.goals {
      var g := s.actions.goals[goal];
      var s1 := if g.accepted then s.(ros := s.ros.Request(g.five.cancel, AboutGoal(goal)).0) else s;
      assert s1.ros.Valid();
      FinishGoalQuietly(s1, goal, 6, false);
    }
  }

  // ---------- every move ----------

  lemma OperateQuietly(s: State, owner: Connection, name: string, op: Operation, now: nat)
    requires s.ros.Valid() && !TouchesServices(op) && !TouchesServers(op)
    ensures Quietly(s.ros, Operate(s, owner, name, op, now).0.ros)
  {
    hide Advertise, Unadvertise, Subscribe, Unsubscribe, CallService, SendGoal, CancelGoal;
    match op
    case AdvertiseTopic(id, setup) => AdvertiseQuietly(s, owner, name, id, setup);
    case UnadvertiseTopic(id) => UnadvertiseQuietly(s, owner, name, id);
    case PublishMessage(id, setup) => AdvertiseQuietly(s, owner, name, id, setup);
    case SubscribeTopic(id, options, setup) => SubscribeQuietly(s, owner, name, id, options, setup, now);
    case UnsubscribeTopic(id) => UnsubscribeQuietly(s, owner, name, id);
    case CallRemote(id, declared, known, permitted, timeout) =>
      CallServiceShape(s, owner, id, name, declared, known, permitted, timeout, now);
    case StartGoal(id, feedback, uuid) => SendGoalShape(s, owner, name, id, feedback, uuid, now);
    case StopGoal(goal) => CancelGoalShape(s, ActiveGoal(s, owner, name, goal));
    case GiveFeedback(goal) =>
  }

  lemma OwnedIsValid(s: State)
    requires Own.Owned(s)
    ensures s.ros.Valid()
  {
  }

  lemma OperateComplete(s: State, owner: Connection, name: string, op: Operation, now: nat)
    requires Own.Owned(s) && Own.IssuedGoals(s) && Complete(s) && Goals.Sound(s.servers) && OperationFits(s, name, op)
    ensures Complete(Operate(s, owner, name, op, now).0)
  {
    OperateFrame(s, owner, name, op, now);
    Own.OperateOwned(s, owner, name, op, now);
    OwnedIsValid(s);
    hide Own.Owned, Own.IssuedGoals, Complete, Goals.Sound, AdvertiseService, RemoveService, ServiceResponse,
         AdvertiseAction, RemoveAction, ActionResult;
    if !TouchesServices(op) && !TouchesServers(op) {
      hide Operate;
      OperateQuietly(s, owner, name, op, now);
      QuietComplete(s, Operate(s, owner, name, op, now).0);
    } else {
      match op
      case OfferService(typ, permitted) => AdvertiseServiceComplete(s, owner, name, typ);
      case WithdrawService => RemoveServiceComplete(s, owner, name);
      case AnswerService(request, success) => ServiceResponseComplete(s, owner, request, name, success);
      case OfferAction(typ, keys) => AdvertiseActionComplete(s, owner, name, typ, keys);
      case WithdrawAction(keys) => RemoveActionComplete(s, owner, name, keys);
      case GiveResult(goal, status, values) =>
        var key := ServedGoal(s, owner, name, goal);
        if key.Some? { ActionResultComplete(s, key.value, status, values, now); }
    }
  }

  lemma ObeyComplete(s: State, owner: Connection, c: Command, now: nat)
    requires Own.Owned(s) && Own.IssuedGoals(s) && Complete(s) && Goals.Sound(s.servers)
    requires Fits(s, Obey(owner, c, now))
    ensures Complete(OnCommand(s, owner, c, now))
  {
    hide Own.Owned, Own.IssuedGoals, Complete, Goals.Sound, Operate, Post;
    if c.Command? && Name(c.name).Some? {
      OperateComplete(s, owner, Name(c.name).value, c.operation, now);
    }
    var t := Execute(s, owner, c, now).0;
    assert Complete(t);
    KeptElsewhere(t, SendTo(t, owner, Failure(c.id)));
  }

  lemma HearComplete(s: State, e: Entity, m: Delivery.Message, now: nat, order: seq<Connection>)
    requires Complete(s)
    ensures Complete(OnMessage(s, e, m, now, order))
  {
    hide Complete, OnMessage;
    HearFrame(s, e, m, now, order);
    KeptElsewhere(s, OnMessage(s, e, m, now, order));
  }

  lemma LearnComplete(s: State, ticket: Ticket, answer: Answer)
    requires Own.Owned(s) && Complete(s) && Goals.Sound(s.servers)
    ensures Complete(OnResponse(s, ticket, answer))
  {
    LearnFrame(s, ticket, answer);
    Own.LearnOwned(s, ticket, answer);
    OwnedIsValid(s);
    hide Own.Owned, Complete, Goals.Sound, FinishCall, ActionResponse, Ros.Valid;
    if ticket in s.rpc.calls {
      CallQuietly(s, ticket, true);
      QuietComplete(s, OnResponse(s, ticket, answer));
    } else if ticket in s.actions.actionCalls {
      ActionResponseQuietly(s, ticket, answer);
      QuietComplete(s, OnResponse(s, ticket, answer));
    }
  }

  lemma LeaveComplete(s: State, m: Move)
    requires Own.Owned(s) && Complete(s) && Goals.Sound(s.servers) && Leaving(m) && Fits(s, m)
    ensures Complete(Do(s, m))
  {
    hide Own.Owned, Complete, Goals.Sound, RemoveService, RemoveAction, DropCall, ForgetExternal, Unadvertise,
      Unsubscribe, AbandonGoal;
    match m
    case LeaveService(owner, name) => RemoveServiceComplete(s, owner, name);
    case LeaveAction(owner, name, keys) => RemoveActionComplete(s, owner, name, keys);
    case LeaveExternal(owner) => LeaveExternalComplete(s, owner);
    case _ => LeaveQuietlyComplete(s, m);
  }

  /** Leaving topics, calls and goals has nothing to do with native requests. */
  lemma LeaveQuietlyComplete(s: State, m: Move)
    requires Own.Owned(s) && Complete(s) && Goals.Sound(s.servers)
    requires m.Depart? || m.LeaveTopic? || m.LeaveSubscription? || m.LeaveGoal? || m.LeaveCall?
    ensures Complete(Do(s, m))
  {
    hide Own.Owned, Complete, Goals.Sound, Do, Ros.Valid, Quietly;
    OwnedIsValid(s);
    LeavingTouchesNothing(s, m);
    Own.LeavingOwned(s, m);
    LeavingQuietly(s, m);
    QuietComplete(s, Do(s, m));
  }

  lemma LeavingTouchesNothing(s: State, m: Move)
    requires m.Depart? || m.LeaveTopic? || m.LeaveSubscription? || m.LeaveGoal? || m.LeaveCall?
    ensures var t := Do(s, m);
      && t.rpc.external == s.rpc.external && t.rpc.services == s.rpc.services && t.servers == s.servers
      && t.unhandled == s.unhandled
  {
    hide Do, Chatted;
    LeavingFrame(s, m);
  }

  lemma LeavingQuietly(s: State, m: Move)
    requires s.ros.Valid()
    requires m.Depart? || m.LeaveTopic? || m.LeaveSubscription? || m.LeaveGoal? || m.LeaveCall?
    ensures Quietly(s.ros, Do(s, m).ros)
  {
    hide Unadvertise, Unsubscribe, AbandonGoal, DropCall;
    match m
    case Depart(owner) =>
    case LeaveTopic(owner, topic) => UnadvertiseQuietly(s, owner, topic, None);
    case LeaveSubscription(owner, topic) => UnsubscribeQuietly(s, owner, topic, None);
    case LeaveGoal(goal) => AbandonGoalQuietly(s, goal);
    case LeaveCall(ticket) => DropCallQuietly(s, ticket);
  }

  lemma DropCallQuietly(s: State, ticket: Ticket)
    requires s.ros.Valid()
    ensures Quietly(s.ros, DropCall(s, ticket).ros)
  {
    if ticket in s.rpc.calls { CallQuietly(s, ticket, true); }
  }

  lemma LeaveExternalComplete(s: State, owner: Connection)
    requires Complete(s) && forall n :: n in s.rpc.services ==> s.rpc.services[n].owner != owner
    ensures Complete(ForgetExternal(s, owner))
  {
    NothingToForget(s, owner);
  }

  /** After every move, each outstanding native request is waited for by exactly one record or was never handled. */
  lemma MoveComplete(s: State, m: Move)
    requires Own.Owned(s) && Own.IssuedGoals(s) && Complete(s) && Goals.Sound(s.servers)
    ensures Complete(Do(s, m))
  {
    Own.MoveOwned(s, m);
    hide Own.Owned, Own.IssuedGoals, Complete, Goals.Sound, OnCommand, OnMessage, OnResponse, OnRequest, FinishGoal,
         DeliverDue, ExpireExternal, ExpireCall, Forget, FinishCall;
    if !Fits(s, m) {
    } else if Leaving(m) {
      hide Do;
      LeaveComplete(s, m);
    } else {
      match m
      case Connect(owner) => KeptElsewhere(s, Do(s, m));
      case Obey(owner, command, now) => ObeyComplete(s, owner, command, now);
      case Poll(taken, next) => PollComplete(s, taken, next);
      case Hear(e, message, now, order) => HearComplete(s, e, message, now, order);
      case Learn(ticket, answer) => LearnComplete(s, ticket, answer);
      case Serve(e, request, asked, now) => ServeComplete(s, e, request, asked, now);
      case GoalTimeout(goal) => GoalTimeoutComplete(s, goal);
      case Deliver(due, now) => DeliverShape(s, due, now); KeptElsewhere(s, Do(s, m));
      case CallTimeout(ticket) => CallTimeoutComplete(s, ticket);
      case RequestTimeout(id) => ExpireExternalComplete(s, id);
      case ForgetResults(now) => ForgetComplete(s, now);
      case TakeFailed => KeptElsewhere(s, Do(s, m));
    }
  }

  lemma GoalTimeoutComplete(s: State, goal: Uuid)
    requires Own.Owned(s) && Complete(s) && Goals.Sound(s.servers)
    ensures Complete(FinishGoal(s, goal, 6, false))
  {
    FinishGoalShape(s, goal, 6, false);
    OwnedIsValid(s);
    FinishGoalQuietly(s, goal, 6, false);
    hide FinishGoal, Complete, Own.Owned, Ros.Valid;
    Own.FinishGoalOwned(s, goal, 6, false);
    QuietComplete(s, FinishGoal(s, goal, 6, false));
  }

  lemma CallTimeoutComplete(s: State, ticket: Ticket)
    requires Own.Owned(s) && Complete(s) && Goals.Sound(s.servers)
    ensures Complete(ExpireCall(s, ticket))
  {
    OwnedIsValid(s);
    hide Own.Owned, Complete, Goals.Sound, Post, Ros.Valid;
    if ticket in s.rpc.calls {
      CallQuietly(s, ticket, false);
      Own.FinishCallOwned(s, ticket, false);
      QuietComplete(s, FinishCall(s, ticket, false));
    }
  }
}

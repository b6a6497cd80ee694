/** What polling takes and ticks handle, over the whole life of the worker (src/server.rs, src/bridge, src/ros). */
module BridgePolls {
  import opened Basics
  import opened Backend
  import opened BridgeState
  import opened BridgeServices
  import opened BridgeActions
  import opened BridgeMoves
  import opened BridgeShapes
  import opened BridgeFrames
  import opened BridgeLeaving
  import opened BridgeRuns
  import opened BridgeTicks
  import Own = BridgeOwnership
  import Requests = BridgeRequests
  import Owners = BridgeOwners
  import Parameters
  import Answers = ParameterAnswers

  // ---------- handling what was taken ----------

  /** The same entities serve. */
  ghost predicate ServesAlike(s: State, t: State) {
    && t.servers.actionServers == s.servers.actionServers && t.rpc.services.Keys == s.rpc.services.Keys
    && forall n :: n in t.rpc.services ==> t.rpc.services[n].entity == s.rpc.services[n].entity
  }

  lemma ServedAlike(s: State, t: State, e: Entity)
    requires ServesAlike(s, t) && Served(s, e)
    ensures Served(t, e)
  {
    if a, p :| ServesPart(s, e, a, p) {
      assert ServesPart(t, e, a, p);
    } else {
      var n :| Serves(s, e, n);
      assert Serves(t, e, n);
    }
  }

  /** Handling one request leaves every other as it is. */
  lemma ServeHandlesOne(s: State, e: Entity, request: nat, asked: Asked, now: nat)
    requires forall k :: k in asked.notices ==> k in s.servers.serverGoals
    ensures var t := OnRequest(s, e, request, asked, now);
      && t.unhandled == (if Served(s, e) then s.unhandled - {(e, request)} else s.unhandled)
      && ServesAlike(s, t)
  {
    hide RequestOnAction, ForwardRequest, DiscardOnError;
    var s1 := Handling(s, (e, request));
    if exists a, p :: ServesPart(s, e, a, p) {
      var a, p :| ServesPart(s, e, a, p)
        && OnRequest(s, e, request, asked, now)
           == DiscardOnError(RequestOnAction(s1, a, p, request, asked), e, request);
      RequestOnActionFrame(s1, a, p, request, asked);
      Owners.RequestKeepsServers(s1, a, p, request, asked);
      DiscardOnErrorFrame(s1, RequestOnAction(s1, a, p, request, asked), e, request);
    } else if exists n :: Serves(s, e, n) {
      var n :| Serves(s, e, n) && OnRequest(s, e, request, asked, now) == ForwardRequest(s1, n, request, now);
      ForwardRequestShape(s1, n, request, now);
    }
  }

  ghost function HandledBy(m: Move): set<Native> {
    if m.Serve? then {(m.entity, m.request)} else {}
  }

  lemma QuietEventHandles(s: State, m: Move)
    requires s.ros.Valid() && IsEvent(m) && !m.Serve?
    ensures var t := Do(s, m); ServesAlike(s, t) && t.unhandled == s.unhandled
  {
    hide Do, Ros.Valid;
    DoFrame(s, m);
  }

  lemma EventHandles(s: State, m: Move)
    requires s.ros.Valid() && IsEvent(m) && Fits(s, m) && (m.Serve? ==> Served(s, m.entity))
    ensures var t := Do(s, m); ServesAlike(s, t) && t.unhandled == s.unhandled - HandledBy(m)
  {
    if m.Serve? {
      hide OnRequest;
      ServeHandlesOne(s, m.entity, m.request, m.asked, m.now);
    } else {
      hide Do;
      QuietEventHandles(s, m);
    }
  }

  ghost function AllHandled(events: seq<Move>): set<Native> {
    set m | m in events && m.Serve? :: (m.entity, m.request)
  }

  lemma {:induction false} EventsHandle(s: State, events: seq<Move>)
    requires Invariant(s) && AllFitting(s, events) && forall m :: m in events ==> IsEvent(m)
    requires forall m :: m in events && m.Serve? ==> Served(s, m.entity)
    ensures var t := DoAll(s, events);
      Invariant(t) && ServesAlike(s, t) && t.unhandled == s.unhandled - AllHandled(events)
    decreases |events|
  {
    hide Invariant, Do, Fits, Served, HandledBy, AllHandled;
    if events == [] {
      NothingHandled();
    } else {
      var n := |events| - 1;
      var rest, m := events[..n], events[n];
      FewerFit(s, events, n);
      EventsHandle(s, rest);
      var t := DoAll(s, rest);
      InvariantIsValid(t);
      assert Fits(t, m);
      if m.Serve? { ServedAlike(s, t, m.entity); }
      EventHandles(t, m);
      OnePlainMove(t, m);
      OneMoreHandled(rest, m);
      assert events == rest + [m];
    }
  }

  lemma NothingHandled()
    ensures AllHandled([]) == {}
  {
  }

  lemma OneMoreHandled(rest: seq<Move>, m: Move)
    ensures AllHandled(rest + [m]) == AllHandled(rest) + HandledBy(m)
  {
    assert forall x :: x in rest + [m] <==> x in rest || x == m;
  }

  lemma FewerFit(s: State, moves: seq<Move>, n: nat)
    requires AllFitting(s, moves) && n <= |moves|
    ensures AllFitting(s, moves[..n])
  {
    forall i | 0 <= i < n ensures Fits(DoAll(s, moves[..n][..i]), moves[..n][i]) {
      assert moves[..n][..i] == moves[..i];
    }
  }

  predicate Bystanding(m: Move) {
    !m.Poll? && !m.Serve?
  }

  lemma {:induction false} MovesKeepUnhandled(s: State, moves: seq<Move>)
    requires Consistent(s) && forall m :: m in moves ==> Bystanding(m)
    ensures Consistent(DoAll(s, moves)) && DoAll(s, moves).unhandled == s.unhandled
    decreases |moves|
  {
    hide Consistent, Do;
    if moves != [] {
      var n := |moves| - 1;
      MovesKeepUnhandled(s, moves[..n]);
      var t := DoAll(s, moves[..n]);
      ConsistentIsValid(t);
      assert Bystanding(moves[n]);
      DoFrame(t, moves[n]);
      MoveConsistent(t, moves[n]);
    }
  }

  lemma ConsistentIsValid(s: State)
    requires Consistent(s)
    ensures s.ros.Valid()
  {
  }

  lemma DisconnectKeepsUnhandled(s: State, o: Connection, l: Leave)
    requires Consistent(s)
    ensures Disconnect(s, o, l).unhandled == s.unhandled
  {
    hide Consistent, Do, DoAll;
    forall m | m in LeaveMoves(o, l) ensures Bystanding(m) {
    }
    MovesKeepUnhandled(s, LeaveMoves(o, l));
  }

  lemma {:induction false} DisconnectsKeepUnhandled(s: State, gone: seq<(Connection, Leave)>)
    requires Invariant(s)
    ensures Invariant(DisconnectAll(s, gone)) && DisconnectAll(s, gone).unhandled == s.unhandled
    decreases |gone|
  {
    hide Consistent, Owners.Connected, Disconnect, LeaveFits;
    if gone != [] {
      var n := |gone| - 1;
      DisconnectsKeepUnhandled(s, gone[..n]);
      var t := DisconnectAll(s, gone[..n]);
      StepInvariant(t, Gone(gone[n].0, gone[n].1));
      DisconnectKeepsUnhandled(t, gone[n].0, gone[n].1);
    }
  }

  function UpkeepMoves(plan: Plan, now: nat): seq<Move> {
    GoalTimeouts(plan.goals) + [Deliver(plan.due, now)] + CallTimeouts(plan.calls)
    + RequestTimeouts(plan.requests) + [ForgetResults(now), TakeFailed]
  }

  lemma UpkeepStandsBy(plan: Plan, now: nat)
    ensures forall m :: m in UpkeepMoves(plan, now) ==> Bystanding(m)
  {
  }

  lemma UpkeepKeepsUnhandled(s: State, plan: Plan, now: nat)
    requires Invariant(AfterEvents(s, plan))
    ensures AfterUpkeep(s, plan, now).unhandled == AfterEvents(s, plan).unhandled
  {
    var s1 := AfterEvents(s, plan);
    assert Consistent(s1);
    hide Consistent, Do, DoAll, AfterEvents, AfterUpkeep;
    UpkeepStandsBy(plan, now);
    MovesKeepUnhandled(s1, UpkeepMoves(plan, now));
    UpkeepIsMoves(s, plan, now);
  }

  lemma UpkeepIsMoves(s: State, plan: Plan, now: nat)
    ensures AfterUpkeep(s, plan, now) == DoAll(AfterEvents(s, plan), UpkeepMoves(plan, now))
  {
    hide Do, AfterEvents, GoalTimeouts, CallTimeouts, RequestTimeouts;
    var s1 := AfterEvents(s, plan);
    var a, b := GoalTimeouts(plan.goals), [Deliver(plan.due, now)];
    var c, d, e := CallTimeouts(plan.calls), RequestTimeouts(plan.requests), [ForgetResults(now), TakeFailed];
    DoAllConcat(s1, a, b);
    DoAllConcat(s1, a + b, c);
    DoAllConcat(s1, a + b + c, d);
    DoAllConcat(s1, a + b + c + d, e);
    var t := AfterRequests(s, plan, now);
    DoAllSnoc(t, [ForgetResults(now)], TakeFailed);
    DoAllSnoc(t, [], ForgetResults(now));
    DoAllSnoc(DoAll(s1, a), [], Deliver(plan.due, now));
  }

  /** What a poll takes was not there before, and whoever served before still does. */
  lemma PollTakesNew(s: State, taken: set<Native>, next: nat)
    requires Invariant(s) && CanTake(s, taken, next)
    ensures var t := Do(s, Poll(taken, next));
      && t.unhandled == s.unhandled + taken && taken !! s.unhandled && ServesAlike(s, t)
      && forall r :: r in taken ==> Served(t, r.0)
  {
    assert Requests.Lying(s);
    hide Invariant;
    forall r | r in taken ensures Served(Do(s, Poll(taken, next)), r.0) {
      ServedAlike(s, Do(s, Poll(taken, next)), r.0);
    }
  }

  lemma EventsHandleTaken(s: State, plan: Plan, now: nat)
    requires Invariant(s) && UpkeepPlanned(s, plan, now)
    ensures Invariant(AfterEvents(s, plan)) && AfterEvents(s, plan).unhandled == s.unhandled
  {
    var s1 := AfterPoll(s, plan);
    hide Invariant, Do, DoAll, Lists, GoalTimeouts, CallTimeouts, RequestTimeouts, AllFitting, CanTake, Served,
      ServesAlike;
    PollTakesNew(s, plan.taken, plan.next);
    OnePlainMove(s, Poll(plan.taken, plan.next));
    forall r ensures r in AllHandled(plan.events) <==> Handles(plan.events, r) {
    }
    assert AllHandled(plan.events) == plan.taken;
    EventsHandle(s1, plan.events);
  }

  /** A tick whose poll succeeded has handled every request it took, and no other. */
  lemma TickHandlesAll(s: State, plan: Plan, now: nat)
    requires Invariant(s) && UpkeepPlanned(s, plan, now)
    ensures Tick(s, plan, now).unhandled == s.unhandled
  {
    EventsHandleTaken(s, plan, now);
    UpkeepKeepsUnhandled(s, plan, now);
    hide Invariant, AfterUpkeep, AfterEvents, AllFitting, CanTake, Lists;
    UpkeepInvariant(s, plan, now);
    DisconnectsKeepUnhandled(AfterUpkeep(s, plan, now), plan.gone);
  }

  // ---------- the worker ----------

  /** The parameter worker's round over its own share of what was polled. */
  datatype Round = Round(state: Parameters.State, events: seq<Parameters.Event>, now: nat, timeout: nat,
                         expired: seq<nat>)

  /** Polling fails over an entity that cannot be read, or else over a round that is aborted. */
  datatype Polling = Polling(readable: bool, round: Option<Round>)
  {
    predicate Completes() {
      round.Some? ==>
        Parameters.Process(round.value.state, round.value.events, round.value.now, round.value.timeout,
                           round.value.expired).1
    }

    predicate Succeeds() { readable && Completes() }
  }

  /** One turn of the worker's loop: what clients want, then a tick; the plan's requests were taken either way. */
  datatype Turn = Turn(steps: seq<Step>, polling: Polling, plan: Plan, closed: set<Connection>, now: nat)

  predicate FromClients(step: Step) {
    step.Gone? || step.move.Connect? || step.move.Obey?
  }

  ghost predicate TurnFits(s: State, turn: Turn) {
    var s1 := Run(s, turn.steps);
    && (forall x :: x in turn.steps ==> FromClients(x))
    && if turn.polling.Succeeds() then WellPlanned(s1, turn.plan, turn.closed, turn.now)
       else CanTake(s1, turn.plan.taken, turn.plan.next)
  }

  ghost function AfterTurn(s: State, turn: Turn): State {
    var s1 := Run(s, turn.steps);
    if turn.polling.Succeeds() then Tick(s1, turn.plan, turn.now)
    else FailedTick(s1, turn.plan.taken, turn.plan.next)
  }

  /** The loop, which a tick that fails ends. */
  ghost function Work(s: State, turns: seq<Turn>): State
    decreases |turns|
  {
    if turns == [] then s
    else if turns[0].polling.Succeeds() then Work(AfterTurn(s, turns[0]), turns[1..])
    else AfterTurn(s, turns[0])
  }

  ghost predicate WorkFits(s: State, turns: seq<Turn>)
    decreases |turns|
  {
    turns != [] ==>
      && TurnFits(s, turns[0])
      && (turns[0].polling.Succeeds() ==> WorkFits(AfterTurn(s, turns[0]), turns[1..]))
  }

  /** What the poll that ended the loop had taken. */
  function TakenLast(turns: seq<Turn>): set<Native> {
    if turns == [] then {}
    else if turns[0].polling.Succeeds() then TakenLast(turns[1..])
    else turns[0].plan.taken
  }

  lemma {:induction false} ClientsKeepUnhandled(s: State, steps: seq<Step>)
    requires Invariant(s) && forall x :: x in steps ==> FromClients(x)
    ensures Invariant(Run(s, steps)) && Run(s, steps).unhandled == s.unhandled
    decreases |steps|
  {
    hide Consistent, Owners.Connected, Do, Disconnect, LeaveFits;
    if steps != [] {
      var n := |steps| - 1;
      ClientsKeepUnhandled(s, steps[..n]);
      var t := Run(s, steps[..n]);
      assert FromClients(steps[n]);
      StepInvariant(t, steps[n]);
      ConsistentIsValid(t);
      match steps[n]
      case One(m) => DoFrame(t, m);
      case Gone(o, l) => DisconnectKeepsUnhandled(t, o, l);
    }
  }

  lemma TurnAbandons(s: State, turn: Turn)
    requires Invariant(s) && s.unhandled == {} && TurnFits(s, turn)
    ensures var t := AfterTurn(s, turn);
      && Invariant(t)
      && (turn.polling.Succeeds() ==> t.unhandled == {})
      && (!turn.polling.Succeeds() ==>
            t.unhandled == turn.plan.taken && forall r :: r in turn.plan.taken ==> Requests.Abandoned(t, r))
  {
    hide Invariant, Run, Tick, FailedTick, Departs, UpkeepPlanned, CanTake;
    ClientsKeepUnhandled(s, turn.steps);
    var s1 := Run(s, turn.steps);
    if turn.polling.Succeeds() {
      assert UpkeepPlanned(s1, turn.plan, turn.now);
      TickHandlesAll(s1, turn.plan, turn.now);
      TickLeavesNothingOverdue(s1, turn.plan, turn.now);
    } else {
      FailedPollKeepsOverdue(s1, turn.plan.taken, turn.plan.next, turn.now);
    }
  }

  /**
   For as long as the worker runs, every outstanding request is waited for by exactly one record.
   After the poll that ends it, this is so exactly if that poll had taken nothing: what it took
   stays outstanding, and no record waits for it.
   */
  lemma {:induction false} WorkAbandonsLast(s: State, turns: seq<Turn>)
    requires Invariant(s) && s.unhandled == {} && WorkFits(s, turns)
    ensures var t := Work(s, turns);
      && Invariant(t)
      && (forall r :: Requests.Abandoned(t, r) <==> r in TakenLast(turns))
      && (Requests.Conserved(t.rpc.external, t.servers.serverGoals, t.ros.requests) <==> TakenLast(turns) == {})
    decreases |turns|
  {
    hide Invariant, AfterTurn, TurnFits, Polling.Succeeds, Requests.Conserved;
    var t := Work(s, turns);
    if turns != [] && turns[0].polling.Succeeds() {
      TurnAbandons(s, turns[0]);
      WorkAbandonsLast(AfterTurn(s, turns[0]), turns[1..]);
    } else {
      if turns != [] { TurnAbandons(s, turns[0]); }
      ConservedExactlyIf(t);
      assert forall r :: Requests.Abandoned(t, r) <==> r in TakenLast(turns);
    }
  }

  lemma ConservedExactlyIf(s: State)
    requires Invariant(s)
    ensures Requests.Conserved(s.rpc.external, s.servers.serverGoals, s.ros.requests)
            <==> forall r :: !Requests.Abandoned(s, r)
  {
    hide Requests.Complete, Requests.Conserved, Own.Partition;
    Requests.ConservedIff(s);
  }

  // ---------- such a case ----------

  const OFFERING: Command := Command(None, "/s", true, OfferService("T", true))

  /** Client 1 offers a service; then the parameter worker cannot send an answer, having been handed a request. */
  function AbortedTurn(): Turn {
    var round := Round(Answers.Awaiting(), [Parameters.NodeReply((1, 0), Answers.FOUND)], 1, 5, []);
    Turn([One(Connect(1)), One(Obey(1, OFFERING, 0))], Polling(true, Some(round)),
         Plan({(0, 0)}, 1, [], [], [], [], [], []), {}, 0)
  }

  function Willing(): State { Initial(Ros({}, {}, 0, 0, 0, 0, [], call => true), 5000, n => true) }

  ghost function Offering(): State { Do(Do(Willing(), Connect(1)), Obey(1, OFFERING, 0)) }

  lemma OfferingIsRun()
    ensures Run(Willing(), AbortedTurn().steps) == Offering()
  {
    hide Do;
    var s, steps := Willing(), AbortedTurn().steps;
    assert steps[..1][..0] == [] && steps[..1] == [One(Connect(1))] && steps[..2] == steps;
    assert Run(s, steps[..1]) == Take(Run(s, []), One(Connect(1))) by {
      assert steps[..1][..|steps[..1]| - 1] == [];
    }
  }

  lemma OfferingServes()
    ensures Served(Offering(), 0) && Offering().ros.nextRequest == 0 && Offering().ros.requests == {}
    ensures Offering().rpc.external == map[] && Offering().servers.serverGoals == map[]
  {
    assert Name("/s") == Some("/s");
    assert Serves(Offering(), 0, "/s");
  }

  lemma RoundAborts()
    ensures !AbortedTurn().polling.Succeeds()
  {
    hide Parameters.HandleEvents;
    Answers.AnswerIsLost();
  }

  lemma TakenThenAbandoned(s: State)
    requires Served(s, 0) && s.ros.nextRequest == 0 && s.ros.requests == {}
    ensures CanTake(s, {(0, 0)}, 1)
    ensures var t := FailedTick(s, {(0, 0)}, 1); t == s.(ros := t.ros, unhandled := t.unhandled)
    ensures FailedTick(s, {(0, 0)}, 1).ros.requests == {(0, 0)}
  {
    hide Served;
  }

  /** A request that was taken before the round was aborted is outstanding, and nothing waits for it. */
  lemma RequestCanBeAbandoned()
    ensures Invariant(Willing()) && WorkFits(Willing(), [AbortedTurn()])
    ensures var t := Work(Willing(), [AbortedTurn()]);
      t.ros.requests == {(0, 0)} && t.rpc.external == map[] && t.servers.serverGoals == map[]
  {
    hide Invariant, Run, Served, CanTake, Offering, FailedTick, Polling.Succeeds, WellPlanned;
    InitiallyInvariant(Willing().ros, 5000, n => true);
    RoundAborts();
    OfferingIsRun();
    OfferingServes();
    TakenThenAbandoned(Offering());
    var s, turn := Willing(), AbortedTurn();
    assert TurnFits(s, turn) && AfterTurn(s, turn) == FailedTick(Offering(), {(0, 0)}, 1);
    OneTurn(s, turn);
  }

  lemma OneTurn(s: State, turn: Turn)
    requires TurnFits(s, turn) && !turn.polling.Succeeds()
    ensures WorkFits(s, [turn]) && Work(s, [turn]) == AfterTurn(s, turn)
  {
    hide TurnFits, AfterTurn, Polling.Succeeds;
  }
}

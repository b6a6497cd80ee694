/** What a tick sees to besides deadlines, and ticks as runs (src/bridge/mod.rs). */
module BridgeUpkeep {
  import opened Basics
  import opened BridgeState
  import opened BridgeTopics
  import opened BridgeMoves
  import opened BridgeRuns
  import opened BridgeTicks
  import Effects = BridgeEffects
  import Frames = BridgeFrames
  import Leaving = BridgeLeaving
  import Owners = BridgeOwners
  import Scripts = BridgeScripts

  // ---------- deliveries ----------

  lemma {:induction false} MovesKeepTopics(s: State, moves: seq<Move>)
    requires Invariant(s)
    requires forall m :: m in moves ==> Owners.Plain(m) && !Frames.MoveTouchesTopics(m)
    ensures Invariant(DoAll(s, moves)) && DoAll(s, moves).topics == s.topics
    decreases |moves|
  {
    hide Invariant, Do;
    if moves != [] {
      var n := |moves| - 1;
      MovesKeepTopics(s, moves[..n]);
      MoveKeepsTopics(DoAll(s, moves[..n]), moves[n]);
    }
  }

  lemma MoveKeepsTopics(s: State, m: Move)
    requires Invariant(s) && Owners.Plain(m) && !Frames.MoveTouchesTopics(m)
    ensures Invariant(Do(s, m)) && Do(s, m).topics == s.topics
  {
    hide Invariant, Do;
    OnePlainMove(s, m);
    InvariantIsValid(s);
    Frames.DoFrame(s, m);
  }

  lemma GoalsInvariant(s: State, plan: Plan)
    requires Invariant(s) && forall m :: m in plan.events ==> IsEvent(m)
    ensures Invariant(AfterGoals(s, plan))
  {
    hide Invariant, Do, DoAll;
    OnePlainMove(s, Poll(plan.taken, plan.next));
    PlainMovesInvariant(AfterPoll(s, plan), plan.events);
    PlainMovesInvariant(AfterEvents(s, plan), GoalTimeouts(plan.goals));
  }

  lemma DuePlacesAreDue(subs: map<string, Subscription>, due: seq<(string, Connection)>, now: nat)
    requires Lists(due, DuePlaces(subs, now))
    ensures DeliverFits(subs, due, now)
  {
    forall i | 0 <= i < |due| ensures IsDue(subs, due[i], now) {
      assert due[i] in due && due[i] in DuePlaces(subs, now);
    }
  }

  /**
   A tick gives every client that is due once the reports are handled the oldest message of its queue,
   and takes it off; the rest of the tick leaves the queues alone, but for those of clients that go.
   */
  lemma TickDelivers(s: State, plan: Plan, now: nat) returns (said: seq<Sent>)
    requires Invariant(s) && UpkeepPlanned(s, plan, now)
    ensures var t := AfterGoals(s, plan);
      && Effects.DeliveredFrom(t.topics.subscriptions, AfterUpkeep(s, plan, now).topics.subscriptions, now)
      && Scripts.DeliverSays(t, plan.due, now, said)
      && Lists(plan.due, DuePlaces(t.topics.subscriptions, now))
      && Scripts.Says(t.desk, AfterDeliveries(s, plan, now).desk, said)
  {
    hide Invariant, Do, DoAll, DeliverFits, DuePlaces, Lists, Effects.DeliveredFrom, Scripts.DeliverSays, Scripts.Says,
      CallTimeouts, RequestTimeouts, GoalTimeouts;
    var t := AfterGoals(s, plan);
    GoalsInvariant(s, plan);
    DuePlacesAreDue(t.topics.subscriptions, plan.due, now);
    Effects.DueArePopped(t, plan.due, now);
    said := Scripts.MoveFollows(t, Deliver(plan.due, now));
    OnePlainMove(t, Deliver(plan.due, now));
    RestKeepsTopics(AfterDeliveries(s, plan, now), plan, now);
  }

  lemma RestKeepsTopics(s: State, plan: Plan, now: nat)
    requires Invariant(s)
    ensures var t := DoAll(DoAll(s, CallTimeouts(plan.calls)), RequestTimeouts(plan.requests));
      Do(Do(t, ForgetResults(now)), TakeFailed).topics == s.topics
  {
    hide Invariant, Do, DoAll;
    MovesKeepTopics(s, CallTimeouts(plan.calls));
    var s1 := DoAll(s, CallTimeouts(plan.calls));
    MovesKeepTopics(s1, RequestTimeouts(plan.requests));
    var s2 := DoAll(s1, RequestTimeouts(plan.requests));
    MoveKeepsTopics(s2, ForgetResults(now));
    MoveKeepsTopics(Do(s2, ForgetResults(now)), TakeFailed);
  }

  // ---------- results ----------

  /** After a tick no result is a minute old; the tick forgets no other. */
  lemma TickForgets(s: State, plan: Plan, now: nat)
    ensures var a, b := AfterRequests(s, plan, now).servers.serverGoals, AfterUpkeep(s, plan, now).servers.serverGoals;
      && (forall k :: k in b <==> k in a && (a[k].completed.Some? ==> now - a[k].completed.value < 60000))
      && forall k :: k in b ==> b[k] == a[k]
  {
    hide AfterRequests;
    Effects.ResultsAreForgotten(AfterRequests(s, plan, now), now);
  }

  // ---------- ticks as runs ----------

  function Ones(moves: seq<Move>): seq<Step> {
    seq(|moves|, i requires 0 <= i < |moves| => One(moves[i]))
  }

  function Gones(gone: seq<(Connection, Leaving.Leave)>): seq<Step> {
    seq(|gone|, i requires 0 <= i < |gone| => Gone(gone[i].0, gone[i].1))
  }

  lemma {:induction false} RunConcat(s: State, a: seq<Step>, b: seq<Step>)
    ensures Run(s, a + b) == Run(Run(s, a), b)
    decreases |b|
  {
    hide Take;
    if b == [] {
      assert a + b == a;
    } else {
      var n := |b| - 1;
      RunConcat(s, a, b[..n]);
      assert (a + b)[..|a + b| - 1] == a + b[..n];
    }
  }

  lemma {:induction false} MovesRun(s: State, moves: seq<Move>)
    requires forall m :: m in moves ==> Owners.Plain(m)
    ensures Run(s, Ones(moves)) == DoAll(s, moves)
    decreases |moves|
  {
    hide Do;
    if moves != [] {
      var n := |moves| - 1;
      MovesRun(s, moves[..n]);
      assert Ones(moves)[..n] == Ones(moves[..n]);
      assert Owners.Plain(moves[n]);
    }
  }

  lemma {:induction false} DisconnectsRun(s: State, gone: seq<(Connection, Leaving.Leave)>)
    ensures Run(s, Gones(gone)) == DisconnectAll(s, gone)
    decreases |gone|
  {
    hide Take;
    if gone != [] {
      var n := |gone| - 1;
      DisconnectsRun(s, gone[..n]);
      assert Gones(gone)[..n] == Gones(gone[..n]);
    }
  }

  function TickMoves(plan: Plan, now: nat): seq<Move> {
    [Poll(plan.taken, plan.next)] + plan.events + GoalTimeouts(plan.goals) + [Deliver(plan.due, now)]
    + CallTimeouts(plan.calls) + RequestTimeouts(plan.requests) + [ForgetResults(now), TakeFailed]
  }

  lemma OneMove(s: State, m: Move)
    ensures DoAll(s, [m]) == Do(s, m)
  {
    hide Do;
    assert [m][..0] == [];
  }

  lemma TwoMoves(s: State, m: Move, n: Move)
    ensures DoAll(s, [m, n]) == Do(Do(s, m), n)
  {
    hide Do;
    OneMove(s, m);
    assert [m, n][..1] == [m];
  }

  lemma UpkeepIsMoves(s: State, plan: Plan, now: nat)
    ensures AfterUpkeep(s, plan, now) == DoAll(s, TickMoves(plan, now))
  {
    hide Do, DoAll, GoalTimeouts, CallTimeouts, RequestTimeouts;
    var a := [Poll(plan.taken, plan.next)];
    OneMove(s, a[0]);
    Leaving.DoAllConcat(s, a, plan.events);
    var b := a + plan.events;
    Leaving.DoAllConcat(s, b, GoalTimeouts(plan.goals));
    var c := b + GoalTimeouts(plan.goals);
    Leaving.DoAllConcat(s, c, [Deliver(plan.due, now)]);
    OneMove(AfterGoals(s, plan), Deliver(plan.due, now));
    var d := c + [Deliver(plan.due, now)];
    Leaving.DoAllConcat(s, d, CallTimeouts(plan.calls));
    var e := d + CallTimeouts(plan.calls);
    Leaving.DoAllConcat(s, e, RequestTimeouts(plan.requests));
    var f := e + RequestTimeouts(plan.requests);
    Leaving.DoAllConcat(s, f, [ForgetResults(now), TakeFailed]);
    TwoMoves(AfterRequests(s, plan, now), ForgetResults(now), TakeFailed);
  }

  /** A tick is a run, so what holds of every run holds across ticks. */
  lemma TickIsRun(s: State, plan: Plan, now: nat)
    requires forall m :: m in plan.events ==> IsEvent(m)
    ensures Tick(s, plan, now) == Run(s, Ones(TickMoves(plan, now)) + Gones(plan.gone))
  {
    hide DoAll, Run, AfterUpkeep, DisconnectAll, Ones, Gones, GoalTimeouts, CallTimeouts, RequestTimeouts;
    PlainTick(plan, now);
    UpkeepIsMoves(s, plan, now);
    MovesRun(s, TickMoves(plan, now));
    RunConcat(s, Ones(TickMoves(plan, now)), Gones(plan.gone));
    DisconnectsRun(AfterUpkeep(s, plan, now), plan.gone);
  }

  lemma PlainTick(plan: Plan, now: nat)
    requires forall m :: m in plan.events ==> IsEvent(m)
    ensures forall m :: m in TickMoves(plan, now) ==> Owners.Plain(m)
  {
  }

  // ---------- who is connected ----------

  /** The step that last concerned the client's connection was its connect, or there was none and it was connected. */
  ghost predicate Online(s: State, steps: seq<Step>, o: Connection) {
    if steps == [] then o in s.desk.outputs
    else
      var n := |steps| - 1;
      match steps[n]
      case One(m) => m == Connect(o) || Online(s, steps[..n], o)
      case Gone(c, l) => !(c == o && Leaving.LeaveFits(Run(s, steps[..n]), c, l)) && Online(s, steps[..n], o)
  }

  lemma MoveKeepsOutputs(s: State, m: Move)
    requires Invariant(s) && Owners.Plain(m) && !m.Connect?
    ensures Do(s, m).desk.outputs == s.desk.outputs
  {
    hide Invariant, Do;
    InvariantIsValid(s);
    if Upkeeping(m) { UpkeepingKeepsOutputs(s, m); } else { Frames.DoFrame(s, m); }
  }

  lemma ConnectingIs(s: State, o: Connection)
    ensures Do(s, Connect(o)).desk.outputs == s.desk.outputs + {o}
  {
  }

  lemma LeavingOutputs(s: State, t: State, o: Connection)
    requires Leaving.Left(s, t, o)
    ensures t.desk.outputs == s.desk.outputs - {o}
  {
  }

  /** In every run a client is connected exactly if it connected and was not disconnected since. */
  lemma {:induction false} ConnectedIff(s: State, steps: seq<Step>, o: Connection)
    requires Invariant(s)
    ensures o in Run(s, steps).desk.outputs <==> Online(s, steps, o)
    decreases |steps|
  {
    hide Invariant, Do, Leaving.Disconnect, Leaving.LeaveFits, Leaving.Left;
    if steps != [] {
      var n := |steps| - 1;
      var t := Run(s, steps[..n]);
      ConnectedIff(s, steps[..n], o);
      RunsInvariant(s, steps[..n]);
      match steps[n]
      case One(m) =>
        if m.Connect? { ConnectingIs(t, m.owner); } else if Owners.Plain(m) { MoveKeepsOutputs(t, m); }
      case Gone(c, l) =>
        if Leaving.LeaveFits(t, c, l) {
          DisconnectInvariant(t, c, l);
          LeavingOutputs(t, Leaving.Disconnect(t, c, l), c);
        }
    }
  }
}

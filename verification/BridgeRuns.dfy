/** All the bridge's invariants, over every run of commands, events, timeouts and disconnects (src/bridge). */
module BridgeRuns {
  import opened Basics
  import opened Backend
  import opened BridgeState
  import opened BridgeActions
  import opened BridgeMoves
  import opened BridgeLeaving
  import Own = BridgeOwnership
  import Tracks = BridgeClientGoals
  import Replies = BridgeReplies
  import Goals = BridgeServerGoals
  import Requests = BridgeRequests
  import Owners = BridgeOwners
  import Frames = BridgeFrames

  /** What a run consists of: moves outside a disconnect, and whole disconnects. */
  datatype Step = One(move: Move) | Gone(owner: Connection, leave: Leave)

  ghost function Take(s: State, step: Step): State {
    match step
    case One(m) => if Owners.Plain(m) then Do(s, m) else s
    case Gone(o, l) => if LeaveFits(s, o, l) then Disconnect(s, o, l) else s
  }

  ghost function Run(s: State, steps: seq<Step>): State {
    if steps == [] then s else Take(Run(s, steps[..|steps| - 1]), steps[|steps| - 1])
  }

  /** Everything that holds even in the middle of a disconnect. */
  ghost predicate Consistent(s: State) {
    && Own.Owned(s)
    && Tracks.Tracked(s.actions, s.ros.nextSequence)
    && Goals.Sound(s.servers) && Goals.Numbered(s.servers.serverGoals, s.desk.next)
    && Requests.Complete(s)
    && Replies.KnownRecords(s) && Replies.AnsweredOnce(s)
  }

  ghost predicate Invariant(s: State) {
    Consistent(s) && Owners.Connected(s)
  }

  lemma InitiallyInvariant(ros: Ros, timeout: nat, accepts: nat -> bool)
    requires ros.live == {} && ros.requests == {}
    ensures Invariant(Initial(ros, timeout, accepts))
  {
    var s := Initial(ros, timeout, accepts);
    assert Own.Owned(s) by { assert forall a :: Own.Holder(Own.RecordsOf(s), a).None?; }
    assert Requests.Complete(s) by {
      assert forall c :: Requests.ClaimOf(s.rpc.external, s.servers.serverGoals, c).None?;
    }
  }

  lemma MoveConsistent(s: State, m: Move)
    requires Consistent(s)
    ensures Consistent(Do(s, m))
  {
    assert s.ros.Valid() && Own.IssuedGoals(s);
    hide Do, Own.Partition, Tracks.Tracked, Goals.Sound, Goals.Numbered, Requests.Complete, Replies.KnownRecords,
      Replies.AnsweredOnce,
         Replies.Faithful, Ros.Valid, Own.IssuedGoals;
    Own.MoveOwned(s, m);
    Tracks.MoveTracked(s, m);
    Goals.MoveSound(s, m);
    Goals.MoveNumbered(s, m);
    Requests.MoveComplete(s, m);
    Replies.MoveFaithful(s, m);
    Replies.StepAnsweredOnce(s, Do(s, m));
  }

  lemma {:induction false} MovesConsistent(s: State, moves: seq<Move>)
    requires Consistent(s)
    ensures Consistent(DoAll(s, moves))
    decreases |moves|
  {
    hide Do, Consistent;
    if moves != [] {
      MovesConsistent(s, moves[..|moves| - 1]);
      MoveConsistent(DoAll(s, moves[..|moves| - 1]), moves[|moves| - 1]);
    }
  }

  /** No two services share an entity. */
  lemma ServicesAreApart(s: State)
    requires Own.Owned(s)
    ensures OneServicePerEntity(s.rpc.services)
  {
    forall m, n | m in s.rpc.services && n in s.rpc.services && s.rpc.services[m].entity == s.rpc.services[n].entity
      ensures m == n
    {
      assert Own.Holder(Own.RecordsOf(s), Own.OfService(m)) == Own.Holder(Own.RecordsOf(s), Own.OfService(n));
    }
  }

  /** A disconnect takes out exactly the client, and keeps every invariant. */
  lemma DisconnectInvariant(s: State, o: Connection, l: Leave)
    requires Invariant(s) && LeaveFits(s, o, l)
    ensures var t := Disconnect(s, o, l); Invariant(t) && Left(s, t, o) && Owners.OwnedBy(t, s.desk.outputs - {o})
  {
    ServicesAreApart(s);
    assert Requests.Filed(s.rpc);
    hide Consistent, Owners.Connected, Owners.OwnedBy, Left, OneServicePerEntity, Requests.Filed, LeaveMoves,
      LeaveFits;
    MovesConsistent(s, LeaveMoves(o, l));
    DisconnectLeavesTheRest(s, o, l);
    Owners.LeftConnected(s, Disconnect(s, o, l), o);
  }

  lemma StepInvariant(s: State, step: Step)
    requires Invariant(s)
    ensures Invariant(Take(s, step))
  {
    assert s.ros.Valid();
    hide Consistent, Owners.Connected, Do, Disconnect, LeaveFits;
    match step
    case One(m) =>
      MoveConsistent(s, m);
      if Owners.Plain(m) { Owners.MoveConnected(s, m); }
    case Gone(o, l) =>
      if LeaveFits(s, o, l) { DisconnectInvariant(s, o, l); }
  }

  /** Whatever clients and ROS do, in whatever order, the bridge stays as it should. */
  lemma {:induction false} RunsInvariant(s: State, steps: seq<Step>)
    requires Invariant(s)
    ensures Invariant(Run(s, steps))
    decreases |steps|
  {
    hide Invariant, Take;
    if steps != [] {
      RunsInvariant(s, steps[..|steps| - 1]);
      StepInvariant(Run(s, steps[..|steps| - 1]), steps[|steps| - 1]);
    }
  }
}

/** Why clients are told what they are told: the cause of every message, over every run (src/bridge). */
module BridgeCauses {
  import opened Basics
  import opened Backend
  import opened BridgeState
  import opened BridgeActions
  import opened BridgeMoves
  import opened BridgeShapes
  import opened BridgeRuns
  import opened BridgeScripts
  import Effects = BridgeEffects
  import Frames = BridgeFrames
  import Leaving = BridgeLeaving
  import Own = BridgeOwnership
  import Owners = BridgeOwners
  import Success = BridgeSuccess
  import Topic = BridgeTopics

  // ---------- the end of a call ----------

  /** The call is over: it and its entity are gone, its caller is told this once, and nothing else is different. */
  ghost predicate CallEnded(s: State, t: State, ticket: Ticket, success: bool)
    requires ticket in s.rpc.calls
  {
    var c := s.rpc.calls[ticket];
    && t == s.(desk := t.desk, rpc := s.rpc.(calls := t.rpc.calls), ros := t.ros)
    && (forall k :: k in t.rpc.calls <==> k in s.rpc.calls && k != ticket)
    && (forall k :: k in t.rpc.calls ==> t.rpc.calls[k] == s.rpc.calls[k])
    && (forall e :: e in t.ros.live <==> e in s.ros.live && e != ticket.0)
    && t.ros == s.ros.(live := t.ros.live, requests := t.ros.requests)
    && Says(s.desk, t.desk, [Sent(c.owner, ServiceReply(ticket, c.service, c.id, success))])
    && (c.owner in s.desk.outputs && c.owner !in s.desk.failed ==>
          t.desk.wire.sent == s.desk.wire.sent + [Sent(c.owner, ServiceReply(ticket, c.service, c.id, success))])
  }

  /** The answer to a call ends it successfully; the end of its time ends it without success. */
  lemma AnswersSucceed(s: State, ticket: Ticket, answer: Answer)
    requires ticket in s.rpc.calls
    ensures CallEnded(s, Do(s, Learn(ticket, answer)), ticket, true)
    ensures CallEnded(s, Do(s, CallTimeout(ticket)), ticket, false)
  {
    var c := s.rpc.calls[ticket];
    SaysOne(s.desk, c.owner, ServiceReply(ticket, c.service, c.id, true));
    SaysOne(s.desk, c.owner, ServiceReply(ticket, c.service, c.id, false));
    hide Says;
  }

  // ---------- a new goal for an action server ----------

  /**
   A submission that can be answered, under a UUID not seen before, is one goal more and one notice of it to the
   server's owner, under the goal's id; any other changes no goal and is not spoken of. Either way it is over.
   */
  lemma SubmissionsAreAnnounced(s: State, e: Entity, request: nat, asked: Asked, now: nat, a: string)
    requires Invariant(s) && Fits(s, Serve(e, request, asked, now)) && ServesPart(s, e, a, Send)
    ensures var t := Do(s, Serve(e, request, asked, now));
      && Effects.Submitted(s, t, a, asked.uuid, asked.stamp, (e, request))
      && var isNew := asked.uuid.Some? && (a, asked.uuid.value) !in s.servers.serverGoals && s.ros.AllSucceed(1);
      && (isNew ==> var g := t.servers.serverGoals[(a, asked.uuid.value)];
                   Says(s.desk, t.desk, [Sent(s.servers.actionServers[a].owner, GoalRequest(g.id, a))]))
      && (!isNew ==> Says(s.desk, t.desk, []) && t.servers == s.servers)
  {
    Effects.ActionRequestDone(s, e, request, asked, now, a, Send);
    PartServed(s, e, request, asked, now, a, Send);
    ServingIs(s, e, request, asked, now);
    hide Invariant, Do, Says, Fits, OnRequest, ServeSays;
  }

  lemma ServingIs(s: State, e: Entity, request: nat, asked: Asked, now: nat)
    requires Fits(s, Serve(e, request, asked, now))
    ensures Do(s, Serve(e, request, asked, now)) == OnRequest(s, e, request, asked, now)
  {
    hide OnRequest, NoticesFit;
  }

  // ---------- causes ----------

  /** The move happens in this state and has this to say. */
  ghost predicate Causes(s: State, m: Move, x: Sent) {
    Fits(s, m) && Owners.Plain(m) && exists said :: Script(s, m, said) && x in said
  }

  lemma {:induction false} SentWasSaid(d: Desk, messages: seq<Sent>, i: nat)
    requires |d.wire.sent| <= i < |PostAll(d, messages).wire.sent|
    ensures PostAll(d, messages).wire.sent[i] in messages
    decreases |messages|
  {
    var n := |messages| - 1;
    var before := PostAll(d, messages[..n]);
    if i < |before.wire.sent| {
      SentWasSaid(d, messages[..n], i);
      assert PostAll(d, messages).wire.sent[i] == before.wire.sent[i];
    }
  }

  lemma {:induction false} SentStays(d: Desk, messages: seq<Sent>)
    ensures d.wire.sent <= PostAll(d, messages).wire.sent
    decreases |messages|
  {
    if messages != [] { SentStays(d, messages[..|messages| - 1]); }
  }

  /** A step keeps what was sent, and has a cause for what it adds; a disconnect adds nothing. */
  lemma StepCauses(s: State, step: Step)
    requires Invariant(s)
    ensures s.desk.wire.sent <= Take(s, step).desk.wire.sent
    ensures forall i :: |s.desk.wire.sent| <= i < |Take(s, step).desk.wire.sent| ==>
      step.One? && Causes(s, step.move, Take(s, step).desk.wire.sent[i])
  {
    hide Invariant, Do, Script, Leaving.Disconnect, Leaving.LeaveFits, Leaving.Left;
    match step
    case One(m) => if Owners.Plain(m) { MoveCauses(s, m); }
    case Gone(o, l) =>
      if Leaving.LeaveFits(s, o, l) {
        DisconnectInvariant(s, o, l);
        LeavingIsSilent(s, Leaving.Disconnect(s, o, l), o);
      }
  }

  lemma LeavingIsSilent(s: State, t: State, o: Connection)
    requires Leaving.Left(s, t, o)
    ensures t.desk.wire == s.desk.wire
  {
  }

  lemma MoveCauses(s: State, m: Move)
    requires Invariant(s) && Owners.Plain(m)
    ensures s.desk.wire.sent <= Do(s, m).desk.wire.sent
    ensures forall i :: |s.desk.wire.sent| <= i < |Do(s, m).desk.wire.sent| ==>
      Causes(s, m, Do(s, m).desk.wire.sent[i])
  {
    if Fits(s, m) && !DeskMove(m) {
      hide Invariant, Do, Script, Fits;
      var said := MoveFollows(s, m);
      SentStays(s.desk, said);
      forall i | |s.desk.wire.sent| <= i < |Do(s, m).desk.wire.sent| ensures Causes(s, m, Do(s, m).desk.wire.sent[i]) {
        SentWasSaid(s.desk, said, i);
      }
    } else {
      DeskMovesAreSilent(s, m);
    }
  }

  lemma DeskMovesAreSilent(s: State, m: Move)
    requires !Fits(s, m) || DeskMove(m)
    ensures Do(s, m).desk.wire == s.desk.wire
  {
  }

  /** The step of a run that put a message on the wire, and what it was. */
  ghost predicate IsCause(s: State, steps: seq<Step>, n: nat, i: nat, x: Sent) {
    && n < |steps| && steps[n].One?
    && |Run(s, steps[..n]).desk.wire.sent| <= i < |Run(s, steps[..n + 1]).desk.wire.sent|
    && Causes(Run(s, steps[..n]), steps[n].move, x)
  }

  lemma PrefixOfPrefix(steps: seq<Step>, n: nat)
    requires n < |steps|
    ensures var before := steps[..|steps| - 1];
      && (n < |before| ==> before[..n] == steps[..n] && before[..n + 1] == steps[..n + 1] && before[n] == steps[n])
      && (n == |before| ==> steps[..n] == before && steps[..n + 1] == steps)
  {
  }

  /** Every message on the wire was put there by one step of the run, which had it to say. */
  lemma {:induction false} MessagesAreCaused(s: State, steps: seq<Step>, i: nat) returns (n: nat)
    requires Invariant(s) && |s.desk.wire.sent| <= i < |Run(s, steps).desk.wire.sent|
    ensures IsCause(s, steps, n, i, Run(s, steps).desk.wire.sent[i])
    decreases |steps|
  {
    var last := |steps| - 1;
    var t := Run(s, steps[..last]);
    hide Invariant, Take, Causes;
    RunsInvariant(s, steps[..last]);
    StepCauses(t, steps[last]);
    if i < |t.desk.wire.sent| {
      n := MessagesAreCaused(s, steps[..last], i);
      PrefixOfPrefix(steps, n);
    } else {
      n := last;
      PrefixOfPrefix(steps, n);
    }
  }

  // ---------- what replies tell ----------

  /** The message is the reply to this open call. */
  ghost predicate RepliesTo(s: State, x: Sent) {
    && x.body.ServiceReply? && x.body.call in s.rpc.calls && var c := s.rpc.calls[x.body.call];
    && x.owner == c.owner && x.body.service == c.service && x.body.id == c.id
  }

  /** A caller is told of success when the answer to its call comes, and of failure when its time is over. */
  ghost predicate TellsOfCall(m: Move, x: Sent) {
    && x.body.ServiceReply?
    && (x.body.success <==> m.Learn? && m.ticket == x.body.call)
    && (!x.body.success <==> m == CallTimeout(x.body.call))
  }

  lemma CallCauses(s: State, m: Move, x: Sent)
    requires Causes(s, m, x) && x.body.ServiceReply?
    ensures RepliesTo(s, x) && TellsOfCall(m, x)
  {
    hide ObeySays, Fits;
    var said :| Script(s, m, said) && x in said;
    match m
    case Obey(owner, c, now) => OthersDoNotReply(s, m, said, x);
    case Hear(_, _, _, _) => OthersDoNotReply(s, m, said, x);
    case Serve(_, _, _, _) => OthersDoNotReply(s, m, said, x);
    case Deliver(_, _) => OthersDoNotReply(s, m, said, x);
    case _ =>
  }

  lemma OthersDoNotReply(s: State, m: Move, said: seq<Sent>, x: Sent)
    requires Script(s, m, said) && x in said && (m.Obey? || m.Hear? || m.Serve? || m.Deliver?)
    ensures !Final(x.body)
  {
    hide Success.CanObey, UniqueName, RequestId;
    match m
    case Obey(owner, c, now) =>
    case Hear(e, message, now, order) =>
      if g :| Topic.FeedbackFor(s, e, g) { } else if t :| Topic.Subscribed(s, e, t) { }
    case Serve(e, request, asked, now) =>
      if a, p :| ServesPart(s, e, a, p) { } else if n :| Serves(s, e, n) { }
    case Deliver(due, now) =>
  }

  /** The message is the final reply to this open goal. */
  ghost predicate EndsGoal(s: State, x: Sent) {
    && x.body.GoalReply? && x.body.goal in s.actions.goals && var g := s.actions.goals[x.body.goal];
    && x.owner == g.owner && x.body.action == g.action && x.body.id == g.id
  }

  /** The goal's result arrives with this status. */
  ghost predicate BringsResult(s: State, m: Move, goal: Uuid, status: int) {
    && m.Learn? && m.ticket in s.actions.actionCalls && s.actions.actionCalls[m.ticket] == ActionCall(Result, goal)
    && status == m.answer.status
  }

  /** The goal is refused, or not answered in time. */
  ghost predicate GivesUp(s: State, m: Move, goal: Uuid) {
    || m == GoalTimeout(goal)
    || (m.Learn? && m.ticket in s.actions.actionCalls && s.actions.actionCalls[m.ticket] == ActionCall(Send, goal)
        && !m.answer.accepted)
  }

  /** A goal's client is told the status its result brought, or that it was aborted. */
  ghost predicate TellsOfGoal(s: State, m: Move, x: Sent)
    requires x.body.GoalReply?
  {
    && (BringsResult(s, m, x.body.goal, x.body.status) || (GivesUp(s, m, x.body.goal) && x.body.status == 6))
    && (x.body.success <==> x.body.status == 4)
  }

  lemma GoalCauses(s: State, m: Move, x: Sent)
    requires Causes(s, m, x) && x.body.GoalReply?
    ensures EndsGoal(s, x) && TellsOfGoal(s, m, x)
  {
    hide ObeySays, Fits;
    var said :| Script(s, m, said) && x in said;
    match m
    case Obey(owner, c, now) => OthersDoNotReply(s, m, said, x);
    case Hear(_, _, _, _) => OthersDoNotReply(s, m, said, x);
    case Serve(_, _, _, _) => OthersDoNotReply(s, m, said, x);
    case Deliver(_, _) => OthersDoNotReply(s, m, said, x);
    case _ =>
  }

  /**
   Over every run: a caller is told of success exactly if the step that told it was the answer to
   that very call, and of failure exactly if it was the end of the call's time.
   */
  lemma CallRepliesTell(s: State, steps: seq<Step>, i: nat) returns (n: nat)
    requires Invariant(s) && |s.desk.wire.sent| <= i < |Run(s, steps).desk.wire.sent|
    requires Run(s, steps).desk.wire.sent[i].body.ServiceReply?
    ensures var x := Run(s, steps).desk.wire.sent[i];
      IsCause(s, steps, n, i, x) && RepliesTo(Run(s, steps[..n]), x) && TellsOfCall(steps[n].move, x)
  {
    hide Invariant, Run, Causes, RepliesTo, TellsOfCall;
    n := MessagesAreCaused(s, steps, i);
    CallCauses(Run(s, steps[..n]), steps[n].move, Run(s, steps).desk.wire.sent[i]);
  }

  /** Over every run: what a client is told at the end of a goal is what ended it. */
  lemma GoalRepliesTell(s: State, steps: seq<Step>, i: nat) returns (n: nat)
    requires Invariant(s) && |s.desk.wire.sent| <= i < |Run(s, steps).desk.wire.sent|
    requires Run(s, steps).desk.wire.sent[i].body.GoalReply?
    ensures var x := Run(s, steps).desk.wire.sent[i];
      IsCause(s, steps, n, i, x) && EndsGoal(Run(s, steps[..n]), x) && TellsOfGoal(Run(s, steps[..n]), steps[n].move, x)
  {
    hide Invariant, Run, Causes, EndsGoal, TellsOfGoal;
    n := MessagesAreCaused(s, steps, i);
    GoalCauses(Run(s, steps[..n]), steps[n].move, Run(s, steps).desk.wire.sent[i]);
  }
}

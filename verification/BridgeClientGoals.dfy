/** The life of a client goal and of its outstanding requests (src/bridge/actions.rs, src/bridge/mod.rs). */
module BridgeClientGoals {
  import opened Basics
  import opened Backend
  import opened BridgeState
  import opened BridgeTopics
  import opened BridgeServices
  import opened BridgeActions
  import opened BridgeMoves
  import opened BridgeShapes
  import opened BridgeFrames

  ghost predicate Outstanding(calls: map<Ticket, ActionCall>, part: Part, goal: Uuid) {
    exists t :: t in calls && calls[t] == ActionCall(part, goal)
  }

  /** Every outstanding request names an active goal and comes from that goal's own client. */
  ghost predicate Named(a: Actions, nextSequence: nat) {
    forall t :: t in a.actionCalls ==> NamedCall(a.goals, t, a.actionCalls[t], nextSequence)
  }

  ghost predicate NamedCall(goals: map<Uuid, ClientGoal>, t: Ticket, c: ActionCall, nextSequence: nat) {
    && c.goal in goals && t.0 == goals[c.goal].five.At(c.part) && t.1 < nextSequence
    && (c.part == Send || c.part == Result || c.part == Cancel)
  }

  /** No request is outstanding twice. */
  ghost predicate Single(calls: map<Ticket, ActionCall>) {
    forall t, u :: t in calls && u in calls && calls[t] == calls[u] ==> t == u
  }

  /**
   A goal waits for its acceptance exactly until it is accepted, then for its result unless
   that could not be requested; a cancellation is in progress only for an accepted goal.
   */
  ghost predicate Awaited(a: Actions) {
    forall g :: g in a.goals ==> AwaitedGoal(a, g)
  }

  ghost predicate AwaitedGoal(a: Actions, g: Uuid)
    requires g in a.goals
  {
    && (Outstanding(a.actionCalls, Send, g) <==> !a.goals[g].accepted)
    && (Outstanding(a.actionCalls, Result, g) <==> a.goals[g].accepted && g !in a.stranded)
    && (Outstanding(a.actionCalls, Cancel, g) ==> a.goals[g].cancelling)
    && (a.goals[g].cancelling || g in a.stranded ==> a.goals[g].accepted)
  }

  /** An id names at most one active goal of a client and an action. */
  ghost predicate OneById(goals: map<Uuid, ClientGoal>) {
    forall g, h :: g in goals && h in goals && SameGoal(goals[h], goals[g].owner, goals[g].action, goals[g].id)
      ==> g == h
  }

  ghost predicate Tracked(a: Actions, nextSequence: nat) {
    && Named(a, nextSequence) && Single(a.actionCalls) && Awaited(a) && OneById(a.goals)
    && a.goals.Keys <= a.issued && a.stranded <= a.goals.Keys
  }

  // ---------- outstanding requests under change ----------

  lemma AddedCall(calls: map<Ticket, ActionCall>, t: Ticket, c: ActionCall)
    requires t !in calls
    ensures forall p, g :: Outstanding(calls[t := c], p, g) <==> Outstanding(calls, p, g) || ActionCall(p, g) == c
    ensures Single(calls) && !Outstanding(calls, c.part, c.goal) ==> Single(calls[t := c])
  {
    var more := calls[t := c];
    forall p, g ensures Outstanding(more, p, g) <==> Outstanding(calls, p, g) || ActionCall(p, g) == c {
      if u :| u in calls && calls[u] == ActionCall(p, g) { assert more[u] == ActionCall(p, g); }
      if ActionCall(p, g) == c { assert more[t] == c; }
    }
    if Single(calls) && !Outstanding(calls, c.part, c.goal) {
      forall u, v | u in more && v in more && more[u] == more[v] ensures u == v {
        assert c == ActionCall(c.part, c.goal);
      }
    }
  }

  lemma RemovedCall(calls: map<Ticket, ActionCall>, t: Ticket)
    requires t in calls && Single(calls)
    ensures forall p, g :: Outstanding(calls - {t}, p, g) <==> Outstanding(calls, p, g) && ActionCall(p, g) != calls[t]
    ensures Single(calls - {t})
  {
    forall p, g ensures Outstanding(calls - {t}, p, g) <==> Outstanding(calls, p, g) && ActionCall(p, g) != calls[t] {
      if u :| u in calls && calls[u] == ActionCall(p, g) && ActionCall(p, g) != calls[t] {
        assert u in calls - {t};
      }
    }
  }

  lemma RemovedGoalCalls(calls: map<Ticket, ActionCall>, goal: Uuid)
    ensures forall p, g :: Outstanding(CallsOfOthers(calls, goal), p, g) <==> Outstanding(calls, p, g) && g != goal
    ensures Single(calls) ==> Single(CallsOfOthers(calls, goal))
  {
    var rest := CallsOfOthers(calls, goal);
    forall p, g ensures Outstanding(rest, p, g) <==> Outstanding(calls, p, g) && g != goal {
      if u :| u in calls && calls[u] == ActionCall(p, g) && g != goal { assert u in rest; }
    }
  }

  // ---------- operations ----------

  ghost function WithGoal(a: Actions, n: nat, uuid: Uuid, g: ClientGoal): Actions {
    a.(goals := a.goals[uuid := g], issued := a.issued + {uuid},
    actionCalls := a.actionCalls[(g.five.send, n) := ActionCall(Send, uuid)])
  }

  lemma NewGoalAwaited(a: Actions, n: nat, uuid: Uuid, g: ClientGoal)
    requires Named(a, n) && Single(a.actionCalls) && Awaited(a) && uuid !in a.goals && a.stranded <= a.goals.Keys
    requires !g.accepted && !g.cancelling
    ensures Awaited(WithGoal(a, n, uuid, g)) && Single(WithGoal(a, n, uuid, g).actionCalls)
  {
    NothingOutstanding(a, n, uuid);
    AddedCall(a.actionCalls, (g.five.send, n), ActionCall(Send, uuid));
    hide Outstanding, Single;
    var b := WithGoal(a, n, uuid, g);
    forall h | h in b.goals ensures AwaitedGoal(b, h) {
      if h != uuid { assert AwaitedGoal(a, h); }
    }
  }

  lemma SendGoalTracked(s: State, owner: Connection, action: string, id: Id, feedback: bool, uuid: Uuid, now: nat)
    requires s.ros.Valid() && Tracked(s.actions, s.ros.nextSequence) && uuid !in s.actions.issued
    ensures var t := SendGoal(s, owner, action, id, feedback, uuid, now).0; Tracked(t.actions, t.ros.nextSequence)
  {
    SendGoalShape(s, owner, action, id, feedback, uuid, now);
    var (t, ok) := SendGoal(s, owner, action, id, feedback, uuid, now);
    hide SendGoal, Outstanding, Single, Five.All, Distinct, OneById, Awaited, GoalActive;
    if ok {
      NewGoalIsOneById(s, owner, action, id, uuid, t.actions.goals[uuid]);
      NewGoalAwaited(s.actions, s.ros.nextSequence, uuid, t.actions.goals[uuid]);
    }
  }

  lemma NewGoalIsOneById(s: State, owner: Connection, action: string, id: Id, uuid: Uuid, g: ClientGoal)
    requires OneById(s.actions.goals) && !GoalActive(s, owner, action, id) && SameGoal(g, owner, action, id)
    ensures OneById(s.actions.goals[uuid := g])
  {
    var goals := s.actions.goals;
    assert forall k :: k in goals ==> !SameGoal(goals[k], owner, action, id);
  }

  lemma NothingOutstanding(a: Actions, nextSequence: nat, goal: Uuid)
    requires Named(a, nextSequence) && goal !in a.goals
    ensures forall p :: !Outstanding(a.actionCalls, p, goal)
  {
    forall p ensures !Outstanding(a.actionCalls, p, goal) {
      assert forall t :: t in a.actionCalls ==> a.actionCalls[t].goal != goal;
    }
  }

  /** A goal changes without losing its identity or its clients. */
  ghost predicate SameRecord(g: ClientGoal, h: ClientGoal) {
    g.owner == h.owner && g.id == h.id && g.action == h.action && g.five == h.five
  }

  lemma KeptOneById(goals: map<Uuid, ClientGoal>, goal: Uuid, h: ClientGoal)
    requires OneById(goals) && goal in goals && SameRecord(goals[goal], h)
    ensures OneById(goals[goal := h])
  {
    var more := goals[goal := h];
    forall a, b | a in more && b in more && SameGoal(more[b], more[a].owner, more[a].action, more[a].id)
      ensures a == b {
      assert SameGoal(goals[b], goals[a].owner, goals[a].action, goals[a].id);
    }
  }

  lemma CancelGoalTracked(s: State, goal: Option<Uuid>)
    requires Tracked(s.actions, s.ros.nextSequence)
    ensures var t := CancelGoal(s, goal).0; Tracked(t.actions, t.ros.nextSequence)
  {
    CancelGoalShape(s, goal);
    var (t, ok) := CancelGoal(s, goal);
    hide CancelGoal, Outstanding, Single, OneById;
    if ok {
      var g := s.actions.goals[goal.value];
      assert AwaitedGoal(s.actions, goal.value);
      AddedCall(s.actions.actionCalls, (g.five.cancel, s.ros.nextSequence), ActionCall(Cancel, goal.value));
      forall h | h in t.actions.goals ensures AwaitedGoal(t.actions, h) {
        assert AwaitedGoal(s.actions, h);
      }
      KeptOneById(s.actions.goals, goal.value, t.actions.goals[goal.value]);
    }
  }

  /** `FinishGoal` may follow the removal of one of the goal's requests, so `Awaited` is asked of the others only. */
  lemma FinishGoalTracked(s: State, goal: Uuid, status: int, success: bool)
    requires Named(s.actions, s.ros.nextSequence) && Single(s.actions.actionCalls) && OneById(s.actions.goals)
    requires s.actions.goals.Keys <= s.actions.issued && s.actions.stranded <= s.actions.goals.Keys
    requires forall g :: g in s.actions.goals && g != goal ==> AwaitedGoal(s.actions, g)
    ensures var t := FinishGoal(s, goal, status, success); Tracked(t.actions, t.ros.nextSequence)
  {
    FinishGoalShape(s, goal, status, success);
    var t := FinishGoal(s, goal, status, success);
    RemovedGoalCalls(s.actions.actionCalls, goal);
    hide FinishGoal, Outstanding, Single, Five.All;
    if goal in s.actions.goals {
      forall g | g in t.actions.goals ensures AwaitedGoal(t.actions, g) {
        assert AwaitedGoal(s.actions, g);
      }
    }
  }

  lemma AcceptGoalTracked(s: State, goal: Uuid)
    requires Named(s.actions, s.ros.nextSequence) && Single(s.actions.actionCalls) && OneById(s.actions.goals)
    requires s.actions.goals.Keys <= s.actions.issued && s.actions.stranded <= s.actions.goals.Keys
    requires forall g :: g in s.actions.goals && g != goal ==> AwaitedGoal(s.actions, g)
    requires goal in s.actions.goals && goal !in s.actions.stranded
    requires forall p :: !Outstanding(s.actions.actionCalls, p, goal)
    requires !s.actions.goals[goal].cancelling
    ensures var t := AcceptGoal(s, goal).0; Tracked(t.actions, t.ros.nextSequence)
  {
    AcceptGoalShape(s, goal);
    var (t, ok) := AcceptGoal(s, goal);
    hide AcceptGoal, Outstanding, Single, OneById, AwaitedGoal;
    var ticket := (s.actions.goals[goal].five.result, s.ros.nextSequence);
    AddedCall(s.actions.actionCalls, ticket, ActionCall(Result, goal));
    KeptOneById(s.actions.goals, goal, t.actions.goals[goal]);
    AcceptedIsAwaited(s.actions, t.actions, goal, ticket);
    if ok { assert NamedCall(t.actions.goals, ticket, ActionCall(Result, goal), t.ros.nextSequence); }
    KeptNamed(s.actions, t.actions, s.ros.nextSequence, t.ros.nextSequence, goal);
    hide Named, NamedCall;
  }

  /** Changing a goal, or asking something more for it, leaves every request named. */
  lemma KeptNamed(a: Actions, b: Actions, n: nat, n': nat, goal: Uuid)
    requires Named(a, n) && n <= n' && goal in a.goals && goal in b.goals && SameRecord(a.goals[goal], b.goals[goal])
    requires b.goals == a.goals[goal := b.goals[goal]]
    requires forall t :: t in b.actionCalls ==>
      (t in a.actionCalls && b.actionCalls[t] == a.actionCalls[t]) || NamedCall(b.goals, t, b.actionCalls[t], n')
    ensures Named(b, n')
  {
    forall t | t in b.actionCalls ensures NamedCall(b.goals, t, b.actionCalls[t], n') {
      if t in a.actionCalls && b.actionCalls[t] == a.actionCalls[t] {
        assert NamedCall(a.goals, t, a.actionCalls[t], n);
      }
    }
  }

  lemma AcceptedIsAwaited(a: Actions, b: Actions, goal: Uuid, ticket: Ticket)
    requires goal in a.goals && goal !in a.stranded && !a.goals[goal].cancelling && ticket !in a.actionCalls
    requires forall g :: g in a.goals && g != goal ==> AwaitedGoal(a, g)
    requires forall p :: !Outstanding(a.actionCalls, p, goal)
    requires b.goals == a.goals[goal := a.goals[goal].(accepted := true)]
    requires (b.actionCalls == a.actionCalls && b.stranded == a.stranded + {goal})
             || (b.actionCalls == a.actionCalls[ticket := ActionCall(Result, goal)] && b.stranded == a.stranded)
    ensures Awaited(b)
  {
    AddedCall(a.actionCalls, ticket, ActionCall(Result, goal));
    hide Outstanding, Single;
    forall g | g in b.goals ensures AwaitedGoal(b, g) {
      if g != goal { assert AwaitedGoal(a, g); }
    }
  }

  lemma CancelAnsweredTracked(s: State, goal: Uuid, returnCode: Option<int>)
    requires Tracked(s.actions, s.ros.nextSequence) && !Outstanding(s.actions.actionCalls, Cancel, goal)
    ensures var t := CancelAnswered(s, goal, returnCode); Tracked(t.actions, t.ros.nextSequence)
  {
    CancelAnsweredShape(s, goal, returnCode);
    var t := CancelAnswered(s, goal, returnCode);
    hide CancelAnswered, Outstanding, Single, OneById;
    if t != s && goal in s.actions.goals {
      KeptOneById(s.actions.goals, goal, t.actions.goals[goal]);
      forall g | g in t.actions.goals ensures AwaitedGoal(t.actions, g) {
        assert AwaitedGoal(s.actions, g);
      }
    }
  }

  lemma ActionResponseTracked(s: State, ticket: Ticket, answer: Answer)
    requires Tracked(s.actions, s.ros.nextSequence) && ticket in s.actions.actionCalls
    ensures var t := ActionResponse(s, ticket, answer).0; Tracked(t.actions, t.ros.nextSequence)
  {
    var call := s.actions.actionCalls[ticket];
    var s1 := s.(actions := s.actions.(actionCalls := s.actions.actionCalls - {ticket}));
    RemovedCall(s.actions.actionCalls, ticket);
    assert Outstanding(s.actions.actionCalls, call.part, call.goal);
    hide Outstanding, Single, OneById, FinishGoal, AcceptGoal, CancelAnswered;
    assert AwaitedGoal(s.actions, call.goal);
    forall g | g in s1.actions.goals && g != call.goal ensures AwaitedGoal(s1.actions, g) {
      assert AwaitedGoal(s.actions, g);
    }
    match call.part
    case Send =>
      FinishGoalTracked(s1, call.goal, 6, false);
      assert forall p :: !Outstanding(s1.actions.actionCalls, p, call.goal) by {
        OnlyThreeParts(s.actions, s.ros.nextSequence, call.goal);
      }
      AcceptGoalTracked(s1, call.goal);
    case Result => FinishGoalTracked(s1, call.goal, answer.status, answer.status == 4);
    case Cancel =>
      assert AwaitedGoal(s1.actions, call.goal);
      CancelAnsweredTracked(s1, call.goal, answer.returnCode);
    case Feedback => assert false;
    case Status => assert false;
  }

  lemma OnlyThreeParts(a: Actions, nextSequence: nat, goal: Uuid)
    requires Named(a, nextSequence)
    ensures forall p :: Outstanding(a.actionCalls, p, goal) ==> p == Send || p == Result || p == Cancel
  {
    forall p | Outstanding(a.actionCalls, p, goal) ensures p == Send || p == Result || p == Cancel {
      var t :| t in a.actionCalls && a.actionCalls[t] == ActionCall(p, goal);
      assert a.actionCalls[t].part == p;
    }
  }

  // ---------- every move ----------

  lemma LaterTracked(a: Actions, n: nat, n': nat)
    requires Tracked(a, n) && n <= n'
    ensures Tracked(a, n')
  {
    hide Single, Awaited, OneById;
    assert forall t :: t in a.actionCalls ==> NamedCall(a.goals, t, a.actionCalls[t], n);
  }

  lemma AbandonGoalTracked(s: State, goal: Uuid)
    requires Tracked(s.actions, s.ros.nextSequence)
    ensures var t := AbandonGoal(s, goal); Tracked(t.actions, t.ros.nextSequence)
  {
    hide Named, Single, Awaited, OneById, FinishGoal;
    if goal in s.actions.goals {
      var g := s.actions.goals[goal];
      var s1 := if g.accepted then s.(ros := s.ros.Request(g.five.cancel, AboutGoal(goal)).0) else s;
      LaterTracked(s.actions, s.ros.nextSequence, s1.ros.nextSequence);
      FinishTracked(s1, goal, 6, false);
    }
  }

  lemma FinishTracked(s: State, goal: Uuid, status: int, success: bool)
    requires Tracked(s.actions, s.ros.nextSequence)
    ensures var t := FinishGoal(s, goal, status, success); Tracked(t.actions, t.ros.nextSequence)
  {
    hide FinishGoal, Named, Single, OneById, AwaitedGoal;
    FinishGoalTracked(s, goal, status, success);
  }

  lemma OperateTracked(s: State, owner: Connection, name: string, op: Operation, now: nat)
    requires s.ros.Valid() && Tracked(s.actions, s.ros.nextSequence) && OperationFits(s, name, op) && TouchesGoals(op)
    ensures var t := Operate(s, owner, name, op, now).0; Tracked(t.actions, t.ros.nextSequence)
  {
    hide SendGoal, CancelGoal, Tracked;
    match op
    case StartGoal(id, feedback, uuid) => SendGoalTracked(s, owner, name, id, feedback, uuid, now);
    case StopGoal(goal) => CancelGoalTracked(s, ActiveGoal(s, owner, name, goal));
  }

  /** In every run, each active goal has exactly the outstanding requests its state calls for. */
  lemma MoveTracked(s: State, m: Move)
    requires s.ros.Valid() && Tracked(s.actions, s.ros.nextSequence)
    ensures var t := Do(s, m); Tracked(t.actions, t.ros.nextSequence)
  {
    hide Tracked, Operate, FinishGoal, ActionResponse, FinishCall, Post, AbandonGoal, Ros.Valid;
    if !MoveTouchesGoals(m) {
      QuietMoveTracked(s, m);
    } else if Fits(s, m) {
      match m
      case Obey(owner, c, now) =>
        if Name(c.name).Some? { OperateTracked(s, owner, Name(c.name).value, c.operation, now); }
      case Learn(ticket, answer) =>
        if ticket in s.rpc.calls { LearnedCallTracked(s, ticket); }
        else if ticket in s.actions.actionCalls { ActionResponseTracked(s, ticket, answer); }
      case GoalTimeout(goal) => FinishTracked(s, goal, 6, false);
      case LeaveGoal(goal) => AbandonGoalTracked(s, goal);
    }
  }

  lemma QuietMoveTracked(s: State, m: Move)
    requires s.ros.Valid() && Tracked(s.actions, s.ros.nextSequence) && !MoveTouchesGoals(m)
    ensures var t := Do(s, m); Tracked(t.actions, t.ros.nextSequence)
  {
    hide Tracked, Do, Chatted, Ros.Valid;
    DoFrame(s, m);
    LaterTracked(s.actions, s.ros.nextSequence, Do(s, m).ros.nextSequence);
  }

  lemma LearnedCallTracked(s: State, ticket: Ticket)
    requires Tracked(s.actions, s.ros.nextSequence) && ticket in s.rpc.calls
    ensures var t := FinishCall(s, ticket, true); Tracked(t.actions, t.ros.nextSequence)
  {
    hide Tracked;
  }
}

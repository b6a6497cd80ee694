/** Every call and every goal gets at most one final reply, to its owner and under its id (src/bridge). */
module BridgeReplies {
  import opened Basics
  import opened Backend
  import opened BridgeState
  import opened BridgeTopics
  import opened BridgeServices
  import opened BridgeActions
  import opened BridgeMoves
  import opened BridgeShapes
  import opened BridgeFrames

  /** The message closes a record that was there before and is not there any more. */
  ghost predicate Closes(s: State, t: State, m: Sent) {
    match m.body
    case ServiceReply(call, service, id, success) =>
      call in s.rpc.calls && call !in t.rpc.calls && var c := s.rpc.calls[call];
      m.owner == c.owner && service == c.service && id == c.id
    case GoalReply(goal, action, id, status, success) =>
      goal in s.actions.goals && goal !in t.actions.goals && var g := s.actions.goals[goal];
      m.owner == g.owner && action == g.action && id == g.id
    case _ => true
  }

  /** At most one final reply is sent, and it closes a record; anything else sent is not final. */
  ghost predicate RepliesOnce(s: State, t: State) {
    || NoReply(s.desk.wire, t.desk.wire)
    || (|t.desk.wire.sent| > 0
        && var m := t.desk.wire.sent[|t.desk.wire.sent| - 1];
        t.desk.wire == s.desk.wire.(sent := s.desk.wire.sent + [m]) && Closes(s, t, m))
  }

  /** Open calls keep everything, open goals keep owner, id and action. */
  ghost predicate KeepsOpen(s: State, t: State) {
    && (forall k :: k in s.rpc.calls && k in t.rpc.calls ==> t.rpc.calls[k] == s.rpc.calls[k])
    && forall g :: g in s.actions.goals && g in t.actions.goals ==>
         SameGoal(t.actions.goals[g], s.actions.goals[g].owner, s.actions.goals[g].action, s.actions.goals[g].id)
  }

  /** A new call has a client never used before, a new goal a UUID never used before. */
  ghost predicate OpensFresh(s: State, t: State) {
    && (forall k :: k in t.rpc.calls && k !in s.rpc.calls ==> s.ros.nextEntity <= k.0 < t.ros.nextEntity)
    && (forall g :: g in t.actions.goals && g !in s.actions.goals ==> g !in s.actions.issued && g in t.actions.issued)
    && s.actions.issued <= t.actions.issued && s.ros.nextEntity <= t.ros.nextEntity
  }

  ghost predicate Faithful(s: State, t: State) {
    RepliesOnce(s, t) && KeepsOpen(s, t) && OpensFresh(s, t)
  }

  /** Open calls have clients already created, open goals UUIDs already issued. */
  ghost predicate KnownRecords(s: State) {
    && (forall k :: k in s.rpc.calls ==> k.0 < s.ros.nextEntity)
    && s.actions.goals.Keys <= s.actions.issued
  }

  // ---------- the operations that open or close something ----------

  lemma NothingOpenedOrClosed(s: State, t: State)
    requires t.rpc.calls == s.rpc.calls && t.actions == s.actions
    requires NoReply(s.desk.wire, t.desk.wire) && s.ros.nextEntity <= t.ros.nextEntity
    ensures Faithful(s, t)
  {
  }

  lemma FinishCallFaithful(s: State, ticket: Ticket, success: bool)
    requires ticket in s.rpc.calls
    ensures Faithful(s, FinishCall(s, ticket, success))
  {
    var c := s.rpc.calls[ticket];
    PostShape(s.desk, c.owner, ServiceReply(ticket, c.service, c.id, success));
    hide Post;
  }

  lemma FinishGoalFaithful(s: State, goal: Uuid, status: int, success: bool)
    ensures Faithful(s, FinishGoal(s, goal, status, success))
  {
    FinishGoalShape(s, goal, status, success);
    hide FinishGoal, Post, Five.All;
    if goal in s.actions.goals {
      var g := s.actions.goals[goal];
      PostShape(s.desk, g.owner, GoalReply(goal, g.action, g.id, status, success));
    }
  }

  /** Only outstanding requests or backend calls differ before the step. */
  lemma FaithfulFrom(s: State, s1: State, t: State)
    requires Faithful(s1, t) && s1.rpc == s.rpc && s1.desk == s.desk && s1.ros.nextEntity == s.ros.nextEntity
    requires s1.actions.goals == s.actions.goals && s1.actions.issued == s.actions.issued
    ensures Faithful(s, t)
  {
    hide NoReply;
  }

  lemma GoalKeptFaithful(s: State, t: State, goal: Uuid)
    requires goal in s.actions.goals && goal in t.actions.goals && t.rpc == s.rpc && Chatted(s.desk, t.desk)
    requires t.actions.goals == s.actions.goals[goal := t.actions.goals[goal]] && t.actions.issued == s.actions.issued
    requires SameGoal(t.actions.goals[goal], s.actions.goals[goal].owner, s.actions.goals[goal].action,
                      s.actions.goals[goal].id)
    requires s.ros.nextEntity <= t.ros.nextEntity
    ensures Faithful(s, t)
  {
    hide NoReply;
  }

  lemma AnswerFaithful(s: State, goal: Uuid, answer: Answer)
    ensures Faithful(s, CancelAnswered(s, goal, answer.returnCode))
    ensures goal in s.actions.goals ==> Faithful(s, AcceptGoal(s, goal).0)
  {
    hide Faithful, CancelAnswered, AcceptGoal;
    ChattedSelf(s.desk);
    CancelAnsweredShape(s, goal, answer.returnCode);
    var t := CancelAnswered(s, goal, answer.returnCode);
    if t == s { NothingOpenedOrClosed(s, s); } else { GoalKeptFaithful(s, t, goal); }
    if goal in s.actions.goals {
      AcceptGoalShape(s, goal);
      GoalKeptFaithful(s, AcceptGoal(s, goal).0, goal);
    }
  }

  lemma ActionResponseFaithful(s: State, ticket: Ticket, answer: Answer)
    requires ticket in s.actions.actionCalls
    ensures Faithful(s, ActionResponse(s, ticket, answer).0)
  {
    hide Faithful, FinishGoal, AcceptGoal, CancelAnswered;
    ChattedSelf(s.desk);
    var goal := s.actions.actionCalls[ticket].goal;
    var s1 := s.(actions := s.actions.(actionCalls := s.actions.actionCalls - {ticket}));
    FinishGoalFaithful(s1, goal, 6, false);
    FinishGoalFaithful(s1, goal, answer.status, answer.status == 4);
    AnswerFaithful(s1, goal, answer);
    NothingOpenedOrClosed(s1, s1);
    FaithfulFrom(s, s1, ActionResponse(s, ticket, answer).0);
  }

  lemma CallServiceFaithful(s: State, owner: Connection, id: Id, service: string, declared: Declared,
                            known: Option<seq<string>>, permitted: bool, timeout: Timeout, now: nat)
    requires s.ros.Valid() && KnownRecords(s)
    ensures Faithful(s, CallService(s, owner, id, service, declared, known, permitted, timeout, now).0)
  {
    CallServiceShape(s, owner, id, service, declared, known, permitted, timeout, now);
    ChattedSelf(s.desk);
    hide CallService, NoReply;
    assert s.ros.nextEntity in {s.ros.nextEntity};
  }

  lemma SendGoalFaithful(s: State, owner: Connection, action: string, id: Id, feedback: bool, uuid: Uuid, now: nat)
    requires s.ros.Valid() && KnownRecords(s) && uuid !in s.actions.issued
    ensures Faithful(s, SendGoal(s, owner, action, id, feedback, uuid, now).0)
  {
    SendGoalShape(s, owner, action, id, feedback, uuid, now);
    ChattedSelf(s.desk);
    hide SendGoal, Five.All, GoalActive, Distinct, NoReply;
  }

  lemma CancelGoalFaithful(s: State, goal: Option<Uuid>)
    ensures Faithful(s, CancelGoal(s, goal).0)
  {
    CancelGoalShape(s, goal);
    ChattedSelf(s.desk);
    hide CancelGoal, NoReply;
  }

  lemma OperateFaithful(s: State, owner: Connection, name: string, op: Operation, now: nat)
    requires s.ros.Valid() && KnownRecords(s) && OperationFits(s, name, op)
    ensures Faithful(s, Operate(s, owner, name, op, now).0)
    ensures NoReply(s.desk.wire, Operate(s, owner, name, op, now).0.desk.wire)
  {
    OperateFrame(s, owner, name, op, now);
    hide SendGoal, CancelGoal, CallService, NoReply, Faithful;
    if TouchesGoals(op) || op.CallRemote? {
      match op
      case StartGoal(id, feedback, uuid) => SendGoalFaithful(s, owner, name, id, feedback, uuid, now);
      case StopGoal(goal) => CancelGoalFaithful(s, ActiveGoal(s, owner, name, goal));
      case CallRemote(id, declared, known, permitted, timeout) =>
        CallServiceFaithful(s, owner, id, name, declared, known, permitted, timeout, now);
    } else {
      hide Operate;
      NothingOpenedOrClosed(s, Operate(s, owner, name, op, now).0);
    }
  }

  lemma NoReplyTransitive(a: Wire, b: Wire, c: Wire)
    requires NoReply(a, b) && NoReply(b, c)
    ensures NoReply(a, c)
  {
    forall i | |a.sent| <= i < |c.sent| ensures !Final(c.sent[i].body) {
      assert i < |b.sent| ==> c.sent[i] == b.sent[i];
    }
  }

  lemma ObeyFaithful(s: State, owner: Connection, c: Command, now: nat)
    requires s.ros.Valid() && KnownRecords(s) && Fits(s, Obey(owner, c, now))
    ensures Faithful(s, OnCommand(s, owner, c, now))
  {
    hide Operate, NoReply, Post;
    if c.Command? && Name(c.name).Some? {
      OperateFaithful(s, owner, Name(c.name).value, c.operation, now);
    }
    var t := Execute(s, owner, c, now).0;
    ChattedSelf(s.desk);
    assert NoReply(s.desk.wire, t.desk.wire) && Faithful(s, t);
    PostShape(t.desk, owner, Failure(c.id));
    NoReplyTransitive(s.desk.wire, t.desk.wire, Post(t.desk, owner, Failure(c.id)).wire);
  }

  lemma AbandonGoalFaithful(s: State, goal: Uuid)
    ensures Faithful(s, AbandonGoal(s, goal))
  {
    hide FinishGoal;
    FinishGoalFaithful(s, goal, 6, false);
    if goal in s.actions.goals {
      FinishGoalFaithful(s.(ros := s.ros.Request(s.actions.goals[goal].five.cancel, AboutGoal(goal)).0), goal, 6, false);
    }
  }

  /** Whatever happens, a final reply closes an open record under its own owner and id. */
  lemma MoveFaithful(s: State, m: Move)
    requires s.ros.Valid() && KnownRecords(s)
    ensures Faithful(s, Do(s, m))
  {
    hide Faithful, OnCommand, FinishGoal, ActionResponse, FinishCall, AbandonGoal, DropCall, NoReply, Ros.Valid,
      KnownRecords;
    ChattedSelf(s.desk);
    if !MoveTouchesGoals(m) && !MoveTouchesCalls(m) {
      QuietMoveFaithful(s, m);
    } else if Fits(s, m) {
      match m
      case Obey(owner, c, now) => ObeyFaithful(s, owner, c, now);
      case Learn(ticket, answer) =>
        if ticket in s.rpc.calls { FinishCallFaithful(s, ticket, true); }
        else if ticket in s.actions.actionCalls { ActionResponseFaithful(s, ticket, answer); }
        else { NothingOpenedOrClosed(s, s); }
      case GoalTimeout(goal) => FinishGoalFaithful(s, goal, 6, false);
      case CallTimeout(ticket) =>
        if ticket in s.rpc.calls { FinishCallFaithful(s, ticket, false); } else { NothingOpenedOrClosed(s, s); }
      case LeaveGoal(goal) => AbandonGoalFaithful(s, goal);
      case LeaveCall(ticket) => LeaveCallFaithful(s, ticket);
    } else {
      assert Do(s, m) == s;
      NothingOpenedOrClosed(s, s);
    }
  }

  lemma QuietMoveFaithful(s: State, m: Move)
    requires s.ros.Valid() && !MoveTouchesGoals(m) && !MoveTouchesCalls(m)
    ensures Faithful(s, Do(s, m))
  {
    hide Faithful, Do, NoReply, Ros.Valid;
    DoFrame(s, m);
    ChattedSelf(s.desk);
    if m.Connect? || m.Depart? || m.TakeFailed? { DeskOnly(s, m); }
    NothingOpenedOrClosed(s, Do(s, m));
  }

  lemma DeskOnly(s: State, m: Move)
    requires m.Connect? || m.Depart? || m.TakeFailed?
    ensures Do(s, m).desk.wire == s.desk.wire
  {
  }

  lemma LeaveCallFaithful(s: State, ticket: Ticket)
    ensures Faithful(s, DropCall(s, ticket))
  {
  }

  // ---------- over runs ----------

  /** What a final reply is the reply to. */
  datatype Record = OfCall(call: Ticket) | OfGoal(goal: Uuid)

  function Replied(body: Body): Option<Record> {
    match body
    case ServiceReply(call, _, _, _) => Some(OfCall(call))
    case GoalReply(goal, _, _, _, _) => Some(OfGoal(goal))
    case _ => None
  }

  /** A record that is open, or could still be opened. */
  ghost predicate Pending(s: State, r: Record) {
    match r
    case OfCall(call) => call in s.rpc.calls || call.0 >= s.ros.nextEntity
    case OfGoal(goal) => goal in s.actions.goals || goal !in s.actions.issued
  }

  ghost predicate AnsweredOnce(s: State) {
    && (forall i, j :: 0 <= i < j < |s.desk.wire.sent| && Final(s.desk.wire.sent[i].body) ==>
          Replied(s.desk.wire.sent[i].body) != Replied(s.desk.wire.sent[j].body))
    && (forall i :: 0 <= i < |s.desk.wire.sent| && Final(s.desk.wire.sent[i].body) ==>
          !Pending(s, Replied(s.desk.wire.sent[i].body).value))
  }

  lemma StillSettled(s: State, t: State, r: Record)
    requires !Pending(s, r) && OpensFresh(s, t)
    ensures !Pending(t, r)
  {
  }

  lemma StepAnsweredOnce(s: State, t: State)
    requires AnsweredOnce(s) && KnownRecords(s) && Faithful(s, t)
    ensures AnsweredOnce(t) && KnownRecords(t)
  {
    var old_, new_ := s.desk.wire.sent, t.desk.wire.sent;
    assert old_ <= new_;
    forall i | 0 <= i < |new_| && Final(new_[i].body) ensures !Pending(t, Replied(new_[i].body).value) {
      if i < |old_| {
        assert new_[i] == old_[i];
        StillSettled(s, t, Replied(old_[i].body).value);
      } else {
        ClosedIsSettled(s, t, new_[i]);
      }
    }
    forall i, j | 0 <= i < j < |new_| && Final(new_[i].body) ensures Replied(new_[i].body) != Replied(new_[j].body) {
      assert i < |old_| && new_[i] == old_[i];
      if j < |old_| {
        assert new_[j] == old_[j];
      } else if Final(new_[j].body) {
        assert Pending(s, Replied(new_[j].body).value);
      }
    }
  }

  lemma ClosedIsSettled(s: State, t: State, m: Sent)
    requires Final(m.body) && Closes(s, t, m) && KnownRecords(s) && OpensFresh(s, t)
    ensures !Pending(t, Replied(m.body).value)
  {
  }
}

/** The periodic tick, its deadlines, and the shutdown (src/bridge/mod.rs). */
module BridgeTicks {
  import opened Basics
  import opened Backend
  import opened BridgeState
  import opened BridgeTopics
  import opened BridgeServices
  import opened BridgeActions
  import opened BridgeMoves
  import opened BridgeLeaving
  import opened BridgeRuns
  import Delivery
  import Own = BridgeOwnership
  import Goals = BridgeServerGoals
  import Requests = BridgeRequests
  import Owners = BridgeOwners
  import Frames = BridgeFrames
  import Shapes = BridgeShapes

  // ---------- how long to wait ----------

  const MAX_WAIT: nat := 100

  function Until(deadline: nat, now: nat): nat {
    if deadline > now then deadline - now else 0
  }

  /** When the oldest queued message of a client is due. */
  ghost function DueIn(c: Delivery.Client, now: nat): nat {
    if c.last.None? then 0 else Until(c.Options().throttle, Delivery.Since(now, c.last.value))
  }

  ghost function CallWaits(calls: map<Ticket, Call>, now: nat): set<nat> {
    set k | k in calls :: Until(calls[k].expires, now)
  }

  ghost function RequestWaits(external: map<string, External>, now: nat): set<nat> {
    set k | k in external :: Until(external[k].expires, now)
  }

  ghost function GoalWaits(goals: map<Uuid, ClientGoal>, now: nat): set<nat> {
    set g | g in goals && !goals[g].accepted :: Until(goals[g].acceptanceDeadline, now)
  }

  ghost function ClientWaits(sub: Subscription, now: nat): set<nat> {
    set c | c in sub.clients && sub.clients[c].pending != [] :: DueIn(sub.clients[c], now)
  }

  ghost function DeliveryWaits(subs: map<string, Subscription>, now: nat): set<nat> {
    set t, w | t in subs && w in ClientWaits(subs[t], now) :: w
  }

  /** `next_wakeup`: the earliest of 100 ms, every deadline and every due delivery. */
  ghost function NextWakeup(s: State, now: nat): nat {
    Delivery.Least({MAX_WAIT} + CallWaits(s.rpc.calls, now) + RequestWaits(s.rpc.external, now)
                   + GoalWaits(s.actions.goals, now) + DeliveryWaits(s.topics.subscriptions, now))
  }

  lemma OneMoreWait(limit: nat, seen: set<nat>, candidate: nat)
    ensures var least := Delivery.Least({limit} + seen);
      Delivery.Least({limit} + (seen + {candidate})) == if candidate < least then candidate else least
  {
    MoreWaits(limit, seen, {candidate});
    var least := Delivery.Least({limit} + seen);
    var both := {least} + {candidate};
    assert least in both && candidate in both;
  }

  /** The earliest of two groups is the earliest of the second and the first's earliest. */
  lemma MoreWaits(limit: nat, seen: set<nat>, more: set<nat>)
    ensures Delivery.Least({limit} + (seen + more)) == Delivery.Least({Delivery.Least({limit} + seen)} + more)
  {
    var all, first := {limit} + (seen + more), {limit} + seen;
    var rest := {Delivery.Least(first)} + more;
    var a, b := Delivery.Least(all), Delivery.Least(rest);
    assert b in first || b in more;
    assert b in all;
    if a in more {
      assert a in rest;
    } else {
      assert a in first;
      assert Delivery.Least(first) <= a && Delivery.Least(first) in rest;
    }
  }

  // ---------- what is overdue ----------

  function OverdueGoals(goals: map<Uuid, ClientGoal>, now: nat): set<Uuid> {
    set g | g in goals && !goals[g].accepted && goals[g].acceptanceDeadline <= now
  }

  function OverdueCalls(calls: map<Ticket, Call>, now: nat): set<Ticket> {
    set k | k in calls && calls[k].expires <= now
  }

  function OverdueRequests(external: map<string, External>, now: nat): set<string> {
    set k | k in external && external[k].expires <= now
  }

  ghost predicate NothingOverdue(s: State, now: nat) {
    && OverdueGoals(s.actions.goals, now) == {}
    && OverdueCalls(s.rpc.calls, now) == {}
    && OverdueRequests(s.rpc.external, now) == {}
  }

  lemma OverdueMeansNoWait(s: State, now: nat)
    requires !NothingOverdue(s, now)
    ensures NextWakeup(s, now) == 0
  {
    if g :| g in OverdueGoals(s.actions.goals, now) {
      assert Until(s.actions.goals[g].acceptanceDeadline, now) in GoalWaits(s.actions.goals, now);
    } else if k :| k in OverdueCalls(s.rpc.calls, now) {
      assert Until(s.rpc.calls[k].expires, now) in CallWaits(s.rpc.calls, now);
    } else {
      var id :| id in OverdueRequests(s.rpc.external, now);
      assert Until(s.rpc.external[id].expires, now) in RequestWaits(s.rpc.external, now);
    }
  }

  lemma DueMeansNoWait(s: State, place: (string, Connection), now: nat)
    requires IsDue(s.topics.subscriptions, place, now)
    ensures NextWakeup(s, now) == 0
  {
    var sub := s.topics.subscriptions[place.0];
    assert DueIn(sub.clients[place.1], now) in ClientWaits(sub, now);
    assert DueIn(sub.clients[place.1], now) in DeliveryWaits(s.topics.subscriptions, now);
  }

  /** The bridge asks not to wait exactly when a deadline has passed or a delivery is due. */
  lemma NoWaitIff(s: State, now: nat)
    ensures NextWakeup(s, now) == 0 <==> !NothingOverdue(s, now) || DuePlaces(s.topics.subscriptions, now) != {}
  {
    if !NothingOverdue(s, now) {
      OverdueMeansNoWait(s, now);
    } else if place :| place in DuePlaces(s.topics.subscriptions, now) {
      DueMeansNoWait(s, place, now);
    } else if NextWakeup(s, now) == 0 {
      NothingToWaitFor(s, now);
      assert false;
    }
  }

  lemma NothingToWaitFor(s: State, now: nat)
    requires NothingOverdue(s, now) && DuePlaces(s.topics.subscriptions, now) == {}
    ensures NextWakeup(s, now) != 0
  {
    forall g | g in s.actions.goals && !s.actions.goals[g].accepted
      ensures Until(s.actions.goals[g].acceptanceDeadline, now) != 0
    {
      assert g !in OverdueGoals(s.actions.goals, now);
    }
    forall k | k in s.rpc.calls ensures Until(s.rpc.calls[k].expires, now) != 0 {
      assert k !in OverdueCalls(s.rpc.calls, now);
    }
    forall k | k in s.rpc.external ensures Until(s.rpc.external[k].expires, now) != 0 {
      assert k !in OverdueRequests(s.rpc.external, now);
    }
    NothingDueToWaitFor(s.topics.subscriptions, now);
  }

  lemma NothingDueToWaitFor(subs: map<string, Subscription>, now: nat)
    requires DuePlaces(subs, now) == {}
    ensures 0 !in DeliveryWaits(subs, now)
  {
    forall t, c | t in subs && c in subs[t].clients && subs[t].clients[c].pending != []
      ensures DueIn(subs[t].clients[c], now) != 0
    {
      assert (t, c) !in DuePlaces(subs, now);
    }
  }

  /** No client was last served in the future. */
  ghost predicate ServedBefore(subs: map<string, Subscription>, now: nat) {
    forall t, c :: t in subs && c in subs[t].clients && subs[t].clients[c].last.Some? ==>
      subs[t].clients[c].last.value <= now
  }

  ghost predicate NothingDue(s: State, now: nat) {
    NothingOverdue(s, now) && DuePlaces(s.topics.subscriptions, now) == {}
  }

  lemma NotDueBefore(subs: map<string, Subscription>, now: nat, at: nat, w: nat)
    requires now <= at < now + w && forall x :: x in DeliveryWaits(subs, now) ==> w <= x
    ensures DuePlaces(subs, at) == {}
  {
    hide Delivery.Merged;
    forall t, c | t in subs && c in subs[t].clients ensures !IsDue(subs, (t, c), at) {
      if subs[t].clients[c].pending != [] {
        assert DueIn(subs[t].clients[c], now) in ClientWaits(subs[t], now);
        assert DueIn(subs[t].clients[c], now) in DeliveryWaits(subs, now);
      }
    }
  }

  lemma QuietBefore(s: State, now: nat, at: nat)
    requires now <= at < now + NextWakeup(s, now)
    ensures NothingDue(s, at)
  {
    forall g | g in s.actions.goals && !s.actions.goals[g].accepted
      ensures g !in OverdueGoals(s.actions.goals, at)
    {
      assert Until(s.actions.goals[g].acceptanceDeadline, now) in GoalWaits(s.actions.goals, now);
    }
    forall k | k in s.rpc.calls ensures k !in OverdueCalls(s.rpc.calls, at) {
      assert Until(s.rpc.calls[k].expires, now) in CallWaits(s.rpc.calls, now);
    }
    forall k | k in s.rpc.external ensures k !in OverdueRequests(s.rpc.external, at) {
      assert Until(s.rpc.external[k].expires, now) in RequestWaits(s.rpc.external, now);
    }
    NotDueBefore(s.topics.subscriptions, now, at, NextWakeup(s, now));
  }

  lemma BusyAt(s: State, now: nat)
    requires NextWakeup(s, now) < MAX_WAIT && ServedBefore(s.topics.subscriptions, now)
    ensures !NothingDue(s, now + NextWakeup(s, now))
  {
    var w := NextWakeup(s, now);
    if w in CallWaits(s.rpc.calls, now) {
      var k :| k in s.rpc.calls && Until(s.rpc.calls[k].expires, now) == w;
      assert k in OverdueCalls(s.rpc.calls, now + w);
    } else if w in RequestWaits(s.rpc.external, now) {
      var k :| k in s.rpc.external && Until(s.rpc.external[k].expires, now) == w;
      assert k in OverdueRequests(s.rpc.external, now + w);
    } else if w in GoalWaits(s.actions.goals, now) {
      var g :| g in s.actions.goals && !s.actions.goals[g].accepted
               && Until(s.actions.goals[g].acceptanceDeadline, now) == w;
      assert g in OverdueGoals(s.actions.goals, now + w);
    } else {
      var t :| t in s.topics.subscriptions && w in ClientWaits(s.topics.subscriptions[t], now);
      var sub := s.topics.subscriptions[t];
      var c :| c in sub.clients && sub.clients[c].pending != [] && DueIn(sub.clients[c], now) == w;
      assert IsDue(s.topics.subscriptions, (t, c), now + w);
      assert (t, c) in DuePlaces(s.topics.subscriptions, now + w);
    }
  }

  /**
   The bridge wakes in time and not for nothing: nothing comes due before it wakes, at the latest after
   100 ms; and if it wakes earlier, something is overdue or due for delivery then.
   */
  lemma WakesInTime(s: State, now: nat)
    ensures var w := NextWakeup(s, now);
      && w <= 100 && (forall at: nat :: now <= at < now + w ==> NothingDue(s, at))
      && (w < 100 && ServedBefore(s.topics.subscriptions, now) ==> !NothingDue(s, now + w))
  {
    var w := NextWakeup(s, now);
    hide NothingDue;
    assert w <= 100;
    forall at: nat | now <= at < now + w ensures NothingDue(s, at) { QuietBefore(s, now, at); }
    if w < 100 && ServedBefore(s.topics.subscriptions, now) { BusyAt(s, now); }
  }

  // ---------- a tick ----------

  /** What a tick does, in order; each list names what was found at its point of the tick. */
  datatype Plan = Plan(
    taken: set<Native>,
    next: nat,
    events: seq<Move>,
    goals: seq<Uuid>,
    due: seq<(string, Connection)>,
    calls: seq<Ticket>,
    requests: seq<string>,
    gone: seq<(Connection, Leave)>)

  function GoalTimeouts(xs: seq<Uuid>): seq<Move> {
    seq(|xs|, i requires 0 <= i < |xs| => GoalTimeout(xs[i]))
  }

  function CallTimeouts(xs: seq<Ticket>): seq<Move> {
    seq(|xs|, i requires 0 <= i < |xs| => CallTimeout(xs[i]))
  }

  function RequestTimeouts(xs: seq<string>): seq<Move> {
    seq(|xs|, i requires 0 <= i < |xs| => RequestTimeout(xs[i]))
  }

  ghost function DisconnectAll(s: State, gone: seq<(Connection, Leave)>): State {
    if gone == [] then s
    else Take(DisconnectAll(s, gone[..|gone| - 1]), Gone(gone[|gone| - 1].0, gone[|gone| - 1].1))
  }

  predicate IsEvent(m: Move) {
    m.Hear? || m.Learn? || m.Serve?
  }

  ghost function AfterPoll(s: State, plan: Plan): State { Do(s, Poll(plan.taken, plan.next)) }

  ghost function AfterEvents(s: State, plan: Plan): State { DoAll(AfterPoll(s, plan), plan.events) }

  ghost function AfterGoals(s: State, plan: Plan): State { DoAll(AfterEvents(s, plan), GoalTimeouts(plan.goals)) }

  ghost function AfterDeliveries(s: State, plan: Plan,
                                 now: nat): State { Do(AfterGoals(s, plan), Deliver(plan.due, now)) }

  ghost function AfterCalls(s: State, plan: Plan, now: nat): State {
    DoAll(AfterDeliveries(s, plan, now), CallTimeouts(plan.calls))
  }

  ghost function AfterRequests(s: State, plan: Plan, now: nat): State {
    DoAll(AfterCalls(s, plan, now), RequestTimeouts(plan.requests))
  }

  ghost function AfterUpkeep(s: State, plan: Plan, now: nat): State {
    Do(Do(AfterRequests(s, plan, now), ForgetResults(now)), TakeFailed)
  }

  /** `tick`, when the poll succeeds. */
  ghost function Tick(s: State, plan: Plan, now: nat): State {
    DisconnectAll(AfterUpkeep(s, plan, now), plan.gone)
  }

  /** `tick`, when the poll fails: whatever it had taken by then, nothing else is done. */
  ghost function FailedTick(s: State, taken: set<Native>, next: nat): State {
    Do(s, Poll(taken, next))
  }

  /** Each of the moves fits when its turn comes. */
  ghost predicate AllFitting(s: State, moves: seq<Move>) {
    forall i :: 0 <= i < |moves| ==> Fits(DoAll(s, moves[..i]), moves[i])
  }

  ghost predicate Handles(events: seq<Move>, r: Native) {
    exists m :: m in events && m.Serve? && (m.entity, m.request) == r
  }

  /** Each list of the plan names what is found at its point of the tick. */
  ghost predicate UpkeepPlanned(s: State, plan: Plan, now: nat) {
    && CanTake(s, plan.taken, plan.next)
    && (forall m :: m in plan.events ==> IsEvent(m)) && AllFitting(AfterPoll(s, plan), plan.events)
    && (forall r :: r in plan.taken <==> Handles(plan.events, r))
    && Lists(plan.goals, OverdueGoals(AfterEvents(s, plan).actions.goals, now))
    && Lists(plan.due, DuePlaces(AfterGoals(s, plan).topics.subscriptions, now))
    && Lists(plan.calls, OverdueCalls(AfterDeliveries(s, plan, now).rpc.calls, now))
    && Lists(plan.requests, OverdueRequests(AfterCalls(s, plan, now).rpc.external, now))
  }

  /** Whom a tick disconnects: the clients that failed, and those found closed after that. */
  ghost function Leaving(s: State, plan: Plan, closed: set<Connection>, now: nat): set<Connection> {
    var t := AfterRequests(s, plan, now);
    t.desk.failed + t.desk.outputs * closed
  }

  /** A tick's plan: the upkeep, and a disconnect for exactly those who have to go. */
  ghost predicate WellPlanned(s: State, plan: Plan, closed: set<Connection>, now: nat) {
    UpkeepPlanned(s, plan, now) && Departs(AfterUpkeep(s, plan, now), plan.gone, Leaving(s, plan, closed, now))
  }

  // ---------- timeouts one by one ----------

  lemma NoTimeouts(s: State)
    ensures DoAll(s, GoalTimeouts([])) == s && DoAll(s, CallTimeouts([])) == s && DoAll(s, RequestTimeouts([])) == s
  {
  }

  lemma GoalTimeoutsSnoc(xs: seq<Uuid>, x: Uuid)
    ensures GoalTimeouts(xs + [x]) == GoalTimeouts(xs) + [GoalTimeout(x)]
  {
  }

  lemma LastGoalTimeout(s: State, xs: seq<Uuid>, x: Uuid)
    ensures DoAll(s, GoalTimeouts(xs + [x])) == Do(DoAll(s, GoalTimeouts(xs)), GoalTimeout(x))
  {
    hide Do, DoAll, GoalTimeouts;
    GoalTimeoutsSnoc(xs, x);
    DoAllSnoc(s, GoalTimeouts(xs), GoalTimeout(x));
  }

  lemma CallTimeoutsSnoc(xs: seq<Ticket>, x: Ticket)
    ensures CallTimeouts(xs + [x]) == CallTimeouts(xs) + [CallTimeout(x)]
  {
  }

  lemma LastCallTimeout(s: State, xs: seq<Ticket>, x: Ticket)
    ensures DoAll(s, CallTimeouts(xs + [x])) == Do(DoAll(s, CallTimeouts(xs)), CallTimeout(x))
  {
    hide Do, DoAll, CallTimeouts;
    CallTimeoutsSnoc(xs, x);
    DoAllSnoc(s, CallTimeouts(xs), CallTimeout(x));
  }

  lemma RequestTimeoutsSnoc(xs: seq<string>, x: string)
    ensures RequestTimeouts(xs + [x]) == RequestTimeouts(xs) + [RequestTimeout(x)]
  {
  }

  lemma LastRequestTimeout(s: State, xs: seq<string>, x: string)
    ensures DoAll(s, RequestTimeouts(xs + [x])) == Do(DoAll(s, RequestTimeouts(xs)), RequestTimeout(x))
  {
    hide Do, DoAll, RequestTimeouts;
    RequestTimeoutsSnoc(xs, x);
    DoAllSnoc(s, RequestTimeouts(xs), RequestTimeout(x));
  }

  lemma OneMoreGoal(s: State, xs: seq<Uuid>, x: Uuid)
    ensures DoAll(s, GoalTimeouts(xs + [x])) == FinishGoal(DoAll(s, GoalTimeouts(xs)), x, 6, false)
  {
    hide FinishGoal, DoAll;
    LastGoalTimeout(s, xs, x);
  }

  lemma OneMoreCall(s: State, xs: seq<Ticket>, x: Ticket)
    ensures DoAll(s, CallTimeouts(xs + [x])) == ExpireCall(DoAll(s, CallTimeouts(xs)), x)
  {
    hide ExpireCall, DoAll;
    LastCallTimeout(s, xs, x);
  }

  lemma OneMoreRequest(s: State, xs: seq<string>, x: string)
    ensures DoAll(s, RequestTimeouts(xs + [x])) == ExpireExternal(DoAll(s, RequestTimeouts(xs)), x)
  {
    hide ExpireExternal, DoAll;
    LastRequestTimeout(s, xs, x);
  }

  // ---------- timeouts remove what is overdue ----------

  lemma {:induction false} GoalTimeoutsRemove(s: State, xs: seq<Uuid>)
    ensures var t := DoAll(s, GoalTimeouts(xs));
      && t.actions.goals == (map g | g in s.actions.goals && g !in xs :: s.actions.goals[g])
      && t.rpc == s.rpc && t.topics == s.topics && t.servers == s.servers
    decreases |xs|
  {
    hide Do, DoAll, GoalTimeouts;
    NoTimeouts(s);
    if xs != [] {
      var n := |xs| - 1;
      GoalTimeoutsRemove(s, xs[..n]);
      assert xs[..n] + [xs[n]] == xs;
      LastGoalTimeout(s, xs[..n], xs[n]);
      OneGoalTimeout(DoAll(s, GoalTimeouts(xs[..n])), xs[n]);
      assert forall y :: y in xs <==> y in xs[..n] || y == xs[n];
    }
  }

  lemma OneGoalTimeout(s: State, g: Uuid)
    ensures var t := Do(s, GoalTimeout(g));
      t.actions.goals == s.actions.goals - {g} && t.rpc == s.rpc && t.topics == s.topics && t.servers == s.servers
  {
    hide Post;
    assert g !in s.actions.goals ==> s.actions.goals - {g} == s.actions.goals;
  }

  lemma {:induction false} CallTimeoutsRemove(s: State, xs: seq<Ticket>)
    ensures var t := DoAll(s, CallTimeouts(xs));
      && t.rpc == s.rpc.(calls := map k | k in s.rpc.calls && k !in xs :: s.rpc.calls[k])
      && t.actions == s.actions
    decreases |xs|
  {
    hide Do, DoAll, CallTimeouts;
    NoTimeouts(s);
    if xs == [] {
      assert (map k | k in s.rpc.calls && k !in xs :: s.rpc.calls[k]) == s.rpc.calls;
    } else {
      var n := |xs| - 1;
      CallTimeoutsRemove(s, xs[..n]);
      assert xs[..n] + [xs[n]] == xs;
      LastCallTimeout(s, xs[..n], xs[n]);
      OneCallTimeout(DoAll(s, CallTimeouts(xs[..n])), xs[n]);
      assert forall y :: y in xs <==> y in xs[..n] || y == xs[n];
      assert DoAll(s, CallTimeouts(xs)).rpc.calls == map k | k in s.rpc.calls && k !in xs :: s.rpc.calls[k];
    }
  }

  lemma OneCallTimeout(s: State, k: Ticket)
    ensures var t := Do(s, CallTimeout(k));
      t.rpc == s.rpc.(calls := s.rpc.calls - {k}) && t.actions == s.actions
  {
    hide Post;
    assert k !in s.rpc.calls ==> s.rpc.calls - {k} == s.rpc.calls;
  }

  lemma {:induction false} RequestTimeoutsRemove(s: State, xs: seq<string>)
    ensures var t := DoAll(s, RequestTimeouts(xs));
      && t.rpc == s.rpc.(external := map k | k in s.rpc.external && k !in xs :: s.rpc.external[k])
      && t.actions == s.actions
    decreases |xs|
  {
    hide Do, DoAll, RequestTimeouts;
    NoTimeouts(s);
    if xs == [] {
      assert (map k | k in s.rpc.external && k !in xs :: s.rpc.external[k]) == s.rpc.external;
    } else {
      var n := |xs| - 1;
      RequestTimeoutsRemove(s, xs[..n]);
      assert xs[..n] + [xs[n]] == xs;
      LastRequestTimeout(s, xs[..n], xs[n]);
      OneRequestTimeout(DoAll(s, RequestTimeouts(xs[..n])), xs[n]);
      assert forall y :: y in xs <==> y in xs[..n] || y == xs[n];
      assert DoAll(s, RequestTimeouts(xs)).rpc.external == map k | k in s.rpc.external
        && k !in xs :: s.rpc.external[k];
    }
  }

  lemma OneRequestTimeout(s: State, k: string)
    ensures var t := Do(s, RequestTimeout(k));
      t.rpc == s.rpc.(external := s.rpc.external - {k}) && t.actions == s.actions
  {
    assert k !in s.rpc.external ==> s.rpc.external - {k} == s.rpc.external;
  }

  // ---------- the whole tick ----------

  /** Once nothing is overdue, the rest of the tick adds nothing. */
  lemma {:induction false} DisconnectsAddNothing(s: State, gone: seq<(Connection, Leave)>, now: nat)
    requires Invariant(s) && NothingOverdue(s, now)
    ensures Invariant(DisconnectAll(s, gone)) && NothingOverdue(DisconnectAll(s, gone), now)
    decreases |gone|
  {
    hide Invariant, Take, NothingOverdue;
    if gone != [] {
      var n := |gone| - 1;
      DisconnectsAddNothing(s, gone[..n], now);
      OneDisconnect(DisconnectAll(s, gone[..n]), gone[n].0, gone[n].1, now);
    }
  }

  lemma OneDisconnect(s: State, o: Connection, l: Leave, now: nat)
    requires Invariant(s) && NothingOverdue(s, now)
    ensures var t := Take(s, Gone(o, l)); Invariant(t) && NothingOverdue(t, now)
  {
    hide Invariant, Disconnect, LeaveFits;
    if LeaveFits(s, o, l) {
      DisconnectInvariant(s, o, l);
      var t := Disconnect(s, o, l);
      assert forall g :: g in OverdueGoals(t.actions.goals, now) ==> g in OverdueGoals(s.actions.goals, now);
      assert forall k :: k in OverdueCalls(t.rpc.calls, now) ==> k in OverdueCalls(s.rpc.calls, now);
      assert forall k :: k in OverdueRequests(t.rpc.external, now) ==> k in OverdueRequests(s.rpc.external, now);
    }
  }

  lemma {:induction false} PlainMovesInvariant(s: State, moves: seq<Move>)
    requires Invariant(s) && forall m :: m in moves ==> Owners.Plain(m)
    ensures Invariant(DoAll(s, moves))
    decreases |moves|
  {
    hide Invariant, Do;
    if moves != [] {
      var n := |moves| - 1;
      PlainMovesInvariant(s, moves[..n]);
      OnePlainMove(DoAll(s, moves[..n]), moves[n]);
    }
  }

  lemma OnePlainMove(s: State, m: Move)
    requires Invariant(s) && Owners.Plain(m)
    ensures Invariant(Do(s, m))
  {
    hide Invariant, Do;
    StepInvariant(s, One(m));
  }

  lemma UpkeepInvariant(s: State, plan: Plan, now: nat)
    requires Invariant(s) && forall m :: m in plan.events ==> IsEvent(m)
    ensures Invariant(AfterUpkeep(s, plan, now)) && Invariant(AfterPoll(s, plan))
  {
    hide Invariant, Do, DoAll;
    OnePlainMove(s, Poll(plan.taken, plan.next));
    PlainMovesInvariant(AfterPoll(s, plan), plan.events);
    PlainMovesInvariant(AfterEvents(s, plan), GoalTimeouts(plan.goals));
    OnePlainMove(AfterGoals(s, plan), Deliver(plan.due, now));
    PlainMovesInvariant(AfterDeliveries(s, plan, now), CallTimeouts(plan.calls));
    PlainMovesInvariant(AfterCalls(s, plan, now), RequestTimeouts(plan.requests));
    OnePlainMove(AfterRequests(s, plan, now), ForgetResults(now));
    OnePlainMove(Do(AfterRequests(s, plan, now), ForgetResults(now)), TakeFailed);
  }

  lemma DeliveryChangesTopicsOnly(s: State, due: seq<(string, Connection)>, now: nat)
    ensures var t := Do(s, Deliver(due, now)); t.rpc == s.rpc && t.actions == s.actions
  {
    hide Popped, DueMessages, PostAll;
  }

  lemma UpkeepChangesNoRecord(s: State, now: nat)
    ensures var t := Do(Do(s, ForgetResults(now)), TakeFailed); t.rpc == s.rpc && t.actions == s.actions
  {
  }

  lemma UpkeepLeavesNothingOverdue(s: State, plan: Plan, now: nat)
    requires UpkeepPlanned(s, plan, now)
    ensures NothingOverdue(AfterUpkeep(s, plan, now), now)
  {
    hide Do, DoAll, GoalTimeouts, CallTimeouts, RequestTimeouts, DuePlaces;
    GoalTimeoutsRemove(AfterEvents(s, plan), plan.goals);
    DeliveryChangesTopicsOnly(AfterGoals(s, plan), plan.due, now);
    CallTimeoutsRemove(AfterDeliveries(s, plan, now), plan.calls);
    RequestTimeoutsRemove(AfterCalls(s, plan, now), plan.requests);
    UpkeepChangesNoRecord(AfterRequests(s, plan, now), now);
    var t := AfterUpkeep(s, plan, now);
    assert OverdueGoals(t.actions.goals, now) == {};
    assert OverdueCalls(t.rpc.calls, now) == {};
    assert OverdueRequests(t.rpc.external, now) == {};
  }

  /** After a tick whose poll succeeded, no call, forwarded request or unaccepted goal is overdue. */
  lemma TickLeavesNothingOverdue(s: State, plan: Plan, now: nat)
    requires Invariant(s) && UpkeepPlanned(s, plan, now)
    ensures Invariant(Tick(s, plan, now)) && NothingOverdue(Tick(s, plan, now), now)
  {
    hide Invariant, NothingOverdue, AfterUpkeep;
    UpkeepInvariant(s, plan, now);
    UpkeepLeavesNothingOverdue(s, plan, now);
    DisconnectsAddNothing(AfterUpkeep(s, plan, now), plan.gone, now);
  }

  /**
   A tick whose poll fails changes no record and ends nothing that is overdue. All that becomes of
   the requests it took is that they are outstanding, with nobody to handle them.
   */
  lemma FailedPollKeepsOverdue(s: State, taken: set<Native>, next: nat, now: nat)
    requires Invariant(s) && CanTake(s, taken, next)
    ensures var t := FailedTick(s, taken, next);
      && Invariant(t) && (NothingOverdue(t, now) <==> NothingOverdue(s, now))
      && t == s.(ros := t.ros, unhandled := s.unhandled + taken) && t.ros.live == s.ros.live
      && t.ros.requests == s.ros.requests + taken && taken !! s.ros.requests
      && forall r :: r in taken ==> Requests.Abandoned(t, r)
  {
    OnePlainMove(s, Poll(taken, next));
    assert Own.Owned(FailedTick(s, taken, next));
    hide Invariant, Own.Partition;
  }

  lemma PlanKeepsInvariant(s: State, plan: Plan, now: nat)
    requires Invariant(s) && UpkeepPlanned(s, plan, now)
    ensures Invariant(AfterUpkeep(s, plan, now))
  {
    hide Invariant, AfterUpkeep, Do, DoAll;
    UpkeepInvariant(s, plan, now);
  }

  /** Whom the plan disconnects plays no role before that. */
  lemma GoneIsLast(s: State, plan: Plan, gone: seq<(Connection, Leave)>, now: nat)
    ensures AfterUpkeep(s, plan.(gone := gone), now) == AfterUpkeep(s, plan, now)
    ensures AfterRequests(s, plan.(gone := gone), now) == AfterRequests(s, plan, now)
    ensures UpkeepPlanned(s, plan.(gone := gone), now) == UpkeepPlanned(s, plan, now)
  {
    hide Do, DoAll;
  }

  lemma {:induction false} DisconnectsConcat(s: State, a: seq<(Connection, Leave)>, b: seq<(Connection, Leave)>)
    ensures DisconnectAll(s, a + b) == DisconnectAll(DisconnectAll(s, a), b)
    decreases |b|
  {
    hide Take;
    if b == [] {
      assert a + b == a;
    } else {
      var n := |b| - 1;
      DisconnectsConcat(s, a, b[..n]);
      assert (a + b)[..|a + b| - 1] == a + b[..n];
    }
  }

  // ---------- who is disconnected ----------

  predicate Goes(gone: seq<(Connection, Leave)>, o: Connection) {
    exists i :: 0 <= i < |gone| && gone[i].0 == o
  }

  /** Those disconnected are exactly `who`, each as found at its turn. */
  ghost predicate Departs(s: State, gone: seq<(Connection, Leave)>, who: set<Connection>) {
    && (forall o :: o in who <==> Goes(gone, o))
    && AllFit(s, gone)
  }

  ghost predicate AllFit(s: State, gone: seq<(Connection, Leave)>) {
    forall i :: 0 <= i < |gone| ==> LeaveFits(DisconnectAll(s, gone[..i]), gone[i].0, gone[i].1)
  }

  lemma GoesConcat(a: seq<(Connection, Leave)>, b: seq<(Connection, Leave)>)
    ensures forall o :: Goes(a + b, o) <==> Goes(a, o) || Goes(b, o)
  {
    forall o ensures Goes(a + b, o) <==> Goes(a, o) || Goes(b, o) {
      if i :| 0 <= i < |a| && a[i].0 == o { assert (a + b)[i].0 == o; }
      if j :| 0 <= j < |b| && b[j].0 == o { assert (a + b)[|a| + j].0 == o; }
    }
  }

  lemma DepartsConcat(s: State, a: seq<(Connection, Leave)>, first: set<Connection>,
                      b: seq<(Connection, Leave)>, second: set<Connection>)
    requires Departs(s, a, first) && Departs(DisconnectAll(s, a), b, second)
    ensures Departs(s, a + b, first + second)
  {
    hide LeaveFits, DisconnectAll;
    GoesConcat(a, b);
    forall i | 0 <= i < |a + b| ensures LeaveFits(DisconnectAll(s, (a + b)[..i]), (a + b)[i].0, (a + b)[i].1) {
      if i < |a| {
        assert (a + b)[..i] == a[..i];
      } else {
        assert (a + b)[..i] == a + b[..i - |a|];
        DisconnectsConcat(s, a, b[..i - |a|]);
      }
    }
  }

  lemma {:induction false} DisconnectedOutputs(s: State, gone: seq<(Connection, Leave)>, k: nat)
    requires Invariant(s) && AllFit(s, gone) && k <= |gone|
    ensures var t := DisconnectAll(s, gone[..k]);
      && Invariant(t)
      && t.desk.outputs == (set o | o in s.desk.outputs && forall i :: 0 <= i < k ==> gone[i].0 != o)
      && t.desk.failed == s.desk.failed
    decreases k
  {
    hide Invariant, LeaveFits, Disconnect;
    if k > 0 {
      DisconnectedOutputs(s, gone, k - 1);
      assert gone[..k][..k - 1] == gone[..k - 1];
      assert LeaveFits(DisconnectAll(s, gone[..k - 1]), gone[k - 1].0, gone[k - 1].1);
      OneOutputLess(DisconnectAll(s, gone[..k - 1]), gone[k - 1].0, gone[k - 1].1);
    }
  }

  lemma OneOutputLess(s: State, o: Connection, l: Leave)
    requires Invariant(s) && LeaveFits(s, o, l)
    ensures var t := Take(s, Gone(o, l));
      Invariant(t) && t.desk.outputs == s.desk.outputs - {o} && t.desk.failed == s.desk.failed
  {
    hide Invariant, LeaveFits, Disconnect;
    DisconnectInvariant(s, o, l);
  }

  /** With no client left the bridge holds nothing at all. */
  lemma NobodyOwnsNothing(s: State)
    requires Invariant(s) && s.desk.outputs == {}
    ensures s.ros.live == {} && s.ros.requests == {}
  {
    assert s.topics == Topics(map[], map[]) by {
      assert forall t :: t in s.topics.publishers ==> Owners.PublisherBy(s.topics.publishers[t], {});
      assert forall t :: t in s.topics.subscriptions ==> Owners.SubscriptionBy(s.topics.subscriptions[t], {});
      NoEmptyOwners(s.topics);
    }
    assert s.rpc.services == map[] && s.rpc.calls == map[];
    assert s.actions.goals == map[] && s.servers.actionServers == map[];
    NoRecordsNoEntities(s);
  }

  lemma TopicsNeedClients(p: Publisher, q: Subscription)
    ensures !Owners.PublisherBy(p, {}) && !Owners.SubscriptionBy(q, {})
  {
    assert p.owners.Keys == {} ==> p.owners == map[];
    assert q.clients.Keys == {} ==> q.clients == map[];
  }

  lemma NoEmptyOwners(t: Topics)
    requires Owners.TopicsBy(t, {})
    ensures t == Topics(map[], map[])
  {
    forall p, q ensures !Owners.PublisherBy(p, {}) && !Owners.SubscriptionBy(q, {}) {
      TopicsNeedClients(p, q);
    }
    hide Owners.PublisherBy, Owners.SubscriptionBy;
    assert t.publishers == map[];
    assert t.subscriptions == map[];
  }

  lemma NoRecordsNoEntities(s: State)
    requires Own.Owned(s) && s.topics == Topics(map[], map[]) && s.rpc.services == map[] && s.rpc.calls == map[]
    requires s.actions.goals == map[] && s.servers.actionServers == map[]
    ensures s.ros.live == {} && s.ros.requests == {}
  {
    assert forall a :: Own.Holder(Own.RecordsOf(s), a).None?;
    assert forall e :: !Own.HeldBySomeone(Own.RecordsOf(s), e);
  }

  /** `shutdown` disconnects every client, which destroys every entity and drops every request. */
  lemma ShutdownLeavesNothing(s: State, gone: seq<(Connection, Leave)>)
    requires Invariant(s) && Departs(s, gone, s.desk.outputs)
    ensures var t := DisconnectAll(s, gone); t.ros.live == {} && t.ros.requests == {} && t.desk.outputs == {}
  {
    hide Invariant;
    DisconnectedOutputs(s, gone, |gone|);
    assert gone[..|gone|] == gone;
    NobodyOwnsNothing(DisconnectAll(s, gone));
  }

  /** Reports, timeouts and deliveries connect and disconnect nobody. */
  predicate Upkeeping(m: Move) {
    IsEvent(m) || m.Poll? || m.GoalTimeout? || m.Deliver? || m.CallTimeout? || m.RequestTimeout? || m.ForgetResults?
    || m.TakeFailed?
  }

  lemma UpkeepingKeepsOutputs(s: State, m: Move)
    requires s.ros.Valid() && Upkeeping(m)
    ensures Do(s, m).desk.outputs == s.desk.outputs
  {
    Frames.DoFrame(s, m);
    match m
    case Learn(ticket, answer) => LearnKeepsOutputs(s, ticket, answer);
    case GoalTimeout(goal) => FinishGoalKeepsOutputs(s, goal, 6, false);
    case CallTimeout(ticket) => if ticket in s.rpc.calls { FinishCallKeepsOutputs(s, ticket, false); }
    case _ =>
  }

  lemma FinishGoalKeepsOutputs(s: State, goal: Uuid, status: int, success: bool)
    ensures FinishGoal(s, goal, status, success).desk.outputs == s.desk.outputs
  {
  }

  lemma FinishCallKeepsOutputs(s: State, ticket: Ticket, success: bool)
    requires ticket in s.rpc.calls
    ensures FinishCall(s, ticket, success).desk.outputs == s.desk.outputs
  {
  }

  lemma LearnKeepsOutputs(s: State, ticket: Ticket, answer: Answer)
    ensures OnResponse(s, ticket, answer).desk.outputs == s.desk.outputs
  {
    hide FinishGoal, FinishCall, AcceptGoal, CancelAnswered, Post;
    if ticket in s.rpc.calls {
      FinishCallKeepsOutputs(s, ticket, true);
    } else if ticket in s.actions.actionCalls {
      var goal := s.actions.actionCalls[ticket].goal;
      var s1 := s.(actions := s.actions.(actionCalls := s.actions.actionCalls - {ticket}));
      FinishGoalKeepsOutputs(s1, goal, 6, false);
      FinishGoalKeepsOutputs(s1, goal, answer.status, answer.status == 4);
      Shapes.CancelAnsweredShape(s1, goal, answer.returnCode);
      if goal in s1.actions.goals { Shapes.AcceptGoalShape(s1, goal); }
    }
  }

  lemma {:induction false} MovesKeepOutputs(s: State, moves: seq<Move>)
    requires Invariant(s) && forall m :: m in moves ==> Upkeeping(m)
    ensures Invariant(DoAll(s, moves)) && DoAll(s, moves).desk.outputs == s.desk.outputs
    decreases |moves|
  {
    hide Invariant, Do;
    if moves != [] {
      var n := |moves| - 1;
      MovesKeepOutputs(s, moves[..n]);
      assert Upkeeping(moves[n]);
      OnePlainMove(DoAll(s, moves[..n]), moves[n]);
      InvariantIsValid(DoAll(s, moves[..n]));
      UpkeepingKeepsOutputs(DoAll(s, moves[..n]), moves[n]);
    }
  }

  lemma InvariantIsValid(s: State)
    requires Invariant(s)
    ensures s.ros.Valid()
  {
  }

  lemma OneUpkeepMove(s: State, m: Move)
    requires Invariant(s) && Upkeeping(m)
    ensures Invariant(Do(s, m)) && Do(s, m).desk.outputs == s.desk.outputs
  {
    hide Invariant, Do, DoAll;
    OnePlainMove(s, m);
    InvariantIsValid(s);
    UpkeepingKeepsOutputs(s, m);
  }

  lemma RequestsKeepOutputs(s: State, plan: Plan, now: nat)
    requires Invariant(s) && forall m :: m in plan.events ==> IsEvent(m)
    ensures Invariant(AfterRequests(s, plan, now)) && AfterRequests(s, plan, now).desk.outputs == s.desk.outputs
  {
    hide Invariant, Do, DoAll;
    OneUpkeepMove(s, Poll(plan.taken, plan.next));
    MovesKeepOutputs(AfterPoll(s, plan), plan.events);
    MovesKeepOutputs(AfterEvents(s, plan), GoalTimeouts(plan.goals));
    OneUpkeepMove(AfterGoals(s, plan), Deliver(plan.due, now));
    MovesKeepOutputs(AfterDeliveries(s, plan, now), CallTimeouts(plan.calls));
    MovesKeepOutputs(AfterCalls(s, plan, now), RequestTimeouts(plan.requests));
  }

  lemma UpkeepDesk(s: State, plan: Plan, now: nat)
    ensures var t := AfterRequests(s, plan, now).desk; AfterUpkeep(s, plan, now).desk == t.(failed := {})
  {
    hide AfterRequests;
  }

  /** A tick disconnects the failed clients and the closed ones, and nobody else. */
  lemma TickKeepsTheRest(s: State, plan: Plan, closed: set<Connection>, now: nat)
    requires Invariant(s) && WellPlanned(s, plan, closed, now)
    ensures Tick(s, plan, now).desk.outputs == s.desk.outputs - AfterRequests(s, plan, now).desk.failed - closed
    ensures Tick(s, plan, now).desk.failed == {}
  {
    var t := AfterUpkeep(s, plan, now);
    hide Invariant, AfterUpkeep, AfterRequests, LeaveFits;
    UpkeepInvariant(s, plan, now);
    RequestsKeepOutputs(s, plan, now);
    UpkeepDesk(s, plan, now);
    DisconnectedOutputs(t, plan.gone, |plan.gone|);
    assert plan.gone[..|plan.gone|] == plan.gone;
    assert forall o :: o in Leaving(s, plan, closed, now) <==> Goes(plan.gone, o);
    assert forall o :: o in DisconnectAll(t, plan.gone).desk.outputs <==> o in t.desk.outputs && !Goes(plan.gone, o);
  }
}

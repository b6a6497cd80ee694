/** What the calls of `recv` return, over every interleaving (src/outgoing.rs). */
module EncodingDelivery {
  import opened Basics
  import opened EncodingPool
  import opened EncodingProgress
  import O = Outgoing
  import R = OutgoingRuns

  /** The frames returned, without the calls that returned nothing. */
  function Results(returned: seq<Option<seq<O.Frame>>>): seq<seq<O.Frame>> {
    if returned == [] then []
    else
      var last := returned[|returned| - 1];
      Results(returned[..|returned| - 1]) + if last.Some? then [last.value] else []
  }

  /** The frames of the batches that were delivered. */
  function Deliveries(settled: seq<R.Settled>): seq<seq<O.Frame>> {
    if settled == [] then []
    else
      var last := settled[|settled| - 1].fate;
      Deliveries(settled[..|settled| - 1]) + if last.Delivered? then [last.frames] else []
  }

  /** What was returned is what was delivered; nothing was returned only because the channel is closed. */
  ghost predicate Told(c: Client) {
    && Results(c.returned) == Deliveries(c.l.settled)
    && (forall i :: 0 <= i < |c.returned| && c.returned[i].None? ==> c.l.s.senderClosed)
  }

  ghost predicate AllTold(s: Pool) {
    forall id :: id in s.clients ==> Told(s.clients[id])
  }

  lemma OneMoreResult(returned: seq<Option<seq<O.Frame>>>, x: Option<seq<O.Frame>>)
    ensures Results(returned + [x]) == Results(returned) + if x.Some? then [x.value] else []
  {
    assert (returned + [x])[..|returned|] == returned;
  }

  lemma OneMoreDelivery(settled: seq<R.Settled>, x: R.Settled)
    ensures Deliveries(settled + [x]) == Deliveries(settled) + if x.fate.Delivered? then [x.fate.frames] else []
  {
    assert (settled + [x])[..|settled|] == settled;
  }

  lemma ReturningTold(c: Client, result: Option<seq<O.Frame>>)
    ensures Results(c.Returning(result).returned) == Results(c.returned) + if result.Some? then [result.value] else []
  {
    OneMoreResult(c.returned, result);
  }

  /** Concluding delivers exactly what it returns. */
  lemma ConcludeDelivers(l: R.Ledger, topical: bool, result: Option<seq<O.Frame>>)
    requires R.Genuine(l, topical, result)
    ensures var (l', delivered) := R.Conclude(l, topical, result);
      && Deliveries(l'.settled) == Deliveries(l.settled) + (if delivered.Some? then [delivered.value] else [])
      && (l.s.senderClosed ==> l'.s.senderClosed)
  {
    var (s', delivered) := O.Finish(l.s, topical, result);
    if l.hand.Some? { OneMoreDelivery(l.settled, R.Settled(l.hand.value, R.FateOf(l.s, s', delivered))); }
  }

  lemma AbandonDelivers(l: R.Ledger)
    ensures Deliveries(R.Abandon(l).settled) == Deliveries(l.settled) && R.Abandon(l).s == l.s
  {
    if l.hand.Some? { OneMoreDelivery(l.settled, R.Settled(l.hand.value, R.Abandoned)); }
  }

  lemma FinishStepTold(c: Client)
    requires Healthy(c) && Told(c)
    ensures Told(LocalStep(c, Finish)) && Told(LocalStep(c, RecoverCrash)) && Told(LocalStep(c, Cancel))
  {
    hide R.Balanced, R.Conclude, R.Abandon, Results, Deliveries;
    AbandonDelivers(c.l);
    if c.place.Finishing? {
      ConcludeDelivers(c.l, c.place.finishedTopical, c.place.result);
      var (l, delivered) := R.Conclude(c.l, c.place.finishedTopical, c.place.result);
      ReturningTold(c.(l := l), delivered);
    } else if c.place.Crashed? {
      CrashIsGenuine(c.l);
      ConcludeDelivers(c.l, false, None);
      CrashDeliversNothing(c.l);
    }
  }

  lemma CrashDeliversNothing(l: R.Ledger)
    ensures R.Conclude(l, false, None).1.None?
  {
  }

  /** Senders never settle anything. */
  lemma SenderStepsSettleNothing(c: Client, a: Action)
    requires a.Send? || a.DropOutput? || a.DropReceiver?
    ensures var c' := LocalStep(c, a);
      c'.l.settled == c.l.settled && c'.returned == c.returned && (c.l.s.senderClosed ==> c'.l.s.senderClosed)
  {
    hide O.SendTopic, O.SendControl, O.Admits;
  }

  lemma LocalStepTold(c: Client, a: Action)
    requires Healthy(c) && Told(c)
    ensures Told(LocalStep(c, a))
  {
    hide R.Balanced, R.Conclude, R.Step, R.Abandon, Results, Deliveries;
    if a in {Finish, RecoverCrash, Cancel} {
      hide LocalStep;
      FinishStepTold(c);
    } else if a.Send? || a.DropOutput? || a.DropReceiver? {
      hide LocalStep;
      SenderStepsSettleNothing(c, a);
    } else {
      ReturningTold(c, None);
    }
  }

  lemma TakeStepTold(s: Pool, id: nat)
    requires id in s.clients && Told(s.clients[id]) && Healthy(s.clients[id])
    ensures id in TakeStep(s, id, s.clients[id]).clients && Told(TakeStep(s, id, s.clients[id]).clients[id])
  {
    hide R.Balanced, Results, Deliveries;
    ReturningTold(s.clients[id], None);
  }

  lemma EndStepTold(s: Pool, j: nat, panicked: bool)
    requires JobsMatch(s) && AllTold(s)
    ensures AllTold(EndStep(s, j, panicked)) && AllTold(StartStep(s, j))
  {
    hide Results, Deliveries, IsFor;
  }

  lemma StepKeepsTold(s: Pool, e: Event)
    requires Sound(s) && AllTold(s)
    ensures AllTold(Step(s, e))
  {
    hide Healthy, PermitsConserved, Told, LocalStep, TakeStep, StartStep, EndStep;
    match e
    case At(id, a) =>
      if id in s.clients {
        if a.Acquire? {
          AcquireTold(s, id);
        } else if a.TakeBatch? {
          TakeStepTold(s, id);
          TakeStepIsPut(s, id);
        } else {
          LocalStepTold(s.clients[id], a);
        }
      }
    case StartJob(j) => EndStepTold(s, j, false);
    case EndJob(j, panicked) => EndStepTold(s, j, panicked);
  }

  lemma AcquireTold(s: Pool, id: nat)
    requires AllTold(s) && id in s.clients
    ensures AllTold(AcquireStep(s, id, s.clients[id]))
  {
    hide Results, Deliveries;
  }

  lemma TakeStepIsPut(s: Pool, id: nat)
    requires id in s.clients
    ensures var s' := TakeStep(s, id, s.clients[id]);
      id in s'.clients && s'.clients == s.clients[id := s'.clients[id]]
  {
  }

  lemma {:induction false} RunsStayTold(s: Pool, es: seq<Event>)
    requires Sound(s) && AllTold(s)
    ensures Sound(Run(s, es)) && AllTold(Run(s, es))
    decreases |es|
  {
    hide Sound, AllTold, Step;
    if es != [] {
      StepKeepsSound(s, es[0]);
      StepKeepsTold(s, es[0]);
      RunsStayTold(Step(s, es[0]), es[1..]);
    }
  }

  /**
   Over every interleaving from a fresh pool, what the calls of `recv` have returned to a client is
   exactly the encodings of the batches it took, each once and in the order in which they were taken,
   but for those that do not fit; a call returns nothing only when the channel is closed. As long as
   it is open, a batch that was taken and is lost otherwise was in the hands of a cancelled call.
   */
  lemma ReceiversGetWhatFits(workers: nat, ids: set<nat>, capacity: nat, byteLimit: nat, es: seq<Event>, id: nat)
    requires workers > 0 && capacity > 0 && byteLimit > 0
    requires id in Run(Fresh(workers, ids, capacity, byteLimit), es).clients
    ensures var c := Run(Fresh(workers, ids, capacity, byteLimit), es).clients[id];
      && R.Balanced(c.l)
      && Results(c.returned) == Deliveries(c.l.settled)
      && (forall i :: 0 <= i < |c.returned| && c.returned[i].None? ==> c.l.s.senderClosed)
      && (c.l.s.Open() ==> forall i :: 0 <= i < |c.l.settled| && !c.l.settled[i].fate.Abandoned? ==>
            (c.l.settled[i].fate.Delivered? <==> R.Fits(c.l.s.byteLimit, c.l.settled[i].batch)))
  {
    var s := Fresh(workers, ids, capacity, byteLimit);
    AllRunsAreSound(workers, ids, capacity, byteLimit, []);
    RunsStayTold(s, es);
    var c := Run(s, es).clients[id];
    assert Healthy(c) && Told(c);
    hide R.Balanced, R.Fits, Results, Deliveries;
    if c.l.s.Open() {
      forall i | 0 <= i < |c.l.settled| && !c.l.settled[i].fate.Abandoned?
        ensures c.l.settled[i].fate.Delivered? <==> R.Fits(c.l.s.byteLimit, c.l.settled[i].batch)
      {
        R.OpenChannelDelivers(c.l, i);
      }
    }
  }

  // ------------------------------------------------------------ every call returns

  /** A call in progress counts as one that will return. */
  function Calls(c: Client): nat { |c.returned| + if c.place.Idle? then 0 else 1 }

  lemma InternalKeepsCalls(s: Pool, e: Event, id: nat)
    requires JobsMatch(s) && Internal(e) && id in s.clients
    ensures id in Step(s, e).clients && Calls(Step(s, e).clients[id]) == Calls(s.clients[id])
    ensures s.clients[id].returned <= Step(s, e).clients[id].returned
  {
    hide R.Conclude, R.TakeInHand, IsFor, LocalStep;
    if e.At? && e.client == id { LocalKeepsCalls(s.clients[id], e.action); }
  }

  lemma LocalKeepsCalls(c: Client, a: Action)
    ensures a in {NotifyReady, NotifyClosed, Check, Wake, SeeClosed, RecoverCrash, Finish} ==>
      Calls(LocalStep(c, a)) == Calls(c) && c.returned <= LocalStep(c, a).returned
  {
    hide R.Conclude;
  }

  lemma {:induction false} ScheduleKeepsCalls(s: Pool, schedule: nat -> Event, n: nat, id: nat)
    requires Sound(s) && AllTold(s) && Autonomous(schedule) && id in s.clients
    ensures var t := StateAt(s, schedule, n);
      && Sound(t) && AllTold(t) && id in t.clients && Calls(t.clients[id]) == Calls(s.clients[id])
      && s.clients[id].returned <= t.clients[id].returned
  {
    hide Sound, AllTold, Step, Calls, JobsMatch;
    if n > 0 {
      ScheduleKeepsCalls(s, schedule, n - 1, id);
      var t := StateAt(s, schedule, n - 1);
      SoundMatches(t);
      InternalKeepsCalls(t, schedule(n - 1), id);
      StepKeepsSound(t, schedule(n - 1));
      StepKeepsTold(t, schedule(n - 1));
    }
  }

  lemma SoundMatches(s: Pool)
    requires Sound(s)
    ensures JobsMatch(s)
  {
  }

  /**
   Under every fair schedule a call of `recv` in progress comes to its end: it has returned the
   next frames, or nothing because the channel is closed; or it sleeps, all that was queued having
   been taken.
   */
  lemma CallsReturn(s: Pool, schedule: nat -> Event, id: nat) returns (n: nat)
    requires Sound(s) && AllTold(s) && s.workers > 0 && Autonomous(schedule) && Fair(s, schedule)
    requires id in s.clients && !s.clients[id].place.Idle?
    ensures id in StateAt(s, schedule, n).clients
    ensures var c, c' := s.clients[id], StateAt(s, schedule, n).clients[id];
      || (c'.place.Idle? && |c'.returned| == |c.returned| + 1
          && (c'.returned[|c.returned|].Some? || c'.l.s.senderClosed))
      || (c'.place.Parked? && c'.returned == c.returned && !HasNews(c'.l.s))
    ensures forall m :: m >= n ==> StateAt(s, schedule, m) == StateAt(s, schedule, n)
  {
    n := FairSchedulesSettle(s, schedule);
    ScheduleKeepsCalls(s, schedule, n, id);
    hide Sound, Fair, StateAt, Results, Deliveries;
    var c' := StateAt(s, schedule, n).clients[id];
    assert Settled(c') && Told(c');
  }
}

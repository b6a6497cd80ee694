/**
 Asynchronous receivers sharing one permit pool (src/outgoing.rs, src/encoding.rs),
 as a state machine whose steps are the stretches between awaits, locks and notifications.
 */
module EncodingPool {
  import opened Basics
  import O = Outgoing
  import R = OutgoingRuns

  /** Where a receiver is inside `recv`; `Idle` means no call is in progress. */
  datatype Place =
    | Idle
    | Checking
    | Parked
    | AwaitingPermit
    | Holding
    | AwaitingJob(job: nat, topical: bool)
    | Crashed(crashedTopical: bool)
    | Finishing(finishedTopical: bool, result: Option<seq<O.Frame>>)

  /**
   One connection, with the ledger of its channel and what its calls of `recv` have returned.
   `owedReady` and `owedClosed` count notifications that a sender will issue after releasing
   the lock; the tokens are notifications stored by `Notify`.
   */
  datatype Client = Client(
    l: R.Ledger, place: Place,
    readyToken: bool, closedToken: bool,
    owedReady: nat, owedClosed: nat,
    returned: seq<Option<seq<O.Frame>>>)
  {
    function Returning(result: Option<seq<O.Frame>>): Client {
      this.(place := Idle, returned := returned + [result])
    }
  }

  /** A blocking encoder; it owns a permit from being spawned until it ends. */
  datatype Job = Job(client: nat, payload: O.Payload, started: bool, outcome: Option<seq<O.Frame>>)

  datatype Pool = Pool(workers: nat, free: nat, clients: map<nat, Client>, jobs: map<nat, Job>, nextJob: nat)

  datatype Action =
    | Send(topic: Option<string>, limit: nat, payload: O.Payload)
    | DropOutput
    | NotifyReady
    | NotifyClosed
    | Receive
    | Check
    | Wake
    | Acquire
    | SeeClosed
    | TakeBatch
    | RecoverCrash
    | Finish
    | Cancel
    | DropReceiver

  datatype Event =
    | At(client: nat, action: Action)
    | StartJob(job: nat)
    | EndJob(ended: nat, panicked: bool)

  /** Something `recv` would not sleep through. */
  predicate HasNews(q: O.State) {
    q.senderClosed || q.control != [] || q.topics != []
  }

  /** The steps that touch only the client itself. */
  function LocalStep(c: Client, a: Action): Client {
    match a
    case Send(topic, limit, payload) =>
      var l := R.Step(c.l, R.Send(topic, limit, payload));
      (match O.Enqueue(c.l.s, topic, limit, payload).1
       case Accepted => c.(l := l, owedReady := c.owedReady + 1)
       case ControlFull => c.(l := l, owedReady := c.owedReady + 1, owedClosed := c.owedClosed + 1)
       case Closed => c)
    case DropOutput =>
      c.(l := R.Step(c.l, R.OutputDropped), owedReady := c.owedReady + 1, owedClosed := c.owedClosed + 1)
    case NotifyReady =>
      if c.owedReady > 0 then c.(owedReady := c.owedReady - 1, readyToken := true) else c
    case NotifyClosed =>
      if c.owedClosed > 0 then c.(owedClosed := c.owedClosed - 1, closedToken := true) else c
    case Receive =>
      if c.place.Idle? && !c.l.s.receiverClosed then c.(place := Checking) else c
    case Check =>
      if !c.place.Checking? then c
      else if c.l.s.senderClosed then c.Returning(None)
      else if c.l.s.control != [] || c.l.s.topics != [] then c.(place := AwaitingPermit)
      else c.(place := Parked)
    case Wake =>
      if c.place.Parked? && c.readyToken then c.(place := Checking, readyToken := false) else c
    case SeeClosed =>
      if c.place.AwaitingPermit? && c.closedToken then c.Returning(None).(closedToken := false) else c
    case RecoverCrash =>
      if c.place.Crashed? then
        c.(l := R.Conclude(c.l, false, None).0, place := Finishing(c.place.crashedTopical, None))
      else c
    case Finish =>
      if c.place.Finishing? then
        var (l, delivered) := R.Conclude(c.l, c.place.finishedTopical, c.place.result);
        if delivered.Some? then c.(l := l).Returning(delivered) else c.(l := l, place := Checking)
      else c
    case Cancel =>
      if c.place.Parked? || c.place.AwaitingPermit? || c.place.AwaitingJob?
      then c.(l := R.Abandon(c.l), place := Idle) else c
    case DropReceiver =>
      if c.place.Idle? then c.(l := R.Step(c.l, R.ReceiverDropped)) else c
    case Acquire => c
    case TakeBatch => c
  }

  function Put(s: Pool, id: nat, c: Client): Pool {
    s.(clients := s.clients[id := c])
  }

  function AcquireStep(s: Pool, id: nat, c: Client): Pool {
    if c.place.AwaitingPermit? && s.free > 0
    then Put(s, id, c.(place := Holding)).(free := s.free - 1) else s
  }

  /** Only a permit holder takes; the permit then moves into a job or goes back. */
  function TakeStep(s: Pool, id: nat, c: Client): Pool {
    if !c.place.Holding? then s
    else
      match O.Take(c.l.s).1
      case Taken(batch) =>
        var c' := c.(l := R.TakeInHand(c.l));
        (match batch.payload
         case Frames(frames) =>
           Put(s, id, c'.(place := Finishing(batch.topic.Some?, Some(frames)))).(free := s.free + 1)
         case Encode(_, _) =>
           Put(s, id, c'.(place := AwaitingJob(s.nextJob, batch.topic.Some?))).(
           jobs := s.jobs[s.nextJob := Job(id, batch.payload, false, None)], nextJob := s.nextJob + 1))
      case Empty => Put(s, id, c.(place := Checking)).(free := s.free + 1)
      case Disconnected => Put(s, id, c.Returning(None)).(free := s.free + 1)
  }

  function StartStep(s: Pool, j: nat): Pool {
    if j in s.jobs && !s.jobs[j].started && s.jobs[j].client in s.clients then
      var job := s.jobs[j];
      var outcome := if s.clients[job.client].l.s.Open() then job.payload.Encoded() else None;
      s.(jobs := s.jobs[j := job.(started := true, outcome := outcome)])
    else s
  }

  /** A job returns its permit when it ends, and its result if someone still awaits it. */
  function EndStep(s: Pool, j: nat, panicked: bool): Pool {
    if j in s.jobs && s.jobs[j].started && s.jobs[j].client in s.clients then
      var job := s.jobs[j];
      var c := s.clients[job.client];
      var s' := s.(jobs := s.jobs - {j}, free := s.free + 1);
      if c.place.AwaitingJob? && c.place.job == j then
        Put(s', job.client,
            c.(place := if panicked then Crashed(c.place.topical) else Finishing(c.place.topical, job.outcome)))
      else s'
    else s
  }

  function Step(s: Pool, e: Event): Pool {
    match e
    case At(id, a) =>
      if id !in s.clients then s
      else if a.Acquire? then AcquireStep(s, id, s.clients[id])
      else if a.TakeBatch? then TakeStep(s, id, s.clients[id])
      else Put(s, id, LocalStep(s.clients[id], a))
    case StartJob(j) => StartStep(s, j)
    case EndJob(j, panicked) => EndStep(s, j, panicked)
  }

  function Run(s: Pool, es: seq<Event>): Pool
    decreases |es|
  {
    if es == [] then s else Run(Step(s, es[0]), es[1..])
  }

  // -------------------------------------------------------------- invariants

  /** A sleeping receiver with news has a notification stored or about to be sent. */
  ghost predicate NoLostWakeup(c: Client) {
    && (c.place.Parked? && HasNews(c.l.s) ==> c.readyToken || c.owedReady > 0)
    && (c.place.AwaitingPermit? && c.l.s.senderClosed ==> c.closedToken || c.owedClosed > 0)
    && (c.closedToken || c.owedClosed > 0 ==> c.l.s.senderClosed)
    && (!c.place.Idle? ==> !c.l.s.receiverClosed)
  }

  /** A batch is in hand exactly while it is being encoded or finished. */
  ghost predicate InHand(c: Client) {
    match c.place
    case AwaitingJob(_, topical) => c.l.hand.Some? && c.l.hand.value.topic.Some? == topical
    case Crashed(_) => c.l.hand.Some?
    case Finishing(topical, result) => R.Genuine(c.l, topical, result)
    case _ => c.l.hand.None?
  }

  function Holders(s: Pool): set<nat> {
    set id | id in s.clients && s.clients[id].place.Holding?
  }

  ghost predicate PermitsConserved(s: Pool) {
    s.free + |Holders(s)| + |s.jobs| == s.workers
  }

  /** The job encodes what its client has in hand; its outcome is the batch's own unless the channel is closed. */
  ghost predicate IsFor(job: Job, id: nat, c: Client) {
    && job.client == id && c.l.hand.Some? && job.payload == c.l.hand.value.payload
    && (job.started ==> job.outcome == job.payload.Encoded() || (job.outcome.None? && !c.l.s.Open()))
  }

  ghost predicate JobsMatch(s: Pool) {
    && (forall j :: j in s.jobs ==> j < s.nextJob && s.jobs[j].client in s.clients)
    && (forall id :: id in s.clients && s.clients[id].place.AwaitingJob? ==>
                       s.clients[id].place.job in s.jobs && IsFor(s.jobs[s.clients[id].place.job], id, s.clients[id]))
  }

  ghost predicate Healthy(c: Client) {
    R.Balanced(c.l) && NoLostWakeup(c) && InHand(c)
  }

  ghost predicate Sound(s: Pool) {
    && (forall id :: id in s.clients ==> Healthy(s.clients[id]))
    && PermitsConserved(s)
    && JobsMatch(s)
  }

  lemma LocalStepKeepsLedger(c: Client, a: Action)
    requires Healthy(c)
    ensures R.Balanced(LocalStep(c, a).l)
  {
    hide R.Balanced, R.Conclude, R.Step, R.Abandon, O.Enqueue, O.DropOutput, O.DropReceiver, R.Genuine;
    match a
    case Send(topic, limit, payload) => R.StepKeepsBalance(c.l, R.Send(topic, limit, payload));
    case DropOutput => R.StepKeepsBalance(c.l, R.OutputDropped);
    case DropReceiver => R.StepKeepsBalance(c.l, R.ReceiverDropped);
    case Cancel => R.AbandonKeepsBalance(c.l);
    case RecoverCrash =>
      if c.place.Crashed? {
        CrashIsGenuine(c.l);
        R.ConcludeKeepsBalance(c.l, false, None);
      }
    case Finish =>
      if c.place.Finishing? { R.ConcludeKeepsBalance(c.l, c.place.finishedTopical, c.place.result); }
    case _ =>
  }

  lemma CrashIsGenuine(l: R.Ledger)
    requires l.hand.Some?
    ensures R.Genuine(l, false, None)
    ensures var l' := R.Conclude(l, false, None).0; l'.hand.None? && !l'.s.Open()
  {
  }

  lemma SendShape(l: R.Ledger, topic: Option<string>, limit: nat, payload: O.Payload)
    requires l.s.Valid()
    ensures var l', result := R.Step(l, R.Send(topic, limit, payload)), O.Enqueue(l.s, topic, limit, payload).1;
      && l'.hand == l.hand && l'.s.receiverClosed == l.s.receiverClosed
      && (l'.s.senderClosed <==> l.s.senderClosed || result.ControlFull?) && (result.Closed? ==> l' == l)
  {
    R.EnqueueKeepsValid(l.s, topic, limit, payload);
    hide O.Enqueue, O.Admits;
  }

  lemma ConcludeShape(l: R.Ledger, topical: bool, result: Option<seq<O.Frame>>)
    requires l.s.Valid()
    ensures var (l', delivered) := R.Conclude(l, topical, result);
      && l'.hand.None? && l'.s.receiverClosed == l.s.receiverClosed
      && (l.s.senderClosed ==> l'.s.senderClosed) && (delivered.Some? ==> l'.s == l.s && l.s.Open())
  {
    R.FinishKeepsValid(l.s, topical, result);
    hide O.Finish, R.FateOf;
  }

  lemma ReceiverStepKeepsWakeups(c: Client, a: Action)
    requires Healthy(c)
    requires a in {NotifyReady, NotifyClosed, Receive, Check, Wake, SeeClosed, Acquire, TakeBatch}
    ensures Healthy(LocalStep(c, a))
  {
    hide R.Balanced, R.Conclude, R.Step, R.Genuine, R.Abandon;
  }

  lemma SenderStepKeepsWakeups(c: Client, a: Action)
    requires Healthy(c) && c.l.s.Valid() && (a.Send? || a.DropOutput?)
    ensures NoLostWakeup(LocalStep(c, a)) && InHand(LocalStep(c, a))
  {
    hide R.Balanced, O.Enqueue, O.State.Valid, R.Genuine;
    match a
    case Send(topic, limit, payload) =>
      hide R.Step;
      SendShape(c.l, topic, limit, payload);
      SendKeepsGenuine(c, topic, limit, payload);
    case DropOutput => DropKeepsGenuine(c);
  }

  lemma EndingStepKeepsWakeups(c: Client, a: Action)
    requires Healthy(c) && c.l.s.Valid() && a in {RecoverCrash, Finish, Cancel, DropReceiver}
    ensures NoLostWakeup(LocalStep(c, a)) && InHand(LocalStep(c, a))
  {
    hide R.Balanced, R.Conclude, O.State.Valid, R.Genuine;
    match a
    case RecoverCrash =>
      if c.place.Crashed? {
        CrashIsGenuine(c.l);
        ConcludeShape(c.l, false, None);
        ClosedIsGenuine(R.Conclude(c.l, false, None).0, c.place.crashedTopical, None);
      }
    case Finish => if c.place.Finishing? { ConcludeShape(c.l, c.place.finishedTopical, c.place.result); }
    case _ =>
  }

  lemma LocalStepKeepsWakeups(c: Client, a: Action)
    requires Healthy(c)
    ensures Healthy(LocalStep(c, a))
  {
    assert c.l.s.Valid() by { hide R.Settles, Basics.Subsequence; }
    hide R.Balanced, O.State.Valid, LocalStep, NoLostWakeup, InHand;
    LocalStepKeepsLedger(c, a);
    if a.Send? || a.DropOutput? { SenderStepKeepsWakeups(c, a); }
    else if a in {RecoverCrash, Finish, Cancel, DropReceiver} { EndingStepKeepsWakeups(c, a); }
    else { ReceiverStepKeepsWakeups(c, a); }
  }

  lemma ClosedIsGenuine(l: R.Ledger, topical: bool, result: Option<seq<O.Frame>>)
    requires !l.s.Open()
    ensures R.Genuine(l, topical, result)
  {
  }

  lemma SendKeepsGenuine(c: Client, topic: Option<string>, limit: nat, payload: O.Payload)
    requires Healthy(c)
    ensures c.place.Finishing? ==>
      R.Genuine(R.Step(c.l, R.Send(topic, limit, payload)), c.place.finishedTopical, c.place.result)
  {
    assert c.l.s.Valid() by { hide R.Settles, Basics.Subsequence; }
    SendShape(c.l, topic, limit, payload);
    hide R.Step, R.Balanced, O.State.Valid;
  }

  lemma DropKeepsGenuine(c: Client)
    ensures c.place.Finishing? ==>
      R.Genuine(R.Step(c.l, R.OutputDropped), c.place.finishedTopical, c.place.result)
  {
  }

  lemma LocalStepKeepsPlace(c: Client, a: Action)
    requires Healthy(c)
    ensures LocalStep(c, a).place.Holding? <==> c.place.Holding?
    ensures LocalStep(c, a).place.AwaitingJob? ==>
      LocalStep(c, a).place == c.place && LocalStep(c, a).l.hand == c.l.hand
    ensures LocalStep(c, a).l.s.Open() ==> c.l.s.Open()
  {
    hide R.Balanced, O.SendTopic, O.FrameBytes;
  }

  /**
   Replacing one client is safe when the replacement is healthy, permits still add up,
   jobs keep their clients, and whoever awaits a job awaits its own.
   */
  lemma PutKeepsSound(s: Pool, id: nat, c: Client, s': Pool)
    requires Sound(s) && id in s.clients
    requires Healthy(c)
    requires s'.clients == s.clients[id := c] && s'.workers == s.workers
    requires forall j :: j in s'.jobs ==> j < s'.nextJob && s'.jobs[j].client in s.clients
    requires forall j :: j in s.jobs && s.jobs[j].client != id ==> j in s'.jobs && s'.jobs[j] == s.jobs[j]
    requires c.place.AwaitingJob? ==> c.place.job in s'.jobs && IsFor(s'.jobs[c.place.job], id, c)
    requires s'.free + (if c.place.Holding? then 1 else 0) + |s'.jobs|
          == s.free + (if s.clients[id].place.Holding? then 1 else 0) + |s.jobs|
    ensures Sound(s')
  {
    hide Healthy, IsFor, JobsMatch, Holders;
    HoldersAfterPut(s, id, c, s');
    JobsAfterPut(s, id, c, s');
    forall other | other in s'.clients ensures Healthy(s'.clients[other]) {
      assert s'.clients[other] == if other == id then c else s.clients[other];
    }
  }

  lemma HoldersAfterPut(s: Pool, id: nat, c: Client, s': Pool)
    requires id in s.clients && s'.clients == s.clients[id := c]
    ensures |Holders(s')| + (if s.clients[id].place.Holding? then 1 else 0)
         == |Holders(s)| + (if c.place.Holding? then 1 else 0)
  {
    var others := Holders(s) - {id};
    assert Holders(s) == if s.clients[id].place.Holding? then others + {id} else others;
    assert Holders(s') == if c.place.Holding? then others + {id} else others;
  }

  lemma JobsAfterPut(s: Pool, id: nat, c: Client, s': Pool)
    requires JobsMatch(s) && id in s.clients && s'.clients == s.clients[id := c]
    requires forall j :: j in s'.jobs ==> j < s'.nextJob && s'.jobs[j].client in s.clients
    requires forall j :: j in s.jobs && s.jobs[j].client != id ==> j in s'.jobs && s'.jobs[j] == s.jobs[j]
    requires c.place.AwaitingJob? ==> c.place.job in s'.jobs && IsFor(s'.jobs[c.place.job], id, c)
    ensures JobsMatch(s')
  {
  }

  lemma LocalKeepsSound(s: Pool, id: nat, a: Action)
    requires Sound(s) && id in s.clients
    ensures Sound(Put(s, id, LocalStep(s.clients[id], a)))
  {
    hide Healthy, LocalStep, PermitsConserved;
    LocalStepKeepsWakeups(s.clients[id], a);
    LocalStepKeepsPlace(s.clients[id], a);
    PutKeepsSound(s, id, LocalStep(s.clients[id], a), Put(s, id, LocalStep(s.clients[id], a)));
  }

  /** Every step of every participant keeps permits, jobs and wake-ups in order. */
  lemma StepKeepsSound(s: Pool, e: Event)
    requires Sound(s)
    ensures Sound(Step(s, e))
  {
    match e
    case At(id, a) =>
      if id in s.clients {
        if a.Acquire? { AcquireKeepsSound(s, id); }
        else if a.TakeBatch? { TakeKeepsSound(s, id); }
        else { LocalKeepsSound(s, id, a); }
      }
    case StartJob(j) => StartKeepsSound(s, j);
    case EndJob(j, panicked) => EndKeepsSound(s, j, panicked);
  }

  lemma AcquireKeepsSound(s: Pool, id: nat)
    requires Sound(s) && id in s.clients
    ensures Sound(AcquireStep(s, id, s.clients[id]))
  {
    var c := s.clients[id];
    var s' := AcquireStep(s, id, c);
    if s' != s { PutKeepsSound(s, id, c.(place := Holding), s'); }
  }

  lemma TakeKeepsSound(s: Pool, id: nat)
    requires Sound(s) && id in s.clients
    ensures Sound(TakeStep(s, id, s.clients[id]))
  {
    hide Healthy, PermitsConserved, O.Take;
    var c := s.clients[id];
    if c.place.Holding? {
      TakerStaysHealthy(s, id, c);
      var s' := TakeStep(s, id, c);
      assert s.nextJob !in s.jobs;
      PutKeepsSound(s, id, s'.clients[id], s');
    }
  }

  lemma TakerStaysHealthy(s: Pool, id: nat, c: Client)
    requires Healthy(c) && c.place.Holding?
    ensures id in TakeStep(s, id, c).clients && Healthy(TakeStep(s, id, c).clients[id])
  {
    hide R.Balanced, O.State.Valid, R.TakeInHand;
    R.TakeKeepsBalance(c.l);
    TakeShape(c.l);
  }

  lemma TakeShape(l: R.Ledger)
    requires R.Balanced(l) && l.hand.None?
    ensures var l', result := R.TakeInHand(l), O.Take(l.s).1;
      && l'.s.receiverClosed == l.s.receiverClosed && l'.s.senderClosed == l.s.senderClosed
      && (result.Taken? ==> l'.hand == Some(result.batch)) && (!result.Taken? ==> l' == l)
  {
    assert l.s.Valid() by { hide R.Settles, Basics.Subsequence; }
    R.TakeKeepsValid(l.s);
    hide R.Balanced;
  }

  lemma JobCount(s: Pool, s': Pool, j: nat)
    requires s'.jobs == s.jobs - {j} && j in s.jobs
    ensures |s'.jobs| == |s.jobs| - 1
  {
    assert s'.jobs.Keys == s.jobs.Keys - {j};
  }

  lemma StartKeepsSound(s: Pool, j: nat)
    requires Sound(s)
    ensures Sound(StartStep(s, j))
  {
    var s' := StartStep(s, j);
    hide Healthy;
    assert s'.jobs.Keys == s.jobs.Keys;
    assert Holders(s') == Holders(s);
  }

  lemma WaiterStaysHealthy(c: Client, job: Job)
    requires Healthy(c) && c.place.AwaitingJob? && IsFor(job, job.client, c) && job.started
    ensures Healthy(c.(place := Crashed(c.place.topical)))
    ensures Healthy(c.(place := Finishing(c.place.topical, job.outcome)))
  {
    hide R.Balanced;
  }

  lemma EndKeepsSound(s: Pool, j: nat, panicked: bool)
    requires Sound(s)
    ensures Sound(EndStep(s, j, panicked))
  {
    hide Healthy, PermitsConserved;
    var s' := EndStep(s, j, panicked);
    if s' != s {
      JobCount(s, s', j);
      var id := s.jobs[j].client;
      var c := s.clients[id];
      if c.place.AwaitingJob? && c.place.job == j { WaiterStaysHealthy(c, s.jobs[j]); }
      assert s'.clients == s.clients[id := s'.clients[id]];
      PutKeepsSound(s, id, s'.clients[id], s');
    }
  }

  lemma {:induction false} RunsStaySound(s: Pool, es: seq<Event>)
    requires Sound(s)
    ensures Sound(Run(s, es))
    decreases |es|
  {
    if es != [] {
      StepKeepsSound(s, es[0]);
      RunsStaySound(Step(s, es[0]), es[1..]);
    }
  }

  /** Idle receivers on empty open channels, all permits free. */
  function Fresh(workers: nat, ids: set<nat>, capacity: nat, byteLimit: nat): Pool {
    Pool(workers, workers,
         map id | id in ids :: Client(R.Start(capacity, byteLimit), Idle, false, false, 0, 0, []),
         map[], 0)
  }

  lemma AllRunsAreSound(workers: nat, ids: set<nat>, capacity: nat, byteLimit: nat, es: seq<Event>)
    requires workers > 0 && capacity > 0 && byteLimit > 0
    ensures Sound(Run(Fresh(workers, ids, capacity, byteLimit), es))
  {
    var s := Fresh(workers, ids, capacity, byteLimit);
    assert Holders(s) == {};
    RunsStaySound(s, es);
  }

  /**
   A permit given to an encoder comes back only when that encoder ends: no other event,
   in particular no cancellation and no disconnect, removes the job or frees its permit.
   */
  lemma JobKeepsItsPermit(s: Pool, e: Event, j: nat)
    requires Sound(s) && j in s.jobs
    ensures var s' := Step(s, e);
      && (j !in s'.jobs ==> e.EndJob? && e.ended == j && s'.free == s.free + 1)
      && (e.At? && e.action.Cancel? ==> s'.free == s.free && s'.jobs == s.jobs)
      && (s'.free > s.free ==> e.EndJob? || (e.At? && e.action.TakeBatch? && e.client in Holders(s)))
  {
    hide Healthy, PermitsConserved, LocalStep, O.Take;
  }

  /** How many batches were taken so far. */
  function Taken(c: Client): nat { |c.l.takenTopics| + |c.l.takenControl| }

  lemma LocalStepTakesNothing(c: Client, a: Action)
    ensures Taken(LocalStep(c, a)) == Taken(c)
  {
    hide O.Enqueue, O.Finish, R.FateOf;
  }

  /** A batch leaves a lane through `recv` only in the hands of a permit holder. */
  lemma OnlyHoldersTake(s: Pool, e: Event, id: nat)
    requires id in s.clients
    ensures var s' := Step(s, e); id in s'.clients
    ensures var c, c' := s.clients[id], Step(s, e).clients[id];
      Taken(c') != Taken(c) ==>
        && e == At(id, TakeBatch)
        && id in Holders(s)
        && Taken(c') == Taken(c) + 1
        && O.Take(c.l.s).1.Taken?
        && c'.l.s == O.Take(c.l.s).0 && c'.l.hand == Some(O.Take(c.l.s).1.batch)
  {
    hide LocalStep;
    match e
    case At(other, a) =>
      if other in s.clients && !a.Acquire? && !a.TakeBatch? { LocalStepTakesNothing(s.clients[other], a); }
    case StartJob(_) =>
    case EndJob(_, _) =>
  }
}

/** Left to itself, the encoding runtime comes to rest, with every receiver settled (src/outgoing.rs). */
module EncodingProgress {
  import opened Basics
  import opened EncodingPool
  import O = Outgoing
  import R = OutgoingRuns

  /** What the runtime does on its own, with no new send, call, drop or cancellation; encoders may panic. */
  predicate Internal(e: Event) {
    e.At? ==> e.action in {NotifyReady, NotifyClosed, Check, Wake, Acquire, SeeClosed, TakeBatch, RecoverCrash, Finish}
  }

  /** `recv` has returned, or rightly sleeps because there is nothing to report. */
  predicate Settled(c: Client) {
    c.place.Idle? || (c.place.Parked? && !HasNews(c.l.s))
  }

  /** Nothing the runtime could do changes anything. */
  ghost predicate Quiet(s: Pool) {
    forall e :: Internal(e) ==> Step(s, e) == s
  }

  // ------------------------------------------------------------ rest is settled

  /** A job can be started or, once started, ended. */
  lemma JobCanMove(s: Pool, j: nat)
    requires JobsMatch(s) && j in s.jobs
    ensures Step(s, if s.jobs[j].started then EndJob(j, false) else StartJob(j)) != s
  {
    var s' := Step(s, if s.jobs[j].started then EndJob(j, false) else StartJob(j));
    assert j in s'.jobs ==> s'.jobs[j] != s.jobs[j];
  }

  lemma QuietHasNoJobs(s: Pool)
    requires JobsMatch(s) && Quiet(s)
    ensures s.jobs == map[]
  {
    hide Step, JobsMatch;
    if j :| j in s.jobs { JobCanMove(s, j); }
  }

  /** A receiver inside `recv` and not waiting for a permit has something to do. */
  lemma PlacesMove(c: Client)
    requires NoLostWakeup(c)
    ensures c.place.Checking? ==> LocalStep(c, Check).place != c.place
    ensures c.place.Crashed? ==> LocalStep(c, RecoverCrash).place != c.place
    ensures c.place.Finishing? ==> LocalStep(c, Finish).place != c.place
    ensures c.place.Parked? && HasNews(c.l.s) ==>
      LocalStep(c, if c.readyToken then Wake else NotifyReady) != c
  {
    hide R.Conclude;
  }

  lemma HolderMoves(s: Pool, id: nat)
    requires id in s.clients && s.clients[id].place.Holding?
    ensures id in Step(s, At(id, TakeBatch)).clients
    ensures Step(s, At(id, TakeBatch)).clients[id].place != s.clients[id].place
  {
  }

  /** Where a receiver at rest can be. */
  lemma QuietPlaces(s: Pool, id: nat)
    requires Sound(s) && Quiet(s) && id in s.clients
    ensures var c := s.clients[id];
      c.place.Idle? || (c.place.Parked? && !HasNews(c.l.s)) || (c.place.AwaitingPermit? && s.free == 0)
  {
    hide R.Balanced, LocalStep, TakeStep;
    QuietHasNoJobs(s);
    var c := s.clients[id];
    assert Healthy(c);
    PlacesMove(c);
    if c.place.Holding? { HolderMoves(s, id); }
    var e := match c.place
      case Checking => At(id, Check)
      case Holding => At(id, TakeBatch)
      case Crashed(_) => At(id, RecoverCrash)
      case Finishing(_, _) => At(id, Finish)
      case AwaitingPermit => At(id, Acquire)
      case _ => At(id, if c.readyToken then Wake else NotifyReady);
    assert Internal(e);
    assert Step(s, e) == s;
    assert id in Step(s, e).clients && Step(s, e).clients[id] == c;
  }

  /** Every receiver has returned or sleeps with nothing to report, no encoder runs, and every permit is free. */
  ghost predicate AtRest(s: Pool) {
    (forall id :: id in s.clients ==> Settled(s.clients[id])) && s.jobs == map[] && s.free == s.workers
  }

  lemma QuietIsAtRest(s: Pool)
    requires Sound(s) && s.workers > 0 && Quiet(s)
    ensures AtRest(s)
  {
    QuietHasNoJobs(s);
    assert Holders(s) == {} by {
      forall id | id in s.clients ensures !s.clients[id].place.Holding? { QuietPlaces(s, id); }
    }
    assert s.free == s.workers;
    forall id | id in s.clients ensures Settled(s.clients[id]) { QuietPlaces(s, id); }
  }

  // ------------------------------------------------------------------ a measure

  ghost function Total(m: map<nat, nat>): nat {
    if m == map[] then 0
    else
      var k :| k in m;
      m[k] + Total(m - {k})
  }

  lemma {:induction false} TotalWithout(m: map<nat, nat>, k: nat)
    requires k in m
    ensures Total(m) == m[k] + Total(m - {k})
    decreases |m|
  {
    var l :| l in m && Total(m) == m[l] + Total(m - {l});
    if l != k {
      TotalWithout(m - {l}, k);
      TotalWithout(m - {k}, l);
      assert m - {l} - {k} == m - {k} - {l};
    }
  }

  lemma TotalChanged(m: map<nat, nat>, k: nat, v: nat)
    requires k in m
    ensures Total(m[k := v]) + m[k] == Total(m) + v
  {
    TotalWithout(m, k);
    TotalWithout(m[k := v], k);
    assert m[k := v] - {k} == m - {k};
  }

  lemma TotalAdded(m: map<nat, nat>, k: nat, v: nat)
    requires k !in m
    ensures Total(m[k := v]) == Total(m) + v
  {
    TotalWithout(m[k := v], k);
    assert m[k := v] - {k} == m;
  }

  function Load(c: Client): nat { |c.l.s.control| + |c.l.s.topics| }

  /** How far a place is from the end of `recv`; holding or awaiting a permit for nothing is a detour. */
  function Rank(place: Place, idle: bool): nat {
    match place
    case AwaitingJob(_, _) => 9
    case Crashed(_) => 8
    case Finishing(_, _) => 7
    case AwaitingPermit => if idle then 6 else 3
    case Holding => if idle then 5 else 2
    case Checking => 4
    case Parked => 1
    case Idle => 0
  }

  function News(owed: nat, token: bool): nat { 2 * owed + if token then 1 else 0 }

  function Weight(c: Client): nat {
    12 * Load(c) + 4 * News(c.owedReady, c.readyToken) + News(c.owedClosed, c.closedToken)
    + Rank(c.place, Load(c) == 0)
  }

  function JobWeight(job: Job): nat { if job.started then 1 else 2 }

  function Weights(clients: map<nat, Client>): map<nat, nat> {
    map id | id in clients :: Weight(clients[id])
  }

  function JobWeights(jobs: map<nat, Job>): map<nat, nat> {
    map j | j in jobs :: JobWeight(jobs[j])
  }

  ghost function Measure(s: Pool): nat {
    Total(Weights(s.clients)) + Total(JobWeights(s.jobs))
  }

  lemma ClientChanged(clients: map<nat, Client>, id: nat, c: Client)
    requires id in clients
    ensures Total(Weights(clients[id := c])) + Weight(clients[id]) == Total(Weights(clients)) + Weight(c)
  {
    TotalChanged(Weights(clients), id, Weight(c));
    assert Weights(clients[id := c]) == Weights(clients)[id := Weight(c)];
  }

  lemma JobStarted(jobs: map<nat, Job>, j: nat, job: Job)
    requires j in jobs
    ensures Total(JobWeights(jobs[j := job])) + JobWeight(jobs[j]) == Total(JobWeights(jobs)) + JobWeight(job)
  {
    TotalChanged(JobWeights(jobs), j, JobWeight(job));
    assert JobWeights(jobs[j := job]) == JobWeights(jobs)[j := JobWeight(job)];
  }

  lemma JobAdded(jobs: map<nat, Job>, j: nat, job: Job)
    requires j !in jobs
    ensures Total(JobWeights(jobs[j := job])) == Total(JobWeights(jobs)) + JobWeight(job)
  {
    TotalAdded(JobWeights(jobs), j, JobWeight(job));
    assert JobWeights(jobs[j := job]) == JobWeights(jobs)[j := JobWeight(job)];
  }

  lemma JobEnded(jobs: map<nat, Job>, j: nat)
    requires j in jobs
    ensures Total(JobWeights(jobs)) == JobWeight(jobs[j]) + Total(JobWeights(jobs - {j}))
  {
    TotalWithout(JobWeights(jobs), j);
    assert JobWeights(jobs - {j}) == JobWeights(jobs) - {j};
  }

  // ------------------------------------------------------- each step lightens

  lemma LocalLightens(c: Client, a: Action)
    requires a in {NotifyReady, NotifyClosed, Check, Wake, SeeClosed, RecoverCrash, Finish}
    ensures LocalStep(c, a) == c || Weight(LocalStep(c, a)) < Weight(c)
  {
  }

  lemma AcquireLightens(s: Pool, id: nat)
    requires id in s.clients
    ensures AcquireStep(s, id, s.clients[id]) == s || Measure(AcquireStep(s, id, s.clients[id])) < Measure(s)
  {
    ClientChanged(s.clients, id, s.clients[id].(place := Holding));
  }

  lemma TakenWeight(c: Client, place: Place)
    requires c.place.Holding? && O.Take(c.l.s).1.Taken? && (place.AwaitingJob? || place.Finishing?)
    ensures Weight(c.(l := R.TakeInHand(c.l), place := place)) + 3 <= Weight(c)
  {
  }

  lemma TakeLightens(s: Pool, id: nat)
    requires JobsMatch(s) && id in s.clients
    ensures TakeStep(s, id, s.clients[id]) == s || Measure(TakeStep(s, id, s.clients[id])) < Measure(s)
  {
    hide Total, Weights, JobWeights;
    var c, s' := s.clients[id], TakeStep(s, id, s.clients[id]);
    if c.place.Holding? {
      ClientChanged(s.clients, id, s'.clients[id]);
      if O.Take(c.l.s).1.Taken? {
        TakenWeight(c, s'.clients[id].place);
        hide Weight;
        var payload := O.Take(c.l.s).1.batch.payload;
        if !payload.Frames? { JobAdded(s.jobs, s.nextJob, Job(id, payload, false, None)); }
      }
    }
  }

  lemma JobStepLightens(s: Pool, e: Event)
    requires e.StartJob? || e.EndJob?
    ensures Step(s, e) == s || Measure(Step(s, e)) < Measure(s)
  {
    hide Total, Weights, JobWeights;
    var s' := Step(s, e);
    match e
    case StartJob(j) =>
      if j in s.jobs && s' != s { JobStarted(s.jobs, j, s'.jobs[j]); }
    case EndJob(j, _) =>
      if j in s.jobs && s' != s {
        JobEnded(s.jobs, j);
        var id := s.jobs[j].client;
        ClientChanged(s.clients, id, s'.clients[id]);
      }
  }

  /** Every step the runtime takes on its own that changes anything makes the pool lighter. */
  lemma InternalLightens(s: Pool, e: Event)
    requires Sound(s) && Internal(e)
    ensures Step(s, e) == s || Measure(Step(s, e)) < Measure(s)
  {
    hide Measure, Healthy, PermitsConserved, LocalStep, AcquireStep, TakeStep, Weight, JobsMatch;
    if !e.At? {
      JobStepLightens(s, e);
    } else if e.client in s.clients {
      if e.action.Acquire? {
        AcquireLightens(s, e.client);
      } else if e.action.TakeBatch? {
        TakeLightens(s, e.client);
      } else {
        LocalLightens(s.clients[e.client], e.action);
        LocalStepLightens(s, e.client, LocalStep(s.clients[e.client], e.action));
      }
    }
  }

  lemma LocalStepLightens(s: Pool, id: nat, c: Client)
    requires id in s.clients && (c == s.clients[id] || Weight(c) < Weight(s.clients[id]))
    ensures Put(s, id, c) == s || Measure(Put(s, id, c)) < Measure(s)
  {
    hide Weight, Total, Weights, JobWeights;
    ClientChanged(s.clients, id, c);
    assert c == s.clients[id] ==> s.clients[id := c] == s.clients;
  }

  // ------------------------------------------------------------------ schedules

  /** How many of the events change something when their turn comes. */
  ghost function Effective(s: Pool, es: seq<Event>): nat
    decreases |es|
  {
    if es == [] then 0 else (if Step(s, es[0]) == s then 0 else 1) + Effective(Step(s, es[0]), es[1..])
  }

  /** However the runtime's steps are interleaved, no more than the pool's weight of them do anything. */
  lemma {:induction false} WorkIsBounded(s: Pool, es: seq<Event>)
    requires Sound(s) && forall i :: 0 <= i < |es| ==> Internal(es[i])
    ensures Effective(s, es) + Measure(Run(s, es)) <= Measure(s)
    decreases |es|
  {
    hide Sound, Step, Measure;
    if es != [] {
      InternalLightens(s, es[0]);
      StepKeepsSound(s, es[0]);
      WorkIsBounded(Step(s, es[0]), es[1..]);
    }
  }

  /** From every reachable state, the runtime's own steps can bring it to rest. */
  lemma {:induction false} CanSettle(s: Pool) returns (es: seq<Event>)
    requires Sound(s) && s.workers > 0
    ensures forall i :: 0 <= i < |es| ==> Internal(es[i])
    ensures AtRest(Run(s, es))
    decreases Measure(s)
  {
    hide Sound, Step, Measure, AtRest;
    if Quiet(s) {
      QuietIsAtRest(s);
      es := [];
    } else {
      var e :| Internal(e) && Step(s, e) != s;
      InternalLightens(s, e);
      StepKeepsSound(s, e);
      StepKeepsWorkers(s, e);
      var rest := CanSettle(Step(s, e));
      es := [e] + rest;
      assert es[1..] == rest;
    }
  }

  lemma StepKeepsWorkers(s: Pool, e: Event)
    ensures Step(s, e).workers == s.workers
  {
  }

  ghost function StateAt(s: Pool, schedule: nat -> Event, n: nat): Pool {
    if n == 0 then s else Step(StateAt(s, schedule, n - 1), schedule(n - 1))
  }

  /** The step could do something at any time from `n` on. */
  ghost predicate Enabled(s: Pool, schedule: nat -> Event, n: nat, e: Event) {
    forall m :: m >= n ==> Step(StateAt(s, schedule, m), e) != StateAt(s, schedule, m)
  }

  /** A step of the runtime that could do something from some time on is taken after that time. */
  ghost predicate Fair(s: Pool, schedule: nat -> Event) {
    forall n, e :: Internal(e) && Enabled(s, schedule, n, e) ==> exists m :: m >= n && schedule(m) == e
  }

  ghost predicate Autonomous(schedule: nat -> Event) {
    forall n :: Internal(schedule(n))
  }

  lemma {:induction false} Lighter(s: Pool, schedule: nat -> Event, n: nat, m: nat)
    requires Sound(StateAt(s, schedule, n)) && Autonomous(schedule) && n <= m
    ensures Sound(StateAt(s, schedule, m))
    ensures StateAt(s, schedule, m) == StateAt(s, schedule, n)
            || Measure(StateAt(s, schedule, m)) < Measure(StateAt(s, schedule, n))
    decreases m - n
  {
    hide Sound, Step, Measure;
    if n < m {
      Lighter(s, schedule, n, m - 1);
      InternalLightens(StateAt(s, schedule, m - 1), schedule(m - 1));
      StepKeepsSound(StateAt(s, schedule, m - 1), schedule(m - 1));
    }
  }

  lemma OneStepOn(s: Pool, schedule: nat -> Event, n: nat)
    ensures StateAt(s, schedule, n + 1) == Step(StateAt(s, schedule, n), schedule(n))
  {
  }

  /** Nothing that could happen is put off for ever. */
  lemma StandstillIsQuiet(s: Pool, schedule: nat -> Event, n: nat)
    requires Fair(s, schedule)
    requires forall k :: k >= n ==> StateAt(s, schedule, k) == StateAt(s, schedule, n)
    ensures Quiet(StateAt(s, schedule, n))
  {
    hide Step, StateAt;
    forall e | Internal(e) ensures Step(StateAt(s, schedule, n), e) == StateAt(s, schedule, n) {
      if Enabled(s, schedule, n, e) {
        var m :| m >= n && schedule(m) == e;
        OneStepOn(s, schedule, m);
      }
    }
  }

  /** A fair schedule that is not at rest moves on. */
  lemma MovesOn(s: Pool, schedule: nat -> Event, n: nat) returns (m: nat)
    requires Sound(StateAt(s, schedule, n)) && Autonomous(schedule) && Fair(s, schedule)
    requires !Quiet(StateAt(s, schedule, n))
    ensures m >= n && Measure(StateAt(s, schedule, m)) < Measure(StateAt(s, schedule, n))
  {
    hide Sound, Step, Measure, Quiet, Fair;
    if forall k :: k >= n ==> StateAt(s, schedule, k) == StateAt(s, schedule, n) {
      StandstillIsQuiet(s, schedule, n);
      assert false;
    } else {
      m :| m >= n && StateAt(s, schedule, m) != StateAt(s, schedule, n);
      Lighter(s, schedule, n, m);
    }
  }

  lemma {:induction false} ComesToRest(s: Pool, schedule: nat -> Event, n: nat) returns (m: nat)
    requires Sound(StateAt(s, schedule, n)) && Autonomous(schedule) && Fair(s, schedule)
    ensures m >= n && Sound(StateAt(s, schedule, m)) && Quiet(StateAt(s, schedule, m))
    decreases Measure(StateAt(s, schedule, n))
  {
    hide Sound, Step, Measure, StateAt, Fair, Quiet;
    if Quiet(StateAt(s, schedule, n)) {
      m := n;
    } else {
      var k := MovesOn(s, schedule, n);
      Lighter(s, schedule, n, k);
      m := ComesToRest(s, schedule, k);
    }
  }

  lemma {:induction false} RestStays(s: Pool, schedule: nat -> Event, n: nat, m: nat)
    requires Quiet(StateAt(s, schedule, n)) && Autonomous(schedule) && n <= m
    ensures StateAt(s, schedule, m) == StateAt(s, schedule, n)
    decreases m - n
  {
    hide Step;
    if n < m { RestStays(s, schedule, n, m - 1); }
  }

  lemma {:induction false} WorkersStay(s: Pool, schedule: nat -> Event, n: nat)
    ensures StateAt(s, schedule, n).workers == s.workers
  {
    hide Step;
    if n > 0 {
      WorkersStay(s, schedule, n - 1);
      StepKeepsWorkers(StateAt(s, schedule, n - 1), schedule(n - 1));
    }
  }

  /**
   From every reachable state, under every fair schedule of the runtime's own steps, there is a
   time from which on nothing changes and every receiver has returned or sleeps with nothing to
   report: no wake-up is lost and no permit is stranded, even when encoders panic.
   */
  lemma FairSchedulesSettle(s: Pool, schedule: nat -> Event) returns (n: nat)
    requires Sound(s) && s.workers > 0 && Autonomous(schedule) && Fair(s, schedule)
    ensures forall m :: m >= n ==> StateAt(s, schedule, m) == StateAt(s, schedule, n)
    ensures AtRest(StateAt(s, schedule, n))
  {
    hide Sound, Step, Measure, Fair, Quiet, AtRest;
    assert StateAt(s, schedule, 0) == s;
    n := ComesToRest(s, schedule, 0);
    WorkersStay(s, schedule, n);
    QuietIsAtRest(StateAt(s, schedule, n));
    forall m | m >= n ensures StateAt(s, schedule, m) == StateAt(s, schedule, n) {
      RestStays(s, schedule, n, m);
    }
  }
}

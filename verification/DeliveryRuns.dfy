/** What one client of one subscription receives over a whole run (src/bridge/mod.rs, src/bridge/topics.rs). */
module DeliveryRuns {
  import opened Basics
  import opened Delivery

  datatype Event =
    | Arrival(message: Message, now: nat)
    | Tick(now: nat)
    | Register(id: Option<string>, options: Options)
    | Unregister(id: Option<string>)

  /** A delivery: what, when, and the throttle in force at that moment. */
  datatype Delivered = Delivered(message: Message, at: nat, throttle: nat)

  /** `pending` and `arrived` number the arrivals, so that equal messages stay distinguishable. */
  datatype Trace = Trace(client: Client, delivered: seq<Delivered>, taken: seq<nat>, queued: seq<nat>,
                         arrived: seq<Message>)

  ghost function Unregistered(c: Client, id: Option<string>): Client {
    c.(registrations := c.registrations - {id})
  }

  ghost function Next(t: Trace, e: Event): Trace {
    var throttle := t.client.Options().throttle;
    match e
    case Arrival(m, now) =>
      var (c, out) := Arrive(t.client, m, now);
      var t' := t.(client := c, arrived := t.arrived + [m]);
      if out.Some? then
        t'.(delivered := t.delivered + [Delivered(m, now, throttle)], taken := t.taken + [|t.arrived|])
      else if t.client.Options().queue > 0 then
        t'.(queued := Last(t.queued, t.client.Options().queue - 1) + [|t.arrived|])
      else t'
    case Tick(now) =>
      var (c, out) := Due(t.client, now);
      if out.None? || t.queued == [] then t.(client := c)
      else t.(client := c, delivered := t.delivered + [Delivered(out.value, now, throttle)],
             taken := t.taken + [t.queued[0]], queued := t.queued[1..])
    case Register(id, options) =>
      t.(client := t.client.(registrations := t.client.registrations[id := options]))
    case Unregister(id) =>
      t.(client := Unregistered(t.client, id))
  }

  function Last(xs: seq<nat>, keep: nat): (r: seq<nat>) {
    if |xs| <= keep then xs else xs[|xs| - keep..]
  }

  ghost function Run(t: Trace, events: seq<Event>): Trace {
    if events == [] then t else Next(Run(t, events[..|events| - 1]), events[|events| - 1])
  }

  /** A client joins, possibly with a retained sample replayed to it. */
  function Start(id: Option<string>, options: Options, retained: Option<Message>, now: nat): Trace {
    Trace(Join(id, options, retained, now),
          if retained.Some? then [Delivered(retained.value, now, options.throttle)] else [], [], [], [])
  }

  // ---------- order, origin and spacing ----------

  ghost predicate Ordered(taken: seq<nat>, queued: seq<nat>, bound: nat) {
    && (forall i, j :: 0 <= i < j < |taken| ==> taken[i] < taken[j])
    && (forall i, j :: 0 <= i < j < |queued| ==> queued[i] < queued[j])
    && (forall i, j :: 0 <= i < |taken| && 0 <= j < |queued| ==> taken[i] < queued[j])
    && (forall i :: 0 <= i < |taken| ==> taken[i] < bound)
    && (forall i :: 0 <= i < |queued| ==> queued[i] < bound)
  }

  ghost predicate Waiting(pending: seq<Message>, queued: seq<nat>, arrived: seq<Message>) {
    |pending| == |queued| && forall i :: 0 <= i < |queued| ==> queued[i] < |arrived| && pending[i] == arrived[queued[i]]
  }

  ghost predicate Received(delivered: seq<Delivered>, taken: seq<nat>, arrived: seq<Message>, replayed: nat) {
    && |delivered| == replayed + |taken|
    && forall i :: 0 <= i < |taken| ==> taken[i] < |arrived| && delivered[replayed + i].message == arrived[taken[i]]
  }

  /** Deliveries after the replayed sample, then the queue, are arrivals in arrival order, none twice. */
  ghost predicate InOrder(t: Trace, replayed: nat) {
    && Ordered(t.taken, t.queued, |t.arrived|)
    && Received(t.delivered, t.taken, t.arrived, replayed)
    && Waiting(t.client.pending, t.queued, t.arrived)
  }

  /** Each delivery comes at least the throttle of its moment after the one before. */
  ghost predicate Spaced(t: Trace) {
    && (forall i :: 0 < i < |t.delivered| ==>
          Since(t.delivered[i].at, t.delivered[i - 1].at) >= t.delivered[i].throttle)
    && t.client.last == if t.delivered == [] then None else Some(t.delivered[|t.delivered| - 1].at)
  }

  lemma PushKeepsOrdered(taken: seq<nat>, queued: seq<nat>, n: nat, keep: nat)
    requires Ordered(taken, queued, n)
    ensures Ordered(taken, Last(queued, keep) + [n], n + 1)
  {
  }

  lemma PushKeepsWaiting(pending: seq<Message>, queued: seq<nat>, arrived: seq<Message>, keep: nat, m: Message)
    requires Waiting(pending, queued, arrived)
    ensures Waiting(Trim(pending, keep) + [m], Last(queued, keep) + [|arrived|], arrived + [m])
  {
  }

  lemma ArrivalKeepsOrder(t: Trace, m: Message, now: nat, replayed: nat)
    requires InOrder(t, replayed)
    ensures InOrder(Next(t, Arrival(m, now)), replayed)
  {
    hide Client.Options, Last, Trim;
    var queue := t.client.Options().queue;
    if t.client.pending == [] && Ready(t.client, now) {
      assert t.queued == [];
      DeliverKeepsOrdered(t.taken, |t.arrived|);
    } else if queue > 0 {
      PushKeepsOrdered(t.taken, t.queued, |t.arrived|, queue - 1);
      PushKeepsWaiting(t.client.pending, t.queued, t.arrived, queue - 1, m);
    }
  }

  lemma DeliverKeepsOrdered(taken: seq<nat>, n: nat)
    requires Ordered(taken, [], n)
    ensures Ordered(taken + [n], [], n + 1)
  {
  }

  lemma TickKeepsOrder(t: Trace, now: nat, replayed: nat)
    requires InOrder(t, replayed)
    ensures InOrder(Next(t, Tick(now)), replayed)
  {
  }

  lemma EventKeepsOrder(t: Trace, e: Event, replayed: nat)
    requires InOrder(t, replayed)
    ensures InOrder(Next(t, e), replayed)
  {
    match e
    case Arrival(m, now) => ArrivalKeepsOrder(t, m, now, replayed);
    case Tick(now) => TickKeepsOrder(t, now, replayed);
    case Register(id, options) =>
    case Unregister(id) =>
  }

  lemma EventKeepsSpacing(t: Trace, e: Event, replayed: nat)
    requires InOrder(t, replayed) && Spaced(t)
    ensures Spaced(Next(t, e))
  {
  }

  /**
   Over any run, what a client gets is at most the one replayed sample, then arrivals in
   arrival order without a repeat; consecutive deliveries keep the merged throttle.
   */
  lemma {:induction false} DeliveriesAreOrdered(id: Option<string>, options: Options, retained: Option<Message>,
                                                now: nat, events: seq<Event>)
    ensures var t := Run(Start(id, options, retained, now), events);
      && InOrder(t, if retained.Some? then 1 else 0)
      && Spaced(t)
      && (retained.Some? ==> t.delivered[0].message == retained.value)
    decreases |events|
  {
    var n := |events|;
    if n > 0 {
      DeliveriesAreOrdered(id, options, retained, now, events[..n - 1]);
      var t := Run(Start(id, options, retained, now), events[..n - 1]);
      EventKeepsOrder(t, events[n - 1], if retained.Some? then 1 else 0);
      EventKeepsSpacing(t, events[n - 1], if retained.Some? then 1 else 0);
    }
  }

  /** An arrival costs no message exactly if it goes out at once or the queue has room. */
  lemma NothingLostExactlyIfRoom(t: Trace, m: Message, now: nat, replayed: nat)
    requires InOrder(t, replayed)
    ensures var t' := Next(t, Arrival(m, now));
      |t'.taken| + |t'.queued| == |t.taken| + |t.queued| + 1
      <==> ((t.client.pending == [] && Ready(t.client, now)) || |t.client.pending| < t.client.Options().queue)
  {
  }

  // ---------- the queue limit ----------

  ghost predicate KeepsOptions(events: seq<Event>) {
    forall i :: 0 <= i < |events| ==> events[i].Arrival? || events[i].Tick?
  }

  /** Whatever was waiting before, a push leaves at most the queue length. */
  lemma PushIsBounded(c: Client, m: Message, now: nat)
    ensures var (c', out) := Arrive(c, m, now);
      |c'.pending| <= c.Options().queue || c'.pending == c.pending
  {
  }

  lemma EventKeepsBound(t: Trace, e: Event)
    requires e.Arrival? || e.Tick?
    requires |t.client.pending| <= t.client.Options().queue
    ensures Next(t, e).client.registrations == t.client.registrations
    ensures |Next(t, e).client.pending| <= t.client.Options().queue
  {
    if e.Arrival? {
      PushIsBounded(t.client, e.message, e.now);
    }
  }

  /** While the registrations stay, the queue limit holds once it holds. */
  lemma {:induction false} PendingStaysBounded(t: Trace, events: seq<Event>)
    requires KeepsOptions(events) && |t.client.pending| <= t.client.Options().queue
    ensures Run(t, events).client.registrations == t.client.registrations
    ensures |Run(t, events).client.pending| <= t.client.Options().queue
    decreases |events|
  {
    if events != [] {
      PendingStaysBounded(t, events[..|events| - 1]);
      EventKeepsBound(Run(t, events[..|events| - 1]), events[|events| - 1]);
    }
  }
}

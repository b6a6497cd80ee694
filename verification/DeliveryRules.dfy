/** When a message is delivered, queued or dropped, and under which options (src/bridge/mod.rs, src/bridge/topics.rs). */
module DeliveryRules {
  import opened Basics
  import opened Delivery
  import opened DeliveryRuns

  // ---------- the options of several registrations ----------

  /** How far a compression goes: raw samples, then CBOR, then PNG, then none. */
  function Reach(c: Compression): nat {
    match c
    case Uncompressed => 0
    case Png => 1
    case Cbor => 2
    case Raw => 3
  }

  /**
   Several registrations together get the compression that goes furthest, the least throttle and the
   least queue length of any of them, and the least fragment size of those that have one.
   */
  lemma MergedGoesFurthest(all: set<Options>)
    requires all != {}
    ensures var merged := Merged(all);
      && (forall o :: o in all ==>
            Reach(o.compression) <= Reach(merged.compression) && merged.throttle <= o.throttle && merged.queue <= o.queue
            && (o.fragment.Some? ==> merged.fragment.Some? && merged.fragment.value <= o.fragment.value))
      && (exists o :: o in all && o.compression == merged.compression)
      && (exists o :: o in all && o.throttle == merged.throttle)
      && (exists o :: o in all && o.queue == merged.queue)
      && (merged.fragment.Some? ==> exists o :: o in all && o.fragment == merged.fragment)
  {
    var merged := Merged(all);
    var some :| some in all;
    assert some.throttle in Throttles(all) && some.queue in Queues(all);
    assert Asks(all, some.compression);
    assert Asks(all, merged.compression) by { LeastAsked(all, some); }
    forall o | o in all ensures Reach(o.compression) <= Reach(merged.compression) {
      assert Asks(all, o.compression);
    }
    forall o | o in all && o.fragment.Some?
      ensures merged.fragment.Some? && merged.fragment.value <= o.fragment.value
    {
      assert o.fragment.value in Fragments(all);
    }
    assert forall o :: o in all ==> o.throttle in Throttles(all) && o.queue in Queues(all);
  }

  lemma LeastAsked(all: set<Options>, some: Options)
    requires some in all
    ensures Asks(all, Merged(all).compression)
  {
    assert Asks(all, some.compression);
  }

  /** Without a registration nothing is throttled, queued or split. */
  lemma MergedOfNone()
    ensures Merged({}) == DEFAULT
  {
    assert !Asks({}, Raw) && !Asks({}, Cbor) && !Asks({}, Png);
    assert Fragments({}) == {};
  }

  // ---------- one message ----------

  /** Enough time has passed since the client was last served. */
  ghost predicate MayBeServed(c: Client, now: nat) {
    c.last.Some? ==> c.last.value + Merged(c.registrations.Values).throttle <= now
                     || Merged(c.registrations.Values).throttle == 0
  }

  function Newest(xs: seq<Message>, n: nat): seq<Message> {
    if |xs| <= n then xs else xs[|xs| - n..]
  }

  /**
   An arrival goes out at once exactly if nothing is queued and the client may be served. If not, the
   queue becomes the newest of what it was and the arrival, as many as the merged queue length allows;
   without a queue the arrival is dropped.
   */
  lemma ArrivalGoesOutIff(c: Client, m: Message, now: nat)
    ensures var (c', out) := Arrive(c, m, now);
      var queue := Merged(c.registrations.Values).queue;
      && (out == Some(m) <==> c.pending == [] && MayBeServed(c, now)) && (out.Some? ==> out == Some(m))
      && c'.registrations == c.registrations
      && (if out.Some? then c'.pending == [] && c'.last == Some(now)
          else c'.last == c.last
               && c'.pending == if queue == 0 then c.pending else Newest(c.pending + [m], queue))
  {
    var queue := Merged(c.registrations.Values).queue;
    if queue > 0 {
      assert Trim(c.pending, queue - 1) + [m] == Newest(c.pending + [m], queue);
    }
  }

  /** A tick serves a client exactly if something is queued and it may be served: with the oldest queued message. */
  lemma TickServesIff(c: Client, now: nat)
    ensures var (c', out) := Due(c, now);
      && (out.Some? <==> c.pending != [] && MayBeServed(c, now))
      && (if out.Some? then c' == c.(last := Some(now), pending := c.pending[1..]) && out == Some(c.pending[0])
          else c' == c)
  {
  }

  // ---------- over runs ----------

  /** What is queued is the newest arrivals, without a gap. */
  ghost predicate Gapless(t: Trace) {
    AreNewest(t.queued, |t.arrived|)
  }

  predicate AreNewest(queued: seq<nat>, n: nat) {
    |queued| <= n && forall i :: 0 <= i < |queued| ==> queued[i] == n - |queued| + i
  }

  lemma OneNewer(queued: seq<nat>, n: nat, keep: nat)
    requires AreNewest(queued, n)
    ensures AreNewest(DeliveryRuns.Last(queued, keep) + [n], n + 1)
  {
  }

  lemma OldestGone(queued: seq<nat>, n: nat)
    requires AreNewest(queued, n) && queued != []
    ensures AreNewest(queued[1..], n)
  {
  }

  lemma EventKeepsGapless(t: Trace, e: Event, replayed: nat)
    requires e.Arrival? || e.Tick?
    requires DeliveryRuns.InOrder(t, replayed) && Gapless(t) && t.client.Options().queue > 0
    ensures Gapless(Next(t, e)) && Next(t, e).client.registrations == t.client.registrations
  {
    hide Client.Options, Trim, AreNewest, DeliveryRuns.Last;
    assert |t.queued| == |t.client.pending| by { hide Next, Gapless; }
    if e.Arrival? { OneNewer(t.queued, |t.arrived|, t.client.Options().queue - 1); NothingQueued(|t.arrived| + 1); }
    else if t.queued != [] { OldestGone(t.queued, |t.arrived|); }
  }

  lemma NothingQueued(n: nat)
    ensures AreNewest([], n)
  {
  }

  /**
   As long as the registrations stay and there is a queue, no arrival is passed over for an older one:
   what waits is always the newest arrivals without a gap, so messages are dropped oldest first.
   */
  lemma {:induction false} OldestAreDropped(t: Trace, events: seq<Event>, replayed: nat)
    requires KeepsOptions(events) && DeliveryRuns.InOrder(t, replayed) && Gapless(t) && t.client.Options().queue > 0
    ensures var t' := Run(t, events);
      Gapless(t') && DeliveryRuns.InOrder(t', replayed) && t'.client.registrations == t.client.registrations
    decreases |events|
  {
    hide Gapless, DeliveryRuns.InOrder, Next;
    if events != [] {
      var n := |events| - 1;
      OldestAreDropped(t, events[..n], replayed);
      EventKeepsGapless(Run(t, events[..n]), events[n], replayed);
      EventKeepsOrder(Run(t, events[..n]), events[n], replayed);
    }
  }
}

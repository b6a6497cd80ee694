/** Throttled delivery to one client of a shared subscription (src/bridge/mod.rs, src/bridge/topics.rs). */
module Delivery {
  import opened Basics

  datatype Compression = Uncompressed | Png | Cbor | Raw

  datatype Options = Options(compression: Compression, fragment: Option<nat>, throttle: nat, queue: nat)

  const DEFAULT: Options := Options(Uncompressed, None, 0, 0)

  /** A message as the bridge sees it: the goal it names, if any, and an opaque body. */
  datatype Message = Message(goal: Option<nat>, body: string)

  /** `last` is the time of the latest delivery. */
  datatype Client = Client(registrations: map<Option<string>, Options>, last: Option<nat>, pending: seq<Message>)
  {
    ghost function Options(): Options {
      Merged(registrations.Values)
    }
  }

  // ---------- merged options ----------

  lemma {:induction false} LeastExists(s: set<nat>)
    requires s != {}
    ensures exists x :: IsLeast(s, x)
  {
    var e :| e in s;
    if s == {e} {
      assert IsLeast(s, e);
    } else {
      LeastExists(s - {e});
      var x :| IsLeast(s - {e}, x);
      LeastWithOneMore(s, e, x);
    }
  }

  predicate IsLeast(s: set<nat>, x: nat) {
    x in s && forall y :: y in s ==> x <= y
  }

  lemma LeastWithOneMore(s: set<nat>, e: nat, x: nat)
    requires e in s && IsLeast(s - {e}, x)
    ensures IsLeast(s, if x <= e then x else e)
  {
    forall y | y in s ensures (if x <= e then x else e) <= y {
      assert y == e || y in s - {e};
    }
  }

  ghost function Least(s: set<nat>): (r: nat)
    requires s != {}
    ensures r in s && forall y :: y in s ==> r <= y
  {
    LeastExists(s);
    var x :| IsLeast(s, x);
    x
  }

  ghost function Throttles(all: set<Options>): set<nat> { set o | o in all :: o.throttle }
  ghost function Queues(all: set<Options>): set<nat> { set o | o in all :: o.queue }
  ghost function Fragments(all: set<Options>): set<nat> { set o | o in all && o.fragment.Some? :: o.fragment.value }

  ghost predicate Asks(all: set<Options>, c: Compression) {
    exists o :: o in all && o.compression == c
  }

  /** The options of several registrations together: a function of the set, so no order matters. */
  ghost function Merged(all: set<Options>): Options {
    Options(
      if Asks(all, Raw) then Raw else if Asks(all, Cbor) then Cbor else if Asks(all, Png) then Png else Uncompressed,
      if Fragments(all) == {} then None else Some(Least(Fragments(all))),
      if all == {} then 0 else (assert forall o :: o in all ==> o.throttle in Throttles(all); Least(Throttles(all))),
      if all == {} then 0 else (assert forall o :: o in all ==> o.queue in Queues(all); Least(Queues(all))))
  }

  // ---------- as computed, visiting the registrations in some order ----------

  function Smallest(xs: seq<nat>): Option<nat> {
    if xs == [] then None
    else match Smallest(xs[1..])
      case None => Some(xs[0])
      case Some(m) => Some(if xs[0] <= m then xs[0] else m)
  }

  function OrZero(x: Option<nat>): nat { if x.None? then 0 else x.value }

  function GivenFragments(order: seq<Options>): seq<nat> {
    if order == [] then []
    else (if order[0].fragment.Some? then [order[0].fragment.value] else []) + GivenFragments(order[1..])
  }

  function InOrder(order: seq<Options>): Options {
    var first := if order == [] then DEFAULT else order[0];
    first.(throttle := OrZero(Smallest(seq(|order|, i requires 0 <= i < |order| => order[i].throttle))),
    queue := OrZero(Smallest(seq(|order|, i requires 0 <= i < |order| => order[i].queue))),
    fragment := Smallest(GivenFragments(order)),
    compression :=
      if exists i :: 0 <= i < |order| && order[i].compression == Raw then Raw
      else if exists i :: 0 <= i < |order| && order[i].compression == Cbor then Cbor
      else if exists i :: 0 <= i < |order| && order[i].compression == Png then Png
      else Uncompressed)
  }

  lemma {:induction false} SmallestIsLeast(xs: seq<nat>)
    ensures Smallest(xs).None? <==> xs == []
    ensures xs != [] ==> Smallest(xs).value in xs && forall x :: x in xs ==> Smallest(xs).value <= x
  {
    if xs != [] {
      SmallestIsLeast(xs[1..]);
      assert forall x :: x in xs ==> x == xs[0] || x in xs[1..];
      assert forall x :: x in xs[1..] ==> x in xs;
    }
  }

  lemma SmallestOfSet(xs: seq<nat>, all: set<nat>)
    requires all != {} && forall x :: x in xs <==> x in all
    ensures Smallest(xs) == Some(Least(all))
  {
    SmallestIsLeast(xs);
    var x :| x in all;
    assert x in xs;
    assert Smallest(xs).value <= Least(all) <= Smallest(xs).value;
  }

  lemma {:induction false} GivenFragmentsAre(order: seq<Options>, all: set<Options>)
    requires forall o :: o in order <==> o in all
    ensures forall x :: x in GivenFragments(order) <==> x in Fragments(all)
  {
    if order == [] {
      assert all == {};
    } else {
      var rest := set o | o in order[1..];
      assert forall o :: o in order <==> o == order[0] || o in order[1..];
      GivenFragmentsAre(order[1..], rest);
      forall x ensures x in GivenFragments(order) <==> x in Fragments(all) {
        if x in Fragments(all) {
          var o :| o in all && o.fragment.Some? && o.fragment.value == x;
          assert o in order;
          assert o == order[0] || o in rest;
        }
        if x in Fragments(rest) {
          var o :| o in rest && o.fragment.Some? && o.fragment.value == x;
          assert o in all;
        }
        assert order[0] in all;
      }
    }
  }

  /** Whatever order the registrations are visited in, the merged options are the same. */
  lemma MergeIgnoresOrder(order: seq<Options>, all: set<Options>)
    requires forall o :: o in order <==> o in all
    ensures InOrder(order) == Merged(all)
  {
    if order == [] {
      assert all == {} && Fragments(all) == {};
    } else {
      assert order[0] in all;
      var throttles: seq<nat> := seq(|order|, i requires 0 <= i < |order| => order[i].throttle);
      var queues: seq<nat> := seq(|order|, i requires 0 <= i < |order| => order[i].queue);
      forall x ensures x in throttles <==> x in Throttles(all) {
        if x in throttles {
          var i :| 0 <= i < |order| && throttles[i] == x;
          assert order[i] in all;
        }
        if x in Throttles(all) {
          var o :| o in all && o.throttle == x;
          var i :| 0 <= i < |order| && order[i] == o;
          assert throttles[i] == x;
        }
      }
      forall x ensures x in queues <==> x in Queues(all) {
        if x in queues {
          var i :| 0 <= i < |order| && queues[i] == x;
          assert order[i] in all;
        }
        if x in Queues(all) {
          var o :| o in all && o.queue == x;
          var i :| 0 <= i < |order| && order[i] == o;
          assert queues[i] == x;
        }
      }
      assert order[0].throttle in Throttles(all) && order[0].queue in Queues(all);
      SmallestOfSet(throttles, Throttles(all));
      SmallestOfSet(queues, Queues(all));
      FragmentsAgree(order, all);
      CompressionAgrees(order, all, Raw);
      CompressionAgrees(order, all, Cbor);
      CompressionAgrees(order, all, Png);
    }
  }

  lemma FragmentsAgree(order: seq<Options>, all: set<Options>)
    requires forall o :: o in order <==> o in all
    ensures Smallest(GivenFragments(order)) == if Fragments(all) == {} then None else Some(Least(Fragments(all)))
  {
    GivenFragmentsAre(order, all);
    var given := GivenFragments(order);
    SmallestIsLeast(given);
    if Fragments(all) != {} {
      SmallestOfSet(given, Fragments(all));
    }
  }

  lemma CompressionAgrees(order: seq<Options>, all: set<Options>, c: Compression)
    requires forall o :: o in order <==> o in all
    ensures (exists i :: 0 <= i < |order| && order[i].compression == c) <==> Asks(all, c)
  {
    if Asks(all, c) {
      var o :| o in all && o.compression == c;
      assert o in order;
      var i :| 0 <= i < |order| && order[i] == o;
      assert order[i].compression == c;
    }
    if i :| 0 <= i < |order| && order[i].compression == c {
      assert order[i] in all;
    }
  }

  // ---------- what happens to one client ----------

  /** Time since, never negative. */
  function Since(now: nat, earlier: nat): nat {
    if now >= earlier then now - earlier else 0
  }

  ghost predicate Ready(c: Client, now: nat) {
    c.last.None? || Since(now, c.last.value) >= c.Options().throttle
  }

  /** Drops from the front until at most `keep` messages are left. */
  function Trim(pending: seq<Message>, keep: nat): (r: seq<Message>)
    ensures |r| == if |pending| <= keep then |pending| else keep
  {
    if |pending| <= keep then pending else pending[|pending| - keep..]
  }

  /** A message arrives: delivered at once, queued, or dropped. */
  ghost function Arrive(c: Client, m: Message, now: nat): (Client, Option<Message>) {
    if c.pending == [] && Ready(c, now) then (c.(last := Some(now)), Some(m))
    else if c.Options().queue > 0 then (c.(pending := Trim(c.pending, c.Options().queue - 1) + [m]), None)
    else (c, None)
  }

  /** The clock has moved: the oldest queued message may be due. */
  ghost function Due(c: Client, now: nat): (Client, Option<Message>) {
    if Ready(c, now) && c.pending != [] then (c.(last := Some(now), pending := c.pending[1..]), Some(c.pending[0]))
    else (c, None)
  }

  /** A client joins with its first registration; a retained sample is replayed to it. */
  function Join(id: Option<string>, options: Options, retained: Option<Message>, now: nat): Client {
    Client(map[id := options], if retained.Some? then Some(now) else None, [])
  }
}

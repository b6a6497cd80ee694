/**
 Bounded per-client output lanes (src/outgoing.rs): topics may be evicted oldest
 first, control traffic has reserved capacity and closes the client on overflow.
 */
module Outgoing {
  import opened Basics

  const CONTROL_CAPACITY: nat := 16

  /** A WebSocket message: its size and whatever it carries. */
  datatype Frame = Frame(size: nat, content: nat)

  /** Deferred encoding either yields frames or fails; `retained` is its size estimate. */
  datatype Payload =
    | Frames(frames: seq<Frame>)
    | Encode(retained: nat, outcome: Option<seq<Frame>>)
  {
    function Size(): nat {
      match this
      case Frames(frames) => FrameBytes(frames)
      case Encode(retained, _) => retained
    }

    function Encoded(): Option<seq<Frame>> {
      match this
      case Frames(frames) => Some(frames)
      case Encode(_, outcome) => outcome
    }
  }

  datatype Batch = Batch(topic: Option<string>, payload: Payload, bytes: nat)

  datatype Reason = ControlQueueFull | EncodedBatchTooLarge | EncodingFailed

  datatype SendResult = Accepted | Closed | ControlFull

  datatype TakeResult = Taken(batch: Batch) | Empty | Disconnected

  datatype ReceiveResult = Received(frames: seq<Frame>) | NothingYet | Hangup

  datatype State = State(
    topics: seq<Batch>,
    control: seq<Batch>,
    topicBytes: nat,
    controlBytes: nat,
    capacity: nat,
    byteLimit: nat,
    senderClosed: bool,
    receiverClosed: bool,
    closeReason: Option<Reason>,
    dropped: nat)
  {
    predicate Open() { !senderClosed && !receiverClosed }

    /**
     What holds between any two lock acquisitions. Dropping the receiver clears the
     lanes but leaves the counters, so they are exact only while it lives.
     */
    ghost predicate Valid() {
      && capacity > 0
      && byteLimit > 0
      && (!receiverClosed ==> topicBytes == Bytes(topics) && controlBytes == Bytes(control))
      && (!Open() ==> topics == [] && control == [])
      && topicBytes <= byteLimit
      && controlBytes <= byteLimit
      && |topics| <= capacity
      && |control| <= CONTROL_CAPACITY
      && (closeReason.Some? ==> senderClosed)
      && (forall i :: 0 <= i < |topics| ==> topics[i].topic.Some?)
      && (forall i :: 0 <= i < |control| ==> control[i].topic.None?)
    }

    function CloseSender(reason: Option<Reason>): State {
      this.(topics := [], control := [], topicBytes := 0, controlBytes := 0,
      senderClosed := true, closeReason := reason)
    }
  }

  function FrameBytes(frames: seq<Frame>): nat {
    if frames == [] then 0 else frames[0].size + FrameBytes(frames[1..])
  }

  function Bytes(q: seq<Batch>): nat {
    if q == [] then 0 else q[0].bytes + Bytes(q[1..])
  }

  lemma BytesAppend(q: seq<Batch>, b: Batch)
    ensures Bytes(q + [b]) == Bytes(q) + b.bytes
  {
    BytesConcat(q, [b]);
    assert Bytes([b]) == b.bytes + Bytes([]);
  }

  lemma {:induction false} BytesConcat(a: seq<Batch>, b: seq<Batch>)
    ensures Bytes(a + b) == Bytes(a) + Bytes(b)
  {
    if a == [] {
      assert a + b == b;
    } else {
      assert (a + b)[1..] == a[1..] + b;
      BytesConcat(a[1..], b);
    }
  }

  function SaturatingSub(a: nat, b: nat): nat { if a >= b then a - b else 0 }

  // ---------------------------------------------------------------- eviction

  /** The batches of one topic, in queue order. */
  function OfTopic(q: seq<Batch>, topic: string): seq<Batch> {
    if q == [] then []
    else (if q[0].topic == Some(topic) then [q[0]] else []) + OfTopic(q[1..], topic)
  }

  /** The batches of every other topic, in queue order. */
  function OfOthers(q: seq<Batch>, topic: string): seq<Batch> {
    if q == [] then []
    else (if q[0].topic == Some(topic) then [] else [q[0]]) + OfOthers(q[1..], topic)
  }

  /** The queue without its first `k` batches of the topic. */
  function DropOldest(q: seq<Batch>, topic: string, k: nat): seq<Batch> {
    if q == [] || k == 0 then q
    else if q[0].topic == Some(topic) then DropOldest(q[1..], topic, k - 1)
    else [q[0]] + DropOldest(q[1..], topic, k)
  }

  lemma DropNone(q: seq<Batch>, topic: string)
    ensures DropOldest(q, topic, 0) == q
  {
  }

  /** The eviction loop stops once count, capacity and bytes all allow the new batch. */
  predicate HasRoom(q: seq<Batch>, topic: string, limit: nat, capacity: nat, byteLimit: nat, bytes: nat) {
    && |OfTopic(q, topic)| < limit
    && |q| < capacity
    && bytes <= SaturatingSub(byteLimit, Bytes(q))
  }

  /** The least number of oldest batches to drop for room, or all of them. */
  function Evictions(q: seq<Batch>, topic: string, limit: nat, capacity: nat, byteLimit: nat, bytes: nat): (k: nat)
    ensures k <= |OfTopic(q, topic)|
    ensures k < |OfTopic(q, topic)| ==> HasRoom(DropOldest(q, topic, k), topic, limit, capacity, byteLimit, bytes)
    ensures forall j :: 0 <= j < k ==> !HasRoom(DropOldest(q, topic, j), topic, limit, capacity, byteLimit, bytes)
  {
    EvictionsFrom(q, topic, limit, capacity, byteLimit, bytes, 0)
  }

  function EvictionsFrom(q: seq<Batch>, topic: string, limit: nat, capacity: nat, byteLimit: nat, bytes: nat,
                         from: nat): (k: nat)
    requires from <= |OfTopic(q, topic)|
    requires forall j :: 0 <= j < from ==> !HasRoom(DropOldest(q, topic, j), topic, limit, capacity, byteLimit, bytes)
    ensures from <= k <= |OfTopic(q, topic)|
    ensures k < |OfTopic(q, topic)| ==> HasRoom(DropOldest(q, topic, k), topic, limit, capacity, byteLimit, bytes)
    ensures forall j :: 0 <= j < k ==> !HasRoom(DropOldest(q, topic, j), topic, limit, capacity, byteLimit, bytes)
    decreases |OfTopic(q, topic)| - from
  {
    if from == |OfTopic(q, topic)| || HasRoom(DropOldest(q, topic, from), topic, limit, capacity, byteLimit, bytes)
    then from
    else EvictionsFrom(q, topic, limit, capacity, byteLimit, bytes, from + 1)
  }

  lemma {:induction false} DropOldestParts(q: seq<Batch>, topic: string, k: nat)
    requires k <= |OfTopic(q, topic)|
    ensures var r := DropOldest(q, topic, k);
      OfTopic(r, topic) == OfTopic(q, topic)[k..] && OfOthers(r, topic) == OfOthers(q, topic)
  {
    if k == 0 {
      assert DropOldest(q, topic, k) == q;
    } else if q[0].topic == Some(topic) {
      DropOldestParts(q[1..], topic, k - 1);
      assert OfTopic(q, topic) == [q[0]] + OfTopic(q[1..], topic);
    } else {
      DropOldestParts(q[1..], topic, k);
      PartsCons(q[0], DropOldest(q[1..], topic, k), topic);
      PartsCons(q[0], q[1..], topic);
      assert [q[0]] + q[1..] == q;
    }
  }

  lemma PartsCons(b: Batch, q: seq<Batch>, topic: string)
    requires b.topic != Some(topic)
    ensures OfTopic([b] + q, topic) == OfTopic(q, topic) && OfOthers([b] + q, topic) == [b] + OfOthers(q, topic)
  {
    assert ([b] + q)[1..] == q;
  }

  lemma {:induction false} DropOldestSize(q: seq<Batch>, topic: string, k: nat)
    requires k <= |OfTopic(q, topic)|
    ensures var r := DropOldest(q, topic, k);
      |r| + k == |q| && Bytes(r) + Bytes(OfTopic(q, topic)[..k]) == Bytes(q)
  {
    if k > 0 {
      if q[0].topic == Some(topic) {
        DropOldestSize(q[1..], topic, k - 1);
        assert OfTopic(q, topic)[..k] == [q[0]] + OfTopic(q[1..], topic)[..k - 1];
      } else {
        assert OfTopic(q, topic) == OfTopic(q[1..], topic);
        DropOldestSize(q[1..], topic, k);
        assert DropOldest(q, topic, k)[1..] == DropOldest(q[1..], topic, k);
      }
    }
  }

  lemma {:induction false} DropOldestOrder(q: seq<Batch>, topic: string, k: nat)
    ensures Subsequence(DropOldest(q, topic, k), q)
  {
    hide Subsequence;
    if q == [] || k == 0 {
      SubsequenceReflexive(q);
    } else {
      var rest := DropOldest(q[1..], topic, if q[0].topic == Some(topic) then k - 1 else k);
      DropOldestOrder(q[1..], topic, if q[0].topic == Some(topic) then k - 1 else k);
      SubsequenceCons(q[0], rest, q[1..]);
      assert [q[0]] + q[1..] == q;
    }
  }

  /** Dropping touches only the front of one topic; everything else stays, in order. */
  lemma DropOldestExact(q: seq<Batch>, topic: string, k: nat)
    requires k <= |OfTopic(q, topic)|
    ensures var r := DropOldest(q, topic, k);
      && OfTopic(r, topic) == OfTopic(q, topic)[k..]
      && OfOthers(r, topic) == OfOthers(q, topic)
      && Subsequence(r, q)
      && |r| + k == |q|
      && Bytes(r) + Bytes(OfTopic(q, topic)[..k]) == Bytes(q)
  {
    DropOldestParts(q, topic, k);
    DropOldestOrder(q, topic, k);
    DropOldestSize(q, topic, k);
  }

  lemma {:induction false} TopicSplit(q: seq<Batch>, topic: string)
    ensures |q| == |OfTopic(q, topic)| + |OfOthers(q, topic)|
    ensures Bytes(q) == Bytes(OfTopic(q, topic)) + Bytes(OfOthers(q, topic))
  {
    if q != [] {
      TopicSplit(q[1..], topic);
      BytesConcat(if q[0].topic == Some(topic) then [q[0]] else [], OfTopic(q[1..], topic));
      BytesConcat(if q[0].topic == Some(topic) then [] else [q[0]], OfOthers(q[1..], topic));
    }
  }

  lemma {:induction false} OfTopicConcat(a: seq<Batch>, b: seq<Batch>, topic: string)
    ensures OfTopic(a + b, topic) == OfTopic(a, topic) + OfTopic(b, topic)
  {
    if a == [] {
      assert a + b == b;
    } else {
      assert (a + b)[1..] == a[1..] + b && (a + b)[0] == a[0];
      OfTopicConcat(a[1..], b, topic);
      var first := if a[0].topic == Some(topic) then [a[0]] else [];
      var rest, other := OfTopic(a[1..], topic), OfTopic(b, topic);
      assert OfTopic(a + b, topic) == first + (rest + other);
      assert first + (rest + other) == (first + rest) + other;
    }
  }

  /** One round of the loop: removing the first remaining batch of the topic. */
  lemma DropSkips(q: seq<Batch>, topic: string, k: nat)
    requires q != [] && q[0].topic != Some(topic)
    ensures DropOldest(q, topic, k) == [q[0]] + DropOldest(q[1..], topic, k)
  {
    if k == 0 { assert DropOldest(q[1..], topic, k) == q[1..]; }
  }

  lemma ConsRemove<T>(x: T, tail: seq<T>, index: nat)
    requires 1 <= index <= |tail|
    ensures var r := [x] + tail; r[..index] + r[index + 1..] == [x] + (tail[..index - 1] + tail[index..])
  {
  }

  lemma {:induction false} DropOneMore(q: seq<Batch>, topic: string, k: nat, index: nat)
    requires k < |OfTopic(q, topic)|
    requires var r := DropOldest(q, topic, k);
      && index < |r|
      && r[index].topic == Some(topic)
      && forall i :: 0 <= i < index ==> r[i].topic != Some(topic)
    ensures var r := DropOldest(q, topic, k); DropOldest(q, topic, k + 1) == r[..index] + r[index + 1..]
  {
    var r := DropOldest(q, topic, k);
    if q[0].topic == Some(topic) {
      if k == 0 {
        assert index == 0;
        assert DropOldest(q[1..], topic, 0) == q[1..];
        assert r[..0] + r[1..] == q[1..];
      } else {
        DropOneMore(q[1..], topic, k - 1, index);
      }
    } else {
      assert OfTopic(q, topic) == OfTopic(q[1..], topic);
      var tail := DropOldest(q[1..], topic, k);
      DropSkips(q, topic, k);
      DropSkips(q, topic, k + 1);
      assert forall i :: 0 <= i < index - 1 ==> tail[i] == r[i + 1];
      DropOneMore(q[1..], topic, k, index - 1);
      ConsRemove(q[0], tail, index);
    }
  }

  lemma {:induction false} NoneLeft(q: seq<Batch>, topic: string)
    ensures OfTopic(q, topic) == [] <==> forall i :: 0 <= i < |q| ==> q[i].topic != Some(topic)
  {
    if q != [] {
      NoneLeft(q[1..], topic);
      if OfTopic(q, topic) == [] {
        assert forall i :: 0 < i < |q| ==> q[i] == q[1..][i - 1];
      } else if q[0].topic != Some(topic) {
        var i :| 0 <= i < |q[1..]| && q[1..][i].topic == Some(topic);
        assert q[i + 1].topic == Some(topic);
      }
    }
  }

  // ------------------------------------------------------- lock-step operations

  /** How many queued batches of the topic a send gives up. */
  function GivenUp(s: State, topic: string, limit: nat, bytes: nat): nat {
    if bytes <= s.byteLimit && limit > 0
    then Evictions(s.topics, topic, limit, s.capacity, s.byteLimit, bytes) else 0
  }

  function Kept(s: State, topic: string, limit: nat, bytes: nat): seq<Batch> {
    DropOldest(s.topics, topic, GivenUp(s, topic, limit, bytes))
  }

  predicate Admits(s: State, topic: string, limit: nat, bytes: nat) {
    var kept := Kept(s, topic, limit, bytes);
    |kept| < s.capacity && bytes <= SaturatingSub(s.byteLimit, Bytes(kept))
  }

  function SendTopic(s: State, topic: string, limit: nat, payload: Payload): State {
    var bytes := payload.Size();
    var k := GivenUp(s, topic, limit, bytes);
    var kept := Kept(s, topic, limit, bytes);
    if Admits(s, topic, limit, bytes) then
      s.(topics := kept + [Batch(Some(topic), payload, bytes)], topicBytes := Bytes(kept) + bytes,
      dropped := s.dropped + k)
    else
      s.(topics := kept, topicBytes := Bytes(kept), dropped := s.dropped + k + 1)
  }

  function SendControl(s: State, payload: Payload): (State, SendResult) {
    var bytes := payload.Size();
    if |s.control| >= CONTROL_CAPACITY || bytes > SaturatingSub(s.byteLimit, s.controlBytes) then
      (s.CloseSender(Some(ControlQueueFull)), ControlFull)
    else
      (s.(control := s.control + [Batch(None, payload, bytes)], controlBytes := s.controlBytes + bytes), Accepted)
  }

  function Enqueue(s: State, topic: Option<string>, limit: nat, payload: Payload): (State, SendResult) {
    if !s.Open() then (s, Closed)
    else if topic.Some? then (SendTopic(s, topic.value, limit, payload), Accepted)
    else SendControl(s, payload)
  }

  function Take(s: State): (State, TakeResult) {
    if s.control != [] then
      (s.(control := s.control[1..], controlBytes := SaturatingSub(s.controlBytes, s.control[0].bytes)),
       Taken(s.control[0]))
    else if s.topics != [] then
      (s.(topics := s.topics[1..], topicBytes := SaturatingSub(s.topicBytes, s.topics[0].bytes)), Taken(s.topics[0]))
    else (s, if s.senderClosed then Disconnected else Empty)
  }

  function Finish(s: State, topic: bool, result: Option<seq<Frame>>): (State, Option<seq<Frame>>) {
    if !s.Open() then (s, None)
    else if result.Some? && FrameBytes(result.value) <= s.byteLimit then (s, result)
    else if topic then (s.(dropped := s.dropped + 1), None)
    else (s.CloseSender(Some(if result.Some? then EncodedBatchTooLarge else EncodingFailed)), None)
  }

  /** The synchronous consumer: take and finish until something survives. */
  function TryReceive(s: State): (State, ReceiveResult)
    decreases |s.control| + |s.topics|
  {
    match Take(s)
    case (_, Empty) => (s, NothingYet)
    case (_, Disconnected) => (s, Hangup)
    case (s1, Taken(batch)) =>
      match Finish(s1, batch.topic.Some?, batch.payload.Encoded())
      case (s2, Some(frames)) => (s2, Received(frames))
      case (s2, None) => TryReceive(s2)
  }

  function DropOutput(s: State): State {
    s.CloseSender(s.closeReason)
  }

  function DropReceiver(s: State): State {
    s.(receiverClosed := true, topics := [], control := [])
  }
}

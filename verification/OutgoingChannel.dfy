/** The channel as the source keeps it: one mutable record behind a lock (src/outgoing.rs). */
module OutgoingChannel {
  import opened Basics
  import opened Outgoing

  class Channel {
    var topics: seq<Batch>
    var control: seq<Batch>
    var topicBytes: nat
    var controlBytes: nat
    const capacity: nat
    const byteLimit: nat
    var senderClosed: bool
    var receiverClosed: bool
    var closeReason: Option<Reason>
    var dropped: nat

    /** The abstract state the specification functions speak about. */
    ghost function View(): State
      reads this
    {
      State(topics, control, topicBytes, controlBytes, capacity, byteLimit,
            senderClosed, receiverClosed, closeReason, dropped)
    }

    ghost predicate Valid()
      reads this
    {
      View().Valid()
    }

    constructor (capacity: nat, byteLimit: nat)
      requires capacity > 0 && byteLimit > 0
      ensures Valid() && View() == State([], [], 0, 0, capacity, byteLimit, false, false, None, 0)
    {
      topics, control := [], [];
      topicBytes, controlBytes := 0, 0;
      this.capacity, this.byteLimit := capacity, byteLimit;
      senderClosed, receiverClosed := false, false;
      closeReason := None;
      dropped := 0;
    }

    /** Reads the topic count and the first index of the topic, as the eviction guard does. */
    method Survey(topic: string) returns (count: nat, first: nat)
      ensures count == |OfTopic(topics, topic)|
      ensures count > 0 ==> first < |topics| && topics[first].topic == Some(topic)
      ensures forall i :: 0 <= i < first && i < |topics| ==> topics[i].topic != Some(topic)
    {
      count, first := 0, 0;
      var i := 0;
      while i < |topics|
        invariant 0 <= i <= |topics|
        invariant count + |OfTopic(topics[i..], topic)| == |OfTopic(topics, topic)|
        invariant count == 0 ==> first == i
        invariant count > 0 ==> first < i && topics[first].topic == Some(topic)
        invariant forall j :: 0 <= j < first ==> topics[j].topic != Some(topic)
      {
        assert topics[i..][1..] == topics[i + 1..];
        if topics[i].topic == Some(topic) {
          count := count + 1;
        } else if count == 0 {
          first := i + 1;
        }
        i := i + 1;
      }
    }

    method Enqueue(topic: Option<string>, limit: nat, payload: Payload) returns (result: SendResult)
      requires Valid()
      modifies this
      ensures Valid()
      ensures (View(), result) == Outgoing.Enqueue(old(View()), topic, limit, payload)
    {
      var bytes := payload.Size();
      if receiverClosed || senderClosed {
        return Closed;
      }
      match topic
      case Some(t) =>
        EnqueueTopic(t, limit, payload);
        return Accepted;
      case None =>
        if |control| >= CONTROL_CAPACITY || bytes > SaturatingSub(byteLimit, controlBytes) {
          closeReason := Some(ControlQueueFull);
          senderClosed := true;
          topics, control := [], [];
          topicBytes, controlBytes := 0, 0;
          return ControlFull;
        }
        controlBytes := controlBytes + bytes;
        BytesConcat(control, [Batch(None, payload, bytes)]);
        control := control + [Batch(None, payload, bytes)];
        return Accepted;
    }

    method EnqueueTopic(topic: string, limit: nat, payload: Payload)
      requires Valid() && View().Open()
      modifies this
      ensures Valid()
      ensures View() == SendTopic(old(View()), topic, limit, payload)
    {
      hide OfTopic, Evictions, Bytes, DropOldest, FrameBytes;
      var bytes := payload.Size();
      var given := 0;
      DropNone(topics, topic);
      if bytes <= byteLimit && limit > 0 {
        given := Evict(topic, limit, bytes);
      }
      if |topics| >= capacity || bytes > SaturatingSub(byteLimit, topicBytes) {
        dropped := dropped + given + 1;
      } else {
        topicBytes := topicBytes + bytes;
        BytesAppend(topics, Batch(Some(topic), payload, bytes));
        topics := topics + [Batch(Some(topic), payload, bytes)];
        dropped := dropped + given;
      }
    }

    /** The eviction loop: only this topic, oldest first, until the new batch has room. */
    method Evict(topic: string, limit: nat, bytes: nat) returns (given: nat)
      requires Valid() && View().Open()
      modifies this`topics, this`topicBytes
      ensures Valid()
      ensures given == Evictions(old(topics), topic, limit, capacity, byteLimit, bytes)
      ensures topics == DropOldest(old(topics), topic, given)
      ensures topicBytes == Bytes(topics)
    {
      hide OfTopic, DropOldest, Bytes;
      ghost var before := topics;
      given := 0;
      DropNone(before, topic);
      while true
        invariant Valid()
        invariant given <= |OfTopic(before, topic)|
        invariant topics == DropOldest(before, topic, given)
        invariant forall j :: 0 <= j < given ==>
                                !HasRoom(DropOldest(before, topic, j), topic, limit, capacity, byteLimit, bytes)
        decreases |OfTopic(before, topic)| - given
      {
        var count, first := Survey(topic);
        DropOldestExact(before, topic, given);
        if count < limit && |topics| < capacity && bytes <= SaturatingSub(byteLimit, topicBytes) {
          break;
        }
        if count == 0 {
          break;
        }
        RemoveAt(first);
        DropOneMore(before, topic, given, first);
        given := given + 1;
      }
    }

    method RemoveAt(index: nat)
      requires Valid() && View().Open() && index < |topics|
      modifies this`topics, this`topicBytes
      ensures Valid()
      ensures topics == old(topics)[..index] + old(topics)[index + 1..]
    {
      assert topics == topics[..index] + ([topics[index]] + topics[index + 1..]);
      BytesConcat(topics[..index], [topics[index]] + topics[index + 1..]);
      BytesConcat([topics[index]], topics[index + 1..]);
      BytesConcat(topics[..index], topics[index + 1..]);
      topicBytes := topicBytes - topics[index].bytes;
      topics := topics[..index] + topics[index + 1..];
    }

    method Take() returns (result: TakeResult)
      requires Valid()
      modifies this
      ensures Valid()
      ensures (View(), result) == Outgoing.Take(old(View()))
    {
      if |control| > 0 {
        result := Taken(control[0]);
        controlBytes := controlBytes - control[0].bytes;
        control := control[1..];
      } else if |topics| > 0 {
        result := Taken(topics[0]);
        topicBytes := topicBytes - topics[0].bytes;
        topics := topics[1..];
      } else {
        result := if senderClosed then Disconnected else Empty;
      }
    }

    method Finish(topic: bool, result: Option<seq<Frame>>) returns (delivered: Option<seq<Frame>>)
      requires Valid()
      modifies this
      ensures Valid()
      ensures (View(), delivered) == Outgoing.Finish(old(View()), topic, result)
    {
      if senderClosed || receiverClosed {
        return None;
      }
      if result.Some? && FrameBytes(result.value) <= byteLimit {
        return result;
      }
      if topic {
        dropped := dropped + 1;
      } else {
        closeReason := Some(if result.Some? then EncodedBatchTooLarge else EncodingFailed);
        senderClosed := true;
        topics, control := [], [];
        topicBytes, controlBytes := 0, 0;
      }
      return None;
    }

    method TryReceive() returns (result: ReceiveResult)
      requires Valid()
      modifies this
      ensures Valid()
      ensures (View(), result) == Outgoing.TryReceive(old(View()))
    {
      ghost var start := View();
      while true
        invariant Valid()
        invariant Outgoing.TryReceive(View()) == Outgoing.TryReceive(start)
        decreases |control| + |topics|
      {
        var taken := Take();
        match taken
        case Empty => return NothingYet;
        case Disconnected => return Hangup;
        case Taken(batch) =>
          var delivered := Finish(batch.topic.Some?, batch.payload.Encoded());
          if delivered.Some? {
            return Received(delivered.value);
          }
      }
    }

    method OutputDropped()
      requires Valid()
      modifies this
      ensures Valid() && View() == DropOutput(old(View()))
    {
      senderClosed := true;
      topics, control := [], [];
      topicBytes, controlBytes := 0, 0;
    }

    method ReceiverDropped()
      requires Valid()
      modifies this
      ensures Valid() && View() == DropReceiver(old(View()))
    {
      receiverClosed := true;
      topics, control := [], [];
    }
  }
}

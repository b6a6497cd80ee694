/** Which sends are accepted, and what a receive returns (src/outgoing.rs). */
module OutgoingDelivery {
  import opened Basics
  import opened Outgoing
  import opened OutgoingRuns

  /** What waits, in the order in which it is taken. */
  function Line(s: State): seq<Batch> { s.control + s.topics }

  // ------------------------------------------------------------------ sending

  /** Another control batch of this size may join: fewer than 16 wait, and their bytes leave room. */
  predicate ControlRoom(s: State, bytes: nat) {
    |s.control| < 16 && Bytes(s.control) + bytes <= s.byteLimit
  }

  /**
   A send is refused exactly if the channel is closed. On an open one a topic batch is always
   answered Ok; a control batch is queued last of its lane exactly if there is room, and
   otherwise closes the channel with everything in it.
   */
  lemma SendOutcome(s: State, topic: Option<string>, limit: nat, payload: Payload)
    requires s.Valid()
    ensures var (s', result) := Enqueue(s, topic, limit, payload);
      && (result.Closed? <==> !s.Open())
      && (result.Closed? ==> s' == s)
      && (result.ControlFull? <==> s.Open() && topic.None? && !ControlRoom(s, payload.Size()))
      && (result.ControlFull? ==>
            !s'.Open() && Line(s') == [] && s'.closeReason == Some(ControlQueueFull) && s'.dropped == s.dropped)
      && (result.Accepted? && topic.None? ==>
            && s'.control == s.control + [Batch(None, payload, payload.Size())] && s'.topics == s.topics
            && s'.Open() && s'.dropped == s.dropped)
      && (result.Accepted? && topic.Some? ==> s'.Open() && s'.control == s.control)
  {
    hide DropOldest, OfTopic, OfOthers, Evictions, Bytes;
  }

  // ------------------------------------------------------------------ receiving

  /** A take hands out the first batch in line; with nothing in line it tells whether anything may still come. */
  lemma TakeHandsOutFirst(s: State)
    requires s.Valid()
    ensures var (s', result) := Take(s);
      && (result.Taken? <==> Line(s) != [])
      && (result.Taken? ==> result.batch == Line(s)[0] && Line(s') == Line(s)[1..])
      && (result.Disconnected? <==> Line(s) == [] && s.senderClosed)
      && s'.Open() == s.Open() && s'.closeReason == s.closeReason && s'.dropped == s.dropped
      && s'.byteLimit == s.byteLimit
  {
  }

  /**
   An encoding gets through exactly if the channel is open and the encoding exists and fits.
   Otherwise a topic batch is counted as dropped, and a control batch closes the channel, with
   the reason; on a closed channel nothing changes any more.
   */
  lemma FinishDeliversIff(s: State, topic: bool, result: Option<seq<Frame>>)
    ensures var (s', delivered) := Finish(s, topic, result);
      var fits := result.Some? && FrameBytes(result.value) <= s.byteLimit;
      && (delivered.Some? <==> s.Open() && fits)
      && (delivered.Some? ==> delivered == result && s' == s)
      && (!s.Open() ==> s' == s)
      && (s.Open() && !fits && topic ==> s' == s.(dropped := s.dropped + 1))
      && (s.Open() && !fits && !topic ==>
            && s'.senderClosed && Line(s') == [] && s'.dropped == s.dropped
            && s'.closeReason == Some(if result.Some? then EncodedBatchTooLarge else EncodingFailed))
  {
  }

  /** A topic batch whose encoding is of no use is passed over. */
  predicate PassedOver(byteLimit: nat, b: Batch) {
    b.topic.Some? && !Fits(byteLimit, b)
  }

  /** The first `i` in line are passed over. */
  predicate Passes(s: State, i: nat) {
    i <= |Line(s)| && forall k :: 0 <= k < i ==> PassedOver(s.byteLimit, Line(s)[k])
  }

  /** ... and the next one is delivered, with nothing else changed. */
  predicate Delivers(s: State, i: nat, s': State, frames: seq<Frame>) {
    && Passes(s, i) && i < |Line(s)| && Fits(s.byteLimit, Line(s)[i])
    && Some(frames) == Line(s)[i].payload.Encoded()
    && Line(s') == Line(s)[i + 1..] && s'.Open() && s'.dropped == s.dropped + i
  }

  /** ... and the next one is a control batch that is of no use either, which closes the channel. */
  predicate Breaks(s: State, i: nat, s': State) {
    && Passes(s, i) && i < |Line(s)| && !Fits(s.byteLimit, Line(s)[i]) && Line(s)[i].topic.None?
    && s'.senderClosed && Line(s') == [] && s'.dropped == s.dropped + i
  }

  /**
   A receive returns the frames of the first batch in line, control before topics, whose encoding
   exists and fits; those before it are topic batches, each counted as dropped. If a control batch
   of no use comes first, the channel is closed. Nothing is returned exactly if all are passed over.
   */
  lemma {:induction false} ReceiveReturnsFirst(s: State)
    requires s.Valid() && s.Open()
    ensures var (s', result) := TryReceive(s);
      match result
      case Received(frames) => exists i: nat :: Delivers(s, i, s', frames)
      case Hangup => exists i: nat :: Breaks(s, i, s')
      case NothingYet =>
        Passes(s, |Line(s)|) && Line(s') == [] && s'.Open() && s'.dropped == s.dropped + |Line(s)|
    decreases |Line(s)|
  {
    var (s1, taken) := Take(s);
    var (s', result) := TryReceive(s);
    TakeHandsOutFirst(s);
    TakeKeepsValid(s);
    if taken.Taken? {
      var batch := taken.batch;
      var (s2, delivered) := Finish(s1, batch.topic.Some?, batch.payload.Encoded());
      FinishKeepsValid(s1, batch.topic.Some?, batch.payload.Encoded());
      FinishDeliversIff(s1, batch.topic.Some?, batch.payload.Encoded());
      if delivered.Some? {
        assert Delivers(s, 0, s', delivered.value);
      } else if batch.topic.None? {
        ClosedReceives(s2);
        assert Breaks(s, 0, s');
      } else {
        ReceiveReturnsFirst(s2);
        OnePassedOver(s, s2, s', result);
      }
    }
  }

  lemma OnePassedOver(s: State, s2: State, s': State, result: ReceiveResult)
    requires Line(s) != [] && Line(s2) == Line(s)[1..] && s2.byteLimit == s.byteLimit
    requires PassedOver(s.byteLimit, Line(s)[0]) && s2.dropped == s.dropped + 1
    ensures forall i: nat, frames :: Delivers(s2, i, s', frames) ==> Delivers(s, i + 1, s', frames)
    ensures forall i: nat :: Breaks(s2, i, s') ==> Breaks(s, i + 1, s')
    ensures Passes(s2, |Line(s2)|) ==> Passes(s, |Line(s)|)
  {
    hide Fits, FrameBytes;
    forall i: nat | Passes(s2, i) ensures Passes(s, i + 1) {
      forall k | 0 <= k < i + 1 ensures PassedOver(s.byteLimit, Line(s)[k]) {
        if k > 0 { assert Line(s2)[k - 1] == Line(s)[k]; }
      }
    }
    forall i | 0 <= i < |Line(s2)| ensures Line(s2)[i] == Line(s)[i + 1] && Line(s2)[i + 1..] == Line(s)[i + 2..] {
    }
  }

  /** On a closed channel there is nothing left, and the answer says who closed it. */
  lemma ClosedReceives(s: State)
    requires s.Valid() && !s.Open()
    ensures TryReceive(s) == (s, if s.senderClosed then Hangup else NothingYet)
  {
  }

  /** Either side can go away: the lanes are emptied for good, and no reason is made up. */
  lemma GoingAwayCloses(s: State)
    ensures var t := DropOutput(s);
      Line(t) == [] && t.senderClosed && t.receiverClosed == s.receiverClosed && t.closeReason == s.closeReason
    ensures var t := DropReceiver(s);
      Line(t) == [] && t.receiverClosed && t.senderClosed == s.senderClosed && t.closeReason == s.closeReason
  {
  }
}

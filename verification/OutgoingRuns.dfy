/** What the output lanes guarantee per send and over whole runs (src/outgoing.rs). */
module OutgoingRuns {
  import opened Basics
  import opened Outgoing

  /**
   A topic send: other topics are untouched, only the oldest batches of the topic go,
   and, with eviction enabled, the batch gets in exactly when it fits beside the
   backlog of the other topics.
   */
  lemma TopicSendRefinesEviction(s: State, topic: string, limit: nat, payload: Payload)
    requires s.Valid() && s.Open()
    ensures var s' := SendTopic(s, topic, limit, payload);
      var bytes := payload.Size();
      var own, others := OfTopic(s.topics, topic), OfOthers(s.topics, topic);
      var k := GivenUp(s, topic, limit, bytes);
      var admitted := Admits(s, topic, limit, bytes);
      && k <= |own|
      && OfTopic(s'.topics, topic) == own[k..] + (if admitted then [Batch(Some(topic), payload, bytes)] else [])
      && OfOthers(s'.topics, topic) == others
      && s'.dropped == s.dropped + k + (if admitted then 0 else 1)
      && |s'.topics| + (s'.dropped - s.dropped) == |s.topics| + 1
      && (bytes > s.byteLimit || limit == 0 ==> k == 0)
      && (bytes > s.byteLimit ==> s' == s.(dropped := s.dropped + 1))
      && (limit == 0 ==> (admitted <==> |s.topics| < s.capacity && Bytes(s.topics) + bytes <= s.byteLimit))
      && (limit > 0 && bytes <= s.byteLimit ==>
            && (admitted <==> |others| < s.capacity && Bytes(others) + bytes <= s.byteLimit)
            && |OfTopic(s'.topics, topic)| <= limit)
  {
    hide OfTopic, OfOthers, DropOldest, Subsequence, FrameBytes;
    var bytes := payload.Size();
    var own, others := OfTopic(s.topics, topic), OfOthers(s.topics, topic);
    var k := GivenUp(s, topic, limit, bytes);
    var kept := Kept(s, topic, limit, bytes);
    DropOldestExact(s.topics, topic, k);
    TopicSplit(kept, topic);
    var batch := Batch(Some(topic), payload, bytes);
    OfTopicConcat(kept, [batch], topic);
    OfOthersConcat(kept, [batch], topic);
    OneBatch(batch, topic);
    DropNone(s.topics, topic);
    if k == |own| {
      assert own[k..] == [];
      assert kept == others by { OnlyOthers(kept, topic); }
    }
    assert Bytes(others) <= Bytes(kept);
  }

  lemma OneBatch(b: Batch, topic: string)
    requires b.topic == Some(topic)
    ensures OfTopic([b], topic) == [b] && OfOthers([b], topic) == []
  {
    assert [b][1..] == [];
  }

  lemma {:induction false} OnlyOthers(q: seq<Batch>, topic: string)
    requires OfTopic(q, topic) == []
    ensures OfOthers(q, topic) == q
  {
    if q != [] {
      OnlyOthers(q[1..], topic);
    }
  }

  lemma {:induction false} OfOthersConcat(a: seq<Batch>, b: seq<Batch>, topic: string)
    ensures OfOthers(a + b, topic) == OfOthers(a, topic) + OfOthers(b, topic)
  {
    if a == [] {
      assert a + b == b;
    } else {
      assert (a + b)[1..] == a[1..] + b;
      OfOthersConcat(a[1..], b, topic);
    }
  }

  lemma {:induction false} DropOldestKeepsTopical(q: seq<Batch>, topic: string, k: nat)
    requires forall b :: b in q ==> b.topic.Some?
    ensures forall b :: b in DropOldest(q, topic, k) ==> b.topic.Some?
  {
    if q != [] && k > 0 {
      assert q[0] in q && forall b :: b in q[1..] ==> b in q;
      DropOldestKeepsTopical(q[1..], topic, if q[0].topic == Some(topic) then k - 1 else k);
    }
  }

  lemma EnqueueKeepsValid(s: State, topic: Option<string>, limit: nat, payload: Payload)
    requires s.Valid()
    ensures var (s', result) := Enqueue(s, topic, limit, payload);
      && s'.Valid()
      && s'.receiverClosed == s.receiverClosed
      && (s'.senderClosed <==> s.senderClosed || result.ControlFull?)
  {
    hide DropOldest, OfTopic, OfOthers, Subsequence, Evictions;
    if s.Open() {
      var bytes := payload.Size();
      match topic
      case None =>
        BytesAppend(s.control, Batch(None, payload, bytes));
      case Some(t) =>
        var k := GivenUp(s, t, limit, bytes);
        DropOldestExact(s.topics, t, k);
        DropOldestKeepsTopical(s.topics, t, k);
        BytesAppend(Kept(s, t, limit, bytes), Batch(topic, payload, bytes));
    }
  }

  lemma TakeKeepsValid(s: State)
    requires s.Valid()
    ensures var (s', result) := Take(s);
      && s'.Valid()
      && s'.receiverClosed == s.receiverClosed && s'.senderClosed == s.senderClosed
      && (!result.Taken? ==> s' == s)
  {
  }

  lemma FinishKeepsValid(s: State, topic: bool, result: Option<seq<Frame>>)
    requires s.Valid()
    ensures var (s', delivered) := Finish(s, topic, result);
      && s'.Valid()
      && s'.receiverClosed == s.receiverClosed
      && (delivered.Some? ==> s' == s && !s.senderClosed && delivered == result)
  {
  }

  // ------------------------------------------------------------------ runs

  /** `crashed`: the encoder did not end in an orderly way. */
  datatype Op =
    | Send(topic: Option<string>, limit: nat, payload: Payload)
    | TakeNext
    | FinishHand(crashed: bool)
    | AbandonHand
    | OutputDropped
    | ReceiverDropped

  /** What became of a batch that was taken. */
  datatype Fate = Delivered(frames: seq<Frame>) | Rejected | Fatal | TooLate | Abandoned

  datatype Settled = Settled(batch: Batch, fate: Fate)

  /**
   The channel together with what went through it: batches that entered a lane, batches handed
   to the receiver, the one it has in hand and what became of the others, topic sends answered
   Ok, and topic batches given up or turned away.
   */
  datatype Ledger = Ledger(
    s: State,
    enteredTopics: seq<Batch>, takenTopics: seq<Batch>,
    enteredControl: seq<Batch>, takenControl: seq<Batch>,
    okTopicSends: nat, lostTopics: nat,
    hand: Option<Batch>, settled: seq<Settled>)

  function Start(capacity: nat, byteLimit: nat): Ledger {
    Ledger(State([], [], 0, 0, capacity, byteLimit, false, false, None, 0), [], [], [], [], 0, 0, None, [])
  }

  /** What is seen to become of a batch when its encoding is handed in. */
  function FateOf(before: State, after: State, delivered: Option<seq<Frame>>): Fate {
    if delivered.Some? then Delivered(delivered.value)
    else if after.dropped > before.dropped then Rejected
    else if before.Open() then Fatal
    else TooLate
  }

  /** An encoding is handed in for the batch in hand, if there is still one. */
  function Conclude(l: Ledger, topical: bool, result: Option<seq<Frame>>): (Ledger, Option<seq<Frame>>) {
    var (s', delivered) := Finish(l.s, topical, result);
    (if l.hand.None? then l.(s := s')
     else l.(s := s', hand := None,
             settled := l.settled + [Settled(l.hand.value, FateOf(l.s, s', delivered))]), delivered)
  }

  function TakeInHand(l: Ledger): Ledger {
    match Take(l.s)
    case (s', Taken(batch)) =>
      if batch.topic.Some? then l.(s := s', takenTopics := l.takenTopics + [batch], hand := Some(batch))
      else l.(s := s', takenControl := l.takenControl + [batch], hand := Some(batch))
    case (s', _) => l.(s := s')
  }

  function Abandon(l: Ledger): Ledger {
    if l.hand.None? then l else l.(hand := None, settled := l.settled + [Settled(l.hand.value, Abandoned)])
  }

  function Step(l: Ledger, op: Op): Ledger {
    match op
    case Send(topic, limit, payload) =>
      var (s', result) := Enqueue(l.s, topic, limit, payload);
      if result != Accepted then l.(s := s')
      else if topic.Some? then
        l.(s := s', okTopicSends := l.okTopicSends + 1,
        lostTopics := l.lostTopics + SaturatingSub(s'.dropped, l.s.dropped),
        enteredTopics := l.enteredTopics + (if Admits(l.s, topic.value, limit, payload.Size())
        then [Batch(topic, payload, payload.Size())] else []))
      else l.(s := s', enteredControl := l.enteredControl + [Batch(None, payload, payload.Size())])
    case TakeNext => if l.hand.None? then TakeInHand(l) else l
    case FinishHand(crashed) =>
      if l.hand.None? then l
      else Conclude(l, !crashed && l.hand.value.topic.Some?, if crashed then None else l.hand.value.payload.Encoded()).0
    case AbandonHand => Abandon(l)
    case OutputDropped => l.(s := DropOutput(l.s))
    case ReceiverDropped => l.(s := DropReceiver(l.s))
  }

  function Run(l: Ledger, ops: seq<Op>): Ledger
    decreases |ops|
  {
    if ops == [] then l else Run(Step(l, ops[0]), ops[1..])
  }

  /** The encoding exists and is not over the byte limit. */
  predicate Fits(byteLimit: nat, b: Batch) {
    b.payload.Encoded().Some? && FrameBytes(b.payload.Encoded().value) <= byteLimit
  }

  /** A batch is delivered as it was encoded; only topic batches are turned away; the others meet a closed channel. */
  predicate Justified(s: State, x: Settled) {
    match x.fate
    case Delivered(frames) => Fits(s.byteLimit, x.batch) && frames == x.batch.payload.Encoded().value
    case Rejected => x.batch.topic.Some? && !Fits(s.byteLimit, x.batch)
    case Fatal => s.senderClosed && s.closeReason.Some?
    case TooLate => !s.Open()
    case Abandoned => true
  }

  function Rejections(settled: seq<Settled>): nat {
    if settled == [] then 0
    else Rejections(settled[..|settled| - 1]) + if settled[|settled| - 1].fate == Rejected then 1 else 0
  }

  /** The batches that were taken, in order. */
  function TakenOf(settled: seq<Settled>, hand: Option<Batch>): seq<Batch> {
    seq(|settled|, i requires 0 <= i < |settled| => settled[i].batch) + if hand.Some? then [hand.value] else []
  }

  function Topical(q: seq<Batch>): seq<Batch> {
    if q == [] then []
    else Topical(q[..|q| - 1]) + if q[|q| - 1].topic.Some? then [q[|q| - 1]] else []
  }

  function Controls(q: seq<Batch>): seq<Batch> {
    if q == [] then []
    else Controls(q[..|q| - 1]) + if q[|q| - 1].topic.None? then [q[|q| - 1]] else []
  }

  /** Every batch taken has one fate, or is in hand. */
  ghost predicate Settles(l: Ledger) {
    && l.takenTopics == Topical(TakenOf(l.settled, l.hand))
    && l.takenControl == Controls(TakenOf(l.settled, l.hand))
    && (forall i :: 0 <= i < |l.settled| ==> Justified(l.s, l.settled[i]))
    && l.s.dropped == l.lostTopics + Rejections(l.settled)
  }

  ghost predicate Balanced(l: Ledger) {
    && l.s.Valid()
    && (l.s.Open() ==>
          && Subsequence(l.takenTopics + l.s.topics, l.enteredTopics)
          && l.enteredControl == l.takenControl + l.s.control
          && l.okTopicSends == |l.s.topics| + |l.takenTopics| + l.lostTopics)
    && Subsequence(l.takenTopics, l.enteredTopics)
    && l.takenControl <= l.enteredControl
    && Settles(l)
  }

  // ---------------------------------------------------------- what is settled

  lemma SettlesStays(l: Ledger, l': Ledger)
    requires Settles(l) && l'.settled == l.settled && l'.hand == l.hand
    requires l'.takenTopics == l.takenTopics && l'.takenControl == l.takenControl
    requires l'.s.byteLimit == l.s.byteLimit && l'.s.dropped - l'.lostTopics == l.s.dropped - l.lostTopics
    requires l.s.senderClosed ==> l'.s.senderClosed && l'.s.closeReason == l.s.closeReason
    requires l.s.receiverClosed ==> l'.s.receiverClosed
    ensures Settles(l')
  {
    hide TakenOf, Topical, Controls, Rejections, Fits;
    forall i | 0 <= i < |l'.settled| ensures Justified(l'.s, l'.settled[i]) {
      assert Justified(l.s, l.settled[i]);
    }
  }

  lemma OneMoreTaken(settled: seq<Settled>, b: Batch)
    ensures Topical(TakenOf(settled, Some(b)))
         == Topical(TakenOf(settled, None)) + if b.topic.Some? then [b] else []
    ensures Controls(TakenOf(settled, Some(b)))
         == Controls(TakenOf(settled, None)) + if b.topic.None? then [b] else []
  {
    var taken := TakenOf(settled, Some(b));
    assert taken[..|taken| - 1] == TakenOf(settled, None);
  }

  lemma OneMoreSettled(settled: seq<Settled>, x: Settled)
    ensures TakenOf(settled + [x], None) == TakenOf(settled, Some(x.batch))
    ensures Rejections(settled + [x]) == Rejections(settled) + if x.fate == Rejected then 1 else 0
  {
    assert (settled + [x])[..|settled|] == settled;
  }

  lemma TakeSettles(l: Ledger)
    requires Settles(l) && l.hand.None?
    ensures Settles(TakeInHand(l))
  {
    hide TakenOf, Topical, Controls, Rejections, Fits;
    var l' := TakeInHand(l);
    if l'.hand.Some? { OneMoreTaken(l.settled, l'.hand.value); }
    forall i | 0 <= i < |l'.settled| ensures Justified(l'.s, l'.settled[i]) {
      assert Justified(l.s, l.settled[i]);
    }
  }

  /** The encoding that is handed in is the batch's own, unless the encoder crashed or the channel is closed anyway. */
  predicate Genuine(l: Ledger, topical: bool, result: Option<seq<Frame>>) {
    && (l.hand.None? ==> !l.s.Open())
    && (l.hand.Some? && l.s.Open() ==>
          (!topical && result.None?)
          || (topical == l.hand.value.topic.Some? && result == l.hand.value.payload.Encoded()))
  }

  lemma ConcludeSettles(l: Ledger, topical: bool, result: Option<seq<Frame>>)
    requires Settles(l) && Genuine(l, topical, result)
    ensures Settles(Conclude(l, topical, result).0)
  {
    hide TakenOf, Topical, Controls, Rejections;
    var (s', delivered) := Finish(l.s, topical, result);
    var l' := Conclude(l, topical, result).0;
    if l.hand.Some? {
      OneMoreSettled(l.settled, Settled(l.hand.value, FateOf(l.s, s', delivered)));
    }
    forall i | 0 <= i < |l'.settled| ensures Justified(l'.s, l'.settled[i]) {
      if i < |l.settled| { assert Justified(l.s, l.settled[i]); }
    }
  }

  lemma AbandonSettles(l: Ledger)
    requires Settles(l)
    ensures Settles(Abandon(l))
  {
    hide TakenOf, Topical, Controls, Rejections, Fits;
    if l.hand.Some? { OneMoreSettled(l.settled, Settled(l.hand.value, Abandoned)); }
    var l' := Abandon(l);
    forall i | 0 <= i < |l'.settled| ensures Justified(l'.s, l'.settled[i]) {
      if i < |l.settled| { assert Justified(l.s, l.settled[i]); }
    }
  }

  lemma TopicSendKeepsBalance(l: Ledger, topic: string, limit: nat, payload: Payload)
    requires Balanced(l) && l.s.Open()
    ensures Balanced(Step(l, Send(Some(topic), limit, payload)))
  {
    var s := l.s;
    var bytes := payload.Size();
    var l' := Step(l, Send(Some(topic), limit, payload));
    var kept := Kept(s, topic, limit, bytes);
    var added := if Admits(s, topic, limit, bytes) then [Batch(Some(topic), payload, bytes)] else [];
    TopicSendRefinesEviction(s, topic, limit, payload);
    DropOldestExact(s.topics, topic, GivenUp(s, topic, limit, bytes));
    EnqueueKeepsValid(s, Some(topic), limit, payload);
    assert l'.s.topics == kept + added && l'.enteredTopics == l.enteredTopics + added;
    calc ==> {
      Subsequence(kept, s.topics);
      { SubsequenceReflexive(l.takenTopics); SubsequenceConcat(l.takenTopics, l.takenTopics, kept, s.topics); }
      Subsequence(l.takenTopics + kept, l.takenTopics + s.topics);
      { SubsequenceTransitive(l.takenTopics + kept, l.takenTopics + s.topics, l.enteredTopics); }
      Subsequence(l.takenTopics + kept, l.enteredTopics);
      { SubsequenceReflexive(added); SubsequenceConcat(l.takenTopics + kept, l.enteredTopics, added, added); }
      Subsequence((l.takenTopics + kept) + added, l.enteredTopics + added);
      { assert (l.takenTopics + kept) + added == l.takenTopics + (kept + added); }
      Subsequence(l'.takenTopics + l'.s.topics, l'.enteredTopics);
    }
    SubsequenceSkipsSuffix(l.takenTopics, l.enteredTopics, added);
    SettlesStays(l, l');
  }

  lemma ControlSendKeepsBalance(l: Ledger, limit: nat, payload: Payload)
    requires Balanced(l) && l.s.Open()
    ensures Balanced(Step(l, Send(None, limit, payload)))
  {
    EnqueueKeepsValid(l.s, None, limit, payload);
    SettlesStays(l, Step(l, Send(None, limit, payload)));
    hide Settles;
  }

  lemma TakeKeepsBalance(l: Ledger)
    requires Balanced(l) && l.hand.None?
    ensures Balanced(TakeInHand(l))
  {
    hide Settles, Subsequence, Bytes;
    TakeSettles(l);
    TakeKeepsValid(l.s);
    if l.s.control == [] && l.s.topics != [] && l.s.Open() {
      FirstTopicTaken(l.takenTopics, l.s.topics, l.enteredTopics);
    }
  }

  lemma FirstTopicTaken(taken: seq<Batch>, topics: seq<Batch>, entered: seq<Batch>)
    requires topics != [] && Subsequence(taken + topics, entered)
    ensures Subsequence((taken + [topics[0]]) + topics[1..], entered) && Subsequence(taken + [topics[0]], entered)
  {
    hide Subsequence;
    assert taken + topics == (taken + [topics[0]]) + topics[1..];
    PrefixIsSubsequence(taken + [topics[0]], taken + topics);
    SubsequenceTransitive(taken + [topics[0]], taken + topics, entered);
  }

  lemma ConcludeKeepsBalance(l: Ledger, topical: bool, result: Option<seq<Frame>>)
    requires Balanced(l) && Genuine(l, topical, result)
    ensures Balanced(Conclude(l, topical, result).0)
  {
    ConcludeSettles(l, topical, result);
    FinishKeepsValid(l.s, topical, result);
    hide Settles, Genuine, State.Valid, Subsequence;
  }

  lemma AbandonKeepsBalance(l: Ledger)
    requires Balanced(l)
    ensures Balanced(Abandon(l))
  {
    AbandonSettles(l);
    hide Settles, State.Valid, Subsequence;
  }

  lemma DropsKeepBalance(l: Ledger)
    requires Balanced(l)
    ensures Balanced(Step(l, OutputDropped)) && Balanced(Step(l, ReceiverDropped))
  {
    SettlesStays(l, Step(l, ReceiverDropped));
    SettlesStays(l, Step(l, OutputDropped));
    hide Settles, Subsequence;
  }

  /** Every single step keeps the accounts. */
  lemma StepKeepsBalance(l: Ledger, op: Op)
    requires Balanced(l)
    ensures Balanced(Step(l, op))
  {
    match op
    case Send(topic, limit, payload) =>
      if l.s.Open() {
        if topic.Some? { TopicSendKeepsBalance(l, topic.value, limit, payload); }
        else { ControlSendKeepsBalance(l, limit, payload); }
      }
    case TakeNext => if l.hand.None? { TakeKeepsBalance(l); }
    case FinishHand(crashed) =>
      if l.hand.Some? {
        ConcludeKeepsBalance(l, !crashed && l.hand.value.topic.Some?,
                             if crashed then None else l.hand.value.payload.Encoded());
      }
    case AbandonHand => AbandonKeepsBalance(l);
    case OutputDropped => DropsKeepBalance(l);
    case ReceiverDropped => DropsKeepBalance(l);
  }

  /**
   As long as the channel is open, whatever was taken and is not in hand any more was delivered
   as encoded exactly if it fits; if not, it is a topic batch and counted as dropped. Only a
   receive that is given up loses a batch otherwise.
   */
  lemma OpenChannelDelivers(l: Ledger, i: nat)
    requires Balanced(l) && l.s.Open() && i < |l.settled| && !l.settled[i].fate.Abandoned?
    ensures var x := l.settled[i];
      && (x.fate.Delivered? <==> Fits(l.s.byteLimit, x.batch))
      && (x.fate.Delivered? ==> Some(x.fate.frames) == x.batch.payload.Encoded())
      && (!x.fate.Delivered? ==> x.fate.Rejected? && x.batch.topic.Some?)
  {
    assert Justified(l.s, l.settled[i]);
  }

  /** Closing is final: no step reopens the channel, refills a lane or rewrites the reason. */
  lemma ClosedIsFinal(l: Ledger, op: Op)
    requires Balanced(l) && !l.s.Open()
    ensures var l' := Step(l, op);
      && !l'.s.Open()
      && l'.s.topics == [] && l'.s.control == []
      && l'.takenTopics == l.takenTopics && l'.takenControl == l.takenControl
      && l.settled <= l'.settled
      && (forall x :: x in l'.settled[|l.settled|..] ==> x.fate.TooLate? || x.fate.Abandoned?)
      && l'.s.closeReason == l.s.closeReason
      && (l.s.senderClosed ==> l'.s.senderClosed)
  {
  }

  /** What was taken and settled stays so, and so does what closed the channel. */
  ghost predicate Extends(l: Ledger, l': Ledger) {
    && (!l.s.Open() ==> !l'.s.Open() && l'.s.closeReason == l.s.closeReason)
    && (l.s.closeReason.Some? ==> l'.s.closeReason == l.s.closeReason)
    && l.takenTopics <= l'.takenTopics && l.takenControl <= l'.takenControl && l.settled <= l'.settled
  }

  lemma StepExtends(l: Ledger, op: Op)
    requires Balanced(l)
    ensures Extends(l, Step(l, op))
  {
    hide Settles, Subsequence;
    if !l.s.Open() { ClosedIsFinal(l, op); }
  }

  /** Over any run, in any interleaving of senders, receiver and drops. */
  lemma {:induction false} RunsStayBalanced(l: Ledger, ops: seq<Op>)
    requires Balanced(l)
    ensures Balanced(Run(l, ops)) && Extends(l, Run(l, ops))
    decreases |ops|
  {
    hide Balanced, Step;
    if ops != [] {
      StepKeepsBalance(l, ops[0]);
      StepExtends(l, ops[0]);
      RunsStayBalanced(Step(l, ops[0]), ops[1..]);
    }
  }

  lemma StartIsBalanced(capacity: nat, byteLimit: nat, ops: seq<Op>)
    requires capacity > 0 && byteLimit > 0
    ensures Balanced(Run(Start(capacity, byteLimit), ops))
  {
    RunsStayBalanced(Start(capacity, byteLimit), ops);
  }

  /** A dropped receiver takes the batches but not the bytes with it: the counters are right only if they were zero. */
  lemma DropKeepsCountersIff(s: State)
    requires s.Valid() && !s.receiverClosed
    ensures var t := DropReceiver(s);
      && t.topics == [] && t.control == []
      && (t.topicBytes == Bytes(t.topics) <==> Bytes(s.topics) == 0)
      && (t.controlBytes == Bytes(t.control) <==> Bytes(s.control) == 0)
  {
  }
}

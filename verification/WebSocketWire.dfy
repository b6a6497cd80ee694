/** What a session puts on the wire and hands on, and why it ends (src/websocket.rs). */
module WebSocketWire {
  import opened Basics
  import opened WebSocketSession

  // ---------- batches ----------

  function BatchFrames(sent: seq<Sent>): seq<Sent> {
    if sent == [] then []
    else
      var last := sent[|sent| - 1];
      BatchFrames(sent[..|sent| - 1]) + if last.BatchFrame? then [last] else []
  }

  /** The first `n` frames of a batch. */
  function Frames(batch: nat, total: nat, n: nat): seq<Sent> {
    seq(n, i requires 0 <= i < n => BatchFrame(batch, i, total))
  }

  /** All the frames of some batches, one batch after the other. */
  function AllFrames(sizes: seq<nat>): seq<Sent> {
    if sizes == [] then []
    else
      var last := |sizes| - 1;
      AllFrames(sizes[..last]) + Frames(last, sizes[last], sizes[last])
  }

  /** As long as the session runs: the batches that are through, and what there is of the one being written. */
  ghost predicate Written(s: State) {
    && |s.arrived| == s.batches + (if s.writer.BatchNeedsLock? then 1 else 0)
    && (s.writer.BatchNeedsLock? ==> s.writer.size == s.arrived[s.batches])
    && (if s.writer.Writing? then
          && s.batches == s.writer.batch + 1 && s.writer.total == s.arrived[s.writer.batch]
          && s.writer.next <= s.writer.total
          && BatchFrames(s.sent)
             == AllFrames(s.arrived[..s.writer.batch]) + Frames(s.writer.batch, s.writer.total, s.writer.next)
        else BatchFrames(s.sent) == AllFrames(s.arrived[..s.batches]))
  }

  ghost predicate OnTheWire(s: State) {
    if s.ended.None? then Written(s) else BatchFrames(s.sent) <= AllFrames(s.arrived)
  }

  lemma OneMoreFrame(sent: seq<Sent>, frame: Sent)
    ensures BatchFrames(sent + [frame]) == BatchFrames(sent) + if frame.BatchFrame? then [frame] else []
  {
    assert (sent + [frame])[..|sent|] == sent;
  }

  lemma {:induction false} MoreBatches(sizes: seq<nat>, n: nat)
    requires n <= |sizes|
    ensures AllFrames(sizes[..n]) <= AllFrames(sizes)
    decreases |sizes| - n
  {
    if n < |sizes| {
      MoreBatches(sizes, n + 1);
      assert sizes[..n + 1][..n] == sizes[..n];
    } else {
      assert sizes[..n] == sizes;
    }
  }

  /** Whenever the session ends, what is written is a beginning of what arrived. */
  lemma WrittenIsBeginning(s: State)
    requires Written(s)
    ensures BatchFrames(s.sent) <= AllFrames(s.arrived)
  {
    MoreBatches(s.arrived, s.batches);
    if s.writer.Writing? {
      var b := s.writer.batch;
      assert s.arrived[..s.batches][..b] == s.arrived[..b];
      assert Frames(b, s.writer.total, s.writer.next) <= Frames(b, s.writer.total, s.writer.total);
    }
  }

  lemma WriterStepWrites(s: State, step: Step)
    requires s.ended.None? && Written(s)
    ensures OnTheWire(WriterStep(s, step))
  {
    hide BatchFrames, AllFrames;
    WrittenIsBeginning(s);
    match step
    case BatchArrives(size) =>
      if s.writer.AwaitingBatch? { assert (s.arrived + [size])[..s.batches] == s.arrived[..s.batches]; }
    case WriterSends =>
      if s.writer.Writing? && s.writer.next < s.writer.total {
        var frame := BatchFrame(s.writer.batch, s.writer.next, s.writer.total);
        OneMoreFrame(s.sent, frame);
        assert Frames(s.writer.batch, s.writer.total, s.writer.next + 1)
            == Frames(s.writer.batch, s.writer.total, s.writer.next) + [frame];
      }
    case WriterLocks =>
      assert Frames(s.batches, 0, 0) == [];
    case WriterFinishes =>
      if s.writer.Writing? { BatchIsThrough(s.arrived, s.writer.batch); }
    case _ =>
  }

  lemma BatchIsThrough(sizes: seq<nat>, b: nat)
    requires b < |sizes|
    ensures AllFrames(sizes[..b]) + Frames(b, sizes[b], sizes[b]) == AllFrames(sizes[..b + 1])
  {
    assert sizes[..b + 1][..b] == sizes[..b];
  }

  lemma OtherStepsWriteNothing(s: State, step: Step)
    requires s.ended.None? && Written(s)
    ensures OnTheWire(ReaderStep(s, step)) && OnTheWire(HeartbeatStep(s, step))
  {
    hide BatchFrames, AllFrames;
    WrittenIsBeginning(s);
    OneMoreFrame(s.sent, Status);
    if s.heartbeat.SendingPing? { OneMoreFrame(s.sent, Ping(s.heartbeat.sending)); }
  }

  lemma StepKeepsWire(s: State, step: Step)
    requires OnTheWire(s)
    ensures OnTheWire(Next(s, step))
  {
    hide BatchFrames, AllFrames, ReaderStep, WriterStep, HeartbeatStep, Written;
    if s.ended.None? {
      WriterStepWrites(s, step);
      OtherStepsWriteNothing(s, step);
    } else {
      OneMoreFrame(s.sent, Close);
    }
  }

  lemma {:induction false} RunKeepsWire(s: State, steps: seq<Step>)
    requires OnTheWire(s)
    ensures OnTheWire(Run(s, steps))
    decreases |steps|
  {
    hide OnTheWire, Next;
    if steps != [] {
      StepKeepsWire(s, steps[0]);
      RunKeepsWire(Next(s, steps[0]), steps[1..]);
    }
  }

  /**
   In every session the frames on the wire are all the frames of the batches taken from the output
   queue, whole and in order, up to where the session ended; whenever the writer waits for the next
   batch, all there were are on the wire.
   */
  lemma WireHoldsTheBatches(steps: seq<Step>)
    ensures var s := Run(Start(), steps);
      && BatchFrames(s.sent) <= AllFrames(s.arrived)
      && (s.ended.None? && s.writer.AwaitingBatch? ==> BatchFrames(s.sent) == AllFrames(s.arrived))
  {
    RunKeepsWire(Start(), steps);
    var s := Run(Start(), steps);
    if s.ended.None? {
      WrittenIsBeginning(s);
      assert s.arrived[..|s.arrived|] == s.arrived;
    }
  }

  // ---------- what is read ----------

  /** The step is the reader's, in a session that runs. */
  predicate IsRead(s: State, step: Step) {
    step.Read? && s.ended.None? && s.reader.Reading?
  }

  /** The messages read, and how many frames were refused, over a run. */
  function ValuesRead(s: State, steps: seq<Step>): seq<nat>
    decreases |steps|
  {
    if steps == [] then []
    else
      (if IsRead(s, steps[0]) && steps[0].frame.GoodData? then [steps[0].frame.value] else [])
      + ValuesRead(Next(s, steps[0]), steps[1..])
  }

  function Refusals(s: State, steps: seq<Step>): nat
    decreases |steps|
  {
    if steps == [] then 0
    else (if IsRead(s, steps[0]) && steps[0].frame.BadData? then 1 else 0) + Refusals(Next(s, steps[0]), steps[1..])
  }

  function Statuses(sent: seq<Sent>): nat {
    if sent == [] then 0
    else Statuses(sent[..|sent| - 1]) + if sent[|sent| - 1].Status? then 1 else 0
  }

  /** A status that is due and not on the wire yet. */
  function Owed(s: State): nat {
    if s.ended.None? && (s.reader.StatusNeedsLock? || s.reader.SendingStatus?) then 1 else 0
  }

  lemma OneMoreStatus(sent: seq<Sent>, frame: Sent)
    ensures Statuses(sent + [frame]) == Statuses(sent) + if frame.Status? then 1 else 0
  {
    assert (sent + [frame])[..|sent|] == sent;
  }

  lemma StepCountsStatuses(s: State, step: Step)
    ensures var t := Next(s, step);
      var refused := if IsRead(s, step) && step.frame.BadData? then 1 else 0;
      && t.passed == s.passed + (if IsRead(s, step) && step.frame.GoodData? then [step.frame.value] else [])
      && (t.ended.None? ==> Statuses(t.sent) + Owed(t) == Statuses(s.sent) + Owed(s) + refused)
      && (t.ended.Some? ==> Statuses(t.sent) == Statuses(s.sent))
      && (s.ended.Some? ==> t.ended.Some?)
  {
    hide Statuses;
    var t := Next(s, step);
    NextSendsOne(s, step);
    if |t.sent| > |s.sent| { OneMoreStatus(s.sent, t.sent[|s.sent|]); }
  }

  /**
   In every session whatever well-formed message was read was handed on, in order and once. While
   it runs, each refused message has got one status, or is about to get it; no status is sent
   for anything else.
   */
  lemma {:induction false} WhatIsReadIsHandedOn(s: State, steps: seq<Step>)
    ensures var t := Run(s, steps);
      && t.passed == s.passed + ValuesRead(s, steps)
      && (t.ended.None? ==> Statuses(t.sent) + Owed(t) == Statuses(s.sent) + Owed(s) + Refusals(s, steps))
      && Statuses(t.sent) <= Statuses(s.sent) + Owed(s) + Refusals(s, steps)
      && (s.ended.Some? ==> t.ended.Some?)
    decreases |steps|
  {
    hide Statuses, Next, Owed;
    if steps != [] {
      StepCountsStatuses(s, steps[0]);
      WhatIsReadIsHandedOn(Next(s, steps[0]), steps[1..]);
      OwedIsOne(Next(s, steps[0]));
    }
  }

  lemma OwedIsOne(s: State)
    ensures 0 <= Owed(s) <= 1
    ensures s.ended.Some? ==> Owed(s) == 0
  {
  }

  // ---------- why a session ends ----------

  /** A session ends over a missing pong only while the pong to its last probe has not been read. */
  lemma TimeoutMeansNoPong(steps: seq<Step>, step: Step)
    requires Run(Start(), steps).ended.None? && Next(Run(Start(), steps), step).ended == Some(HeartbeatTimeout)
    ensures var s := Run(Start(), steps);
      step.PongTimesOut? && s.heartbeat.AwaitingPong? && s.pending == Some(s.sequence)
  {
    RunKeepsProbeState(Start(), steps);
  }

  /** Once the pong was read, the heartbeat can go back to sleep and cannot end the session. */
  lemma PongLetsGoOn(s: State)
    requires s.ended.None? && s.heartbeat.AwaitingPong? && s.pending.None?
    ensures Next(s, PongChecked) == s.(heartbeat := Sleeping)
    ensures Next(s, PongTimesOut) == s
  {
  }

  /** What ends a session otherwise: the peer, the end of its stream or of the output queue, or a failure. */
  lemma EndsAre(s: State, step: Step)
    requires s.ended.None? && Next(s, step).ended.Some?
    ensures match Next(s, step).ended.value
      case PeerClosed => step == Read(PeerClose) && s.reader.Reading?
      case StreamEnded => step == Read(Eof) && s.reader.Reading?
      case OutputClosed => step.OutputCloses? && s.writer.AwaitingBatch?
      case HeartbeatTimeout => step.PongTimesOut? && s.pending.Some?
      case Failed => step.ReaderFails? || step.WriterFails? || step.PingFails?
    ensures Next(s, step).sent == s.sent
  {
  }

  // ---------- nobody is stuck ----------

  /** Whoever holds the sink can finish with it: it writes what it has, and lets go. */
  lemma SinkIsReleased(s: State)
    requires s.ended.None? && LockHeld(s)
    ensures s.lock == Some(ReaderTask) ==>
      var t := Next(s, ReaderSends);
      t.lock.None? && t.ended.None? && t.reader.Reading? && t.writer == s.writer && t.arrived == s.arrived
    ensures s.lock == Some(HeartbeatTask) ==>
      var t := Next(s, PingSent);
      t.lock.None? && t.ended.None? && t.heartbeat.AwaitingPong? && t.writer == s.writer && t.arrived == s.arrived
  {
  }

  /** ... and whoever waits for it gets it when it is free. */
  lemma SinkIsGranted(s: State)
    requires s.ended.None? && s.lock.None?
    ensures s.reader.StatusNeedsLock? || s.reader.FlushNeedsLock? ==> Next(s, ReaderLocks).lock == Some(ReaderTask)
    ensures s.heartbeat.PingNeedsLock? ==> Next(s, HeartbeatLocks).lock == Some(HeartbeatTask)
    ensures s.writer.BatchNeedsLock? ==> Next(s, WriterLocks).lock == Some(WriterTask)
  {
  }

  lemma {:induction false} RestOfBatch(s: State) returns (steps: seq<Step>)
    requires s.ended.None? && s.writer.Writing? && s.writer.next <= s.writer.total
    ensures Run(s, steps).ended.None? && Run(s, steps).writer.AwaitingBatch? && Run(s, steps).arrived == s.arrived
    decreases s.writer.total - s.writer.next
  {
    if s.writer.next == s.writer.total {
      steps := [WriterFinishes];
      assert steps[1..] == [];
    } else {
      var rest := RestOfBatch(Next(s, WriterSends));
      steps := [WriterSends] + rest;
      assert steps[1..] == rest;
    }
  }

  /** In every state of a running session, the batch in the writer's hands can be written to its end. */
  lemma BatchGetsThrough(steps: seq<Step>) returns (more: seq<Step>)
    requires Run(Start(), steps).ended.None? && !Run(Start(), steps).writer.AwaitingBatch?
    ensures var s := Run(Start(), steps + more);
      && s.ended.None? && s.writer.AwaitingBatch? && s.arrived == Run(Start(), steps).arrived
      && BatchFrames(s.sent) == AllFrames(s.arrived)
  {
    var s := Run(Start(), steps);
    BatchesStayWhole(Start(), steps);
    RunKeepsWire(Start(), steps);
    assert LockHeld(s);
    hide Run, BatchFrames, AllFrames, Contiguous, FreshStarts, WriterInPlace, NumberedInOrder;
    if s.writer.Writing? {
      more := RestOfBatch(s);
    } else if s.lock.None? {
      var rest := RestOfBatch(Next(s, WriterLocks));
      more := [WriterLocks] + rest;
      RunCons(s, WriterLocks, rest);
    } else {
      HolderIs(s);
      var release := if s.lock == Some(ReaderTask) then ReaderSends else PingSent;
      SinkIsReleased(s);
      var s1 := Next(s, release);
      assert s1.lock.None? && s1.writer.BatchNeedsLock?;
      SinkIsGranted(s1);
      var rest := RestOfBatch(Next(s1, WriterLocks));
      more := [release] + ([WriterLocks] + rest);
      RunCons(s, release, [WriterLocks] + rest);
      RunCons(s1, WriterLocks, rest);
    }
    RunSplits(Start(), steps, more);
    WireHoldsTheBatches(steps + more);
  }

  lemma HolderIs(s: State)
    requires LockHeld(s) && s.lock.Some? && !s.writer.Writing?
    ensures s.lock == Some(ReaderTask) || s.lock == Some(HeartbeatTask)
  {
    match s.lock.value
    case ReaderTask =>
    case WriterTask =>
    case HeartbeatTask =>
  }

  lemma RunCons(s: State, step: Step, rest: seq<Step>)
    ensures Run(s, [step] + rest) == Run(Next(s, step), rest)
  {
    assert ([step] + rest)[1..] == rest;
  }
}

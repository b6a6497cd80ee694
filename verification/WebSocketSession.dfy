/**
 One WebSocket session: reader, writer and heartbeat interleaving over a shared sink lock
 (src/websocket.rs). Automatic pongs are queued below this code and are not part of this model.
 */
module WebSocketSession {
  import opened Basics

  const SEQUENCE_MODULUS: nat := 0x1_0000_0000_0000_0000

  /** What this code itself sends; a batch frame knows its place in its batch. */
  datatype Sent =
    | BatchFrame(batch: nat, index: nat, total: nat)
    | Status
    | Ping(payload: nat)
    | Close

  datatype Task = ReaderTask | WriterTask | HeartbeatTask

  datatype Writer = AwaitingBatch | BatchNeedsLock(size: nat) | Writing(batch: nat, next: nat, total: nat)
  datatype Reader = Reading | StatusNeedsLock | FlushNeedsLock | SendingStatus | Flushing
  datatype Heartbeat = Sleeping | PingNeedsLock(probe: nat) | SendingPing(sending: nat) | AwaitingPong

  datatype End = PeerClosed | StreamEnded | OutputClosed | HeartbeatTimeout | Failed

  /**
   `arrived` is the sizes of the batches taken from the output queue, `passed` what the reader
   handed on to ROS.
   */
  datatype State = State(
    sent: seq<Sent>,
    lock: Option<Task>,
    writer: Writer, reader: Reader, heartbeat: Heartbeat,
    batches: nat,
    arrived: seq<nat>,
    passed: seq<nat>,
    sequence: nat,
    pending: Option<nat>,
    notified: bool,
    ended: Option<End>)

  /** What the reader finds on the stream. */
  datatype Frame = PeerClose | PingFrame | PongFrame(pong: nat) | GoodData(value: nat) | Unfinished | BadData | Eof

  datatype Step =
    | Read(frame: Frame)
    | ReaderLocks
    | ReaderSends
    | ReaderFails
    | BatchArrives(size: nat)
    | OutputCloses
    | WriterLocks
    | WriterSends
    | WriterFinishes
    | WriterFails
    | ProbeDue
    | HeartbeatLocks
    | PingSent
    | PingFails
    | PongChecked
    | PongNotified
    | PongTimesOut
    | CloseSent

  function Start(): State {
    State([], None, AwaitingBatch, Reading, Sleeping, 0, [], [], 0, None, false, None)
  }

  /** Ending a session drops the three tasks, and with them whatever lock is held. */
  function Finish(s: State, end: End): State {
    s.(ended := Some(end), lock := None)
  }

  function ReadStep(s: State, frame: Frame): State {
    match frame
    case PeerClose => Finish(s, PeerClosed)
    case Eof => Finish(s, StreamEnded)
    case PingFrame => s.(reader := FlushNeedsLock)
    case BadData => s.(reader := StatusNeedsLock)
    case GoodData(value) => s.(passed := s.passed + [value])
    case Unfinished => s
    case PongFrame(pong) => if s.pending == Some(pong) then s.(pending := None, notified := true) else s
  }

  function ReaderStep(s: State, step: Step): State {
    match step
    case Read(frame) => if s.reader.Reading? then ReadStep(s, frame) else s
    case ReaderLocks =>
      if s.lock.Some? then s
      else if s.reader.StatusNeedsLock? then s.(lock := Some(ReaderTask), reader := SendingStatus)
      else if s.reader.FlushNeedsLock? then s.(lock := Some(ReaderTask), reader := Flushing)
      else s
    case ReaderSends =>
      if s.reader.SendingStatus? then s.(sent := s.sent + [Status], lock := None, reader := Reading)
      else if s.reader.Flushing? then s.(lock := None, reader := Reading)
      else s
    case ReaderFails => Finish(s, Failed)
    case _ => s
  }

  function WriterStep(s: State, step: Step): State {
    match step
    case BatchArrives(size) =>
      if s.writer.AwaitingBatch? then s.(writer := BatchNeedsLock(size), arrived := s.arrived + [size]) else s
    case OutputCloses => if s.writer.AwaitingBatch? then Finish(s, OutputClosed) else s
    case WriterLocks =>
      if s.lock.None? && s.writer.BatchNeedsLock? then
        s.(lock := Some(WriterTask), writer := Writing(s.batches, 0, s.writer.size), batches := s.batches + 1)
      else s
    case WriterSends =>
      if s.writer.Writing? && s.writer.next < s.writer.total then
        s.(sent := s.sent + [BatchFrame(s.writer.batch, s.writer.next, s.writer.total)],
        writer := s.writer.(next := s.writer.next + 1))
      else s
    case WriterFinishes =>
      if s.writer.Writing? && s.writer.next >= s.writer.total then s.(lock := None, writer := AwaitingBatch) else s
    case WriterFails => if s.writer.AwaitingBatch? then s else Finish(s, Failed)
    case _ => s
  }

  function HeartbeatStep(s: State, step: Step): State {
    match step
    case ProbeDue =>
      if s.heartbeat.Sleeping? then
        var payload := (s.sequence + 1) % SEQUENCE_MODULUS;
        s.(sequence := payload, pending := Some(payload), heartbeat := PingNeedsLock(payload))
      else s
    case HeartbeatLocks =>
      if s.lock.None? && s.heartbeat.PingNeedsLock? then
        s.(lock := Some(HeartbeatTask), heartbeat := SendingPing(s.heartbeat.probe))
      else s
    case PingSent =>
      if s.heartbeat.SendingPing? then
        s.(sent := s.sent + [Ping(s.heartbeat.sending)], lock := None, heartbeat := AwaitingPong)
      else s
    case PingFails => if s.heartbeat.PingNeedsLock? || s.heartbeat.SendingPing? then Finish(s, Failed) else s
    case PongChecked => if s.heartbeat.AwaitingPong? && s.pending.None? then s.(heartbeat := Sleeping) else s
    case PongNotified => if s.heartbeat.AwaitingPong? && s.notified then s.(notified := false) else s
    case PongTimesOut => if s.heartbeat.AwaitingPong? && s.pending.Some? then Finish(s, HeartbeatTimeout) else s
    case _ => s
  }

  /** After the end only a close frame may follow, and only once. */
  function Next(s: State, step: Step): State {
    if s.ended.Some? then
      if step.CloseSent? && (s.sent == [] || !s.sent[|s.sent| - 1].Close?) then s.(sent := s.sent + [Close]) else s
    else if step.Read? || step.ReaderLocks? || step.ReaderSends? || step.ReaderFails? then ReaderStep(s, step)
    else if step.BatchArrives? || step.OutputCloses? || step.WriterLocks? || step.WriterSends?
            || step.WriterFinishes? || step.WriterFails? then WriterStep(s, step)
    else HeartbeatStep(s, step)
  }

  function Run(s: State, steps: seq<Step>): State
    decreases |steps|
  {
    if steps == [] then s else Run(Next(s, steps[0]), steps[1..])
  }

  // -------------------------------------------------------------- contiguity

  /** Frame `i` follows its predecessor in its batch and is followed by its successor. */
  ghost predicate InPlace(sent: seq<Sent>, i: nat)
    requires i < |sent|
  {
    match sent[i]
    case BatchFrame(batch, index, total) =>
      && index < total
      && (index > 0 ==> i > 0 && sent[i - 1] == BatchFrame(batch, index - 1, total))
      && (index + 1 < total && i + 1 < |sent|
          ==> sent[i + 1] == BatchFrame(batch, index + 1, total) || sent[i + 1].Close?)
    case Close => i == |sent| - 1
    case _ => true
  }

  ghost predicate Contiguous(sent: seq<Sent>) {
    forall i :: 0 <= i < |sent| ==> InPlace(sent, i)
  }

  /** Only the last batch may be unfinished, and only while it is being written or once the session ended. */
  ghost predicate LastIsDone(sent: seq<Sent>) {
    sent != [] && sent[|sent| - 1].BatchFrame? ==>
      sent[|sent| - 1].index + 1 == sent[|sent| - 1].total
  }

  ghost predicate LockHeld(s: State) {
    && (s.writer.Writing? <==> s.lock == Some(WriterTask))
    && (s.reader.SendingStatus? || s.reader.Flushing? <==> s.lock == Some(ReaderTask))
    && (s.heartbeat.SendingPing? <==> s.lock == Some(HeartbeatTask))
  }

  ghost predicate WriterInPlace(s: State) {
    if s.writer.Writing? && s.writer.next > 0 then
      && s.writer.next <= s.writer.total
      && s.sent != []
      && s.sent[|s.sent| - 1] == BatchFrame(s.writer.batch, s.writer.next - 1, s.writer.total)
    else LastIsDone(s.sent)
  }

  /** A batch that starts is newer than every batch seen before. */
  ghost predicate FreshStarts(sent: seq<Sent>) {
    forall i, j :: 0 <= i < j < |sent| && sent[i].BatchFrame? && sent[j].BatchFrame? && sent[j].index == 0 ==>
                     sent[i].batch < sent[j].batch
  }

  ghost predicate BatchesBelow(sent: seq<Sent>, bound: nat) {
    forall i :: 0 <= i < |sent| && sent[i].BatchFrame? ==> sent[i].batch < bound
  }

  ghost predicate NumberedInOrder(s: State) {
    && BatchesBelow(s.sent, s.batches)
    && (s.writer.Writing? ==> s.writer.batch < s.batches)
    && (s.writer.Writing? && s.writer.next == 0 ==> BatchesBelow(s.sent, s.writer.batch))
  }

  /** What reader, writer and heartbeat know of each other while the session runs. */
  ghost predicate Running(s: State) {
    && LockHeld(s) && WriterInPlace(s) && NumberedInOrder(s)
    && (s.sent == [] || !s.sent[|s.sent| - 1].Close?)
  }

  ghost predicate Orderly(s: State) {
    Contiguous(s.sent) && FreshStarts(s.sent) && (s.ended.None? ==> Running(s))
  }

  lemma AppendKeepsContiguous(sent: seq<Sent>, frame: Sent)
    requires Contiguous(sent)
    requires sent != [] ==> !sent[|sent| - 1].Close?
    requires match frame
      case BatchFrame(batch, index, total) =>
        && index < total
        && (if index > 0 then sent != [] && sent[|sent| - 1] == BatchFrame(batch, index - 1, total)
            else LastIsDone(sent))
      case Close => true
      case _ => LastIsDone(sent)
    ensures Contiguous(sent + [frame])
  {
    var sent' := sent + [frame];
    forall i | 0 <= i < |sent'|
      ensures InPlace(sent', i)
    {
      if i < |sent| { assert InPlace(sent, i); }
    }
  }

  lemma AppendKeepsFresh(sent: seq<Sent>, frame: Sent)
    requires FreshStarts(sent)
    requires frame.BatchFrame? && frame.index == 0 ==> BatchesBelow(sent, frame.batch)
    ensures FreshStarts(sent + [frame])
  {
  }

  lemma AppendKeepsBelow(sent: seq<Sent>, frame: Sent, bound: nat)
    requires BatchesBelow(sent, bound) && (frame.BatchFrame? ==> frame.batch < bound)
    ensures BatchesBelow(sent + [frame], bound)
  {
  }

  lemma BelowGrows(sent: seq<Sent>, bound: nat)
    requires BatchesBelow(sent, bound)
    ensures BatchesBelow(sent, bound + 1)
  {
  }

  /** A step sends at most one frame, at the end. */
  lemma NextSendsOne(s: State, step: Step)
    ensures var t := Next(s, step);
      t.sent == s.sent || (|t.sent| == |s.sent| + 1 && t.sent == s.sent + [t.sent[|s.sent|]])
  {
  }

  /** What a frame has to be like for the frames so far. */
  ghost predicate MayFollow(sent: seq<Sent>, frame: Sent) {
    && (sent != [] ==> !sent[|sent| - 1].Close?)
    && match frame
       case BatchFrame(batch, index, total) =>
         && index < total
         && (if index > 0 then sent != [] && sent[|sent| - 1] == BatchFrame(batch, index - 1, total)
             else LastIsDone(sent) && BatchesBelow(sent, batch))
       case Close => true
       case _ => LastIsDone(sent)
  }

  lemma FollowingKeepsOrder(sent: seq<Sent>, frame: Sent)
    requires Contiguous(sent) && FreshStarts(sent) && MayFollow(sent, frame)
    ensures Contiguous(sent + [frame]) && FreshStarts(sent + [frame])
  {
    hide Contiguous, FreshStarts, BatchesBelow;
    AppendKeepsContiguous(sent, frame);
    AppendKeepsFresh(sent, frame);
  }

  lemma StepMayFollow(s: State, step: Step)
    requires s.ended.None? ==> Running(s)
    ensures var t := Next(s, step); t.sent != s.sent ==> MayFollow(s.sent, t.sent[|s.sent|])
  {
    hide BatchesBelow;
  }

  lemma ReaderKeepsRunning(s: State, step: Step)
    requires s.ended.None? && Running(s) && ReaderStep(s, step).ended.None?
    ensures Running(ReaderStep(s, step))
  {
    if ReaderStep(s, step).sent != s.sent { AppendKeepsBelow(s.sent, Status, s.batches); }
    hide BatchesBelow;
  }

  lemma WriterKeepsRunning(s: State, step: Step)
    requires s.ended.None? && Running(s) && WriterStep(s, step).ended.None?
    ensures Running(WriterStep(s, step))
  {
    hide BatchesBelow;
    BelowGrows(s.sent, s.batches);
    if s.writer.Writing? {
      AppendKeepsBelow(s.sent, BatchFrame(s.writer.batch, s.writer.next, s.writer.total), s.batches);
    }
  }

  lemma HeartbeatKeepsRunning(s: State, step: Step)
    requires s.ended.None? && Running(s) && HeartbeatStep(s, step).ended.None?
    ensures Running(HeartbeatStep(s, step))
  {
    hide BatchesBelow;
    if s.heartbeat.SendingPing? {
      AppendKeepsBelow(s.sent, Ping(s.heartbeat.sending), s.batches);
    }
  }

  /** No interleaving of the three tasks lets another frame into a batch. */
  lemma StepStaysOrderly(s: State, step: Step)
    requires Orderly(s)
    ensures Orderly(Next(s, step))
  {
    hide Contiguous, FreshStarts, LockHeld, WriterInPlace, NumberedInOrder, MayFollow, ReaderStep, WriterStep,
      HeartbeatStep;
    var s' := Next(s, step);
    NextSendsOne(s, step);
    StepMayFollow(s, step);
    if s'.sent != s.sent { FollowingKeepsOrder(s.sent, s'.sent[|s.sent|]); }
    if s.ended.None? && s'.ended.None? {
      if s' == ReaderStep(s, step) { ReaderKeepsRunning(s, step); }
      else if s' == WriterStep(s, step) { WriterKeepsRunning(s, step); }
      else { HeartbeatKeepsRunning(s, step); }
    }
  }

  lemma {:induction false} BatchesStayWhole(s: State, steps: seq<Step>)
    requires Orderly(s)
    ensures Orderly(Run(s, steps))
    ensures s.sent <= Run(s, steps).sent
    decreases |steps|
  {
    hide Orderly, Next;
    if steps != [] {
      NextSendsOne(s, steps[0]);
      StepStaysOrderly(s, steps[0]);
      BatchesStayWhole(Next(s, steps[0]), steps[1..]);
    }
  }

  /** Whatever lies between two frames of one batch belongs to that batch, in order. */
  lemma {:induction false} BatchIsContiguous(sent: seq<Sent>, i: nat, j: nat)
    requires Contiguous(sent) && FreshStarts(sent) && i <= j < |sent|
    requires sent[i].BatchFrame? && sent[j].BatchFrame? && sent[i].batch == sent[j].batch
    ensures sent[i].index + (j - i) == sent[j].index
    ensures forall k :: i <= k <= j ==>
                          sent[k] == BatchFrame(sent[i].batch, sent[i].index + (k - i), sent[i].total)
    decreases j - i
  {
    if i < j {
      assert InPlace(sent, j);
      BatchIsContiguous(sent, i, j - 1);
    }
  }

  /** A batch is cut short only by a close frame or by being the last thing sent. */
  lemma OnlyTheEndCutsABatch(steps: seq<Step>, i: nat)
    requires i < |Run(Start(), steps).sent| && Run(Start(), steps).sent[i].BatchFrame?
    ensures var sent := Run(Start(), steps).sent;
      var frame := sent[i];
      frame.index + 1 < frame.total && i + 1 < |sent| ==>
        || sent[i + 1] == BatchFrame(frame.batch, frame.index + 1, frame.total)
        || (sent[i + 1] == Close && i + 2 == |sent|)
  {
    BatchesStayWhole(Start(), steps);
    var sent := Run(Start(), steps).sent;
    assert InPlace(sent, i);
    if i + 1 < |sent| { assert InPlace(sent, i + 1); }
  }

  /** In every session, in every interleaving, the frames of a batch are consecutive. */
  lemma SessionsKeepBatchesWhole(steps: seq<Step>, i: nat, j: nat, k: nat)
    requires i <= k <= j < |Run(Start(), steps).sent|
    requires var sent := Run(Start(), steps).sent;
      sent[i].BatchFrame? && sent[j].BatchFrame? && sent[i].batch == sent[j].batch
    ensures var sent := Run(Start(), steps).sent;
      sent[k] == BatchFrame(sent[i].batch, sent[i].index + (k - i), sent[i].total)
  {
    BatchesStayWhole(Start(), steps);
    BatchIsContiguous(Run(Start(), steps).sent, i, j);
  }

  // --------------------------------------------------------------- heartbeat

  /** Outside of sleep one probe is outstanding or was just answered. */
  ghost predicate ProbeState(s: State) {
    && (s.heartbeat.Sleeping? ==> s.pending.None?)
    && (s.pending.Some? ==> s.pending == Some(s.sequence))
    && (s.heartbeat.PingNeedsLock? ==> s.heartbeat.probe == s.sequence)
    && (s.heartbeat.SendingPing? ==> s.heartbeat.sending == s.sequence)
  }

  lemma StepKeepsProbeState(s: State, step: Step)
    requires ProbeState(s)
    ensures ProbeState(Next(s, step))
  {
  }

  /** Does the step read a pong carrying this payload? */
  predicate Answers(step: Step, payload: nat) {
    step.Read? && step.frame == PongFrame(payload)
  }

  function Probes(sent: seq<Sent>): seq<nat> {
    if sent == [] then []
    else Probes(sent[..|sent| - 1]) + (if sent[|sent| - 1].Ping? then [sent[|sent| - 1].payload] else [])
  }

  /**
   While the pong to a probe has not been read, nothing else counts as an answer:
   the probe stays outstanding, no new one is prepared, and at most this one is sent.
   */
  lemma {:induction false} NoPongNoNextProbe(s: State, steps: seq<Step>, payload: nat)
    requires ProbeState(s) && s.pending == Some(payload)
    requires forall i :: 0 <= i < |steps| ==> !Answers(steps[i], payload)
    ensures var s' := Run(s, steps);
      && s'.pending == Some(payload)
      && s'.sequence == s.sequence
      && !s'.heartbeat.Sleeping?
      && (Probes(s'.sent) == Probes(s.sent)
          || (!s.heartbeat.AwaitingPong? && Probes(s'.sent) == Probes(s.sent) + [payload]))
    decreases |steps|
  {
    if steps != [] {
      var s1 := Next(s, steps[0]);
      StepKeepsProbeState(s, steps[0]);
      OneStepOfProbe(s, steps[0], payload);
      NoPongNoNextProbe(s1, steps[1..], payload);
    }
  }

  lemma OneStepOfProbe(s: State, step: Step, payload: nat)
    requires ProbeState(s) && s.pending == Some(payload) && !Answers(step, payload)
    ensures var s' := Next(s, step);
      && s'.pending == Some(payload)
      && s'.sequence == s.sequence
      && (s.heartbeat.AwaitingPong? ==> s'.heartbeat.AwaitingPong?)
      && (Probes(s'.sent) == Probes(s.sent)
          || (!s.heartbeat.AwaitingPong? && s'.heartbeat.AwaitingPong?
              && Probes(s'.sent) == Probes(s.sent) + [payload]))
  {
    var s' := Next(s, step);
    if |s'.sent| > |s.sent| {
      assert s'.sent[..|s.sent|] == s.sent;
    }
  }

  /** The state in which step `i` of a session is taken. */
  function Before(steps: seq<Step>, i: nat): State
    requires i <= |steps|
  {
    Run(Start(), steps[..i])
  }

  /** Step `i` prepares a new probe, with the payload `Payload(steps, i)`. */
  predicate Prepares(steps: seq<Step>, i: nat) {
    && i < |steps| && steps[i].ProbeDue?
    && Before(steps, i).ended.None? && Before(steps, i).heartbeat.Sleeping?
  }

  function Payload(steps: seq<Step>, i: nat): nat
    requires i < |steps|
  {
    (Before(steps, i).sequence + 1) % SEQUENCE_MODULUS
  }

  /** At step `k` the reader of a running session reads the pong with this payload. */
  predicate Hears(steps: seq<Step>, k: nat, payload: nat) {
    && k < |steps| && Answers(steps[k], payload)
    && Before(steps, k).ended.None? && Before(steps, k).reader.Reading?
  }

  lemma {:induction false} RunSplits(s: State, first: seq<Step>, rest: seq<Step>)
    ensures Run(s, first + rest) == Run(Run(s, first), rest)
    decreases |first|
  {
    if first == [] {
      assert first + rest == rest;
    } else {
      assert (first + rest)[1..] == first[1..] + rest;
      RunSplits(Next(s, first[0]), first[1..], rest);
    }
  }

  lemma {:induction false} RunKeepsProbeState(s: State, steps: seq<Step>)
    requires ProbeState(s)
    ensures ProbeState(Run(s, steps))
    decreases |steps|
  {
    if steps != [] {
      StepKeepsProbeState(s, steps[0]);
      RunKeepsProbeState(Next(s, steps[0]), steps[1..]);
    }
  }

  /** The step that turned an outstanding probe into rest: the pong was read there. */
  lemma {:induction false} FindAnswer(s: State, steps: seq<Step>, payload: nat) returns (k: nat)
    requires ProbeState(s) && s.pending == Some(payload) && Run(s, steps).pending != Some(payload)
    ensures k < |steps| && Answers(steps[k], payload)
    ensures Run(s, steps[..k]).ended.None? && Run(s, steps[..k]).reader.Reading?
    decreases |steps|
  {
    var s1 := Next(s, steps[0]);
    StepKeepsProbeState(s, steps[0]);
    if s1.pending == Some(payload) {
      k := FindAnswer(s1, steps[1..], payload);
      k := k + 1;
      assert steps[..k] == [steps[0]] + steps[1..][..k - 1];
    } else {
      k := 0;
    }
  }

  lemma BeforeNext(steps: seq<Step>, i: nat)
    requires i < |steps|
    ensures Before(steps, i + 1) == Next(Before(steps, i), steps[i])
  {
    assert steps[..i + 1] == steps[..i] + [steps[i]];
    RunSplits(Start(), steps[..i], [steps[i]]);
  }

  lemma ProbeIsOutstanding(s: State, step: Step)
    requires s.ended.None? && s.heartbeat.Sleeping? && step.ProbeDue?
    ensures Next(s, step).pending == Some((s.sequence + 1) % SEQUENCE_MODULUS)
  {
  }

  lemma NothingOutstandingAsleep(s: State)
    requires ProbeState(s) && s.heartbeat.Sleeping?
    ensures s.pending.None?
  {
  }

  lemma StartsAsleep()
    ensures ProbeState(Start())
  {
  }

  /** Between two probes the pong to the first one was read; no other pong, and no other data, will do. */
  lemma NextProbeNeedsAnswer(steps: seq<Step>, i: nat, j: nat)
    requires i < j && Prepares(steps, i) && Prepares(steps, j)
    ensures exists k :: i < k < j && Hears(steps, k, Payload(steps, i))
  {
    hide Run, Next, ProbeState;
    BeforeNext(steps, i);
    ProbeIsOutstanding(Before(steps, i), steps[i]);
    var s := Before(steps, i + 1);
    var between := steps[i + 1..j];
    assert steps[..j] == steps[..i + 1] + between;
    RunSplits(Start(), steps[..i + 1], between);
    StartsAsleep();
    RunKeepsProbeState(Start(), steps[..i + 1]);
    RunKeepsProbeState(Start(), steps[..j]);
    NothingOutstandingAsleep(Before(steps, j));
    var k := FindAnswer(s, between, Payload(steps, i));
    assert steps[..i + 1 + k] == steps[..i + 1] + between[..k];
    RunSplits(Start(), steps[..i + 1], between[..k]);
    assert Hears(steps, i + 1 + k, Payload(steps, i));
  }

  /** Step `i` puts a ping on the wire. */
  predicate Pings(steps: seq<Step>, i: nat) {
    i < |steps| && steps[i].PingSent? && Before(steps, i).ended.None? && Before(steps, i).heartbeat.SendingPing?
  }

  /** The heartbeat is at work on the probe prepared at `p`. */
  ghost predicate WorksOn(steps: seq<Step>, p: nat, i: nat) {
    && p < i <= |steps| && Prepares(steps, p)
    && Before(steps, i).sequence == Payload(steps, p)
    && forall q :: p < q < i ==> !Prepares(steps, q)
  }

  /** A heartbeat that is not asleep works on the probe prepared last. */
  lemma {:induction false} FindProbe(steps: seq<Step>, i: nat) returns (p: nat)
    requires i <= |steps| && !Before(steps, i).heartbeat.Sleeping?
    ensures WorksOn(steps, p, i)
    decreases i
  {
    BeforeNext(steps, i - 1);
    if Prepares(steps, i - 1) {
      p := i - 1;
    } else {
      p := FindProbe(steps, i - 1);
    }
  }

  /** A ping on the wire carries the payload of the probe prepared last. */
  lemma PingCarriesProbe(steps: seq<Step>, i: nat) returns (p: nat)
    requires Pings(steps, i)
    ensures p < i && Prepares(steps, p)
    ensures Before(steps, i).heartbeat.sending == Payload(steps, p)
    ensures Before(steps, i + 1).sent == Before(steps, i).sent + [Ping(Payload(steps, p))]
    ensures forall q :: p < q < i ==> !Prepares(steps, q)
  {
    p := FindProbe(steps, i);
    BeforeNext(steps, i);
    RunKeepsProbeState(Start(), steps[..i]);
  }

  /** After a ping the heartbeat waits, so another ping takes another probe. */
  lemma {:induction false} AnotherPingNeedsProbe(steps: seq<Step>, i: nat, j: nat) returns (p: nat)
    requires i < j <= |steps| && Before(steps, i + 1).heartbeat.AwaitingPong?
    requires Before(steps, j).heartbeat.PingNeedsLock? || Before(steps, j).heartbeat.SendingPing?
    ensures i < p < j && Prepares(steps, p)
    decreases j
  {
    BeforeNext(steps, j - 1);
    if Prepares(steps, j - 1) {
      p := j - 1;
      BeforeNext(steps, i);
    } else {
      p := AnotherPingNeedsProbe(steps, i, j - 1);
    }
  }

  /** On the wire: before a further ping, the pong to the earlier ping was read. */
  lemma NextPingNeedsPong(steps: seq<Step>, i: nat, j: nat)
    requires i < j && Pings(steps, i) && Pings(steps, j)
    ensures exists k: nat :: k < j && Hears(steps, k, Before(steps, i).heartbeat.sending)
    ensures Before(steps, i + 1).sent == Before(steps, i).sent + [Ping(Before(steps, i).heartbeat.sending)]
  {
    var p := PingCarriesProbe(steps, i);
    BeforeNext(steps, i);
    var q := AnotherPingNeedsProbe(steps, i, j);
    NextProbeNeedsAnswer(steps, p, q);
  }
}

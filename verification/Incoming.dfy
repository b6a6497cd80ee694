/** Per-connection command queues behind one round-robin ready queue (src/incoming.rs). */
module Incoming {
  import opened Basics

  type Output = nat
  type Json = string

  datatype Command =
    | Connect(id: nat, output: Output)
    | Message(id: nat, value: Json)
    | Disconnect(id: nat)
    | Shutdown

  datatype Outcome = Ok | ReceiverClosed | DuplicateConnection | NotRegistered | Closing | QueueFull

  datatype Client = Client(output: Option<Output>, messages: seq<Json>, disconnect: bool, scheduled: bool)
  {
    predicate HasWork() { disconnect || output.Some? || messages != [] }
  }

  datatype State = State(clients: map<nat, Client>, ready: seq<nat>, capacity: nat, closed: bool)
  {
    /** The ready queue lists, once each, exactly the clients with something to deliver. */
    ghost predicate Valid() {
      && capacity > 0
      && (forall i, j :: 0 <= i < j < |ready| ==> ready[i] != ready[j])
      && (forall id :: id in ready <==> id in clients && clients[id].scheduled)
      && (forall id :: id in clients ==> Settled(clients[id]))
      && (closed ==> clients == map[])
    }

    ghost predicate Settled(c: Client) {
      && (c.scheduled <==> c.HasWork())
      && |c.messages| <= capacity
      && (c.disconnect ==> c.messages == [])
    }
  }

  /** Stores the client and queues its id unless it is queued already. */
  function Schedule(s: State, id: nat, c: Client): State {
    s.(clients := s.clients[id := c.(scheduled := true)],
    ready := if c.scheduled then s.ready else s.ready + [id])
  }

  function DoConnect(s: State, id: nat, output: Output): (State, Outcome) {
    if s.closed then (s, ReceiverClosed)
    else if id in s.clients then (s, DuplicateConnection)
    else (Schedule(s, id, Client(Some(output), [], false, false)), Ok)
  }

  function DoMessage(s: State, id: nat, value: Json): (State, Outcome) {
    if s.closed then (s, ReceiverClosed)
    else if id !in s.clients then (s, NotRegistered)
    else
      var c := s.clients[id];
      if c.disconnect then (s, Closing)
      else if |c.messages| >= s.capacity then (s, QueueFull)
      else (Schedule(s, id, c.(messages := c.messages + [value])), Ok)
  }

  function DoDisconnect(s: State, id: nat): State {
    if id in s.clients then Schedule(s, id, s.clients[id].(messages := [], disconnect := true)) else s
  }

  function DoShutdown(s: State): State {
    s.(closed := true, clients := map[], ready := [])
  }

  /** What serving a client yields and leaves behind; `None` would be the unwrap that cannot happen. */
  function Serve(id: nat, c: Client): (Option<Client>, Option<Command>) {
    if c.disconnect then (None, Some(Disconnect(id)))
    else if c.output.Some? then (Some(c.(output := None, scheduled := false)), Some(Connect(id, c.output.value)))
    else if c.messages != [] then
      (Some(c.(messages := c.messages[1..], scheduled := false)), Some(Message(id, c.messages[0])))
    else (Some(c.(scheduled := false)), None)
  }

  function DoReceive(s: State): (State, Option<Command>) {
    if s.closed then (s, Some(Shutdown))
    else if s.ready == [] then (s, None)
    else
      var id := s.ready[0];
      var s1 := s.(ready := s.ready[1..]);
      if id !in s.clients then (s1, None)
      else
        match Serve(id, s.clients[id])
        case (None, command) => (s1.(clients := s.clients - {id}), command)
        case (Some(c), command) =>
          if c.messages != [] then (Schedule(s1, id, c), command)
          else (s1.(clients := s.clients[id := c]), command)
  }

  datatype Op =
    | OpConnect(id: nat, output: Output)
    | OpMessage(id: nat, value: Json)
    | OpDisconnect(id: nat)
    | OpReceive
    | OpShutdown

  function Step(s: State, op: Op): (State, Option<Command>) {
    match op
    case OpConnect(id, output) => (DoConnect(s, id, output).0, None)
    case OpMessage(id, value) => (DoMessage(s, id, value).0, None)
    case OpDisconnect(id) => (DoDisconnect(s, id), None)
    case OpReceive => DoReceive(s)
    case OpShutdown => (DoShutdown(s), None)
  }

  // --------------------------------------------------------------- invariant

  lemma ScheduleKeepsValid(s: State, id: nat, c: Client)
    requires s.Valid() && !s.closed
    requires c.scheduled <==> id in s.ready
    requires c.HasWork() && |c.messages| <= s.capacity && (c.disconnect ==> c.messages == [])
    ensures Schedule(s, id, c).Valid()
  {
    var s' := Schedule(s, id, c);
    assert forall other :: other in s'.ready <==> other in s.ready || other == id;
  }

  lemma ReceiveKeepsValid(s: State)
    requires s.Valid()
    ensures DoReceive(s).0.Valid()
    ensures !s.closed && s.ready != [] ==>
              && s.ready[0] in s.clients
              && DoReceive(s).1 == Serve(s.ready[0], s.clients[s.ready[0]]).1
              && DoReceive(s).1.Some?
  {
    hide Serve, State.Valid;
    if !s.closed && s.ready != [] {
      var id := s.ready[0];
      ReadyFacts(s);
      HeadLeaves(s.ready);
      ServedStaysSettled(s, id);
      var (left, _) := Serve(id, s.clients[id]);
      if left.None? {
        OneChanged(s, id, s.clients - {id}, s.ready[1..]);
      } else if left.value.messages != [] {
        OneChanged(s, id, s.clients[id := left.value.(scheduled := true)], s.ready[1..] + [id]);
      } else {
        OneChanged(s, id, s.clients[id := left.value], s.ready[1..]);
      }
    }
  }

  lemma ReadyFacts(s: State)
    requires s.Valid()
    ensures forall i, j :: 0 <= i < j < |s.ready| ==> s.ready[i] != s.ready[j]
    ensures s.ready != [] ==>
      && s.ready[0] in s.clients && s.clients[s.ready[0]].scheduled && s.Settled(s.clients[s.ready[0]])
  {
    if s.ready != [] { assert s.ready[0] in s.ready; }
  }

  /** Changing one client, and its place in the queue with it, keeps the rest in order. */
  lemma OneChanged(s: State, id: nat, clients: map<nat, Client>, ready: seq<nat>)
    requires s.Valid() && !s.closed
    requires forall i, j :: 0 <= i < j < |ready| ==> ready[i] != ready[j]
    requires forall other :: other != id ==> (other in ready <==> other in s.ready)
    requires id in ready <==> id in clients && clients[id].scheduled
    requires clients - {id} == s.clients - {id}
    requires id in clients ==> s.Settled(clients[id])
    ensures s.(clients := clients, ready := ready).Valid()
  {
    var s' := s.(clients := clients, ready := ready);
    forall other | other != id
      ensures other in clients <==> other in s.clients
      ensures other in clients ==> clients[other] == s.clients[other]
    {
      assert other in clients - {id} <==> other in s.clients - {id};
    }
    forall other | other in s'.clients ensures s'.Settled(s'.clients[other]) {
      if other == id { assert s.Settled(clients[id]); } else { assert s.Settled(s.clients[other]); }
    }
  }

  lemma HeadLeaves(ready: seq<nat>)
    requires ready != [] && forall i, j :: 0 <= i < j < |ready| ==> ready[i] != ready[j]
    ensures ready[0] in ready && ready[0] !in ready[1..]
    ensures forall other :: other in ready[1..] <==> other in ready && other != ready[0]
    ensures forall other :: other in ready[1..] + [ready[0]] <==> other in ready
    ensures forall i, j :: 0 <= i < j < |ready[1..] + [ready[0]]| ==>
                             (ready[1..] + [ready[0]])[i] != (ready[1..] + [ready[0]])[j]
  {
    assert ready == [ready[0]] + ready[1..];
  }

  lemma ServedStaysSettled(s: State, id: nat)
    requires id in s.clients && s.Settled(s.clients[id]) && s.clients[id].scheduled
    ensures var (left, command) := Serve(id, s.clients[id]);
      && command.Some?
      && (left.Some? ==> !left.value.scheduled && left.value.output.None? && !left.value.disconnect
                         && |left.value.messages| <= s.capacity)
  {
  }

  lemma StepKeepsValid(s: State, op: Op)
    requires s.Valid()
    ensures Step(s, op).0.Valid()
  {
    match op
    case OpConnect(id, output) =>
      if !s.closed && id !in s.clients { ScheduleKeepsValid(s, id, Client(Some(output), [], false, false)); }
    case OpMessage(id, value) =>
      if DoMessage(s, id, value).1.Ok? {
        ScheduleKeepsValid(s, id, s.clients[id].(messages := s.clients[id].messages + [value]));
      }
    case OpDisconnect(id) =>
      if id in s.clients {
        ScheduleKeepsValid(s, id, s.clients[id].(messages := [], disconnect := true));
      }
    case OpReceive => ReceiveKeepsValid(s);
    case OpShutdown =>
  }

  // ---------------------------------------------------------------- fairness

  /** The commands that the receives of a run return, in order. */
  function Received(s: State, ops: seq<Op>): seq<Option<Command>>
    decreases |ops|
  {
    if ops == [] then []
    else
      var (s', command) := Step(s, ops[0]);
      (if ops[0].OpReceive? then [command] else []) + Received(s', ops[1..])
  }

  predicate IsFor(command: Option<Command>, id: nat) {
    command.Some? && !command.value.Shutdown? && command.value.id == id
  }

  lemma StepShiftsQueue(s: State, op: Op, p: nat)
    requires s.Valid() && p < |s.ready| && !op.OpShutdown?
    ensures var s' := Step(s, op).0;
      && (!op.OpReceive? ==> p < |s'.ready| && s'.ready[p] == s.ready[p])
      && (op.OpReceive? && p > 0 ==> p - 1 < |s'.ready| && s'.ready[p - 1] == s.ready[p])
    ensures op.OpReceive? ==> !s.closed && IsFor(Step(s, op).1, s.ready[0])
  {
    assert s.ready[0] in s.ready;
    if op.OpReceive? { ReceiveKeepsValid(s); }
  }

  /**
   Round robin: whatever else happens short of shutdown, a client waiting at position `p`
   is served by exactly the receive number `p + 1`, and by none before it.
   */
  lemma {:induction false} ServedInTurn(s: State, ops: seq<Op>, p: nat)
    requires s.Valid() && p < |s.ready|
    requires forall i :: 0 <= i < |ops| ==> !ops[i].OpShutdown?
    ensures var received := Received(s, ops);
      && (p < |received| ==> IsFor(received[p], s.ready[p]))
      && (forall k :: 0 <= k < p && k < |received| ==> !IsFor(received[k], s.ready[p]))
    decreases |ops|
  {
    hide State.Valid, Step;
    if ops != [] {
      var op := ops[0];
      StepKeepsValid(s, op);
      StepShiftsQueue(s, op, p);
      var s' := Step(s, op).0;
      if !op.OpReceive? {
        ServedInTurn(s', ops[1..], p);
        assert Received(s, ops) == Received(s', ops[1..]);
      } else {
        var later := Received(s', ops[1..]);
        assert Received(s, ops) == [Step(s, op).1] + later;
        if p > 0 {
          ServedInTurn(s', ops[1..], p - 1);
          HeadIsOther(s, p);
          assert forall k :: 0 < k < |later| + 1 ==> Received(s, ops)[k] == later[k - 1];
        }
      }
    }
  }

  lemma HeadIsOther(s: State, p: nat)
    requires s.Valid() && 0 < p < |s.ready|
    ensures s.ready[0] != s.ready[p]
  {
  }

  // ------------------------------------------------------- order per session

  /** One connection of a client id: what was accepted for it and delivered, and whether it was asked to end. */
  datatype Session = Session(output: Output, accepted: seq<Json>, delivered: seq<Command>, closing: bool)

  datatype Ledger = Ledger(s: State, current: Option<Session>, past: seq<Session>)

  function Messages(id: nat, values: seq<Json>): seq<Command> {
    if values == [] then [] else Messages(id, values[..|values| - 1]) + [Message(id, values[|values| - 1])]
  }

  /** Connect, the first `n` accepted messages in order, and possibly one final Disconnect. */
  function Transcript(id: nat, session: Session, n: nat, ended: bool): seq<Command>
    requires n <= |session.accepted|
  {
    [Connect(id, session.output)] + Messages(id, session.accepted[..n]) + (if ended then [Disconnect(id)] else [])
  }

  ghost predicate WellOrdered(id: nat, session: Session) {
    || session.delivered == []
    || session.delivered == [Disconnect(id)]
    || (exists n, ended :: 0 <= n <= |session.accepted| && session.delivered == Transcript(id, session, n, ended))
  }

  function Track(l: Ledger, id: nat, op: Op): Ledger {
    var (s', command) := Step(l.s, op);
    var l1 := l.(s := s');
    if op.OpConnect? && op.id == id && DoConnect(l.s, id, op.output).1.Ok? then
      l1.(current := Some(Session(op.output, [], [], false)),
      past := if l.current.Some? then l.past + [l.current.value] else l.past)
    else if op.OpMessage? && op.id == id && DoMessage(l.s, id, op.value).1.Ok? && l.current.Some? then
      l1.(current := Some(l.current.value.(accepted := l.current.value.accepted + [op.value])))
    else if op.OpDisconnect? && op.id == id && l.current.Some? then
      l1.(current := Some(l.current.value.(closing := true)))
    else if IsFor(command, id) && l.current.Some? then
      l1.(current := Some(l.current.value.(delivered := l.current.value.delivered + [command.value])))
    else l1
  }

  function TrackAll(l: Ledger, id: nat, ops: seq<Op>): Ledger
    decreases |ops|
  {
    if ops == [] then l else TrackAll(Track(l, id, ops[0]), id, ops[1..])
  }

  /** How the stored client relates to its session's transcript so far. */
  ghost predicate InStep(id: nat, c: Client, session: Session) {
    && (c.disconnect <==> session.closing)
    && (c.output.Some? ==> c.output.value == session.output && session.delivered == [])
    && (c.output.Some? && !c.disconnect ==> session.accepted == c.messages)
    && (c.output.None? ==>
          exists n {:trigger Transcript(id, session, n, false)} ::
            && 0 <= n <= |session.accepted|
            && session.delivered == Transcript(id, session, n, false)
            && (!c.disconnect ==> session.accepted[n..] == c.messages))
  }

  /** A finished session was told so, last of all. */
  predicate Ended(id: nat, session: Session) {
    session.delivered != [] && session.delivered[|session.delivered| - 1] == Disconnect(id)
  }

  ghost predicate Follows(l: Ledger, id: nat) {
    && (forall i :: 0 <= i < |l.past| ==> WellOrdered(id, l.past[i]) && Ended(id, l.past[i]))
    && (l.current.Some? && id !in l.s.clients && !l.s.closed ==> Ended(id, l.current.value) && l.current.value.closing)
    && (l.current.Some? ==> WellOrdered(id, l.current.value))
    && (id in l.s.clients ==> l.current.Some? && InStep(id, l.s.clients[id], l.current.value))
  }

  ghost predicate Tracked(l: Ledger, id: nat) {
    l.s.Valid() && Follows(l, id)
  }

  lemma ServingExtendsTranscript(id: nat, c: Client, session: Session)
    requires InStep(id, c, session) && c.HasWork() && (c.disconnect ==> c.messages == [])
    ensures var (c', command) := Serve(id, c);
      && command.Some?
      && var session' := session.(delivered := session.delivered + [command.value]);
      && WellOrdered(id, session')
      && (c'.None? ==> Ended(id, session') && session'.closing)
      && (c'.Some? ==> InStep(id, c'.value, session'))
      && (c'.Some? ==> InStep(id, c'.value.(scheduled := true), session'))
  {
    assert c.disconnect <==> session.closing;
    hide InStep, WellOrdered, Transcript;
    if c.disconnect {
      EndExtendsTranscript(id, c, session);
    } else if c.output.Some? {
      ConnectExtendsTranscript(id, c, session);
    } else {
      MessageExtendsTranscript(id, c, session);
    }
  }

  lemma EndExtendsTranscript(id: nat, c: Client, session: Session)
    requires InStep(id, c, session) && c.disconnect
    ensures WellOrdered(id, session.(delivered := session.delivered + [Disconnect(id)]))
  {
    hide Messages;
    var session' := session.(delivered := session.delivered + [Disconnect(id)]);
    if c.output.None? {
      var n :| 0 <= n <= |session.accepted| && session.delivered == Transcript(id, session, n, false);
      assert session'.delivered == Transcript(id, session', n, true);
    }
  }

  lemma ConnectExtendsTranscript(id: nat, c: Client, session: Session)
    requires InStep(id, c, session) && c.output.Some? && !c.disconnect
    ensures var session' := session.(delivered := session.delivered + [Connect(id, c.output.value)]);
      && WellOrdered(id, session')
      && forall scheduled :: InStep(id, c.(output := None, scheduled := scheduled), session')
  {
    var session' := session.(delivered := session.delivered + [Connect(id, c.output.value)]);
    assert session'.delivered == Transcript(id, session', 0, false);
    assert session'.accepted[0..] == c.messages;
  }

  lemma OneMoreMessage(id: nat, session: Session, session': Session, n: nat)
    requires n < |session.accepted| && session.delivered == Transcript(id, session, n, false)
    requires session' == session.(delivered := session.delivered + [Message(id, session.accepted[n])])
    ensures session'.delivered == Transcript(id, session', n + 1, false)
  {
    assert session.accepted[..n + 1][..n] == session.accepted[..n];
  }

  lemma MessageExtendsTranscript(id: nat, c: Client, session: Session)
    requires InStep(id, c, session) && c.output.None? && !c.disconnect && c.messages != []
    ensures var session' := session.(delivered := session.delivered + [Message(id, c.messages[0])]);
      && WellOrdered(id, session')
      && forall scheduled :: InStep(id, c.(messages := c.messages[1..], scheduled := scheduled), session')
  {
    hide Messages;
    var session' := session.(delivered := session.delivered + [Message(id, c.messages[0])]);
    var n :| 0 <= n <= |session.accepted| && session.delivered == Transcript(id, session, n, false)
             && session.accepted[n..] == c.messages;
    assert session.accepted[..n + 1][..n] == session.accepted[..n];
    OneMoreMessage(id, session, session', n);
    assert session'.accepted[n + 1..] == c.messages[1..];
  }

  lemma DeliveryStaysTracked(l: Ledger, id: nat)
    requires Follows(l, id) && !l.s.closed && l.s.ready != [] && l.s.ready[0] == id
    requires id in l.s.clients && l.s.Settled(l.s.clients[id]) && l.s.clients[id].HasWork()
    ensures Follows(Track(l, id, OpReceive), id)
  {
    hide WellOrdered, Ended, InStep, Serve;
    ServingExtendsTranscript(id, l.s.clients[id], l.current.value);
    ServeKeepsClosing(id, l.s.clients[id]);
  }

  lemma ServeKeepsClosing(id: nat, c: Client)
    ensures IsFor(Serve(id, c).1, id) || Serve(id, c).1.None?
    ensures Serve(id, c).0.Some? ==> !Serve(id, c).0.value.scheduled
  {
  }

  lemma AcceptanceStaysTracked(l: Ledger, id: nat, value: Json)
    requires Tracked(l, id) && DoMessage(l.s, id, value).1.Ok?
    ensures Tracked(Track(l, id, OpMessage(id, value)), id)
  {
    StepKeepsValid(l.s, OpMessage(id, value));
    var session := l.current.value;
    var session' := Track(l, id, OpMessage(id, value)).current.value;
    forall n, ended | 0 <= n <= |session.accepted|
      ensures Transcript(id, session', n, ended) == Transcript(id, session, n, ended)
    {
      assert session'.accepted[..n] == session.accepted[..n];
    }
  }

  /** Receives that serve nobody, or another client, leave the session alone. */
  lemma OtherReceiveStaysTracked(l: Ledger, id: nat)
    requires Tracked(l, id) && (l.s.closed || l.s.ready == [] || l.s.ready[0] != id)
    ensures Tracked(Track(l, id, OpReceive), id)
  {
    hide WellOrdered, Ended, InStep;
    StepKeepsValid(l.s, OpReceive);
    ReceiveKeepsValid(l.s);
  }

  lemma ConnectStaysTracked(l: Ledger, id: nat, output: Output)
    requires Tracked(l, id)
    ensures Tracked(Track(l, id, OpConnect(id, output)), id)
  {
    hide Transcript, Messages, State.Valid;
    StepKeepsValid(l.s, OpConnect(id, output));
    assert InStep(id, Client(Some(output), [], false, true), Session(output, [], [], false));
  }

  lemma DisconnectStaysTracked(l: Ledger, id: nat)
    requires Tracked(l, id)
    ensures Tracked(Track(l, id, OpDisconnect(id)), id)
  {
    hide Messages, State.Valid;
    StepKeepsValid(l.s, OpDisconnect(id));
    if l.current.Some? { ClosingKeepsTranscripts(id, l.current.value); }
    hide Transcript;
    if id in l.s.clients {
      assert InStep(id, l.s.clients[id].(messages := [], disconnect := true, scheduled := true),
                    l.current.value.(closing := true));
    }
  }

  lemma ClosingKeepsTranscripts(id: nat, session: Session)
    ensures var session' := session.(closing := true);
      forall n, ended :: 0 <= n <= |session.accepted| ==>
        Transcript(id, session', n, ended) == Transcript(id, session, n, ended)
  {
  }

  /** Shutting down, failing, or dealing with another client leaves the session alone. */
  lemma OtherStepStaysTracked(l: Ledger, id: nat, op: Op)
    requires Tracked(l, id) && !op.OpReceive?
    requires op.OpConnect? || op.OpDisconnect? ==> op.id != id
    requires op.OpMessage? && op.id == id ==> !DoMessage(l.s, id, op.value).1.Ok?
    ensures Tracked(Track(l, id, op), id)
  {
    hide InStep, WellOrdered, Ended, State.Valid;
    StepKeepsValid(l.s, op);
    ClosedIsEmpty(l.s);
  }

  lemma ClosedIsEmpty(s: State)
    requires s.Valid()
    ensures s.closed ==> s.clients == map[]
  {
  }

  lemma StepStaysTracked(l: Ledger, id: nat, op: Op)
    requires Tracked(l, id)
    ensures Tracked(Track(l, id, op), id)
  {
    hide Follows, Track, DoMessage;
    if op.OpReceive? && !l.s.closed && l.s.ready != [] && l.s.ready[0] == id {
      StepKeepsValid(l.s, op);
      ReceiveKeepsValid(l.s);
      ReadyFacts(l.s);
      TrackIsStep(l, id, op);
      DeliveryStaysTracked(l, id);
    } else if op.OpMessage? && op.id == id && DoMessage(l.s, id, op.value).1.Ok? {
      AcceptanceStaysTracked(l, id, op.value);
    } else if op.OpReceive? {
      OtherReceiveStaysTracked(l, id);
    } else if op.OpConnect? && op.id == id {
      ConnectStaysTracked(l, id, op.output);
    } else if op.OpDisconnect? && op.id == id {
      DisconnectStaysTracked(l, id);
    } else {
      OtherStepStaysTracked(l, id, op);
    }
  }

  lemma TrackIsStep(l: Ledger, id: nat, op: Op)
    ensures Track(l, id, op).s == Step(l.s, op).0
  {
  }

  /** Over every run, every session of every client is a well-ordered transcript. */
  lemma {:induction false} SessionsAreOrdered(l: Ledger, id: nat, ops: seq<Op>)
    requires Tracked(l, id)
    ensures Tracked(TrackAll(l, id, ops), id)
    decreases |ops|
  {
    if ops != [] {
      StepStaysTracked(l, id, ops[0]);
      SessionsAreOrdered(Track(l, id, ops[0]), id, ops[1..]);
    }
  }

  lemma AllSessionsAreOrdered(capacity: nat, id: nat, ops: seq<Op>)
    requires capacity > 0
    ensures var l := TrackAll(Ledger(State(map[], [], capacity, false), None, []), id, ops);
      && l.s.Valid()
      && (forall i :: 0 <= i < |l.past| ==> WellOrdered(id, l.past[i]) && Ended(id, l.past[i]))
      && (l.current.Some? ==> WellOrdered(id, l.current.value))
  {
    SessionsAreOrdered(Ledger(State(map[], [], capacity, false), None, []), id, ops);
  }

  // ---------------------------------------------------- what is accepted, and delivered

  function MessagesIn(delivered: seq<Command>): nat {
    if delivered == [] then 0
    else MessagesIn(delivered[..|delivered| - 1]) + if delivered[|delivered| - 1].Message? then 1 else 0
  }

  /** How many accepted messages of the session have not been delivered yet. */
  function Undelivered(session: Session): int { |session.accepted| - MessagesIn(session.delivered) }

  lemma MessagesOfMore(a: seq<Command>, c: Command)
    ensures MessagesIn(a + [c]) == MessagesIn(a) + if c.Message? then 1 else 0
  {
    assert (a + [c])[..|a|] == a;
  }

  lemma {:induction false} TranscriptMessages(id: nat, session: Session, n: nat)
    requires n <= |session.accepted|
    ensures MessagesIn(Transcript(id, session, n, false)) == n
    ensures Transcript(id, session, n, false)[|Transcript(id, session, n, false)| - 1] != Disconnect(id)
    decreases n
  {
    if n == 0 {
      assert Transcript(id, session, 0, false) == [] + [Connect(id, session.output)];
      MessagesOfMore([], Connect(id, session.output));
    } else {
      TranscriptMessages(id, session, n - 1);
      assert session.accepted[..n][..n - 1] == session.accepted[..n - 1];
      assert Transcript(id, session, n, false)
          == Transcript(id, session, n - 1, false) + [Message(id, session.accepted[n - 1])];
      MessagesOfMore(Transcript(id, session, n - 1, false), Message(id, session.accepted[n - 1]));
    }
  }

  /** The queue holds what was accepted and not delivered, as long as nobody asked for the session's end. */
  lemma QueueIsUndelivered(id: nat, c: Client, session: Session)
    requires InStep(id, c, session)
    ensures !Ended(id, session)
    ensures !session.closing ==> |c.messages| == Undelivered(session)
  {
    if c.output.None? {
      var n :| 0 <= n <= |session.accepted| && session.delivered == Transcript(id, session, n, false)
               && (!c.disconnect ==> session.accepted[n..] == c.messages);
      hide Transcript, MessagesIn;
      TranscriptMessages(id, session, n);
    }
  }

  lemma {:induction false} ClosedIffShutDown(l: Ledger, id: nat, ops: seq<Op>)
    ensures TrackAll(l, id, ops).s.closed <==> l.s.closed || exists i :: 0 <= i < |ops| && ops[i].OpShutdown?
    decreases |ops|
  {
    if ops != [] {
      var rest := ops[1..];
      ClosedIffShutDown(Track(l, id, ops[0]), id, rest);
      OnlyShutdownCloses(l.s, ops[0]);
      TrackIsStep(l, id, ops[0]);
      if i :| 0 <= i < |rest| && rest[i].OpShutdown? { assert ops[i + 1].OpShutdown?; }
      if i :| 0 <= i < |ops| && ops[i].OpShutdown? && i > 0 { assert rest[i - 1].OpShutdown?; }
    }
  }

  lemma OnlyShutdownCloses(s: State, op: Op)
    ensures Step(s, op).0.closed <==> s.closed || op.OpShutdown?
    ensures Step(s, op).0.capacity == s.capacity
  {
  }

  lemma {:induction false} CapacityStays(l: Ledger, id: nat, ops: seq<Op>)
    ensures TrackAll(l, id, ops).s.capacity == l.s.capacity
    decreases |ops|
  {
    if ops != [] {
      OnlyShutdownCloses(l.s, ops[0]);
      TrackIsStep(l, id, ops[0]);
      CapacityStays(Track(l, id, ops[0]), id, ops[1..]);
    }
  }

  /** The client's session has begun and was not told of its end. */
  predicate Lasts(id: nat, current: Option<Session>) {
    current.Some? && !Ended(id, current.value)
  }

  /**
   After any run, what is answered to a further message of the client follows from what happened in
   it: it is accepted exactly if no shutdown came, its session lasts, nobody asked for its end, and
   fewer than `capacity` of the messages accepted for it are undelivered.
   */
  lemma AcceptedIff(capacity: nat, id: nat, ops: seq<Op>, value: Json)
    requires capacity > 0
    ensures var l := TrackAll(Ledger(State(map[], [], capacity, false), None, []), id, ops);
      var down := exists i :: 0 <= i < |ops| && ops[i].OpShutdown?;
      var outcome := DoMessage(l.s, id, value).1;
      && (outcome.ReceiverClosed? <==> down)
      && (outcome.NotRegistered? <==> !down && !Lasts(id, l.current))
      && (outcome.Closing? <==> !down && Lasts(id, l.current) && l.current.value.closing)
      && (outcome.QueueFull? <==>
            !down && Lasts(id, l.current) && !l.current.value.closing && Undelivered(l.current.value) >= capacity)
      && (outcome.Ok? <==>
            !down && Lasts(id, l.current) && !l.current.value.closing && Undelivered(l.current.value) < capacity)
  {
    var l0 := Ledger(State(map[], [], capacity, false), None, []);
    SessionsAreOrdered(l0, id, ops);
    ClosedIffShutDown(l0, id, ops);
    CapacityStays(l0, id, ops);
    var l := TrackAll(l0, id, ops);
    hide TrackAll, State.Valid, WellOrdered, InStep, Undelivered;
    if id in l.s.clients { QueueIsUndelivered(id, l.s.clients[id], l.current.value); }
    ClosedIsEmpty(l.s);
  }

  /** A connection is accepted exactly if no shutdown came and the id's last session, if any, was told of its end. */
  lemma ConnectedIff(capacity: nat, id: nat, ops: seq<Op>, output: Output)
    requires capacity > 0
    ensures var l := TrackAll(Ledger(State(map[], [], capacity, false), None, []), id, ops);
      var down := exists i :: 0 <= i < |ops| && ops[i].OpShutdown?;
      var outcome := DoConnect(l.s, id, output).1;
      && (outcome.ReceiverClosed? <==> down)
      && (outcome.DuplicateConnection? <==> !down && Lasts(id, l.current))
      && (outcome.Ok? <==> !down && !Lasts(id, l.current))
  {
    var l0 := Ledger(State(map[], [], capacity, false), None, []);
    SessionsAreOrdered(l0, id, ops);
    ClosedIffShutDown(l0, id, ops);
    var l := TrackAll(l0, id, ops);
    hide TrackAll, State.Valid, WellOrdered, InStep;
    if id in l.s.clients { QueueIsUndelivered(id, l.s.clients[id], l.current.value); }
  }

  /**
   Once nothing is queued any more, a session was told everything: that it began, all its
   messages, in order, and its end exactly if somebody asked for it. Only a session asked to end
   may have lost messages.
   */
  lemma DrainedMeansDelivered(capacity: nat, id: nat, ops: seq<Op>)
    requires capacity > 0
    ensures var l := TrackAll(Ledger(State(map[], [], capacity, false), None, []), id, ops);
      l.current.Some? && DoReceive(l.s).1.None? ==>
        var session := l.current.value;
        && (session.closing <==> Ended(id, session))
        && (!session.closing ==> session.delivered == Transcript(id, session, |session.accepted|, false))
  {
    var l0 := Ledger(State(map[], [], capacity, false), None, []);
    SessionsAreOrdered(l0, id, ops);
    var l := TrackAll(l0, id, ops);
    hide TrackAll;
    ReceiveKeepsValid(l.s);
    if l.current.Some? && DoReceive(l.s).1.None? {
      assert l.s.ready == [] && !l.s.closed;
      if id in l.s.clients {
        var c, session := l.s.clients[id], l.current.value;
        assert l.s.Settled(c) && !c.HasWork();
        QueueIsUndelivered(id, c, session);
        var n :| 0 <= n <= |session.accepted| && session.delivered == Transcript(id, session, n, false)
                 && session.accepted[n..] == c.messages;
        assert n == |session.accepted|;
      }
    }
  }
}

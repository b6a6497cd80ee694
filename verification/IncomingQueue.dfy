/** The scheduler as the source keeps it: shared mutable state under one lock (src/incoming.rs). */
module IncomingQueue {
  import opened Basics
  import opened Incoming

  class Queue {
    var clients: map<nat, Client>
    var ready: seq<nat>
    const capacity: nat
    var closed: bool

    ghost function View(): State
      reads this
    {
      State(clients, ready, capacity, closed)
    }

    ghost predicate Valid()
      reads this
    {
      View().Valid()
    }

    constructor (capacity: nat)
      requires capacity > 0
      ensures Valid() && View() == State(map[], [], capacity, false)
    {
      clients, ready := map[], [];
      this.capacity := capacity;
      closed := false;
    }

    /** Queues a stored client unless it is queued already; its unwrap needs the client present. */
    method ScheduleClient(id: nat)
      requires id in clients
      modifies this`clients, this`ready
      ensures View() == Schedule(old(View()), id, old(clients[id]))
    {
      var client := clients[id];
      if !client.scheduled {
        clients := clients[id := client.(scheduled := true)];
        ready := ready + [id];
      } else {
        assert clients == clients[id := client.(scheduled := true)];
      }
    }

    method ConnectClient(id: nat, output: Output) returns (outcome: Outcome)
      requires Valid()
      modifies this
      ensures Valid()
      ensures (View(), outcome) == DoConnect(old(View()), id, output)
    {
      StepKeepsValid(View(), OpConnect(id, output));
      if closed { return ReceiverClosed; }
      if id in clients { return DuplicateConnection; }
      clients := clients[id := Client(Some(output), [], false, false)];
      ScheduleClient(id);
      assert clients == old(clients)[id := Client(Some(output), [], false, true)];
      return Ok;
    }

    method MessageClient(id: nat, value: Json) returns (outcome: Outcome)
      requires Valid()
      modifies this
      ensures Valid()
      ensures (View(), outcome) == DoMessage(old(View()), id, value)
    {
      StepKeepsValid(View(), OpMessage(id, value));
      if closed { return ReceiverClosed; }
      if id !in clients { return NotRegistered; }
      var client := clients[id];
      if client.disconnect { return Closing; }
      if |client.messages| >= capacity { return QueueFull; }
      client := client.(messages := client.messages + [value]);
      clients := clients[id := client];
      ScheduleClient(id);
      assert clients == old(clients)[id := client.(scheduled := true)];
      return Ok;
    }

    method DisconnectClient(id: nat)
      requires Valid()
      modifies this
      ensures Valid()
      ensures View() == DoDisconnect(old(View()), id)
    {
      StepKeepsValid(View(), OpDisconnect(id));
      if id in clients {
        var client := clients[id].(messages := [], disconnect := true);
        clients := clients[id := client];
        ScheduleClient(id);
        assert clients == old(clients)[id := client.(scheduled := true)];
      }
    }

    method Close()
      requires Valid()
      modifies this
      ensures Valid() && View() == DoShutdown(old(View()))
    {
      closed := true;
      clients, ready := map[], [];
    }

    method HasPending() returns (pending: bool)
      requires Valid()
      ensures pending == DoReceive(View()).1.Some?
    {
      ReceiveKeepsValid(View());
      pending := closed || |ready| > 0;
    }

    /** Both unwraps of the source are the lookups below, safe because the state is valid. */
    method TryReceive() returns (command: Option<Command>)
      requires Valid()
      modifies this
      ensures Valid()
      ensures (View(), command) == DoReceive(old(View()))
    {
      ReceiveKeepsValid(View());
      if closed { return Some(Shutdown); }
      if |ready| == 0 { return None; }
      var id := ready[0];
      assert id in ready;
      ready := ready[1..];
      var client := clients[id].(scheduled := false);
      if client.disconnect {
        clients := clients - {id};
        return Some(Disconnect(id));
      }
      if client.output.Some? {
        command := Some(Connect(id, client.output.value));
        client := client.(output := None);
      } else {
        command := Some(Message(id, client.messages[0]));
        client := client.(messages := client.messages[1..]);
      }
      clients := clients[id := client];
      if client.messages != [] {
        ScheduleClient(id);
        assert clients == old(clients)[id := client.(scheduled := true)];
      }
    }
  }
}

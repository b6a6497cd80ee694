/**
 The ROS backend contract (src/backend.rs:189-206, src/ros/mod.rs:280-335): calls may fail,
 identifiers are never reused, and destroying an entity drops its native requests.
 */
module Backend {
  import opened Basics

  type Entity = nat

  /** What a message to ROS says, where the bridge makes it up itself; what clients hand over is passed on. */
  datatype Content =
    | Passed
    | AboutGoal(goal: nat)
    | GoalAnswer(accepted: bool, stamp: (int, nat))
    | ResultAnswer(status: int, values: string)
    | CancelAnswer(code: nat, goals: seq<(nat, (int, nat))>)
    | StatusList(statuses: map<(string, nat), (int, (int, nat))>)

  /** What the backend did towards ROS, when the call succeeded. */
  datatype Act =
    | Published(topic: Entity, content: Content)
    | Requested(client: Entity, sequence: nat, content: Content)
    | Responded(service: Entity, request: nat, content: Content)

  /**
   `fate` decides the outcome of each fallible call, in the order the calls are made;
   statements for every `fate` cover every behaviour of the backend. `did` is what it did so far.
   */
  datatype Ros = Ros(
    live: set<Entity>,
    requests: set<(Entity, nat)>,
    nextEntity: nat,
    nextRequest: nat,
    nextSequence: nat,
    calls: nat,
    did: seq<Act>,
    fate: nat -> bool)
  {
    ghost predicate Valid() {
      && (forall e :: e in live ==> e < nextEntity)
      && (forall r :: r in requests ==> r.0 in live && r.1 < nextRequest)
    }

    predicate Succeeds() { fate(calls) }

    /** The next `n` calls succeed. */
    predicate AllSucceed(n: nat) {
      forall k :: calls <= k < calls + n ==> fate(k)
    }

    function Create(): (r: (Ros, Option<Entity>)) {
      if Succeeds()
      then (this.(live := live + {nextEntity}, nextEntity := nextEntity + 1, calls := calls + 1), Some(nextEntity))
      else (this.(calls := calls + 1), None)
    }

    function Request(e: Entity, content: Content := Passed): (Ros, Option<nat>) {
      if e in live && Succeeds()
      then (this.(nextSequence := nextSequence + 1, calls := calls + 1,
            did := did + [Requested(e, nextSequence, content)]), Some(nextSequence))
      else (this.(calls := calls + 1), None)
    }

    function Publish(e: Entity, content: Content := Passed): (Ros, bool) {
      if e in live && Succeeds() then (this.(calls := calls + 1, did := did + [Published(e, content)]), true)
      else (this.(calls := calls + 1), false)
    }

    /** A response consumes its request only when it is sent. */
    function Respond(e: Entity, request: nat, content: Content := Passed): (Ros, bool) {
      if e in live && (e, request) in requests && Succeeds()
      then (this.(requests := requests - {(e, request)}, calls := calls + 1,
            did := did + [Responded(e, request, content)]), true)
      else (this.(calls := calls + 1), false)
    }

    /** A fallible call without an effect on entities or requests. */
    function Query(): (Ros, bool) {
      (this.(calls := calls + 1), Succeeds())
    }

    function Discard(e: Entity, request: nat): Ros {
      this.(requests := requests - {(e, request)})
    }

    function DestroyAll(es: set<Entity>): Ros {
      this.(live := live - es, requests := set r | r in requests && r.0 !in es)
    }

    function Destroy(e: Entity): Ros {
      DestroyAll({e})
    }

    /** A service request taken from the middleware. */
    function Take(e: Entity): (Ros, nat) {
      (this.(requests := requests + {(e, nextRequest)}, nextRequest := nextRequest + 1), nextRequest)
    }

    /** All the service requests of one poll; the next one is numbered `next`. */
    function TakeAll(taken: set<(Entity, nat)>, next: nat): Ros {
      this.(requests := requests + taken, nextRequest := next)
    }
  }

  lemma DestroyEachIsDestroyAll(b: Ros, es: set<Entity>, e: Entity)
    ensures b.DestroyAll(es).Destroy(e) == b.DestroyAll(es + {e})
  {
    assert b.DestroyAll(es).Destroy(e).live == b.DestroyAll(es + {e}).live;
  }
}

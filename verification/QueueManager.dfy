/** One FIFO and at most one active order per robot (src/core/queue/QueueManager.js). */
module Queues {
  import opened Sequences
  import opened Domain

  datatype RobotQueue = RobotQueue(active: Option<OrderId>, items: seq<OrderId>, paused: bool)

  type QueueTable = map<RobotId, RobotQueue>

  const EmptyQueue := RobotQueue(None, [], false)

  function QueueOf(qs: QueueTable, r: RobotId): RobotQueue {
    if r in qs then qs[r] else EmptyQueue
  }

  function Ensure(qs: QueueTable, r: RobotId): QueueTable {
    if r in qs then qs else qs[r := EmptyQueue]
  }

  function Enqueue(qs: QueueTable, r: RobotId, id: OrderId): QueueTable {
    qs[r := QueueOf(qs, r).(items := QueueOf(qs, r).items + [id])]
  }

  function SetActive(qs: QueueTable, r: RobotId, active: Option<OrderId>): QueueTable {
    qs[r := QueueOf(qs, r).(active := active)]
  }

  function DropFirst(qs: QueueTable, r: RobotId): QueueTable {
    var q := QueueOf(qs, r);
    if q.paused || q.items == [] then Ensure(qs, r) else qs[r := q.(items := q.items[1..])]
  }

  function SetPaused(qs: QueueTable, r: RobotId, paused: bool): QueueTable {
    qs[r := QueueOf(qs, r).(paused := paused)]
  }

  function Remove(qs: QueueTable, r: RobotId, id: OrderId): QueueTable {
    var q := QueueOf(qs, r);
    qs[r := q.(items := Without(q.items, id), active := if q.active == Some(id) then None else q.active)]
  }

  class QueueManager {
    var byRobot: QueueTable

    constructor ()
      ensures byRobot == map[]
    {
      byRobot := map[];
    }

    method Clear()
      modifies this
      ensures byRobot == map[]
    {
      byRobot := map[];
    }

    method EnsureRobot(robotId: RobotId) returns (state: RobotQueue)
      modifies this
      ensures byRobot == Ensure(old(byRobot), robotId)
      ensures state == QueueOf(old(byRobot), robotId) == byRobot[robotId]
    {
      if robotId !in byRobot { byRobot := byRobot[robotId := EmptyQueue]; }
      state := byRobot[robotId];
    }

    /** `items.push(order.id)` */
    method Push(robotId: RobotId, id: OrderId)
      modifies this
      ensures byRobot == Enqueue(old(byRobot), robotId, id)
    {
      var state := EnsureRobot(robotId);
      byRobot := byRobot[robotId := state.(items := state.items + [id])];
    }

    method Activate(robotId: RobotId, id: OrderId)
      modifies this
      ensures byRobot == SetActive(old(byRobot), robotId, Some(id))
    {
      var state := EnsureRobot(robotId);
      byRobot := byRobot[robotId := state.(active := Some(id))];
    }

    method ClearActive(robotId: RobotId)
      modifies this
      ensures byRobot == SetActive(old(byRobot), robotId, None)
    {
      var state := EnsureRobot(robotId);
      byRobot := byRobot[robotId := state.(active := None)];
    }

    /** `items.shift()`, or null when the queue is paused or empty. */
    method DequeueNext(robotId: RobotId) returns (next: Option<OrderId>)
      modifies this
      ensures byRobot == DropFirst(old(byRobot), robotId)
      ensures next.Some? <==> !QueueOf(old(byRobot), robotId).paused && QueueOf(old(byRobot), robotId).items != []
      ensures next.Some? ==> QueueOf(old(byRobot), robotId).items == [next.value] + byRobot[robotId].items
    {
      var state := EnsureRobot(robotId);
      if state.paused || state.items == [] { return None; }
      next := Some(state.items[0]);
      byRobot := byRobot[robotId := state.(items := state.items[1..])];
    }

    method SetQueuePaused(robotId: RobotId, paused: bool)
      modifies this
      ensures byRobot == SetPaused(old(byRobot), robotId, paused)
    {
      var state := EnsureRobot(robotId);
      byRobot := byRobot[robotId := state.(paused := paused)];
    }

    method RemoveOrder(robotId: RobotId, id: OrderId)
      modifies this
      ensures byRobot == Remove(old(byRobot), robotId, id)
    {
      var state := EnsureRobot(robotId);
      byRobot := byRobot[robotId := state.(items := Without(state.items, id))];
      if state.active == Some(id) {
        byRobot := byRobot[robotId := byRobot[robotId].(active := None)];
      }
    }
  }

  /** After a removal the id is neither queued nor active there, and every other id keeps its place in line. */
  lemma RemoveForgetsOnlyThat(qs: QueueTable, r: RobotId, id: OrderId, other: OrderId)
    ensures id !in QueueOf(Remove(qs, r, id), r).items && QueueOf(Remove(qs, r, id), r).active != Some(id)
    ensures other != id ==>
              && (other in QueueOf(Remove(qs, r, id), r).items <==> other in QueueOf(qs, r).items)
              && (QueueOf(Remove(qs, r, id), r).active == Some(other) <==> QueueOf(qs, r).active == Some(other))
  {
    WithoutMembers(QueueOf(qs, r).items, id);
  }
}

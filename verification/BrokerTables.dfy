/** The objects the broker updates in place: the context of a request type, and a worker's record. */
module BrokerTables {
  import opened Wrappers
  import opened Cluster
  import opened RequestContexts
  import opened Scheduler
  import opened Agreement

  /** A request type's pending list, request table and set of available workers. */
  class BrokerRequestTypeContext {
    var totalWorkers: int
    var availableWorkers: set<Identity>
    var pendingClientRequests: seq<Node>
    var requests: map<RequestId, RequestState>
    var nextTag: nat

    function View(): Context
      reads this
    {
      Context(totalWorkers, availableWorkers, pendingClientRequests, requests, nextTag)
    }

    constructor ()
      ensures View() == NewContext() && ListAgrees(View())
    {
      totalWorkers := 0;
      availableWorkers := {};
      pendingClientRequests := [];
      requests := map[];
      nextTag := 0;
    }

    method AddInProgressRequest(id: RequestId, vfs: VersionFlags, worker: Identity)
      modifies this
      ensures View() == old(View()).AddInProgressRequest(id, vfs, worker)
      ensures old(ListAgrees(View())) ==> ListAgrees(View())
    {
      if id !in requests {
        if ListAgrees(View()) {
          PutAssigned(View(), id, RequestState(vfs, None, 1, Assigned(worker)));
        }
        requests := requests[id := RequestState(vfs, None, 1, Assigned(worker))];
      }
    }

    /** Erasing a record the list still refers to is what the list does not survive. */
    method RemoveInProgressRequest(id: RequestId)
      modifies this
      ensures View() == old(View()).RemoveInProgressRequest(id)
      ensures old(ListAgrees(View())) ==>
                (ListAgrees(View()) <==> !old(id in requests && requests[id].place.Queued?))
    {
      if ListAgrees(View()) {
        RemoveKeepsIff(View(), id);
      }
      requests := requests - {id};
    }

    method AddPendingRequest(id: RequestId, vfs: VersionFlags, msg: Option<Message>)
      modifies this
      ensures View() == old(View()).AddPendingRequest(id, vfs, msg)
      ensures old(ListAgrees(View()) && (id in requests ==> requests[id].place.Assigned?)) ==>
                ListAgrees(View())
    {
      if ListAgrees(View()) && (id in requests ==> requests[id].place.Assigned?) {
        AppendKeeps(View(), id, if id in requests then requests[id] else RequestState(vfs, msg, 0, Queued(nextTag)));
      }
      if id !in requests {
        requests := requests[id := RequestState(vfs, msg, 0, Queued(nextTag))];
      }
      Enqueue(id);
    }

    method BackToPending(id: RequestId)
      requires id in requests
      modifies this
      ensures View() == old(View()).BackToPending(id)
      ensures old(ListAgrees(View()) && requests[id].place.Assigned?) ==> ListAgrees(View())
    {
      if ListAgrees(View()) && requests[id].place.Assigned? {
        AppendKeeps(View(), id, requests[id]);
      }
      Enqueue(id);
    }

    /** Links a node at the end of the list and points the request's cursor at it. */
    method Enqueue(id: RequestId)
      requires id in requests
      modifies this
      ensures View() == old(View()).Append(id, old(requests)[id])
    {
      pendingClientRequests := pendingClientRequests + [Node(nextTag, id)];
      requests := requests[id := requests[id].SetQueueCursor(nextTag)];
      nextTag := nextTag + 1;
    }

    method AssignWorkerFromPending(id: RequestId, worker: Identity)
      requires id in requests && requests[id].place.Queued?
      modifies this
      ensures View() == old(View()).AssignWorkerFromPending(id, worker)
      ensures old(ListAgrees(View()) && pendingClientRequests != [] && pendingClientRequests[0].id == id) ==>
                ListAgrees(View()) && pendingClientRequests == old(pendingClientRequests)[1..]
    {
      if ListAgrees(View()) && pendingClientRequests != [] && pendingClientRequests[0].id == id {
        EraseFirst(View(), requests[id].Assign(worker));
      }
      pendingClientRequests := EraseNode(pendingClientRequests, requests[id].place.cursor);
      requests := requests[id := requests[id].Assign(worker)];
    }

    /** A request's message and flags are replaced where it is. */
    method UpdateRequest(id: RequestId, msg: Option<Message>, vfs: VersionFlags)
      requires id in requests
      modifies this
      ensures View() == old(View()).Put(id, old(requests)[id].(msg := msg, vfs := vfs))
      ensures old(ListAgrees(View())) ==> ListAgrees(View())
    {
      if ListAgrees(View()) {
        PutSamePlace(View(), id, requests[id].(msg := msg, vfs := vfs));
      }
      requests := requests[id := requests[id].(msg := msg, vfs := vfs)];
    }

    method AddAvailableWorker(worker: Identity)
      modifies this
      ensures View() == old(View()).AddAvailableWorker(worker)
    {
      availableWorkers := availableWorkers + {worker};
    }

    method RemoveAvailableWorker(worker: Identity)
      modifies this
      ensures View() == old(View()).RemoveAvailableWorker(worker)
    {
      availableWorkers := availableWorkers - {worker};
    }

    method IncrementNumWorkers()
      modifies this
      ensures View() == old(View()).IncrementNumWorkers()
    {
      totalWorkers := totalWorkers + 1;
    }

    method DecrementNumWorkers()
      modifies this
      ensures View() == old(View()).DecrementNumWorkers()
    {
      totalWorkers := totalWorkers - 1;
    }
  }

  /** What the broker keeps about one registered worker; the ghost fields are history. */
  class WorkerInfo {
    var freeCapacity: int
    const supportedRequestTypes: seq<RequestType>
    var inProgressRequests: set<Key>
    var brokerLastActive: int
    var workerLastActive: int
    var heartbeatSendDelay: int
    ghost const advertised: int
    ghost var strays: nat

    ghost function View(): Info
      reads this
    {
      Info(freeCapacity, supportedRequestTypes, inProgressRequests, brokerLastActive, workerLastActive,
           heartbeatSendDelay, advertised, strays)
    }

    constructor (receivedAt: int, capacity: int, types: seq<RequestType>, delay: int)
      ensures View() == Info(capacity, types, {}, receivedAt, receivedAt, delay, capacity, 0)
    {
      freeCapacity := capacity;
      supportedRequestTypes := types;
      inProgressRequests := {};
      brokerLastActive := receivedAt;
      workerLastActive := receivedAt;
      heartbeatSendDelay := delay;
      advertised := capacity;
      strays := 0;
    }

    method AddInProgressRequest(k: Key)
      modifies this
      ensures View() == old(View()).AddInProgressRequest(k)
      ensures old(InfoAgrees(View()) && k !in inProgressRequests && k.kind in supportedRequestTypes) ==>
                InfoAgrees(View())
    {
      if InfoAgrees(View()) && k !in inProgressRequests && k.kind in supportedRequestTypes {
        HoldingOneMore(View(), k);
      }
      inProgressRequests := inProgressRequests + {k};
      freeCapacity := freeCapacity - 1;
    }

    method RemoveInProgressRequest(k: Key)
      modifies this
      ensures View() == old(View()).RemoveInProgressRequest(k)
      ensures old(InfoAgrees(View())) ==> InfoAgrees(View())
    {
      strays := if k in inProgressRequests then strays else strays + 1;
      inProgressRequests := inProgressRequests - {k};
      freeCapacity := freeCapacity + 1;
    }

    method UpdateBrokerLastActive(now: int)
      modifies this
      ensures View() == old(View()).(brokerLastActive := now)
    {
      brokerLastActive := now;
    }

    method UpdateWorkerLastActive(now: int)
      modifies this
      ensures View() == old(View()).(workerLastActive := now)
    {
      workerLastActive := now;
    }

    method UpdateWithHeartbeat(now: int, delay: int)
      modifies this
      ensures View() == old(View()).(workerLastActive := now, heartbeatSendDelay := delay)
    {
      workerLastActive := now;
      heartbeatSendDelay := delay;
    }

    /** Whether something was heard of the worker less than `deathDelay` seconds ago. */
    predicate IsAliveAsOf(asOf: int, deathDelay: int)
      reads this
      ensures IsAliveAsOf(asOf, deathDelay) == View().IsAliveAsOf(asOf, deathDelay)
    {
      workerLastActive + deathDelay > asOf
    }
  }
}

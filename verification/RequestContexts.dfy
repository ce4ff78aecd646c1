/** What the broker stores about one request and about one request type. */
module RequestContexts {
  import opened Wrappers
  import opened Cluster

  /** The flag and the cursor/worker union of a request state, which always change together. */
  datatype Place = Queued(cursor: nat) | Assigned(worker: Identity)

  datatype RequestState = RequestState(
    vfs: VersionFlags,
    msg: Option<Message>,
    tryCount: nat,
    place: Place)
  {
    function Assign(worker: Identity): RequestState {
      this.(place := Assigned(worker), tryCount := tryCount + 1)
    }

    function SetQueueCursor(cursor: nat): RequestState {
      this.(place := Queued(cursor))
    }
  }

  /** A node of the pending list. The tag stands for the node's address, which a cursor holds. */
  datatype Node = Node(tag: nat, id: RequestId)

  /** Erasing the node a cursor points at. */
  function EraseNode(list: seq<Node>, tag: nat): seq<Node> {
    if list == [] then []
    else if list[0].tag == tag then list[1..]
    else [list[0]] + EraseNode(list[1..], tag)
  }

  function Ids(list: seq<Node>): seq<RequestId> {
    seq(|list|, i requires 0 <= i < |list| => list[i].id)
  }

  /** The value of a request type context. */
  datatype Context = Context(
    totalWorkers: int,
    available: set<Identity>,
    pending: seq<Node>,
    requests: map<RequestId, RequestState>,
    nextTag: nat)
  {
    function Put(id: RequestId, request: RequestState): Context {
      this.(requests := requests[id := request])
    }

    /** Appends a node for `id` and points the request's cursor at it. */
    function Append(id: RequestId, request: RequestState): Context {
      this.(pending := pending + [Node(nextTag, id)],
            requests := requests[id := request.SetQueueCursor(nextTag)],
            nextTag := nextTag + 1)
    }

    function AddInProgressRequest(id: RequestId, vfs: VersionFlags, worker: Identity): Context {
      if id in requests then this else Put(id, RequestState(vfs, None, 1, Assigned(worker)))
    }

    function RemoveInProgressRequest(id: RequestId): Context {
      this.(requests := requests - {id})
    }

    function AddPendingRequest(id: RequestId, vfs: VersionFlags, msg: Option<Message>): Context {
      Append(id, if id in requests then requests[id] else RequestState(vfs, msg, 0, Queued(nextTag)))
    }

    function BackToPending(id: RequestId): Context
      requires id in requests
    {
      Append(id, requests[id])
    }

    function AssignWorkerFromPending(id: RequestId, worker: Identity): Context
      requires id in requests && requests[id].place.Queued?
    {
      Put(id, requests[id].Assign(worker)).(pending := EraseNode(pending, requests[id].place.cursor))
    }

    function IncrementNumWorkers(): Context {
      this.(totalWorkers := totalWorkers + 1)
    }

    function DecrementNumWorkers(): Context {
      this.(totalWorkers := totalWorkers - 1)
    }

    function AddAvailableWorker(worker: Identity): Context {
      this.(available := available + {worker})
    }

    function RemoveAvailableWorker(worker: Identity): Context {
      this.(available := available - {worker})
    }
  }

  function NewContext(): Context {
    Context(0, {}, [], map[], 0)
  }

  /** The list and the request table agree: every node is the node its request's cursor points at,
      every queued request's cursor points at a node of the list, and tags grow along the list, so
      a queued request is in the list exactly once. */
  ghost predicate ListAgrees(c: Context) {
    && (forall i, j :: 0 <= i < j < |c.pending| ==> c.pending[i].tag < c.pending[j].tag)
    && (forall i :: 0 <= i < |c.pending| ==>
          c.pending[i].tag < c.nextTag && c.pending[i].id in c.requests
          && c.requests[c.pending[i].id].place == Queued(c.pending[i].tag))
    && (forall id :: id in c.requests && c.requests[id].place.Queued? ==>
          Node(c.requests[id].place.cursor, id) in c.pending)
  }
}

/** Handing a request to a worker keeps the tables in agreement. */
module Forwarding {
  import opened Wrappers
  import opened Cluster
  import opened RequestContexts
  import opened Scheduler
  import opened AbstractScheduler
  import opened Agreement

  function Stored(r: RequestState, vfs: VersionFlags, msg: Message): RequestState {
    match CopyRequestForFlags(vfs, msg)
    case None => r
    case Some(copy) => StoreCopy(r, vfs, copy)
  }

  function ReceiptFor(k: Key, vfs: VersionFlags, msg: Message): seq<Action> {
    if vfs.Has(ReceiptOnSend) then [Receipt(k, Envelope(msg))] else []
  }

  function AddReceipt(job: Job, vfs: VersionFlags): Job {
    if vfs.Has(ReceiptOnSend) then job.(receipts := job.receipts + 1) else job
  }

  lemma CopyIfReceipt(vfs: VersionFlags, msg: Message)
    ensures vfs.Has(ReceiptOnSend) ==> CopyRequestForFlags(vfs, msg).Some?
    ensures CopyRequestForFlags(vfs, msg).Some? ==>
              Envelope(CopyRequestForFlags(vfs, msg).value) == Envelope(msg)
  {
    EnvelopeTwice(msg);
  }

  // ----- from a queue -----

  function SentFromQueue(r: RequestState, w: Identity): RequestState {
    Stored(r.(msg := None).Assign(w), r.vfs, r.msg.GetOr([]))
  }

  /** What a successful send of a queued request does to the state. */
  ghost predicate Dispatched(s: State, s': State, w: Identity, k: Key)
    requires s.Known(k) && s.Request(k).place.Queued? && w in s.workers
  {
    var r := s.Request(k);
    var c := s.contexts[k.kind];
    && s'.contexts == s.contexts[k.kind := c.Put(k.id, SentFromQueue(r, w))
                                            .(pending := EraseNode(c.pending, r.place.cursor))]
    && s'.workers == s.workers[w := s.workers[w].AddInProgressRequest(k).(brokerLastActive := s.now)]
    && s'.log == s.log + [Dispatch(k, w, r.msg.GetOr([]))] + ReceiptFor(k, r.vfs, r.msg.GetOr([]))
    && s'.now == s.now
  }

  lemma ForwardQueuedIs(env: Env, s: State, w: Identity, k: Key)
    requires s.Known(k) && s.Request(k).place.Queued? && w in s.workers && env.request(s.sends)
    ensures Dispatched(s, ForwardQueued(env, s, w, k).state, w, k)
  {
    var r := s.Request(k);
    var c := s.contexts[k.kind];
    var msg := r.msg.GetOr([]);
    CopyIfReceipt(r.vfs, msg);
    var c1 := c.Put(k.id, r.(msg := None)).AssignWorkerFromPending(k.id, w);
    assert c1.requests == c.requests[k.id := r.(msg := None).Assign(w)];
    assert c1.Put(k.id, SentFromQueue(r, w)) ==
      c.Put(k.id, SentFromQueue(r, w)).(pending := EraseNode(c.pending, r.place.cursor));
    assert s.contexts[k.kind := c1][k.kind := c1.Put(k.id, SentFromQueue(r, w))] ==
      s.contexts[k.kind := c1.Put(k.id, SentFromQueue(r, w))];
  }

  function DispatchedJob(job: Job, w: Identity, vfs: VersionFlags): Job {
    AddReceipt(job.(where := Running(w), dispatches := job.dispatches + 1, stale := false, named := Some(w)), vfs)
  }

  lemma DispatchJob(r: RequestState, job: Job, w: Identity)
    requires JobAgrees(r, job) && job.where.Waiting?
    ensures JobAgrees(SentFromQueue(r, w),
              DispatchedJob(job, w, r.vfs))
  {
    CopyIfReceipt(r.vfs, job.msg);
  }

  /** The head of a queue is handed to a worker that supports its type, or the send fails. */
  lemma ForwardQueuedAgrees(env: Env, s: State, w: Identity, k: Key, x: Transit)
    requires Inv(s, x) && w in s.workers && k.kind in s.workers[w].types
    requires s.Pending(k.kind) != [] && s.Pending(k.kind)[0].id == k.id
    requires x.Dying? ==> x.worker != w
    ensures Inv(ForwardQueued(env, s, w, k).state, x)
  {
    QueuedIsKnown(s, k.kind, x);
    if env.request(s.sends) {
      ForwardQueuedIs(env, s, w, k);
      var s' := ForwardQueued(env, s, w, k).state;
      DispatchedTables(s, s', w, k, x);
      DispatchedRefines(s, s', w, k, x);
    } else {
      Unaffected(s, ForwardQueued(env, s, w, k).state, x);
    }
  }

  lemma DispatchedTables(s: State, s': State, w: Identity, k: Key, x: Transit)
    requires Inv(s, x) && w in s.workers && k.kind in s.workers[w].types
    requires s.Pending(k.kind) != [] && s.Pending(k.kind)[0].id == k.id
    requires x.Dying? ==> x.worker != w
    requires s.Known(k) && s.Request(k).place.Queued? && Dispatched(s, s', w, k)
    ensures TablesAgree(s')
  {
    hide TablesAgree, Refines, SentFromQueue, ListAgrees;
    QueuedIsKnown(s, k.kind, x);
    ListOf(s, k.kind);
    SentAssigned(s.Request(k), w);
    EraseFirst(s.contexts[k.kind], SentFromQueue(s.Request(k), w));
    NotHeld(s, w, k, x);
    InfoOf(s, w);
    HoldingOneMore(s.workers[w], k);
    TablesKept(s, s', k.kind, s'.contexts[k.kind], w, s'.workers[w]);
  }

  lemma SentAssigned(r: RequestState, w: Identity)
    ensures SentFromQueue(r, w).place == Assigned(w)
  {
  }

  lemma InfoOf(s: State, w: Identity)
    requires TablesAgree(s) && w in s.workers
    ensures InfoAgrees(s.workers[w])
  {
  }

  lemma NotHeld(s: State, w: Identity, k: Key, x: Transit)
    requires Refines(s, x) && w in s.workers && (x.Dying? ==> x.worker != w)
    requires k !in Replay(s.log).value.jobs || !Replay(s.log).value.jobs[k].where.Running?
    ensures k !in s.workers[w].held
  {
    assert !Replay(s.log).value.RunningAt(k, w);
    assert k !in HeldBy(s, w, x);
  }

  /** The abstract side of handing a request over, with the send receipt it may ask for. */
  lemma HandOverReplays(log: seq<Action>, x: Action, k: Key, vfs: VersionFlags, msg: Message, a: Abs)
    requires Replay(log) == Some(a) && Legal(a, x)
    requires var job := Apply(a, x).jobs;
             k in job && !job[k].where.Waiting? && job[k].msg == msg
             && (vfs.Has(ReceiptOnSend) ==> job[k].vfs.Has(ReceiptOnSend))
    ensures var a1 := Apply(a, x);
            Replay(log + [x] + ReceiptFor(k, vfs, msg)) ==
              Some(a1.(jobs := a1.jobs[k := AddReceipt(a1.jobs[k], vfs)]))
  {
    ReplayTwo(log, [x], ReceiptFor(k, vfs, msg), a);
    var a1 := Apply(a, x);
    assert a1.jobs[k := a1.jobs[k]] == a1.jobs;
  }

  lemma DispatchedRefines(s: State, s': State, w: Identity, k: Key, x: Transit)
    requires Inv(s, x) && w in s.workers
    requires s.Pending(k.kind) != [] && s.Pending(k.kind)[0].id == k.id
    requires x.Dying? ==> x.worker != w
    requires s.Known(k) && s.Request(k).place.Queued? && Dispatched(s, s', w, k)
    ensures Refines(s', x)
  {
    QueuedIsKnown(s, k.kind, x);
    var a := Replay(s.log).value;
    EraseFirst(s.contexts[k.kind], SentFromQueue(s.Request(k), w));
    DispatchReplays(s, k, w, a, x);
    DispatchedRepresents(s, s', w, k, a, x);
  }

  function AfterDispatch(a: Abs, k: Key, w: Identity, vfs: VersionFlags): Abs
    requires k in a.jobs && a.Queue(k.kind) != []
  {
    Abs(a.jobs[k := DispatchedJob(a.jobs[k], w, vfs)], a.queues[k.kind := a.Queue(k.kind)[1..]])
  }

  /** The head of a list may be dispatched. */
  lemma HeadJob(s: State, k: Key, w: Identity, a: Abs)
    requires QueuesAgree(s, a) && JobsAgree(s, a) && k in a.jobs && a.jobs[k].where.Waiting?
    requires s.Pending(k.kind) != [] && s.Pending(k.kind)[0].id == k.id
    ensures s.Known(k) && a.Queue(k.kind) != [] && JobAgrees(s.Request(k), a.jobs[k])
    ensures s.Request(k).msg == Some(a.jobs[k].msg) && Legal(a, Dispatch(k, w, a.jobs[k].msg))
    ensures s.Request(k).vfs.Has(ReceiptOnSend) ==> a.jobs[k].vfs.Has(ReceiptOnSend)
  {
    assert a.Queue(k.kind) == Ids(s.Pending(k.kind));
    assert JobAgrees(s.Request(k), a.jobs[k]);
  }

  lemma DispatchReplays(s: State, k: Key, w: Identity, a: Abs, x: Transit)
    requires Replay(s.log) == Some(a) && QueuesAgree(s, a) && JobsAgree(s, a)
    requires k in a.jobs && a.jobs[k].where.Waiting?
    requires s.Pending(k.kind) != [] && s.Pending(k.kind)[0].id == k.id
    ensures s.Known(k) && a.Queue(k.kind) != []
    ensures s.Request(k).msg == Some(a.jobs[k].msg)
    ensures var vfs := s.Request(k).vfs;
            Replay(s.log + [Dispatch(k, w, a.jobs[k].msg)] + ReceiptFor(k, vfs, a.jobs[k].msg)) ==
              Some(AfterDispatch(a, k, w, vfs))
  {
    hide Replay, Legal, JobsAgree, QueuesAgree, JobAgrees;
    HeadJob(s, k, w, a);
    var vfs := s.Request(k).vfs;
    HandOverReplays(s.log, Dispatch(k, w, a.jobs[k].msg), k, vfs, a.jobs[k].msg, a);
    hide ReceiptFor;
    var a1 := Apply(a, Dispatch(k, w, a.jobs[k].msg));
    assert a1.jobs[k := AddReceipt(a1.jobs[k], vfs)] == a.jobs[k := AddReceipt(a1.jobs[k], vfs)];
  }

  lemma DispatchedRepresents(s: State, s': State, w: Identity, k: Key, a: Abs, x: Transit)
    requires Represents(s, a, x) && w in s.workers
    requires k in a.jobs && a.jobs[k].where.Waiting? && a.Queue(k.kind) != []
    requires x.Dying? ==> x.worker != w
    requires s.Known(k) && s.Request(k).place.Queued? && Dispatched(s, s', w, k)
    requires Ids(s'.Pending(k.kind)) == Ids(s.Pending(k.kind))[1..]
    ensures Represents(s', AfterDispatch(a, k, w, s.Request(k).vfs), x)
  {
    DispatchJob(s.Request(k), a.jobs[k], w);
    var a' := AfterDispatch(a, k, w, s.Request(k).vfs);
    HandedOverRepresents(s, s', a, a', w, k, s'.contexts[k.kind], x);
  }

  /** A request nobody held is now held by one worker. */
  lemma HandedOverRepresents(
    s: State, s': State, a: Abs, a': Abs, w: Identity, k: Key, c: Context, x: Transit)
    requires Represents(s, a, x) && w in s.workers && (x.Dying? ==> x.worker != w) && x != Ending(k)
    requires k !in a.jobs || !a.jobs[k].where.Running?
    requires s'.contexts == s.contexts[k.kind := c]
    requires k.id in c.requests
    requires forall id :: id != k.id ==> (id in c.requests <==> s.Known(Key(k.kind, id)))
    requires forall id :: id != k.id && id in c.requests ==> c.requests[id] == s.Request(Key(k.kind, id))
    requires s'.workers.Keys == s.workers.Keys && s'.workers[w].held == s.workers[w].held + {k}
    requires forall v :: v in s.workers && v != w ==> s'.workers[v] == s.workers[v]
    requires a'.jobs.Keys == a.jobs.Keys + {k}
    requires forall other :: other in a.jobs && other != k ==> a'.jobs[other] == a.jobs[other]
    requires a'.jobs[k].where == Running(w) && JobAgrees(c.requests[k.id], a'.jobs[k])
    requires forall t :: t != k.kind ==> a'.Queue(t) == a.Queue(t)
    requires a'.Queue(k.kind) == Ids(c.pending)
    ensures Represents(s', a', x)
  {
    OneContext(s, s', k, c);
    HandedOverHolders(s, s', a, a', w, k, x);
    Patch(s, s', a, a', k, x, x);
  }

  lemma HandedOverHolders(s: State, s': State, a: Abs, a': Abs, w: Identity, k: Key, x: Transit)
    requires HoldersAgree(s, a, x) && w in s.workers && (x.Dying? ==> x.worker != w)
    requires k !in a.jobs || !a.jobs[k].where.Running?
    requires s'.workers.Keys == s.workers.Keys && s'.workers[w].held == s.workers[w].held + {k}
    requires forall v :: v in s.workers && v != w ==> s'.workers[v] == s.workers[v]
    requires a'.jobs.Keys == a.jobs.Keys + {k} && a'.jobs[k].where == Running(w)
    requires forall other :: other in a.jobs && other != k ==> a'.jobs[other] == a.jobs[other]
    ensures HoldersAgree(s', a', x)
  {
    forall other, v
      ensures other in HeldBy(s', v, x) <==> a'.RunningAt(other, v)
    {
      assert other in HeldBy(s, v, x) <==> a.RunningAt(other, v);
    }
  }

  // ----- from no queue -----

  /** The record a directly sent request has before its copy is kept. */
  function DirectRecord(s: State, k: Key, vfs: VersionFlags, w: Identity): RequestState {
    if s.Known(k) then s.Request(k).(msg := None) else RequestState(vfs, None, 1, Assigned(w))
  }

  ghost predicate SentDirect(
    s: State, s': State, w: Identity, k: Key, vfs: VersionFlags, msg: Message, action: Action)
    requires k.kind in s.contexts && w in s.workers
  {
    && s'.contexts == s.contexts[k.kind := s.contexts[k.kind].Put(k.id,
                                             Stored(DirectRecord(s, k, vfs, w), vfs, msg))]
    && s'.workers == s.workers[w := s.workers[w].AddInProgressRequest(k).(workerLastActive := s.now)]
    && s'.log == s.log + [action] + ReceiptFor(k, vfs, msg)
    && s'.now == s.now
  }

  lemma ForwardDirectIs(
    env: Env, s: State, w: Identity, k: Key, vfs: VersionFlags, msg: Message, action: Action)
    requires k.kind in s.contexts && w in s.workers && env.request(s.sends)
    ensures var out := ForwardDirect(env, s, w, k, vfs, msg, action);
            SentDirect(s, out.state, w, k, vfs, msg, action)
            && (out.ok <==> !vfs.Has(ReceiptOnSend) || env.receipt(s.sends + 1))
  {
    CopyIfReceipt(vfs, msg);
    var c := s.contexts[k.kind];
    var c0 := c.AddInProgressRequest(k.id, vfs, w);
    var c1 := c0.Put(k.id, c0.requests[k.id].(msg := None));
    var r := DirectRecord(s, k, vfs, w);
    assert c1.requests == c.requests[k.id := r];
    assert c1 == c.Put(k.id, r);
    assert c1.Put(k.id, Stored(r, vfs, msg)) == c.Put(k.id, Stored(r, vfs, msg));
    assert s.contexts[k.kind := c1][k.kind := c1.Put(k.id, Stored(r, vfs, msg))] ==
      s.contexts[k.kind := c1.Put(k.id, Stored(r, vfs, msg))];
  }

  function StartedJob(vfs: VersionFlags, msg: Message, w: Identity): Job {
    AddReceipt(Job(Running(w), vfs, msg, 1, 0, 0, false, false, Some(w)), vfs)
  }

  lemma StartJob(vfs: VersionFlags, msg: Message, w: Identity)
    ensures JobAgrees(Stored(RequestState(vfs, None, 1, Assigned(w)), vfs, msg), StartedJob(vfs, msg, w))
  {
    CopyIfReceipt(vfs, msg);
  }

  lemma StartReplays(log: seq<Action>, k: Key, vfs: VersionFlags, msg: Message, w: Identity, a: Abs)
    requires Replay(log) == Some(a) && k !in a.jobs
    ensures Replay(log + [Start(k, vfs, msg, w)] + ReceiptFor(k, vfs, msg)) ==
              Some(a.(jobs := a.jobs[k := StartedJob(vfs, msg, w)]))
  {
    HandOverReplays(log, Start(k, vfs, msg, w), k, vfs, msg, a);
    var a1 := Apply(a, Start(k, vfs, msg, w));
    assert a1.jobs[k := AddReceipt(a1.jobs[k], vfs)] == a.jobs[k := AddReceipt(a1.jobs[k], vfs)];
  }

  /** A new request goes straight to a worker of its type, or the send fails and nothing changes. */
  lemma StartAgrees(
    env: Env, s: State, w: Identity, k: Key, vfs: VersionFlags, msg: Message)
    requires Inv(s, Settled) && !s.Known(k) && k.kind in s.contexts
    requires w in s.workers && k.kind in s.workers[w].types
    ensures Inv(ForwardDirect(env, s, w, k, vfs, msg, Start(k, vfs, msg, w)).state, Settled)
  {
    var s' := ForwardDirect(env, s, w, k, vfs, msg, Start(k, vfs, msg, w)).state;
    if env.request(s.sends) {
      ForwardDirectIs(env, s, w, k, vfs, msg, Start(k, vfs, msg, w));
      StartTables(s, s', w, k, vfs, msg);
      StartRefines(s, s', w, k, vfs, msg);
    } else {
      Unaffected(s, s', Settled);
    }
  }

  lemma StartTables(s: State, s': State, w: Identity, k: Key, vfs: VersionFlags, msg: Message)
    requires Inv(s, Settled) && !s.Known(k) && k.kind in s.contexts
    requires w in s.workers && k.kind in s.workers[w].types
    requires SentDirect(s, s', w, k, vfs, msg, Start(k, vfs, msg, w))
    ensures TablesAgree(s')
  {
    var r := Stored(DirectRecord(s, k, vfs, w), vfs, msg);
    PutAssigned(s.contexts[k.kind], k.id, r);
    NotHeld(s, w, k, Settled);
    HoldingOneMore(s.workers[w], k);
    TablesKept(s, s', k.kind, s'.contexts[k.kind], w, s'.workers[w]);
  }

  lemma StartRefines(s: State, s': State, w: Identity, k: Key, vfs: VersionFlags, msg: Message)
    requires Refines(s, Settled) && !s.Known(k) && k.kind in s.contexts && w in s.workers
    requires SentDirect(s, s', w, k, vfs, msg, Start(k, vfs, msg, w))
    ensures Refines(s', Settled)
  {
    var a := Replay(s.log).value;
    assert k !in a.jobs;
    StartReplays(s.log, k, vfs, msg, w, a);
    StartJob(vfs, msg, w);
    assert a.Queue(k.kind) == Ids(s.Pending(k.kind));
    HandedOverRepresents(s, s', a, a.(jobs := a.jobs[k := StartedJob(vfs, msg, w)]), w, k,
                         s'.contexts[k.kind], Settled);
  }
}

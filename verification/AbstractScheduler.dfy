/** The simple scheduler the broker is meant to be: every request is waiting in its type's queue,
    running at one worker, or stranded, and each step is legal only in the right place. */
module AbstractScheduler {
  import opened Wrappers
  import opened Cluster
  import opened Scheduler

  datatype Where = Waiting | Running(worker: Identity) | Lost

  /** One life of a request, from its acceptance to its end. `named` is the worker it was last handed to
      otherwise than by a direct retry, the one the broker's record names; the job is stale while its last
      hand-over was a direct retry. */
  datatype Job = Job(
    where: Where,
    vfs: VersionFlags,
    msg: Message,
    dispatches: nat,
    moves: nat,
    receipts: nat,
    redirected: bool,
    stale: bool,
    named: Option<Identity>)

  datatype Abs = Abs(jobs: map<Key, Job>, queues: map<RequestType, seq<RequestId>>) {
    function Queue(t: RequestType): seq<RequestId> {
      if t in queues then queues[t] else []
    }

    predicate RunningAt(k: Key, w: Identity) {
      k in jobs && jobs[k].where == Running(w)
    }

    function Enqueue(k: Key, job: Job): Abs {
      Abs(jobs[k := job], queues[k.kind := Queue(k.kind) + [k.id]])
    }
  }

  const Empty := Abs(map[], map[])

  /** Whether a job taken from a dead worker may be tried again. */
  predicate MayRetry(job: Job) {
    job.vfs.Has(RetryOnDeath) && job.dispatches < MAX_TRY_COUNT + job.moves
  }

  /** A job no branch of the death handling covers: its retries are used up and nobody asked to be told. */
  predicate Uncovered(job: Job) {
    job.vfs.Has(RetryOnDeath) && !MayRetry(job) && !job.vfs.Has(NotifyOnDeath)
  }

  /** The client to be told of a redirect or a death: the one that asked last, if it asked for that. */
  function Told(job: Job, flag: MessageFlag): Option<Message> {
    if job.vfs.Has(flag) then Some(Envelope(job.msg)) else None
  }

  predicate Legal(a: Abs, x: Action) {
    match x
    case Accept(k, _, _) => k !in a.jobs
    case Start(k, _, _, _) => k !in a.jobs
    case Dispatch(k, _, msg) =>
      && k in a.jobs && a.jobs[k].where.Waiting? && msg == a.jobs[k].msg
      && a.Queue(k.kind) != [] && a.Queue(k.kind)[0] == k.id
    case Receipt(k, envelope) =>
      k in a.jobs && !a.jobs[k].where.Waiting? && a.jobs[k].vfs.Has(ReceiptOnSend)
      && envelope == Envelope(a.jobs[k].msg)
    case Redirect(k, _, _, holder, notice) =>
      && k in a.jobs && a.jobs[k].vfs.Has(AllowRedirect) && notice == Told(a.jobs[k], NotifyOnRedirect)
      && holder == if a.jobs[k].where.Waiting? then None else a.jobs[k].named
    case Reject(k, _) => k in a.jobs && !a.jobs[k].vfs.Has(AllowRedirect)
    case Finish(k, w) => a.RunningAt(k, w)
    case Forget(k) => k in a.jobs && a.jobs[k].where.Lost?
    case Requeue(k, w) => a.RunningAt(k, w) && MayRetry(a.jobs[k])
    case Move(k, w, to, msg) =>
      a.RunningAt(k, w) && MayRetry(a.jobs[k]) && msg == a.jobs[k].msg && to != w
    case Fail(k, w, notice) =>
      && a.RunningAt(k, w) && !MayRetry(a.jobs[k]) && !Uncovered(a.jobs[k])
      && notice == Told(a.jobs[k], NotifyOnDeath)
    case Strand(k, w) => a.RunningAt(k, w) && Uncovered(a.jobs[k])
  }

  function Apply(a: Abs, x: Action): Abs
    requires Legal(a, x)
  {
    match x
    case Accept(k, vfs, msg) => a.Enqueue(k, Job(Waiting, vfs, msg, 0, 0, 0, false, false, None))
    case Start(k, vfs, msg, w) => a.(jobs := a.jobs[k := Job(Running(w), vfs, msg, 1, 0, 0, false, false, Some(w))])
    case Dispatch(k, w, _) =>
      Abs(a.jobs[k := a.jobs[k].(where := Running(w), dispatches := a.jobs[k].dispatches + 1,
                                 stale := false, named := Some(w))],
          a.queues[k.kind := a.Queue(k.kind)[1..]])
    case Receipt(k, _) => a.(jobs := a.jobs[k := a.jobs[k].(receipts := a.jobs[k].receipts + 1)])
    case Redirect(k, vfs, msg, _, _) =>
      a.(jobs := a.jobs[k := a.jobs[k].(vfs := vfs, msg := msg, redirected := true)])
    case Reject(_, _) => a
    case Finish(k, _) => a.(jobs := a.jobs - {k})
    case Forget(k) => a.(jobs := a.jobs - {k})
    case Requeue(k, _) => a.Enqueue(k, a.jobs[k].(where := Waiting))
    case Move(k, _, to, _) =>
      a.(jobs := a.jobs[k := a.jobs[k].(where := Running(to),
                                       dispatches := a.jobs[k].dispatches + 1,
                                       moves := a.jobs[k].moves + 1,
                                       stale := true)])
    case Fail(k, _, _) => a.(jobs := a.jobs - {k})
    case Strand(k, _) => a.(jobs := a.jobs[k := a.jobs[k].(where := Lost)])
  }

  /** What a whole history leads to, if every step of it was legal. */
  function Replay(log: seq<Action>): Option<Abs> {
    if log == [] then Some(Empty)
    else
      var before := Replay(log[..|log| - 1]);
      if before.Some? && Legal(before.value, log[|log| - 1]) then
        Some(Apply(before.value, log[|log| - 1]))
      else None
  }

  lemma ReplayOne(log: seq<Action>, x: Action)
    requires Replay(log).Some? && Legal(Replay(log).value, x)
    ensures Replay(log + [x]) == Some(Apply(Replay(log).value, x))
  {
    assert (log + [x])[..|log + [x]| - 1] == log;
  }
}

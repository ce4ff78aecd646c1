/** The tables of the broker agree with each other and with the abstract scheduler. */
module Agreement {
  import opened Wrappers
  import opened Cluster
  import opened RequestContexts
  import opened Scheduler
  import opened AbstractScheduler

  /** Where a handler is: between handlers, while a finished request is still in its table, or while
      the requests of a dead worker are being settled, `todo` being the ones not settled yet. */
  datatype Transit = Settled | Ending(key: Key) | Dying(worker: Identity, todo: set<Key>)

  function HeldBy(s: State, w: Identity, x: Transit): set<Key> {
    if w !in s.workers then {}
    else if x.Dying? && x.worker == w then x.todo
    else s.workers[w].held
  }

  /** What a request's record says of its life. A send receipt is still owed only before the first
      dispatch, every dispatch but a direct retry is counted, and the copy kept is the one its flags need. */
  predicate JobAgrees(r: RequestState, job: Job) {
    && (r.place.Queued? <==> job.where.Waiting?)
    && r.tryCount + job.moves == job.dispatches
    && (if job.where.Waiting? then r.tryCount < MAX_TRY_COUNT else 1 <= r.tryCount <= MAX_TRY_COUNT)
    && (r.vfs == job.vfs || r.vfs == job.vfs.Without(ReceiptOnSend))
    && CopyKept(r, job)
    && (job.where.Running? && !job.stale ==> r.place == Assigned(job.where.worker))
    && (r.place.Assigned? ==> job.named == Some(r.place.worker))
    && (!job.redirected ==>
          && (r.vfs.Has(ReceiptOnSend) <==> job.vfs.Has(ReceiptOnSend) && job.dispatches == 0)
          && job.receipts == if job.vfs.Has(ReceiptOnSend) && job.dispatches > 0 then 1 else 0)
  }

  predicate CopyKept(r: RequestState, job: Job) {
    && (job.where.Waiting? || r.vfs.Has(RetryOnDeath) ==> r.msg == Some(job.msg))
    && (r.vfs.HasAny({NotifyOnRedirect, NotifyOnDeath}) ==>
          r.msg.Some? && Envelope(r.msg.value) == Envelope(job.msg))
  }

  ghost predicate KeysAgree(s: State, a: Abs, x: Transit) {
    forall k :: k in a.jobs <==> s.Known(k) && x != Ending(k)
  }

  ghost predicate QueuesAgree(s: State, a: Abs) {
    forall t :: a.Queue(t) == Ids(s.Pending(t))
  }

  ghost predicate JobsAgree(s: State, a: Abs) {
    forall k :: k in a.jobs ==> s.Known(k) && JobAgrees(s.Request(k), a.jobs[k])
  }

  /** A request is running at exactly the one worker that holds it. */
  ghost predicate HoldersAgree(s: State, a: Abs, x: Transit) {
    forall k, w :: k in HeldBy(s, w, x) <==> a.RunningAt(k, w)
  }

  predicate EndingAgrees(s: State, x: Transit) {
    x.Ending? && s.Known(x.key) ==> s.Request(x.key).place.Assigned?
  }

  ghost predicate Represents(s: State, a: Abs, x: Transit) {
    KeysAgree(s, a, x) && QueuesAgree(s, a) && JobsAgree(s, a) && HoldersAgree(s, a, x) && EndingAgrees(s, x)
  }

  ghost predicate Refines(s: State, x: Transit) {
    Replay(s.log).Some? && Represents(s, Replay(s.log).value, x)
  }

  ghost predicate ListsAgree(s: State) {
    forall t :: t in s.contexts ==> ListAgrees(s.contexts[t])
  }

  ghost predicate Distinct<T>(xs: seq<T>) {
    forall i, j :: 0 <= i < j < |xs| ==> xs[i] != xs[j]
  }

  /** Capacity is conserved, and a worker holds only requests of types it supports. */
  ghost predicate InfoAgrees(info: Info) {
    && Distinct(info.types)
    && info.freeCapacity + |info.held| == info.advertised + info.strays
    && (forall k :: k in info.held ==> k.kind in info.types)
  }

  ghost predicate WorkersAgree(s: State) {
    forall w :: w in s.workers ==> InfoAgrees(s.workers[w])
  }

  ghost predicate AvailableAgrees(s: State) {
    forall t, w :: t in s.contexts && w in s.contexts[t].available ==>
      w in s.workers && t in s.workers[w].types
  }

  ghost predicate TablesAgree(s: State) {
    ListsAgree(s) && WorkersAgree(s) && AvailableAgrees(s)
  }

  ghost predicate Inv(s: State, x: Transit) {
    TablesAgree(s) && Refines(s, x)
  }

  // ----- small facts -----

  lemma {:induction false} EnvelopeTwice(msg: Message)
    ensures Envelope(Envelope(msg)) == Envelope(msg)
  {
    if msg != [] && msg[0] != [] {
      EnvelopeTwice(msg[1..]);
      assert Envelope(msg)[1..] == Envelope(msg[1..]);
    }
  }

  /** Whom the broker tells is whom it should tell. */
  lemma NoticeIsTold(r: RequestState, job: Job, flag: MessageFlag)
    requires JobAgrees(r, job) && (flag == NotifyOnDeath || flag == NotifyOnRedirect)
    ensures NoticeOf(r, flag) == Told(job, flag)
  {
    assert flag in {NotifyOnRedirect, NotifyOnDeath};
    assert r.vfs.Has(flag) ==> r.vfs.HasAny({NotifyOnRedirect, NotifyOnDeath});
  }

  lemma QueuedIsKnown(s: State, t: RequestType, x: Transit)
    requires Inv(s, x) && s.Pending(t) != []
    ensures var k := Key(t, s.Pending(t)[0].id);
            s.Known(k) && s.Request(k).place == Queued(s.Pending(t)[0].tag)
            && x != Ending(k) && k in Replay(s.log).value.jobs
            && Replay(s.log).value.jobs[k].where.Waiting?
  {
    var k := Key(t, s.Pending(t)[0].id);
    assert ListAgrees(s.contexts[t]);
  }

  lemma ReplayTwo(log: seq<Action>, xs: seq<Action>, ys: seq<Action>, a: Abs)
    requires |xs| == 1 && |ys| <= 1 && Replay(log) == Some(a) && Legal(a, xs[0])
    requires ys != [] ==> Legal(Apply(a, xs[0]), ys[0])
    ensures Replay(log + xs + ys) ==
              Some(if ys == [] then Apply(a, xs[0]) else Apply(Apply(a, xs[0]), ys[0]))
  {
    hide Legal, Apply, Replay;
    assert xs == [xs[0]];
    ReplayOne(log, xs[0]);
    if ys == [] {
      assert log + xs + ys == log + xs;
    } else {
      assert ys == [ys[0]];
      ReplayOne(log + xs, ys[0]);
    }
  }

  // ----- what the agreement depends on -----

  /** Nothing but requests, lists, holders and the history matters to the abstract scheduler. */
  lemma FrameRefines(s: State, s': State, x: Transit)
    requires Refines(s, x) && s'.log == s.log
    requires forall k :: s'.Known(k) <==> s.Known(k)
    requires forall k :: s.Known(k) ==> s'.Request(k) == s.Request(k)
    requires forall t :: s'.Pending(t) == s.Pending(t)
    requires forall w :: HeldBy(s', w, x) == HeldBy(s, w, x)
    ensures Refines(s', x)
  {
    var a := Replay(s.log).value;
    FrameHolders(s, s', a, x);
  }

  lemma FrameHolders(s: State, s': State, a: Abs, x: Transit)
    requires HoldersAgree(s, a, x)
    requires forall w :: HeldBy(s', w, x) == HeldBy(s, w, x)
    ensures HoldersAgree(s', a, x)
  {
    forall k, w
      ensures k in HeldBy(s', w, x) <==> a.RunningAt(k, w)
    {
      assert k in HeldBy(s, w, x) <==> a.RunningAt(k, w);
    }
  }

  lemma Unaffected(s: State, s': State, x: Transit)
    requires Inv(s, x)
    requires s'.contexts == s.contexts && s'.workers == s.workers && s'.log == s.log
    ensures Inv(s', x)
  {
    FrameRefines(s, s', x);
  }

  lemma AvailableKnown(s: State, x: Transit)
    requires Inv(s, x)
    ensures AvailableAgrees(s)
  {
  }

  /** Only one type's availability or worker count changed. */
  lemma Reshelved(s: State, s': State, t: RequestType, c: Context, x: Transit)
    requires Inv(s, x) && t in s.contexts
    requires s'.contexts == s.contexts[t := c] && s'.workers == s.workers && s'.log == s.log
    requires c.requests == s.contexts[t].requests && c.pending == s.contexts[t].pending
    requires c.nextTag == s.contexts[t].nextTag
    requires forall w :: w in c.available ==> w in s.workers && t in s.workers[w].types
    ensures Inv(s', x)
  {
    ReshelvedTables(s, s', t, c);
    ReshelvedRefines(s, s', t, c, x);
  }

  lemma ReshelvedTables(s: State, s': State, t: RequestType, c: Context)
    requires TablesAgree(s) && t in s.contexts
    requires s'.contexts == s.contexts[t := c] && s'.workers == s.workers
    requires c.requests == s.contexts[t].requests && c.pending == s.contexts[t].pending
    requires c.nextTag == s.contexts[t].nextTag
    requires forall w :: w in c.available ==> w in s.workers && t in s.workers[w].types
    ensures TablesAgree(s')
  {
    assert ListAgrees(s.contexts[t]);
    assert ListAgrees(c);
  }

  lemma ReshelvedRefines(s: State, s': State, t: RequestType, c: Context, x: Transit)
    requires Refines(s, x) && t in s.contexts
    requires s'.contexts == s.contexts[t := c] && s'.workers == s.workers && s'.log == s.log
    requires c.requests == s.contexts[t].requests && c.pending == s.contexts[t].pending
    ensures Refines(s', x)
  {
    FrameRefines(s, s', x);
  }

  /** Only one worker's times changed. */
  lemma Refreshed(s: State, s': State, w: Identity, info: Info, x: Transit)
    requires Inv(s, x) && w in s.workers
    requires s'.contexts == s.contexts && s'.workers == s.workers[w := info] && s'.log == s.log
    requires info.held == s.workers[w].held && info.types == s.workers[w].types
    requires info.freeCapacity == s.workers[w].freeCapacity
    requires info.advertised == s.workers[w].advertised && info.strays == s.workers[w].strays
    ensures Inv(s', x)
  {
    hide Refines;
    RefreshedTables(s, s', w, info);
    RefreshedHolders(s, s', w, info, x);
    FrameRefines(s, s', x);
  }

  lemma RefreshedTables(s: State, s': State, w: Identity, info: Info)
    requires TablesAgree(s) && w in s.workers
    requires s'.contexts == s.contexts && s'.workers == s.workers[w := info]
    requires info.held == s.workers[w].held && info.types == s.workers[w].types
    requires info.freeCapacity == s.workers[w].freeCapacity
    requires info.advertised == s.workers[w].advertised && info.strays == s.workers[w].strays
    ensures TablesAgree(s')
  {
    assert InfoAgrees(s.workers[w]);
  }

  lemma RefreshedHolders(s: State, s': State, w: Identity, info: Info, x: Transit)
    requires w in s.workers && s'.workers == s.workers[w := info] && info.held == s.workers[w].held
    ensures forall v :: HeldBy(s', v, x) == HeldBy(s, v, x)
  {
  }

  /** Replacing one request's record in its context touches no other request and no other list. */
  lemma OneContext(s: State, s': State, k: Key, c: Context)
    requires s'.contexts == s.contexts[k.kind := c]
    requires forall id :: id != k.id ==> (id in c.requests <==> s.Known(Key(k.kind, id)))
    requires forall id :: id != k.id && id in c.requests ==> c.requests[id] == s.Request(Key(k.kind, id))
    ensures forall other :: other != k ==> (s'.Known(other) <==> s.Known(other))
    ensures forall other :: other != k && s.Known(other) ==> s'.Request(other) == s.Request(other)
    ensures forall t :: t != k.kind ==> s'.Pending(t) == s.Pending(t)
  {
    forall other | other != k
      ensures s'.Known(other) <==> s.Known(other)
      ensures s.Known(other) ==> s'.Request(other) == s.Request(other)
    {
      assert other.kind == k.kind ==> other == Key(k.kind, other.id) && other.id != k.id;
    }
  }

  /** Everything but one request is as before, and that one is as it should be. */
  lemma Patch(s: State, s': State, a: Abs, a': Abs, k: Key, x: Transit, x': Transit)
    requires Represents(s, a, x)
    requires forall other :: other != k ==> (s'.Known(other) <==> s.Known(other))
    requires forall other :: other != k && s.Known(other) ==> s'.Request(other) == s.Request(other)
    requires forall t :: t != k.kind ==> s'.Pending(t) == s.Pending(t) && a'.Queue(t) == a.Queue(t)
    requires a'.Queue(k.kind) == Ids(s'.Pending(k.kind))
    requires forall other :: other != k ==> (other in a'.jobs <==> other in a.jobs)
    requires forall other :: other != k && other in a.jobs ==> a'.jobs[other] == a.jobs[other]
    requires HoldersAgree(s', a', x')
    requires k in a'.jobs <==> s'.Known(k) && x' != Ending(k)
    requires k in a'.jobs ==> JobAgrees(s'.Request(k), a'.jobs[k])
    requires forall other :: other != k ==> (x == Ending(other) <==> x' == Ending(other))
    requires EndingAgrees(s', x')
    ensures Represents(s', a', x')
  {
    forall t
      ensures a'.Queue(t) == Ids(s'.Pending(t))
    {
      if t != k.kind {
        assert a.Queue(t) == Ids(s.Pending(t));
      }
    }
    forall other
      ensures other in a'.jobs <==> s'.Known(other) && x' != Ending(other)
      ensures other in a'.jobs ==> JobAgrees(s'.Request(other), a'.jobs[other])
    {
      if other != k {
        assert other in a.jobs <==> s.Known(other) && x != Ending(other);
      }
    }
  }

  lemma PatchHolders(s: State, s': State, a: Abs, a': Abs, k: Key, x: Transit, x': Transit)
    requires HoldersAgree(s, a, x)
    requires forall other, v :: other != k ==> (other in HeldBy(s', v, x') <==> other in HeldBy(s, v, x))
    requires forall other, v :: other != k ==> (a'.RunningAt(other, v) <==> a.RunningAt(other, v))
    requires forall v :: k in HeldBy(s', v, x') <==> a'.RunningAt(k, v)
    ensures HoldersAgree(s', a', x')
  {
    forall other, v
      ensures other in HeldBy(s', v, x') <==> a'.RunningAt(other, v)
    {
      assert other in HeldBy(s, v, x) <==> a.RunningAt(other, v);
    }
  }

  /** One context and one worker replaced by ones that agree. */
  lemma TablesKept(s: State, s': State, t: RequestType, c: Context, w: Identity, info: Info)
    requires TablesAgree(s) && t in s.contexts && w in s.workers
    requires s'.contexts == s.contexts[t := c] && s'.workers == s.workers[w := info]
    requires ListAgrees(c) && c.available == s.contexts[t].available
    requires InfoAgrees(info) && info.types == s.workers[w].types
    ensures TablesAgree(s')
  {
  }

  lemma ListOf(s: State, t: RequestType)
    requires TablesAgree(s) && t in s.contexts
    ensures ListAgrees(s.contexts[t])
  {
  }

  lemma ContextKept(s: State, s': State, t: RequestType, c: Context)
    requires TablesAgree(s)
    requires s'.contexts == s.contexts[t := c] && s'.workers == s.workers
    requires ListAgrees(c) && c.available == s.Available(t)
    ensures TablesAgree(s')
  {
  }

  lemma HoldingOneMore(info: Info, k: Key)
    requires InfoAgrees(info) && k !in info.held && k.kind in info.types
    ensures InfoAgrees(info.AddInProgressRequest(k))
  {
  }

  // ----- what keeps a list in step with its requests -----

  lemma PutAssigned(c: Context, id: RequestId, r: RequestState)
    requires ListAgrees(c) && (id in c.requests ==> c.requests[id].place.Assigned?)
    requires r.place.Assigned?
    ensures ListAgrees(c.Put(id, r))
  {
  }

  lemma PutSamePlace(c: Context, id: RequestId, r: RequestState)
    requires ListAgrees(c) && id in c.requests && r.place == c.requests[id].place
    ensures ListAgrees(c.Put(id, r))
  {
  }

  lemma AppendKeeps(c: Context, id: RequestId, r: RequestState)
    requires ListAgrees(c) && (id in c.requests ==> c.requests[id].place.Assigned?)
    ensures ListAgrees(c.Append(id, r))
    ensures Ids(c.Append(id, r).pending) == Ids(c.pending) + [id]
  {
    var c' := c.Append(id, r);
    assert c'.pending[|c.pending|] == Node(c.nextTag, id);
    forall i | 0 <= i < |c.pending|
      ensures c'.pending[i] == c.pending[i]
    {
    }
    forall other | other in c'.requests && c'.requests[other].place.Queued?
      ensures Node(c'.requests[other].place.cursor, other) in c'.pending
    {
      if other != id {
        assert Node(c.requests[other].place.cursor, other) in c.pending;
      }
    }
  }

  /** Erasing a request leaves no node behind exactly when it was not queued. */
  lemma RemoveKeepsIff(c: Context, id: RequestId)
    requires ListAgrees(c)
    ensures ListAgrees(c.RemoveInProgressRequest(id)) <==>
              !(id in c.requests && c.requests[id].place.Queued?)
  {
    var c' := c.RemoveInProgressRequest(id);
    if id in c.requests && c.requests[id].place.Queued? {
      var node := Node(c.requests[id].place.cursor, id);
      var i :| 0 <= i < |c.pending| && c.pending[i] == node;
      assert c'.pending[i].id !in c'.requests;
    }
  }

  lemma EraseFirst(c: Context, r: RequestState)
    requires ListAgrees(c) && c.pending != [] && r.place.Assigned?
    ensures var id := c.pending[0].id;
            ListAgrees(c.Put(id, r).(pending := c.pending[1..]))
            && EraseNode(c.pending, c.requests[id].place.cursor) == c.pending[1..]
            && Ids(c.pending)[1..] == Ids(c.pending[1..])
  {
    RestAgrees(c, r);
    hide ListAgrees;
    assert Ids(c.pending)[1..] == Ids(c.pending[1..]);
  }

  lemma RestAgrees(c: Context, r: RequestState)
    requires ListAgrees(c) && c.pending != [] && r.place.Assigned?
    ensures var id := c.pending[0].id;
            ListAgrees(c.Put(id, r).(pending := c.pending[1..]))
            && c.requests[id].place == Queued(c.pending[0].tag)
  {
    var id := c.pending[0].id;
    var c' := c.Put(id, r).(pending := c.pending[1..]);
    forall i | 0 <= i < |c'.pending|
      ensures c'.pending[i].id in c'.requests
              && c'.requests[c'.pending[i].id].place == Queued(c'.pending[i].tag)
    {
      assert c'.pending[i] == c.pending[i + 1];
    }
    forall other | other in c'.requests && c'.requests[other].place.Queued?
      ensures Node(c'.requests[other].place.cursor, other) in c'.pending
    {
      var node := Node(c.requests[other].place.cursor, other);
      assert node in c.pending && node != c.pending[0];
    }
  }
}

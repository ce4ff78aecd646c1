/** Client requests keep the tables in agreement, and exactly when they do not. */
module Requests {
  import opened Wrappers
  import opened Cluster
  import opened RequestContexts
  import opened Scheduler
  import opened AbstractScheduler
  import opened Agreement
  import opened Forwarding

  // ----- withdrawing a worker -----

  lemma {:induction false} WithdrawAgrees(s: State, w: Identity, n: nat, x: Transit)
    requires Inv(s, x)
    ensures Inv(Withdraw(s, w, n), x)
  {
    hide Inv;
    if n != 0 && n <= |s.Types(w)| {
      WithdrawAgrees(s, w, n - 1, x);
      RemoveAvailableAgrees(Withdraw(s, w, n - 1), s.Types(w)[n - 1], w, x);
    }
  }

  lemma RemoveAvailableAgrees(s: State, t: RequestType, w: Identity, x: Transit)
    requires Inv(s, x)
    ensures Inv(RemoveAvailable(s, t, w), x)
  {
    if t in s.contexts {
      Reshelved(s, RemoveAvailable(s, t, w), t, s.contexts[t].RemoveAvailableWorker(w), x);
    }
  }

  lemma AddAvailableAgrees(s: State, t: RequestType, w: Identity, x: Transit)
    requires Inv(s, x) && w in s.workers && t in s.workers[w].types
    ensures Inv(AddAvailable(s, t, w), x)
  {
    if t in s.contexts {
      AvailableKnown(s, x);
      hide Inv;
      Reshelved(s, AddAvailable(s, t, w), t, s.contexts[t].AddAvailableWorker(w), x);
    }
  }

  // ----- accepting into a queue -----

  lemma AcceptReplays(log: seq<Action>, k: Key, vfs: VersionFlags, msg: Message, a: Abs)
    requires Replay(log) == Some(a) && k !in a.jobs
    ensures Replay(log + [Accept(k, vfs, msg)]) == Some(a.Enqueue(k, Job(Waiting, vfs, msg, 0, 0, 0, false, false, None)))
  {
    ReplayOne(log, Accept(k, vfs, msg));
  }

  /** A new request joins the end of its type's list. */
  lemma AcceptAgrees(s: State, s': State, k: Key, vfs: VersionFlags, msg: Message)
    requires Inv(s, Settled) && !s.Known(k)
    requires var c := if k.kind in s.contexts then s.contexts[k.kind] else NewContext();
             s'.contexts == s.contexts[k.kind := c.AddPendingRequest(k.id, vfs, Some(msg))]
    requires s'.workers == s.workers && s'.log == s.log + [Accept(k, vfs, msg)]
    ensures Inv(s', Settled)
  {
    var c := if k.kind in s.contexts then s.contexts[k.kind] else NewContext();
    var r := RequestState(vfs, Some(msg), 0, Queued(c.nextTag));
    assert ListAgrees(c);
    AppendKeeps(c, k.id, r);
    assert c.AddPendingRequest(k.id, vfs, Some(msg)) == c.Append(k.id, r);
    ContextKept(s, s', k.kind, c.Append(k.id, r));
    AcceptRefines(s, s', k, vfs, msg, c, r);
  }

  lemma AcceptRefines(
    s: State, s': State, k: Key, vfs: VersionFlags, msg: Message, c: Context, r: RequestState)
    requires Refines(s, Settled) && !s.Known(k)
    requires c == if k.kind in s.contexts then s.contexts[k.kind] else NewContext()
    requires r == RequestState(vfs, Some(msg), 0, Queued(c.nextTag))
    requires s'.contexts == s.contexts[k.kind := c.Append(k.id, r)]
    requires Ids(c.Append(k.id, r).pending) == Ids(c.pending) + [k.id]
    requires s'.workers == s.workers && s'.log == s.log + [Accept(k, vfs, msg)]
    ensures Refines(s', Settled)
  {
    var a := Replay(s.log).value;
    assert k !in a.jobs;
    AcceptReplays(s.log, k, vfs, msg, a);
    assert a.Queue(k.kind) == Ids(s.Pending(k.kind));
    forall v
      ensures k !in HeldBy(s', v, Settled)
    {
      assert !a.RunningAt(k, v);
      assert HeldBy(s', v, Settled) == HeldBy(s, v, Settled);
    }
    QueuedRepresents(s, s', a, Job(Waiting, vfs, msg, 0, 0, 0, false, false, None), k, c.Append(k.id, r), Settled, Settled);
  }

  /** A request nobody holds any more, or nobody ever held, is now at the end of its queue. */
  lemma QueuedRepresents(
    s: State, s': State, a: Abs, job: Job, k: Key, c: Context, x: Transit, x': Transit)
    requires Represents(s, a, x) && !x.Ending? && !x'.Ending?
    requires s'.contexts == s.contexts[k.kind := c]
    requires k.id in c.requests
    requires forall id :: id != k.id ==> (id in c.requests <==> s.Known(Key(k.kind, id)))
    requires forall id :: id != k.id && id in c.requests ==> c.requests[id] == s.Request(Key(k.kind, id))
    requires Ids(c.pending) == a.Queue(k.kind) + [k.id]
    requires JobAgrees(c.requests[k.id], job) && job.where.Waiting?
    requires forall v, other :: other != k ==> (other in HeldBy(s', v, x') <==> other in HeldBy(s, v, x))
    requires forall v :: k !in HeldBy(s', v, x')
    ensures Represents(s', a.Enqueue(k, job), x')
  {
    OneContext(s, s', k, c);
    PatchHolders(s, s', a, a.Enqueue(k, job), k, x, x');
    Patch(s, s', a, a.Enqueue(k, job), k, x, x');
  }

  // ----- the same request again -----

  /** A record rewritten where it is: no list and no holder changes. */
  lemma RewrittenRepresents(s: State, s': State, a: Abs, a': Abs, k: Key, c: Context, x: Transit)
    requires Represents(s, a, x) && !x.Ending? && k in a.jobs
    requires s'.contexts == s.contexts[k.kind := c] && s'.workers == s.workers
    requires k.id in c.requests && k.kind in s.contexts && c.pending == s.contexts[k.kind].pending
    requires forall id :: id != k.id ==> (id in c.requests <==> s.Known(Key(k.kind, id)))
    requires forall id :: id != k.id && id in c.requests ==> c.requests[id] == s.Request(Key(k.kind, id))
    requires a'.jobs.Keys == a.jobs.Keys && a'.queues == a.queues
    requires forall other :: other in a.jobs && other != k ==> a'.jobs[other] == a.jobs[other]
    requires a'.jobs[k].where == a.jobs[k].where && JobAgrees(c.requests[k.id], a'.jobs[k])
    ensures Represents(s', a', x)
  {
    OneContext(s, s', k, c);
    forall other, v
      ensures other in HeldBy(s', v, x) <==> a'.RunningAt(other, v)
    {
      assert other in HeldBy(s, v, x) <==> a.RunningAt(other, v);
    }
    assert a.Queue(k.kind) == Ids(s.Pending(k.kind));
    Patch(s, s', a, a', k, x, x);
  }

  function RedirectedJob(job: Job, vfs: VersionFlags, msg: Message): Job {
    job.(vfs := vfs, msg := msg, redirected := true)
  }

  lemma RedirectQueuedAgrees(s: State, s': State, k: Key, vfs: VersionFlags, msg: Message, c: Context)
    requires Inv(s, Settled) && s.Known(k)
    requires s.Request(k).place.Queued? && s.Request(k).vfs.Has(AllowRedirect)
    requires c == s.contexts[k.kind].Put(k.id, s.Request(k).(msg := Some(msg), vfs := vfs))
    requires s'.contexts == s.contexts[k.kind := c]
    requires s'.workers == s.workers && s'.log == s.log + [Redirect(k, vfs, msg, None, NoticeOf(s.Request(k), NotifyOnRedirect))]
    ensures Inv(s', Settled)
  {
    PutSamePlace(s.contexts[k.kind], k.id, s.Request(k).(msg := Some(msg), vfs := vfs));
    ContextKept(s, s', k.kind, c);
    RedirectQueuedRefines(s, s', k, vfs, msg, c);
  }

  lemma RedirectQueuedRefines(s: State, s': State, k: Key, vfs: VersionFlags, msg: Message, c: Context)
    requires Refines(s, Settled) && s.Known(k)
    requires s.Request(k).place.Queued? && s.Request(k).vfs.Has(AllowRedirect)
    requires c == s.contexts[k.kind].Put(k.id, s.Request(k).(msg := Some(msg), vfs := vfs))
    requires s'.contexts == s.contexts[k.kind := c]
    requires s'.workers == s.workers && s'.log == s.log + [Redirect(k, vfs, msg, None, NoticeOf(s.Request(k), NotifyOnRedirect))]
    ensures Refines(s', Settled)
  {
    var a := Replay(s.log).value;
    assert k in a.jobs && JobAgrees(s.Request(k), a.jobs[k]);
    NoticeIsTold(s.Request(k), a.jobs[k], NotifyOnRedirect);
    ReplayOne(s.log, Redirect(k, vfs, msg, None, NoticeOf(s.Request(k), NotifyOnRedirect)));
    RewrittenRepresents(s, s', a, Apply(a, Redirect(k, vfs, msg, None, NoticeOf(s.Request(k), NotifyOnRedirect))), k, c, Settled);
  }

  /** The record after a redirect reached the worker. */
  function RedirectedRecord(r: RequestState, vfs: VersionFlags, msg: Message): RequestState {
    match CopyRequestForFlags(vfs, msg)
    case None => r.(msg := None, vfs := vfs)
    case Some(copy) => StoreCopy(r, vfs, copy).(vfs := vfs)
  }

  lemma RedirectJob(r: RequestState, job: Job, vfs: VersionFlags, msg: Message)
    requires JobAgrees(r, job) && !job.where.Waiting?
    ensures JobAgrees(RedirectedRecord(r, vfs, msg), AddReceipt(RedirectedJob(job, vfs, msg), vfs))
  {
    CopyIfReceipt(vfs, msg);
  }

  ghost predicate Redirected(s: State, s': State, k: Key, w: Identity, vfs: VersionFlags, msg: Message)
    requires s.Known(k)
  {
    && s'.contexts == s.contexts[k.kind := s.contexts[k.kind].Put(k.id,
                                             RedirectedRecord(s.Request(k), vfs, msg))]
    && s'.workers == s.workers
    && s'.log == s.log + [Redirect(k, vfs, msg, Some(w), NoticeOf(s.Request(k), NotifyOnRedirect))] + ReceiptFor(k, vfs, msg)
  }

  lemma RepeatedRequestIs(env: Env, s: State, k: Key, vfs: VersionFlags, msg: Message)
    requires s.Known(k) && s.Request(k).vfs.Has(AllowRedirect)
    requires s.Request(k).place.Assigned? && env.request(s.sends)
    ensures Redirected(s, RepeatedRequest(env, s, k, vfs, msg), k, s.Request(k).place.worker, vfs, msg)
  {
    CopyIfReceipt(vfs, msg);
    var r := s.Request(k);
    var c := s.contexts[k.kind];
    var r1 := match CopyRequestForFlags(vfs, msg) case None => r.(msg := None)
                                                   case Some(copy) => StoreCopy(r, vfs, copy);
    assert c.Put(k.id, r1).Put(k.id, r1.(vfs := vfs)) == c.Put(k.id, r1.(vfs := vfs));
    assert s.contexts[k.kind := c.Put(k.id, r1)][k.kind := c.Put(k.id, r1.(vfs := vfs))] ==
      s.contexts[k.kind := c.Put(k.id, r1.(vfs := vfs))];
  }

  lemma RedirectRunningAgrees(s: State, s': State, k: Key, w: Identity, vfs: VersionFlags, msg: Message)
    requires Inv(s, Settled) && s.Known(k)
    requires s.Request(k).place == Assigned(w) && s.Request(k).vfs.Has(AllowRedirect)
    requires Redirected(s, s', k, w, vfs, msg)
    ensures Inv(s', Settled)
  {
    hide TablesAgree, Refines, RedirectedRecord;
    var r := RedirectedRecord(s.Request(k), vfs, msg);
    var c := s.contexts[k.kind].Put(k.id, r);
    RedirectedPlace(s.Request(k), vfs, msg);
    ListOf(s, k.kind);
    PutSamePlace(s.contexts[k.kind], k.id, r);
    ContextKept(s, s', k.kind, c);
    RedirectRunningRefines(s, s', k, w, vfs, msg, c);
  }

  lemma RedirectedPlace(r: RequestState, vfs: VersionFlags, msg: Message)
    ensures RedirectedRecord(r, vfs, msg).place == r.place
  {
  }

  lemma RedirectRunningRefines(
    s: State, s': State, k: Key, w: Identity, vfs: VersionFlags, msg: Message, c: Context)
    requires Refines(s, Settled) && s.Known(k)
    requires s.Request(k).place == Assigned(w) && s.Request(k).vfs.Has(AllowRedirect)
    requires Redirected(s, s', k, w, vfs, msg)
    requires c == s.contexts[k.kind].Put(k.id, RedirectedRecord(s.Request(k), vfs, msg))
    ensures Refines(s', Settled)
  {
    var a := Replay(s.log).value;
    var x := Redirect(k, vfs, msg, Some(w), NoticeOf(s.Request(k), NotifyOnRedirect));
    assert JobAgrees(s.Request(k), a.jobs[k]);
    NoticeIsTold(s.Request(k), a.jobs[k], NotifyOnRedirect);
    HandOverReplays(s.log, x, k, vfs, msg, a);
    RedirectJob(s.Request(k), a.jobs[k], vfs, msg);
    RewrittenRepresents(s, s', a, Replay(s'.log).value, k, c, Settled);
  }

  // ----- the handler -----

  /** The case in which a new request goes out but its send receipt does not. */
  predicate ReceiptLost(env: Env, s: State, k: Key, vfs: VersionFlags) {
    && !s.Known(k) && s.Available(k.kind) != {}
    && vfs.Has(ReceiptOnSend) && env.request(s.sends) && !env.receipt(s.sends + 1)
  }

  lemma PickedSupports(env: Env, s: State, t: RequestType)
    requires Fair(env) && AvailableAgrees(s) && s.Available(t) != {}
    ensures var w := env.pick(s.sends, s.Available(t));
            t in s.contexts && w in s.Available(t) && w in s.workers && t in s.workers[w].types
  {
    assert env.pick(s.sends, s.Available(t)) in s.Available(t);
  }

  /** Rejecting a repeated request changes nothing, and is legal as the first did not allow redirects. */
  lemma RejectAgrees(s: State, s': State, k: Key, envelope: Message)
    requires Inv(s, Settled) && s.Known(k) && !s.Request(k).vfs.Has(AllowRedirect)
    requires s' == s.(log := s.log + [Reject(k, envelope)])
    ensures Inv(s', Settled)
  {
    hide TablesAgree, Represents, Replay;
    RejectReplays(s, k, envelope);
    SameTables(s, s');
    SameRepresents(s, s', Replay(s.log).value);
  }

  lemma SameTables(s: State, s': State)
    requires TablesAgree(s) && s'.contexts == s.contexts && s'.workers == s.workers
    ensures TablesAgree(s')
  {
  }

  lemma RejectReplays(s: State, k: Key, envelope: Message)
    requires Inv(s, Settled) && s.Known(k) && !s.Request(k).vfs.Has(AllowRedirect)
    ensures Replay(s.log + [Reject(k, envelope)]) == Replay(s.log)
  {
    var a := Replay(s.log).value;
    assert k in a.jobs && JobAgrees(s.Request(k), a.jobs[k]);
    hide Inv;
    ReplayOne(s.log, Reject(k, envelope));
  }

  lemma SameRepresents(s: State, s': State, a: Abs)
    requires Represents(s, a, Settled) && s'.contexts == s.contexts && s'.workers == s.workers
    ensures Represents(s', a, Settled)
  {
    forall k, v
      ensures k in HeldBy(s', v, Settled) <==> a.RunningAt(k, v)
    {
      assert k in HeldBy(s, v, Settled) <==> a.RunningAt(k, v);
    }
    assert forall t :: a.Queue(t) == Ids(s.Pending(t));
  }

  lemma RepeatedRequestAgrees(env: Env, s: State, k: Key, vfs: VersionFlags, msg: Message)
    requires Inv(s, Settled) && s.Known(k)
    ensures Inv(RepeatedRequest(env, s, k, vfs, msg), Settled)
  {
    var s' := RepeatedRequest(env, s, k, vfs, msg);
    if s.Request(k).vfs.Has(AllowRedirect) {
      if s.Request(k).place.Queued? {
        RedirectQueuedAgrees(s, s', k, vfs, msg, s'.contexts[k.kind]);
      } else if env.request(s.sends) {
        RepeatedRequestIs(env, s, k, vfs, msg);
        RedirectRunningAgrees(s, s', k, s.Request(k).place.worker, vfs, msg);
      } else {
        Unaffected(s, s', Settled);
      }
    } else {
      RejectAgrees(s, s', k, Envelope(msg));
    }
  }

  lemma ClientRequestAgrees(env: Env, s: State, k: Key, vfs: VersionFlags, msg: Message)
    requires Fair(env) && Inv(s, Settled) && !ReceiptLost(env, s, k, vfs)
    ensures Inv(ClientRequest(env, s, k, vfs, msg), Settled)
  {
    if s.Known(k) {
      RepeatedRequestAgrees(env, s, k, vfs, msg);
    } else if s.Available(k.kind) == {} {
      AcceptAgrees(s, ClientRequest(env, s, k, vfs, msg), k, vfs, msg);
    } else {
      StartOrAccept(env, s, k, vfs, msg);
    }
  }

  lemma StartOrAccept(env: Env, s: State, k: Key, vfs: VersionFlags, msg: Message)
    requires Fair(env) && Inv(s, Settled) && !s.Known(k) && s.Available(k.kind) != {}
    requires !ReceiptLost(env, s, k, vfs)
    ensures Inv(ClientRequest(env, s, k, vfs, msg), Settled)
  {
    hide Refines, ListAgrees, InfoAgrees;
    PickedSupports(env, s, k.kind);
    var w := env.pick(s.sends, s.Available(k.kind));
    var out := ForwardDirect(env, s, w, k, vfs, msg, Start(k, vfs, msg, w));
    StartAgrees(env, s, w, k, vfs, msg);
    if env.request(s.sends) {
      ForwardDirectIs(env, s, w, k, vfs, msg, Start(k, vfs, msg, w));
      WithdrawAgrees(out.state, w, |out.state.Types(w)|, Settled);
    } else {
      AcceptAgrees(out.state, ClientRequest(env, s, k, vfs, msg), k, vfs, msg);
    }
  }

  lemma HeldIsAssigned(s: State, w: Identity, k: Key)
    requires Inv(s, Settled) && w in s.workers && k in s.workers[w].held
    ensures s.Known(k) && s.Request(k).place.Assigned?
  {
    var a := Replay(s.log).value;
    assert k in HeldBy(s, w, Settled) && a.RunningAt(k, w);
    assert JobAgrees(s.Request(k), a.jobs[k]);
  }

  /** A legal history has only legal beginnings. */
  lemma {:induction false} ReplayPrefix(log: seq<Action>, more: seq<Action>)
    requires Replay(log + more).Some?
    ensures Replay(log).Some?
    decreases |more|
  {
    if more == [] {
      assert log + more == log;
    } else {
      assert (log + more)[..|log + more| - 1] == log + more[..|more| - 1];
      ReplayPrefix(log, more[..|more| - 1]);
    }
  }

  lemma OnlyLegal(log: seq<Action>, x: Action, more: seq<Action>)
    requires Replay(log).Some?
    ensures Replay(log + [x] + more).Some? ==> Legal(Replay(log).value, x)
  {
    if Replay(log + [x] + more).Some? {
      ReplayPrefix(log + [x], more);
      assert (log + [x])[..|log + [x]| - 1] == log;
    }
  }

  lemma LostBreaks(env: Env, s: State, k: Key, vfs: VersionFlags, msg: Message)
    requires Fair(env) && Inv(s, Settled) && ReceiptLost(env, s, k, vfs)
    ensures var s' := ClientRequest(env, s, k, vfs, msg);
            var w := env.pick(s.sends, s.Available(k.kind));
            s'.Known(k) && s'.Request(k).place.Queued? && w in s'.workers && k in s'.Held(w)
  {
    PickedSupports(env, s, k.kind);
    var w := env.pick(s.sends, s.Available(k.kind));
    ForwardDirectIs(env, s, w, k, vfs, msg, Start(k, vfs, msg, w));
  }

  /** Handling a client request keeps the tables in agreement exactly when no receipt is lost after a
      new request itself went out. */
  lemma ClientRequestAgreesIff(env: Env, s: State, k: Key, vfs: VersionFlags, msg: Message)
    requires Fair(env) && Inv(s, Settled)
    ensures Inv(ClientRequest(env, s, k, vfs, msg), Settled) <==> !ReceiptLost(env, s, k, vfs)
  {
    if ReceiptLost(env, s, k, vfs) {
      LostBreaks(env, s, k, vfs, msg);
      var s' := ClientRequest(env, s, k, vfs, msg);
      if Inv(s', Settled) {
        HeldIsAssigned(s', env.pick(s.sends, s.Available(k.kind)), k);
        assert false;
      }
    } else {
      ClientRequestAgrees(env, s, k, vfs, msg);
    }
  }
}

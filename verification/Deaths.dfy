/** Removing dead workers keeps the tables in agreement, and settles each of their requests. */
module Deaths {
  import opened Wrappers
  import opened Cluster
  import opened RequestContexts
  import opened Scheduler
  import opened AbstractScheduler
  import opened Agreement
  import opened Forwarding
  import opened Requests

  // ----- one request of a dead worker -----

  /** The request of a dead worker that is being settled, in the abstract scheduler. */
  lemma DyingJob(s: State, w: Identity, k: Key, todo: set<Key>)
    requires Refines(s, Dying(w, todo)) && w in s.workers && k in todo
    ensures s.Known(k) && Replay(s.log).value.RunningAt(k, w)
    ensures JobAgrees(s.Request(k), Replay(s.log).value.jobs[k]) && s.Request(k).place.Assigned?
  {
    assert k in HeldBy(s, w, Dying(w, todo));
  }

  lemma SettledHolders(s: State, s': State, a: Abs, a': Abs, w: Identity, k: Key, todo: set<Key>)
    requires HoldersAgree(s, a, Dying(w, todo)) && a.RunningAt(k, w) && s'.workers == s.workers
    requires forall other :: other != k ==> (other in a'.jobs <==> other in a.jobs)
    requires forall other :: other != k && other in a.jobs ==> a'.jobs[other] == a.jobs[other]
    requires k in a'.jobs ==> !a'.jobs[k].where.Running?
    ensures HoldersAgree(s', a', Dying(w, todo - {k}))
  {
    forall other, v
      ensures other in HeldBy(s', v, Dying(w, todo - {k})) <==> a'.RunningAt(other, v)
    {
      assert other in HeldBy(s, v, Dying(w, todo)) <==> a.RunningAt(other, v);
    }
  }

  lemma RequeueAgrees(s: State, w: Identity, k: Key, todo: set<Key>)
    requires Inv(s, Dying(w, todo)) && w in s.workers && k in todo
    requires s.Known(k) && s.Request(k).vfs.Has(RetryOnDeath) && s.Request(k).tryCount < MAX_TRY_COUNT
    ensures Inv(BackToPending(s, k, [Requeue(k, w)]), Dying(w, todo - {k}))
  {
    DyingJob(s, w, k, todo);
    var s' := BackToPending(s, k, [Requeue(k, w)]);
    var c := s.contexts[k.kind];
    AppendKeeps(c, k.id, s.Request(k));
    ContextKept(s, s', k.kind, c.BackToPending(k.id));
    RequeueRefines(s, s', w, k, todo, c.BackToPending(k.id));
  }

  lemma RequeueRefines(s: State, s': State, w: Identity, k: Key, todo: set<Key>, c: Context)
    requires Refines(s, Dying(w, todo)) && w in s.workers && k in todo
    requires s.Known(k) && s.Request(k).vfs.Has(RetryOnDeath) && s.Request(k).tryCount < MAX_TRY_COUNT
    requires c == s.contexts[k.kind].BackToPending(k.id)
    requires Ids(c.pending) == Ids(s.Pending(k.kind)) + [k.id]
    requires s'.contexts == s.contexts[k.kind := c] && s'.workers == s.workers
    requires s'.log == s.log + [Requeue(k, w)]
    ensures Refines(s', Dying(w, todo - {k}))
  {
    DyingJob(s, w, k, todo);
    var a := Replay(s.log).value;
    var job := a.jobs[k].(where := Waiting);
    ReplayOne(s.log, Requeue(k, w));
    assert a.Queue(k.kind) == Ids(s.Pending(k.kind));
    SettledHolders(s, s', a, a.Enqueue(k, job), w, k, todo);
    OneContext(s, s', k, c);
    Patch(s, s', a, a.Enqueue(k, job), k, Dying(w, todo), Dying(w, todo - {k}));
  }

  lemma FailAgrees(s: State, w: Identity, k: Key, todo: set<Key>)
    requires Inv(s, Dying(w, todo)) && w in s.workers && k in todo && s.Known(k)
    requires !(s.Request(k).vfs.Has(RetryOnDeath) && s.Request(k).tryCount < MAX_TRY_COUNT)
    requires s.Request(k).vfs.Has(NotifyOnDeath) || !s.Request(k).vfs.Has(RetryOnDeath)
    ensures Inv(RemoveInProgress(s, k).(log := s.log + [Fail(k, w, NoticeOf(s.Request(k), NotifyOnDeath))]), Dying(w, todo - {k}))
  {
    DyingJob(s, w, k, todo);
    var s' := RemoveInProgress(s, k).(log := s.log + [Fail(k, w, NoticeOf(s.Request(k), NotifyOnDeath))]);
    var c := s.contexts[k.kind];
    RemoveKeepsIff(c, k.id);
    ContextKept(s, s', k.kind, c.RemoveInProgressRequest(k.id));
    FailRefines(s, s', w, k, todo);
  }

  lemma FailRefines(s: State, s': State, w: Identity, k: Key, todo: set<Key>)
    requires Refines(s, Dying(w, todo)) && w in s.workers && k in todo && s.Known(k)
    requires !(s.Request(k).vfs.Has(RetryOnDeath) && s.Request(k).tryCount < MAX_TRY_COUNT)
    requires s.Request(k).vfs.Has(NotifyOnDeath) || !s.Request(k).vfs.Has(RetryOnDeath)
    requires s' == RemoveInProgress(s, k).(log := s.log + [Fail(k, w, NoticeOf(s.Request(k), NotifyOnDeath))])
    ensures Refines(s', Dying(w, todo - {k}))
  {
    DyingJob(s, w, k, todo);
    var a := Replay(s.log).value;
    NoticeIsTold(s.Request(k), a.jobs[k], NotifyOnDeath);
    ReplayOne(s.log, Fail(k, w, NoticeOf(s.Request(k), NotifyOnDeath)));
    var a' := a.(jobs := a.jobs - {k});
    assert a.Queue(k.kind) == Ids(s.Pending(k.kind));
    SettledHolders(s, s', a, a', w, k, todo);
    OneContext(s, s', k, s'.contexts[k.kind]);
    Patch(s, s', a, a', k, Dying(w, todo), Dying(w, todo - {k}));
  }

  lemma StrandAgrees(s: State, w: Identity, k: Key, todo: set<Key>)
    requires Inv(s, Dying(w, todo)) && w in s.workers && k in todo && s.Known(k)
    requires s.Request(k).vfs.Has(RetryOnDeath) && s.Request(k).tryCount >= MAX_TRY_COUNT
    requires !s.Request(k).vfs.Has(NotifyOnDeath)
    ensures Inv(s.(log := s.log + [Strand(k, w)]), Dying(w, todo - {k}))
  {
    hide TablesAgree, Refines;
    var s' := s.(log := s.log + [Strand(k, w)]);
    SameTables(s, s');
    StrandRefines(s, s', w, k, todo);
  }

  lemma SameTables(s: State, s': State)
    requires TablesAgree(s) && s'.contexts == s.contexts && s'.workers == s.workers
    ensures TablesAgree(s')
  {
  }

  lemma StrandRefines(s: State, s': State, w: Identity, k: Key, todo: set<Key>)
    requires Refines(s, Dying(w, todo)) && w in s.workers && k in todo && s.Known(k)
    requires s.Request(k).vfs.Has(RetryOnDeath) && s.Request(k).tryCount >= MAX_TRY_COUNT
    requires !s.Request(k).vfs.Has(NotifyOnDeath)
    requires s' == s.(log := s.log + [Strand(k, w)])
    ensures Refines(s', Dying(w, todo - {k}))
  {
    DyingJob(s, w, k, todo);
    var a := Replay(s.log).value;
    ReplayOne(s.log, Strand(k, w));
    var a' := a.(jobs := a.jobs[k := a.jobs[k].(where := Lost)]);
    SettledHolders(s, s', a, a', w, k, todo);
    assert a.Queue(k.kind) == Ids(s.Pending(k.kind));
    Patch(s, s', a, a', k, Dying(w, todo), Dying(w, todo - {k}));
  }

  // ----- a direct retry -----

  function MovedJob(job: Job, to: Identity, vfs: VersionFlags): Job {
    AddReceipt(job.(where := Running(to), dispatches := job.dispatches + 1, moves := job.moves + 1,
                    stale := true), vfs)
  }

  lemma MoveJob(r: RequestState, job: Job, to: Identity)
    requires JobAgrees(r, job) && job.where.Running? && r.vfs.Has(RetryOnDeath)
    ensures r.msg == Some(job.msg)
    ensures JobAgrees(Stored(r.(msg := None), r.vfs, job.msg), MovedJob(job, to, r.vfs))
  {
    CopyIfReceipt(r.vfs, job.msg);
  }

  lemma MoveAgrees(env: Env, s: State, w: Identity, to: Identity, k: Key, todo: set<Key>)
    requires Inv(s, Dying(w, todo)) && w in s.workers && k in todo
    requires s.Known(k) && s.Request(k).vfs.Has(RetryOnDeath) && s.Request(k).tryCount < MAX_TRY_COUNT
    requires to in s.workers && to != w && k.kind in s.workers[to].types && env.request(s.sends)
    ensures var r := s.Request(k);
            var msg := r.msg.GetOr([]);
            Inv(ForwardDirect(env, s, to, k, r.vfs, msg, Move(k, w, to, msg)).state, Dying(w, todo - {k}))
  {
    DyingJob(s, w, k, todo);
    var r := s.Request(k);
    var msg := r.msg.GetOr([]);
    ForwardDirectIs(env, s, to, k, r.vfs, msg, Move(k, w, to, msg));
    var s' := ForwardDirect(env, s, to, k, r.vfs, msg, Move(k, w, to, msg)).state;
    MoveTables(s, s', w, to, k, todo);
    MoveRefines(s, s', w, to, k, todo);
  }

  lemma DyingHolds(s: State, w: Identity, to: Identity, k: Key, todo: set<Key>)
    requires Refines(s, Dying(w, todo)) && w in s.workers && k in todo && to in s.workers && to != w
    ensures k !in s.workers[to].held
  {
    DyingJob(s, w, k, todo);
    assert !Replay(s.log).value.RunningAt(k, to);
    assert k !in HeldBy(s, to, Dying(w, todo));
  }

  lemma MoveTables(s: State, s': State, w: Identity, to: Identity, k: Key, todo: set<Key>)
    requires Inv(s, Dying(w, todo)) && w in s.workers && k in todo && s.Known(k)
    requires to in s.workers && to != w && k.kind in s.workers[to].types
    requires SentDirect(s, s', to, k, s.Request(k).vfs, s.Request(k).msg.GetOr([]),
                        Move(k, w, to, s.Request(k).msg.GetOr([])))
    ensures TablesAgree(s')
  {
    hide Refines, ListAgrees, AvailableAgrees;
    DyingJob(s, w, k, todo);
    DyingHolds(s, w, to, k, todo);
    var r := s.Request(k);
    PutAssigned(s.contexts[k.kind], k.id, Stored(r.(msg := None), r.vfs, r.msg.GetOr([])));
    HoldingOneMore(s.workers[to], k);
    TablesKept(s, s', k.kind, s'.contexts[k.kind], to, s'.workers[to]);
  }

  lemma MoveRefines(s: State, s': State, w: Identity, to: Identity, k: Key, todo: set<Key>)
    requires Refines(s, Dying(w, todo)) && w in s.workers && k in todo && s.Known(k)
    requires s.Request(k).vfs.Has(RetryOnDeath) && s.Request(k).tryCount < MAX_TRY_COUNT
    requires to in s.workers && to != w
    requires SentDirect(s, s', to, k, s.Request(k).vfs, s.Request(k).msg.GetOr([]),
                        Move(k, w, to, s.Request(k).msg.GetOr([])))
    ensures Refines(s', Dying(w, todo - {k}))
  {
    DyingJob(s, w, k, todo);
    var a := Replay(s.log).value;
    var r := s.Request(k);
    MoveJob(r, a.jobs[k], to);
    hide Represents;
    MoveReplays(s.log, k, w, to, r.vfs, a);
    hide Replay, JobAgrees;
    MovedRepresents(s, s', a, w, to, k, todo);
  }

  lemma MovedRepresents(s: State, s': State, a: Abs, w: Identity, to: Identity, k: Key, todo: set<Key>)
    requires Represents(s, a, Dying(w, todo)) && a.RunningAt(k, w) && s.Known(k)
    requires w in s.workers && to in s.workers && to != w
    requires SentDirect(s, s', to, k, s.Request(k).vfs, s.Request(k).msg.GetOr([]),
                        Move(k, w, to, s.Request(k).msg.GetOr([])))
    requires s.Request(k).msg == Some(a.jobs[k].msg)
    requires var r := s.Request(k);
             JobAgrees(Stored(r.(msg := None), r.vfs, a.jobs[k].msg), MovedJob(a.jobs[k], to, r.vfs))
    ensures Represents(s', a.(jobs := a.jobs[k := MovedJob(a.jobs[k], to, s.Request(k).vfs)]), Dying(w, todo - {k}))
  {
    hide JobAgrees;
    var r := s.Request(k);
    var a' := a.(jobs := a.jobs[k := MovedJob(a.jobs[k], to, r.vfs)]);
    MovedIsRunning(a.jobs[k], to, r.vfs);
    assert a.Queue(k.kind) == Ids(s.Pending(k.kind));
    assert s'.Request(k) == Stored(r.(msg := None), r.vfs, a.jobs[k].msg);
    hide Stored, MovedJob;
    MovedHolders(s, s', a, a', w, to, k, todo);
    OneContext(s, s', k, s'.contexts[k.kind]);
    Patch(s, s', a, a', k, Dying(w, todo), Dying(w, todo - {k}));
  }

  lemma MovedIsRunning(job: Job, to: Identity, vfs: VersionFlags)
    ensures MovedJob(job, to, vfs).where == Running(to)
  {
  }

  lemma MoveReplays(log: seq<Action>, k: Key, w: Identity, to: Identity, vfs: VersionFlags, a: Abs)
    requires Replay(log) == Some(a) && a.RunningAt(k, w) && MayRetry(a.jobs[k]) && to != w
    requires vfs.Has(ReceiptOnSend) ==> a.jobs[k].vfs.Has(ReceiptOnSend)
    ensures var msg := a.jobs[k].msg;
            Replay(log + [Move(k, w, to, msg)] + ReceiptFor(k, vfs, msg)) ==
              Some(a.(jobs := a.jobs[k := MovedJob(a.jobs[k], to, vfs)]))
  {
    var msg := a.jobs[k].msg;
    HandOverReplays(log, Move(k, w, to, msg), k, vfs, msg, a);
    var a1 := Apply(a, Move(k, w, to, msg));
    assert a1.jobs[k := AddReceipt(a1.jobs[k], vfs)] == a.jobs[k := AddReceipt(a1.jobs[k], vfs)];
  }

  lemma MovedHolders(
    s: State, s': State, a: Abs, a': Abs, w: Identity, to: Identity, k: Key, todo: set<Key>)
    requires HoldersAgree(s, a, Dying(w, todo)) && a.RunningAt(k, w)
    requires w in s.workers && to in s.workers && to != w
    requires s'.workers.Keys == s.workers.Keys && s'.workers[to].held == s.workers[to].held + {k}
    requires forall v :: v in s.workers && v != to ==> s'.workers[v] == s.workers[v]
    requires a'.jobs.Keys == a.jobs.Keys && a'.jobs[k].where == Running(to)
    requires forall other :: other in a.jobs && other != k ==> a'.jobs[other] == a.jobs[other]
    ensures HoldersAgree(s', a', Dying(w, todo - {k}))
  {
    forall other, v
      ensures other in HeldBy(s', v, Dying(w, todo - {k})) <==> a'.RunningAt(other, v)
    {
      assert other in HeldBy(s, v, Dying(w, todo)) <==> a.RunningAt(other, v);
    }
  }

  // ----- every request of a dead worker -----

  /** The last thing in a history that concerns a request. */
  function LastOf(log: seq<Action>, k: Key): Option<Action> {
    if log == [] then None
    else if log[|log| - 1].key == k then Some(log[|log| - 1])
    else LastOf(log[..|log| - 1], k)
  }

  lemma LastOne(log: seq<Action>, x: Action, k: Key)
    ensures LastOf(log + [x], k) == if x.key == k then Some(x) else LastOf(log, k)
  {
    assert (log + [x])[..|log + [x]| - 1] == log;
  }

  /** What concerns other requests. */
  lemma {:induction false} LastMore(log: seq<Action>, more: seq<Action>, k: Key)
    requires forall i :: 0 <= i < |more| ==> more[i].key != k
    ensures LastOf(log + more, k) == LastOf(log, k)
    decreases |more|
  {
    if more == [] {
      assert log + more == log;
    } else {
      LastMore(log, more[..|more| - 1], k);
      LastOne(log + more[..|more| - 1], more[|more| - 1], k);
      assert log + more == log + more[..|more| - 1] + [more[|more| - 1]];
    }
  }

  /** Settling some requests leaves the dead worker's record, who is registered, and every other
      request alone, its history too, and makes nobody available. */
  ghost predicate Aside(s: State, s': State, w: Identity, ks: set<Key>) {
    && s'.workers.Keys == s.workers.Keys
    && (w in s.workers ==> s'.workers[w] == s.workers[w])
    && (forall t :: s'.Available(t) <= s.Available(t))
    && (forall v :: v in s.workers ==> s.Held(v) <= s'.Held(v) && s'.Types(v) == s.Types(v))
    && (forall other :: other !in ks ==>
          && (s'.Known(other) <==> s.Known(other)) && (s.Known(other) ==> s'.Request(other) == s.Request(other))
          && LastOf(s'.log, other) == LastOf(s.log, other))
  }

  lemma WithdrawAside(s: State, w: Identity, n: nat)
    ensures var s' := Withdraw(s, w, n);
            s'.log == s.log && (forall k :: (s'.Known(k) <==> s.Known(k)) && (s.Known(k) ==> s'.Request(k) == s.Request(k)))
  {
    if n != 0 && n <= |s.Types(w)| {
      WithdrawAside(s, w, n - 1);
    }
  }

  /** Actions about one request leave the others' histories alone. */
  lemma LogAside(log: seq<Action>, more: seq<Action>, k: Key)
    requires forall i :: 0 <= i < |more| ==> more[i].key == k
    ensures forall other :: other != k ==> LastOf(log + more, other) == LastOf(log, other)
  {
    forall other | other != k
      ensures LastOf(log + more, other) == LastOf(log, other)
    {
      LastMore(log, more, other);
    }
  }

  lemma DirectAside(env: Env, s: State, w: Identity, to: Identity, k: Key, msg: Message, action: Action)
    requires s.Known(k) && to != w && action.key == k
    ensures Aside(s, ForwardDirect(env, s, to, k, s.Request(k).vfs, msg, action).state, w, {k})
  {
    var s' := ForwardDirect(env, s, to, k, s.Request(k).vfs, msg, action).state;
    if to in s.workers && env.request(s.sends) {
      ForwardDirectIs(env, s, to, k, s.Request(k).vfs, msg, action);
      hide ForwardDirect, LastOf;
      OneContext(s, s', k, s'.contexts[k.kind]);
      LogAside(s.log, [action] + ReceiptFor(k, s.Request(k).vfs, msg), k);
      assert s'.log == s.log + ([action] + ReceiptFor(k, s.Request(k).vfs, msg));
    }
  }

  /** What becomes of one request of a dead worker. */
  predicate Retryable(r: RequestState) {
    r.vfs.Has(RetryOnDeath) && r.tryCount < MAX_TRY_COUNT
  }

  predicate Abandoned(r: RequestState) {
    r.vfs.Has(RetryOnDeath) && !Retryable(r) && !r.vfs.Has(NotifyOnDeath)
  }

  ghost predicate Fate(r: RequestState, s': State, w: Identity, k: Key) {
    if Retryable(r) then
      && s'.Known(k) && s'.Request(k).tryCount == r.tryCount
      && (s'.Request(k).vfs == r.vfs || s'.Request(k).vfs == r.vfs.Without(ReceiptOnSend))
      && (s'.Request(k).place.Queued? || exists v :: v != w && v in s'.workers && k in s'.workers[v].held)
    else if Abandoned(r) then
      s'.Known(k) && s'.Request(k) == r
    else
      !s'.Known(k) && LastOf(s'.log, k) == Some(Fail(k, w, NoticeOf(r, NotifyOnDeath)))
  }

  /** A direct retry that goes out while the send receipt it owes again does not. */
  predicate MoveReceiptLost(env: Env, s: State, k: Key) {
    && s.Known(k) && Retryable(s.Request(k)) && s.Available(k.kind) != {}
    && s.Request(k).vfs.Has(ReceiptOnSend) && env.request(s.sends) && !env.receipt(s.sends + 1)
  }

  /** Settling these requests in this order, no direct retry loses the receipt it owes. */
  predicate SettleAllSafe(env: Env, s: State, w: Identity, t: RequestType, ids: seq<RequestId>)
    decreases |ids|
  {
    ids != [] ==>
      && !MoveReceiptLost(env, s, Key(t, ids[0]))
      && SettleAllSafe(env, Settle(env, s, w, Key(t, ids[0])), w, t, ids[1..])
  }

  lemma SettleAgrees(env: Env, s: State, w: Identity, k: Key, todo: set<Key>)
    requires Fair(env) && !MoveReceiptLost(env, s, k)
    requires Inv(s, Dying(w, todo)) && w in s.workers && k in todo && w !in s.Available(k.kind)
    ensures Inv(Settle(env, s, w, k), Dying(w, todo - {k}))
  {
    DyingJob(s, w, k, todo);
    if Retryable(s.Request(k)) {
      RetryAgrees(env, s, w, k, todo);
    } else if Abandoned(s.Request(k)) {
      StrandAgrees(s, w, k, todo);
    } else {
      FailAgrees(s, w, k, todo);
    }
  }

  lemma RetryAgrees(env: Env, s: State, w: Identity, k: Key, todo: set<Key>)
    requires Fair(env) && !MoveReceiptLost(env, s, k)
    requires Inv(s, Dying(w, todo)) && w in s.workers && k in todo && w !in s.Available(k.kind)
    requires s.Known(k) && Retryable(s.Request(k))
    ensures Inv(Settle(env, s, w, k), Dying(w, todo - {k}))
  {
    hide Inv;
    var r := s.Request(k);
    var msg := r.msg.GetOr([]);
    if s.Available(k.kind) == {} {
      RequeueAgrees(s, w, k, todo);
    } else {
      AvailableKnown(s, Dying(w, todo));
      PickedSupports(env, s, k.kind);
      var to := env.pick(s.sends, s.Available(k.kind));
      var out := ForwardDirect(env, s, to, k, r.vfs, msg, Move(k, w, to, msg));
      if env.request(s.sends) {
        MoveAgrees(env, s, w, to, k, todo);
        ForwardDirectIs(env, s, to, k, r.vfs, msg, Move(k, w, to, msg));
        WithdrawAgrees(out.state, to, |out.state.Types(to)|, Dying(w, todo - {k}));
      } else {
        Unaffected(s, out.state, Dying(w, todo));
        RequeueAgrees(out.state, w, k, todo);
      }
    }
  }

  lemma SettleAside(env: Env, s: State, w: Identity, k: Key)
    requires Fair(env) && s.Known(k) && w !in s.Available(k.kind)
    ensures Aside(s, Settle(env, s, w, k), w, {k})
  {
    var r := s.Request(k);
    if Retryable(r) {
      var msg := r.msg.GetOr([]);
      if s.Available(k.kind) == {} {
        RequeueAside(s, w, k, [Requeue(k, w)]);
      } else {
        var to := env.pick(s.sends, s.Available(k.kind));
        assert to in s.Available(k.kind);
        var out := ForwardDirect(env, s, to, k, r.vfs, msg, Move(k, w, to, msg));
        DirectAside(env, s, w, to, k, msg, Move(k, w, to, msg));
        if out.ok {
          WithdrawAside(out.state, to, |out.state.Types(to)|);
        } else {
          RequeueAside(out.state, w, k, if env.request(s.sends) then [] else [Requeue(k, w)]);
        }
      }
    } else if !Abandoned(r) {
      OneContext(s, Settle(env, s, w, k), k, s.contexts[k.kind].RemoveInProgressRequest(k.id));
      LogAside(s.log, [Fail(k, w, NoticeOf(r, NotifyOnDeath))], k);
    } else {
      LogAside(s.log, [Strand(k, w)], k);
    }
  }

  lemma RequeueAside(s: State, w: Identity, k: Key, actions: seq<Action>)
    requires forall i :: 0 <= i < |actions| ==> actions[i].key == k
    ensures Aside(s, BackToPending(s, k, actions), w, {k})
  {
    if s.Known(k) {
      LogAside(s.log, actions, k);
      OneContext(s, BackToPending(s, k, actions), k, s.contexts[k.kind].BackToPending(k.id));
    }
  }

  /** Settling one request decides its fate. */
  lemma SettleFate(env: Env, s: State, w: Identity, k: Key)
    requires Fair(env) && !MoveReceiptLost(env, s, k) && AvailableAgrees(s)
    requires s.Known(k) && w !in s.Available(k.kind)
    ensures Fate(s.Request(k), Settle(env, s, w, k), w, k)
  {
    var r := s.Request(k);
    if Retryable(r) && s.Available(k.kind) != {} {
      var msg := r.msg.GetOr([]);
      PickedSupports(env, s, k.kind);
      var to := env.pick(s.sends, s.Available(k.kind));
      if env.request(s.sends) {
        ForwardDirectIs(env, s, to, k, r.vfs, msg, Move(k, w, to, msg));
        var out := ForwardDirect(env, s, to, k, r.vfs, msg, Move(k, w, to, msg));
        WithdrawAside(out.state, to, |out.state.Types(to)|);
        var s' := Settle(env, s, w, k);
        assert to != w && to in s'.workers && k in s'.workers[to].held;
      }
    } else if !Retryable(r) && !Abandoned(r) {
      LastOne(s.log, Fail(k, w, NoticeOf(r, NotifyOnDeath)), k);
    }
  }

  lemma AsideTwice(s: State, s1: State, s2: State, w: Identity, ks: set<Key>, more: set<Key>)
    requires Aside(s, s1, w, ks) && Aside(s1, s2, w, more)
    ensures Aside(s, s2, w, ks + more)
  {
  }

  lemma FateStays(r: RequestState, s1: State, s2: State, w: Identity, k: Key, ks: set<Key>)
    requires Fate(r, s1, w, k) && Aside(s1, s2, w, ks) && k !in ks
    ensures Fate(r, s2, w, k)
  {
    forall v | v in s1.workers && k in s1.workers[v].held
      ensures v in s2.workers && k in s2.workers[v].held
    {
      assert s1.Held(v) <= s2.Held(v);
    }
  }

  function KeysOf(t: RequestType, ids: seq<RequestId>): set<Key> {
    set id | id in ids :: Key(t, id)
  }

  /** A dead worker's requests of one type are settled one after the other. */
  lemma {:induction false} SettleAllAgrees(
    env: Env, s: State, w: Identity, t: RequestType, ids: seq<RequestId>, todo: set<Key>)
    requires Fair(env) && SettleAllSafe(env, s, w, t, ids)
    requires Inv(s, Dying(w, todo)) && w in s.workers && w !in s.Available(t)
    requires Distinct(ids) && KeysOf(t, ids) <= todo
    ensures var s' := SettleAll(env, s, w, t, ids);
            && Inv(s', Dying(w, todo - KeysOf(t, ids)))
            && Aside(s, s', w, KeysOf(t, ids))
            && (forall k :: k in KeysOf(t, ids) ==> s.Known(k) && Fate(s.Request(k), s', w, k))
    decreases |ids|
  {
    hide Inv, Aside, Fate;
    if ids == [] {
      assert KeysOf(t, ids) == {};
      assert todo - KeysOf(t, ids) == todo;
      AsideSame(s, w);
    } else {
      var k := Key(t, ids[0]);
      assert k in KeysOf(t, ids);
      var s1 := Settle(env, s, w, k);
      SettledOne(env, s, w, k, todo);
      KeysOfTail(t, ids);
      SettleAllAgrees(env, s1, w, t, ids[1..], todo - {k});
      assert todo - {k} - KeysOf(t, ids[1..]) == todo - KeysOf(t, ids);
      SettledRest(s, s1, SettleAll(env, s1, w, t, ids[1..]), w, k, KeysOf(t, ids[1..]));
    }
  }

  lemma AsideSame(s: State, w: Identity)
    ensures Aside(s, s, w, {})
  {
  }

  lemma KeysOfTail(t: RequestType, ids: seq<RequestId>)
    requires ids != [] && Distinct(ids)
    ensures KeysOf(t, ids) == {Key(t, ids[0])} + KeysOf(t, ids[1..])
    ensures Key(t, ids[0]) !in KeysOf(t, ids[1..]) && Distinct(ids[1..])
  {
    assert ids == [ids[0]] + ids[1..];
  }

  lemma SettledOne(env: Env, s: State, w: Identity, k: Key, todo: set<Key>)
    requires Fair(env) && !MoveReceiptLost(env, s, k)
    requires Inv(s, Dying(w, todo)) && w in s.workers && k in todo && w !in s.Available(k.kind)
    ensures var s' := Settle(env, s, w, k);
            && Inv(s', Dying(w, todo - {k})) && s.Known(k)
            && Aside(s, s', w, {k}) && Fate(s.Request(k), s', w, k)
            && w in s'.workers && w !in s'.Available(k.kind)
  {
    DyingJob(s, w, k, todo);
    AvailableKnown(s, Dying(w, todo));
    hide Inv;
    SettleAgrees(env, s, w, k, todo);
    SettleAside(env, s, w, k);
    SettleFate(env, s, w, k);
  }

  lemma SettledRest(s: State, s1: State, s2: State, w: Identity, k: Key, ks: set<Key>)
    requires s.Known(k) && Aside(s, s1, w, {k}) && Fate(s.Request(k), s1, w, k) && k !in ks
    requires Aside(s1, s2, w, ks)
    requires forall other :: other in ks ==> s1.Known(other) && Fate(s1.Request(other), s2, w, other)
    ensures Aside(s, s2, w, {k} + ks)
    ensures forall other :: other in {k} + ks ==> s.Known(other) && Fate(s.Request(other), s2, w, other)
  {
    AsideTwice(s, s1, s2, w, {k}, ks);
    hide Fate;
    FateStays(s.Request(k), s1, s2, w, k, ks);
  }

  // ----- the whole death -----

  /** The requests of the types a dead worker has not left yet. */
  function Unsettled(s: State, w: Identity, i: nat): set<Key>
    requires i <= |s.Types(w)|
  {
    set k | k in s.Held(w) && k.kind in s.Types(w)[i..]
  }

  function Leave(s: State, w: Identity, t: RequestType): State
    requires t in s.contexts
  {
    s.WithContext(t, s.contexts[t].DecrementNumWorkers().RemoveAvailableWorker(w))
  }

  /** The same of everything the dead worker holds of its types from the i-th on. */
  predicate DeadSafe(env: Env, s: State, w: Identity, i: nat)
    decreases |s.Types(w)| - i
  {
    i < |s.Types(w)| ==>
      var t := s.Types(w)[i];
      if t !in s.contexts then DeadSafe(env, s, w, i + 1)
      else
        var ids := env.order(s.At(), w, t, HeldIds(s, w, t));
        SettleAllSafe(env, Leave(s, w, t), w, t, ids)
        && DeadSafe(env, SettleAll(env, Leave(s, w, t), w, t, ids), w, i + 1)
  }

  lemma LeaveAgrees(s: State, w: Identity, t: RequestType, x: Transit)
    requires Inv(s, x) && t in s.contexts
    ensures Inv(Leave(s, w, t), x) && Aside(s, Leave(s, w, t), w, {}) && w !in Leave(s, w, t).Available(t)
  {
    var c := s.contexts[t].DecrementNumWorkers().RemoveAvailableWorker(w);
    LeaveAside(s, w, t);
    Reshelved(s, Leave(s, w, t), t, c, x);
  }

  lemma LeaveAside(s: State, w: Identity, t: RequestType)
    requires t in s.contexts
    ensures Aside(s, Leave(s, w, t), w, {})
  {
  }

  ghost predicate LeftUpTo(s: State, w: Identity, i: nat) {
    forall j :: 0 <= j < i && j < |s.Types(w)| ==> w !in s.Available(s.Types(w)[j])
  }

  lemma {:induction false} DeadWorkerAgrees(env: Env, s: State, w: Identity, i: nat)
    requires w in s.workers && i <= |s.Types(w)| && Distinct(s.Types(w)) && LeftUpTo(s, w, i)
    requires Fair(env) && DeadSafe(env, s, w, i)
    requires Inv(s, Dying(w, Unsettled(s, w, i)))
    ensures var s' := DeadWorker(env, s, w, i);
            && Inv(s', Dying(w, {})) && LeftUpTo(s', w, |s.Types(w)|)
            && Aside(s, s', w, Unsettled(s, w, i))
            && (forall k :: k in Unsettled(s, w, i) ==> s.Known(k) && Fate(s.Request(k), s', w, k))
    decreases |s.Types(w)| - i
  {
    hide Inv, Aside, Fate, LeftUpTo, Distinct;
    if i == |s.Types(w)| {
      assert Unsettled(s, w, i) == {};
      AsideSame(s, w);
    } else if s.Types(w)[i] !in s.contexts {
      UnknownTypeSettled(s, w, i);
      DeadWorkerAgrees(env, s, w, i + 1);
    } else {
      var t := s.Types(w)[i];
      var ids := env.order(s.At(), w, t, HeldIds(s, w, t));
      var s2 := SettleAll(env, Leave(s, w, t), w, t, ids);
      TypeSettled(env, s, w, i);
      assert Unsettled(s, w, i) - KeysOf(t, ids) == Unsettled(s2, w, i + 1);
      DeadWorkerAgrees(env, s2, w, i + 1);
      SettledTypes(s, s2, DeadWorker(env, s2, w, i + 1), w, KeysOf(t, ids), Unsettled(s2, w, i + 1));
    }
  }

  lemma UnknownTypeSettled(s: State, w: Identity, i: nat)
    requires w in s.workers && i < |s.Types(w)| && LeftUpTo(s, w, i)
    requires Inv(s, Dying(w, Unsettled(s, w, i))) && s.Types(w)[i] !in s.contexts
    ensures Unsettled(s, w, i) == Unsettled(s, w, i + 1) && LeftUpTo(s, w, i + 1)
  {
    forall k | k in Unsettled(s, w, i)
      ensures k.kind != s.Types(w)[i]
    {
      DyingJob(s, w, k, Unsettled(s, w, i));
    }
    assert s.Types(w)[i..] == [s.Types(w)[i]] + s.Types(w)[i + 1..];
  }

  lemma TypeSettled(env: Env, s: State, w: Identity, i: nat)
    requires w in s.workers && i < |s.Types(w)| && Distinct(s.Types(w)) && LeftUpTo(s, w, i)
    requires Fair(env) && Inv(s, Dying(w, Unsettled(s, w, i))) && s.Types(w)[i] in s.contexts
    requires var t := s.Types(w)[i];
             SettleAllSafe(env, Leave(s, w, t), w, t, env.order(s.At(), w, t, HeldIds(s, w, t)))
    ensures var t := s.Types(w)[i];
            var ids := env.order(s.At(), w, t, HeldIds(s, w, t));
            var s2 := SettleAll(env, Leave(s, w, t), w, t, ids);
            && Inv(s2, Dying(w, Unsettled(s2, w, i + 1)))
            && w in s2.workers && s2.workers[w] == s.workers[w]
            && LeftUpTo(s2, w, i + 1) && Aside(s, s2, w, KeysOf(t, ids))
            && (forall k :: k in KeysOf(t, ids) ==> s.Known(k) && Fate(s.Request(k), s2, w, k))
            && Unsettled(s, w, i) == KeysOf(t, ids) + Unsettled(s2, w, i + 1)
            && KeysOf(t, ids) !! Unsettled(s2, w, i + 1)
  {
    hide Inv, Fate;
    var t := s.Types(w)[i];
    var ids := env.order(s.At(), w, t, HeldIds(s, w, t));
    assert Lists(ids, HeldIds(s, w, t));
    var todo := Unsettled(s, w, i);
    UnsettledSplit(s, w, i, ids);
    LeaveAgrees(s, w, t, Dying(w, todo));
    var s1 := Leave(s, w, t);
    SettleAllAgrees(env, s1, w, t, ids, todo);
    var s2 := SettleAll(env, s1, w, t, ids);
    AsideTwice(s, s1, s2, w, {}, KeysOf(t, ids));
    assert {} + KeysOf(t, ids) == KeysOf(t, ids);
    assert Unsettled(s2, w, i + 1) == Unsettled(s, w, i + 1);
    assert todo - KeysOf(t, ids) == Unsettled(s, w, i + 1);
  }

  lemma UnsettledSplit(s: State, w: Identity, i: nat, ids: seq<RequestId>)
    requires w in s.workers && i < |s.Types(w)| && Distinct(s.Types(w))
    requires Lists(ids, HeldIds(s, w, s.Types(w)[i]))
    ensures Unsettled(s, w, i) == KeysOf(s.Types(w)[i], ids) + Unsettled(s, w, i + 1)
    ensures KeysOf(s.Types(w)[i], ids) !! Unsettled(s, w, i + 1) && Distinct(ids)
  {
    var t := s.Types(w)[i];
    assert s.Types(w)[i..] == [t] + s.Types(w)[i + 1..];
    forall k | k in Unsettled(s, w, i) && k.kind == t
      ensures k in KeysOf(t, ids)
    {
      assert k.id in HeldIds(s, w, t);
      assert k == Key(t, k.id);
    }
    forall k | k in KeysOf(t, ids)
      ensures k in Unsettled(s, w, i) && k.kind == t
    {
      assert k.id in HeldIds(s, w, t);
    }
  }

  lemma SettledTypes(s: State, s1: State, s2: State, w: Identity, ks: set<Key>, more: set<Key>)
    requires Aside(s, s1, w, ks) && Aside(s1, s2, w, more) && ks !! more
    requires forall k :: k in ks ==> s.Known(k) && Fate(s.Request(k), s1, w, k)
    requires forall k :: k in more ==> s1.Known(k) && Fate(s1.Request(k), s2, w, k)
    ensures Aside(s, s2, w, ks + more)
    ensures forall k :: k in ks + more ==> s.Known(k) && Fate(s.Request(k), s2, w, k)
  {
    AsideTwice(s, s1, s2, w, ks, more);
    hide Fate;
    forall k | k in ks
      ensures Fate(s.Request(k), s2, w, k)
    {
      FateStays(s.Request(k), s1, s2, w, k, more);
    }
  }

  /** With nothing left to settle, the dead worker's record goes without leaving a reference behind. */
  lemma RemoveWorkerAgrees(s: State, w: Identity)
    requires Inv(s, Dying(w, {})) && w in s.workers && LeftUpTo(s, w, |s.Types(w)|)
    ensures Inv(RemoveWorker(s, w), Settled)
  {
    var s' := RemoveWorker(s, w);
    forall t | t in s.contexts
      ensures w !in s.contexts[t].available
    {
      if t in s.Types(w) {
        var j :| 0 <= j < |s.Types(w)| && s.Types(w)[j] == t;
        assert w !in s.Available(s.Types(w)[j]);
      }
    }
    RemovedRefines(s, w);
  }

  lemma RemovedRefines(s: State, w: Identity)
    requires Refines(s, Dying(w, {}))
    ensures Refines(RemoveWorker(s, w), Settled)
  {
    var s' := RemoveWorker(s, w);
    var a := Replay(s.log).value;
    forall k, v
      ensures k in HeldBy(s', v, Settled) <==> a.RunningAt(k, v)
    {
      assert k in HeldBy(s, v, Dying(w, {})) <==> a.RunningAt(k, v);
    }
    assert Represents(s', a, Settled);
  }

  /** A worker is removed: the tables agree again, each request it held has met its fate, and every
      other request is untouched. */
  lemma DeathAgrees(env: Env, s: State, w: Identity)
    requires Fair(env) && DeadSafe(env, s, w, 0) && Inv(s, Settled) && w in s.workers
    ensures var s' := RemoveWorker(DeadWorker(env, s, w, 0), w);
            && Inv(s', Settled) && s'.workers.Keys == s.workers.Keys - {w}
            && (forall k :: k in s.Held(w) ==> s.Known(k) && Fate(s.Request(k), s', w, k))
            && (forall k :: k !in s.Held(w) ==>
                  (s'.Known(k) <==> s.Known(k)) && (s.Known(k) ==> s'.Request(k) == s.Request(k)))
  {
    hide Inv, Aside, Fate;
    DeathBegins(s, w);
    DeadWorkerAgrees(env, s, w, 0);
    var s1 := DeadWorker(env, s, w, 0);
    RemovedAside(s, s1, w);
    RemoveWorkerAgrees(s1, w);
  }

  lemma RemovedAside(s: State, s1: State, w: Identity)
    requires w in s.workers && Aside(s, s1, w, s.Held(w))
    requires forall k :: k in s.Held(w) ==> s.Known(k) && Fate(s.Request(k), s1, w, k)
    ensures var s' := RemoveWorker(s1, w);
            && w in s1.workers && s1.Types(w) == s.Types(w) && s'.workers.Keys == s.workers.Keys - {w}
            && (forall k :: k in s.Held(w) ==> s.Known(k) && Fate(s.Request(k), s', w, k))
            && (forall k :: k !in s.Held(w) ==>
                  (s'.Known(k) <==> s.Known(k)) && (s.Known(k) ==> s'.Request(k) == s.Request(k)))
  {
    var s' := RemoveWorker(s1, w);
    forall k | k in s.Held(w)
      ensures Fate(s.Request(k), s', w, k)
    {
      assert Fate(s.Request(k), s1, w, k);
      FateRemoved(s.Request(k), s1, w, k);
    }
  }

  lemma FateRemoved(r: RequestState, s: State, w: Identity, k: Key)
    requires Fate(r, s, w, k)
    ensures Fate(r, RemoveWorker(s, w), w, k)
  {
    forall v | v != w && v in s.workers && k in s.workers[v].held
      ensures v in RemoveWorker(s, w).workers && k in RemoveWorker(s, w).workers[v].held
    {
    }
  }

  lemma DeathBegins(s: State, w: Identity)
    requires Inv(s, Settled) && w in s.workers
    ensures Unsettled(s, w, 0) == s.Held(w) && Distinct(s.Types(w)) && LeftUpTo(s, w, 0)
    ensures Inv(s, Dying(w, Unsettled(s, w, 0)))
  {
    assert InfoAgrees(s.workers[w]);
    assert s.Types(w)[0..] == s.Types(w);
    assert Unsettled(s, w, 0) == s.Held(w);
    assert forall v :: HeldBy(s, v, Dying(w, s.Held(w))) == HeldBy(s, v, Settled);
    DeathBeginsRefines(s, w);
  }

  lemma DeathBeginsRefines(s: State, w: Identity)
    requires Refines(s, Settled) && w in s.workers
    ensures Refines(s, Dying(w, s.Held(w)))
  {
    var a := Replay(s.log).value;
    forall k, v
      ensures k in HeldBy(s, v, Dying(w, s.Held(w))) <==> a.RunningAt(k, v)
    {
      assert k in HeldBy(s, v, Settled) <==> a.RunningAt(k, v);
    }
    assert Represents(s, a, Dying(w, s.Held(w)));
  }

  // ----- a whole check -----

  /** The same of every worker the check finds dead. */
  predicate PulseSafe(env: Env, s: State, ws: seq<Identity>, deathDelay: int)
    decreases |ws|
  {
    ws != [] ==>
      if ws[0] !in s.workers || s.workers[ws[0]].IsAliveAsOf(s.now, deathDelay) then
        PulseSafe(env, s, ws[1..], deathDelay)
      else
        DeadSafe(env, s, ws[0], 0)
        && PulseSafe(env, RemoveWorker(DeadWorker(env, s, ws[0], 0), ws[0]), ws[1..], deathDelay)
  }

  /** While receipts get out there is nothing to lose. */
  lemma {:induction false} SettleAllCovered(env: Env, s: State, w: Identity, t: RequestType, ids: seq<RequestId>)
    requires ReceiptsSent(env)
    ensures SettleAllSafe(env, s, w, t, ids)
    decreases |ids|
  {
    if ids != [] {
      SettleAllCovered(env, Settle(env, s, w, Key(t, ids[0])), w, t, ids[1..]);
    }
  }

  lemma {:induction false} DeadCovered(env: Env, s: State, w: Identity, i: nat)
    requires ReceiptsSent(env)
    ensures DeadSafe(env, s, w, i)
    decreases |s.Types(w)| - i
  {
    hide SettleAll, SettleAllSafe;
    if i < |s.Types(w)| {
      var t := s.Types(w)[i];
      if t !in s.contexts {
        DeadCovered(env, s, w, i + 1);
      } else {
        var ids := env.order(s.At(), w, t, HeldIds(s, w, t));
        SettleAllCovered(env, Leave(s, w, t), w, t, ids);
        DeadCovered(env, SettleAll(env, Leave(s, w, t), w, t, ids), w, i + 1);
      }
    }
  }

  lemma {:induction false} PulseCovered(env: Env, s: State, ws: seq<Identity>, deathDelay: int)
    requires ReceiptsSent(env)
    ensures PulseSafe(env, s, ws, deathDelay)
    decreases |ws|
  {
    hide DeadSafe, DeadWorker;
    if ws != [] {
      if ws[0] !in s.workers || s.workers[ws[0]].IsAliveAsOf(s.now, deathDelay) {
        PulseCovered(env, s, ws[1..], deathDelay);
      } else {
        DeadCovered(env, s, ws[0], 0);
        PulseCovered(env, RemoveWorker(DeadWorker(env, s, ws[0], 0), ws[0]), ws[1..], deathDelay);
      }
    }
  }

  lemma {:induction false} PulseAgrees(env: Env, s: State, ws: seq<Identity>, deathDelay: int)
    requires Fair(env) && PulseSafe(env, s, ws, deathDelay) && Inv(s, Settled)
    ensures Inv(PulseFrom(env, s, ws, deathDelay), Settled)
    decreases |ws|
  {
    hide Inv, Fate, DeadSafe;
    if ws != [] {
      if ws[0] !in s.workers || s.workers[ws[0]].IsAliveAsOf(s.now, deathDelay) {
        PulseAgrees(env, s, ws[1..], deathDelay);
      } else {
        DeathAgrees(env, s, ws[0]);
        PulseAgrees(env, RemoveWorker(DeadWorker(env, s, ws[0], 0), ws[0]), ws[1..], deathDelay);
      }
    }
  }
}

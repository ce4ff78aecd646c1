/** A worker becoming ready or finishing a request keeps the tables in agreement, whatever sends fail. */
module Workers {
  import opened Wrappers
  import opened Cluster
  import opened RequestContexts
  import opened Scheduler
  import opened AbstractScheduler
  import opened Agreement
  import opened Forwarding
  import opened Requests

  lemma ForwardHeadAgrees(env: Env, s: State, w: Identity, t: RequestType, x: Transit)
    requires Inv(s, x) && w in s.workers && t in s.workers[w].types && s.Pending(t) != []
    requires !x.Dying?
    ensures Inv(ForwardQueued(env, s, w, Key(t, s.Pending(t)[0].id)).state, x)
  {
    hide Inv;
    ForwardQueuedAgrees(env, s, w, Key(t, s.Pending(t)[0].id), x);
  }

  /** All that can happen when a worker's i-th type is visited and its first request sent. */
  lemma VisitAgrees(env: Env, s: State, w: Identity, i: nat, x: Transit)
    requires Inv(s, x) && w in s.workers && i < |s.Types(w)| && !x.Dying?
    requires s.Pending(s.Types(w)[i]) != []
    ensures var t := s.Types(w)[i];
            var s1 := ForwardQueued(env, s, w, Key(t, s.Pending(t)[0].id)).state;
            Inv(s1, x) && Inv(AddAvailable(s1, t, w), x)
            && Inv(Withdraw(s1, w, i), x) && Inv(Withdraw(s1, w, i + 1), x)
  {
    hide Inv;
    var t := s.Types(w)[i];
    var s1 := ForwardQueued(env, s, w, Key(t, s.Pending(t)[0].id)).state;
    ForwardHeadAgrees(env, s, w, t, x);
    ShelvedAgrees(s1, w, i, x);
  }

  lemma ShelvedAgrees(s: State, w: Identity, i: nat, x: Transit)
    requires Inv(s, x) && w in s.workers && i < |s.Types(w)|
    ensures Inv(AddAvailable(s, s.Types(w)[i], w), x)
    ensures Inv(Withdraw(s, w, i), x) && Inv(Withdraw(s, w, i + 1), x)
  {
    hide Inv;
    AddAvailableAgrees(s, s.Types(w)[i], w, x);
    WithdrawAgrees(s, w, i, x);
    WithdrawAgrees(s, w, i + 1, x);
  }

  // ----- the sweeps -----

  lemma SweepVisitAgrees(env: Env, s: State, w: Identity, i: nat, more: bool)
    requires Inv(s, Settled) && w in s.workers && i < |s.Types(w)|
    ensures Inv(SweepVisit(env, s, w, i, more).state, Settled)
  {
    hide Inv;
    if s.Pending(s.Types(w)[i]) != [] {
      VisitAgrees(env, s, w, i, Settled);
    }
  }

  lemma {:induction false} SweepAgrees(env: Env, s: State, w: Identity, i: nat, more: bool)
    requires Inv(s, Settled) && w in s.workers
    ensures Inv(Sweep(env, s, w, i, more).0, Settled)
    decreases |s.Types(w)| - i
  {
    hide Inv;
    if i < |s.Types(w)| {
      SweepVisitAgrees(env, s, w, i, more);
      var v := SweepVisit(env, s, w, i, more);
      if !v.stop {
        SweepAgrees(env, v.state, w, i + 1, v.more);
      }
    }
  }

  lemma {:induction false} RoundsAgree(env: Env, s: State, w: Identity, more: bool)
    requires Inv(s, Settled) && w in s.workers
    ensures Inv(Rounds(env, s, w, more), Settled)
    decreases if more then 1 else 0, s.FreeCapacity(w)
  {
    hide Inv;
    if s.FreeCapacity(w) > 0 && more {
      SweepAgrees(env, s, w, 0, false);
      var round := Sweep(env, s, w, 0, false);
      if round.1 {
        RoundsAgree(env, round.0, w, true);
      }
    }
  }

  // ----- a new worker -----

  /** A worker is registered holding nothing and available for nothing. */
  lemma RegisteredAgrees(s: State, s': State, w: Identity, info: Info)
    requires Inv(s, Settled) && w !in s.workers
    requires s'.contexts == s.contexts && s'.workers == s.workers[w := info] && s'.log == s.log
    requires info.held == {} && Distinct(info.types)
    requires info.freeCapacity == info.advertised && info.strays == 0
    ensures Inv(s', Settled)
  {
    assert InfoAgrees(info);
    assert TablesAgree(s');
    FrameRefines(s, s', Settled);
  }

  lemma FreshContextAgrees(s: State, s': State, t: RequestType, c: Context, x: Transit)
    requires Inv(s, x) && t !in s.contexts
    requires s'.contexts == s.contexts[t := c] && s'.workers == s.workers && s'.log == s.log
    requires c.requests == map[] && c.pending == []
    requires forall w :: w in c.available ==> w in s.workers && t in s.workers[w].types
    ensures Inv(s', x)
  {
    FreshTables(s, s', t, c);
    FreshRefines(s, s', t, c, x);
  }

  lemma FreshTables(s: State, s': State, t: RequestType, c: Context)
    requires TablesAgree(s) && t !in s.contexts
    requires s'.contexts == s.contexts[t := c] && s'.workers == s.workers
    requires c.requests == map[] && c.pending == []
    requires forall w :: w in c.available ==> w in s.workers && t in s.workers[w].types
    ensures TablesAgree(s')
  {
    assert ListAgrees(c);
  }

  lemma FreshRefines(s: State, s': State, t: RequestType, c: Context, x: Transit)
    requires Refines(s, x) && t !in s.contexts
    requires s'.contexts == s.contexts[t := c] && s'.workers == s.workers && s'.log == s.log
    requires c.requests == map[] && c.pending == []
    ensures Refines(s', x)
  {
    FrameRefines(s, s', x);
  }

  lemma CountedAgrees(s: State, t: RequestType)
    requires Inv(s, Settled) && t in s.contexts
    ensures Inv(s.WithContext(t, s.contexts[t].IncrementNumWorkers()), Settled)
  {
    var c := s.contexts[t].IncrementNumWorkers();
    Reshelved(s, s.WithContext(t, c), t, c, Settled);
  }

  lemma NewWorkerVisitAgrees(env: Env, s: State, w: Identity, i: nat, more: bool)
    requires Inv(s, Settled) && w in s.workers && i < |s.Types(w)|
    ensures Inv(NewWorkerVisit(env, s, w, i, more).state, Settled)
  {
    hide Inv;
    var t := s.Types(w)[i];
    if t in s.contexts {
      CountedAgrees(s, t);
      NewWorkerServedAgrees(env, s.WithContext(t, s.contexts[t].IncrementNumWorkers()), w, i, more);
    } else {
      var c := NewContext().IncrementNumWorkers();
      FreshContextAgrees(s, NewWorkerVisit(env, s, w, i, more).state, t,
        if s.FreeCapacity(w) > 0 then c.AddAvailableWorker(w) else c, Settled);
    }
  }

  lemma NewWorkerServedAgrees(env: Env, s: State, w: Identity, i: nat, more: bool)
    requires Inv(s, Settled) && w in s.workers && i < |s.Types(w)|
    ensures Inv(NewWorkerServed(env, s, w, i, more).state, Settled)
  {
    hide Inv;
    ShelvedAgrees(s, w, i, Settled);
    if s.Pending(s.Types(w)[i]) != [] {
      VisitAgrees(env, s, w, i, Settled);
    }
  }

  lemma {:induction false} NewWorkerPassAgrees(env: Env, s: State, w: Identity, i: nat, more: bool)
    requires Inv(s, Settled) && w in s.workers
    ensures Inv(NewWorkerPass(env, s, w, i, more).0, Settled)
    decreases |s.Types(w)| - i
  {
    hide Inv;
    if i < |s.Types(w)| {
      NewWorkerVisitAgrees(env, s, w, i, more);
      var v := NewWorkerVisit(env, s, w, i, more);
      NewWorkerPassAgrees(env, v.state, w, i + 1, v.more);
    }
  }

  lemma ReadyAgrees(
    env: Env, s: State, w: Identity, capacity: int, types: seq<RequestType>, delay: int)
    requires Inv(s, Settled) && (Enrols(s, w, capacity, types) ==> Distinct(types))
    ensures Inv(HandleWorkerReady(env, s, w, capacity, types, delay), Settled)
  {
    hide Inv;
    if Enrols(s, w, capacity, types) {
      var info := Info(capacity, types, {}, s.now, s.now, delay, capacity, 0);
      var s1 := s.WithWorker(w, info);
      RegisteredAgrees(s, s1, w, info);
      NewWorkerPassAgrees(env, s1, w, 0, false);
      var pass := NewWorkerPass(env, s1, w, 0, false);
      RoundsAgree(env, pass.0, w, pass.1);
    }
  }

  // ----- a finished request -----

  /** What a finish may name: a request this worker holds, or one the broker does not have in its
      lists or in another worker's hands. */
  predicate FinishSafe(s: State, w: Identity, k: Key) {
    w in s.workers ==> k in s.Held(w) || !s.Known(k) || Stranded(s, k)
  }

  ghost predicate Released(s: State, s': State, w: Identity, k: Key)
    requires w in s.workers
  {
    && s'.contexts == s.contexts
    && s'.workers == s.workers[w := s.workers[w].RemoveInProgressRequest(k).(workerLastActive := s.now)]
    && s'.log == s.log + FinishActions(s, w, k)
  }

  lemma ReleasedTables(s: State, s': State, w: Identity, k: Key)
    requires TablesAgree(s) && w in s.workers && Released(s, s', w, k)
    ensures TablesAgree(s')
  {
    assert InfoAgrees(s.workers[w]);
    assert InfoAgrees(s'.workers[w]);
  }

  lemma ReleasedRefines(s: State, s': State, w: Identity, k: Key)
    requires Refines(s, Settled) && w in s.workers && Released(s, s', w, k) && FinishSafe(s, w, k)
    ensures Refines(s', Ending(k))
  {
    var a := Replay(s.log).value;
    FinishReplays(s, w, k, a);
    hide Replay, FinishActions, FinishSafe;
    ReleasedHolders(s, s', w, k, a);
    ReleasedRepresents(s, s', k, a);
  }

  /** A life has ended; its record is still there. */
  lemma ReleasedRepresents(s: State, s': State, k: Key, a: Abs)
    requires Represents(s, a, Settled) && s'.contexts == s.contexts
    requires k in a.jobs ==> !a.jobs[k].where.Waiting?
    requires HoldersAgree(s', a.(jobs := a.jobs - {k}), Ending(k))
    ensures Represents(s', a.(jobs := a.jobs - {k}), Ending(k))
  {
    var a' := a.(jobs := a.jobs - {k});
    ReleasedQueues(s, s', a, a');
    if s.Known(k) {
      assert k in a.jobs && JobAgrees(s.Request(k), a.jobs[k]);
    }
    hide HoldersAgree, QueuesAgree;
    forall other
      ensures s'.Known(other) <==> s.Known(other)
      ensures s.Known(other) ==> s'.Request(other) == s.Request(other)
    {
    }
    assert KeysAgree(s', a', Ending(k));
    assert JobsAgree(s', a');
  }

  lemma ReleasedQueues(s: State, s': State, a: Abs, a': Abs)
    requires QueuesAgree(s, a) && s'.contexts == s.contexts && a'.queues == a.queues
    ensures QueuesAgree(s', a')
  {
    forall t
      ensures a'.Queue(t) == Ids(s'.Pending(t))
    {
      assert a.Queue(t) == Ids(s.Pending(t));
    }
  }

  lemma FinishReplays(s: State, w: Identity, k: Key, a: Abs)
    requires Replay(s.log) == Some(a) && Represents(s, a, Settled) && w in s.workers && FinishSafe(s, w, k)
    ensures Replay(s.log + FinishActions(s, w, k)) == Some(a.(jobs := a.jobs - {k}))
    ensures k in a.jobs && a.jobs[k].where.Running? ==> a.jobs[k].where == Running(w) && k in s.Held(w)
    ensures k in a.jobs ==> !a.jobs[k].where.Waiting?
  {
    if k in s.Held(w) {
      assert k in HeldBy(s, w, Settled) && a.RunningAt(k, w);
      ReplayOne(s.log, Finish(k, w));
    } else if s.Known(k) {
      assert k in a.jobs && JobAgrees(s.Request(k), a.jobs[k]);
      if a.jobs[k].where.Running? {
        assert a.RunningAt(k, a.jobs[k].where.worker);
        assert false;
      }
      ReplayOne(s.log, Forget(k));
    } else {
      assert k !in a.jobs;
      assert s.log + [] == s.log;
      assert a.jobs - {k} == a.jobs;
    }
  }

  lemma ReleasedHolders(s: State, s': State, w: Identity, k: Key, a: Abs)
    requires HoldersAgree(s, a, Settled) && w in s.workers
    requires s'.workers == s.workers[w := s.workers[w].RemoveInProgressRequest(k).(workerLastActive := s.now)]
    requires k in a.jobs && a.jobs[k].where.Running? ==> a.jobs[k].where == Running(w)
    ensures HoldersAgree(s', a.(jobs := a.jobs - {k}), Ending(k))
  {
    var a' := a.(jobs := a.jobs - {k});
    forall other, v
      ensures other in HeldBy(s', v, Ending(k)) <==> a'.RunningAt(other, v)
    {
      assert other in HeldBy(s, v, Settled) <==> a.RunningAt(other, v);
    }
  }

  /** Erasing the finished request from its table. */
  lemma EraseAgrees(s: State, k: Key)
    requires Inv(s, Ending(k))
    ensures Inv(RemoveInProgress(s, k), Settled)
  {
    var s' := RemoveInProgress(s, k);
    if k.kind in s.contexts {
      var c := s.contexts[k.kind];
      RemoveKeepsIff(c, k.id);
      ContextKept(s, s', k.kind, c.RemoveInProgressRequest(k.id));
    }
    EraseRefines(s, k);
  }

  lemma EraseRefines(s: State, k: Key)
    requires Refines(s, Ending(k))
    ensures Refines(RemoveInProgress(s, k), Settled)
  {
    var s' := RemoveInProgress(s, k);
    var a := Replay(s.log).value;
    assert forall v :: HeldBy(s', v, Settled) == HeldBy(s, v, Ending(k));
    if k.kind in s.contexts {
      var c := s.contexts[k.kind].RemoveInProgressRequest(k.id);
      OneContext(s, s', k, c);
      assert a.Queue(k.kind) == Ids(s.Pending(k.kind));
    }
    PatchHolders(s, s', a, a, k, Ending(k), Settled);
    Patch(s, s', a, a, k, Ending(k), Settled);
  }

  function EndingUnless(removed: bool, k: Key): Transit {
    if removed then Settled else Ending(k)
  }

  lemma {:induction false} FinishPassAgrees(
    env: Env, s: State, w: Identity, k: Key, i: nat, removed: bool, more: bool)
    requires Inv(s, EndingUnless(removed, k)) && w in s.workers
    ensures var p := FinishPass(env, s, w, k, i, removed, more);
            Inv(p.state, EndingUnless(p.removed, k))
    decreases |s.Types(w)| - i
  {
    hide Inv;
    if i < |s.Types(w)| {
      var t := s.Types(w)[i];
      if t !in s.contexts {
        FinishPassAgrees(env, s, w, k, i + 1, removed, more);
      } else {
        var erase := !removed && t == k.kind;
        var s1 := if erase then RemoveInProgress(s, k) else s;
        if erase {
          EraseAgrees(s, k);
        }
        FinishVisitAgrees(env, s1, w, i, more, EndingUnless(removed || erase, k));
        assert s1.Pending(t) == s.Pending(t);
        var v := FinishVisit(env, s1, w, i, s.Pending(t), more);
        if !v.stop {
          FinishPassAgrees(env, v.state, w, k, i + 1, removed || erase, v.more);
        }
      }
    }
  }

  lemma FinishVisitAgrees(env: Env, s: State, w: Identity, i: nat, more: bool, x: Transit)
    requires Inv(s, x) && w in s.workers && i < |s.Types(w)| && !x.Dying?
    ensures Inv(FinishVisit(env, s, w, i, s.Pending(s.Types(w)[i]), more).state, x)
  {
    hide Inv;
    ShelvedAgrees(s, w, i, x);
    if s.Pending(s.Types(w)[i]) != [] {
      VisitAgrees(env, s, w, i, x);
    }
  }

  lemma FinishedAgrees(env: Env, s: State, w: Identity, k: Key)
    requires Inv(s, Settled) && FinishSafe(s, w, k)
    ensures Inv(HandleWorkerFinished(env, s, w, k), Settled)
  {
    if w in s.workers {
      var s1 := s
        .WithWorker(w, s.workers[w].RemoveInProgressRequest(k).(workerLastActive := s.now))
        .(log := s.log + FinishActions(s, w, k));
      ReleasedTables(s, s1, w, k);
      ReleasedRefines(s, s1, w, k);
      FinishPassAgrees(env, s1, w, k, 0, false, false);
      var pass := if s1.FreeCapacity(w) > 0 then FinishPass(env, s1, w, k, 0, false, false)
                  else Pass(s1, false, false);
      var s2 := if pass.removed then pass.state else RemoveInProgress(pass.state, k);
      if !pass.removed {
        EraseAgrees(pass.state, k);
      }
      RoundsAgree(env, s2, w, pass.more);
    }
  }
}

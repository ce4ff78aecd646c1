/** The broker as the object it is: handlers that loop over types, workers and requests and update
    the tables in place, each proved to do what its specification does to the state. */
module Broker {
  import opened Wrappers
  import opened Cluster
  import opened RequestContexts
  import opened Scheduler
  import opened Agreement
  import opened BrokerTables
  import Safety

  /** The state once a queued request has changed hands. */
  function HandedTo(s: Scheduler.State, w: Identity, k: Key): Scheduler.State
    requires s.Known(k) && s.Request(k).place.Queued? && w in s.workers
  {
    s.WithWorker(w, s.workers[w].AddInProgressRequest(k).(brokerLastActive := s.now))
     .WithContext(k.kind, s.contexts[k.kind].Put(k.id, s.Request(k).(msg := None)).AssignWorkerFromPending(k.id, w))
  }

  /** The state once a request in no queue has been given to a worker. */
  function Taken(s: Scheduler.State, w: Identity, k: Key, vfs: VersionFlags): Scheduler.State
    requires k.kind in s.contexts && w in s.workers
  {
    var c := s.contexts[k.kind].AddInProgressRequest(k.id, vfs, w);
    s.WithWorker(w, s.workers[w].AddInProgressRequest(k).(workerLastActive := s.now))
     .WithContext(k.kind, c.Put(k.id, c.requests[k.id].(msg := None)))
  }

  function AfterSend(s: Scheduler.State, ok: bool, action: Action): Scheduler.State {
    s.(sends := s.sends + 1, log := if ok then s.log + [action] else s.log)
  }

  function Kept(env: Env, s: Scheduler.State, k: Key, vfs: VersionFlags, copy: Option<Message>): Sent
    requires s.Known(k)
  {
    match copy
    case None => Sent(s, true)
    case Some(m) => Scheduler.HandleCopiedRequest(env, s, k, vfs, m)
  }

  lemma ForwardQueuedUnfolds(env: Env, s: Scheduler.State, w: Identity, k: Key)
    requires s.Known(k) && s.Request(k).place.Queued? && w in s.workers && env.request(s.sends)
    ensures var r := s.Request(k);
            var msg := r.msg.GetOr([]);
            Scheduler.ForwardQueued(env, s, w, k) ==
              Kept(env, HandedTo(AfterSend(s, true, Dispatch(k, w, msg)), w, k), k, r.vfs,
                       CopyRequestForFlags(r.vfs, msg))
  {
    hide CopyRequestForFlags, Scheduler.HandleCopiedRequest;
  }

  lemma ForwardDirectUnfolds(
    env: Env, s: Scheduler.State, w: Identity, k: Key, vfs: VersionFlags, msg: Message, action: Action)
    requires k.kind in s.contexts && w in s.workers && env.request(s.sends)
    ensures Scheduler.ForwardDirect(env, s, w, k, vfs, msg, action) ==
              Kept(env, Taken(AfterSend(s, true, action), w, k, vfs), k, vfs, CopyRequestForFlags(vfs, msg))
  {
    hide CopyRequestForFlags, Scheduler.HandleCopiedRequest;
  }

  lemma NewTypeVisited(
    env: Env, s: Scheduler.State, s': Scheduler.State, w: Identity, i: nat, more: bool)
    requires i < |s.Types(w)| && s.Types(w)[i] !in s.contexts
    requires var t := s.Types(w)[i];
             var s1 := s.WithContext(t, NewContext()).WithContext(t, NewContext().IncrementNumWorkers());
             s' == if s.FreeCapacity(w) > 0 then AddAvailable(s1, t, w) else s1
    ensures Visit(s', more, false) == NewWorkerVisit(env, s, w, i, more)
  {
    var t := s.Types(w)[i];
    var c := NewContext().IncrementNumWorkers();
    assert s.WithContext(t, NewContext()).WithContext(t, c) == s.WithContext(t, c);
    assert s.contexts[t := c][t := c.AddAvailableWorker(w)] == s.contexts[t := c.AddAvailableWorker(w)];
  }

  lemma NewTypeAccepted(env: Env, s: Scheduler.State, k: Key, vfs: VersionFlags, msg: Message)
    requires k.kind !in s.contexts
    ensures AddPending(s.WithContext(k.kind, NewContext()), k, vfs, Some(msg), [Accept(k, vfs, msg)]) ==
              ClientRequest(env, s, k, vfs, msg)
  {
    var c := NewContext().AddPendingRequest(k.id, vfs, Some(msg));
    assert s.contexts[k.kind := NewContext()][k.kind := c] == s.contexts[k.kind := c];
  }

  lemma ReadyIs(env: Env, s: Scheduler.State, w: Identity, capacity: int, types: seq<RequestType>, delay: int)
    requires Enrols(s, w, capacity, types)
    ensures var info := Info(capacity, types, {}, s.now, s.now, delay, capacity, 0);
            var pass := NewWorkerPass(env, s.WithWorker(w, info), w, 0, false);
            Scheduler.HandleWorkerReady(env, s, w, capacity, types, delay) == Rounds(env, pass.0, w, pass.1)
  {
    hide NewWorkerPass, Rounds;
  }

  lemma ReadyIgnored(env: Env, s: Scheduler.State, w: Identity, capacity: int, types: seq<RequestType>, delay: int)
    requires !Enrols(s, w, capacity, types)
    ensures Scheduler.HandleWorkerReady(env, s, w, capacity, types, delay) == s
  {
  }

  lemma RepeatedIs(env: Env, s: Scheduler.State, k: Key, vfs: VersionFlags, msg: Message)
    requires s.Known(k)
    ensures ClientRequest(env, s, k, vfs, msg) == Scheduler.RepeatedRequest(env, s, k, vfs, msg)
  {
  }

  lemma StillKnown(
    env: Env, s: Scheduler.State, w: Identity, k: Key, vfs: VersionFlags, msg: Message, action: Action)
    requires s.Known(k)
    ensures Scheduler.ForwardDirect(env, s, w, k, vfs, msg, action).state.Known(k)
  {
  }

  lemma CopiedKnown(env: Env, s: Scheduler.State, k: Key, vfs: VersionFlags, copy: Message)
    requires s.Known(k)
    ensures Scheduler.HandleCopiedRequest(env, s, k, vfs, copy).state.Known(k)
  {
  }

  class Broker {
    var contexts: map<RequestType, BrokerRequestTypeContext>
    var workers: map<Identity, WorkerInfo>
    var currentTime: int
    var sends: nat
    ghost var log: seq<Action>

    ghost predicate Valid()
      reads this
    {
      && (forall t, u :: t in contexts && u in contexts && t != u ==> contexts[t] != contexts[u])
      && (forall v, w :: v in workers && w in workers && v != w ==> workers[v] != workers[w])
    }

    ghost function Contexts(): map<RequestType, Context>
      reads this, contexts.Values
    {
      map t | t in contexts :: contexts[t].View()
    }

    ghost function Workers(): map<Identity, Info>
      reads this, workers.Values
    {
      map w | w in workers :: workers[w].View()
    }

    ghost function State(): Scheduler.State
      reads this, contexts.Values, workers.Values
    {
      Scheduler.State.State(Contexts(), Workers(), currentTime, sends, log)
    }

    /** Objects the broker has gained since are new ones. */
    twostate predicate Grown()
      reads this
    {
      fresh(contexts.Values - old(contexts.Values)) && fresh(workers.Values - old(workers.Values))
    }

    constructor ()
      ensures Valid() && State() == Start0 && contexts == map[] && workers == map[]
    {
      contexts := map[];
      workers := map[];
      currentTime := 0;
      sends := 0;
      log := [];
      new;
      assert Contexts() == map[] && Workers() == map[];
    }

    // ----- one table changed -----

    /** One context changed in place. */
    twostate lemma ContextChanged(t: RequestType)
      requires old(Valid()) && t in contexts && unchanged(this)
      requires forall u :: u in contexts && u != t ==> contexts[u].View() == old(contexts[u].View())
      requires forall w :: w in workers ==> workers[w].View() == old(workers[w].View())
      ensures Valid() && State() == old(State()).WithContext(t, contexts[t].View())
    {
      assert Contexts() == old(Contexts())[t := contexts[t].View()];
      assert Workers() == old(Workers());
    }

    twostate lemma WorkerChanged(w: Identity)
      requires old(Valid()) && w in workers && unchanged(this)
      requires forall u :: u in contexts ==> contexts[u].View() == old(contexts[u].View())
      requires forall v :: v in workers && v != w ==> workers[v].View() == old(workers[v].View())
      ensures Valid() && State() == old(State()).WithWorker(w, workers[w].View())
    {
      assert Contexts() == old(Contexts());
      assert Workers() == old(Workers())[w := workers[w].View()];
    }

    twostate lemma SameTables()
      requires unchanged(`contexts) && unchanged(`workers)
      requires forall u :: u in contexts ==> contexts[u].View() == old(contexts[u].View())
      requires forall w :: w in workers ==> workers[w].View() == old(workers[w].View())
      ensures Contexts() == old(Contexts()) && Workers() == old(Workers())
    {
    }

    method AddAvailable(t: RequestType, w: Identity)
      requires Valid()
      modifies contexts.Values
      ensures Valid() && State() == Scheduler.AddAvailable(old(State()), t, w)
    {
      if t in contexts {
        label Before:
        contexts[t].AddAvailableWorker(w);
        ContextChanged@Before(t);
      }
    }

    method RemoveAvailable(t: RequestType, w: Identity)
      requires Valid()
      modifies contexts.Values
      ensures Valid() && State() == Scheduler.RemoveAvailable(old(State()), t, w)
    {
      if t in contexts {
        label Before:
        contexts[t].RemoveAvailableWorker(w);
        ContextChanged@Before(t);
      }
    }

    method RemoveInProgress(k: Key)
      requires Valid()
      modifies contexts.Values
      ensures Valid() && State() == Scheduler.RemoveInProgress(old(State()), k)
    {
      if k.kind in contexts {
        label Before:
        contexts[k.kind].RemoveInProgressRequest(k.id);
        ContextChanged@Before(k.kind);
      }
    }

    /** Takes a worker out of the sets of its first `n` types, one after the other. */
    method Withdraw(w: Identity, n: nat)
      requires Valid() && w in workers && n <= |workers[w].supportedRequestTypes|
      modifies contexts.Values
      ensures Valid() && State() == Scheduler.Withdraw(old(State()), w, n)
    {
      var types := workers[w].supportedRequestTypes;
      assert State().Types(w) == types;
      for i := 0 to n
        invariant Valid() && State() == Scheduler.Withdraw(old(State()), w, i)
        invariant unchanged(this) && forall v :: v in workers ==> unchanged(workers[v])
      {
        RemoveAvailable(types[i], w);
      }
    }

    // ----- handing a request to a worker -----

    /** A send to a worker; what was sent becomes history. */
    method SendRequest(env: Env, ghost action: Action) returns (ok: bool)
      modifies this`sends, this`log
      ensures ok == env.request(old(sends))
      ensures State() == AfterSend(old(State()), ok, action)
    {
      label Before:
      ok := env.request(sends);
      sends := sends + 1;
      if ok {
        log := log + [action];
      }
      SameTables@Before();
    }

    method SendReceipt(env: Env, k: Key, envelope: Message) returns (ok: bool)
      modifies this`sends, this`log
      ensures ok == env.receipt(old(sends))
      ensures State() == AfterSend(old(State()), true, Receipt(k, envelope))
    {
      label Before:
      ok := env.receipt(sends);
      sends := sends + 1;
      log := log + [Receipt(k, envelope)];
      SameTables@Before();
    }

    /** Keeps the copy its flags ask for with a request. */
    method Store(k: Key, vfs: VersionFlags, copy: Message)
      requires Valid() && k.kind in contexts && k.id in contexts[k.kind].requests
      modifies contexts.Values
      ensures Valid()
      ensures var s := old(State());
              State() == s.WithContext(k.kind, s.contexts[k.kind].Put(k.id, StoreCopy(s.Request(k), vfs, copy)))
    {
      var c := contexts[k.kind];
      var r := c.requests[k.id];
      label Before:
      if !vfs.Has(ReceiptOnSend) {
        c.UpdateRequest(k.id, Some(copy), r.vfs);
      } else if vfs.HasAny({RetryOnDeath, NotifyOnRedirect, NotifyOnDeath}) {
        c.UpdateRequest(k.id, Some(copy), vfs.Without(ReceiptOnSend));
      } else {
        c.UpdateRequest(k.id, r.msg, vfs.Without(ReceiptOnSend));
      }
      ContextChanged@Before(k.kind);
    }

    method HandleCopiedRequest(env: Env, k: Key, vfs: VersionFlags, copy: Message) returns (ok: bool)
      requires Valid() && k.kind in contexts && k.id in contexts[k.kind].requests
      modifies this`sends, this`log, contexts.Values
      ensures Valid()
      ensures Sent(State(), ok) == Scheduler.HandleCopiedRequest(env, old(State()), k, vfs, copy)
    {
      hide StoreCopy;
      ok := true;
      if vfs.Has(ReceiptOnSend) {
        ok := SendReceipt(env, k, Envelope(copy));
      }
      Store(k, vfs, copy);
    }

    /** Takes a queued request out of its list and into a worker's hands. */
    method Assign(w: Identity, k: Key)
      requires Valid() && State().Known(k) && State().Request(k).place.Queued? && w in workers
      modifies contexts.Values, workers.Values
      ensures Valid() && State() == HandedTo(old(State()), w, k)
      ensures k.id in contexts[k.kind].requests
    {
      var c := contexts[k.kind];
      label Before:
      workers[w].AddInProgressRequest(k);
      workers[w].UpdateBrokerLastActive(currentTime);
      WorkerChanged@Before(w);
      label Between:
      c.UpdateRequest(k.id, None, c.requests[k.id].vfs);
      c.AssignWorkerFromPending(k.id, w);
      ContextChanged@Between(k.kind);
    }

    method KeepCopy(env: Env, k: Key, vfs: VersionFlags, copy: Option<Message>) returns (ok: bool)
      requires Valid() && k.kind in contexts && k.id in contexts[k.kind].requests
      modifies this`sends, this`log, contexts.Values
      ensures Valid() && Sent(State(), ok) == Kept(env, old(State()), k, vfs, copy)
    {
      hide Scheduler.HandleCopiedRequest;
      ok := true;
      if copy.Some? {
        ok := HandleCopiedRequest(env, k, vfs, copy.value);
      }
    }

    /** Sends a queued request to a worker, which takes it from the queue if the send succeeds. */
    method ForwardQueued(env: Env, w: Identity, k: Key) returns (ok: bool)
      requires Valid()
      modifies this`sends, this`log, contexts.Values, workers.Values
      ensures Valid()
      ensures Sent(State(), ok) == Scheduler.ForwardQueued(env, old(State()), w, k)
    {
      if !(k.kind in contexts && k.id in contexts[k.kind].requests) || w !in workers {
        return false;
      }
      var r := contexts[k.kind].requests[k.id];
      if !r.place.Queued? {
        return false;
      }
      var msg := r.msg.GetOr([]);
      ok := SendRequest(env, Dispatch(k, w, msg));
      if ok {
        ForwardQueuedUnfolds(env, old(State()), w, k);
        hide Scheduler.ForwardQueued, Kept, CopyRequestForFlags;
        Assign(w, k);
        ok := KeepCopy(env, k, r.vfs, CopyRequestForFlags(r.vfs, msg));
      }
    }

    /** Records a request a worker has been sent directly; a record that is there already stays. */
    method Take(w: Identity, k: Key, vfs: VersionFlags)
      requires Valid() && k.kind in contexts && w in workers
      modifies contexts.Values, workers.Values
      ensures Valid() && State() == Taken(old(State()), w, k, vfs)
      ensures k.id in contexts[k.kind].requests
    {
      var c := contexts[k.kind];
      label Before:
      c.AddInProgressRequest(k.id, vfs, w);
      c.UpdateRequest(k.id, None, c.requests[k.id].vfs);
      ContextChanged@Before(k.kind);
      label Between:
      workers[w].AddInProgressRequest(k);
      workers[w].UpdateWorkerLastActive(currentTime);
      WorkerChanged@Between(w);
    }

    method ForwardDirect(
      env: Env, w: Identity, k: Key, vfs: VersionFlags, msg: Message, ghost action: Action)
      returns (ok: bool)
      requires Valid()
      modifies this`sends, this`log, contexts.Values, workers.Values
      ensures Valid()
      ensures Sent(State(), ok) == Scheduler.ForwardDirect(env, old(State()), w, k, vfs, msg, action)
    {
      if k.kind !in contexts || w !in workers {
        return false;
      }
      ok := SendRequest(env, action);
      if ok {
        ForwardDirectUnfolds(env, old(State()), w, k, vfs, msg, action);
        hide Scheduler.ForwardDirect, Kept, CopyRequestForFlags;
        Take(w, k, vfs);
        ok := KeepCopy(env, k, vfs, CopyRequestForFlags(vfs, msg));
      }
    }

    method WithdrawIfExhausted(w: Identity)
      requires Valid()
      modifies contexts.Values
      ensures Valid() && State() == Scheduler.WithdrawIfExhausted(old(State()), w)
    {
      if w in workers {
        if workers[w].freeCapacity <= 0 {
          Withdraw(w, |workers[w].supportedRequestTypes|);
        }
      }
    }

    // ----- the round-robin sweeps -----

    method SweepTurn(env: Env, w: Identity, i: nat, more: bool) returns (more': bool, stop: bool)
      requires Valid() && w in workers && i < |workers[w].supportedRequestTypes|
      modifies this`sends, this`log, contexts.Values, workers.Values
      ensures Valid() && Visit(State(), more', stop) == SweepVisit(env, old(State()), w, i, more)
    {
      hide Scheduler.ForwardQueued, Scheduler.Withdraw;
      var t := workers[w].supportedRequestTypes[i];
      more', stop := more, false;
      if t in contexts {
        var c := contexts[t];
        if c.pendingClientRequests != [] {
          var ok := ForwardQueued(env, w, Key(t, c.pendingClientRequests[0].id));
          if ok {
            if workers[w].freeCapacity <= 0 {
              Withdraw(w, i + 1);
              stop := true;
            } else {
              more' := more || c.pendingClientRequests != [];
            }
          }
        }
      }
    }

    method OneRound(env: Env, w: Identity) returns (more: bool)
      requires Valid() && w in workers
      modifies this`sends, this`log, contexts.Values, workers.Values
      ensures Valid() && (State(), more) == Sweep(env, old(State()), w, 0, false)
    {
      hide SweepVisit;
      more := false;
      var i := 0;
      assert State().Types(w) == workers[w].supportedRequestTypes;
      while i < |workers[w].supportedRequestTypes|
        invariant Valid() && 0 <= i
        invariant State().Types(w) == workers[w].supportedRequestTypes
        invariant Sweep(env, State(), w, i, more) == Sweep(env, old(State()), w, 0, false)
      {
        ghost var s := State();
        var stop;
        more, stop := SweepTurn(env, w, i, more);
        if stop {
          return;
        }
        i := i + 1;
      }
    }

    /** Round after round while the last one left both capacity and requests. */
    method SweepIn(env: Env, w: Identity, more: bool)
      requires Valid() && w in workers
      modifies this`sends, this`log, contexts.Values, workers.Values
      ensures Valid() && State() == Rounds(env, old(State()), w, more)
    {
      hide Sweep;
      var thereAreMoreRequests := more;
      while workers[w].freeCapacity > 0 && thereAreMoreRequests
        invariant Valid()
        invariant Rounds(env, State(), w, thereAreMoreRequests) == Rounds(env, old(State()), w, more)
        decreases if thereAreMoreRequests then 1 else 0, workers[w].freeCapacity
      {
        ghost var s := State();
        assert s.FreeCapacity(w) == workers[w].freeCapacity;
        thereAreMoreRequests := OneRound(env, w);
        assert State().FreeCapacity(w) == workers[w].freeCapacity;
      }
    }

    // ----- a worker becomes ready -----

    /** Makes the context of a type that has none yet. */
    method NewType(t: RequestType)
      requires Valid() && t !in contexts
      modifies this`contexts
      ensures Valid() && t in contexts && fresh(contexts[t]) && contexts == old(contexts)[t := contexts[t]]
      ensures State() == old(State()).WithContext(t, NewContext())
    {
      var c := new BrokerRequestTypeContext();
      contexts := contexts[t := c];
      assert Contexts() == old(Contexts())[t := NewContext()];
      assert Workers() == old(Workers());
    }

    method CountWorker(t: RequestType)
      requires Valid() && t in contexts
      modifies contexts.Values
      ensures Valid()
      ensures State() == old(State()).WithContext(t, old(State()).contexts[t].IncrementNumWorkers())
    {
      label Before:
      contexts[t].IncrementNumWorkers();
      ContextChanged@Before(t);
    }

    /** A type's first pending request is offered to a new worker, which is then available for more. */
    method NewWorkerTurn(env: Env, w: Identity, i: nat, more: bool) returns (more': bool)
      requires Valid() && w in workers && i < |workers[w].supportedRequestTypes|
      modifies this`sends, this`log, contexts.Values, workers.Values
      ensures Valid() && Visit(State(), more', false) == NewWorkerServed(env, old(State()), w, i, more)
    {
      hide Scheduler.ForwardQueued, Scheduler.Withdraw, Scheduler.AddAvailable;
      var t := workers[w].supportedRequestTypes[i];
      more' := more;
      if workers[w].freeCapacity > 0 {
        if t in contexts && contexts[t].pendingClientRequests != [] {
          var c := contexts[t];
          var ok := ForwardQueued(env, w, Key(t, c.pendingClientRequests[0].id));
          if !ok {
            more' := true;
            AddAvailable(t, w);
          } else if workers[w].freeCapacity <= 0 {
            Withdraw(w, i);
          } else {
            more' := more || c.pendingClientRequests != [];
            AddAvailable(t, w);
          }
        } else {
          AddAvailable(t, w);
        }
      }
    }

    method AddIfFree(t: RequestType, w: Identity)
      requires Valid() && w in workers
      modifies contexts.Values
      ensures Valid()
      ensures var s := old(State());
              State() == if s.FreeCapacity(w) > 0 then Scheduler.AddAvailable(s, t, w) else s
    {
      if workers[w].freeCapacity > 0 {
        AddAvailable(t, w);
      }
    }

    method NewTypeTurn(env: Env, w: Identity, i: nat, ghost more: bool)
      requires Valid() && w in workers && i < |workers[w].supportedRequestTypes|
      requires workers[w].supportedRequestTypes[i] !in contexts
      modifies this`contexts, contexts.Values
      ensures Valid() && Grown()
      ensures Visit(State(), more, false) == Scheduler.NewWorkerVisit(env, old(State()), w, i, more)
    {
      hide Scheduler.NewWorkerVisit, Scheduler.AddAvailable;
      var t := workers[w].supportedRequestTypes[i];
      NewTypeCounted(t);
      AddIfFree(t, w);
      NewTypeVisited(env, old(State()), State(), w, i, more);
    }

    method NewTypeCounted(t: RequestType)
      requires Valid() && t !in contexts
      modifies this`contexts
      ensures Valid() && Grown() && contexts.Keys == old(contexts.Keys) + {t}
      ensures forall u :: u in old(contexts) ==> contexts[u] == old(contexts)[u]
      ensures State() == old(State()).WithContext(t, NewContext()).WithContext(t, NewContext().IncrementNumWorkers())
    {
      NewType(t);
      ghost var s1 := State();
      assert s1.contexts[t] == NewContext();
      CountNew(t);
      assert State() == s1.WithContext(t, NewContext().IncrementNumWorkers());
    }

    method CountNew(t: RequestType)
      requires Valid() && t in contexts
      modifies contexts[t]
      ensures Valid() && State() == old(State()).WithContext(t, old(State()).contexts[t].IncrementNumWorkers())
    {
      label Before:
      contexts[t].IncrementNumWorkers();
      ContextChanged@Before(t);
    }

    method NewWorkerVisit(env: Env, w: Identity, i: nat, more: bool) returns (more': bool)
      requires Valid() && w in workers && i < |workers[w].supportedRequestTypes|
      modifies this`contexts, this`sends, this`log, contexts.Values, workers.Values
      ensures Valid() && Grown()
      ensures Visit(State(), more', false) == Scheduler.NewWorkerVisit(env, old(State()), w, i, more)
    {
      hide NewWorkerServed, Scheduler.AddAvailable;
      var t := workers[w].supportedRequestTypes[i];
      if t in contexts {
        CountWorker(t);
        more' := NewWorkerTurn(env, w, i, more);
      } else {
        hide Scheduler.NewWorkerVisit;
        NewTypeTurn(env, w, i, more);
        more' := more;
      }
    }

    method FirstPass(env: Env, w: Identity) returns (more: bool)
      requires Valid() && w in workers
      modifies this`contexts, this`sends, this`log, contexts.Values, workers.Values
      ensures Valid() && Grown()
      ensures (State(), more) == NewWorkerPass(env, old(State()), w, 0, false)
    {
      hide Scheduler.NewWorkerVisit;
      more := false;
      var i := 0;
      assert State().Types(w) == workers[w].supportedRequestTypes;
      while i < |workers[w].supportedRequestTypes|
        invariant Valid() && Grown() && 0 <= i
        invariant State().Types(w) == workers[w].supportedRequestTypes
        invariant NewWorkerPass(env, State(), w, i, more) == NewWorkerPass(env, old(State()), w, 0, false)
      {
        more := NewWorkerVisit(env, w, i, more);
        i := i + 1;
      }
    }

    method UpdateContextsForNewWorker(env: Env, w: Identity)
      requires Valid() && w in workers
      modifies this`contexts, this`sends, this`log, contexts.Values, workers.Values
      ensures Valid() && Grown()
      ensures var pass := NewWorkerPass(env, old(State()), w, 0, false);
              State() == Rounds(env, pass.0, w, pass.1)
    {
      hide NewWorkerPass, Rounds;
      var thereAreMoreRequests := FirstPass(env, w);
      SweepIn(env, w, thereAreMoreRequests);
    }

    method HandleWorkerReady(env: Env, w: Identity, capacity: int, types: seq<RequestType>, delay: int)
      requires Valid()
      modifies this, contexts.Values, workers.Values
      ensures Valid() && Grown()
      ensures State() == Scheduler.HandleWorkerReady(env, old(State()), w, capacity, types, delay)
    {
      hide NewWorkerPass, Rounds, Scheduler.HandleWorkerReady;
      ghost var s := State();
      if w !in workers && capacity >= 0 && types != [] {
        Register(w, capacity, types, delay);
        assert workers.Values <= old(workers.Values) + {workers[w]};
        UpdateContextsForNewWorker(env, w);
        ReadyIs(env, s, w, capacity, types, delay);
      } else {
        ReadyIgnored(env, s, w, capacity, types, delay);
      }
    }

    method Register(w: Identity, capacity: int, types: seq<RequestType>, delay: int)
      requires Valid() && w !in workers
      modifies this`workers
      ensures Valid() && w in workers && fresh(workers[w]) && workers == old(workers)[w := workers[w]]
      ensures workers[w].supportedRequestTypes == types
      ensures State() == old(State()).WithWorker(w, Info(capacity, types, {}, currentTime, currentTime,
                                                         delay, capacity, 0))
    {
      var info := new WorkerInfo(currentTime, capacity, types, delay);
      workers := workers[w := info];
      assert Contexts() == old(Contexts());
      assert Workers() == old(Workers())[w := info.View()];
    }

    method Log(ghost actions: seq<Action>)
      modifies this`log
      ensures State() == old(State()).(log := old(log) + actions)
    {
      label Before:
      log := log + actions;
      SameTables@Before();
    }

    // ----- a worker finishes -----

    /** One request of a type is handed to the finished worker, which is then available for more. */
    method FinishTurn(env: Env, w: Identity, i: nat, next: seq<Node>, more: bool)
      returns (more': bool, stop: bool)
      requires Valid() && w in workers && i < |workers[w].supportedRequestTypes|
      modifies this`sends, this`log, contexts.Values, workers.Values
      ensures Valid()
      ensures Visit(State(), more', stop) == FinishVisit(env, old(State()), w, i, next, more)
    {
      hide Scheduler.ForwardQueued, Scheduler.Withdraw, Scheduler.AddAvailable;
      var t := workers[w].supportedRequestTypes[i];
      more', stop := more, false;
      if next == [] {
        AddAvailable(t, w);
      } else {
        var ok := ForwardQueued(env, w, Key(t, next[0].id));
        if !ok {
          more' := true;
          AddAvailable(t, w);
        } else if workers[w].freeCapacity <= 0 {
          Withdraw(w, i + 1);
          stop := true;
        } else {
          more' := more || (t in contexts && contexts[t].pendingClientRequests != []);
          AddAvailable(t, w);
        }
      }
    }

    /** Erases the finished request on the way, if its type is reached. */
    method FinishStep(env: Env, w: Identity, k: Key, i: nat, removed: bool, more: bool)
      returns (removed': bool, more': bool, stop: bool)
      requires Valid() && w in workers && i < |workers[w].supportedRequestTypes|
      requires workers[w].supportedRequestTypes[i] in contexts
      modifies this`sends, this`log, contexts.Values, workers.Values
      ensures Valid()
      ensures var s := old(State());
              var t := s.Types(w)[i];
              var erase := !removed && t == k.kind;
              removed' == (removed || erase)
              && Visit(State(), more', stop) ==
                   FinishVisit(env, if erase then Scheduler.RemoveInProgress(s, k) else s, w, i, s.Pending(t), more)
    {
      hide FinishVisit, Scheduler.RemoveInProgress;
      var t := workers[w].supportedRequestTypes[i];
      var next := contexts[t].pendingClientRequests;
      removed' := removed;
      if !removed && t == k.kind {
        RemoveInProgress(k);
        removed' := true;
      }
      more', stop := FinishTurn(env, w, i, next, more);
    }

    method FinishPass(env: Env, w: Identity, k: Key) returns (removed: bool, more: bool)
      requires Valid() && w in workers
      modifies this`sends, this`log, contexts.Values, workers.Values
      ensures Valid() && Pass(State(), removed, more) == Scheduler.FinishPass(env, old(State()), w, k, 0, false, false)
    {
      hide FinishVisit, Scheduler.RemoveInProgress;
      removed, more := false, false;
      var i := 0;
      assert State().Types(w) == workers[w].supportedRequestTypes;
      while i < |workers[w].supportedRequestTypes|
        invariant Valid() && 0 <= i && State().Types(w) == workers[w].supportedRequestTypes
        invariant Scheduler.FinishPass(env, State(), w, k, i, removed, more) ==
                  Scheduler.FinishPass(env, old(State()), w, k, 0, false, false)
      {
        if workers[w].supportedRequestTypes[i] in contexts {
          var stop;
          removed, more, stop := FinishStep(env, w, k, i, removed, more);
          if stop {
            return;
          }
        }
        i := i + 1;
      }
    }

    /** Takes a finished request from the worker's hands; what that means becomes history. */
    method Release(w: Identity, k: Key)
      requires Valid() && w in workers
      modifies this`log, workers.Values
      ensures Valid()
      ensures var s := old(State());
              State() == s.WithWorker(w, s.workers[w].RemoveInProgressRequest(k).(workerLastActive := s.now))
                          .(log := s.log + FinishActions(s, w, k))
    {
      hide FinishActions;
      ghost var actions := FinishActions(State(), w, k);
      Unload(w, k);
      Log(actions);
    }

    method Unload(w: Identity, k: Key)
      requires Valid() && w in workers
      modifies workers.Values
      ensures Valid()
      ensures var s := old(State());
              State() == s.WithWorker(w, s.workers[w].RemoveInProgressRequest(k).(workerLastActive := s.now))
    {
      label Before:
      workers[w].UpdateWorkerLastActive(currentTime);
      workers[w].RemoveInProgressRequest(k);
      WorkerChanged@Before(w);
    }

    method UpdateContextsForFinishedWorker(env: Env, w: Identity, k: Key)
      requires Valid() && w in workers
      modifies this`sends, this`log, contexts.Values, workers.Values
      ensures Valid()
      ensures var s := old(State());
              var pass := if s.FreeCapacity(w) > 0 then Scheduler.FinishPass(env, s, w, k, 0, false, false)
                          else Pass(s, false, false);
              State() == Rounds(env, if pass.removed then pass.state else Scheduler.RemoveInProgress(pass.state, k),
                                w, pass.more)
    {
      hide Rounds, Scheduler.FinishPass, Scheduler.RemoveInProgress;
      var removed, thereAreMoreRequests := false, false;
      if workers[w].freeCapacity > 0 {
        removed, thereAreMoreRequests := FinishPass(env, w, k);
      }
      if !removed {
        RemoveInProgress(k);
      }
      SweepIn(env, w, thereAreMoreRequests);
    }

    method HandleWorkerFinished(env: Env, w: Identity, k: Key)
      requires Valid()
      modifies this`sends, this`log, contexts.Values, workers.Values
      ensures Valid() && State() == Scheduler.HandleWorkerFinished(env, old(State()), w, k)
    {
      hide Rounds, Scheduler.FinishPass, Scheduler.RemoveInProgress, FinishActions;
      if w in workers {
        Release(w, k);
        UpdateContextsForFinishedWorker(env, w, k);
      }
    }

    // ----- a client request -----

    method AddPending(k: Key, vfs: VersionFlags, msg: Option<Message>, ghost actions: seq<Action>)
      requires Valid()
      modifies this`log, contexts.Values
      ensures Valid() && State() == Scheduler.AddPending(old(State()), k, vfs, msg, actions)
    {
      if k.kind in contexts {
        label Before:
        contexts[k.kind].AddPendingRequest(k.id, vfs, msg);
        ContextChanged@Before(k.kind);
        Log(actions);
      }
    }

    /** Replaces a request's stored message and flags where it is. */
    method Update(k: Key, msg: Option<Message>, vfs: VersionFlags)
      requires Valid() && k.kind in contexts && k.id in contexts[k.kind].requests
      modifies contexts.Values
      ensures Valid()
      ensures var s := old(State());
              State() == s.WithContext(k.kind, s.contexts[k.kind].Put(k.id, s.Request(k).(msg := msg, vfs := vfs)))
      ensures k.kind in contexts && k.id in contexts[k.kind].requests
    {
      label Before:
      contexts[k.kind].UpdateRequest(k.id, msg, vfs);
      ContextChanged@Before(k.kind);
    }

    /** The copy and the flags of a redirected request are those of the new client. */
    method Redirected(env: Env, k: Key, vfs: VersionFlags, msg: Message)
      requires Valid() && k.kind in contexts && k.id in contexts[k.kind].requests
      modifies this`sends, this`log, contexts.Values
      ensures Valid()
      ensures var s := old(State());
              var s1 := match CopyRequestForFlags(vfs, msg)
                        case None => s.WithContext(k.kind, s.contexts[k.kind].Put(k.id, s.Request(k).(msg := None)))
                        case Some(copy) => Scheduler.HandleCopiedRequest(env, s, k, vfs, copy).state;
              State() == s1.WithContext(k.kind, s1.contexts[k.kind].Put(k.id, s1.Request(k).(vfs := vfs)))
    {
      hide CopyRequestForFlags, Scheduler.HandleCopiedRequest;
      var copy := CopyRequestForFlags(vfs, msg);
      var c := contexts[k.kind];
      if copy.Some? {
        CopiedKnown(env, State(), k, vfs, copy.value);
        var ok := HandleCopiedRequest(env, k, vfs, copy.value);
        assert State().Known(k);
      } else {
        Update(k, None, c.requests[k.id].vfs);
      }
      Update(k, c.requests[k.id].msg, vfs);
    }

    method RepeatedRequest(env: Env, k: Key, vfs: VersionFlags, msg: Message)
      requires Valid() && State().Known(k)
      modifies this`sends, this`log, contexts.Values
      ensures Valid() && State() == Scheduler.RepeatedRequest(env, old(State()), k, vfs, msg)
    {
      hide CopyRequestForFlags, Scheduler.HandleCopiedRequest;
      var r := contexts[k.kind].requests[k.id];
      if r.vfs.Has(AllowRedirect) {
        if r.place.Queued? {
          Update(k, Some(msg), vfs);
          Log([Redirect(k, vfs, msg, None, NoticeOf(r, NotifyOnRedirect))]);
        } else {
          var ok := SendRequest(env, Redirect(k, vfs, msg, Some(r.place.worker), NoticeOf(r, NotifyOnRedirect)));
          if ok {
            Redirected(env, k, vfs, msg);
          }
        }
      } else {
        Log([Reject(k, Envelope(msg))]);
      }
    }

    /** A new request goes to an available worker if there is one and the send succeeds. */
    method NewRequest(env: Env, k: Key, vfs: VersionFlags, msg: Message)
      requires Valid() && k.kind in contexts && k.id !in contexts[k.kind].requests
      modifies this`sends, this`log, contexts.Values, workers.Values
      ensures Valid() && State() == Scheduler.ClientRequest(env, old(State()), k, vfs, msg)
    {
      hide Scheduler.ForwardDirect, Scheduler.WithdrawIfExhausted, Scheduler.AddPending, Scheduler.RepeatedRequest;
      var c := contexts[k.kind];
      if c.availableWorkers == {} {
        AddPending(k, vfs, Some(msg), [Accept(k, vfs, msg)]);
      } else {
        var w := env.pick(sends, c.availableWorkers);
        var ok := ForwardDirect(env, w, k, vfs, msg, Start(k, vfs, msg, w));
        if ok {
          WithdrawIfExhausted(w);
        } else if k.kind in contexts && k.id in contexts[k.kind].requests {
          AddPending(k, vfs, None, []);
        } else {
          AddPending(k, vfs, Some(msg), [Accept(k, vfs, msg)]);
        }
      }
    }

    method ForwardParsedClientRequest(env: Env, k: Key, vfs: VersionFlags, msg: Message)
      requires Valid()
      modifies this`contexts, this`sends, this`log, contexts.Values, workers.Values
      ensures Valid() && Grown()
      ensures State() == ClientRequest(env, old(State()), k, vfs, msg)
    {
      hide ClientRequest, Scheduler.AddPending, Scheduler.RepeatedRequest;
      if k.kind !in contexts {
        ghost var s := State();
        NewType(k.kind);
        AddPending(k, vfs, Some(msg), [Accept(k, vfs, msg)]);
        NewTypeAccepted(env, s, k, vfs, msg);
      } else if k.id in contexts[k.kind].requests {
        RepeatedIs(env, State(), k, vfs, msg);
        RepeatedRequest(env, k, vfs, msg);
      } else {
        NewRequest(env, k, vfs, msg);
      }
    }

    // ----- dead workers -----

    method BackToPending(k: Key, ghost actions: seq<Action>)
      requires Valid() && k.kind in contexts && k.id in contexts[k.kind].requests
      modifies this`log, contexts.Values
      ensures Valid() && State() == Scheduler.BackToPending(old(State()), k, actions)
    {
      label Before:
      contexts[k.kind].BackToPending(k.id);
      ContextChanged@Before(k.kind);
      Log(actions);
    }

    /** Hands a dead worker's request to another worker, or queues it again. */
    method Retry(env: Env, w: Identity, k: Key)
      requires Valid() && k.kind in contexts && k.id in contexts[k.kind].requests
      requires contexts[k.kind].requests[k.id].vfs.Has(RetryOnDeath)
      requires contexts[k.kind].requests[k.id].tryCount < MAX_TRY_COUNT
      modifies this`sends, this`log, contexts.Values, workers.Values
      ensures Valid() && State() == Scheduler.Settle(env, old(State()), w, k)
    {
      hide Scheduler.ForwardDirect, Scheduler.WithdrawIfExhausted, Scheduler.BackToPending;
      var c := contexts[k.kind];
      var r := c.requests[k.id];
      if c.availableWorkers == {} {
        BackToPending(k, [Requeue(k, w)]);
      } else {
        var other := env.pick(sends, c.availableWorkers);
        var msg := r.msg.GetOr([]);
        ghost var sent := env.request(sends);
        StillKnown(env, State(), other, k, r.vfs, msg, Move(k, w, other, msg));
        var ok := ForwardDirect(env, other, k, r.vfs, msg, Move(k, w, other, msg));
        if ok {
          WithdrawIfExhausted(other);
        } else {
          BackToPending(k, if sent then [] else [Requeue(k, w)]);
        }
      }
    }

    method Settle(env: Env, w: Identity, k: Key)
      requires Valid()
      modifies this`sends, this`log, contexts.Values, workers.Values
      ensures Valid() && State() == Scheduler.Settle(env, old(State()), w, k)
    {
      if k.kind in contexts && k.id in contexts[k.kind].requests {
        var r := contexts[k.kind].requests[k.id];
        if r.vfs.Has(RetryOnDeath) && r.tryCount < MAX_TRY_COUNT {
          hide Scheduler.Settle;
          Retry(env, w, k);
        } else {
          hide Scheduler.RemoveInProgress;
          if r.vfs.Has(NotifyOnDeath) || !r.vfs.Has(RetryOnDeath) {
            RemoveInProgress(k);
            Log([Fail(k, w, NoticeOf(r, NotifyOnDeath))]);
          } else {
            Log([Strand(k, w)]);
          }
        }
      }
    }

    method SettleAll(env: Env, w: Identity, t: RequestType, ids: seq<RequestId>)
      requires Valid()
      modifies this`sends, this`log, contexts.Values, workers.Values
      ensures Valid() && State() == Scheduler.SettleAll(env, old(State()), w, t, ids)
    {
      hide Scheduler.Settle;
      var i := 0;
      assert ids[0..] == ids;
      while i < |ids|
        invariant Valid() && 0 <= i <= |ids|
        invariant Scheduler.SettleAll(env, State(), w, t, ids[i..]) ==
                  Scheduler.SettleAll(env, old(State()), w, t, ids)
      {
        assert ids[i..][0] == ids[i] && ids[i..][1..] == ids[i + 1..];
        Settle(env, w, Key(t, ids[i]));
        i := i + 1;
      }
    }

    /** The dead worker leaves one type, and each request of that type it held is settled. */
    method LeaveType(env: Env, w: Identity, t: RequestType)
      requires Valid() && w in workers && t in contexts
      modifies this`sends, this`log, contexts.Values, workers.Values
      ensures Valid()
      ensures var s := old(State());
              var s1 := s.WithContext(t, s.contexts[t].DecrementNumWorkers().RemoveAvailableWorker(w));
              State() == Scheduler.SettleAll(env, s1, w, t, env.order(s.At(), w, t, HeldIds(s, w, t)))
    {
      hide Scheduler.SettleAll;
      var held := set k | k in workers[w].inProgressRequests && k.kind == t :: k.id;
      assert held == HeldIds(State(), w, t);
      label Before:
      contexts[t].DecrementNumWorkers();
      contexts[t].RemoveAvailableWorker(w);
      ContextChanged@Before(t);
      SettleAll(env, w, t, env.order(Moment(currentTime, sends), w, t, held));
    }

    method UpdateContextsForDeadWorker(env: Env, w: Identity)
      requires Valid() && w in workers
      modifies this`sends, this`log, contexts.Values, workers.Values
      ensures Valid() && State() == DeadWorker(env, old(State()), w, 0)
    {
      hide Scheduler.SettleAll;
      var i := 0;
      assert State().Types(w) == workers[w].supportedRequestTypes;
      while i < |workers[w].supportedRequestTypes|
        invariant Valid() && 0 <= i && State().Types(w) == workers[w].supportedRequestTypes
        invariant DeadWorker(env, State(), w, i) == DeadWorker(env, old(State()), w, 0)
      {
        if workers[w].supportedRequestTypes[i] in contexts {
          LeaveType(env, w, workers[w].supportedRequestTypes[i]);
        }
        i := i + 1;
      }
    }

    method RemoveWorker(w: Identity)
      modifies this`workers
      requires Valid()
      ensures Valid() && workers == old(workers) - {w}
      ensures State() == Scheduler.RemoveWorker(old(State()), w)
    {
      workers := workers - {w};
      assert Contexts() == old(Contexts());
      assert Workers() == old(Workers()) - {w};
    }

    method CheckWorker(env: Env, w: Identity, deathDelay: int)
      requires Valid()
      modifies this, contexts.Values, workers.Values
      ensures Valid() && contexts == old(contexts) && workers.Values <= old(workers.Values)
      ensures var s := old(State());
              State() == if w !in s.workers || s.workers[w].IsAliveAsOf(s.now, deathDelay) then s
                         else Scheduler.RemoveWorker(DeadWorker(env, s, w, 0), w)
    {
      hide DeadWorker;
      if w in workers && !workers[w].IsAliveAsOf(currentTime, deathDelay) {
        UpdateContextsForDeadWorker(env, w);
        RemoveWorker(w);
      }
    }

    method CheckWorkersPulse(env: Env, deathDelay: int)
      requires Valid()
      modifies this, contexts.Values, workers.Values
      ensures Valid() && contexts == old(contexts) && workers.Values <= old(workers.Values)
      ensures State() == Scheduler.CheckWorkersPulse(env, old(State()), deathDelay)
    {
      hide DeadWorker, Scheduler.RemoveWorker;
      assert State().workers.Keys == workers.Keys;
      var ws := env.roster(Moment(currentTime, sends), workers.Keys);
      var i := 0;
      assert ws[0..] == ws;
      while i < |ws|
        invariant Valid() && 0 <= i <= |ws|
        invariant contexts == old(contexts) && workers.Values <= old(workers.Values)
        invariant PulseFrom(env, State(), ws[i..], deathDelay) == PulseFrom(env, old(State()), ws, deathDelay)
      {
        assert ws[i..][0] == ws[i] && ws[i..][1..] == ws[i + 1..];
        CheckWorker(env, ws[i], deathDelay);
        i := i + 1;
      }
    }

    // ----- times -----

    method HandleWorkerHeartbeat(w: Identity, sentAt: int, delay: int, minimumDelay: int)
      requires Valid()
      modifies workers.Values
      ensures Valid()
      ensures State() == Scheduler.HandleWorkerHeartbeat(old(State()), w, sentAt, delay, minimumDelay)
    {
      if w in workers && 0 < sentAt <= currentTime && delay >= minimumDelay {
        label Before:
        workers[w].UpdateWithHeartbeat(currentTime, delay);
        WorkerChanged@Before(w);
      }
    }

    method HandleWorkerReceipt(w: Identity)
      requires Valid()
      modifies workers.Values
      ensures Valid() && State() == Scheduler.HandleWorkerReceipt(old(State()), w)
    {
      if w in workers {
        label Before:
        workers[w].UpdateWorkerLastActive(currentTime);
        WorkerChanged@Before(w);
      }
    }

    method Tick(now: int)
      requires Valid()
      modifies this`currentTime
      ensures Valid() && State() == old(State()).(now := now)
    {
      label Before:
      currentTime := now;
      SameTables@Before();
    }

    // ----- the reactor -----

    method Handle(env: Env, e: Event)
      requires Valid()
      modifies this, contexts.Values, workers.Values
      ensures Valid() && Grown() && State() == Step(env, old(State()), e)
    {
      hide ClientRequest, Scheduler.HandleWorkerReady, Scheduler.HandleWorkerFinished,
        Scheduler.CheckWorkersPulse, Scheduler.HandleWorkerHeartbeat, Scheduler.HandleWorkerReceipt;
      match e
      case Tick(now) => Tick(now);
      case Ask(k, vfs, msg) => ForwardParsedClientRequest(env, k, vfs, msg);
      case Ready(w, capacity, types, delay) => HandleWorkerReady(env, w, capacity, types, delay);
      case Finished(w, k) => HandleWorkerFinished(env, w, k);
      case Pulse(deathDelay) => CheckWorkersPulse(env, deathDelay);
      case Beat(w, sentAt, delay, minimumDelay) => HandleWorkerHeartbeat(w, sentAt, delay, minimumDelay);
      case Received(w) => HandleWorkerReceipt(w);
    }
  }

  /** A broker serving any sequence of events reaches the state its specification runs to; so when the
      events are sound its tables agree, and it has scheduled as the abstract scheduler may. */
  method Serve(env: Env, events: seq<Event>) returns (broker: Broker)
    ensures broker.Valid() && broker.State() == Run(env, Start0, events)
    ensures Fair(env) && Safety.SoundRun(env, Start0, events) ==> Inv(broker.State(), Settled)
  {
    hide Step;
    broker := new Broker();
    for i := 0 to |events|
      invariant broker.Valid() && broker.State() == Run(env, Start0, events[..i])
      invariant fresh(broker) && fresh(broker.contexts.Values) && fresh(broker.workers.Values)
    {
      assert events[..i + 1][..|events[..i + 1]| - 1] == events[..i];
      broker.Handle(env, events[i]);
    }
    assert events[..|events|] == events;
    if Fair(env) && Safety.SoundRun(env, Start0, events) {
      Safety.RunAgrees(env, events);
    }
  }
}

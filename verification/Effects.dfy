/** What each event does to the requests that are known, and to when each worker was heard of. */
module Effects {
  import opened Wrappers
  import opened Cluster
  import opened RequestContexts
  import opened Scheduler
  import opened Agreement
  import opened Forwarding
  import opened Requests
  import opened Deaths
  import opened Safety
  import opened Departures
  import opened Pulses

  // ----- serving one worker -----

  /** One worker was given pending requests: no other worker changed, and of this one neither when it was
      heard of nor its heartbeat delay; it was last sent something now if it was given any. Every request
      but one that ends is known as before, and its record as it was unless it left its list for this
      worker. */
  ghost predicate Serving(s: State, s': State, w: Identity, ended: set<Key>) {
    && s'.workers.Keys == s.workers.Keys && s'.now == s.now
    && (forall v :: v in s.workers && v != w ==> s'.workers[v] == s.workers[v])
    && (w in s.workers ==>
          && s'.workers[w].workerLastActive == s.workers[w].workerLastActive
          && s'.workers[w].heartbeatSendDelay == s.workers[w].heartbeatSendDelay
          && s'.workers[w].freeCapacity <= s.workers[w].freeCapacity
          && s'.workers[w].brokerLastActive ==
               if s'.workers[w].freeCapacity < s.workers[w].freeCapacity then s.now else s.workers[w].brokerLastActive)
    && (forall k :: k !in ended ==> (s'.Known(k) <==> s.Known(k)))
    && (forall k :: k !in ended && s.Known(k) ==>
          s'.Request(k) == s.Request(k) || (s.Request(k).place.Queued? && s'.Request(k).place == Assigned(w)))
  }

  lemma ServingTwice(s: State, s1: State, s2: State, w: Identity, ended: set<Key>)
    requires Serving(s, s1, w, ended) && Serving(s1, s2, w, ended)
    ensures Serving(s, s2, w, ended)
  {
  }

  lemma ServingSame(s: State, s': State, w: Identity, ended: set<Key>)
    requires SameRequests(s, s') && s'.now == s.now
    ensures Serving(s, s', w, ended)
  {
    forall k
      ensures s'.Known(k) <==> s.Known(k)
      ensures s.Known(k) ==> s'.Request(k) == s.Request(k)
    {
    }
  }

  lemma ForwardServes(env: Env, s: State, w: Identity, k: Key, ended: set<Key>)
    ensures Serving(s, ForwardQueued(env, s, w, k).state, w, ended)
  {
    if s.Known(k) && s.Request(k).place.Queued? && w in s.workers && env.request(s.sends) {
      ForwardQueuedIs(env, s, w, k);
      hide ForwardQueued;
      var s' := ForwardQueued(env, s, w, k).state;
      OneContext(s, s', k, s'.contexts[k.kind]);
      HandedOver(s.Request(k), w);
      hide SentFromQueue;
    }
  }

  lemma HandedOver(r: RequestState, w: Identity)
    ensures SentFromQueue(r, w).place == Assigned(w)
  {
  }

  lemma AddServes(s: State, t: RequestType, w: Identity, ended: set<Key>)
    ensures Serving(s, AddAvailable(s, t, w), w, ended)
  {
    ServingSame(s, AddAvailable(s, t, w), w, ended);
  }

  lemma WithdrawServes(s: State, v: Identity, n: nat, w: Identity, ended: set<Key>)
    ensures Serving(s, Withdraw(s, v, n), w, ended)
  {
    WithdrawSameRequests(s, v, n);
    WithdrawNow(s, v, n);
    hide Withdraw;
    ServingSame(s, Withdraw(s, v, n), w, ended);
  }

  /** All that can happen when a worker's type is visited and its first request sent. */
  lemma VisitServes(env: Env, s: State, w: Identity, k: Key, t: RequestType, n: nat, ended: set<Key>)
    ensures var s1 := ForwardQueued(env, s, w, k).state;
            && Serving(s, s1, w, ended) && Serving(s, AddAvailable(s1, t, w), w, ended)
            && Serving(s, Withdraw(s1, w, n), w, ended)
  {
    hide Serving, ForwardQueued, AddAvailable, Withdraw;
    var s1 := ForwardQueued(env, s, w, k).state;
    ForwardServes(env, s, w, k, ended);
    AddServes(s1, t, w, ended);
    WithdrawServes(s1, w, n, w, ended);
    ServingTwice(s, s1, AddAvailable(s1, t, w), w, ended);
    ServingTwice(s, s1, Withdraw(s1, w, n), w, ended);
  }

  lemma SweepVisitServes(env: Env, s: State, w: Identity, i: nat, more: bool, ended: set<Key>)
    requires i < |s.Types(w)|
    ensures Serving(s, SweepVisit(env, s, w, i, more).state, w, ended)
  {
    hide Serving;
    var t := s.Types(w)[i];
    ServingSame(s, s, w, ended);
    if s.Pending(t) != [] {
      VisitServes(env, s, w, Key(t, s.Pending(t)[0].id), t, i + 1, ended);
    }
  }

  lemma {:induction false} SweepServes(env: Env, s: State, w: Identity, i: nat, more: bool, ended: set<Key>)
    ensures Serving(s, Sweep(env, s, w, i, more).0, w, ended)
    decreases |s.Types(w)| - i
  {
    hide Serving, SweepVisit;
    ServingSame(s, s, w, ended);
    if i < |s.Types(w)| {
      var v := SweepVisit(env, s, w, i, more);
      SweepVisitServes(env, s, w, i, more, ended);
      if !v.stop {
        SweepServes(env, v.state, w, i + 1, v.more, ended);
        ServingTwice(s, v.state, Sweep(env, v.state, w, i + 1, v.more).0, w, ended);
      }
    }
  }

  lemma {:induction false} RoundsServe(env: Env, s: State, w: Identity, more: bool, ended: set<Key>)
    ensures Serving(s, Rounds(env, s, w, more), w, ended)
    decreases if more then 1 else 0, s.FreeCapacity(w)
  {
    hide Serving, Sweep;
    ServingSame(s, s, w, ended);
    if s.FreeCapacity(w) > 0 && more {
      var round := Sweep(env, s, w, 0, false);
      SweepServes(env, s, w, 0, false, ended);
      if round.1 {
        RoundsServe(env, round.0, w, true, ended);
        ServingTwice(s, round.0, Rounds(env, round.0, w, true), w, ended);
      }
    }
  }

  lemma CountingServes(s: State, t: RequestType, w: Identity)
    requires t in s.contexts
    ensures Serving(s, s.WithContext(t, s.contexts[t].IncrementNumWorkers()), w, {})
  {
    ServingSame(s, s.WithContext(t, s.contexts[t].IncrementNumWorkers()), w, {});
  }

  lemma NewTypeServes(s: State, t: RequestType, c: Context, w: Identity)
    requires t !in s.contexts && c.requests == map[]
    ensures Serving(s, s.WithContext(t, c), w, {})
  {
    var s' := s.WithContext(t, c);
    forall k
      ensures s'.Known(k) <==> s.Known(k)
      ensures s.Known(k) ==> s'.Request(k) == s.Request(k)
    {
    }
  }

  lemma NewWorkerVisitServes(env: Env, s: State, w: Identity, i: nat, more: bool)
    requires i < |s.Types(w)|
    ensures Serving(s, NewWorkerVisit(env, s, w, i, more).state, w, {})
  {
    hide Serving;
    var t := s.Types(w)[i];
    if t in s.contexts {
      var s1 := s.WithContext(t, s.contexts[t].IncrementNumWorkers());
      CountingServes(s, t, w);
      NewWorkerServedServes(env, s1, w, i, more);
      hide NewWorkerServed;
      ServingTwice(s, s1, NewWorkerVisit(env, s, w, i, more).state, w, {});
    } else {
      var c := NewContext().IncrementNumWorkers();
      NewTypeServes(s, t, if s.FreeCapacity(w) > 0 then c.AddAvailableWorker(w) else c, w);
    }
  }

  lemma NewWorkerServedServes(env: Env, s: State, w: Identity, i: nat, more: bool)
    requires i < |s.Types(w)|
    ensures Serving(s, NewWorkerServed(env, s, w, i, more).state, w, {})
  {
    hide Serving;
    var t := s.Types(w)[i];
    ServingSame(s, s, w, {});
    AddServes(s, t, w, {});
    if s.Pending(t) != [] {
      VisitServes(env, s, w, Key(t, s.Pending(t)[0].id), t, i, {});
    }
  }

  lemma {:induction false} NewWorkerPassServes(env: Env, s: State, w: Identity, i: nat, more: bool)
    ensures Serving(s, NewWorkerPass(env, s, w, i, more).0, w, {})
    decreases |s.Types(w)| - i
  {
    hide Serving, NewWorkerVisit;
    ServingSame(s, s, w, {});
    if i < |s.Types(w)| {
      var v := NewWorkerVisit(env, s, w, i, more);
      NewWorkerVisitServes(env, s, w, i, more);
      NewWorkerPassServes(env, v.state, w, i + 1, v.more);
      ServingTwice(s, v.state, NewWorkerPass(env, v.state, w, i + 1, v.more).0, w, {});
    }
  }

  lemma ErasureServes(s: State, k: Key, w: Identity)
    ensures Serving(s, RemoveInProgress(s, k), w, {k})
  {
    if k.kind in s.contexts {
      var c := s.contexts[k.kind].RemoveInProgressRequest(k.id);
      OneContext(s, RemoveInProgress(s, k), k, c);
    }
  }

  lemma FinishVisitServes(
    env: Env, s: State, w: Identity, i: nat, next: seq<Node>, more: bool, ended: set<Key>)
    requires i < |s.Types(w)|
    ensures Serving(s, FinishVisit(env, s, w, i, next, more).state, w, ended)
  {
    hide Serving;
    var t := s.Types(w)[i];
    AddServes(s, t, w, ended);
    if next != [] {
      VisitServes(env, s, w, Key(t, next[0].id), t, i + 1, ended);
    }
  }

  lemma {:induction false} FinishPassServes(
    env: Env, s: State, w: Identity, k: Key, i: nat, removed: bool, more: bool)
    ensures Serving(s, FinishPass(env, s, w, k, i, removed, more).state, w, {k})
    decreases |s.Types(w)| - i
  {
    hide Serving, FinishVisit;
    ServingSame(s, s, w, {k});
    if i < |s.Types(w)| {
      var t := s.Types(w)[i];
      if t !in s.contexts {
        FinishPassServes(env, s, w, k, i + 1, removed, more);
      } else {
        var erase := !removed && t == k.kind;
        var s1 := if erase then RemoveInProgress(s, k) else s;
        ErasureServes(s, k, w);
        var v := FinishVisit(env, s1, w, i, s.Pending(t), more);
        FinishVisitServes(env, s1, w, i, s.Pending(t), more, {k});
        ServingTwice(s, s1, v.state, w, {k});
        if !v.stop {
          FinishPassServes(env, v.state, w, k, i + 1, removed || erase, v.more);
          ServingTwice(s, v.state, FinishPass(env, v.state, w, k, i + 1, removed || erase, v.more).state, w, {k});
        }
      }
    }
  }

  // ----- a worker becomes ready, or finishes -----

  /** A worker that is taken up is registered with what it said of itself and as heard of now; no other
      worker changes, no request becomes known or unknown, and the only records that change are of
      requests that left their lists for it. */
  lemma ReadyServes(env: Env, s: State, w: Identity, capacity: int, types: seq<RequestType>, delay: int)
    requires Enrols(s, w, capacity, types)
    ensures var s' := HandleWorkerReady(env, s, w, capacity, types, delay);
            && s'.workers.Keys == s.workers.Keys + {w} && s'.Types(w) == types
            && s'.workers[w].workerLastActive == s.now && s'.workers[w].heartbeatSendDelay == delay
            && s'.workers[w].brokerLastActive == s.now
            && (forall v :: v in s.workers ==> s'.workers[v] == s.workers[v])
            && (forall k :: s'.Known(k) <==> s.Known(k))
            && (forall k :: s.Known(k) ==>
                  s'.Request(k) == s.Request(k) || (s.Request(k).place.Queued? && s'.Request(k).place == Assigned(w)))
  {
    hide Serving, NewWorkerPass, Rounds;
    var s1 := s.WithWorker(w, Info(capacity, types, {}, s.now, s.now, delay, capacity, 0));
    NewWorkerPassServes(env, s1, w, 0, false);
    var pass := NewWorkerPass(env, s1, w, 0, false);
    RoundsServe(env, pass.0, w, pass.1, {});
    RoundsTypes(env, pass.0, w, pass.1);
    var s' := HandleWorkerReady(env, s, w, capacity, types, delay);
    ServingTwice(s1, pass.0, s', w, {});
    assert forall k :: (s1.Known(k) <==> s.Known(k)) && (s.Known(k) ==> s1.Request(k) == s.Request(k));
    hide HandleWorkerReady;
    TakenUp(s, s1, s', w);
  }

  lemma {:induction false} RoundsTypes(env: Env, s: State, w: Identity, more: bool)
    ensures Rounds(env, s, w, more).Types(w) == s.Types(w)
    decreases if more then 1 else 0, s.FreeCapacity(w)
  {
    hide Sweep;
    if s.FreeCapacity(w) > 0 && more {
      var round := Sweep(env, s, w, 0, false);
      if round.1 {
        RoundsTypes(env, round.0, w, true);
      }
    }
  }

  lemma TakenUp(s: State, s1: State, s': State, w: Identity)
    requires w !in s.workers && s1.workers.Keys == s.workers.Keys + {w} && Serving(s1, s', w, {})
    requires forall v :: v in s.workers ==> s1.workers[v] == s.workers[v]
    requires forall k :: (s1.Known(k) <==> s.Known(k)) && (s.Known(k) ==> s1.Request(k) == s.Request(k))
    ensures forall v :: v in s.workers ==> v in s'.workers && s'.workers[v] == s.workers[v]
    ensures forall k :: s'.Known(k) <==> s.Known(k)
    ensures forall k :: s.Known(k) ==>
              s'.Request(k) == s.Request(k) || (s.Request(k).place.Queued? && s'.Request(k).place == Assigned(w))
    ensures w in s'.workers && s'.workers.Keys == s1.workers.Keys
    ensures s'.workers[w].workerLastActive == s1.workers[w].workerLastActive
    ensures s'.workers[w].heartbeatSendDelay == s1.workers[w].heartbeatSendDelay
    ensures s'.workers[w].brokerLastActive in {s1.workers[w].brokerLastActive, s1.now}
  {
  }

  /** A finish from a registered worker ends the one request it names, counts as hearing of that worker, as
      sending it something exactly if it was given a request, and otherwise changes only records of
      requests that left their lists for it. */
  lemma FinishedServes(env: Env, s: State, w: Identity, k: Key)
    requires w in s.workers
    ensures var s' := HandleWorkerFinished(env, s, w, k);
            && !s'.Known(k) && s'.workers.Keys == s.workers.Keys
            && s'.workers[w].workerLastActive == s.now
            && s'.workers[w].heartbeatSendDelay == s.workers[w].heartbeatSendDelay
            && s'.workers[w].brokerLastActive ==
                 (if s'.workers[w].freeCapacity <= s.workers[w].freeCapacity then s.now
                  else s.workers[w].brokerLastActive)
            && (forall v :: v in s.workers && v != w ==> s'.workers[v] == s.workers[v])
            && (forall other :: other != k ==> (s'.Known(other) <==> s.Known(other)))
            && (forall other :: other != k && s.Known(other) ==>
                  s'.Request(other) == s.Request(other)
                  || (s.Request(other).place.Queued? && s'.Request(other).place == Assigned(w)))
  {
    hide Serving, FinishPass, Rounds, FinishActions;
    var s1 := s
      .WithWorker(w, s.workers[w].RemoveInProgressRequest(k).(workerLastActive := s.now))
      .(log := s.log + FinishActions(s, w, k));
    var pass := if s1.FreeCapacity(w) > 0 then FinishPass(env, s1, w, k, 0, false, false)
                else Pass(s1, false, false);
    var s2 := if pass.removed then pass.state else RemoveInProgress(pass.state, k);
    var s' := HandleWorkerFinished(env, s, w, k);
    ServingSame(s1, s1, w, {k});
    FinishPassServes(env, s1, w, k, 0, false, false);
    FinishPassErases(env, s1, w, k, 0, false, false);
    ErasureServes(pass.state, k, w);
    assert !s2.Known(k);
    hide RemoveInProgress;
    ServingTwice(s1, pass.state, s2, w, {k});
    RoundsServe(env, s2, w, pass.more, {});
    RoundsServe(env, s2, w, pass.more, {k});
    ServingTwice(s1, s2, s', w, {k});
    assert forall other :: (s1.Known(other) <==> s.Known(other)) && (s.Known(other) ==> s1.Request(other) == s.Request(other));
    hide HandleWorkerFinished;
    EndedFor(s, s1, s2, s', w, k);
  }

  lemma EndedFor(s: State, s1: State, s2: State, s': State, w: Identity, k: Key)
    requires w in s.workers && s1.workers.Keys == s.workers.Keys && Serving(s1, s', w, {k})
    requires Serving(s2, s', w, {}) && !s2.Known(k)
    requires forall v :: v in s.workers && v != w ==> s1.workers[v] == s.workers[v]
    requires forall other :: (s1.Known(other) <==> s.Known(other)) && (s.Known(other) ==> s1.Request(other) == s.Request(other))
    ensures !s'.Known(k) && s'.workers.Keys == s.workers.Keys
    ensures forall v :: v in s.workers && v != w ==> s'.workers[v] == s.workers[v]
    ensures forall other :: other != k ==> (s'.Known(other) <==> s.Known(other))
    ensures forall other :: other != k && s.Known(other) ==>
              s'.Request(other) == s.Request(other)
              || (s.Request(other).place.Queued? && s'.Request(other).place == Assigned(w))
    ensures s'.workers[w].workerLastActive == s1.workers[w].workerLastActive
    ensures s'.workers[w].heartbeatSendDelay == s1.workers[w].heartbeatSendDelay
    ensures s'.workers[w].brokerLastActive ==
              if s'.workers[w].freeCapacity < s1.workers[w].freeCapacity then s1.now else s1.workers[w].brokerLastActive
  {
  }

  /** A pass that says that it erased the finished request has. */
  lemma {:induction false} FinishPassErases(
    env: Env, s: State, w: Identity, k: Key, i: nat, removed: bool, more: bool)
    requires removed ==> !s.Known(k)
    ensures var p := FinishPass(env, s, w, k, i, removed, more);
            p.removed ==> !p.state.Known(k)
    decreases |s.Types(w)| - i
  {
    hide Serving, FinishVisit;
    if i < |s.Types(w)| {
      var t := s.Types(w)[i];
      if t !in s.contexts {
        FinishPassErases(env, s, w, k, i + 1, removed, more);
      } else {
        var erase := !removed && t == k.kind;
        var s1 := if erase then RemoveInProgress(s, k) else s;
        var v := FinishVisit(env, s1, w, i, s.Pending(t), more);
        FinishVisitServes(env, s1, w, i, s.Pending(t), more, {});
        ServedUnknown(s1, v.state, w, k);
        if !v.stop {
          FinishPassErases(env, v.state, w, k, i + 1, removed || erase, v.more);
        }
      }
    }
  }

  lemma ServedUnknown(s: State, s': State, w: Identity, k: Key)
    requires Serving(s, s', w, {})
    ensures s'.Known(k) <==> s.Known(k)
  {
  }

  // ----- a client asks -----

  /** Whether a new request goes straight to a worker: one is available and the send gets out. */
  predicate GoesOut(env: Env, s: State, t: RequestType) {
    s.Available(t) != {} && env.request(s.sends)
  }

  /** No other request's record and no other type's list changed. */
  ghost predicate OthersKept(s: State, s': State, k: Key) {
    && (forall other :: other != k ==> (s'.Known(other) <==> s.Known(other)))
    && (forall other :: other != k && s.Known(other) ==> s'.Request(other) == s.Request(other))
    && (forall t :: t != k.kind ==> s'.Pending(t) == s.Pending(t))
  }

  /** The request waits at the end of its type's list, as it was asked for, and no worker changed. */
  ghost predicate Queues(s: State, s': State, k: Key, vfs: VersionFlags, msg: Message) {
    && s'.Known(k) && s'.workers == s.workers && OthersKept(s, s', k)
    && Ids(s'.Pending(k.kind)) == Ids(s.Pending(k.kind)) + [k.id]
    && s'.Request(k).place.Queued? && s'.Request(k).vfs == vfs && s'.Request(k).msg == Some(msg)
    && s'.Request(k).tryCount == 0
  }

  /** One worker that was available has the request, counts as heard of, and nobody else changed. */
  ghost predicate Takes(s: State, s': State, k: Key, w: Identity) {
    && s'.Known(k) && OthersKept(s, s', k)
    && w in s.Available(k.kind) && w in s.workers && s'.workers.Keys == s.workers.Keys
    && s'.Held(w) == s.Held(w) + {k} && s'.FreeCapacity(w) == s.FreeCapacity(w) - 1
    && s'.workers[w].workerLastActive == s.now && s'.workers[w].heartbeatSendDelay == s.workers[w].heartbeatSendDelay
    && (forall v :: v in s.workers && v != w ==> s'.workers[v] == s.workers[v])
  }

  lemma Appended(s: State, s': State, k: Key, vfs: VersionFlags, msg: Message)
    requires !s.Known(k) && s'.workers == s.workers
    requires var c := if k.kind in s.contexts then s.contexts[k.kind] else NewContext();
             s'.contexts == s.contexts[k.kind := c.AddPendingRequest(k.id, vfs, Some(msg))]
    ensures Queues(s, s', k, vfs, msg)
  {
    OneContext(s, s', k, s'.contexts[k.kind]);
    assert s'.Pending(k.kind)[..|s.Pending(k.kind)|] == s.Pending(k.kind);
  }

  lemma DirectTakes(env: Env, s: State, k: Key, vfs: VersionFlags, msg: Message, w: Identity, x: Action)
    requires !s.Known(k) && w in s.Available(k.kind) && w in s.workers && env.request(s.sends)
    ensures Takes(s, ForwardDirect(env, s, w, k, vfs, msg, x).state, k, w)
  {
    ForwardDirectIs(env, s, w, k, vfs, msg, x);
    hide ForwardDirect, DirectRecord, Stored;
    var s' := ForwardDirect(env, s, w, k, vfs, msg, x).state;
    OneContext(s, s', k, s'.contexts[k.kind]);
  }

  lemma TakenSame(s: State, s1: State, s2: State, k: Key, w: Identity)
    requires Takes(s, s1, k, w) && s2.workers == s1.workers
    requires forall other :: (s2.Known(other) <==> s1.Known(other))
    requires forall other :: other != k && s1.Known(other) ==> s2.Request(other) == s1.Request(other)
    requires forall t :: t != k.kind ==> s2.Pending(t) == s1.Pending(t)
    ensures Takes(s, s2, k, w)
  {
    hide Takes, OthersKept;
    TakenParts(s, s1, k, w);
    TakenFrom(s, s1, s2, k, w);
  }

  lemma TakenParts(s: State, s1: State, k: Key, w: Identity)
    requires Takes(s, s1, k, w)
    ensures s1.Known(k) && OthersKept(s, s1, k)
  {
  }

  lemma TakenFrom(s: State, s1: State, s2: State, k: Key, w: Identity)
    requires Takes(s, s1, k, w) && s2.workers == s1.workers
    requires forall other :: (s2.Known(other) <==> s1.Known(other))
    requires forall other :: other != k && s1.Known(other) ==> s2.Request(other) == s1.Request(other)
    requires forall t :: t != k.kind ==> s2.Pending(t) == s1.Pending(t)
    ensures Takes(s, s2, k, w)
  {
    assert s2.Held(w) == s1.Held(w) && s2.FreeCapacity(w) == s1.FreeCapacity(w);
  }

  lemma WithdrawnTakes(s: State, s1: State, k: Key, w: Identity, n: nat)
    requires Takes(s, s1, k, w)
    ensures Takes(s, Withdraw(s1, w, n), k, w)
  {
    WithdrawSameRequests(s1, w, n);
    hide Withdraw, Takes, OthersKept;
    var s2 := Withdraw(s1, w, n);
    forall other
      ensures s2.Known(other) <==> s1.Known(other)
      ensures s1.Known(other) ==> s2.Request(other) == s1.Request(other)
    {
    }
    TakenSame(s, s1, s2, k, w);
  }

  lemma RequeuedTakes(s: State, s1: State, k: Key, vfs: VersionFlags, w: Identity)
    requires Takes(s, s1, k, w)
    ensures Takes(s, AddPending(s1, k, vfs, None, []), k, w)
  {
    var s2 := AddPending(s1, k, vfs, None, []);
    assert s1.Known(k);
    var c := s1.contexts[k.kind].AddPendingRequest(k.id, vfs, None);
    OneContext(s1, s2, k, c);
    hide Takes;
    TakenSame(s, s1, s2, k, w);
  }

  /** A new request is never dropped, whatever is sent or lost: it goes to one worker that was available
      for it if the send gets out; if not, or if nobody is available, it waits behind all others. */
  lemma NewRequestKept(env: Env, s: State, k: Key, vfs: VersionFlags, msg: Message)
    requires Fair(env) && AvailableAgrees(s) && !s.Known(k)
    ensures var s' := Step(env, s, Ask(k, vfs, msg));
            if GoesOut(env, s, k.kind) then exists w :: Takes(s, s', k, w)
            else Queues(s, s', k, vfs, msg)
  {
    var s' := Step(env, s, Ask(k, vfs, msg));
    if GoesOut(env, s, k.kind) {
      AskedTakes(env, s, k, vfs, msg);
    } else if s.Available(k.kind) != {} {
      PickedSupports(env, s, k.kind);
      hide Queues, Takes, Fair;
      var w := env.pick(s.sends, s.Available(k.kind));
      assert ForwardDirect(env, s, w, k, vfs, msg, Start(k, vfs, msg, w)) == Sent(s.(sends := s.sends + 1), false);
      Appended(s, s', k, vfs, msg);
    } else {
      hide Queues, Takes, Fair;
      Appended(s, s', k, vfs, msg);
    }
  }

  /** The worker is the one an unordered set yields first. */
  lemma AskedTakes(env: Env, s: State, k: Key, vfs: VersionFlags, msg: Message)
    requires Fair(env) && AvailableAgrees(s) && !s.Known(k) && GoesOut(env, s, k.kind)
    ensures Takes(s, Step(env, s, Ask(k, vfs, msg)), k, env.pick(s.sends, s.Available(k.kind)))
  {
    hide Takes, AvailableAgrees, Fair;
    PickedSupports(env, s, k.kind);
    var w := env.pick(s.sends, s.Available(k.kind));
    var x := Start(k, vfs, msg, w);
    var out := ForwardDirect(env, s, w, k, vfs, msg, x);
    DirectTakes(env, s, k, vfs, msg, w, x);
    TakenParts(s, out.state, k, w);
    hide ForwardDirect, OthersKept;
    if out.ok {
      WithdrawnTakes(s, out.state, k, w, |out.state.Types(w)|);
    } else {
      RequeuedTakes(s, out.state, k, vfs, w);
    }
  }

  /** The way back a stored request has, if it asks to be told when another client takes it over. */
  function Former(r: RequestState): Option<Message> {
    if r.vfs.Has(NotifyOnRedirect) && r.msg.Some? then Some(Envelope(r.msg.value)) else None
  }

  /** The same request again changes nothing but its own record. It is rejected, and nothing else, if the
      one there does not allow redirects. Otherwise it is from now on the new client's: as it waits; or, at
      a worker, if the redirect gets out, with the copy a retry needs. The former client is told if it asked. */
  lemma RepeatedServes(env: Env, s: State, k: Key, vfs: VersionFlags, msg: Message)
    requires s.Known(k)
    ensures var s' := Step(env, s, Ask(k, vfs, msg));
            var r := s.Request(k);
            && OthersKept(s, s', k) && s'.Pending(k.kind) == s.Pending(k.kind) && s'.workers == s.workers
            && s'.Known(k) && s'.Request(k).place == r.place && s'.Request(k).tryCount == r.tryCount
            && if !r.vfs.Has(AllowRedirect) then
                 s'.Request(k) == r && s'.log == s.log + [Reject(k, Envelope(msg))]
               else if r.place.Queued? then
                 && s'.Request(k).vfs == vfs && s'.Request(k).msg == Some(msg)
                 && s'.log == s.log + [Redirect(k, vfs, msg, None, Former(r))]
               else if !env.request(s.sends) then
                 s'.Request(k) == r && s'.log == s.log
               else
                 && s'.Request(k).vfs == vfs && (vfs.Has(RetryOnDeath) ==> s'.Request(k).msg == Some(msg))
                 && s'.log == s.log + [Redirect(k, vfs, msg, Some(r.place.worker), Former(r))] + ReceiptFor(k, vfs, msg)
  {
    var s' := Step(env, s, Ask(k, vfs, msg));
    var r := s.Request(k);
    if r.vfs.Has(AllowRedirect) && r.place.Assigned? && env.request(s.sends) {
      RepeatedRequestIs(env, s, k, vfs, msg);
      hide RepeatedRequest;
    }
    if r.vfs.Has(AllowRedirect) && (r.place.Queued? || env.request(s.sends)) {
      OneContext(s, s', k, s'.contexts[k.kind]);
    }
  }

  // ----- what stays known -----

  /** A request that is known, or asked for, is known after a step, unless the step is a finish for it from a
      registered worker, or a pulse check that removes the worker holding it when it may be neither
      retried nor left alone. */
  predicate Ends(s: State, s': State, e: Event, k: Key) {
    match e
    case Finished(w, other) => w in s.workers && other == k
    case Pulse(_) =>
      && (exists w | w in s.workers :: w !in s'.workers && k in s.Held(w))
      && s.Known(k) && !Retryable(s.Request(k)) && !Abandoned(s.Request(k))
    case _ => false
  }

  lemma KnownAfter(env: Env, s: State, e: Event, k: Key)
    requires Fair(env) && Inv(s, Settled) && Sound(env, s, e)
    ensures var s' := Step(env, s, e);
            s'.Known(k) <==> (s.Known(k) || (e.Ask? && e.key == k)) && !Ends(s, s', e, k)
  {
    hide Inv, Fair, Sound, HandleWorkerReady, HandleWorkerFinished, CheckWorkersPulse, ClientRequest;
    match e
    case Ask(other, vfs, msg) =>
      AvailableKnown(s, Settled);
      AskKnown(env, s, other, vfs, msg, k);
    case Ready(w, capacity, types, delay) => ReadyKnown(env, s, w, capacity, types, delay, k);
    case Finished(w, other) => FinishedKnown(env, s, w, other, k);
    case Pulse(deathDelay) => PulseKnown(env, s, deathDelay, k);
    case _ =>
  }

  lemma ReadyKnown(env: Env, s: State, w: Identity, capacity: int, types: seq<RequestType>, delay: int, k: Key)
    ensures HandleWorkerReady(env, s, w, capacity, types, delay).Known(k) <==> s.Known(k)
  {
    if Enrols(s, w, capacity, types) {
      ReadyServes(env, s, w, capacity, types, delay);
      hide HandleWorkerReady;
    }
  }

  lemma FinishedKnown(env: Env, s: State, w: Identity, other: Key, k: Key)
    ensures HandleWorkerFinished(env, s, w, other).Known(k) <==> s.Known(k) && !(w in s.workers && other == k)
  {
    if w in s.workers {
      FinishedServes(env, s, w, other);
      hide HandleWorkerFinished;
    }
  }

  lemma PulseKnown(env: Env, s: State, deathDelay: int, k: Key)
    requires Fair(env) && Inv(s, Settled) && Sound(env, s, Pulse(deathDelay))
    ensures var s' := CheckWorkersPulse(env, s, deathDelay);
            s'.Known(k) <==> s.Known(k) && !Ends(s, s', Pulse(deathDelay), k)
  {
    hide Inv, Fair, Sound, CheckWorkersPulse, Retryable, Abandoned;
    PulseSettles(env, s, deathDelay);
    assert Passed(s, CheckWorkersPulse(env, s, deathDelay), k);
  }

  lemma AskKnown(env: Env, s: State, other: Key, vfs: VersionFlags, msg: Message, k: Key)
    requires Fair(env) && AvailableAgrees(s)
    ensures Step(env, s, Ask(other, vfs, msg)).Known(k) <==> s.Known(k) || k == other
  {
    var s' := Step(env, s, Ask(other, vfs, msg));
    if s.Known(other) {
      RepeatedServes(env, s, other, vfs, msg);
    } else {
      NewRequestKept(env, s, other, vfs, msg);
      if GoesOut(env, s, other.kind) {
        var w :| Takes(s, s', other, w);
      }
    }
    hide Step;
  }

  /** Over any sound run, whatever sends fail and whatever receipts are lost by then, a request once asked
      for stays known until one of its ends comes. */
  lemma {:induction false} KnownUntilEnded(env: Env, events: seq<Event>, i: nat, k: Key)
    requires Fair(env) && SoundRun(env, Start0, events)
    requires i < |events| && events[i].Ask? && events[i].key == k
    ensures Run(env, Start0, events).Known(k) || exists n :: i < n < |events| && EndsAt(env, events, n, k)
  {
    hide Inv, Sound, Fair, EndsAt;
    var last := |events| - 1;
    var before := events[..last];
    RunAgrees(env, before);
    LastStep(env, events, k);
    if i < last {
      KnownUntilEnded(env, before, i, k);
      if !Run(env, Start0, before).Known(k) {
        var n :| i < n < last && EndsAt(env, before, n, k);
        SameEnd(env, events, n, k);
      }
    }
  }

  /** The n-th event of a run ends a request. */
  ghost predicate EndsAt(env: Env, events: seq<Event>, n: nat, k: Key) {
    n < |events| && Ends(Run(env, Start0, events[..n]), Run(env, Start0, events[..n + 1]), events[n], k)
  }

  lemma SameEnd(env: Env, events: seq<Event>, n: nat, k: Key)
    requires events != [] && EndsAt(env, events[..|events| - 1], n, k)
    ensures EndsAt(env, events, n, k)
  {
    hide Ends, Run;
    var before := events[..|events| - 1];
    assert before[..n] == events[..n] && before[..n + 1] == events[..n + 1];
  }

  lemma LastStep(env: Env, events: seq<Event>, k: Key)
    requires Fair(env) && events != []
    requires var before := Run(env, Start0, events[..|events| - 1]);
             Inv(before, Settled) && Sound(env, before, events[|events| - 1])
    ensures var before := Run(env, Start0, events[..|events| - 1]);
            var e := events[|events| - 1];
            && (e.Ask? && e.key == k ==> Run(env, Start0, events).Known(k))
            && (before.Known(k) ==> Run(env, Start0, events).Known(k) || EndsAt(env, events, |events| - 1, k))
  {
    hide Inv, Sound, Fair, Step;
    var last := |events| - 1;
    assert events[..last + 1] == events;
    KnownAfter(env, Run(env, Start0, events[..last]), events[last], k);
  }

  // ----- when a worker was heard of -----

  /** What counts as hearing of a worker: its finish, its receipt, and a heartbeat sent in the past with
      an acceptable delay; and, by the code, a request that goes straight to it. */
  predicate Refreshes(env: Env, s: State, e: Event, v: Identity) {
    match e
    case Finished(w, _) => w == v
    case Received(w) => w == v
    case Beat(w, sentAt, delay, minimumDelay) => w == v && 0 < sentAt <= s.now && delay >= minimumDelay
    case Ask(k, _, _) => !s.Known(k) && GoesOut(env, s, k.kind) && env.pick(s.sends, s.Available(k.kind)) == v
    case Pulse(deathDelay) => v in PulseTakers(env, s, env.roster(s.At(), s.workers.Keys), deathDelay)
    case _ => false
  }

  /** After every step a registered worker that stays was last heard of now, exactly if the step counts as
      hearing of it, and else when it was before; and its heartbeat delay is what it was, unless the step is
      such a heartbeat, which sets it. */
  lemma HeardExactly(env: Env, s: State, e: Event, v: Identity)
    requires Fair(env) && AvailableAgrees(s) && v in s.workers && v in Step(env, s, e).workers
    requires e.Pulse? ==> e.deathDelay > 0
    ensures var s' := Step(env, s, e);
            && LastActive(s', v) == (if Refreshes(env, s, e, v) then s.now else LastActive(s, v))
            && s'.workers[v].heartbeatSendDelay ==
                 if e.Beat? && Refreshes(env, s, e, v) then e.delay else s.workers[v].heartbeatSendDelay
  {
    match e
    case Ask(k, vfs, msg) =>
      if s.Known(k) {
        RepeatedServes(env, s, k, vfs, msg);
      } else if GoesOut(env, s, k.kind) {
        AskedTakes(env, s, k, vfs, msg);
      } else {
        NewRequestKept(env, s, k, vfs, msg);
      }
      hide Step;
    case Ready(w, capacity, types, delay) =>
      if Enrols(s, w, capacity, types) {
        ReadyServes(env, s, w, capacity, types, delay);
      }
    case Finished(w, k) =>
      if w in s.workers {
        FinishedServes(env, s, w, k);
      }
    case Pulse(deathDelay) =>
      var ws := env.roster(s.At(), s.workers.Keys);
      assert Lists(ws, s.workers.Keys);
      PulseOutlived(env, s, ws, deathDelay);
      hide PulseFrom, PulseTakers;
    case _ =>
  }
}

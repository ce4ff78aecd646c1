/** Requests that a death leaves in progress at no worker: which they are, and that they stay so. */
module Stranding {
  import opened Wrappers
  import opened Cluster
  import opened RequestContexts
  import opened Scheduler
  import opened Agreement
  import opened Forwarding
  import opened Requests
  import opened Deaths
  import opened Safety
  import opened Conservation
  import opened Departures

  // ----- a request no branch covers -----

  /** A request newly held is one that was retried, and only requests of the dead worker are. */
  ghost predicate Newly(s: State, s': State, ks: set<Key>) {
    forall v, k :: k in s'.Held(v) && k !in s.Held(v) ==> k in ks && s.Known(k) && Retryable(s.Request(k))
  }

  lemma SettleNewly(env: Env, s: State, w: Identity, k: Key)
    ensures Newly(s, Settle(env, s, w, k), {k})
  {
    if s.Known(k) && Retryable(s.Request(k)) && s.Available(k.kind) != {} {
      var r := s.Request(k);
      var to := env.pick(s.sends, s.Available(k.kind));
      var msg := r.msg.GetOr([]);
      if to in s.workers && env.request(s.sends) {
        ForwardDirectIs(env, s, to, k, r.vfs, msg, Move(k, w, to, msg));
      }
      var s1 := ForwardDirect(env, s, to, k, r.vfs, msg, Move(k, w, to, msg)).state;
      assert Newly(s, s1, {k});
      assert Settle(env, s, w, k).workers == s1.workers;
      hide Settle, ForwardDirect;
      forall v
        ensures Settle(env, s, w, k).Held(v) == s1.Held(v)
      {
      }
    } else {
      assert Settle(env, s, w, k).workers == s.workers;
    }
  }

  lemma NewlyTwice(s: State, s1: State, s2: State, w: Identity, ks: set<Key>, more: set<Key>)
    requires Newly(s, s1, ks) && Newly(s1, s2, more) && Aside(s, s1, w, ks) && ks !! more
    ensures Newly(s, s2, ks + more)
  {
  }

  lemma {:induction false} SettleAllNewly(
    env: Env, s: State, w: Identity, t: RequestType, ids: seq<RequestId>, todo: set<Key>)
    requires Fair(env) && SettleAllSafe(env, s, w, t, ids)
    requires Inv(s, Dying(w, todo)) && w in s.workers && w !in s.Available(t)
    requires Distinct(ids) && KeysOf(t, ids) <= todo
    ensures Newly(s, SettleAll(env, s, w, t, ids), KeysOf(t, ids))
    decreases |ids|
  {
    hide Inv, Aside, Fate, Newly;
    if ids == [] {
      NewlySame(s, s, KeysOf(t, ids));
    } else {
      var k := Key(t, ids[0]);
      assert k in KeysOf(t, ids);
      var s1 := Settle(env, s, w, k);
      SettledOne(env, s, w, k, todo);
      KeysOfTail(t, ids);
      SettleNewly(env, s, w, k);
      SettleAllNewly(env, s1, w, t, ids[1..], todo - {k});
      NewlyTwice(s, s1, SettleAll(env, s1, w, t, ids[1..]), w, {k}, KeysOf(t, ids[1..]));
    }
  }

  lemma NewlySame(s: State, s': State, ks: set<Key>)
    requires s'.workers == s.workers
    ensures Newly(s, s', ks)
  {
    forall v
      ensures s'.Held(v) == s.Held(v)
    {
    }
  }

  lemma {:induction false} DeadWorkerNewly(env: Env, s: State, w: Identity, i: nat)
    requires w in s.workers && i <= |s.Types(w)| && Distinct(s.Types(w)) && LeftUpTo(s, w, i)
    requires Fair(env) && DeadSafe(env, s, w, i)
    requires Inv(s, Dying(w, Unsettled(s, w, i)))
    ensures Newly(s, DeadWorker(env, s, w, i), Unsettled(s, w, i))
    decreases |s.Types(w)| - i
  {
    hide Inv, Aside, Fate, LeftUpTo, Distinct, Newly, SettleAllSafe;
    if i == |s.Types(w)| {
      NewlySame(s, s, Unsettled(s, w, i));
    } else if s.Types(w)[i] !in s.contexts {
      UnknownTypeSettled(s, w, i);
      DeadWorkerNewly(env, s, w, i + 1);
    } else {
      var t := s.Types(w)[i];
      var ids := env.order(s.At(), w, t, HeldIds(s, w, t));
      var s2 := SettleAll(env, Leave(s, w, t), w, t, ids);
      TypeSettled(env, s, w, i);
      TypeNewly(env, s, w, i);
      assert Unsettled(s, w, i) - KeysOf(t, ids) == Unsettled(s2, w, i + 1);
      DeadWorkerNewly(env, s2, w, i + 1);
      NewlyTwice(s, s2, DeadWorker(env, s2, w, i + 1), w, KeysOf(t, ids), Unsettled(s2, w, i + 1));
    }
  }

  lemma TypeNewly(env: Env, s: State, w: Identity, i: nat)
    requires w in s.workers && i < |s.Types(w)| && Distinct(s.Types(w)) && LeftUpTo(s, w, i)
    requires Fair(env) && DeadSafe(env, s, w, i)
    requires Inv(s, Dying(w, Unsettled(s, w, i))) && s.Types(w)[i] in s.contexts
    ensures var t := s.Types(w)[i];
            var ids := env.order(s.At(), w, t, HeldIds(s, w, t));
            Newly(s, SettleAll(env, Leave(s, w, t), w, t, ids), KeysOf(t, ids))
  {
    var t := s.Types(w)[i];
    var ids := env.order(s.At(), w, t, HeldIds(s, w, t));
    assert Lists(ids, HeldIds(s, w, t));
    var todo := Unsettled(s, w, i);
    UnsettledSplit(s, w, i, ids);
    hide Inv, Newly, Fair;
    LeaveAgrees(s, w, t, Dying(w, todo));
    var s1 := Leave(s, w, t);
    SettleAllNewly(env, s1, w, t, ids, todo);
    LeaveNewly(s, s1, SettleAll(env, s1, w, t, ids), w, KeysOf(t, ids));
  }

  lemma LeaveNewly(s: State, s1: State, s2: State, w: Identity, ks: set<Key>)
    requires Aside(s, s1, w, {}) && s1.workers == s.workers && Newly(s1, s2, ks)
    ensures Newly(s, s2, ks)
  {
    NewlySame(s, s1, {});
    NewlyTwice(s, s1, s2, w, {}, ks);
    assert {} + ks == ks;
  }

  /** After a death, the requests in progress at no worker are those that already were, and those of
      the dead worker that may not be retried, asked for retries and did not ask to be notified. */
  lemma DeathStrandsIff(env: Env, s: State, w: Identity, k: Key)
    requires Fair(env) && DeadSafe(env, s, w, 0) && Inv(s, Settled) && w in s.workers
    ensures Stranded(RemoveWorker(DeadWorker(env, s, w, 0), w), k) <==>
              Stranded(s, k) || (k in s.Held(w) && s.Known(k) && Abandoned(s.Request(k)))
  {
    DeathBegins(s, w);
    var s1 := DeadWorker(env, s, w, 0);
    DeathAgrees(env, s, w);
    DeadWorkerAgrees(env, s, w, 0);
    DeadWorkerNewly(env, s, w, 0);
    if s.Known(k) {
      OnePlace(s, k);
    }
    if k in s.Held(w) {
      HeldIsAssigned(s, w, k);
    }
    hide Inv, DeadWorker, Fate;
    DeathStrands(s, s1, w, k);
  }

  lemma DeathStrands(s: State, s1: State, w: Identity, k: Key)
    requires w in s.workers && Newly(s, s1, s.Held(w)) && Aside(s, s1, w, s.Held(w))
    requires forall v :: k in s.Held(w) && k in s.Held(v) ==> v == w
    requires k in s.Held(w) ==>
               s.Known(k) && s.Request(k).place.Assigned? && Fate(s.Request(k), s1, w, k)
    ensures Stranded(RemoveWorker(s1, w), k) <==>
              Stranded(s, k) || (k in s.Held(w) && s.Known(k) && Abandoned(s.Request(k)))
  {
    var s' := RemoveWorker(s1, w);
    forall v | v != w
      ensures s'.Held(v) == s1.Held(v) && s.Held(v) <= s1.Held(v)
    {
    }
    if k in s.Held(w) {
      HeldStrands(s, s1, w, k);
    } else {
      assert s'.Known(k) <==> s.Known(k);
      assert forall v :: k in s1.Held(v) <==> k in s.Held(v);
    }
  }

  lemma HeldStrands(s: State, s1: State, w: Identity, k: Key)
    requires w in s.workers && Newly(s, s1, s.Held(w)) && Aside(s, s1, w, s.Held(w)) && k in s.Held(w)
    requires forall v :: k in s.Held(v) ==> v == w
    requires s.Known(k) && s.Request(k).place.Assigned? && Fate(s.Request(k), s1, w, k)
    ensures Stranded(RemoveWorker(s1, w), k) <==> Abandoned(s.Request(k))
  {
    var s' := RemoveWorker(s1, w);
    if Abandoned(s.Request(k)) {
      forall v | v in s'.workers
        ensures k !in s'.Held(v)
      {
        assert k in s1.Held(v) ==> k in s.Held(v);
      }
    } else if Retryable(s.Request(k)) && s'.Request(k).place.Assigned? {
      var v :| v != w && v in s1.workers && k in s1.workers[v].held;
      assert v in s'.workers && k in s'.Held(v);
    }
  }

  // ----- what is abandoned stays so -----

  /** A request's record keeps its place, and nobody newly holds it. */
  ghost predicate Untaken(s: State, s': State, k: Key) {
    && (s.Known(k) && s.Request(k).place.Assigned? ==> s'.Known(k) && s'.Request(k).place == s.Request(k).place)
    && (forall v :: k in s'.Held(v) ==> k in s.Held(v))
  }

  lemma UntakenStranded(s: State, s': State, k: Key)
    requires Stranded(s, k) && Untaken(s, s', k)
    ensures Stranded(s', k)
  {
    forall v | v in s'.workers
      ensures k !in s'.Held(v)
    {
      assert k in s'.Held(v) ==> v in s.workers;
    }
  }

  lemma ForwardStranded(env: Env, s: State, w: Identity, other: Key, k: Key)
    requires Stranded(s, k)
    ensures Stranded(ForwardQueued(env, s, w, other).state, k)
  {
    if s.Known(other) && s.Request(other).place.Queued? && w in s.workers && env.request(s.sends) {
      ForwardQueuedIs(env, s, w, other);
      hide ForwardQueued;
      UntakenStranded(s, ForwardQueued(env, s, w, other).state, k);
    }
  }

  lemma DirectStranded(
    env: Env, s: State, w: Identity, other: Key, vfs: VersionFlags, msg: Message, action: Action, k: Key)
    requires Stranded(s, k) && other != k
    ensures Stranded(ForwardDirect(env, s, w, other, vfs, msg, action).state, k)
  {
    if other.kind in s.contexts && w in s.workers && env.request(s.sends) {
      ForwardDirectIs(env, s, w, other, vfs, msg, action);
      hide ForwardDirect;
      UntakenStranded(s, ForwardDirect(env, s, w, other, vfs, msg, action).state, k);
    }
  }

  lemma SameStranded(s: State, s': State, k: Key)
    requires Stranded(s, k) && SameRequests(s, s')
    ensures Stranded(s', k)
  {
  }

  lemma VisitsStranded(s: State, w: Identity, t: RequestType, i: nat, k: Key)
    requires Stranded(s, k)
    ensures Stranded(AddAvailable(s, t, w), k) && Stranded(Withdraw(s, w, i), k)
  {
    WithdrawSameRequests(s, w, i);
    hide Stranded, Withdraw;
    SameStranded(s, Withdraw(s, w, i), k);
    SameStranded(s, AddAvailable(s, t, w), k);
  }

  lemma SweepVisitStranded(env: Env, s: State, w: Identity, i: nat, more: bool, k: Key)
    requires Stranded(s, k) && i < |s.Types(w)|
    ensures Stranded(SweepVisit(env, s, w, i, more).state, k)
  {
    hide Stranded;
    var t := s.Types(w)[i];
    if s.Pending(t) != [] {
      var other := Key(t, s.Pending(t)[0].id);
      ForwardStranded(env, s, w, other, k);
      VisitsStranded(ForwardQueued(env, s, w, other).state, w, t, i + 1, k);
    }
  }

  lemma {:induction false} SweepStranded(env: Env, s: State, w: Identity, i: nat, more: bool, k: Key)
    requires Stranded(s, k)
    ensures Stranded(Sweep(env, s, w, i, more).0, k)
    decreases |s.Types(w)| - i
  {
    hide Stranded, SweepVisit;
    if i < |s.Types(w)| {
      var visit := SweepVisit(env, s, w, i, more);
      SweepVisitStranded(env, s, w, i, more, k);
      if !visit.stop {
        SweepStranded(env, visit.state, w, i + 1, visit.more, k);
      }
    }
  }

  lemma {:induction false} RoundsStranded(env: Env, s: State, w: Identity, more: bool, k: Key)
    requires Stranded(s, k)
    ensures Stranded(Rounds(env, s, w, more), k)
    decreases if more then 1 else 0, s.FreeCapacity(w)
  {
    hide Stranded;
    if s.FreeCapacity(w) > 0 && more {
      SweepStranded(env, s, w, 0, false, k);
      var round := Sweep(env, s, w, 0, false);
      if round.1 {
        RoundsStranded(env, round.0, w, true, k);
      }
    }
  }

  lemma NewWorkerVisitStranded(env: Env, s: State, w: Identity, i: nat, more: bool, k: Key)
    requires Stranded(s, k) && i < |s.Types(w)|
    ensures Stranded(NewWorkerVisit(env, s, w, i, more).state, k)
  {
    var t := s.Types(w)[i];
    if t in s.contexts {
      var s1 := s.WithContext(t, s.contexts[t].IncrementNumWorkers());
      SameStranded(s, s1, k);
      NewWorkerServedStranded(env, s1, w, i, more, k);
    } else {
      assert Untaken(s, NewWorkerVisit(env, s, w, i, more).state, k);
      UntakenStranded(s, NewWorkerVisit(env, s, w, i, more).state, k);
    }
  }

  lemma NewWorkerServedStranded(env: Env, s: State, w: Identity, i: nat, more: bool, k: Key)
    requires Stranded(s, k) && i < |s.Types(w)|
    ensures Stranded(NewWorkerServed(env, s, w, i, more).state, k)
  {
    hide Stranded;
    var t := s.Types(w)[i];
    VisitsStranded(s, w, t, i, k);
    if s.Pending(t) != [] {
      var other := Key(t, s.Pending(t)[0].id);
      ForwardStranded(env, s, w, other, k);
      VisitsStranded(ForwardQueued(env, s, w, other).state, w, t, i, k);
    }
  }

  lemma {:induction false} NewWorkerPassStranded(env: Env, s: State, w: Identity, i: nat, more: bool, k: Key)
    requires Stranded(s, k)
    ensures Stranded(NewWorkerPass(env, s, w, i, more).0, k)
    decreases |s.Types(w)| - i
  {
    hide Stranded, NewWorkerVisit;
    if i < |s.Types(w)| {
      NewWorkerVisitStranded(env, s, w, i, more, k);
      var visit := NewWorkerVisit(env, s, w, i, more);
      NewWorkerPassStranded(env, visit.state, w, i + 1, visit.more, k);
    }
  }

  lemma ReadyStranded(
    env: Env, s: State, w: Identity, capacity: int, types: seq<RequestType>, delay: int, k: Key)
    requires Stranded(s, k)
    ensures Stranded(HandleWorkerReady(env, s, w, capacity, types, delay), k)
  {
    if Enrols(s, w, capacity, types) {
      var s1 := s.WithWorker(w, Info(capacity, types, {}, s.now, s.now, delay, capacity, 0));
      UntakenStranded(s, s1, k);
      hide Stranded;
      NewWorkerPassStranded(env, s1, w, 0, false, k);
      var pass := NewWorkerPass(env, s1, w, 0, false);
      RoundsStranded(env, pass.0, w, pass.1, k);
    }
  }

  lemma ErasedStranded(s: State, other: Key, k: Key)
    requires Stranded(s, k) && other != k
    ensures Stranded(RemoveInProgress(s, other), k)
  {
    UntakenStranded(s, RemoveInProgress(s, other), k);
  }

  lemma FinishVisitStranded(env: Env, s: State, w: Identity, i: nat, next: seq<Node>, more: bool, k: Key)
    requires Stranded(s, k) && i < |s.Types(w)|
    ensures Stranded(FinishVisit(env, s, w, i, next, more).state, k)
  {
    hide Stranded;
    var t := s.Types(w)[i];
    VisitsStranded(s, w, t, i, k);
    if next != [] {
      ForwardStranded(env, s, w, Key(t, next[0].id), k);
      VisitsStranded(ForwardQueued(env, s, w, Key(t, next[0].id)).state, w, t, i + 1, k);
    }
  }

  lemma {:induction false} FinishPassStranded(
    env: Env, s: State, w: Identity, other: Key, i: nat, removed: bool, more: bool, k: Key)
    requires Stranded(s, k) && other != k
    ensures Stranded(FinishPass(env, s, w, other, i, removed, more).state, k)
    decreases |s.Types(w)| - i
  {
    hide Stranded, FinishVisit;
    if i < |s.Types(w)| {
      var t := s.Types(w)[i];
      if t !in s.contexts {
        FinishPassStranded(env, s, w, other, i + 1, removed, more, k);
      } else {
        var erase := !removed && t == other.kind;
        var s1 := if erase then RemoveInProgress(s, other) else s;
        ErasedStranded(s, other, k);
        FinishVisitStranded(env, s1, w, i, s.Pending(t), more, k);
        var visit := FinishVisit(env, s1, w, i, s.Pending(t), more);
        if !visit.stop {
          FinishPassStranded(env, visit.state, w, other, i + 1, removed || erase, visit.more, k);
        }
      }
    }
  }

  lemma FinishedStranded(env: Env, s: State, w: Identity, other: Key, k: Key)
    requires Stranded(s, k) && other != k
    ensures Stranded(HandleWorkerFinished(env, s, w, other), k)
  {
    if w in s.workers {
      var s1 := Freed(s, w, other);
      hide FinishActions;
      UntakenStranded(s, s1, k);
      hide Stranded, FinishPass;
      FinishPassStranded(env, s1, w, other, 0, false, false, k);
      var pass := if s1.FreeCapacity(w) > 0 then FinishPass(env, s1, w, other, 0, false, false)
                  else Pass(s1, false, false);
      ErasedStranded(pass.state, other, k);
      var s2 := if pass.removed then pass.state else RemoveInProgress(pass.state, other);
      RoundsStranded(env, s2, w, pass.more, k);
    }
  }

  lemma ClientStranded(env: Env, s: State, other: Key, vfs: VersionFlags, msg: Message, k: Key)
    requires Stranded(s, k)
    ensures Stranded(ClientRequest(env, s, other, vfs, msg), k)
  {
    if s.Known(other) {
      RepeatedStranded(env, s, other, vfs, msg, k);
    } else if s.Available(other.kind) != {} {
      var w := env.pick(s.sends, s.Available(other.kind));
      DirectStranded(env, s, w, other, vfs, msg, Start(other, vfs, msg, w), k);
      var out := ForwardDirect(env, s, w, other, vfs, msg, Start(other, vfs, msg, w));
      hide ForwardDirect, Stranded;
      VisitsStranded(out.state, w, other.kind, |out.state.Types(w)|, k);
      PendingStranded(out.state, other, vfs, None, [], k);
      PendingStranded(out.state, other, vfs, Some(msg), [Accept(other, vfs, msg)], k);
    } else {
      UntakenStranded(s, ClientRequest(env, s, other, vfs, msg), k);
    }
  }

  lemma PendingStranded(
    s: State, other: Key, vfs: VersionFlags, msg: Option<Message>, actions: seq<Action>, k: Key)
    requires Stranded(s, k) && other != k
    ensures Stranded(AddPending(s, other, vfs, msg, actions), k)
  {
    UntakenStranded(s, AddPending(s, other, vfs, msg, actions), k);
  }

  lemma RepeatedStranded(env: Env, s: State, other: Key, vfs: VersionFlags, msg: Message, k: Key)
    requires Stranded(s, k) && s.Known(other)
    ensures Stranded(RepeatedRequest(env, s, other, vfs, msg), k)
  {
    if s.Request(other).vfs.Has(AllowRedirect) && s.Request(other).place.Assigned? && env.request(s.sends) {
      RepeatedRequestIs(env, s, other, vfs, msg);
      hide RepeatedRequest;
      UntakenStranded(s, RepeatedRequest(env, s, other, vfs, msg), k);
    } else {
      UntakenStranded(s, RepeatedRequest(env, s, other, vfs, msg), k);
    }
  }

  lemma {:induction false} PulseStranded(env: Env, s: State, ws: seq<Identity>, deathDelay: int, k: Key)
    requires Fair(env) && PulseSafe(env, s, ws, deathDelay) && Inv(s, Settled) && Stranded(s, k)
    ensures Stranded(PulseFrom(env, s, ws, deathDelay), k)
    decreases |ws|
  {
    hide Inv, Stranded, DeadWorker, DeadSafe, Fate;
    if ws != [] {
      if ws[0] !in s.workers || s.workers[ws[0]].IsAliveAsOf(s.now, deathDelay) {
        PulseStranded(env, s, ws[1..], deathDelay, k);
      } else {
        DeathAgrees(env, s, ws[0]);
        DeathStrandsIff(env, s, ws[0], k);
        PulseStranded(env, RemoveWorker(DeadWorker(env, s, ws[0], 0), ws[0]), ws[1..], deathDelay, k);
      }
    }
  }

  lemma StepStranded(env: Env, s: State, e: Event, k: Key)
    requires Fair(env) && Inv(s, Settled) && Sound(env, s, e) && Stranded(s, k)
    requires e.Finished? ==> e.key != k
    ensures Stranded(Step(env, s, e), k)
  {
    hide ClientRequest, HandleWorkerReady, HandleWorkerFinished, PulseFrom, PulseSafe, Inv, Stranded, Fair;
    match e
    case Ask(other, vfs, msg) => ClientStranded(env, s, other, vfs, msg, k);
    case Ready(w, capacity, types, delay) => ReadyStranded(env, s, w, capacity, types, delay, k);
    case Finished(w, other) => FinishedStranded(env, s, w, other, k);
    case Pulse(deathDelay) => PulseStranded(env, s, env.roster(s.At(), s.workers.Keys), deathDelay, k);
    case _ => TimeStranded(env, s, e, k);
  }

  /** Events that only move or refresh times. */
  lemma TimeStranded(env: Env, s: State, e: Event, k: Key)
    requires (e.Tick? || e.Beat? || e.Received?) && Stranded(s, k)
    ensures Stranded(Step(env, s, e), k)
  {
    UntakenStranded(s, Step(env, s, e), k);
  }

  /** A request that a death left in progress nowhere stays there in every continuation of the run,
      whatever is asked, whoever becomes ready or dies, unless a finish names it all the same. */
  lemma {:induction false} StrandedForever(env: Env, events: seq<Event>, more: seq<Event>, k: Key)
    requires Fair(env) && SoundRun(env, Start0, events + more) && Stranded(Run(env, Start0, events), k)
    requires forall i :: 0 <= i < |more| ==> !(more[i].Finished? && more[i].key == k)
    ensures Stranded(Run(env, Start0, events + more), k)
    decreases |more|
  {
    hide Stranded, Inv, Sound;
    if more == [] {
      assert events + more == events;
    } else {
      var before := events + more[..|more| - 1];
      assert (events + more)[..|events + more| - 1] == before;
      StrandedForever(env, events, more[..|more| - 1], k);
      RunAgrees(env, before);
      StepStranded(env, Run(env, Start0, before), more[|more| - 1], k);
    }
  }
}

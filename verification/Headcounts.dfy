/** How often a type counts a worker that becomes ready. */
module Headcounts {
  import opened Cluster
  import opened Scheduler
  import opened Agreement
  import opened Availability

  // ----- a type listed twice -----

  function Headcount(s: State, t: RequestType): int {
    if t in s.contexts then s.contexts[t].totalWorkers else 0
  }

  lemma {:induction false} SweepHeadcount(env: Env, s: State, w: Identity, i: nat, more: bool)
    ensures Quieted(s, Sweep(env, s, w, i, more).0)
    decreases |s.Types(w)| - i
  {
    hide Quieted;
    if i < |s.Types(w)| {
      var v := SweepVisit(env, s, w, i, more);
      SweepVisitHeadcount(env, s, w, i, more);
      hide SweepVisit;
      if v.stop {
      } else {
        SweepHeadcount(env, v.state, w, i + 1, v.more);
        QuietedTwice(s, v.state, Sweep(env, v.state, w, i + 1, v.more).0);
      }
    } else {
      QuietedSame(s);
    }
  }

  /** Neither headcounts nor who is registered for what have changed. */
  ghost predicate Quieted(s: State, s': State) {
    && s'.contexts.Keys == s.contexts.Keys && s'.workers.Keys == s.workers.Keys
    && (forall t :: Headcount(s', t) == Headcount(s, t)) && (forall v :: s'.Types(v) == s.Types(v))
  }

  lemma QuietedSame(s: State)
    ensures Quieted(s, s)
  {
  }

  lemma QuietedTwice(s: State, s1: State, s2: State)
    requires Quieted(s, s1) && Quieted(s1, s2)
    ensures Quieted(s, s2)
  {
  }

  lemma WithdrawQuieted(s: State, w: Identity, n: nat)
    ensures Quieted(s, Withdraw(s, w, n))
  {
    WithdrawCounted(s, w, n);
  }

  lemma ForwardQuieted(env: Env, s: State, w: Identity, k: Key)
    ensures Quieted(s, ForwardQueued(env, s, w, k).state)
  {
    ForwardQueuedQuiet(env, s, w, k);
    hide ForwardQueued;
  }

  lemma SweepVisitHeadcount(env: Env, s: State, w: Identity, i: nat, more: bool)
    requires i < |s.Types(w)|
    ensures Quieted(s, SweepVisit(env, s, w, i, more).state)
  {
    hide Quieted;
    QuietedSame(s);
    var t := s.Types(w)[i];
    if s.Pending(t) != [] {
      var k := Key(t, s.Pending(t)[0].id);
      var s1 := ForwardQueued(env, s, w, k).state;
      ForwardQuieted(env, s, w, k);
      WithdrawQuieted(s1, w, i + 1);
      QuietedTwice(s, s1, Withdraw(s1, w, i + 1));
    }
  }

  lemma {:induction false} RoundsHeadcount(env: Env, s: State, w: Identity, more: bool)
    ensures Quieted(s, Rounds(env, s, w, more))
    decreases if more then 1 else 0, s.FreeCapacity(w)
  {
    hide Quieted;
    QuietedSame(s);
    if s.FreeCapacity(w) > 0 && more {
      SweepHeadcount(env, s, w, 0, false);
      var round := Sweep(env, s, w, 0, false);
      if round.1 {
        RoundsHeadcount(env, round.0, w, true);
        QuietedTwice(s, round.0, Rounds(env, round.0, w, true));
      }
    }
  }

  /** One visit counts the worker once for the type visited, and makes that type known. */
  ghost predicate CountedOnce(s: State, s': State, t0: RequestType) {
    && s'.contexts.Keys == s.contexts.Keys + {t0} && s'.workers.Keys == s.workers.Keys
    && (forall t :: Headcount(s', t) == Headcount(s, t) + if t == t0 then 1 else 0)
    && (forall v :: s'.Types(v) == s.Types(v))
  }

  lemma VisitCountsOnce(env: Env, s: State, w: Identity, i: nat, more: bool)
    requires i < |s.Types(w)|
    ensures CountedOnce(s, NewWorkerVisit(env, s, w, i, more).state, s.Types(w)[i])
  {
    var t := s.Types(w)[i];
    if t in s.contexts {
      var s1 := s.WithContext(t, s.contexts[t].IncrementNumWorkers());
      assert CountedOnce(s, s1, t);
      ServedQuieted(env, s1, w, i, more);
      hide NewWorkerServed;
    }
  }

  lemma ServedQuieted(env: Env, s: State, w: Identity, i: nat, more: bool)
    requires i < |s.Types(w)|
    ensures Quieted(s, NewWorkerServed(env, s, w, i, more).state)
  {
    var t := s.Types(w)[i];
    AddQuieted(s, t, w);
    QuietedSame(s);
    if s.Pending(t) != [] {
      var k := Key(t, s.Pending(t)[0].id);
      var s1 := ForwardQueued(env, s, w, k).state;
      ForwardQuieted(env, s, w, k);
      AddQuieted(s1, t, w);
      WithdrawQuieted(s1, w, i);
      hide Quieted, ForwardQueued, AddAvailable, Withdraw;
      QuietedTwice(s, s1, AddAvailable(s1, t, w));
      QuietedTwice(s, s1, Withdraw(s1, w, i));
    }
  }

  lemma AddQuieted(s: State, t: RequestType, w: Identity)
    ensures Quieted(s, AddAvailable(s, t, w))
  {
  }

  /** A new worker is counted for a type as often as it lists it. */
  lemma {:induction false} PassHeadcount(env: Env, s: State, w: Identity, i: nat, more: bool, t: RequestType)
    requires i <= |s.Types(w)|
    ensures var s' := NewWorkerPass(env, s, w, i, more).0;
            && Headcount(s', t) == Headcount(s, t) + multiset(s.Types(w)[i..])[t]
            && (t in s'.contexts <==> t in s.contexts || t in s.Types(w)[i..])
            && s'.workers.Keys == s.workers.Keys && (forall v :: s'.Types(v) == s.Types(v))
    decreases |s.Types(w)| - i
  {
    if i < |s.Types(w)| {
      hide NewWorkerVisit, Headcount;
      VisitCountsOnce(env, s, w, i, more);
      var v := NewWorkerVisit(env, s, w, i, more);
      PassHeadcount(env, v.state, w, i + 1, v.more, t);
      OneTypeMore(s.Types(w), i, t);
    }
  }

  lemma OneTypeMore(types: seq<RequestType>, i: nat, t: RequestType)
    requires i < |types|
    ensures multiset(types[i..])[t] == multiset(types[i + 1..])[t] + if t == types[i] then 1 else 0
    ensures t in types[i..] <==> t == types[i] || t in types[i + 1..]
  {
    assert types[i..] == [types[i]] + types[i + 1..];
  }

  lemma {:induction false} OnceEach(xs: seq<RequestType>)
    ensures Distinct(xs) <==> forall t :: multiset(xs)[t] <= 1
  {
    if xs != [] {
      OnceEach(xs[1..]);
      assert xs == [xs[0]] + xs[1..];
      if Distinct(xs) {
        assert xs[0] !in xs[1..];
        assert Distinct(xs[1..]);
      } else {
        var i, j :| 0 <= i < j < |xs| && xs[i] == xs[j];
        Twice(xs, i, j);
      }
    }
  }

  lemma Twice(xs: seq<RequestType>, i: nat, j: nat)
    requires i < j < |xs| && xs[i] == xs[j]
    ensures multiset(xs)[xs[i]] >= 2
  {
    assert xs == xs[..i] + [xs[i]] + xs[i + 1..j] + [xs[j]] + xs[j + 1..];
  }

  /** When a worker becomes ready, every type's headcount stays the number of workers that support it
      exactly when the worker lists no type twice. */
  lemma ReadyCountedIff(
    env: Env, s: State, w: Identity, capacity: int, types: seq<RequestType>, delay: int)
    requires Shelved(s) && Enrols(s, w, capacity, types)
    ensures AllCounted(HandleWorkerReady(env, s, w, capacity, types, delay)) <==> Distinct(types)
  {
    var s1 := s.WithWorker(w, Info(capacity, types, {}, s.now, s.now, delay, capacity, 0));
    var pass := NewWorkerPass(env, s1, w, 0, false);
    var s' := Rounds(env, pass.0, w, pass.1);
    RoundsHeadcount(env, pass.0, w, pass.1);
    assert types[0..] == types;
    forall t
      ensures Headcount(s', t) == Headcount(s, t) + multiset(types)[t]
      ensures t in s'.contexts <==> t in s.contexts || t in types
      ensures s'.workers.Keys == s.workers.Keys + {w} && (forall v :: s'.Types(v) == s1.Types(v))
    {
      PassHeadcount(env, s1, w, 0, false, t);
    }
    hide NewWorkerPass, Rounds;
    CountedIf(s, s', w, types);
  }

  lemma CountedIf(s: State, s': State, w: Identity, types: seq<RequestType>)
    requires Shelved(s) && w !in s.workers && s'.workers.Keys == s.workers.Keys + {w}
    requires s'.Types(w) == types && forall v :: v in s.workers ==> s'.Types(v) == s.Types(v)
    requires forall t :: Headcount(s', t) == Headcount(s, t) + multiset(types)[t]
    requires forall t :: t in s'.contexts <==> t in s.contexts || t in types
    ensures AllCounted(s') <==> Distinct(types)
  {
    forall t
      ensures |Workforce(s', t)| == Headcount(s, t) + if t in types then 1 else 0
    {
      NewSupporter(s, s', w, types, t);
    }
    OnceEach(types);
    forall t | t in types
      ensures t in s'.contexts
    {
    }
    if AllCounted(s') {
      forall t
        ensures multiset(types)[t] <= 1
      {
        assert t in types ==> s'.contexts[t].totalWorkers == |Workforce(s', t)|;
      }
    } else {
      var t :| t in s'.contexts && s'.contexts[t].totalWorkers != |Workforce(s', t)|;
      assert Headcount(s', t) != |Workforce(s', t)|;
      assert multiset(types)[t] > 1;
    }
  }

  lemma NewSupporter(s: State, s': State, w: Identity, types: seq<RequestType>, t: RequestType)
    requires Shelved(s) && w !in s.workers && s'.workers.Keys == s.workers.Keys + {w}
    requires s'.Types(w) == types && forall v :: v in s.workers ==> s'.Types(v) == s.Types(v)
    ensures |Workforce(s', t)| == Headcount(s, t) + if t in types then 1 else 0
  {
    assert Workforce(s', t) == Workforce(s, t) + if t in types then {w} else {};
    if t !in s.contexts {
      forall v | v in s.workers
        ensures t !in s.Types(v)
      {
        assert Offered(s, v, |s.Types(v)|);
      }
      assert Workforce(s, t) == {};
    }
  }
}

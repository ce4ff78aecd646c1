/** Which workers are offered for which types, and how many workers a type has. */
module Availability {
  import opened Wrappers
  import opened Cluster
  import opened RequestContexts
  import opened Scheduler
  import opened Agreement
  import opened Forwarding
  import opened Requests
  import opened Deaths
  import opened Safety

  /** The first `n` types of a worker exist, and it is available for them if it has capacity. */
  ghost predicate Offered(s: State, v: Identity, n: nat) {
    forall i :: 0 <= i < n && i < |s.Types(v)| ==>
      s.Types(v)[i] in s.contexts && (s.FreeCapacity(v) > 0 ==> v in s.Available(s.Types(v)[i]))
  }

  /** As it should be for every worker but one, whose first `n` types have been dealt with. */
  ghost predicate OfferedBut(s: State, w: Identity, n: nat) {
    && Offered(s, w, n)
    && (forall v :: v in s.workers && v != w ==> Offered(s, v, |s.Types(v)|))
  }

  ghost predicate AllOffered(s: State) {
    forall v :: v in s.workers ==> Offered(s, v, |s.Types(v)|)
  }

  function Supporters(s: State, t: RequestType, w: Identity, seen: seq<RequestType>): set<Identity> {
    set v | v in s.workers && t in (if v == w then seen else s.Types(v))
  }

  /** Worker counts are right if one worker is counted for the types it has been seen for. */
  ghost predicate CountedAs(s: State, w: Identity, seen: seq<RequestType>) {
    forall t :: t in s.contexts ==> s.contexts[t].totalWorkers == |Supporters(s, t, w, seen)|
  }

  /** The registered workers that support a type. */
  function Workforce(s: State, t: RequestType): set<Identity> {
    set v | v in s.workers && t in s.Types(v)
  }

  ghost predicate AllCounted(s: State) {
    forall t :: t in s.contexts ==> s.contexts[t].totalWorkers == |Workforce(s, t)|
  }

  // ----- steps that leave availability and counts alone -----

  /** Nothing about availability, counts or types changed, and capacities at most fell. */
  ghost predicate Quiet(s: State, s': State) {
    && s'.contexts.Keys == s.contexts.Keys && s'.workers.Keys == s.workers.Keys
    && (forall t :: t in s.contexts ==>
          s'.contexts[t].available == s.contexts[t].available
          && s'.contexts[t].totalWorkers == s.contexts[t].totalWorkers)
    && (forall v :: v in s.workers ==>
          s'.workers[v].types == s.workers[v].types
          && s'.workers[v].freeCapacity <= s.workers[v].freeCapacity)
  }

  lemma QuietOffered(s: State, s': State, w: Identity, n: nat)
    requires Quiet(s, s') && OfferedBut(s, w, n)
    ensures OfferedBut(s', w, n)
  {
    forall v
      ensures s'.Types(v) == s.Types(v)
    {
    }
  }

  lemma QuietCounted(s: State, s': State, w: Identity, seen: seq<RequestType>)
    requires Quiet(s, s') && CountedAs(s, w, seen)
    ensures CountedAs(s', w, seen)
  {
    forall t
      ensures Supporters(s', t, w, seen) == Supporters(s, t, w, seen)
    {
    }
  }

  lemma ForwardQueuedQuiet(env: Env, s: State, w: Identity, k: Key)
    ensures Quiet(s, ForwardQueued(env, s, w, k).state)
  {
    if s.Known(k) && s.Request(k).place.Queued? && w in s.workers && env.request(s.sends) {
      ForwardQueuedIs(env, s, w, k);
    }
  }

  lemma ForwardDirectQuiet(
    env: Env, s: State, w: Identity, k: Key, vfs: VersionFlags, msg: Message, action: Action)
    ensures Quiet(s, ForwardDirect(env, s, w, k, vfs, msg, action).state)
  {
    if k.kind in s.contexts && w in s.workers && env.request(s.sends) {
      ForwardDirectIs(env, s, w, k, vfs, msg, action);
    }
  }

  lemma RepeatedRequestQuiet(env: Env, s: State, k: Key, vfs: VersionFlags, msg: Message)
    requires s.Known(k)
    ensures Quiet(s, RepeatedRequest(env, s, k, vfs, msg))
  {
    var r := s.Request(k);
    if r.vfs.Has(AllowRedirect) && r.place.Assigned? && env.request(s.sends) {
      RepeatedRequestIs(env, s, k, vfs, msg);
    }
  }

  // ----- offering and withdrawing -----

  lemma AddAvailableOffers(s: State, w: Identity, i: nat)
    requires OfferedBut(s, w, i) && i < |s.Types(w)| && s.Types(w)[i] in s.contexts
    ensures OfferedBut(AddAvailable(s, s.Types(w)[i], w), w, i + 1)
  {
    var s1 := AddAvailable(s, s.Types(w)[i], w);
    forall t
      ensures s.Available(t) <= s1.Available(t)
    {
    }
    forall v
      ensures s1.Types(v) == s.Types(v) && s1.FreeCapacity(v) == s.FreeCapacity(v)
    {
    }
    assert Offered(s, w, i);
    forall j | 0 <= j < i + 1
      ensures s1.Types(w)[j] in s1.contexts && (s.FreeCapacity(w) > 0 ==> w in s1.Available(s1.Types(w)[j]))
    {
      if j < i {
        assert s.Types(w)[j] in s.contexts;
      }
    }
    forall v | v in s.workers && v != w
      ensures Offered(s1, v, |s1.Types(v)|)
    {
      assert Offered(s, v, |s.Types(v)|);
    }
  }

  lemma ExhaustedOffers(s: State, w: Identity, i: nat)
    requires OfferedBut(s, w, i) && i < |s.Types(w)| && s.Types(w)[i] in s.contexts
    requires s.FreeCapacity(w) <= 0
    ensures OfferedBut(s, w, i + 1)
  {
    assert Offered(s, w, i);
    forall j | 0 <= j < i + 1
      ensures s.Types(w)[j] in s.contexts
    {
      if j < i {
        assert s.Types(w)[j] in s.contexts;
      }
    }
    assert Offered(s, w, i + 1);
  }

  /** Withdrawing one worker leaves every other worker's offers as they were. */
  lemma {:induction false} WithdrawOthers(s: State, w: Identity, n: nat, u: Identity, t: RequestType)
    requires u != w
    ensures u in Withdraw(s, w, n).Available(t) <==> u in s.Available(t)
  {
    if n != 0 && n <= |s.Types(w)| {
      WithdrawOthers(s, w, n - 1, u, t);
    }
  }

  lemma WithdrawOffered(s: State, w: Identity, n: nat, v: Identity, m: nat)
    requires OfferedBut(s, v, m) && s.FreeCapacity(w) <= 0
    ensures OfferedBut(Withdraw(s, w, n), v, m)
  {
    OneWithdrawn(s, w, n, v, m);
    forall u | u in s.workers && u != v
      ensures Offered(Withdraw(s, w, n), u, |s.Types(u)|)
    {
      OneWithdrawn(s, w, n, u, |s.Types(u)|);
    }
  }

  lemma OneWithdrawn(s: State, w: Identity, n: nat, u: Identity, m: nat)
    requires Offered(s, u, m) && s.FreeCapacity(w) <= 0
    ensures Offered(Withdraw(s, w, n), u, m)
  {
    var s' := Withdraw(s, w, n);
    forall i | 0 <= i < m && i < |s.Types(u)|
      ensures s'.Types(u)[i] in s'.contexts
      ensures s'.FreeCapacity(u) > 0 ==> u in s'.Available(s'.Types(u)[i])
    {
      if u != w {
        WithdrawOthers(s, w, n, u, s.Types(u)[i]);
      }
    }
  }

  lemma {:induction false} WithdrawCounted(s: State, w: Identity, n: nat)
    ensures var s' := Withdraw(s, w, n);
            forall t :: t in s.contexts ==> s'.contexts[t].totalWorkers == s.contexts[t].totalWorkers
  {
    if n != 0 && n <= |s.Types(w)| {
      WithdrawCounted(s, w, n - 1);
    }
  }

  lemma SameCounts(s: State, s': State, w: Identity, seen: seq<RequestType>)
    requires CountedAs(s, w, seen) && s'.workers.Keys == s.workers.Keys && s'.contexts.Keys == s.contexts.Keys
    requires forall v :: v in s.workers ==> s'.workers[v].types == s.workers[v].types
    requires forall t :: t in s.contexts ==> s'.contexts[t].totalWorkers == s.contexts[t].totalWorkers
    ensures CountedAs(s', w, seen)
  {
    forall t
      ensures Supporters(s', t, w, seen) == Supporters(s, t, w, seen)
    {
    }
  }

  /** Offers for all but `w` and its first `m` types, counts with `w` seen for `seen`. */
  ghost predicate Shelf(s: State, w: Identity, m: nat, seen: seq<RequestType>) {
    OfferedBut(s, w, m) && CountedAs(s, w, seen)
  }

  lemma QuietShelf(s: State, s': State, w: Identity, m: nat, seen: seq<RequestType>)
    requires Quiet(s, s') && Shelf(s, w, m, seen)
    ensures Shelf(s', w, m, seen)
  {
    QuietOffered(s, s', w, m);
    QuietCounted(s, s', w, seen);
  }

  lemma WithdrawShelf(s: State, v: Identity, n: nat, w: Identity, m: nat, seen: seq<RequestType>)
    requires Shelf(s, w, m, seen) && s.FreeCapacity(v) <= 0
    ensures Shelf(Withdraw(s, v, n), w, m, seen)
  {
    WithdrawOffered(s, v, n, w, m);
    WithdrawCounted(s, v, n);
    SameCounts(s, Withdraw(s, v, n), w, seen);
  }

  lemma AddAvailableShelf(s: State, w: Identity, i: nat, seen: seq<RequestType>)
    requires Shelf(s, w, i, seen) && i < |s.Types(w)| && s.Types(w)[i] in s.contexts
    ensures Shelf(AddAvailable(s, s.Types(w)[i], w), w, i + 1, seen)
  {
    AddAvailableOffers(s, w, i);
    SameCounts(s, AddAvailable(s, s.Types(w)[i], w), w, seen);
  }

  lemma ExhaustedShelf(s: State, w: Identity, i: nat, seen: seq<RequestType>)
    requires Shelf(s, w, i, seen) && i < |s.Types(w)| && s.Types(w)[i] in s.contexts
    requires s.FreeCapacity(w) <= 0
    ensures Shelf(s, w, i + 1, seen)
  {
    ExhaustedOffers(s, w, i);
  }

  // ----- a new worker -----

  lemma NewWorkerServedShelf(env: Env, s: State, w: Identity, i: nat, more: bool, seen: seq<RequestType>)
    requires Shelf(s, w, i, seen) && w in s.workers && i < |s.Types(w)| && s.Types(w)[i] in s.contexts
    ensures Shelf(NewWorkerServed(env, s, w, i, more).state, w, i + 1, seen)
  {
    hide Shelf, Quiet;
    var t := s.Types(w)[i];
    if s.FreeCapacity(w) <= 0 {
      ExhaustedShelf(s, w, i, seen);
    } else if s.Pending(t) == [] {
      AddAvailableShelf(s, w, i, seen);
    } else {
      var k := Key(t, s.Pending(t)[0].id);
      var out := ForwardQueued(env, s, w, k);
      ForwardQueuedQuiet(env, s, w, k);
      QuietShelf(s, out.state, w, i, seen);
      QuietKeys(s, out.state);
      if out.ok && out.state.FreeCapacity(w) <= 0 {
        ExhaustedShelf(out.state, w, i, seen);
        WithdrawShelf(out.state, w, i, w, i + 1, seen);
      } else {
        AddAvailableShelf(out.state, w, i, seen);
      }
    }
  }

  lemma QuietKeys(s: State, s': State)
    requires Quiet(s, s')
    ensures s'.contexts.Keys == s.contexts.Keys && s'.workers.Keys == s.workers.Keys
    ensures forall v :: s'.Types(v) == s.Types(v) && s'.FreeCapacity(v) <= s.FreeCapacity(v)
  {
  }

  lemma NewWorkerVisitShelf(env: Env, s: State, w: Identity, i: nat, more: bool)
    requires w in s.workers && i < |s.Types(w)| && Distinct(s.Types(w))
    requires Shelf(s, w, i, s.Types(w)[..i])
    ensures Shelf(NewWorkerVisit(env, s, w, i, more).state, w, i + 1, s.Types(w)[..i + 1])
  {
    hide Shelf, NewWorkerServed;
    var t := s.Types(w)[i];
    if t in s.contexts {
      var s1 := s.WithContext(t, s.contexts[t].IncrementNumWorkers());
      CountedShelf(s, s1, w, i);
      NewWorkerServedShelf(env, s1, w, i, more, s.Types(w)[..i + 1]);
    } else {
      FirstSupporter(s, NewWorkerVisit(env, s, w, i, more).state, w, i);
    }
  }

  lemma CountedShelf(s: State, s1: State, w: Identity, i: nat)
    requires w in s.workers && i < |s.Types(w)| && Distinct(s.Types(w)) && s.Types(w)[i] in s.contexts
    requires Shelf(s, w, i, s.Types(w)[..i])
    requires var t := s.Types(w)[i]; s1 == s.WithContext(t, s.contexts[t].IncrementNumWorkers())
    ensures Shelf(s1, w, i, s.Types(w)[..i + 1])
  {
    CountOneMore(s, s1, w, i);
    hide CountedAs;
    SameOffered(s, s1, w, i);
  }

  lemma SameOffered(s: State, s1: State, w: Identity, n: nat)
    requires OfferedBut(s, w, n) && s1.workers == s.workers && s1.contexts.Keys == s.contexts.Keys
    requires forall t :: s1.Available(t) == s.Available(t)
    ensures OfferedBut(s1, w, n)
  {
    forall v, m: nat | Offered(s, v, m)
      ensures Offered(s1, v, m)
    {
      forall i | 0 <= i < m && i < |s1.Types(v)|
        ensures s1.Types(v)[i] in s1.contexts
        ensures s1.FreeCapacity(v) > 0 ==> v in s1.Available(s1.Types(v)[i])
      {
        assert s.Types(v)[i] in s.contexts;
      }
    }
    assert Offered(s, w, n);
  }

  lemma CountOneMore(s: State, s1: State, w: Identity, i: nat)
    requires w in s.workers && i < |s.Types(w)| && Distinct(s.Types(w)) && s.Types(w)[i] in s.contexts
    requires CountedAs(s, w, s.Types(w)[..i])
    requires var t := s.Types(w)[i]; s1 == s.WithContext(t, s.contexts[t].IncrementNumWorkers())
    ensures CountedAs(s1, w, s.Types(w)[..i + 1])
  {
    var seen := s.Types(w)[..i];
    var t0 := s.Types(w)[i];
    assert s.Types(w)[..i + 1] == seen + [t0] && t0 !in seen;
    hide Distinct;
    forall t | t in s.contexts
      ensures s1.contexts[t].totalWorkers == |Supporters(s1, t, w, seen + [t0])|
    {
      OneSupporterMore(s, s1, t, w, seen, t0);
    }
  }

  lemma OneSupporterMore(
    s: State, s1: State, t: RequestType, w: Identity, seen: seq<RequestType>, t0: RequestType)
    requires w in s.workers && s1.workers == s.workers && t0 !in seen
    ensures |Supporters(s1, t, w, seen + [t0])| == |Supporters(s, t, w, seen)| + if t == t0 then 1 else 0
  {
    assert Supporters(s1, t, w, seen + [t0]) ==
      if t == t0 then Supporters(s, t, w, seen) + {w} else Supporters(s, t, w, seen);
  }

  /** A type gets its first worker: its context was made for it. */
  ghost predicate Founded(s: State, s1: State, w: Identity, t: RequestType) {
    && s1.workers == s.workers && t !in s.contexts && s1.contexts.Keys == s.contexts.Keys + {t}
    && (forall u :: u in s.contexts ==> s1.contexts[u] == s.contexts[u])
    && s1.contexts[t].totalWorkers == 1 && (s.FreeCapacity(w) > 0 ==> w in s1.Available(t))
  }

  lemma FirstSupporter(s: State, s1: State, w: Identity, i: nat)
    requires w in s.workers && i < |s.Types(w)| && Distinct(s.Types(w)) && s.Types(w)[i] !in s.contexts
    requires Shelf(s, w, i, s.Types(w)[..i])
    requires var t := s.Types(w)[i];
             var c := NewContext().IncrementNumWorkers();
             s1 == s.WithContext(t, if s.FreeCapacity(w) > 0 then c.AddAvailableWorker(w) else c)
    ensures Shelf(s1, w, i + 1, s.Types(w)[..i + 1])
  {
    var t := s.Types(w)[i];
    assert Founded(s, s1, w, t);
    hide Founded, OfferedBut, CountedAs, Distinct;
    NobodySupports(s, w, i, t);
    FirstCounted(s, s1, w, i);
    FirstOffered(s, s1, w, i);
  }

  /** A type without a context is supported by nobody who has been offered for all his types. */
  lemma NobodySupports(s: State, w: Identity, n: nat, t: RequestType)
    requires OfferedBut(s, w, n) && t !in s.contexts
    ensures forall v :: v in s.workers && v != w ==> t !in s.Types(v)
  {
    forall v | v in s.workers && v != w
      ensures t !in s.Types(v)
    {
      assert Offered(s, v, |s.Types(v)|);
    }
  }

  lemma FirstCounted(s: State, s1: State, w: Identity, i: nat)
    requires w in s.workers && i < |s.Types(w)| && Distinct(s.Types(w))
    requires Founded(s, s1, w, s.Types(w)[i]) && CountedAs(s, w, s.Types(w)[..i])
    requires forall v :: v in s.workers && v != w ==> s.Types(w)[i] !in s.Types(v)
    ensures CountedAs(s1, w, s.Types(w)[..i + 1])
  {
    var seen := s.Types(w)[..i];
    var t0 := s.Types(w)[i];
    assert s.Types(w)[..i + 1] == seen + [t0] && t0 !in seen;
    assert Supporters(s1, t0, w, seen + [t0]) == {w};
    forall t | t in s.contexts
      ensures Supporters(s1, t, w, seen + [t0]) == Supporters(s, t, w, seen)
    {
    }
  }

  lemma FirstOffered(s: State, s1: State, w: Identity, i: nat)
    requires w in s.workers && i < |s.Types(w)|
    requires Founded(s, s1, w, s.Types(w)[i]) && OfferedBut(s, w, i)
    ensures OfferedBut(s1, w, i + 1)
  {
    var t0 := s.Types(w)[i];
    forall t | t in s.contexts
      ensures s1.Available(t) == s.Available(t)
    {
    }
    forall v, n: nat | Offered(s, v, n)
      ensures Offered(s1, v, n)
    {
    }
    assert Offered(s1, w, i + 1);
  }

  lemma {:induction false} NewWorkerPassShelf(env: Env, s: State, w: Identity, i: nat, more: bool)
    requires w in s.workers && i <= |s.Types(w)| && Distinct(s.Types(w))
    requires Shelf(s, w, i, s.Types(w)[..i])
    ensures Shelf(NewWorkerPass(env, s, w, i, more).0, w, |s.Types(w)|, s.Types(w))
    decreases |s.Types(w)| - i
  {
    hide Shelf, Distinct;
    if i == |s.Types(w)| {
      assert s.Types(w)[..i] == s.Types(w);
    } else {
      NewWorkerVisitShelf(env, s, w, i, more);
      var v := NewWorkerVisit(env, s, w, i, more);
      NewWorkerPassShelf(env, v.state, w, i + 1, v.more);
    }
  }

  lemma {:induction false} SweepShelf(
    env: Env, s: State, w: Identity, i: nat, more: bool, m: nat, seen: seq<RequestType>)
    requires Shelf(s, w, m, seen)
    ensures Shelf(Sweep(env, s, w, i, more).0, w, m, seen)
    decreases |s.Types(w)| - i
  {
    hide Shelf, Quiet;
    if i < |s.Types(w)| {
      var t := s.Types(w)[i];
      var v := SweepVisit(env, s, w, i, more);
      if s.Pending(t) != [] {
        var k := Key(t, s.Pending(t)[0].id);
        var out := ForwardQueued(env, s, w, k);
        ForwardQueuedQuiet(env, s, w, k);
        QuietShelf(s, out.state, w, m, seen);
        if v.stop {
          WithdrawShelf(out.state, w, i + 1, w, m, seen);
        }
      }
      if !v.stop {
        SweepShelf(env, v.state, w, i + 1, v.more, m, seen);
      }
    }
  }

  lemma {:induction false} RoundsShelf(env: Env, s: State, w: Identity, more: bool, m: nat, seen: seq<RequestType>)
    requires Shelf(s, w, m, seen)
    ensures Shelf(Rounds(env, s, w, more), w, m, seen)
    decreases if more then 1 else 0, s.FreeCapacity(w)
  {
    hide Shelf;
    if s.FreeCapacity(w) > 0 && more {
      SweepShelf(env, s, w, 0, false, m, seen);
      var round := Sweep(env, s, w, 0, false);
      if round.1 {
        RoundsShelf(env, round.0, w, true, m, seen);
      }
    }
  }

  /** Between handlers every worker is offered and counted for all its types. */
  ghost predicate Shelved(s: State) {
    AllOffered(s) && AllCounted(s)
  }

  lemma ShelvedBut(s: State, w: Identity)
    requires Shelved(s)
    ensures Shelf(s, w, |s.Types(w)|, s.Types(w))
  {
    forall t
      ensures Supporters(s, t, w, s.Types(w)) == Workforce(s, t)
    {
    }
  }

  lemma ShelfComplete(s: State, w: Identity)
    requires Shelf(s, w, |s.Types(w)|, s.Types(w))
    ensures Shelved(s)
  {
    forall t
      ensures Supporters(s, t, w, s.Types(w)) == Workforce(s, t)
    {
    }
  }

  lemma ReadyShelved(env: Env, s: State, w: Identity, capacity: int, types: seq<RequestType>, delay: int)
    requires Shelved(s) && (Enrols(s, w, capacity, types) ==> Distinct(types))
    ensures Shelved(HandleWorkerReady(env, s, w, capacity, types, delay))
  {
    if Enrols(s, w, capacity, types) {
      var s1 := s.WithWorker(w, Info(capacity, types, {}, s.now, s.now, delay, capacity, 0));
      RegisteredShelf(s, s1, w);
      hide Shelved, Shelf, Distinct;
      NewWorkerPassShelf(env, s1, w, 0, false);
      var pass := NewWorkerPass(env, s1, w, 0, false);
      RoundsShelf(env, pass.0, w, pass.1, |types|, types);
      RoundsTypes(env, pass.0, w, pass.1);
      ShelfComplete(Rounds(env, pass.0, w, pass.1), w);
    }
  }

  lemma {:induction false} RoundsTypes(env: Env, s: State, w: Identity, more: bool)
    ensures Rounds(env, s, w, more).Types(w) == s.Types(w)
    ensures Rounds(env, s, w, more).workers.Keys == s.workers.Keys
    decreases if more then 1 else 0, s.FreeCapacity(w)
  {
    if s.FreeCapacity(w) > 0 && more {
      var round := Sweep(env, s, w, 0, false);
      if round.1 {
        RoundsTypes(env, round.0, w, true);
      }
    }
  }

  lemma RegisteredShelf(s: State, s1: State, w: Identity)
    requires Shelved(s) && w !in s.workers && s1.contexts == s.contexts
    requires s1.workers.Keys == s.workers.Keys + {w}
    requires forall v :: v in s.workers ==> s1.workers[v] == s.workers[v]
    ensures Shelf(s1, w, 0, s1.Types(w)[..0])
  {
    forall t
      ensures Supporters(s1, t, w, []) == Workforce(s, t)
    {
    }
    forall v | v in s.workers
      ensures Offered(s1, v, |s1.Types(v)|)
    {
      assert Offered(s, v, |s.Types(v)|);
    }
  }

  // ----- a finished request -----

  lemma FinishVisitShelf(
    env: Env, s: State, w: Identity, i: nat, next: seq<Node>, more: bool, seen: seq<RequestType>)
    requires Shelf(s, w, i, seen) && w in s.workers && i < |s.Types(w)| && s.Types(w)[i] in s.contexts
    ensures var v := FinishVisit(env, s, w, i, next, more);
            Shelf(v.state, w, i + 1, seen) && (v.stop ==> v.state.FreeCapacity(w) <= 0)
            && v.state.contexts.Keys == s.contexts.Keys
  {
    hide Shelf, Quiet;
    var t := s.Types(w)[i];
    if next == [] {
      AddAvailableShelf(s, w, i, seen);
    } else {
      var k := Key(t, next[0].id);
      var out := ForwardQueued(env, s, w, k);
      ForwardQueuedQuiet(env, s, w, k);
      QuietShelf(s, out.state, w, i, seen);
      QuietKeys(s, out.state);
      if out.ok && out.state.FreeCapacity(w) <= 0 {
        ExhaustedShelf(out.state, w, i, seen);
        WithdrawShelf(out.state, w, i + 1, w, i + 1, seen);
      } else {
        AddAvailableShelf(out.state, w, i, seen);
      }
    }
  }

  lemma EraseShelf(s: State, k: Key, w: Identity, m: nat, seen: seq<RequestType>)
    requires Shelf(s, w, m, seen)
    ensures Shelf(RemoveInProgress(s, k), w, m, seen)
    ensures RemoveInProgress(s, k).contexts.Keys == s.contexts.Keys
  {
    QuietShelf(s, RemoveInProgress(s, k), w, m, seen);
  }

  lemma {:induction false} FinishPassShelf(
    env: Env, s: State, w: Identity, k: Key, i: nat, removed: bool, more: bool, seen: seq<RequestType>)
    requires Shelf(s, w, i, seen) && w in s.workers && i <= |s.Types(w)|
    requires forall j :: 0 <= j < |s.Types(w)| ==> s.Types(w)[j] in s.contexts
    ensures var p := FinishPass(env, s, w, k, i, removed, more);
            Shelf(p.state, w, |s.Types(w)|, seen)
    decreases |s.Types(w)| - i
  {
    hide Shelf, FinishVisit;
    if i < |s.Types(w)| {
      var t := s.Types(w)[i];
      var erase := !removed && t == k.kind;
      var s1 := if erase then RemoveInProgress(s, k) else s;
      EraseShelf(s, k, w, i, seen);
      FinishVisitShelf(env, s1, w, i, s.Pending(t), more, seen);
      var v := FinishVisit(env, s1, w, i, s.Pending(t), more);
      if v.stop {
        NoCapacityShelf(v.state, w, i + 1, seen);
      } else {
        FinishPassShelf(env, v.state, w, k, i + 1, removed || erase, v.more, seen);
      }
    }
  }

  lemma NoCapacityShelf(s: State, w: Identity, m: nat, seen: seq<RequestType>)
    requires Shelf(s, w, m, seen) && s.FreeCapacity(w) <= 0
    requires forall j :: 0 <= j < |s.Types(w)| ==> s.Types(w)[j] in s.contexts
    ensures Shelf(s, w, |s.Types(w)|, seen)
  {
  }

  lemma FinishedShelved(env: Env, s: State, w: Identity, k: Key)
    requires Shelved(s)
    ensures Shelved(HandleWorkerFinished(env, s, w, k))
  {
    if w in s.workers {
      var s1 := s
        .WithWorker(w, s.workers[w].RemoveInProgressRequest(k).(workerLastActive := s.now))
        .(log := s.log + FinishActions(s, w, k));
      ReleasedShelf(s, s1, w);
      hide Shelved, Shelf;
      FinishPassShelf(env, s1, w, k, 0, false, false, s.Types(w));
      var pass := if s1.FreeCapacity(w) > 0 then FinishPass(env, s1, w, k, 0, false, false)
                  else Pass(s1, false, false);
      if s1.FreeCapacity(w) <= 0 {
        NoCapacityShelf(s1, w, 0, s.Types(w));
      }
      FinishedRoundsShelved(env, pass, w, k);
    }
  }

  lemma FinishedRoundsShelved(env: Env, pass: Pass, w: Identity, k: Key)
    requires Shelf(pass.state, w, |pass.state.Types(w)|, pass.state.Types(w))
    ensures Shelved(Rounds(env, if pass.removed then pass.state else RemoveInProgress(pass.state, k),
                           w, pass.more))
  {
    hide Shelved, Shelf;
    var types := pass.state.Types(w);
    EraseShelf(pass.state, k, w, |types|, types);
    var s2 := if pass.removed then pass.state else RemoveInProgress(pass.state, k);
    RoundsShelf(env, s2, w, pass.more, |types|, types);
    RoundsTypes(env, s2, w, pass.more);
    ShelfComplete(Rounds(env, s2, w, pass.more), w);
  }

  lemma ReleasedShelf(s: State, s1: State, w: Identity)
    requires Shelved(s) && w in s.workers && s1.contexts == s.contexts
    requires s1.workers.Keys == s.workers.Keys && s1.Types(w) == s.Types(w)
    requires forall v :: v in s.workers && v != w ==> s1.workers[v] == s.workers[v]
    ensures Shelf(s1, w, 0, s.Types(w))
    ensures forall j :: 0 <= j < |s1.Types(w)| ==> s1.Types(w)[j] in s1.contexts
  {
    assert Offered(s, w, |s.Types(w)|);
    forall t
      ensures Supporters(s1, t, w, s.Types(w)) == Workforce(s, t)
    {
    }
    forall v | v in s.workers && v != w
      ensures Offered(s1, v, |s1.Types(v)|)
    {
      assert Offered(s, v, |s.Types(v)|);
    }
  }

  // ----- a client request -----

  lemma ClientRequestShelved(env: Env, s: State, k: Key, vfs: VersionFlags, msg: Message)
    requires Shelved(s)
    ensures Shelved(ClientRequest(env, s, k, vfs, msg))
  {
    var w := env.pick(s.sends, s.Available(k.kind));
    ShelvedBut(s, w);
    var s' := ClientRequest(env, s, k, vfs, msg);
    if k.kind !in s.contexts {
      NewTypeShelved(s, s', k.kind);
    } else if s.Known(k) {
      RepeatedRequestQuiet(env, s, k, vfs, msg);
      QuietShelved(s, s');
    } else if s.Available(k.kind) == {} {
      QuietShelved(s, s');
    } else {
      DirectShelved(env, s, w, k, vfs, msg);
    }
  }

  lemma NewTypeShelved(s: State, s': State, t: RequestType)
    requires Shelved(s) && t !in s.contexts && s'.workers == s.workers
    requires t in s'.contexts && s'.contexts == s.contexts[t := s'.contexts[t]]
    requires s'.contexts[t].totalWorkers == 0 && s'.contexts[t].available == {}
    ensures Shelved(s')
  {
    forall v | v in s.workers
      ensures t !in s.Types(v) && Offered(s', v, |s'.Types(v)|)
    {
      assert Offered(s, v, |s.Types(v)|);
    }
    assert Workforce(s', t) == {};
    forall u
      ensures Workforce(s', u) == Workforce(s, u)
    {
    }
  }

  lemma QuietShelved(s: State, s': State)
    requires Shelved(s) && Quiet(s, s')
    ensures Shelved(s')
  {
    QuietKeys(s, s');
    forall v | v in s.workers
      ensures Offered(s', v, |s'.Types(v)|)
    {
      assert Offered(s, v, |s.Types(v)|);
    }
    forall u
      ensures Workforce(s', u) == Workforce(s, u)
    {
    }
  }

  lemma WithdrawShelved(s: State, w: Identity)
    requires Shelved(s)
    ensures Shelved(WithdrawIfExhausted(s, w))
  {
    if s.FreeCapacity(w) <= 0 {
      ShelvedBut(s, w);
      hide Shelved, Shelf;
      WithdrawShelf(s, w, |s.Types(w)|, w, |s.Types(w)|, s.Types(w));
      ShelfComplete(WithdrawIfExhausted(s, w), w);
    }
  }

  lemma DirectShelved(env: Env, s: State, w: Identity, k: Key, vfs: VersionFlags, msg: Message)
    requires Shelved(s) && k.kind in s.contexts && !s.Known(k) && s.Available(k.kind) != {}
    requires w == env.pick(s.sends, s.Available(k.kind))
    ensures Shelved(ClientRequest(env, s, k, vfs, msg))
  {
    hide Shelved, Quiet;
    var out := ForwardDirect(env, s, w, k, vfs, msg, Start(k, vfs, msg, w));
    ForwardDirectQuiet(env, s, w, k, vfs, msg, Start(k, vfs, msg, w));
    QuietShelved(s, out.state);
    WithdrawShelved(out.state, w);
    PendingShelved(out.state, k, vfs, None, []);
    PendingShelved(out.state, k, vfs, Some(msg), [Accept(k, vfs, msg)]);
  }

  lemma PendingShelved(
    s: State, k: Key, vfs: VersionFlags, msg: Option<Message>, actions: seq<Action>)
    requires Shelved(s)
    ensures Shelved(AddPending(s, k, vfs, msg, actions))
  {
    assert Quiet(s, AddPending(s, k, vfs, msg, actions));
    QuietShelved(s, AddPending(s, k, vfs, msg, actions));
  }

  // ----- dead workers -----

  /** A dying worker counts for the types it has not left; every other worker is offered as ever. */
  lemma SettleShelf(env: Env, s: State, w: Identity, k: Key, seen: seq<RequestType>)
    requires Shelf(s, w, 0, seen)
    ensures Shelf(Settle(env, s, w, k), w, 0, seen)
  {
    hide Shelf, Quiet;
    if s.Known(k) {
      var r := s.Request(k);
      var s' := Settle(env, s, w, k);
      if Retryable(r) && s.Available(k.kind) != {} {
        var to := env.pick(s.sends, s.Available(k.kind));
        var msg := r.msg.GetOr([]);
        var out := ForwardDirect(env, s, to, k, r.vfs, msg, Move(k, w, to, msg));
        ForwardDirectQuiet(env, s, to, k, r.vfs, msg, Move(k, w, to, msg));
        QuietShelf(s, out.state, w, 0, seen);
        if !out.ok {
          RequeueQuiet(out.state, k, if env.request(s.sends) then [] else [Requeue(k, w)]);
          QuietShelf(out.state, s', w, 0, seen);
        } else if out.state.FreeCapacity(to) <= 0 {
          WithdrawShelf(out.state, to, |out.state.Types(to)|, w, 0, seen);
        }
      } else {
        SettleQuiet(env, s, w, k);
        QuietShelf(s, s', w, 0, seen);
      }
    }
  }

  lemma RequeueQuiet(s: State, k: Key, actions: seq<Action>)
    ensures Quiet(s, BackToPending(s, k, actions))
  {
  }

  lemma SettleQuiet(env: Env, s: State, w: Identity, k: Key)
    requires s.Known(k) && !(Retryable(s.Request(k)) && s.Available(k.kind) != {})
    ensures Quiet(s, Settle(env, s, w, k))
  {
    hide Quiet;
    var r := s.Request(k);
    if Retryable(r) {
      RequeueQuiet(s, k, [Requeue(k, w)]);
    } else if !Abandoned(r) {
      EraseQuiet(s, k, [Fail(k, w, NoticeOf(r, NotifyOnDeath))]);
    } else {
      LogQuiet(s, [Strand(k, w)]);
    }
  }

  lemma LogQuiet(s: State, actions: seq<Action>)
    ensures Quiet(s, s.(log := s.log + actions))
  {
  }

  lemma EraseQuiet(s: State, k: Key, actions: seq<Action>)
    ensures Quiet(s, RemoveInProgress(s, k).(log := s.log + actions))
  {
  }

  lemma {:induction false} SettleAllShelf(
    env: Env, s: State, w: Identity, t: RequestType, ids: seq<RequestId>, seen: seq<RequestType>)
    requires Shelf(s, w, 0, seen)
    ensures Shelf(SettleAll(env, s, w, t, ids), w, 0, seen)
    decreases |ids|
  {
    hide Shelf;
    if ids != [] {
      SettleShelf(env, s, w, Key(t, ids[0]), seen);
      SettleAllShelf(env, Settle(env, s, w, Key(t, ids[0])), w, t, ids[1..], seen);
    }
  }

  lemma {:induction false} DeadWorkerShelf(env: Env, s: State, w: Identity, i: nat)
    requires i <= |s.Types(w)| && Distinct(s.Types(w)) && w in s.workers
    requires forall j :: i <= j < |s.Types(w)| ==> s.Types(w)[j] in s.contexts
    requires Shelf(s, w, 0, s.Types(w)[i..])
    ensures Shelf(DeadWorker(env, s, w, i), w, 0, [])
    decreases |s.Types(w)| - i
  {
    hide Shelf;
    if i == |s.Types(w)| {
      assert s.Types(w)[i..] == [];
    } else {
      var t := s.Types(w)[i];
      var s1 := Leave(s, w, t);
      LeaveShelf(s, w, i);
      var ids := env.order(s.At(), w, t, HeldIds(s, w, t));
      SettleAllShelf(env, s1, w, t, ids, s.Types(w)[i + 1..]);
      SettleAllKeys(env, s1, w, t, ids);
      DeadWorkerShelf(env, SettleAll(env, s1, w, t, ids), w, i + 1);
    }
  }

  lemma {:induction false} SettleAllKeys(env: Env, s: State, w: Identity, t: RequestType, ids: seq<RequestId>)
    ensures SettleAll(env, s, w, t, ids).contexts.Keys == s.contexts.Keys
    ensures SettleAll(env, s, w, t, ids).workers.Keys == s.workers.Keys
    decreases |ids|
  {
    if ids != [] {
      SettleKeys(env, s, w, Key(t, ids[0]));
      SettleAllKeys(env, Settle(env, s, w, Key(t, ids[0])), w, t, ids[1..]);
    }
  }

  lemma SettleKeys(env: Env, s: State, w: Identity, k: Key)
    ensures Settle(env, s, w, k).contexts.Keys == s.contexts.Keys
    ensures Settle(env, s, w, k).workers.Keys == s.workers.Keys
  {
    if s.Known(k) {
      var r := s.Request(k);
      if Retryable(r) && s.Available(k.kind) != {} {
        var to := env.pick(s.sends, s.Available(k.kind));
        var msg := r.msg.GetOr([]);
        ForwardDirectQuiet(env, s, to, k, r.vfs, msg, Move(k, w, to, msg));
      }
    }
  }

  lemma LeaveShelf(s: State, w: Identity, i: nat)
    requires i < |s.Types(w)| && Distinct(s.Types(w)) && w in s.workers && s.Types(w)[i] in s.contexts
    requires Shelf(s, w, 0, s.Types(w)[i..])
    ensures Shelf(Leave(s, w, s.Types(w)[i]), w, 0, s.Types(w)[i + 1..])
  {
    LeaveCounted(s, w, i);
    LeaveOffered(s, w, s.Types(w)[i]);
  }

  lemma LeaveCounted(s: State, w: Identity, i: nat)
    requires i < |s.Types(w)| && Distinct(s.Types(w)) && w in s.workers && s.Types(w)[i] in s.contexts
    requires CountedAs(s, w, s.Types(w)[i..])
    ensures CountedAs(Leave(s, w, s.Types(w)[i]), w, s.Types(w)[i + 1..])
  {
    var t0 := s.Types(w)[i];
    var rest := s.Types(w)[i + 1..];
    var s1 := Leave(s, w, t0);
    assert s.Types(w)[i..] == [t0] + rest && t0 !in rest;
    hide Distinct;
    forall t | t in s.contexts
      ensures s1.contexts[t].totalWorkers == |Supporters(s1, t, w, rest)|
    {
      OneSupporterLess(s, s1, t, w, t0, rest);
    }
  }

  lemma OneSupporterLess(
    s: State, s1: State, t: RequestType, w: Identity, t0: RequestType, rest: seq<RequestType>)
    requires w in s.workers && s1.workers == s.workers && t0 !in rest
    ensures |Supporters(s, t, w, [t0] + rest)| == |Supporters(s1, t, w, rest)| + if t == t0 then 1 else 0
  {
    assert Supporters(s, t, w, [t0] + rest) ==
      if t == t0 then Supporters(s1, t, w, rest) + {w} else Supporters(s1, t, w, rest);
  }

  lemma LeaveOffered(s: State, w: Identity, t: RequestType)
    requires OfferedBut(s, w, 0) && t in s.contexts
    ensures OfferedBut(Leave(s, w, t), w, 0)
  {
    var s1 := Leave(s, w, t);
    forall v | v in s.workers && v != w
      ensures Offered(s1, v, |s1.Types(v)|)
    {
      assert Offered(s, v, |s.Types(v)|);
    }
  }

  lemma DeathShelved(env: Env, s: State, w: Identity)
    requires Shelved(s) && w in s.workers && Distinct(s.Types(w))
    ensures Shelved(RemoveWorker(DeadWorker(env, s, w, 0), w))
  {
    ShelvedBut(s, w);
    assert Offered(s, w, |s.Types(w)|);
    assert OfferedBut(s, w, 0);
    assert s.Types(w)[0..] == s.Types(w);
    DeadWorkerShelf(env, s, w, 0);
    GoneShelved(DeadWorker(env, s, w, 0), w);
  }

  lemma GoneShelved(s: State, w: Identity)
    requires Shelf(s, w, 0, [])
    ensures Shelved(RemoveWorker(s, w))
  {
    var s' := RemoveWorker(s, w);
    forall t
      ensures Supporters(s, t, w, []) == Workforce(s', t)
    {
    }
    forall v | v in s'.workers
      ensures Offered(s', v, |s'.Types(v)|)
    {
      assert Offered(s, v, |s.Types(v)|);
    }
  }

  lemma {:induction false} PulseShelved(env: Env, s: State, ws: seq<Identity>, deathDelay: int)
    requires Fair(env) && PulseSafe(env, s, ws, deathDelay) && Inv(s, Settled) && Shelved(s)
    ensures Shelved(PulseFrom(env, s, ws, deathDelay))
    decreases |ws|
  {
    hide Inv, Fate, Shelved, DeadSafe;
    if ws != [] {
      if ws[0] !in s.workers || s.workers[ws[0]].IsAliveAsOf(s.now, deathDelay) {
        PulseShelved(env, s, ws[1..], deathDelay);
      } else {
        var s' := RemoveWorker(DeadWorker(env, s, ws[0], 0), ws[0]);
        DeathAgrees(env, s, ws[0]);
        DeathBegins(s, ws[0]);
        DeathShelved(env, s, ws[0]);
        PulseShelved(env, s', ws[1..], deathDelay);
      }
    }
  }

  lemma StepShelved(env: Env, s: State, e: Event)
    requires Fair(env) && Inv(s, Settled) && Shelved(s) && Sound(env, s, e)
    ensures Shelved(Step(env, s, e))
  {
    hide Inv, Shelved;
    match e
    case Tick(_) => TimesShelved(s, Step(env, s, e));
    case Ask(k, vfs, msg) => ClientRequestShelved(env, s, k, vfs, msg);
    case Ready(w, capacity, types, delay) => ReadyShelved(env, s, w, capacity, types, delay);
    case Finished(w, k) => FinishedShelved(env, s, w, k);
    case Pulse(deathDelay) => PulseShelved(env, s, env.roster(s.At(), s.workers.Keys), deathDelay);
    case Beat(w, sentAt, delay, minimumDelay) => TimesShelved(s, Step(env, s, e));
    case Received(w) => TimesShelved(s, Step(env, s, e));
  }

  lemma TimesShelved(s: State, s': State)
    requires Shelved(s) && s'.contexts == s.contexts && s'.workers.Keys == s.workers.Keys
    requires forall v :: v in s.workers ==>
               s'.workers[v].types == s.workers[v].types
               && s'.workers[v].freeCapacity == s.workers[v].freeCapacity
    ensures Shelved(s')
  {
    assert Quiet(s, s');
    QuietShelved(s, s');
  }

  /** In every state a sound run reaches, whatever sends fail: a registered worker with free capacity
      is available for each of its types, and each type counts the registered workers that support it. */
  lemma {:induction false} RunShelved(env: Env, events: seq<Event>)
    requires Fair(env) && SoundRun(env, Start0, events)
    ensures Shelved(Run(env, Start0, events))
  {
    hide Inv, Sound, Shelved;
    if events == [] {
      StartShelved();
    } else {
      var before := events[..|events| - 1];
      RunShelved(env, before);
      RunAgrees(env, before);
      StepShelved(env, Run(env, Start0, before), events[|events| - 1]);
    }
  }

  lemma StartShelved()
    ensures Shelved(Start0)
  {
  }
}

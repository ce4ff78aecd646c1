/** No worker idles while a request it could run is waiting, and none is given more than it can take. */
module Conservation {
  import opened Wrappers
  import opened Cluster
  import opened RequestContexts
  import opened Scheduler
  import opened Agreement
  import opened Forwarding
  import opened Requests
  import opened Workers
  import opened Deaths
  import opened Safety
  import opened Availability
  import opened RoundRobin

  /** A worker with free capacity, other than `w`, has no pending request of any type it supports. */
  ghost predicate ServedBut(s: State, w: Option<Identity>) {
    forall v, t :: v in s.workers && Some(v) != w && t in s.Types(v) && s.FreeCapacity(v) > 0 ==>
      s.Pending(t) == []
  }

  /** A worker, other than `w`, is offered only while it has free capacity, and never given more. */
  ghost predicate SpareBut(s: State, w: Option<Identity>) {
    && (forall v, t :: Some(v) != w && v in s.Available(t) ==> s.FreeCapacity(v) > 0)
    && (forall v :: v in s.workers && Some(v) != w ==> s.FreeCapacity(v) >= 0)
  }

  ghost predicate Served(s: State) {
    ServedBut(s, None)
  }

  ghost predicate Spare(s: State) {
    SpareBut(s, None)
  }

  /** Lists only shrink and nobody but `w` is affected. */
  ghost predicate Shrunk(s: State, s': State, w: Identity) {
    && s'.workers.Keys == s.workers.Keys
    && (forall t :: s.Pending(t) == [] ==> s'.Pending(t) == [])
    && (forall v :: v != w ==> s'.FreeCapacity(v) == s.FreeCapacity(v) && s'.Types(v) == s.Types(v))
    && (forall v, t :: v != w && v in s'.Available(t) ==> v in s.Available(t))
    && s'.Types(w) == s.Types(w)
  }

  lemma ShrunkOthers(s: State, s': State, w: Identity)
    requires Shrunk(s, s', w)
    ensures ServedBut(s, Some(w)) ==> ServedBut(s', Some(w))
    ensures SpareBut(s, Some(w)) ==> SpareBut(s', Some(w))
  {
  }

  lemma ShrunkTwice(s: State, s1: State, s2: State, w: Identity)
    requires Shrunk(s, s1, w) && Shrunk(s1, s2, w)
    ensures Shrunk(s, s2, w)
  {
  }

  lemma ShrunkSame(s: State, s': State, w: Identity)
    requires s'.workers == s.workers
    requires forall t :: s'.Pending(t) == s.Pending(t) && s'.Available(t) <= s.Available(t) + {w}
    ensures Shrunk(s, s', w)
  {
  }

  // ----- nobody but the worker served is affected -----

  lemma ForwardShrinks(env: Env, s: State, w: Identity, k: Key)
    ensures Shrunk(s, ForwardQueued(env, s, w, k).state, w)
  {
    if s.Known(k) && s.Request(k).place.Queued? && w in s.workers && env.request(s.sends) {
      ForwardQueuedIs(env, s, w, k);
      hide ForwardQueued;
    }
  }

  lemma WithdrawShrinks(s: State, w: Identity, n: nat)
    ensures Shrunk(s, Withdraw(s, w, n), w)
  {
    if n <= |s.Types(w)| {
      forall t
        ensures Withdraw(s, w, n).Pending(t) == s.Pending(t)
      {
        WithdrawIs(s, w, n, t);
      }
    }
    ShrunkSame(s, Withdraw(s, w, n), w);
  }

  lemma AddShrinks(s: State, t: RequestType, w: Identity)
    ensures Shrunk(s, AddAvailable(s, t, w), w)
  {
    ShrunkSame(s, AddAvailable(s, t, w), w);
  }

  /** All that can happen when a worker's type is visited and its first request sent. */
  lemma VisitShrinks(env: Env, s: State, w: Identity, k: Key, t: RequestType, n: nat)
    ensures var s1 := ForwardQueued(env, s, w, k).state;
            && Shrunk(s, s1, w) && Shrunk(s, AddAvailable(s1, t, w), w) && Shrunk(s, Withdraw(s1, w, n), w)
  {
    hide Shrunk, ForwardQueued, AddAvailable, Withdraw;
    var s1 := ForwardQueued(env, s, w, k).state;
    ForwardShrinks(env, s, w, k);
    AddShrinks(s1, t, w);
    WithdrawShrinks(s1, w, n);
    ShrunkTwice(s, s1, AddAvailable(s1, t, w), w);
    ShrunkTwice(s, s1, Withdraw(s1, w, n), w);
  }

  lemma SweepVisitShrinks(env: Env, s: State, w: Identity, i: nat, more: bool)
    requires i < |s.Types(w)|
    ensures Shrunk(s, SweepVisit(env, s, w, i, more).state, w)
  {
    hide Shrunk;
    var t := s.Types(w)[i];
    ShrunkSame(s, s, w);
    if s.Pending(t) != [] {
      VisitShrinks(env, s, w, Key(t, s.Pending(t)[0].id), t, i + 1);
    }
  }

  lemma {:induction false} SweepShrinks(env: Env, s: State, w: Identity, i: nat, more: bool)
    ensures Shrunk(s, Sweep(env, s, w, i, more).0, w)
    decreases |s.Types(w)| - i
  {
    hide Shrunk, SweepVisit;
    ShrunkSame(s, s, w);
    if i < |s.Types(w)| {
      var v := SweepVisit(env, s, w, i, more);
      SweepVisitShrinks(env, s, w, i, more);
      if !v.stop {
        SweepShrinks(env, v.state, w, i + 1, v.more);
        ShrunkTwice(s, v.state, Sweep(env, v.state, w, i + 1, v.more).0, w);
      }
    }
  }

  lemma {:induction false} RoundsShrink(env: Env, s: State, w: Identity, more: bool)
    ensures Shrunk(s, Rounds(env, s, w, more), w)
    decreases if more then 1 else 0, s.FreeCapacity(w)
  {
    hide Shrunk, Sweep;
    ShrunkSame(s, s, w);
    if s.FreeCapacity(w) > 0 && more {
      var round := Sweep(env, s, w, 0, false);
      SweepShrinks(env, s, w, 0, false);
      if round.1 {
        RoundsShrink(env, round.0, w, true);
        ShrunkTwice(s, round.0, Rounds(env, round.0, w, true), w);
      }
    }
  }

  lemma NewWorkerVisitShrinks(env: Env, s: State, w: Identity, i: nat, more: bool)
    requires i < |s.Types(w)|
    ensures Shrunk(s, NewWorkerVisit(env, s, w, i, more).state, w)
  {
    var t := s.Types(w)[i];
    if t in s.contexts {
      var s1 := s.WithContext(t, s.contexts[t].IncrementNumWorkers());
      ShrunkSame(s, s1, w);
      ServedShrinks(env, s1, w, i, more);
      hide Shrunk, NewWorkerServed;
      ShrunkTwice(s, s1, NewWorkerVisit(env, s, w, i, more).state, w);
    } else {
      ShrunkSame(s, NewWorkerVisit(env, s, w, i, more).state, w);
    }
  }

  lemma ServedShrinks(env: Env, s: State, w: Identity, i: nat, more: bool)
    requires i < |s.Types(w)|
    ensures Shrunk(s, NewWorkerServed(env, s, w, i, more).state, w)
  {
    hide Shrunk;
    var t := s.Types(w)[i];
    ShrunkSame(s, s, w);
    AddShrinks(s, t, w);
    if s.Pending(t) != [] {
      VisitShrinks(env, s, w, Key(t, s.Pending(t)[0].id), t, i);
    }
  }

  lemma {:induction false} NewWorkerPassShrinks(env: Env, s: State, w: Identity, i: nat, more: bool)
    ensures Shrunk(s, NewWorkerPass(env, s, w, i, more).0, w)
    decreases |s.Types(w)| - i
  {
    hide Shrunk, NewWorkerVisit;
    ShrunkSame(s, s, w);
    if i < |s.Types(w)| {
      var v := NewWorkerVisit(env, s, w, i, more);
      NewWorkerVisitShrinks(env, s, w, i, more);
      NewWorkerPassShrinks(env, v.state, w, i + 1, v.more);
      ShrunkTwice(s, v.state, NewWorkerPass(env, v.state, w, i + 1, v.more).0, w);
    }
  }

  lemma FinishVisitShrinks(env: Env, s: State, w: Identity, i: nat, next: seq<Node>, more: bool)
    requires i < |s.Types(w)|
    ensures Shrunk(s, FinishVisit(env, s, w, i, next, more).state, w)
  {
    hide Shrunk;
    var t := s.Types(w)[i];
    AddShrinks(s, t, w);
    if next != [] {
      VisitShrinks(env, s, w, Key(t, next[0].id), t, i + 1);
    }
  }

  lemma {:induction false} FinishPassShrinks(
    env: Env, s: State, w: Identity, k: Key, i: nat, removed: bool, more: bool)
    ensures Shrunk(s, FinishPass(env, s, w, k, i, removed, more).state, w)
    decreases |s.Types(w)| - i
  {
    hide Shrunk, FinishVisit;
    ShrunkSame(s, s, w);
    if i < |s.Types(w)| {
      var t := s.Types(w)[i];
      if t !in s.contexts {
        FinishPassShrinks(env, s, w, k, i + 1, removed, more);
      } else {
        var erase := !removed && t == k.kind;
        var s1 := if erase then RemoveInProgress(s, k) else s;
        SameErased(s, k);
        ShrunkSame(s, s1, w);
        var v := FinishVisit(env, s1, w, i, s.Pending(t), more);
        FinishVisitShrinks(env, s1, w, i, s.Pending(t), more);
        ShrunkTwice(s, s1, v.state, w);
        if !v.stop {
          FinishPassShrinks(env, v.state, w, k, i + 1, removed || erase, v.more);
          ShrunkTwice(s, v.state, FinishPass(env, v.state, w, k, i + 1, removed || erase, v.more).state, w);
        }
      }
    }
  }

  // ----- a new worker -----

  lemma ReadyShrinks(env: Env, s: State, w: Identity, capacity: int, types: seq<RequestType>, delay: int)
    requires Enrols(s, w, capacity, types)
    ensures Shrunk(Registered(s, w, capacity, types, delay), HandleWorkerReady(env, s, w, capacity, types, delay), w)
  {
    hide Shrunk, NewWorkerPass, Rounds;
    var s1 := Registered(s, w, capacity, types, delay);
    var pass := NewWorkerPass(env, s1, w, 0, false);
    NewWorkerPassShrinks(env, s1, w, 0, false);
    RoundsShrink(env, pass.0, w, pass.1);
    ShrunkTwice(s1, pass.0, Rounds(env, pass.0, w, pass.1), w);
  }

  lemma RegisteredOthers(s: State, w: Identity, capacity: int, types: seq<RequestType>, delay: int)
    requires w !in s.workers && AvailableAgrees(s)
    ensures var s1 := Registered(s, w, capacity, types, delay);
            && (Served(s) ==> ServedBut(s1, Some(w))) && (Spare(s) ==> SpareBut(s1, Some(w)))
            && w in s1.workers && s1.Types(w) == types
  {
    var s1 := Registered(s, w, capacity, types, delay);
    forall t
      ensures s1.Pending(t) == s.Pending(t) && s1.Available(t) == s.Available(t) && w !in s.Available(t)
    {
    }
    forall v | v != w
      ensures s1.Types(v) == s.Types(v) && s1.FreeCapacity(v) == s.FreeCapacity(v)
    {
    }
  }

  /** What holds of everybody but a new worker, and what the worker itself decides. */
  lemma ReadyOthers(env: Env, s: State, w: Identity, capacity: int, types: seq<RequestType>, delay: int)
    requires Enrols(s, w, capacity, types) && AvailableAgrees(s)
    ensures var s' := HandleWorkerReady(env, s, w, capacity, types, delay);
            && (Served(s) ==> (Served(s') <==> (s'.FreeCapacity(w) > 0 ==> Dry(s', types, |types|))))
            && (Spare(s) ==>
                  (Spare(s') <==> s'.FreeCapacity(w) >= 0
                                  && (s'.FreeCapacity(w) > 0 || forall t :: w !in s'.Available(t))))
  {
    var s1 := Registered(s, w, capacity, types, delay);
    var s' := HandleWorkerReady(env, s, w, capacity, types, delay);
    ReadyShrinks(env, s, w, capacity, types, delay);
    RegisteredOthers(s, w, capacity, types, delay);
    hide HandleWorkerReady, Registered, Served, Spare, ServedBut, SpareBut, Dry;
    ShrunkOthers(s1, s', w);
    assert w in s'.workers && s'.Types(w) == types;
    hide Shrunk;
    if Served(s) {
      ServedAll(s', w, types);
    }
    if Spare(s) {
      SpareAll(s', w);
    }
  }

  lemma ServedAll(s: State, w: Identity, types: seq<RequestType>)
    requires ServedBut(s, Some(w)) && w in s.workers && s.Types(w) == types
    ensures Served(s) <==> (s.FreeCapacity(w) > 0 ==> Dry(s, types, |types|))
  {
    if s.FreeCapacity(w) > 0 {
      if Dry(s, types, |types|) {
        forall t | t in types
          ensures s.Pending(t) == []
        {
          var j :| 0 <= j < |types| && types[j] == t;
          assert s.Pending(types[j]) == [];
        }
      } else {
        var j :| 0 <= j < |types| && s.Pending(types[j]) != [];
        assert types[j] in s.Types(w);
      }
    }
  }

  lemma SpareAll(s: State, w: Identity)
    requires SpareBut(s, Some(w)) && w in s.workers
    ensures Spare(s) <==>
              s.FreeCapacity(w) >= 0 && (s.FreeCapacity(w) > 0 || forall t :: w !in s.Available(t))
  {
  }

  /** A new worker's capacity and the waiting requests are matched up as far as either goes, exactly
      if no lost receipt hides that there is more to do. */
  lemma ReadyServedIff(env: Env, s: State, w: Identity, capacity: int, types: seq<RequestType>, delay: int)
    requires RequestsSent(env) && Inv(s, Settled) && Distinct(types) && Served(s)
    requires Enrols(s, w, capacity, types)
    ensures Served(HandleWorkerReady(env, s, w, capacity, types, delay)) <==>
              !ReadyForgets(env, s, w, capacity, types, delay)
  {
    hide Inv, Distinct, Served, Dry, HandleWorkerReady, ReadyForgets, ReadyOverruns, ReadySpoils;
    AvailableKnown(s, Settled);
    ReadyOthers(env, s, w, capacity, types, delay);
    if ReadyForgets(env, s, w, capacity, types, delay) {
      ForgotSpare(env, s, w, capacity, types, delay);
    }
    if ReadyOverruns(env, s, w, capacity, types, delay) {
      OverrunSinks(env, s, w, capacity, types, delay);
    } else {
      var r, i, lo, hi := ReadyDeals(env, s, w, capacity, types, delay);
      hide Standing;
    }
  }

  /** After a worker becomes ready nobody is offered without capacity or over-committed, exactly when no
      lost receipt hides that its capacity has run out, and it does not run out early, or would only
      have if a lost receipt had not ended the deal. */
  lemma ReadySpareIff(env: Env, s: State, w: Identity, capacity: int, types: seq<RequestType>, delay: int)
    requires RequestsSent(env) && Inv(s, Settled) && Distinct(types) && Spare(s)
    requires Enrols(s, w, capacity, types)
    ensures Spare(HandleWorkerReady(env, s, w, capacity, types, delay)) <==>
              && !ReadySpoils(env, s, w, capacity, types, delay)
              && (StopsEarly(capacity, Counts(s, types)) ==> ReadyForgets(env, s, w, capacity, types, delay))
  {
    hide Inv, Distinct, Spare, HandleWorkerReady, ReadyForgets, ReadyOverruns, ReadySpoils, StopsEarly, AvailableAgrees, Counts;
    AvailableKnown(s, Settled);
    ReadyOthers(env, s, w, capacity, types, delay);
    if ReadyOverruns(env, s, w, capacity, types, delay) {
      OverrunSinks(env, s, w, capacity, types, delay);
      OverrunSpoils(env, s, w, capacity, types, delay);
    } else {
      ReadyWorkerSpare(env, s, w, capacity, types, delay);
    }
  }

  lemma ReadyWorkerSpare(env: Env, s: State, w: Identity, capacity: int, types: seq<RequestType>, delay: int)
    requires RequestsSent(env) && Inv(s, Settled) && Distinct(types) && AvailableAgrees(s)
    requires Enrols(s, w, capacity, types) && !ReadyOverruns(env, s, w, capacity, types, delay)
    ensures var s' := HandleWorkerReady(env, s, w, capacity, types, delay);
            s'.FreeCapacity(w) >= 0 && (s'.FreeCapacity(w) > 0 || forall t :: w !in s'.Available(t)) <==>
              && !ReadySpoils(env, s, w, capacity, types, delay)
              && (StopsEarly(capacity, Counts(s, types)) ==> ReadyForgets(env, s, w, capacity, types, delay))
  {
    hide Inv, Distinct, HandleWorkerReady, ReadyForgets, ReadyOverruns, ReadySpoils, StopsEarly, AvailableAgrees, Counts;
    hide DealEnds;
    var s' := HandleWorkerReady(env, s, w, capacity, types, delay);
    var spoiled := ReadySpoils(env, s, w, capacity, types, delay);
    var forgot := ReadyForgets(env, s, w, capacity, types, delay);
    if forgot {
      ForgotSpare(env, s, w, capacity, types, delay);
    }
    var r, i, lo, hi := ReadyDeals(env, s, w, capacity, types, delay);
    DealSpare(s, s', w, capacity, types, r, i, lo, hi, spoiled, forgot);
    DealUnspoiled(s, s', w, capacity, types, r, i, lo, hi, spoiled, forgot);
    if !forgot {
      DealStops(s, s', w, capacity, types, r, i, lo, hi, spoiled, forgot);
    }
  }

  lemma DealUnspoiled(
    s0: State, s: State, w: Identity, cap: int, types: seq<RequestType>, r: nat, i: nat, lo: nat, hi: nat,
    spoiled: bool, forgot: bool)
    requires DealEnds(s0, s, w, cap, types, r, i, lo, hi, spoiled, forgot)
    ensures s.FreeCapacity(w) > 0 ==> !spoiled
    ensures i <= |types|
  {
    hide Standing, RunsOutAt, Dry;
  }

  /** A worker that is overrun was spoiled. */
  lemma {:induction false} SweepOverrunSpoils(env: Env, s: State, w: Identity, i: nat, more: bool)
    requires SweepOverruns(env, s, w, i, more)
    ensures SweepSpoils(env, s, w, i, more)
    decreases |s.Types(w)| - i
  {
    hide SweepVisit, HeadLost, PendingAfter;
    var v := SweepVisit(env, s, w, i, more);
    if !(HeadLost(env, s, s.Types(w)[i]) && s.FreeCapacity(w) == 1) {
      SweepOverrunSpoils(env, v.state, w, i + 1, v.more);
    }
  }

  lemma {:induction false} RoundsOverrunSpoil(env: Env, s: State, w: Identity, more: bool)
    requires RoundsOverrun(env, s, w, more)
    ensures RoundsSpoil(env, s, w, more)
    decreases if more then 1 else 0, s.FreeCapacity(w)
  {
    hide Sweep, SweepOverruns, SweepSpoils;
    if SweepOverruns(env, s, w, 0, false) {
      SweepOverrunSpoils(env, s, w, 0, false);
    } else {
      RoundsOverrunSpoil(env, Sweep(env, s, w, 0, false).0, w, true);
    }
  }

  lemma OverrunSpoils(env: Env, s: State, w: Identity, capacity: int, types: seq<RequestType>, delay: int)
    requires ReadyOverruns(env, s, w, capacity, types, delay)
    ensures ReadySpoils(env, s, w, capacity, types, delay)
  {
    hide NewWorkerPass, RoundsOverrun, RoundsSpoil, PassSpoils;
    var pass := NewWorkerPass(env, Registered(s, w, capacity, types, delay), w, 0, false);
    RoundsOverrunSpoil(env, pass.0, w, pass.1);
  }

  lemma DealSpare(
    s0: State, s: State, w: Identity, cap: int, types: seq<RequestType>, r: nat, i: nat, lo: nat, hi: nat,
    spoiled: bool, forgot: bool)
    requires DealEnds(s0, s, w, cap, types, r, i, lo, hi, spoiled, forgot)
    requires w !in s0.workers && AvailableAgrees(s0)
    ensures s.FreeCapacity(w) >= 0
    ensures s.FreeCapacity(w) <= 0 ==>
              ((forall t :: w !in s.Available(t)) <==> !spoiled && (r == 0 || i == |types|))
  {
    hide Inv, RunsOutAt, Distinct;
    OnlyListed(s0, s, w, types, lo, hi);
    hide Listed, Gave;
  }

  lemma OnlyListed(s0: State, s: State, w: Identity, types: seq<RequestType>, lo: nat, hi: nat)
    requires Listed(s0, s, w, types, lo, hi) && w !in s0.workers && AvailableAgrees(s0)
    ensures lo >= hi || lo >= |types| ==> forall t :: w !in s.Available(t)
    ensures lo < hi && lo < |types| ==> w in s.Available(types[lo])
  {
    forall t | w in s.Available(t)
      ensures lo < hi && lo < |types|
    {
      assert w !in s0.Available(t);
      var j :| 0 <= j < |types| && types[j] == t;
      assert lo <= j < hi;
    }
  }

  lemma DealStops(
    s0: State, s: State, w: Identity, cap: nat, types: seq<RequestType>, r: nat, i: nat, lo: nat, hi: nat,
    spoiled: bool, forgot: bool)
    requires DealEnds(s0, s, w, cap, types, r, i, lo, hi, spoiled, forgot) && !forgot
    ensures StopsEarly(cap, Counts(s0, types)) <==> s.FreeCapacity(w) <= 0 && r > 0 && i < |types|
  {
    hide Inv, Listed;
    var ps := Counts(s0, types);
    if s.FreeCapacity(w) <= 0 && r > 0 && i < |types| {
      assert RunsOutAt(cap, ps, r, i - 1);
    } else {
      forall q: nat, j: nat | q >= 1 && j + 1 < |ps| && RunsOutAt(cap, ps, q, j)
        ensures false
      {
        NotEarly(s0, s, w, cap, types, r, i, lo, hi, spoiled, forgot, q, j);
      }
    }
  }

  lemma NotEarly(
    s0: State, s: State, w: Identity, cap: nat, types: seq<RequestType>, r: nat, i: nat, lo: nat, hi: nat,
    spoiled: bool, forgot: bool, q: nat, j: nat)
    requires DealEnds(s0, s, w, cap, types, r, i, lo, hi, spoiled, forgot) && !forgot
    requires s.FreeCapacity(w) > 0 || r == 0 || i == |types|
    ensures !(q >= 1 && j + 1 < |types| && RunsOutAt(cap, Counts(s0, types), q, j))
  {
    hide Inv, Listed;
    var ps := Counts(s0, types);
    if q >= 1 && j + 1 < |types| && RunsOutAt(cap, ps, q, j) {
      TotalStep(ps, q, j);
      if s.FreeCapacity(w) > 0 {
        DealtMost(s0, s, w, cap, types, r, i);
        TotalWithin(ps, q, j + 1);
      } else if r == 0 {
        TotalGrows(ps, 0, i, q, j);
      } else {
        RunsOutOnce(cap, ps, r, i - 1, q, j);
      }
    }
  }

  // ----- a finished request -----

  ghost predicate DryFrom(s: State, w: Identity, i: nat) {
    forall j :: i <= j < |s.Types(w)| ==> s.Pending(s.Types(w)[j]) == []
  }

  ghost predicate AbsentFrom(s: State, w: Identity, i: nat) {
    forall j :: i <= j < |s.Types(w)| ==> w !in s.Available(s.Types(w)[j])
  }

  /** From its i-th type on, a finished worker either finds nothing to do or takes one request; if it
      had not been offered for those types, it is then offered for none. */
  ghost predicate Finishing(s: State, s': State, w: Identity, i: nat) {
    && Shrunk(s, s', w) && s'.FreeCapacity(w) >= 0
    && (s'.FreeCapacity(w) > 0 ==> DryFrom(s', w, i))
    && (s'.FreeCapacity(w) <= 0 && AbsentFrom(s, w, i) ==> AbsentFrom(s', w, 0))
    && (s.FreeCapacity(w) > 1 ==> s'.FreeCapacity(w) > 0)
  }

  /** The first request pending, from the i-th of a worker's types on, is one whose receipt would be lost. */
  predicate FirstLost(env: Env, s: State, w: Identity, i: nat)
    decreases |s.Types(w)| - i
  {
    && i < |s.Types(w)|
    && if s.Pending(s.Types(w)[i]) == [] then FirstLost(env, s, w, i + 1)
       else HeadLost(env, s, s.Types(w)[i])
  }

  lemma EmptyFinishTurn(env: Env, s: State, w: Identity, i: nat)
    requires i < |s.Types(w)| && s.Types(w)[i] in s.contexts && s.Pending(s.Types(w)[i]) == []
    ensures var v := FinishVisit(env, s, w, i, [], false);
            !v.more && !v.stop && Relisted(s, v.state, w, s.Types(w)[i])
            && v.state.contexts.Keys == s.contexts.Keys && SameHeads(s, v.state)
  {
    AddAvailableIs(s, w, s.Types(w)[i]);
  }

  lemma TakingFinishTurn(env: Env, s: State, w: Identity, i: nat, x: Transit)
    requires RequestsSent(env) && Inv(s, x) && w in s.workers && i < |s.Types(w)|
    requires s.Pending(s.Types(w)[i]) != [] && s.FreeCapacity(w) == 1 && !HeadLost(env, s, s.Types(w)[i])
    ensures var v := FinishVisit(env, s, w, i, s.Pending(s.Types(w)[i]), false);
            !v.more && v.stop && v.state.FreeCapacity(w) == 0 && Finishing(s, v.state, w, i)
  {
    var t := s.Types(w)[i];
    var s1 := ForwardQueued(env, s, w, Key(t, s.Pending(t)[0].id)).state;
    HeadSent(env, s, w, t, x);
    hide Inv, ForwardQueued, HeadLost;
    TookFinishing(s, s1, w, i);
  }

  lemma TookFinishing(s: State, s1: State, w: Identity, i: nat)
    requires i < |s.Types(w)| && Took(s, s1, w, s.Types(w)[i]) && s.FreeCapacity(w) == 1
    ensures Finishing(s, Withdraw(s1, w, i + 1), w, i)
  {
    var s2 := Withdraw(s1, w, i + 1);
    WithdrawShrinks(s1, w, i + 1);
    TookShrinks(s, s1, w, i);
    ShrunkTwice(s, s1, s2, w);
    hide Shrunk;
    if AbsentFrom(s, w, i) {
      TookAbsent(s, s1, w, i);
    }
  }

  lemma TookShrinks(s: State, s1: State, w: Identity, i: nat)
    requires i < |s.Types(w)| && Took(s, s1, w, s.Types(w)[i])
    ensures Shrunk(s, s1, w)
  {
  }

  lemma TookAbsent(s: State, s1: State, w: Identity, i: nat)
    requires i < |s.Types(w)| && Took(s, s1, w, s.Types(w)[i]) && AbsentFrom(s, w, i)
    ensures AbsentFrom(Withdraw(s1, w, i + 1), w, 0)
  {
    var s2 := Withdraw(s1, w, i + 1);
    forall j | 0 <= j < |s.Types(w)|
      ensures w !in s2.Available(s.Types(w)[j])
    {
      WithdrawIs(s1, w, i + 1, s.Types(w)[j]);
      if j < i + 1 {
        assert s1.Types(w)[..i + 1][j] == s.Types(w)[j];
      }
    }
  }

  lemma RelistedFinishing(s: State, s1: State, s2: State, w: Identity, i: nat)
    requires i < |s.Types(w)| && Distinct(s.Types(w)) && w in s.workers
    requires Relisted(s, s1, w, s.Types(w)[i]) && s.Pending(s.Types(w)[i]) == []
    requires Finishing(s1, s2, w, i + 1)
    ensures Finishing(s, s2, w, i)
  {
    assert Shrunk(s, s1, w);
    ShrunkTwice(s, s1, s2, w);
    if s2.FreeCapacity(w) > 0 {
      forall j | i <= j < |s2.Types(w)|
        ensures s2.Pending(s2.Types(w)[j]) == []
      {
        if j == i {
          assert s1.Pending(s.Types(w)[i]) == [];
        }
      }
    }
  }

  lemma {:induction false} FinishPassOnce(env: Env, s: State, w: Identity, k: Key, i: nat, removed: bool)
    requires RequestsSent(env) && Inv(s, EndingUnless(removed, k)) && w in s.workers && Distinct(s.Types(w))
    requires s.FreeCapacity(w) == 1 || (s.FreeCapacity(w) > 0 && DryFrom(s, w, i))
    requires !FirstLost(env, s, w, i)
    requires forall j :: 0 <= j < |s.Types(w)| ==> s.Types(w)[j] in s.contexts
    ensures var p := FinishPass(env, s, w, k, i, removed, false);
            !p.more && Finishing(s, p.state, w, i)
    decreases |s.Types(w)| - i
  {
    hide Inv, Finishing, FinishVisit, HeadLost, SameHeads, Distinct;
    if i >= |s.Types(w)| {
      NothingFinishing(s, w, i);
    } else {
      var t := s.Types(w)[i];
      var erase := !removed && t == k.kind;
      var s1 := if erase then RemoveInProgress(s, k) else s;
      ErasedHeads(s, s1, w, k, erase, EndingUnless(removed, k), i);
      var x := EndingUnless(removed || erase, k);
      if s.Pending(t) == [] {
        EmptyFinishTurn(env, s1, w, i);
        var v := FinishVisit(env, s1, w, i, [], false);
        FinishVisitAgrees(env, s1, w, i, false, x);
        RelistedDry(s1, v.state, w, i);
        HeadsFirst(env, s, s1, w, i + 1);
        HeadsFirst(env, s1, v.state, w, i + 1);
        FinishPassOnce(env, v.state, w, k, i + 1, removed || erase);
        var p := FinishPass(env, v.state, w, k, i + 1, removed || erase, false);
        RelistedFinishing(s1, v.state, p.state, w, i);
        ErasedFinishing(s, s1, p.state, w, i);
      } else {
        assert s.FreeCapacity(w) == 1;
        HeadsLost(env, s, s1, t);
        TakingFinishTurn(env, s1, w, i, x);
        ErasedFinishing(s, s1, FinishVisit(env, s1, w, i, s.Pending(t), false).state, w, i);
      }
    }
  }

  /** The lists, and the records of what is in them, are the same, and nothing was sent. */
  ghost predicate SameHeads(s: State, s': State) {
    && s'.sends == s.sends && s'.workers == s.workers
    && (forall t :: s'.Pending(t) == s.Pending(t))
    && (forall t :: s.Pending(t) != [] ==>
          var k := Key(t, s.Pending(t)[0].id);
          (s'.Known(k) <==> s.Known(k)) && (s.Known(k) ==> s'.Request(k) == s.Request(k)))
  }

  lemma HeadsLost(env: Env, s: State, s': State, t: RequestType)
    requires SameHeads(s, s')
    ensures HeadLost(env, s', t) <==> HeadLost(env, s, t)
  {
  }

  lemma {:induction false} HeadsFirst(env: Env, s: State, s': State, w: Identity, i: nat)
    requires SameHeads(s, s')
    ensures FirstLost(env, s', w, i) <==> FirstLost(env, s, w, i)
    decreases |s.Types(w)| - i
  {
    assert s'.Types(w) == s.Types(w) && forall t :: s'.Pending(t) == s.Pending(t);
    hide SameHeads, HeadLost;
    if i < |s.Types(w)| {
      HeadsLost(env, s, s', s.Types(w)[i]);
      HeadsFirst(env, s, s', w, i + 1);
    }
  }

  /** Erasing the finished request, which is in no list, if it is erased here. */
  lemma ErasedHeads(s: State, s1: State, w: Identity, k: Key, erase: bool, x: Transit, i: nat)
    requires Inv(s, x) && (erase ==> x == Ending(k)) && s1 == if erase then RemoveInProgress(s, k) else s
    ensures SameHeads(s, s1) && SameLists(s, s1) && s1.contexts.Keys == s.contexts.Keys
    ensures Inv(s1, if erase then Settled else x)
    ensures DryFrom(s, w, i) ==> DryFrom(s1, w, i)
  {
    hide Inv, SameHeads, RemoveInProgress;
    if erase {
      EraseAgrees(s, k);
      SameErased(s, k);
      EndingNotHead(s, k);
      HeadsErased(s, k);
    } else {
      HeadsSame(s);
    }
    SameDryFrom(s, s1, w, i);
  }

  lemma SameDryFrom(s: State, s1: State, w: Identity, i: nat)
    requires SameLists(s, s1)
    ensures DryFrom(s, w, i) ==> DryFrom(s1, w, i)
  {
    assert s1.Types(w) == s.Types(w);
  }

  lemma EndingNotHead(s: State, k: Key)
    requires Inv(s, Ending(k))
    ensures forall t :: s.Pending(t) != [] ==> Key(t, s.Pending(t)[0].id) != k
  {
    hide Inv;
    forall t | s.Pending(t) != []
      ensures Key(t, s.Pending(t)[0].id) != k
    {
      QueuedIsKnown(s, t, Ending(k));
    }
  }

  lemma HeadsErased(s: State, k: Key)
    requires forall t :: s.Pending(t) != [] ==> Key(t, s.Pending(t)[0].id) != k
    ensures SameHeads(s, RemoveInProgress(s, k))
  {
    var s' := RemoveInProgress(s, k);
    SameErased(s, k);
    if k.kind in s.contexts {
      OneContext(s, s', k, s.contexts[k.kind].RemoveInProgressRequest(k.id));
    }
    assert s'.sends == s.sends && s'.workers == s.workers;
    hide RemoveInProgress;
    forall t | s.Pending(t) != []
      ensures var other := Key(t, s.Pending(t)[0].id);
              (s'.Known(other) <==> s.Known(other)) && (s.Known(other) ==> s'.Request(other) == s.Request(other))
    {
      assert t in s.contexts;
    }
  }

  lemma HeadsSame(s: State)
    ensures SameHeads(s, s)
  {
  }

  lemma NothingFinishing(s: State, w: Identity, i: nat)
    requires i >= |s.Types(w)| && s.FreeCapacity(w) > 0
    ensures Finishing(s, s, w, i)
  {
  }

  lemma SameErased(s: State, k: Key)
    ensures var s1 := RemoveInProgress(s, k);
            SameLists(s, s1) && s1.contexts.Keys == s.contexts.Keys
  {
  }

  lemma RelistedDry(s: State, s1: State, w: Identity, i: nat)
    requires i < |s.Types(w)| && Relisted(s, s1, w, s.Types(w)[i])
    ensures DryFrom(s, w, i) ==> DryFrom(s1, w, i + 1)
  {
  }

  lemma ErasedFinishing(s: State, s1: State, s2: State, w: Identity, i: nat)
    requires SameLists(s, s1) && Finishing(s1, s2, w, i)
    ensures Finishing(s, s2, w, i)
  {
  }

  /** Over-committed, or without capacity and still available. */
  ghost predicate Overdrawn(s: State, w: Identity, t: RequestType) {
    s.FreeCapacity(w) < 0 || (s.FreeCapacity(w) == 0 && w in s.Available(t))
  }

  lemma OverdrawnStays(s: State, s': State, w: Identity, t: RequestType)
    requires Overdrawn(s, w, t) && s'.FreeCapacity(w) <= s.FreeCapacity(w)
    requires s'.FreeCapacity(w) < 0 || s.Available(t) <= s'.Available(t)
    ensures Overdrawn(s', w, t)
  {
  }

  lemma VisitOverdrawn(env: Env, s: State, w: Identity, i: nat, next: seq<Node>, more: bool, t: RequestType)
    requires Overdrawn(s, w, t) && i < |s.Types(w)|
    ensures Overdrawn(FinishVisit(env, s, w, i, next, more).state, w, t)
  {
    var u := s.Types(w)[i];
    var s' := FinishVisit(env, s, w, i, next, more).state;
    if next == [] {
      OverdrawnStays(s, s', w, t);
    } else {
      var k := Key(u, next[0].id);
      var out := ForwardQueued(env, s, w, k);
      ForwardQueuedQuiet(env, s, w, k);
      hide ForwardQueued;
      assert forall v :: out.state.Available(v) == s.Available(v);
      OverdrawnStays(s, s', w, t);
    }
  }

  lemma {:induction false} PassOverdrawn(
    env: Env, s: State, w: Identity, k: Key, i: nat, removed: bool, more: bool, t: RequestType)
    requires Overdrawn(s, w, t)
    ensures Overdrawn(FinishPass(env, s, w, k, i, removed, more).state, w, t)
    decreases |s.Types(w)| - i
  {
    hide FinishVisit, Overdrawn;
    if i < |s.Types(w)| {
      var u := s.Types(w)[i];
      if u !in s.contexts {
        PassOverdrawn(env, s, w, k, i + 1, removed, more, t);
      } else {
        var erase := !removed && u == k.kind;
        var s1 := if erase then RemoveInProgress(s, k) else s;
        ErasedOverdrawn(s, k, w, t);
        VisitOverdrawn(env, s1, w, i, s.Pending(u), more, t);
        var v := FinishVisit(env, s1, w, i, s.Pending(u), more);
        if !v.stop {
          PassOverdrawn(env, v.state, w, k, i + 1, removed || erase, v.more, t);
        }
      }
    }
  }

  lemma ErasedOverdrawn(s: State, k: Key, w: Identity, t: RequestType)
    requires Overdrawn(s, w, t)
    ensures Overdrawn(RemoveInProgress(s, k), w, t)
  {
  }

  /** The last unit of capacity goes unnoticed. */
  lemma LostFinishTurn(env: Env, s: State, w: Identity, i: nat, x: Transit)
    requires RequestsSent(env) && Inv(s, x) && w in s.workers && i < |s.Types(w)| && s.FreeCapacity(w) == 1
    requires HeadLost(env, s, s.Types(w)[i])
    ensures var v := FinishVisit(env, s, w, i, s.Pending(s.Types(w)[i]), false);
            !v.stop && Overdrawn(v.state, w, s.Types(w)[i])
  {
    var t := s.Types(w)[i];
    var s1 := ForwardQueued(env, s, w, Key(t, s.Pending(t)[0].id)).state;
    QueuedIsKnown(s, t, x);
    HeadSent(env, s, w, t, x);
    hide Inv, ForwardQueued, HeadLost;
    assert t in s1.contexts;
    AddAvailableIs(s1, w, t);
  }

  lemma {:induction false} FinishPassLost(env: Env, s: State, w: Identity, k: Key, i: nat, removed: bool)
    returns (t: RequestType)
    requires RequestsSent(env) && Inv(s, EndingUnless(removed, k)) && w in s.workers
    requires s.FreeCapacity(w) == 1 && FirstLost(env, s, w, i)
    ensures Overdrawn(FinishPass(env, s, w, k, i, removed, false).state, w, t)
    decreases |s.Types(w)| - i
  {
    hide Inv, FinishVisit, HeadLost, SameHeads, Overdrawn;
    t := s.Types(w)[i];
    if t !in s.contexts {
      t := FinishPassLost(env, s, w, k, i + 1, removed);
    } else {
      var erase := !removed && t == k.kind;
      var s1 := if erase then RemoveInProgress(s, k) else s;
      ErasedHeads(s, s1, w, k, erase, EndingUnless(removed, k), i);
      var x := EndingUnless(removed || erase, k);
      if s.Pending(t) == [] {
        EmptyFinishTurn(env, s1, w, i);
        var v := FinishVisit(env, s1, w, i, [], false);
        FinishVisitAgrees(env, s1, w, i, false, x);
        HeadsFirst(env, s, s1, w, i + 1);
        HeadsFirst(env, s1, v.state, w, i + 1);
        t := FinishPassLost(env, v.state, w, k, i + 1, removed || erase);
      } else {
        HeadsLost(env, s, s1, t);
        LostFinishTurn(env, s1, w, i, x);
        var v := FinishVisit(env, s1, w, i, s.Pending(t), false);
        PassOverdrawn(env, v.state, w, k, i + 1, removed || erase, v.more, t);
      }
    }
  }

  /** The state after a worker's finish has been recorded, before its capacity is used again. */
  function Freed(s: State, w: Identity, k: Key): State
    requires w in s.workers
  {
    s.WithWorker(w, s.workers[w].RemoveInProgressRequest(k).(workerLastActive := s.now))
     .(log := s.log + FinishActions(s, w, k))
  }

  lemma FinishedIs(env: Env, s: State, w: Identity, k: Key)
    requires w in s.workers
    ensures var s1 := Freed(s, w, k);
            var pass := if s1.FreeCapacity(w) > 0 then FinishPass(env, s1, w, k, 0, false, false)
                        else Pass(s1, false, false);
            !pass.more || pass.state.FreeCapacity(w) <= 0 ==>
              HandleWorkerFinished(env, s, w, k) ==
                if pass.removed then pass.state else RemoveInProgress(pass.state, k)
  {
    hide FinishPass, FinishActions;
  }

  lemma FreedAgrees(s: State, w: Identity, k: Key)
    requires Inv(s, Settled) && w in s.workers && FinishSafe(s, w, k)
    ensures Inv(Freed(s, w, k), Ending(k)) && Distinct(s.Types(w))
  {
    ReleasedTables(s, Freed(s, w, k), w, k);
    ReleasedRefines(s, Freed(s, w, k), w, k);
    assert InfoAgrees(s.workers[w]);
  }

  /** Recording a finish changes one worker's capacity. */
  lemma FreedIs(s: State, w: Identity, k: Key)
    requires w in s.workers
    ensures var s1 := Freed(s, w, k);
            && s1.FreeCapacity(w) == s.FreeCapacity(w) + 1 && s1.Types(w) == s.Types(w)
            && s1.contexts == s.contexts && s1.sends == s.sends && s1.workers.Keys == s.workers.Keys
            && (forall v :: v in s.workers && v != w ==> s1.workers[v] == s.workers[v])
  {
  }

  lemma {:induction false} FreedFirst(env: Env, s: State, w: Identity, k: Key, i: nat)
    requires w in s.workers
    ensures FirstLost(env, Freed(s, w, k), w, i) <==> FirstLost(env, s, w, i)
    decreases |s.Types(w)| - i
  {
    FreedIs(s, w, k);
    if i < |s.Types(w)| {
      FreedFirst(env, s, w, k, i + 1);
    }
  }

  /** The worker's last unit of capacity goes to a request whose receipt is lost. */
  predicate FinishSpoils(env: Env, s: State, w: Identity) {
    w in s.workers && s.FreeCapacity(w) == 0 && FirstLost(env, s, w, 0)
  }

  /** Everyone but the worker is left as they were; the worker itself has used its capacity up, or
      its types have nothing pending. */
  lemma FinishedFinishing(env: Env, s: State, w: Identity, k: Key)
    requires RequestsSent(env) && Inv(s, Settled) && Shelved(s) && FinishSafe(s, w, k)
    requires w in s.workers && Served(s) && s.FreeCapacity(w) >= 0 && !FinishSpoils(env, s, w)
    ensures Finishing(Freed(s, w, k), HandleWorkerFinished(env, s, w, k), w, 0)
  {
    var s1 := Freed(s, w, k);
    FreedAgrees(s, w, k);
    FinishedIs(env, s, w, k);
    FreedFirst(env, s, w, k, 0);
    FreedTypes(s, w, k);
    hide Inv, Finishing, FinishPass, HandleWorkerFinished, Shelved, Served;
    if s.FreeCapacity(w) > 0 {
      DryFirst(env, s1, w, 0);
    }
    FinishPassOnce(env, s1, w, k, 0, false);
    var pass := FinishPass(env, s1, w, k, 0, false, false);
    SameErased(pass.state, k);
    FinishingErased(s1, pass.state, RemoveInProgress(pass.state, k), w, 0);
  }

  lemma FreedTypes(s: State, w: Identity, k: Key)
    requires Shelved(s) && Served(s) && w in s.workers
    ensures forall j :: 0 <= j < |s.Types(w)| ==> s.Types(w)[j] in s.contexts
    ensures s.FreeCapacity(w) > 0 ==> DryFrom(Freed(s, w, k), w, 0)
  {
    TypesKnown(s, w);
    hide Shelved, Freed;
    FreedIs(s, w, k);
    if s.FreeCapacity(w) > 0 {
      forall j | 0 <= j < |s.Types(w)|
        ensures s.Pending(s.Types(w)[j]) == []
      {
      }
    }
  }

  lemma TypesKnown(s: State, w: Identity)
    requires Shelved(s) && w in s.workers
    ensures forall j :: 0 <= j < |s.Types(w)| ==> s.Types(w)[j] in s.contexts
  {
    hide AllCounted;
    assert Offered(s, w, |s.Types(w)|);
  }

  lemma {:induction false} DryFirst(env: Env, s: State, w: Identity, i: nat)
    requires DryFrom(s, w, i)
    ensures !FirstLost(env, s, w, i)
    decreases |s.Types(w)| - i
  {
    if i < |s.Types(w)| {
      DryFirst(env, s, w, i + 1);
    }
  }

  lemma FinishingErased(s: State, s1: State, s2: State, w: Identity, i: nat)
    requires Finishing(s, s1, w, i) && SameLists(s1, s2)
    ensures Finishing(s, s2, w, i)
  {
  }

  /** A finish affects nobody else. */
  lemma FinishedShrinks(env: Env, s: State, w: Identity, k: Key)
    requires w in s.workers
    ensures Shrunk(Freed(s, w, k), HandleWorkerFinished(env, s, w, k), w)
  {
    hide Shrunk, FinishPass, Rounds, FinishActions;
    var s1 := Freed(s, w, k);
    ShrunkSame(s1, s1, w);
    FinishPassShrinks(env, s1, w, k, 0, false, false);
    var pass := if s1.FreeCapacity(w) > 0 then FinishPass(env, s1, w, k, 0, false, false)
                else Pass(s1, false, false);
    var s2 := if pass.removed then pass.state else RemoveInProgress(pass.state, k);
    SameErased(pass.state, k);
    ShrunkSame(pass.state, s2, w);
    ShrunkTwice(s1, pass.state, s2, w);
    RoundsShrink(env, s2, w, pass.more);
    ShrunkTwice(s1, s2, Rounds(env, s2, w, pass.more), w);
  }

  /** Where a worker stands whose last unit of capacity went unnoticed. */
  lemma FinishedOverdrawn(env: Env, s: State, w: Identity, k: Key) returns (t: RequestType)
    requires RequestsSent(env) && Inv(s, Settled) && FinishSafe(s, w, k) && FinishSpoils(env, s, w)
    ensures Overdrawn(HandleWorkerFinished(env, s, w, k), w, t)
  {
    var s1 := Freed(s, w, k);
    FreedAgrees(s, w, k);
    FinishedIs(env, s, w, k);
    FreedFirst(env, s, w, k, 0);
    FreedIs(s, w, k);
    hide Inv, FinishPass, HandleWorkerFinished, Freed, FirstLost, RemoveInProgress;
    t := FinishPassLost(env, s1, w, k, 0, false);
    var pass := FinishPass(env, s1, w, k, 0, false, false);
    ErasedOverdrawn(pass.state, k, w, t);
  }

  /** What holds of everybody but a worker that finished something, and what the worker decides. */
  lemma FinishedOthers(env: Env, s: State, w: Identity, k: Key)
    requires w in s.workers
    ensures var s' := HandleWorkerFinished(env, s, w, k);
            && (Served(s) ==> (Served(s') <==> (s'.FreeCapacity(w) > 0 ==> DryFrom(s', w, 0))))
            && (Spare(s) ==>
                  (Spare(s') <==> s'.FreeCapacity(w) >= 0
                                  && (s'.FreeCapacity(w) > 0 || forall t :: w !in s'.Available(t))))
            && w in s'.workers && s'.Types(w) == s.Types(w)
  {
    var s1 := Freed(s, w, k);
    var s' := HandleWorkerFinished(env, s, w, k);
    FreedIs(s, w, k);
    FinishedShrinks(env, s, w, k);
    hide HandleWorkerFinished, Freed, Served, Spare, ServedBut, SpareBut;
    FreedOthers(s, s1, w);
    ShrunkOthers(s1, s', w);
    assert w in s'.workers && s'.Types(w) == s.Types(w);
    hide Shrunk;
    if Served(s) {
      ServedAll(s', w, s'.Types(w));
    }
    if Spare(s) {
      SpareAll(s', w);
    }
  }

  /** A finish leaves no worker with free capacity beside a pending request it supports. */
  lemma FinishedServed(env: Env, s: State, w: Identity, k: Key)
    requires RequestsSent(env) && Inv(s, Settled) && Shelved(s) && FinishSafe(s, w, k) && Served(s)
    ensures Served(HandleWorkerFinished(env, s, w, k))
  {
    if w in s.workers {
      hide Inv, Shelved, HandleWorkerFinished, Served, FinishSpoils, DryFrom;
      FinishedOthers(env, s, w, k);
      if s.FreeCapacity(w) < 0 {
        StillOver(env, s, w, k);
      } else if FinishSpoils(env, s, w) {
        var t := FinishedOverdrawn(env, s, w, k);
      } else {
        FinishedFinishing(env, s, w, k);
      }
    }
  }

  lemma StillOver(env: Env, s: State, w: Identity, k: Key)
    requires w in s.workers && s.FreeCapacity(w) < 0
    ensures HandleWorkerFinished(env, s, w, k).FreeCapacity(w) <= 0
  {
    FinishedIs(env, s, w, k);
    FreedIs(s, w, k);
    SameErased(Freed(s, w, k), k);
    hide HandleWorkerFinished, RemoveInProgress, FinishPass, Freed;
  }

  /** Freeing one worker's capacity changes nothing for the others. */
  lemma FreedOthers(s: State, s1: State, w: Identity)
    requires w in s.workers && s1.workers.Keys == s.workers.Keys && s1.contexts == s.contexts
    requires forall v :: v in s.workers && v != w ==> s1.workers[v] == s.workers[v]
    ensures Served(s) ==> ServedBut(s1, Some(w))
    ensures Spare(s) ==> SpareBut(s1, Some(w))
    ensures forall t :: s1.Available(t) == s.Available(t)
  {
    forall v | v != w
      ensures s1.Types(v) == s.Types(v) && s1.FreeCapacity(v) == s.FreeCapacity(v)
    {
    }
    forall t
      ensures s1.Pending(t) == s.Pending(t) && s1.Available(t) == s.Available(t)
    {
    }
  }

  /** After a finish removal from the sets up to the current type is enough, exactly if the worker's
      last unit of capacity does not go to a request whose receipt is lost. */
  lemma FinishedSpareIff(env: Env, s: State, w: Identity, k: Key)
    requires RequestsSent(env) && Inv(s, Settled) && Shelved(s) && FinishSafe(s, w, k) && Served(s) && Spare(s)
    ensures Spare(HandleWorkerFinished(env, s, w, k)) <==> !FinishSpoils(env, s, w)
  {
    if w in s.workers {
      hide Inv, Shelved, HandleWorkerFinished, FinishSpoils, Served, Spare;
      FinishedOthers(env, s, w, k);
      if FinishSpoils(env, s, w) {
        var t := FinishedOverdrawn(env, s, w, k);
      } else {
        NotOver(s, w);
        FinishedFinishing(env, s, w, k);
        FinishedAgrees(env, s, w, k);
        AvailableKnown(HandleWorkerFinished(env, s, w, k), Settled);
        FinishingSpare(s, Freed(s, w, k), HandleWorkerFinished(env, s, w, k), w);
      }
    }
  }

  lemma NotOver(s: State, w: Identity)
    requires Spare(s) && w in s.workers
    ensures s.FreeCapacity(w) >= 0
  {
  }

  lemma FinishingSpare(s: State, s1: State, s2: State, w: Identity)
    requires Spare(s) && w in s.workers && Finishing(s1, s2, w, 0) && AvailableAgrees(s2)
    requires s1.contexts == s.contexts && s1.Types(w) == s.Types(w)
    requires s1.FreeCapacity(w) == s.FreeCapacity(w) + 1
    ensures s2.FreeCapacity(w) >= 0 && (s2.FreeCapacity(w) > 0 || forall t :: w !in s2.Available(t))
  {
    hide Shrunk;
    NotOver(s, w);
    if s2.FreeCapacity(w) <= 0 {
      assert s.FreeCapacity(w) == 0;
      assert AbsentFrom(s1, w, 0) by {
        forall j | 0 <= j < |s1.Types(w)|
          ensures w !in s1.Available(s1.Types(w)[j])
        {
          assert s1.Available(s1.Types(w)[j]) == s.Available(s1.Types(w)[j]);
        }
      }
      AbsentEverywhere(s2, w);
    }
  }

  lemma AbsentEverywhere(s: State, w: Identity)
    requires AbsentFrom(s, w, 0) && AvailableAgrees(s)
    ensures forall t :: w !in s.Available(t)
  {
    forall t
      ensures w !in s.Available(t)
    {
      if t in s.Types(w) {
        var j :| 0 <= j < |s.Types(w)| && s.Types(w)[j] == t;
        assert w !in s.Available(s.Types(w)[j]);
      }
    }
  }

  // ----- the last unit of capacity -----

  /** At this turn the last unit of a worker's capacity goes and the worker stays offered: the receipt is
      lost, or there is a later type it has been offered for all along. */
  predicate LastSlips(env: Env, s: State, w: Identity, i: nat, offered: bool)
    requires i < |s.Types(w)|
  {
    && s.FreeCapacity(w) == 1 && s.Pending(s.Types(w)[i]) != []
    && (HeadLost(env, s, s.Types(w)[i]) || (offered && i + 1 < |s.Types(w)|))
  }

  /** At a turn of the first pass after a finish, from the i-th type on. */
  predicate PassSlips(
    env: Env, s: State, w: Identity, k: Key, i: nat, removed: bool, more: bool, offered: bool)
    decreases |s.Types(w)| - i
  {
    && i < |s.Types(w)|
    && var t := s.Types(w)[i];
       if t !in s.contexts then PassSlips(env, s, w, k, i + 1, removed, more, offered)
       else
         var erase := !removed && t == k.kind;
         var v := FinishVisit(env, if erase then RemoveInProgress(s, k) else s, w, i, s.Pending(t), more);
         || LastSlips(env, s, w, i, offered)
         || (!v.stop && PassSlips(env, v.state, w, k, i + 1, removed || erase, v.more, offered))
  }

  /** At a turn of a later round, when the worker has been offered for every type. */
  predicate SweepSlips(env: Env, s: State, w: Identity, i: nat, more: bool)
    decreases |s.Types(w)| - i
  {
    && i < |s.Types(w)|
    && var v := SweepVisit(env, s, w, i, more);
       LastSlips(env, s, w, i, true) || (!v.stop && SweepSlips(env, v.state, w, i + 1, v.more))
  }

  predicate RoundsSlip(env: Env, s: State, w: Identity, more: bool)
    decreases if more then 1 else 0, s.FreeCapacity(w)
  {
    && s.FreeCapacity(w) > 0 && more
    && var round := Sweep(env, s, w, 0, false);
       SweepSlips(env, s, w, 0, false) || (round.1 && RoundsSlip(env, round.0, w, true))
  }

  /** At some turn after a finish; a worker that had capacity left was offered for all its types. */
  predicate FinishSlips(env: Env, s: State, w: Identity, k: Key) {
    && w in s.workers
    && var s1 := Freed(s, w, k);
       var pass := FinishPass(env, s1, w, k, 0, false, false);
       || PassSlips(env, s1, w, k, 0, false, false, s.FreeCapacity(w) > 0)
       || RoundsSlip(env, if pass.removed then pass.state else RemoveInProgress(pass.state, k), w, pass.more)
  }

  /** A worker is offered for its first `i` types, and for the others just if it has been all along. */
  ghost predicate ShownUpTo(s: State, w: Identity, i: nat, offered: bool) {
    forall j :: 0 <= j < |s.Types(w)| ==> (w in s.Available(s.Types(w)[j]) <==> j < i || offered)
  }

  /** With capacity left a worker is offered for all its types; without, its last unit slipped exactly if
      it is over-committed or still offered. */
  ghost predicate Gauged(s: State, w: Identity, slipped: bool) {
    if s.FreeCapacity(w) > 0 then !slipped && ShownUpTo(s, w, |s.Types(w)|, true)
    else slipped <==> !(s.FreeCapacity(w) == 0 && AbsentFrom(s, w, 0))
  }

  lemma OverdrawnGauged(s: State, w: Identity, j: nat)
    requires j < |s.Types(w)| && Overdrawn(s, w, s.Types(w)[j])
    ensures Gauged(s, w, true)
  {
  }

  lemma AllShown(s: State, w: Identity, i: nat, offered: bool)
    requires ShownUpTo(s, w, i, offered) && i >= |s.Types(w)| && s.FreeCapacity(w) > 0
    ensures Gauged(s, w, false)
  {
  }

  lemma ShownSame(s: State, s1: State, w: Identity, i: nat, offered: bool)
    requires ShownUpTo(s, w, i, offered) && s1.Types(w) == s.Types(w)
    requires forall t :: s1.Available(t) == s.Available(t)
    ensures ShownUpTo(s1, w, i, offered)
  {
  }

  lemma ShownOneMore(s: State, s1: State, s2: State, w: Identity, i: nat, offered: bool)
    requires ShownUpTo(s, w, i, offered) && i < |s.Types(w)| && Distinct(s.Types(w)) && w in s1.workers
    requires s1.Types(w) == s.Types(w) && forall t :: s1.Available(t) == s.Available(t)
    requires Relisted(s1, s2, w, s.Types(w)[i])
    ensures ShownUpTo(s2, w, i + 1, offered)
  {
    assert s2.Types(w) == s.Types(w);
  }

  /** The worker is taken out of the sets up to the turn at which its capacity ran out. */
  lemma WithdrawnGauged(s: State, s1: State, w: Identity, i: nat, offered: bool)
    requires ShownUpTo(s, w, i, offered) && i < |s.Types(w)| && Distinct(s.Types(w))
    requires s1.Types(w) == s.Types(w) && s1.FreeCapacity(w) == 0
    requires forall t :: s1.Available(t) == s.Available(t)
    ensures Gauged(Withdraw(s1, w, i + 1), w, offered && i + 1 < |s.Types(w)|)
  {
    var s2 := Withdraw(s1, w, i + 1);
    var types := s.Types(w);
    forall j | 0 <= j < |types|
      ensures w in s2.Available(types[j]) <==> offered && j > i
    {
      WithdrawIs(s1, w, i + 1, types[j]);
      if j <= i {
        assert types[..i + 1][j] == types[j];
      } else {
        NotAmong(types, i + 1, j);
      }
    }
    assert s2.Types(w) == types && s2.FreeCapacity(w) == 0;
    if offered && i + 1 < |types| {
      assert w in s2.Available(types[i + 1]);
    }
  }

  lemma NotAmong(types: seq<RequestType>, n: nat, j: nat)
    requires Distinct(types) && n <= j < |types|
    ensures types[j] !in types[..n]
  {
  }

  /** A turn after a finish that hands a request over. */
  lemma HandingTurn(env: Env, s: State, w: Identity, i: nat, more: bool, x: Transit)
    requires RequestsSent(env) && Inv(s, x) && w in s.workers && i < |s.Types(w)|
    requires s.Types(w)[i] in s.contexts && s.Pending(s.Types(w)[i]) != []
    ensures var t := s.Types(w)[i];
            var s1 := ForwardQueued(env, s, w, Key(t, s.Pending(t)[0].id)).state;
            var v := FinishVisit(env, s, w, i, s.Pending(t), more);
            && Took(s, s1, w, t) && v.state.contexts.Keys == s.contexts.Keys
            && if !HeadLost(env, s, t) && s1.FreeCapacity(w) <= 0 then v.stop && v.state == Withdraw(s1, w, i + 1)
               else !v.stop && Relisted(s1, v.state, w, t)
  {
    hide Inv, HeadLost, Took, Relisted;
    var t := s.Types(w)[i];
    var out := ForwardQueued(env, s, w, Key(t, s.Pending(t)[0].id));
    HeadSent(env, s, w, t, x);
    TookKeys(s, out.state, w, t);
    hide ForwardQueued, AddAvailable;
    OfferedAgain(out.state, w, t);
  }

  lemma TookKeys(s: State, s1: State, w: Identity, t: RequestType)
    requires Took(s, s1, w, t)
    ensures s1.contexts.Keys == s.contexts.Keys
  {
  }

  lemma OfferedAgain(s: State, w: Identity, t: RequestType)
    requires t in s.contexts
    ensures Relisted(s, AddAvailable(s, t, w), w, t) && AddAvailable(s, t, w).contexts.Keys == s.contexts.Keys
  {
    AddAvailableIs(s, w, t);
  }

  lemma IdleTurn(env: Env, s: State, w: Identity, i: nat, more: bool)
    requires i < |s.Types(w)| && s.Types(w)[i] in s.contexts && s.Pending(s.Types(w)[i]) == []
    ensures var v := FinishVisit(env, s, w, i, [], more);
            !v.stop && Relisted(s, v.state, w, s.Types(w)[i]) && v.state.contexts.Keys == s.contexts.Keys
  {
    AddAvailableIs(s, w, s.Types(w)[i]);
  }

  /** What a turn that hands a request over leaves: capacity, a stop, or a slip for good. */
  lemma HandedGauged(env: Env, s: State, w: Identity, i: nat, more: bool, offered: bool, x: Transit)
    requires RequestsSent(env) && Inv(s, x) && w in s.workers && i < |s.Types(w)| && Distinct(s.Types(w))
    requires s.Types(w)[i] in s.contexts && s.Pending(s.Types(w)[i]) != []
    requires s.FreeCapacity(w) > 0 && ShownUpTo(s, w, i, offered)
    ensures var v := FinishVisit(env, s, w, i, s.Pending(s.Types(w)[i]), more);
            && v.state.contexts.Keys == s.contexts.Keys && (v.stop ==> v.state.FreeCapacity(w) <= 0)
            && (v.state.FreeCapacity(w) > 0 ==> ShownUpTo(v.state, w, i + 1, offered))
            && (v.state.FreeCapacity(w) > 0 <==> s.FreeCapacity(w) > 1)
            && (v.stop ==> Gauged(v.state, w, LastSlips(env, s, w, i, offered)))
            && (!v.stop && v.state.FreeCapacity(w) <= 0 ==>
                  LastSlips(env, s, w, i, offered) && Overdrawn(v.state, w, s.Types(w)[i]))
  {
    hide Inv, HeadLost, FinishVisit, Gauged, ShownUpTo, Distinct;
    HandingTurn(env, s, w, i, more, x);
    hide ForwardQueued;
    var t := s.Types(w)[i];
    var s1 := ForwardQueued(env, s, w, Key(t, s.Pending(t)[0].id)).state;
    var v := FinishVisit(env, s, w, i, s.Pending(t), more);
    if v.stop {
      WithdrawnGauged(s, s1, w, i, offered);
    } else {
      ShownOneMore(s, s1, v.state, w, i, offered);
    }
  }

  lemma {:induction false} PassGauged(
    env: Env, s: State, w: Identity, k: Key, i: nat, removed: bool, more: bool, offered: bool)
    requires RequestsSent(env) && Inv(s, EndingUnless(removed, k)) && w in s.workers && Distinct(s.Types(w))
    requires forall j :: 0 <= j < |s.Types(w)| ==> s.Types(w)[j] in s.contexts
    requires s.FreeCapacity(w) > 0 && ShownUpTo(s, w, i, offered)
    ensures Gauged(FinishPass(env, s, w, k, i, removed, more).state, w,
                   PassSlips(env, s, w, k, i, removed, more, offered))
    decreases |s.Types(w)| - i
  {
    hide Inv, FinishVisit, HeadLost, SameHeads, Gauged, ShownUpTo, Distinct, Overdrawn, RemoveInProgress;
    if i >= |s.Types(w)| {
      AllShown(s, w, i, offered);
    } else {
      var t := s.Types(w)[i];
      var erase := !removed && t == k.kind;
      var s1 := if erase then RemoveInProgress(s, k) else s;
      var x := EndingUnless(removed || erase, k);
      PassTurn(env, s, w, k, i, removed, more, offered);
      hide FinishPass, PassSlips;
      ErasedHeads(s, s1, w, k, erase, EndingUnless(removed, k), i);
      ShownSame(s, s1, w, i, offered);
      var v := FinishVisit(env, s1, w, i, s.Pending(t), more);
      FinishVisitAgrees(env, s1, w, i, more, x);
      if s.Pending(t) == [] {
        IdleTurn(env, s1, w, i, more);
        ShownOneMore(s1, s1, v.state, w, i, offered);
        PassGauged(env, v.state, w, k, i + 1, removed || erase, v.more, offered);
      } else {
        SlipsSame(env, s, s1, w, i, offered);
        HandedGauged(env, s1, w, i, more, offered, x);
        hide LastSlips;
        if v.stop {
        } else if v.state.FreeCapacity(w) > 0 {
          NoSlipYet(env, s, w, i, offered);
          PassGauged(env, v.state, w, k, i + 1, removed || erase, v.more, offered);
        } else {
          PassOverdrawn(env, v.state, w, k, i + 1, removed || erase, v.more, t);
          OverdrawnGauged(FinishPass(env, s, w, k, i, removed, more).state, w, i);
        }
      }
    }
  }

  lemma PassTurn(env: Env, s: State, w: Identity, k: Key, i: nat, removed: bool, more: bool, offered: bool)
    requires i < |s.Types(w)| && s.Types(w)[i] in s.contexts
    ensures var t := s.Types(w)[i];
            var erase := !removed && t == k.kind;
            var v := FinishVisit(env, if erase then RemoveInProgress(s, k) else s, w, i, s.Pending(t), more);
            && FinishPass(env, s, w, k, i, removed, more).state
                 == (if v.stop then v.state else FinishPass(env, v.state, w, k, i + 1, removed || erase, v.more).state)
            && (PassSlips(env, s, w, k, i, removed, more, offered) <==>
                  LastSlips(env, s, w, i, offered)
                  || (!v.stop && PassSlips(env, v.state, w, k, i + 1, removed || erase, v.more, offered)))
  {
    hide FinishVisit, LastSlips, RemoveInProgress;
  }

  lemma SlipsSame(env: Env, s: State, s1: State, w: Identity, i: nat, offered: bool)
    requires SameHeads(s, s1) && i < |s.Types(w)|
    ensures s1.Types(w) == s.Types(w) && s1.FreeCapacity(w) == s.FreeCapacity(w)
    ensures LastSlips(env, s1, w, i, offered) <==> LastSlips(env, s, w, i, offered)
  {
    HeadsLost(env, s, s1, s.Types(w)[i]);
    hide HeadLost;
  }

  lemma NoSlipYet(env: Env, s: State, w: Identity, i: nat, offered: bool)
    requires i < |s.Types(w)| && s.FreeCapacity(w) > 1
    ensures !LastSlips(env, s, w, i, offered)
  {
  }

  lemma {:induction false} SweepOverdrawn(env: Env, s: State, w: Identity, i: nat, more: bool, t: RequestType)
    requires Overdrawn(s, w, t)
    ensures Overdrawn(Sweep(env, s, w, i, more).0, w, t)
    decreases |s.Types(w)| - i
  {
    hide SweepVisit, Overdrawn;
    if i < |s.Types(w)| {
      SweepVisitOverdrawn(env, s, w, i, more, t);
      var v := SweepVisit(env, s, w, i, more);
      if !v.stop {
        SweepOverdrawn(env, v.state, w, i + 1, v.more, t);
      }
    }
  }

  lemma SweepVisitOverdrawn(env: Env, s: State, w: Identity, i: nat, more: bool, t: RequestType)
    requires Overdrawn(s, w, t) && i < |s.Types(w)|
    ensures Overdrawn(SweepVisit(env, s, w, i, more).state, w, t)
  {
    var u := s.Types(w)[i];
    if s.Pending(u) != [] {
      var k := Key(u, s.Pending(u)[0].id);
      ForwardQueuedQuiet(env, s, w, k);
      hide ForwardQueued;
      assert forall v :: ForwardQueued(env, s, w, k).state.Available(v) == s.Available(v);
      OverdrawnStays(s, SweepVisit(env, s, w, i, more).state, w, t);
    }
  }

  /** A turn of a later round that hands a request over. */
  lemma SweptGauged(env: Env, s: State, w: Identity, i: nat, more: bool)
    requires RequestsSent(env) && Inv(s, Settled) && w in s.workers && i < |s.Types(w)| && Distinct(s.Types(w))
    requires s.Pending(s.Types(w)[i]) != [] && s.FreeCapacity(w) > 0 && ShownUpTo(s, w, |s.Types(w)|, true)
    ensures var v := SweepVisit(env, s, w, i, more);
            && (v.stop ==> v.state.FreeCapacity(w) <= 0)
            && (v.state.FreeCapacity(w) > 0 ==> ShownUpTo(v.state, w, |s.Types(w)|, true))
            && (v.state.FreeCapacity(w) > 0 <==> s.FreeCapacity(w) > 1)
            && (v.stop ==> Gauged(v.state, w, LastSlips(env, s, w, i, true)))
            && (!v.stop && v.state.FreeCapacity(w) <= 0 ==>
                  LastSlips(env, s, w, i, true) && Overdrawn(v.state, w, s.Types(w)[i]))
  {
    hide Inv, HeadLost, SweepVisit, ForwardQueued, Gauged, ShownUpTo, Distinct, Overdrawn;
    SweepVisitIs(env, s, w, i, more);
    var t := s.Types(w)[i];
    var s1 := ForwardQueued(env, s, w, Key(t, s.Pending(t)[0].id)).state;
    var v := SweepVisit(env, s, w, i, more);
    if v.stop {
      ShownAll(s, w, i);
      WithdrawnGauged(s, s1, w, i, true);
    } else {
      ShownSame(s, s1, w, |s.Types(w)|, true);
      ShownHere(s1, w, i);
    }
  }

  lemma ShownAll(s: State, w: Identity, i: nat)
    requires ShownUpTo(s, w, |s.Types(w)|, true)
    ensures ShownUpTo(s, w, i, true)
  {
  }

  lemma ShownHere(s: State, w: Identity, i: nat)
    requires ShownUpTo(s, w, |s.Types(w)|, true) && i < |s.Types(w)|
    ensures s.FreeCapacity(w) <= 0 ==> Overdrawn(s, w, s.Types(w)[i])
  {
  }

  lemma {:induction false} SweepGauged(env: Env, s: State, w: Identity, i: nat, more: bool)
    requires RequestsSent(env) && Inv(s, Settled) && w in s.workers && Distinct(s.Types(w))
    requires s.FreeCapacity(w) > 0 && ShownUpTo(s, w, |s.Types(w)|, true)
    ensures Gauged(Sweep(env, s, w, i, more).0, w, SweepSlips(env, s, w, i, more))
    decreases |s.Types(w)| - i
  {
    hide Inv, HeadLost, SweepVisit, Gauged, ShownUpTo, Distinct, Overdrawn;
    if i >= |s.Types(w)| {
      AllShown(s, w, |s.Types(w)|, true);
    } else {
      var v := SweepVisit(env, s, w, i, more);
      if s.Pending(s.Types(w)[i]) == [] {
        SweepSkips(env, s, w, i, more);
        SweepGauged(env, s, w, i + 1, more);
      } else {
        SweptGauged(env, s, w, i, more);
        SweepVisitAgrees(env, s, w, i, more);
        hide LastSlips;
        if v.stop {
        } else if v.state.FreeCapacity(w) > 0 {
          NoSlipYet(env, s, w, i, true);
          SweepGauged(env, v.state, w, i + 1, v.more);
        } else {
          SweepOverdrawn(env, v.state, w, i + 1, v.more, s.Types(w)[i]);
          OverdrawnGauged(Sweep(env, s, w, i, more).0, w, i);
        }
      }
    }
  }

  lemma {:induction false} RoundsGauged(env: Env, s: State, w: Identity, more: bool)
    requires RequestsSent(env) && Inv(s, Settled) && w in s.workers && Distinct(s.Types(w))
    requires s.FreeCapacity(w) > 0 && ShownUpTo(s, w, |s.Types(w)|, true)
    ensures Gauged(Rounds(env, s, w, more), w, RoundsSlip(env, s, w, more))
    decreases if more then 1 else 0, s.FreeCapacity(w)
  {
    hide Inv, Sweep, SweepSlips, ShownUpTo, Gauged, Distinct;
    AllShown(s, w, |s.Types(w)|, true);
    if more {
      var round := Sweep(env, s, w, 0, false);
      SweepGauged(env, s, w, 0, false);
      SweepAgrees(env, s, w, 0, false);
      if round.0.FreeCapacity(w) > 0 {
        GaugedShown(round.0, w, SweepSlips(env, s, w, 0, false));
        if round.1 {
          RoundsGauged(env, round.0, w, true);
        }
      }
    }
  }

  lemma GaugedShown(s: State, w: Identity, slipped: bool)
    requires Gauged(s, w, slipped) && s.FreeCapacity(w) > 0
    ensures ShownUpTo(s, w, |s.Types(w)|, true) && !slipped
  {
  }

  lemma ShownFirst(s: State, w: Identity)
    requires Shelved(s) && Spare(s) && w in s.workers
    ensures ShownUpTo(s, w, 0, s.FreeCapacity(w) > 0)
    ensures forall j :: 0 <= j < |s.Types(w)| ==> s.Types(w)[j] in s.contexts
  {
    hide AllCounted;
    assert Offered(s, w, |s.Types(w)|);
  }

  lemma GaugedSame(s: State, s1: State, w: Identity, slipped: bool)
    requires Gauged(s, w, slipped) && SameLists(s, s1)
    ensures Gauged(s1, w, slipped)
  {
    assert s1.Types(w) == s.Types(w) && s1.FreeCapacity(w) == s.FreeCapacity(w);
  }

  lemma GaugedSpare(s: State, w: Identity, slipped: bool)
    requires Gauged(s, w, slipped) && AvailableAgrees(s)
    ensures s.FreeCapacity(w) >= 0 && (s.FreeCapacity(w) > 0 || forall t :: w !in s.Available(t)) <==> !slipped
  {
    if s.FreeCapacity(w) == 0 && AbsentFrom(s, w, 0) {
      AbsentEverywhere(s, w);
    }
  }

  lemma FreedShown(s: State, w: Identity, k: Key, offered: bool)
    requires w in s.workers && ShownUpTo(s, w, 0, offered)
    requires forall j :: 0 <= j < |s.Types(w)| ==> s.Types(w)[j] in s.contexts
    ensures var s1 := Freed(s, w, k);
            && ShownUpTo(s1, w, 0, offered) && s1.FreeCapacity(w) == s.FreeCapacity(w) + 1
            && w in s1.workers && s1.Types(w) == s.Types(w)
            && forall j :: 0 <= j < |s1.Types(w)| ==> s1.Types(w)[j] in s1.contexts
  {
    FreedIs(s, w, k);
    hide Freed;
    assert forall t :: Freed(s, w, k).Available(t) == s.Available(t);
  }

  lemma FinishedRounds(env: Env, s: State, w: Identity, k: Key)
    requires w in s.workers && s.FreeCapacity(w) >= 0
    ensures var pass := FinishPass(env, Freed(s, w, k), w, k, 0, false, false);
            HandleWorkerFinished(env, s, w, k) ==
              Rounds(env, if pass.removed then pass.state else RemoveInProgress(pass.state, k), w, pass.more)
  {
    hide FinishPass, Rounds, FinishActions, RemoveInProgress;
  }

  /** The finish of a worker that was offered just if it had capacity. */
  lemma FinishedGauged(env: Env, s: State, w: Identity, k: Key)
    requires RequestsSent(env) && Inv(s, Settled) && FinishSafe(s, w, k)
    requires w in s.workers && s.FreeCapacity(w) >= 0 && ShownUpTo(s, w, 0, s.FreeCapacity(w) > 0)
    requires forall j :: 0 <= j < |s.Types(w)| ==> s.Types(w)[j] in s.contexts
    ensures Gauged(HandleWorkerFinished(env, s, w, k), w, FinishSlips(env, s, w, k))
  {
    hide Inv, Gauged, ShownUpTo, Distinct, FinishPass, PassSlips, Rounds, RoundsSlip, HandleWorkerFinished, Freed;
    hide SameLists, FinishSafe, RemoveInProgress;
    var s1 := Freed(s, w, k);
    var offered := s.FreeCapacity(w) > 0;
    FreedAgrees(s, w, k);
    FreedShown(s, w, k, offered);
    PassGauged(env, s1, w, k, 0, false, false, offered);
    FinishPassAgrees(env, s1, w, k, 0, false, false);
    FinishedRounds(env, s, w, k);
    var pass := FinishPass(env, s1, w, k, 0, false, false);
    var s2 := if pass.removed then pass.state else RemoveInProgress(pass.state, k);
    ErasedAtLast(pass, s2, w, k);
    RestGauged(env, pass.state, s2, w, pass.more, PassSlips(env, s1, w, k, 0, false, false, offered));
  }

  lemma ErasedAtLast(pass: Pass, s2: State, w: Identity, k: Key)
    requires Inv(pass.state, EndingUnless(pass.removed, k))
    requires s2 == if pass.removed then pass.state else RemoveInProgress(pass.state, k)
    ensures Inv(s2, Settled) && SameLists(pass.state, s2)
    ensures s2.workers.Keys == pass.state.workers.Keys && s2.Types(w) == pass.state.Types(w)
  {
    hide Inv, RemoveInProgress;
    SameErased(pass.state, k);
    if !pass.removed {
      EraseAgrees(pass.state, k);
    }
  }

  /** The rounds after the first pass, with the finished request erased. */
  lemma RestGauged(env: Env, s: State, s2: State, w: Identity, more: bool, slipped: bool)
    requires RequestsSent(env) && Inv(s2, Settled) && w in s2.workers && Distinct(s2.Types(w))
    requires Gauged(s, w, slipped) && SameLists(s, s2)
    ensures Gauged(Rounds(env, s2, w, more), w, slipped || RoundsSlip(env, s2, w, more))
  {
    GaugedSame(s, s2, w, slipped);
    hide Inv, Gauged, ShownUpTo, Distinct, Sweep, SweepSlips, SameLists;
    if s2.FreeCapacity(w) > 0 {
      GaugedShown(s2, w, slipped);
      RoundsGauged(env, s2, w, more);
    }
  }

  /** After a finish, whatever is pending, removal from the sets up to the current type is enough exactly
      if no last unit of the worker's capacity slips. */
  lemma FinishSlipsIff(env: Env, s: State, w: Identity, k: Key)
    requires RequestsSent(env) && Inv(s, Settled) && Shelved(s) && FinishSafe(s, w, k) && Spare(s)
    ensures Spare(HandleWorkerFinished(env, s, w, k)) <==> !FinishSlips(env, s, w, k)
  {
    if w in s.workers {
      hide Inv, Shelved, HandleWorkerFinished, FinishSlips, Spare, ShownUpTo, Gauged;
      FinishedOthers(env, s, w, k);
      NotOver(s, w);
      ShownFirst(s, w);
      FinishedGauged(env, s, w, k);
      FinishedAgrees(env, s, w, k);
      AvailableKnown(HandleWorkerFinished(env, s, w, k), Settled);
      GaugedSpare(HandleWorkerFinished(env, s, w, k), w, FinishSlips(env, s, w, k));
    }
  }

  // ----- a request handed over directly -----

  /** One worker's capacity went down by one; lists, sets and everybody else stayed as they were. */
  ghost predicate Loaded(s: State, s': State, w: Identity) {
    && s'.workers.Keys == s.workers.Keys
    && (forall t :: s'.Pending(t) == s.Pending(t) && s'.Available(t) == s.Available(t))
    && (forall v :: s'.Types(v) == s.Types(v))
    && (forall v :: s'.FreeCapacity(v) == if v == w then s.FreeCapacity(v) - 1 else s.FreeCapacity(v))
  }

  lemma DirectLoads(
    env: Env, s: State, w: Identity, k: Key, vfs: VersionFlags, msg: Message, action: Action)
    requires RequestsSent(env) && w in s.workers && k.kind in s.contexts
    requires vfs.Has(ReceiptOnSend) ==> env.receipt(s.sends + 1)
    ensures var out := ForwardDirect(env, s, w, k, vfs, msg, action);
            out.ok && Loaded(s, out.state, w)
  {
    ForwardDirectIs(env, s, w, k, vfs, msg, action);
    hide ForwardDirect;
  }

  lemma LoadedServed(s: State, s': State, w: Identity, but: Option<Identity>)
    requires Loaded(s, s', w) && ServedBut(s, but)
    ensures ServedBut(WithdrawIfExhausted(s', w), but)
  {
    forall t
      ensures WithdrawIfExhausted(s', w).Pending(t) == s.Pending(t)
    {
      WithdrawIs(s', w, |s'.Types(w)|, t);
    }
    assert WithdrawIfExhausted(s', w).workers == s'.workers;
    hide WithdrawIfExhausted;
    var s2 := WithdrawIfExhausted(s', w);
    forall v
      ensures s2.Types(v) == s.Types(v) && s2.FreeCapacity(v) <= s.FreeCapacity(v)
    {
    }
  }

  lemma LoadedSpare(s: State, s': State, w: Identity, but: Option<Identity>)
    requires Loaded(s, s', w) && SpareBut(s, but) && s.FreeCapacity(w) > 0 && AvailableAgrees(s)
    ensures SpareBut(WithdrawIfExhausted(s', w), but)
  {
    var s2 := WithdrawIfExhausted(s', w);
    assert s2.workers == s'.workers;
    forall v, t | v in s2.Available(t)
      ensures v in s.Available(t) && (v == w ==> s'.FreeCapacity(w) > 0)
    {
      WithdrawIs(s', w, |s'.Types(w)|, t);
      assert s'.Types(w)[..|s'.Types(w)|] == s'.Types(w);
    }
    hide WithdrawIfExhausted;
  }

  // ----- a client request -----

  /** A request joined the list of a type for which nobody was offered. */
  ghost predicate Joined(s: State, s': State, t: RequestType) {
    && s'.workers == s.workers && s.Available(t) == {}
    && (forall u :: u != t ==> s'.Pending(u) == s.Pending(u))
    && (forall u :: s'.Available(u) == s.Available(u))
  }

  lemma JoinedServed(s: State, s': State, t: RequestType)
    requires Joined(s, s', t) && Served(s) && AllOffered(s)
    ensures Served(s')
  {
    forall v, u | v in s.workers && u in s.Types(v) && s.FreeCapacity(v) > 0
      ensures s'.Pending(u) == []
    {
      assert Offered(s, v, |s.Types(v)|);
      var j :| 0 <= j < |s.Types(v)| && s.Types(v)[j] == u;
      assert v in s.Available(s.Types(v)[j]);
    }
  }

  lemma JoinedSpare(s: State, s': State, t: RequestType)
    requires Joined(s, s', t) && Spare(s)
    ensures Spare(s')
  {
  }

  lemma ClientConserves(env: Env, s: State, k: Key, vfs: VersionFlags, msg: Message)
    requires Fair(env) && RequestsSent(env) && Inv(s, Settled) && AllOffered(s) && !ReceiptLost(env, s, k, vfs)
    ensures Served(s) ==> Served(ClientRequest(env, s, k, vfs, msg))
    ensures Spare(s) ==> Spare(ClientRequest(env, s, k, vfs, msg))
  {
    AvailableKnown(s, Settled);
    hide Inv, AllOffered;
    var s' := ClientRequest(env, s, k, vfs, msg);
    if s.Known(k) {
      RepeatedSameLists(env, s, k, vfs, msg);
      hide ClientRequest;
      SameConserves(s, s');
    } else if s.Available(k.kind) == {} {
      AcceptJoins(env, s, k, vfs, msg);
      hide ClientRequest;
      if Served(s) {
        JoinedServed(s, s', k.kind);
      }
      if Spare(s) {
        JoinedSpare(s, s', k.kind);
      }
    } else {
      StartConserves(env, s, k, vfs, msg);
    }
  }

  lemma RepeatedSameLists(env: Env, s: State, k: Key, vfs: VersionFlags, msg: Message)
    requires s.Known(k)
    ensures SameLists(s, RepeatedRequest(env, s, k, vfs, msg))
  {
    var r := s.Request(k);
    if r.vfs.Has(AllowRedirect) && r.place.Assigned? && env.request(s.sends) {
      RepeatedRequestIs(env, s, k, vfs, msg);
    }
  }

  lemma SameConserves(s: State, s': State)
    requires SameLists(s, s')
    ensures Served(s) ==> Served(s')
    ensures Spare(s) ==> Spare(s')
  {
  }

  lemma AcceptJoins(env: Env, s: State, k: Key, vfs: VersionFlags, msg: Message)
    requires !s.Known(k) && s.Available(k.kind) == {}
    ensures Joined(s, ClientRequest(env, s, k, vfs, msg), k.kind)
  {
  }

  lemma StartConserves(env: Env, s: State, k: Key, vfs: VersionFlags, msg: Message)
    requires Fair(env) && RequestsSent(env) && AvailableAgrees(s)
    requires !s.Known(k) && s.Available(k.kind) != {} && !ReceiptLost(env, s, k, vfs)
    ensures Served(s) ==> Served(ClientRequest(env, s, k, vfs, msg))
    ensures Spare(s) ==> Spare(ClientRequest(env, s, k, vfs, msg))
  {
    PickedSupports(env, s, k.kind);
    var w := env.pick(s.sends, s.Available(k.kind));
    var out := ForwardDirect(env, s, w, k, vfs, msg, Start(k, vfs, msg, w));
    DirectLoads(env, s, w, k, vfs, msg, Start(k, vfs, msg, w));
    assert ClientRequest(env, s, k, vfs, msg) == WithdrawIfExhausted(out.state, w);
    hide ClientRequest, ForwardDirect, WithdrawIfExhausted;
    if Served(s) {
      LoadedServed(s, out.state, w, None);
    }
    if Spare(s) {
      LoadedSpare(s, out.state, w, None);
    }
  }

  // ----- a dead worker -----

  /** What holds of everybody but the dying worker. */
  ghost predicate Kept(s: State, w: Identity, served: bool, spare: bool) {
    (served ==> ServedBut(s, Some(w))) && (spare ==> SpareBut(s, Some(w))) && AvailableAgrees(s)
  }

  lemma SettleKeeps(env: Env, s: State, w: Identity, k: Key, served: bool, spare: bool)
    requires Fair(env) && RequestsSent(env) && !MoveReceiptLost(env, s, k)
    requires OfferedBut(s, w, 0) && w !in s.Available(k.kind)
    requires Kept(s, w, served, spare)
    ensures var s' := Settle(env, s, w, k);
            Kept(s', w, served, spare) && w !in s'.Available(k.kind)
  {
    if s.Known(k) {
      SettleAside(env, s, w, k);
      AsideAvailable(s, Settle(env, s, w, k), w, k);
      var r := s.Request(k);
      if Retryable(r) && s.Available(k.kind) != {} {
        MoveKeeps(env, s, w, k, served, spare);
      } else if Retryable(r) {
        RequeueKeeps(s, w, k, served, spare);
      } else {
        LeftKeeps(env, s, w, k, served, spare);
      }
    }
  }

  lemma AsideAvailable(s: State, s': State, w: Identity, k: Key)
    requires Aside(s, s', w, {k}) && AvailableAgrees(s)
    ensures AvailableAgrees(s') && s'.Available(k.kind) <= s.Available(k.kind)
  {
    forall t, v | t in s'.contexts && v in s'.contexts[t].available
      ensures v in s'.workers && t in s'.workers[v].types
    {
      assert v in s'.Available(t) && v in s.Available(t);
      assert s'.Types(v) == s.Types(v);
    }
  }

  lemma MoveKeeps(env: Env, s: State, w: Identity, k: Key, served: bool, spare: bool)
    requires Fair(env) && RequestsSent(env) && !MoveReceiptLost(env, s, k)
    requires w !in s.Available(k.kind) && Kept(s, w, served, spare)
    requires s.Known(k) && Retryable(s.Request(k)) && s.Available(k.kind) != {}
    ensures var s' := Settle(env, s, w, k);
            (served ==> ServedBut(s', Some(w))) && (spare ==> SpareBut(s', Some(w)))
  {
    PickedSupports(env, s, k.kind);
    var r := s.Request(k);
    var to := env.pick(s.sends, s.Available(k.kind));
    var msg := r.msg.GetOr([]);
    var out := ForwardDirect(env, s, to, k, r.vfs, msg, Move(k, w, to, msg));
    DirectLoads(env, s, to, k, r.vfs, msg, Move(k, w, to, msg));
    assert Settle(env, s, w, k) == WithdrawIfExhausted(out.state, to);
    hide Settle, ForwardDirect, WithdrawIfExhausted;
    if served {
      LoadedServed(s, out.state, to, Some(w));
    }
    if spare {
      LoadedSpare(s, out.state, to, Some(w));
    }
  }

  lemma RequeueKeeps(s: State, w: Identity, k: Key, served: bool, spare: bool)
    requires Kept(s, w, served, spare) && s.Known(k) && s.Available(k.kind) == {} && OfferedBut(s, w, 0)
    ensures var s' := BackToPending(s, k, [Requeue(k, w)]);
            (served ==> ServedBut(s', Some(w))) && (spare ==> SpareBut(s', Some(w)))
  {
    var s' := BackToPending(s, k, [Requeue(k, w)]);
    assert Joined(s, s', k.kind);
    hide BackToPending;
    forall v, u | served && v in s.workers && v != w && u in s.Types(v) && s.FreeCapacity(v) > 0
      ensures s'.Pending(u) == []
    {
      assert Offered(s, v, |s.Types(v)|);
      var j :| 0 <= j < |s.Types(v)| && s.Types(v)[j] == u;
      assert v in s.Available(s.Types(v)[j]);
    }
  }

  lemma LeftKeeps(env: Env, s: State, w: Identity, k: Key, served: bool, spare: bool)
    requires Kept(s, w, served, spare) && s.Known(k) && !Retryable(s.Request(k))
    ensures var s' := Settle(env, s, w, k);
            (served ==> ServedBut(s', Some(w))) && (spare ==> SpareBut(s', Some(w)))
  {
    SameErased(s, k);
    assert SameLists(s, Settle(env, s, w, k));
    hide Settle;
    SameKeeps(s, Settle(env, s, w, k), w);
  }

  lemma SameKeeps(s: State, s': State, w: Identity)
    requires SameLists(s, s')
    ensures ServedBut(s, Some(w)) ==> ServedBut(s', Some(w))
    ensures SpareBut(s, Some(w)) ==> SpareBut(s', Some(w))
  {
  }

  lemma {:induction false} SettleAllKeeps(
    env: Env, s: State, w: Identity, t: RequestType, ids: seq<RequestId>, seen: seq<RequestType>,
    served: bool, spare: bool)
    requires Fair(env) && RequestsSent(env) && SettleAllSafe(env, s, w, t, ids)
    requires Shelf(s, w, 0, seen) && w !in s.Available(t) && Kept(s, w, served, spare)
    ensures Kept(SettleAll(env, s, w, t, ids), w, served, spare)
    decreases |ids|
  {
    if ids != [] {
      assert OfferedBut(s, w, 0);
      hide Shelf, Kept, Settle, OfferedBut, Fair, MoveReceiptLost;
      var k := Key(t, ids[0]);
      SettleKeeps(env, s, w, k, served, spare);
      SettleShelf(env, s, w, k, seen);
      SettleAllKeeps(env, Settle(env, s, w, k), w, t, ids[1..], seen, served, spare);
    }
  }

  lemma {:induction false} DeadWorkerKeeps(env: Env, s: State, w: Identity, i: nat, served: bool, spare: bool)
    requires Fair(env) && RequestsSent(env) && DeadSafe(env, s, w, i) && Kept(s, w, served, spare)
    requires i <= |s.Types(w)| && Distinct(s.Types(w)) && w in s.workers
    requires forall j :: i <= j < |s.Types(w)| ==> s.Types(w)[j] in s.contexts
    requires Shelf(s, w, 0, s.Types(w)[i..])
    ensures Kept(DeadWorker(env, s, w, i), w, served, spare)
    decreases |s.Types(w)| - i
  {
    hide Shelf, Kept, Fair, Distinct, SettleAllSafe;
    if i < |s.Types(w)| {
      var t := s.Types(w)[i];
      var s1 := Leave(s, w, t);
      LeaveShelf(s, w, i);
      LeaveKeeps(s, w, t, served, spare);
      var ids := env.order(s.At(), w, t, HeldIds(s, w, t));
      SettleAllShelf(env, s1, w, t, ids, s.Types(w)[i + 1..]);
      SettleAllKeys(env, s1, w, t, ids);
      SettleAllKeeps(env, s1, w, t, ids, s.Types(w)[i + 1..], served, spare);
      DeadWorkerKeeps(env, SettleAll(env, s1, w, t, ids), w, i + 1, served, spare);
    }
  }

  lemma LeaveKeeps(s: State, w: Identity, t: RequestType, served: bool, spare: bool)
    requires Kept(s, w, served, spare) && t in s.contexts
    ensures Kept(Leave(s, w, t), w, served, spare) && w !in Leave(s, w, t).Available(t)
  {
    var s1 := Leave(s, w, t);
    forall u
      ensures s1.Pending(u) == s.Pending(u) && s1.Available(u) <= s.Available(u)
    {
    }
  }

  lemma DeathConserves(env: Env, s: State, w: Identity)
    requires Fair(env) && RequestsSent(env) && DeadSafe(env, s, w, 0)
    requires Inv(s, Settled) && Shelved(s) && w in s.workers
    ensures var s' := RemoveWorker(DeadWorker(env, s, w, 0), w);
            (Served(s) ==> Served(s')) && (Spare(s) ==> Spare(s'))
  {
    var s1 := DeadWorker(env, s, w, 0);
    AvailableKnown(s, Settled);
    DeathBegins(s, w);
    DeathAgrees(env, s, w);
    AvailableKnown(RemoveWorker(s1, w), Settled);
    hide Inv, DeadWorker, DeadSafe, Fate;
    DeathShelf(s, w);
    AllKept(s, w);
    hide Shelved, Shelf, Served, Spare, Kept;
    DeadWorkerKeeps(env, s, w, 0, Served(s), Spare(s));
    GoneKeeps(s1, w, Served(s), Spare(s));
  }

  lemma AllKept(s: State, w: Identity)
    requires AvailableAgrees(s)
    ensures Kept(s, w, Served(s), Spare(s))
  {
  }

  lemma DeathShelf(s: State, w: Identity)
    requires Shelved(s) && w in s.workers
    ensures Shelf(s, w, 0, s.Types(w)[0..])
    ensures forall j :: 0 <= j < |s.Types(w)| ==> s.Types(w)[j] in s.contexts
  {
    ShelvedBut(s, w);
    assert Offered(s, w, |s.Types(w)|);
    assert OfferedBut(s, w, 0);
    assert s.Types(w)[0..] == s.Types(w);
  }

  lemma GoneKeeps(s: State, w: Identity, served: bool, spare: bool)
    requires Kept(s, w, served, spare) && AvailableAgrees(RemoveWorker(s, w))
    ensures (served ==> Served(RemoveWorker(s, w))) && (spare ==> Spare(RemoveWorker(s, w)))
  {
    var s' := RemoveWorker(s, w);
    forall t
      ensures s'.Pending(t) == s.Pending(t) && s'.Available(t) == s.Available(t) && w !in s'.Available(t)
    {
    }
    forall v | v != w
      ensures s'.Types(v) == s.Types(v) && s'.FreeCapacity(v) == s.FreeCapacity(v)
    {
    }
  }

  lemma {:induction false} PulseConserves(env: Env, s: State, ws: seq<Identity>, deathDelay: int)
    requires Fair(env) && RequestsSent(env) && PulseSafe(env, s, ws, deathDelay)
    requires Inv(s, Settled) && Shelved(s)
    ensures var s' := PulseFrom(env, s, ws, deathDelay);
            (Served(s) ==> Served(s')) && (Spare(s) ==> Spare(s'))
    decreases |ws|
  {
    hide Inv, Shelved, Served, Spare, DeadWorker, DeadSafe, Fate;
    if ws != [] {
      if ws[0] !in s.workers || s.workers[ws[0]].IsAliveAsOf(s.now, deathDelay) {
        PulseConserves(env, s, ws[1..], deathDelay);
      } else {
        DeathBegins(s, ws[0]);
        var s' := RemoveWorker(DeadWorker(env, s, ws[0], 0), ws[0]);
        DeathAgrees(env, s, ws[0]);
        DeathShelved(env, s, ws[0]);
        DeathConserves(env, s, ws[0]);
        PulseConserves(env, s', ws[1..], deathDelay);
      }
    }
  }

  // ----- runs -----

  /** No lost receipt hides, when a worker becomes ready, that there is more for it to do. */
  ghost predicate Remembered(env: Env, s: State, e: Event) {
    match e
    case Ready(w, capacity, types, delay) =>
      Enrols(s, w, capacity, types) ==> !ReadyForgets(env, s, w, capacity, types, delay)
    case _ => true
  }

  /** No last unit of capacity slips: no lost receipt hides that a worker's capacity has run out, and it
      does not run out while the worker is offered for a later type. */
  ghost predicate Measured(env: Env, s: State, e: Event) {
    match e
    case Ready(w, capacity, types, delay) =>
      Enrols(s, w, capacity, types) ==>
        && !ReadySpoils(env, s, w, capacity, types, delay)
        && (StopsEarly(capacity, Counts(s, types)) ==> ReadyForgets(env, s, w, capacity, types, delay))
    case Finished(w, k) => !FinishSlips(env, s, w, k)
    case _ => true
  }

  ghost predicate RememberedRun(env: Env, s: State, events: seq<Event>) {
    events != [] ==>
      var before := events[..|events| - 1];
      RememberedRun(env, s, before) && Remembered(env, Run(env, s, before), events[|events| - 1])
  }

  ghost predicate MeasuredRun(env: Env, s: State, events: seq<Event>) {
    events != [] ==>
      var before := events[..|events| - 1];
      MeasuredRun(env, s, before) && Measured(env, Run(env, s, before), events[|events| - 1])
  }

  /** A step leaves no worker with free capacity beside a request it could run, exactly if it forgets
      nothing on becoming ready. */
  lemma StepServedIff(env: Env, s: State, e: Event)
    requires Fair(env) && RequestsSent(env) && Inv(s, Settled) && Shelved(s) && Sound(env, s, e)
    requires Served(s)
    ensures Served(Step(env, s, e)) <==> Remembered(env, s, e)
  {
    hide Inv, Fair, ReadyForgets, Served, Shelved, PulseSafe, FinishSafe, ReceiptLost, Distinct;
    match e
    case Ask(k, vfs, msg) => ShelvedOffers(s); ClientConserves(env, s, k, vfs, msg);
    case Ready(w, capacity, types, delay) =>
      if Enrols(s, w, capacity, types) {
        ReadyServedIff(env, s, w, capacity, types, delay);
      }
    case Finished(w, k) => FinishedServed(env, s, w, k);
    case Pulse(deathDelay) =>
      PulseConserves(env, s, env.roster(s.At(), s.workers.Keys), deathDelay);
    case _ => TimesConserve(env, s, e);
  }

  lemma ShelvedOffers(s: State)
    requires Shelved(s)
    ensures AllOffered(s)
  {
  }

  lemma TimesConserve(env: Env, s: State, e: Event)
    requires e.Tick? || e.Beat? || e.Received?
    ensures Served(s) ==> Served(Step(env, s, e))
    ensures Spare(s) ==> Spare(Step(env, s, e))
  {
    var s' := Step(env, s, e);
    assert s'.contexts == s.contexts && s'.workers.Keys == s.workers.Keys;
    forall v
      ensures s'.Types(v) == s.Types(v) && s'.FreeCapacity(v) == s.FreeCapacity(v)
    {
    }
    forall t
      ensures s'.Pending(t) == s.Pending(t) && s'.Available(t) == s.Available(t)
    {
    }
    hide Step;
  }

  /** And nobody offered without capacity or given more than it can take, exactly if it is measured. */
  lemma StepSpareIff(env: Env, s: State, e: Event)
    requires Fair(env) && RequestsSent(env) && Inv(s, Settled) && Shelved(s) && Sound(env, s, e) && Spare(s)
    ensures Spare(Step(env, s, e)) <==> Measured(env, s, e)
  {
    hide Inv, Fair, ReadyForgets, ReadySpoils, FinishSlips, Served, Spare, Shelved, StopsEarly, Counts, PulseSafe;
    hide FinishSafe, ReceiptLost, Distinct;
    match e
    case Ask(k, vfs, msg) => ShelvedOffers(s); ClientConserves(env, s, k, vfs, msg);
    case Ready(w, capacity, types, delay) =>
      if Enrols(s, w, capacity, types) {
        ReadySpareIff(env, s, w, capacity, types, delay);
      }
    case Finished(w, k) => FinishSlipsIff(env, s, w, k);
    case Pulse(deathDelay) =>
      PulseConserves(env, s, env.roster(s.At(), s.workers.Keys), deathDelay);
    case _ => TimesConserve(env, s, e);
  }

  lemma StartConserved()
    ensures Served(Start0) && Spare(Start0)
  {
  }

  /** Work conservation: when requests that are sent get out, no state on the way of a run has a worker
      with free capacity and a pending request of a type it supports, exactly if no lost receipt ever
      hid from a worker that became ready that there was more to do. */
  lemma {:induction false} WorkConservedIff(env: Env, events: seq<Event>)
    requires Fair(env) && RequestsSent(env) && SoundRun(env, Start0, events)
    ensures (forall n :: 0 <= n <= |events| ==> Served(Run(env, Start0, events[..n]))) <==>
              RememberedRun(env, Start0, events)
  {
    hide Inv, Sound, Served, Shelved, Remembered, Fair;
    if events == [] {
      StartConserved();
      assert events[..0] == events;
    } else {
      var last := |events| - 1;
      var before := events[..last];
      WorkConservedIff(env, before);
      forall n | 0 <= n <= last
        ensures before[..n] == events[..n]
      {
      }
      assert events[..|events|] == events && before[..last] == before;
      if Served(Run(env, Start0, before)) {
        RunAgrees(env, before);
        RunShelved(env, before);
        StepServedIff(env, Run(env, Start0, before), events[last]);
      }
    }
  }

  lemma WorkConserved(env: Env, events: seq<Event>)
    requires Fair(env) && RequestsSent(env) && SoundRun(env, Start0, events) && RememberedRun(env, Start0, events)
    ensures Served(Run(env, Start0, events))
  {
    hide Served, Fair;
    WorkConservedIff(env, events);
    assert events[..|events|] == events;
  }

  /** When requests that are sent get out, nobody is offered without capacity or given more than it can
      take in any state on the way of a run, exactly if every step is measured. */
  lemma {:induction false} CapacitySparedIff(env: Env, events: seq<Event>)
    requires Fair(env) && RequestsSent(env) && SoundRun(env, Start0, events)
    ensures (forall n :: 0 <= n <= |events| ==> Spare(Run(env, Start0, events[..n]))) <==>
              MeasuredRun(env, Start0, events)
  {
    hide Inv, Sound, Shelved, Spare, Measured, Fair;
    if events == [] {
      StartConserved();
      assert events[..0] == events;
    } else {
      var last := |events| - 1;
      var before := events[..last];
      CapacitySparedIff(env, before);
      forall n | 0 <= n <= last
        ensures before[..n] == events[..n]
      {
      }
      assert events[..|events|] == events && before[..last] == before;
      if Spare(Run(env, Start0, before)) {
        RunAgrees(env, before);
        RunShelved(env, before);
        StepSpareIff(env, Run(env, Start0, before), events[last]);
      }
    }
  }

  lemma CapacitySpared(env: Env, events: seq<Event>)
    requires Fair(env) && RequestsSent(env) && SoundRun(env, Start0, events) && MeasuredRun(env, Start0, events)
    ensures Spare(Run(env, Start0, events))
  {
    hide Spare, Fair, Measured;
    CapacitySparedIff(env, events);
    assert events[..|events|] == events;
  }

  /** While receipts get out nothing is ever forgotten. */
  lemma {:induction false} SentRemembered(env: Env, events: seq<Event>)
    requires Fair(env) && AllSent(env) && SoundRun(env, Start0, events)
    ensures RememberedRun(env, Start0, events)
  {
    hide Inv, Fair, ReadyForgets, Distinct;
    if events != [] {
      var before := events[..|events| - 1];
      SentRemembered(env, before);
      RunAgrees(env, before);
      match events[|events| - 1]
      case Ready(w, capacity, types, delay) =>
        var s := Run(env, Start0, before);
        if Enrols(s, w, capacity, types) {
          ReadyCovered(env, s, w, capacity, types, delay);
        }
      case _ =>
    }
  }

  function Idle(s: State, t: RequestType): set<Identity> {
    set w | w in s.workers && t in s.Types(w) && s.FreeCapacity(w) > 0
  }

  /** In every state such a run reaches, a type's set of available workers is exactly the registered
      workers that support it and have free capacity, nobody is over-committed, a type has no pending
      request while it has an available worker, and its count is of the workers that support it. */
  lemma AvailableExactly(env: Env, events: seq<Event>, t: RequestType)
    requires Fair(env) && RequestsSent(env) && SoundRun(env, Start0, events)
    requires RememberedRun(env, Start0, events) && MeasuredRun(env, Start0, events)
    ensures var s := Run(env, Start0, events);
            && s.Available(t) == Idle(s, t)
            && (s.Available(t) != {} ==> s.Pending(t) == [])
            && (t in s.contexts ==> s.contexts[t].totalWorkers == |Workforce(s, t)|)
            && (forall w :: w in s.workers ==> 0 <= s.workers[w].freeCapacity)
  {
    var s := Run(env, Start0, events);
    CapacitySpared(env, events);
    WorkConserved(env, events);
    RunAgrees(env, events);
    RunShelved(env, events);
    hide Inv, Run, SoundRun, MeasuredRun, RememberedRun, Served, Spare, Shelved, RequestsSent;
    ExactlyIdle(s, t);
  }

  lemma ExactlyIdle(s: State, t: RequestType)
    requires Inv(s, Settled) && Shelved(s) && Served(s) && Spare(s)
    ensures s.Available(t) == Idle(s, t) && (s.Available(t) != {} ==> s.Pending(t) == [])
    ensures t in s.contexts ==> s.contexts[t].totalWorkers == |Workforce(s, t)|
    ensures forall w :: w in s.workers ==> 0 <= s.workers[w].freeCapacity
  {
    AvailableKnown(s, Settled);
    hide Inv;
    forall w | w in Idle(s, t)
      ensures w in s.Available(t) && s.Pending(t) == []
    {
      assert Offered(s, w, |s.Types(w)|);
      var j :| 0 <= j < |s.Types(w)| && s.Types(w)[j] == t;
      assert w in s.Available(s.Types(w)[j]);
    }
    forall w | w in s.Available(t)
      ensures w in Idle(s, t)
    {
    }
    forall w | w in s.workers
      ensures 0 <= s.workers[w].freeCapacity
    {
      assert 0 <= s.FreeCapacity(w);
    }
  }
}

/** What a worker that becomes ready or finishes leaves waiting beside its capacity, whatever sends fail. */
module Retrying {
  import opened Cluster
  import opened RequestContexts
  import opened Scheduler
  import opened Agreement
  import opened Workers
  import opened RoundRobin
  import opened Conservation

  // ----- the last round -----

  /** The state in which a round comes to its j-th type, the capacity lasting. */
  function AtTurn(env: Env, s: State, w: Identity, i: nat, more: bool, j: nat): State
    decreases |s.Types(w)| - i
  {
    if i >= j || i >= |s.Types(w)| then s
    else
      var v := SweepVisit(env, s, w, i, more);
      AtTurn(env, v.state, w, i + 1, v.more, j)
  }

  /** The state in which the last of the rounds begins. */
  function LastRound(env: Env, s: State, w: Identity): State
    decreases s.FreeCapacity(w)
  {
    if s.FreeCapacity(w) <= 0 then s
    else
      var round := Sweep(env, s, w, 0, false);
      if round.1 && round.0.FreeCapacity(w) > 0 then LastRound(env, round.0, w) else s
  }

  /** At this turn the head of the type's list is tried, and something stays in the list: the send fails,
      or the head goes out, its receipt is lost and there are more. */
  predicate TurnLeaves(env: Env, s: State, t: RequestType) {
    && s.Pending(t) != []
    && (!env.request(s.sends) || (HeadLost(env, s, t) && |s.Pending(t)| > 1))
  }

  /** What a type's list is after such a turn, without the head if that went out. */
  function Tried(env: Env, s: State, t: RequestType): seq<Node> {
    var p := s.Pending(t);
    if p == [] || !env.request(s.sends) then p else p[1..]
  }

  // ----- one turn -----

  /** A turn whose send fails changes nothing. */
  lemma FailedTurn(env: Env, s: State, w: Identity, i: nat, more: bool)
    requires Inv(s, Settled) && w in s.workers && i < |s.Types(w)|
    requires s.Pending(s.Types(w)[i]) != [] && !env.request(s.sends)
    ensures SweepVisit(env, s, w, i, more) == Visit(s.(sends := s.sends + 1), more, false)
  {
    FailedHead(s, s.Types(w)[i]);
    hide Inv;
  }

  lemma FailedHead(s: State, t: RequestType)
    requires Inv(s, Settled) && s.Pending(t) != []
    ensures var k := Key(t, s.Pending(t)[0].id);
            s.Known(k) && s.Request(k).place.Queued?
  {
    hide Inv;
    QueuedIsKnown(s, t, Settled);
  }

  /** What any turn of a round leaves behind. */
  ghost predicate TurnLeft(env: Env, s: State, v: Visit, w: Identity, t: RequestType, more: bool) {
    && v.state.Types(w) == s.Types(w) && v.state.workers.Keys == s.workers.Keys
    && v.state.FreeCapacity(w) <= s.FreeCapacity(w) && s.sends <= v.state.sends
    && v.state.Pending(t) == Tried(env, s, t)
    && (forall u :: u != t ==> v.state.Pending(u) == s.Pending(u))
    && (v.stop ==> v.state.FreeCapacity(w) <= 0)
    && (more ==> v.more)
    && (!v.stop && !v.more ==> (v.state.Pending(t) != [] <==> TurnLeaves(env, s, t)))
  }

  lemma AnyTurn(env: Env, s: State, w: Identity, i: nat, more: bool)
    requires Inv(s, Settled) && w in s.workers && i < |s.Types(w)|
    ensures TurnLeft(env, s, SweepVisit(env, s, w, i, more), w, s.Types(w)[i], more)
  {
    var t := s.Types(w)[i];
    if s.Pending(t) == [] {
      SweepSkips(env, s, w, i, more);
    } else if !env.request(s.sends) {
      FailedTurn(env, s, w, i, more);
      hide SweepVisit;
    } else {
      SentTurn(env, s, w, i, more);
    }
  }

  lemma SentTurn(env: Env, s: State, w: Identity, i: nat, more: bool)
    requires Inv(s, Settled) && w in s.workers && i < |s.Types(w)|
    requires s.Pending(s.Types(w)[i]) != [] && env.request(s.sends)
    ensures TurnLeft(env, s, SweepVisit(env, s, w, i, more), w, s.Types(w)[i], more)
  {
    hide Inv, SweepVisit, ForwardQueued, HeadLost;
    SweepTurnLists(env, s, w, i, more);
    SentTail(env, s, w, i, more);
    SendsGrow(env, s, w, i, more);
    StopsFull(env, s, w, i, more);
  }

  lemma StopsFull(env: Env, s: State, w: Identity, i: nat, more: bool)
    requires i < |s.Types(w)|
    ensures var v := SweepVisit(env, s, w, i, more);
            (v.stop ==> v.state.FreeCapacity(w) <= 0) && (more ==> v.more)
  {
    var t := s.Types(w)[i];
    if s.Pending(t) != [] {
      var out := ForwardQueued(env, s, w, Key(t, s.Pending(t)[0].id));
      hide ForwardQueued;
      assert Withdraw(out.state, w, i + 1).workers == out.state.workers;
    }
  }

  lemma SentTail(env: Env, s: State, w: Identity, i: nat, more: bool)
    requires Inv(s, Settled) && w in s.workers && i < |s.Types(w)|
    requires s.Pending(s.Types(w)[i]) != [] && env.request(s.sends)
    ensures var t := s.Types(w)[i];
            SweepVisit(env, s, w, i, more).state.Pending(t) == s.Pending(t)[1..]
  {
    hide Inv, SweepVisit, ForwardQueued, HeadLost;
    SweepVisitIs(env, s, w, i, more);
    var t := s.Types(w)[i];
    var s1 := ForwardQueued(env, s, w, Key(t, s.Pending(t)[0].id)).state;
    WithdrawIs(s1, w, i + 1, t);
  }

  lemma SendsGrow(env: Env, s: State, w: Identity, i: nat, more: bool)
    requires i < |s.Types(w)|
    ensures s.sends <= SweepVisit(env, s, w, i, more).state.sends
  {
    var t := s.Types(w)[i];
    if s.Pending(t) != [] {
      var out := ForwardQueued(env, s, w, Key(t, s.Pending(t)[0].id));
      ForwardSends(env, s, w, Key(t, s.Pending(t)[0].id));
      hide ForwardQueued;
      WithdrawSends(out.state, w, i + 1);
    }
  }

  lemma ForwardSends(env: Env, s: State, w: Identity, k: Key)
    ensures s.sends <= ForwardQueued(env, s, w, k).state.sends
  {
  }

  lemma {:induction false} WithdrawSends(s: State, w: Identity, n: nat)
    ensures Withdraw(s, w, n).sends == s.sends
  {
    if n != 0 && n <= |s.Types(w)| {
      WithdrawSends(s, w, n - 1);
    }
  }

  // ----- one round -----

  /** Of a round that keeps capacity and reports that nothing is left: each type's list is what its turn
      made of it, and something is in it exactly if that turn left something. */
  ghost predicate RoundLeft(env: Env, s: State, s': State, w: Identity, i: nat, more: bool)
    requires i <= |s.Types(w)|
  {
    && (forall j :: i <= j < |s.Types(w)| ==>
          var v := AtTurn(env, s, w, i, more, j);
          var t := s.Types(w)[j];
          s.sends <= v.sends && s'.Pending(t) == Tried(env, v, t) && (s'.Pending(t) != [] <==> TurnLeaves(env, v, t)))
    && (forall u :: u !in s.Types(w)[i..] ==> s'.Pending(u) == s.Pending(u))
  }

  lemma {:induction false} SweepLeft(env: Env, s: State, w: Identity, i: nat, more: bool)
    requires Inv(s, Settled) && w in s.workers && Distinct(s.Types(w)) && i <= |s.Types(w)|
    ensures var out := Sweep(env, s, w, i, more);
            && (more ==> out.1)
            && (out.0.FreeCapacity(w) > 0 && !out.1 ==> RoundLeft(env, s, out.0, w, i, more))
    decreases |s.Types(w)| - i
  {
    hide Inv, SweepVisit, HeadLost, Distinct, TurnLeaves, Tried, TurnLeft, RoundLeft;
    if i >= |s.Types(w)| {
      NothingLeft(env, s, w, i, more);
    } else {
      var v := SweepVisit(env, s, w, i, more);
      AnyTurn(env, s, w, i, more);
      TurnKeeps(env, s, v, w, s.Types(w)[i], more);
      SweepVisitAgrees(env, s, w, i, more);
      if !v.stop {
        SweepLeft(env, v.state, w, i + 1, v.more);
        var out := Sweep(env, v.state, w, i + 1, v.more);
        if out.0.FreeCapacity(w) > 0 && !out.1 {
          OneTurnMore(env, s, out.0, w, i, more);
        }
      }
    }
  }

  lemma TurnKeeps(env: Env, s: State, v: Visit, w: Identity, t: RequestType, more: bool)
    requires TurnLeft(env, s, v, w, t, more)
    ensures v.state.Types(w) == s.Types(w) && v.state.workers.Keys == s.workers.Keys && (more ==> v.more)
    ensures v.stop ==> v.state.FreeCapacity(w) <= 0
  {
  }

  lemma NothingLeft(env: Env, s: State, w: Identity, i: nat, more: bool)
    requires i == |s.Types(w)|
    ensures RoundLeft(env, s, s, w, i, more)
  {
  }

  lemma OneTurnMore(env: Env, s: State, s': State, w: Identity, i: nat, more: bool)
    requires i < |s.Types(w)| && Distinct(s.Types(w))
    requires SweepVisit(env, s, w, i, more).state.Types(w) == s.Types(w)
    requires var v := SweepVisit(env, s, w, i, more);
             && TurnLeft(env, s, v, w, s.Types(w)[i], more) && !v.stop && !v.more
             && RoundLeft(env, v.state, s', w, i + 1, v.more)
    ensures RoundLeft(env, s, s', w, i, more)
  {
    hide SweepVisit, HeadLost, TurnLeaves, Tried, AtTurn, Distinct;
    var types := s.Types(w);
    var v := SweepVisit(env, s, w, i, more);
    assert types[i..] == [types[i]] + types[i + 1..];
    NotLater(types, i);
    TurnsOn(env, s, w, i, more);
    forall j | i <= j < |types|
      ensures var a := AtTurn(env, s, w, i, more, j);
              s.sends <= a.sends && s'.Pending(types[j]) == Tried(env, a, types[j])
              && (s'.Pending(types[j]) != [] <==> TurnLeaves(env, a, types[j]))
    {
      if i < j {
        assert AtTurn(env, s, w, i, more, j) == AtTurn(env, v.state, w, i + 1, v.more, j);
      }
    }
  }

  lemma NotLater(types: seq<RequestType>, i: nat)
    requires Distinct(types) && i < |types|
    ensures types[i] !in types[i + 1..]
  {
  }

  lemma TurnsOn(env: Env, s: State, w: Identity, i: nat, more: bool)
    requires i < |s.Types(w)|
    ensures AtTurn(env, s, w, i, more, i) == s
    ensures var v := SweepVisit(env, s, w, i, more);
            forall j :: i < j ==> AtTurn(env, s, w, i, more, j) == AtTurn(env, v.state, w, i + 1, v.more, j)
  {
    hide SweepVisit;
  }

  // ----- round after round -----

  /** Rounds that end with capacity to spare end with the last one, in which everything was sent no
      earlier than they began. */
  lemma {:induction false} RoundsLeave(env: Env, s: State, w: Identity)
    requires Inv(s, Settled) && w in s.workers && Distinct(s.Types(w)) && s.FreeCapacity(w) > 0
    ensures var s' := Rounds(env, s, w, true);
            s'.FreeCapacity(w) > 0 ==>
              var last := LastRound(env, s, w);
              && s.sends <= last.sends && last.Types(w) == s.Types(w)
              && RoundLeft(env, last, s', w, 0, false)
    decreases s.FreeCapacity(w)
  {
    hide Inv, Sweep, Distinct, RoundLeft;
    var round := Sweep(env, s, w, 0, false);
    SweepLeft(env, s, w, 0, false);
    if round.1 && round.0.FreeCapacity(w) > 0 {
      SweepAgrees(env, s, w, 0, false);
      SweepSends(env, s, w, 0, false);
      RoundsLeave(env, round.0, w);
    }
  }

  lemma {:induction false} SweepSends(env: Env, s: State, w: Identity, i: nat, more: bool)
    ensures s.sends <= Sweep(env, s, w, i, more).0.sends
    decreases |s.Types(w)| - i
  {
    hide SweepVisit;
    if i < |s.Types(w)| {
      var v := SweepVisit(env, s, w, i, more);
      SendsGrow(env, s, w, i, more);
      if !v.stop {
        SweepSends(env, v.state, w, i + 1, v.more);
      }
    }
  }

  // ----- the first passes -----

  /** A turn of a first pass: other lists are kept, capacity does not grow, and a turn that keeps capacity
      and does not ask for a round has left nothing in its list. */
  ghost predicate FirstTurn(s: State, v: Visit, w: Identity, t: RequestType, more: bool) {
    && v.state.Types(w) == s.Types(w) && v.state.workers.Keys == s.workers.Keys
    && v.state.FreeCapacity(w) <= s.FreeCapacity(w)
    && (forall u :: u != t ==> v.state.Pending(u) == s.Pending(u))
    && (more ==> v.more)
    && (v.state.FreeCapacity(w) > 0 && !v.more ==> v.state.Pending(t) == [])
    && (v.stop ==> v.state.FreeCapacity(w) <= 0)
  }

  /** Whatever comes of handing over a list's head: no other list changes, nor the capacity for the better. */
  lemma ForwardLists(env: Env, s: State, w: Identity, t: RequestType, x: Transit)
    requires Inv(s, x) && w in s.workers && s.Pending(t) != []
    ensures var out := ForwardQueued(env, s, w, Key(t, s.Pending(t)[0].id));
            && out.state.workers.Keys == s.workers.Keys && out.state.Types(w) == s.Types(w)
            && out.state.FreeCapacity(w) <= s.FreeCapacity(w) && out.state.contexts.Keys == s.contexts.Keys
            && (forall u :: u != t ==> out.state.Pending(u) == s.Pending(u))
  {
    if env.request(s.sends) {
      HeadSent(env, s, w, t, x);
    } else {
      QueuedIsKnown(s, t, x);
    }
    hide ForwardQueued, Inv, HeadLost;
  }

  lemma SamePending(s: State, t: RequestType, w: Identity, n: nat)
    ensures forall u :: AddAvailable(s, t, w).Pending(u) == s.Pending(u)
    ensures forall u :: Withdraw(s, w, n).Pending(u) == s.Pending(u)
    ensures AddAvailable(s, t, w).workers == s.workers
  {
    forall u
      ensures Withdraw(s, w, n).Pending(u) == s.Pending(u)
    {
      if n <= |s.Types(w)| {
        WithdrawIs(s, w, n, u);
      }
    }
  }

  lemma NewTurn(env: Env, s: State, w: Identity, i: nat, more: bool)
    requires Inv(s, Settled) && w in s.workers && i < |s.Types(w)|
    ensures FirstTurn(s, NewWorkerVisit(env, s, w, i, more), w, s.Types(w)[i], more)
  {
    var t := s.Types(w)[i];
    if t in s.contexts {
      var s1 := s.WithContext(t, s.contexts[t].IncrementNumWorkers());
      CountedAgrees(s, t);
      hide Inv;
      assert forall u :: s1.Pending(u) == s.Pending(u);
      ServedTurnFirst(env, s1, w, i, more);
      hide NewWorkerServed;
      assert s1.FreeCapacity(w) == s.FreeCapacity(w) && s1.Types(w) == s.Types(w);
    }
  }

  lemma ServedTurnFirst(env: Env, s: State, w: Identity, i: nat, more: bool)
    requires Inv(s, Settled) && w in s.workers && i < |s.Types(w)|
    ensures FirstTurn(s, NewWorkerServed(env, s, w, i, more), w, s.Types(w)[i], more)
  {
    hide Inv;
    var t := s.Types(w)[i];
    SamePending(s, t, w, i);
    if s.FreeCapacity(w) > 0 && s.Pending(t) != [] {
      ForwardLists(env, s, w, t, Settled);
      var out := ForwardQueued(env, s, w, Key(t, s.Pending(t)[0].id));
      hide ForwardQueued;
      SamePending(out.state, t, w, i);
    }
    hide AddAvailable, Withdraw, ForwardQueued;
  }

  lemma FinishTurn(env: Env, s: State, w: Identity, i: nat, more: bool, x: Transit)
    requires Inv(s, x) && w in s.workers && i < |s.Types(w)|
    ensures FirstTurn(s, FinishVisit(env, s, w, i, s.Pending(s.Types(w)[i]), more), w, s.Types(w)[i], more)
  {
    hide Inv;
    var t := s.Types(w)[i];
    SamePending(s, t, w, i + 1);
    if s.Pending(t) != [] {
      ForwardLists(env, s, w, t, x);
      var out := ForwardQueued(env, s, w, Key(t, s.Pending(t)[0].id));
      hide ForwardQueued;
      SamePending(out.state, t, w, i + 1);
    }
    hide AddAvailable, Withdraw, ForwardQueued;
  }

  /** So far the pass has either asked for a round or left nothing. */
  lemma DryAfter(s: State, v: Visit, w: Identity, types: seq<RequestType>, i: nat, more: bool)
    requires i < |types| && FirstTurn(s, v, w, types[i], more) && (!more ==> Dry(s, types, i))
    ensures v.state.FreeCapacity(w) > 0 && !v.more ==> Dry(v.state, types, i + 1)
  {
    if v.state.FreeCapacity(w) > 0 && !v.more {
      forall j | 0 <= j < i + 1
        ensures v.state.Pending(types[j]) == []
      {
        assert j < i ==> s.Pending(types[j]) == [];
      }
    }
  }

  lemma {:induction false} NewPassLeaves(env: Env, s: State, w: Identity, i: nat, more: bool)
    requires Inv(s, Settled) && w in s.workers && i <= |s.Types(w)|
    requires s.FreeCapacity(w) > 0 && !more ==> Dry(s, s.Types(w), i)
    ensures var pass := NewWorkerPass(env, s, w, i, more);
            && pass.0.FreeCapacity(w) <= s.FreeCapacity(w) && (more ==> pass.1)
            && (pass.0.FreeCapacity(w) > 0 && !pass.1 ==> Dry(pass.0, s.Types(w), |s.Types(w)|))
    decreases |s.Types(w)| - i
  {
    hide Inv, NewWorkerVisit, Dry, FirstTurn;
    if i < |s.Types(w)| {
      var v := NewWorkerVisit(env, s, w, i, more);
      NewTurn(env, s, w, i, more);
      FirstTurnIs(s, v, w, s.Types(w)[i], more);
      NewWorkerVisitAgrees(env, s, w, i, more);
      if v.state.FreeCapacity(w) > 0 && !v.more {
        DryAfter(s, v, w, s.Types(w), i, more);
      }
      NewPassLeaves(env, v.state, w, i + 1, v.more);
    }
  }

  lemma FirstTurnIs(s: State, v: Visit, w: Identity, t: RequestType, more: bool)
    requires FirstTurn(s, v, w, t, more)
    ensures v.state.Types(w) == s.Types(w) && v.state.workers.Keys == s.workers.Keys
    ensures v.state.FreeCapacity(w) <= s.FreeCapacity(w) && (more ==> v.more)
    ensures v.stop ==> v.state.FreeCapacity(w) <= 0
  {
  }

  lemma {:induction false} FinishPassLeaves(
    env: Env, s: State, w: Identity, k: Key, i: nat, removed: bool, more: bool)
    requires Inv(s, EndingUnless(removed, k)) && w in s.workers && i <= |s.Types(w)|
    requires s.FreeCapacity(w) > 0 && !more ==> Dry(s, s.Types(w), i)
    ensures var pass := FinishPass(env, s, w, k, i, removed, more);
            && pass.state.FreeCapacity(w) <= s.FreeCapacity(w) && (more ==> pass.more || pass.state.FreeCapacity(w) <= 0)
            && (pass.state.FreeCapacity(w) > 0 && !pass.more ==> Dry(pass.state, s.Types(w), |s.Types(w)|))
    decreases |s.Types(w)| - i
  {
    hide Inv, FinishVisit, Dry, FirstTurn;
    if i < |s.Types(w)| {
      var t := s.Types(w)[i];
      if t !in s.contexts {
        UnknownDry(s, s.Types(w), i);
        FinishPassLeaves(env, s, w, k, i + 1, removed, more);
      } else {
        var erase := !removed && t == k.kind;
        var s1 := if erase then RemoveInProgress(s, k) else s;
        var x := EndingUnless(removed || erase, k);
        ErasedPending(s, s1, w, k, erase, EndingUnless(removed, k));
        SameDries(s, s1, s.Types(w), i);
        var v := FinishVisit(env, s1, w, i, s.Pending(t), more);
        FinishTurn(env, s1, w, i, more, x);
        FirstTurnIs(s1, v, w, t, more);
        FinishVisitAgrees(env, s1, w, i, more, x);
        if v.state.FreeCapacity(w) > 0 && !v.more {
          DryAfter(s1, v, w, s.Types(w), i, more);
        }
        if !v.stop {
          FinishPassLeaves(env, v.state, w, k, i + 1, removed || erase, v.more);
        }
      }
    }
  }

  lemma UnknownDry(s: State, types: seq<RequestType>, i: nat)
    requires i < |types| && types[i] !in s.contexts
    ensures Dry(s, types, i) ==> Dry(s, types, i + 1)
  {
  }

  lemma SameDries(s: State, s1: State, types: seq<RequestType>, n: nat)
    requires forall t :: s1.Pending(t) == s.Pending(t)
    ensures Dry(s, types, n) <==> Dry(s1, types, n)
  {
  }

  lemma ErasedPending(s: State, s1: State, w: Identity, k: Key, erase: bool, x: Transit)
    requires Inv(s, x) && (erase ==> x == Ending(k)) && s1 == if erase then RemoveInProgress(s, k) else s
    ensures Inv(s1, if erase then Settled else x) && s1.workers == s.workers
    ensures forall t :: s1.Pending(t) == s.Pending(t)
  {
    hide Inv;
    ErasedHeads(s, s1, w, k, erase, x, 0);
  }

  // ----- what is left -----

  /** What is left beside capacity after rounds that began here, if there were any: nothing if there were
      not; else each type's list is what its turn in the last round made of it, and something is in it
      exactly if that turn tried the head and the send failed, or lost its receipt with more behind. */
  ghost predicate Leaves(env: Env, s: State, s': State, w: Identity, types: seq<RequestType>, rounds: bool) {
    if rounds then
      forall j :: 0 <= j < |types| ==>
        var v := AtTurn(env, LastRound(env, s, w), w, 0, false, j);
        && s.sends <= v.sends && s'.Pending(types[j]) == Tried(env, v, types[j])
        && (s'.Pending(types[j]) != [] <==> TurnLeaves(env, v, types[j]))
    else forall j :: 0 <= j < |types| ==> s'.Pending(types[j]) == []
  }

  lemma RestLeaves(env: Env, s: State, w: Identity, more: bool, types: seq<RequestType>)
    requires Inv(s, Settled) && w in s.workers && Distinct(types) && s.Types(w) == types
    requires s.FreeCapacity(w) > 0 && !more ==> Dry(s, types, |types|)
    ensures var s' := Rounds(env, s, w, more);
            s'.FreeCapacity(w) > 0 ==> Leaves(env, s, s', w, types, more)
  {
    hide Inv, Sweep, Distinct, TurnLeaves, Tried, LastRound, AtTurn;
    if s.FreeCapacity(w) > 0 && more {
      RoundsLeave(env, s, w);
      hide Rounds;
    }
  }

  /** Whatever sends fail: beside the free capacity of a worker that became ready nothing waits, unless it
      was tried again in the last round and failed there, or is behind something whose receipt was lost
      there; all of what the first pass failed to send has been tried again. */
  lemma ReadyLeaves(env: Env, s: State, w: Identity, capacity: int, types: seq<RequestType>, delay: int)
    requires Inv(s, Settled) && Distinct(types) && Enrols(s, w, capacity, types)
    ensures var pass := NewWorkerPass(env, Registered(s, w, capacity, types, delay), w, 0, false);
            var s' := HandleWorkerReady(env, s, w, capacity, types, delay);
            s'.FreeCapacity(w) > 0 ==> Leaves(env, pass.0, s', w, types, pass.1)
  {
    var s1 := Registered(s, w, capacity, types, delay);
    RegisteredAgrees(s, s1, w, s1.workers[w]);
    DryAtFirst(s1, types);
    hide Inv, Dry, Distinct, NewWorkerPass, Rounds, Leaves;
    assert s1.Types(w) == types && w in s1.workers;
    NewWorkerPassAgrees(env, s1, w, 0, false);
    NewPassLeaves(env, s1, w, 0, false);
    var pass := NewWorkerPass(env, s1, w, 0, false);
    RestLeaves(env, pass.0, w, pass.1, types);
  }

  /** So it is after a finish. */
  lemma FinishedLeaves(env: Env, s: State, w: Identity, k: Key)
    requires Inv(s, Settled) && FinishSafe(s, w, k) && w in s.workers && s.FreeCapacity(w) >= 0
    ensures var pass := FinishPass(env, Freed(s, w, k), w, k, 0, false, false);
            var s2 := if pass.removed then pass.state else RemoveInProgress(pass.state, k);
            var s' := HandleWorkerFinished(env, s, w, k);
            s'.FreeCapacity(w) > 0 ==> Leaves(env, s2, s', w, s.Types(w), pass.more)
  {
    var s1 := Freed(s, w, k);
    FreedAgrees(s, w, k);
    FreedIs(s, w, k);
    DryAtFirst(s1, s.Types(w));
    FinishedRounds(env, s, w, k);
    hide Inv, Dry, Distinct, FinishPass, Rounds, Leaves, Freed, HandleWorkerFinished, RemoveInProgress;
    FinishPassAgrees(env, s1, w, k, 0, false, false);
    FinishPassLeaves(env, s1, w, k, 0, false, false);
    var pass := FinishPass(env, s1, w, k, 0, false, false);
    var s2 := if pass.removed then pass.state else RemoveInProgress(pass.state, k);
    ErasedAtLast(pass, s2, w, k);
    SameDries(pass.state, s2, s.Types(w), |s.Types(w)|);
    RestLeaves(env, s2, w, pass.more, s.Types(w));
  }

  /** So a ready keeps work conserved, whatever sends fail, exactly if the worker's capacity is used up, or
      no turn of the last round leaves anything. */
  lemma ReadyServedExactly(env: Env, s: State, w: Identity, capacity: int, types: seq<RequestType>, delay: int)
    requires Inv(s, Settled) && Distinct(types) && Enrols(s, w, capacity, types) && Served(s)
    ensures var pass := NewWorkerPass(env, Registered(s, w, capacity, types, delay), w, 0, false);
            var s' := HandleWorkerReady(env, s, w, capacity, types, delay);
            Served(s') <==> s'.FreeCapacity(w) <= 0 || !pass.1 || NoneLeft(env, pass.0, w, types)
  {
    hide Inv, Served, Distinct, HandleWorkerReady, NewWorkerPass, Leaves, NoneLeft, Dry;
    AvailableKnown(s, Settled);
    ReadyOthers(env, s, w, capacity, types, delay);
    ReadyLeaves(env, s, w, capacity, types, delay);
    var pass := NewWorkerPass(env, Registered(s, w, capacity, types, delay), w, 0, false);
    var s' := HandleWorkerReady(env, s, w, capacity, types, delay);
    if s'.FreeCapacity(w) > 0 {
      DryIff(env, pass.0, s', w, types, pass.1);
    }
  }

  lemma FinishedServedExactly(env: Env, s: State, w: Identity, k: Key)
    requires Inv(s, Settled) && FinishSafe(s, w, k) && w in s.workers && s.FreeCapacity(w) >= 0 && Served(s)
    ensures var pass := FinishPass(env, Freed(s, w, k), w, k, 0, false, false);
            var s2 := if pass.removed then pass.state else RemoveInProgress(pass.state, k);
            var s' := HandleWorkerFinished(env, s, w, k);
            Served(s') <==> s'.FreeCapacity(w) <= 0 || !pass.more || NoneLeft(env, s2, w, s.Types(w))
  {
    hide Inv, Served, Distinct, HandleWorkerFinished, FinishPass, Leaves, NoneLeft, Dry, RemoveInProgress, Freed, FinishSafe;
    FinishedOthers(env, s, w, k);
    FinishedLeaves(env, s, w, k);
    var pass := FinishPass(env, Freed(s, w, k), w, k, 0, false, false);
    var s2 := if pass.removed then pass.state else RemoveInProgress(pass.state, k);
    var s' := HandleWorkerFinished(env, s, w, k);
    if s'.FreeCapacity(w) > 0 {
      DryIff(env, s2, s', w, s.Types(w), pass.more);
      DryTypes(s', w);
    }
  }

  lemma DryTypes(s: State, w: Identity)
    ensures DryFrom(s, w, 0) <==> Dry(s, s.Types(w), |s.Types(w)|)
  {
  }

  /** In the last of the rounds that begin here no turn leaves anything. */
  ghost predicate NoneLeft(env: Env, s: State, w: Identity, types: seq<RequestType>) {
    forall j :: 0 <= j < |types| ==> !TurnLeaves(env, AtTurn(env, LastRound(env, s, w), w, 0, false, j), types[j])
  }

  lemma DryIff(env: Env, s: State, s': State, w: Identity, types: seq<RequestType>, rounds: bool)
    requires Leaves(env, s, s', w, types, rounds)
    ensures Dry(s', types, |types|) <==> !rounds || NoneLeft(env, s, w, types)
  {
    hide TurnLeaves, Tried, AtTurn, LastRound;
  }

  /** In particular, what a first pass failed to send does not stay behind: if requests and receipts get
      out from the end of the first pass on, nothing waits beside capacity. */
  lemma ReadyRetries(env: Env, s: State, w: Identity, capacity: int, types: seq<RequestType>, delay: int)
    requires Inv(s, Settled) && Distinct(types) && Enrols(s, w, capacity, types) && Served(s)
    requires var pass := NewWorkerPass(env, Registered(s, w, capacity, types, delay), w, 0, false);
             forall n :: n >= pass.0.sends ==> env.request(n) && env.receipt(n)
    ensures Served(HandleWorkerReady(env, s, w, capacity, types, delay))
  {
    hide Inv, Served, Distinct, HandleWorkerReady, NewWorkerPass, Leaves, NoneLeft;
    ReadyServedExactly(env, s, w, capacity, types, delay);
    ReadyLeaves(env, s, w, capacity, types, delay);
    var pass := NewWorkerPass(env, Registered(s, w, capacity, types, delay), w, 0, false);
    if HandleWorkerReady(env, s, w, capacity, types, delay).FreeCapacity(w) > 0 && pass.1 {
      SentNoneLeft(env, pass.0, HandleWorkerReady(env, s, w, capacity, types, delay), w, types);
    }
  }

  lemma FinishedRetries(env: Env, s: State, w: Identity, k: Key)
    requires Inv(s, Settled) && FinishSafe(s, w, k) && w in s.workers && s.FreeCapacity(w) >= 0 && Served(s)
    requires var pass := FinishPass(env, Freed(s, w, k), w, k, 0, false, false);
             forall n :: n >= pass.state.sends ==> env.request(n) && env.receipt(n)
    ensures Served(HandleWorkerFinished(env, s, w, k))
  {
    hide Inv, Served, Distinct, HandleWorkerFinished, FinishPass, Leaves, NoneLeft, Freed, FinishSafe;
    FinishedServedExactly(env, s, w, k);
    FinishedLeaves(env, s, w, k);
    var pass := FinishPass(env, Freed(s, w, k), w, k, 0, false, false);
    var s2 := if pass.removed then pass.state else RemoveInProgress(pass.state, k);
    assert s2.sends == pass.state.sends;
    hide RemoveInProgress;
    if HandleWorkerFinished(env, s, w, k).FreeCapacity(w) > 0 && pass.more {
      SentNoneLeft(env, s2, HandleWorkerFinished(env, s, w, k), w, s.Types(w));
    }
  }

  lemma SentNoneLeft(env: Env, s: State, s': State, w: Identity, types: seq<RequestType>)
    requires Leaves(env, s, s', w, types, true) && forall n :: n >= s.sends ==> env.request(n) && env.receipt(n)
    ensures NoneLeft(env, s, w, types)
  {
    hide AtTurn, LastRound, Tried;
    forall j | 0 <= j < |types|
      ensures !TurnLeaves(env, AtTurn(env, LastRound(env, s, w), w, 0, false, j), types[j])
    {
      var v := AtTurn(env, LastRound(env, s, w), w, 0, false, j);
      assert s.sends <= v.sends;
      assert env.request(v.sends) && env.receipt(v.sends + 1);
    }
  }
}

/** A whole pulse check: who outlives it, and what becomes of every request. */
module Pulses {
  import opened Wrappers
  import opened Cluster
  import opened RequestContexts
  import opened Scheduler
  import opened Agreement
  import opened Forwarding
  import opened Requests
  import opened Deaths
  import opened Safety
  import opened Stranding

  // ----- who outlives a check -----

  /** The worker a direct retry of this request is handed to, if one is and gets out. */
  function SettleTakers(env: Env, s: State, k: Key): set<Identity> {
    if s.Known(k) && Retryable(s.Request(k)) && s.Available(k.kind) != {} && env.request(s.sends) then
      {env.pick(s.sends, s.Available(k.kind))} * s.workers.Keys
    else {}
  }

  /** The workers direct retries are handed to when these requests are settled in this order. */
  function SettleAllTakers(env: Env, s: State, w: Identity, t: RequestType, ids: seq<RequestId>): set<Identity>
    decreases |ids|
  {
    if ids == [] then {}
    else
      SettleTakers(env, s, Key(t, ids[0])) + SettleAllTakers(env, Settle(env, s, w, Key(t, ids[0])), w, t, ids[1..])
  }

  /** When a worker dies, from its i-th type on. */
  function DeadTakers(env: Env, s: State, w: Identity, i: nat): set<Identity>
    decreases |s.Types(w)| - i
  {
    if i >= |s.Types(w)| then {}
    else
      var t := s.Types(w)[i];
      if t !in s.contexts then DeadTakers(env, s, w, i + 1)
      else
        var ids := env.order(s.At(), w, t, HeldIds(s, w, t));
        SettleAllTakers(env, Leave(s, w, t), w, t, ids)
        + DeadTakers(env, SettleAll(env, Leave(s, w, t), w, t, ids), w, i + 1)
  }

  /** When these workers are checked in this order. */
  function PulseTakers(env: Env, s: State, ws: seq<Identity>, deathDelay: int): set<Identity>
    decreases |ws|
  {
    if ws == [] then {}
    else if ws[0] !in s.workers || s.workers[ws[0]].IsAliveAsOf(s.now, deathDelay) then
      PulseTakers(env, s, ws[1..], deathDelay)
    else
      DeadTakers(env, s, ws[0], 0)
      + PulseTakers(env, RemoveWorker(DeadWorker(env, s, ws[0], 0), ws[0]), ws[1..], deathDelay)
  }

  function LastActive(s: State, v: Identity): int {
    if v in s.workers then s.workers[v].workerLastActive else 0
  }

  /** Exactly the takers, `w` not among them, now pass for heard of. */
  ghost predicate Roused(s: State, s': State, takers: set<Identity>, w: Identity) {
    && s'.now == s.now && s'.workers.Keys == s.workers.Keys
    && w !in takers && takers <= s.workers.Keys
    && (forall v :: v in s.workers ==> LastActive(s', v) == if v in takers then s.now else LastActive(s, v))
    && (forall v :: v in s.workers ==> s'.workers[v].heartbeatSendDelay == s.workers[v].heartbeatSendDelay)
  }

  lemma RousedTwice(s: State, s1: State, s2: State, xs: set<Identity>, ys: set<Identity>, w: Identity)
    requires Roused(s, s1, xs, w) && Roused(s1, s2, ys, w)
    ensures Roused(s, s2, xs + ys, w)
  {
  }

  lemma NoneRoused(s: State, s': State, w: Identity)
    requires s'.now == s.now && s'.workers == s.workers
    ensures Roused(s, s', {}, w)
  {
  }

  lemma DirectRouses(env: Env, s: State, w: Identity, to: Identity, k: Key)
    requires s.Known(k) && to != w && to in s.workers
    ensures var msg := s.Request(k).msg.GetOr([]);
            Roused(s, ForwardDirect(env, s, to, k, s.Request(k).vfs, msg, Move(k, w, to, msg)).state,
                   if env.request(s.sends) then {to} else {}, w)
  {
    var r := s.Request(k);
    var msg := r.msg.GetOr([]);
    if env.request(s.sends) {
      ForwardDirectIs(env, s, to, k, r.vfs, msg, Move(k, w, to, msg));
      hide ForwardDirect;
    }
  }

  lemma WithdrawRouses(s: State, v: Identity, n: nat, w: Identity)
    ensures Roused(s, Withdraw(s, v, n), {}, w)
  {
    WithdrawNow(s, v, n);
    hide Withdraw;
    NoneRoused(s, Withdraw(s, v, n), w);
  }

  lemma {:induction false} WithdrawNow(s: State, v: Identity, n: nat)
    ensures Withdraw(s, v, n).now == s.now
  {
    if n != 0 && n <= |s.Types(v)| {
      WithdrawNow(s, v, n - 1);
    }
  }

  /** Settling a dead worker's request rouses the worker it is handed to, and nobody else. */
  lemma SettleRouses(env: Env, s: State, w: Identity, k: Key)
    requires Fair(env) && w !in s.Available(k.kind)
    ensures Roused(s, Settle(env, s, w, k), SettleTakers(env, s, k), w)
  {
    if s.Known(k) && Retryable(s.Request(k)) && s.Available(k.kind) != {} {
      RetriedRouses(env, s, w, k);
    } else {
      hide Roused;
      NoneRoused(s, Settle(env, s, w, k), w);
    }
  }

  lemma RetriedRouses(env: Env, s: State, w: Identity, k: Key)
    requires Fair(env) && w !in s.Available(k.kind) && s.Available(k.kind) != {}
    requires s.Known(k) && Retryable(s.Request(k))
    ensures Roused(s, Settle(env, s, w, k), SettleTakers(env, s, k), w)
  {
    hide Roused, ForwardDirect, BackToPending, Withdraw;
    var r := s.Request(k);
    var to := env.pick(s.sends, s.Available(k.kind));
    assert to in s.Available(k.kind);
    var msg := r.msg.GetOr([]);
    var out := ForwardDirect(env, s, to, k, r.vfs, msg, Move(k, w, to, msg));
    var takers := SettleTakers(env, s, k);
    if to in s.workers {
      DirectRouses(env, s, w, to, k);
    } else {
      UnknownRefused(env, s, to, k, r.vfs, msg, Move(k, w, to, msg));
      NoneRoused(s, out.state, w);
    }
    assert takers == if to in s.workers && env.request(s.sends) then {to} else {};
    assert Roused(s, out.state, takers, w);
    var s2 := Settle(env, s, w, k);
    if !out.ok {
      var actions := if env.request(s.sends) then [] else [Requeue(k, w)];
      BackRouses(out.state, k, w, actions);
    } else {
      WithdrawRouses(out.state, to, |out.state.Types(to)|, w);
      NoneRoused(out.state, out.state, w);
    }
    assert Roused(out.state, s2, {}, w);
    RousedTwice(s, out.state, s2, takers, {}, w);
    assert takers + {} == takers;
  }

  lemma UnknownRefused(env: Env, s: State, to: Identity, k: Key, vfs: VersionFlags, msg: Message, x: Action)
    requires to !in s.workers
    ensures ForwardDirect(env, s, to, k, vfs, msg, x) == Sent(s, false)
  {
  }

  lemma BackRouses(s: State, k: Key, w: Identity, actions: seq<Action>)
    ensures Roused(s, BackToPending(s, k, actions), {}, w)
  {
  }

  /** Settling requests makes nobody available. */
  lemma SettleAvailable(env: Env, s: State, w: Identity, k: Key, t: RequestType)
    requires Fair(env) && w !in s.Available(k.kind)
    ensures Settle(env, s, w, k).Available(t) <= s.Available(t)
  {
    if s.Known(k) {
      SettleAside(env, s, w, k);
    }
  }

  lemma {:induction false} SettleAllRouses(env: Env, s: State, w: Identity, t: RequestType, ids: seq<RequestId>)
    requires Fair(env) && w !in s.Available(t)
    ensures Roused(s, SettleAll(env, s, w, t, ids), SettleAllTakers(env, s, w, t, ids), w)
    decreases |ids|
  {
    hide Roused, Settle, Fair, SettleTakers;
    if ids == [] {
      NoneRoused(s, s, w);
    } else {
      var k := Key(t, ids[0]);
      var s1 := Settle(env, s, w, k);
      SettleRouses(env, s, w, k);
      SettleAvailable(env, s, w, k, t);
      SettleAllRouses(env, s1, w, t, ids[1..]);
      RousedTwice(s, s1, SettleAll(env, s1, w, t, ids[1..]), SettleTakers(env, s, k),
                  SettleAllTakers(env, s1, w, t, ids[1..]), w);
    }
  }

  lemma {:induction false} DeadWorkerRouses(env: Env, s: State, w: Identity, i: nat)
    requires Fair(env)
    ensures Roused(s, DeadWorker(env, s, w, i), DeadTakers(env, s, w, i), w)
    decreases |s.Types(w)| - i
  {
    hide Roused, SettleAll, SettleAllTakers, Fair;
    if i >= |s.Types(w)| {
      NoneRoused(s, s, w);
    } else if s.Types(w)[i] !in s.contexts {
      DeadWorkerRouses(env, s, w, i + 1);
    } else {
      var t := s.Types(w)[i];
      var s1 := Leave(s, w, t);
      var ids := env.order(s.At(), w, t, HeldIds(s, w, t));
      var s2 := SettleAll(env, s1, w, t, ids);
      NoneRoused(s, s1, w);
      var takers := SettleAllTakers(env, s1, w, t, ids);
      SettleAllRouses(env, s1, w, t, ids);
      RousedTwice(s, s1, s2, {}, takers, w);
      assert {} + takers == takers;
      DeadWorkerRouses(env, s2, w, i + 1);
      RousedTwice(s, s2, DeadWorker(env, s2, w, i + 1), takers, DeadTakers(env, s2, w, i + 1), w);
    }
  }

  predicate AliveIn(s: State, v: Identity, deathDelay: int) {
    v in s.workers && s.workers[v].IsAliveAsOf(s.now, deathDelay)
  }

  /** Of these workers exactly the live ones and the takers are left, all others are, and the takers
      pass for heard of. */
  ghost predicate Outlived(s: State, s': State, takers: set<Identity>, ws: seq<Identity>, deathDelay: int) {
    && s'.now == s.now && takers <= s.workers.Keys
    && (forall v :: v in s'.workers <==>
          v in s.workers && (v in ws ==> AliveIn(s, v, deathDelay) || v in takers))
    && (forall v :: v in s'.workers ==> LastActive(s', v) == if v in takers then s.now else LastActive(s, v))
    && (forall v :: v in s'.workers ==> s'.workers[v].heartbeatSendDelay == s.workers[v].heartbeatSendDelay)
  }

  lemma {:induction false} PulseOutlived(env: Env, s: State, ws: seq<Identity>, deathDelay: int)
    requires Fair(env) && Distinct(ws) && deathDelay > 0
    ensures Outlived(s, PulseFrom(env, s, ws, deathDelay), PulseTakers(env, s, ws, deathDelay), ws, deathDelay)
    decreases |ws|
  {
    hide Outlived, DeadWorker, DeadTakers, Fair;
    if ws == [] {
      NobodyChecked(s, ws, deathDelay);
    } else {
      assert ws == [ws[0]] + ws[1..] && ws[0] !in ws[1..];
      assert Distinct(ws[1..]);
      if ws[0] !in s.workers || s.workers[ws[0]].IsAliveAsOf(s.now, deathDelay) {
        PulseOutlived(env, s, ws[1..], deathDelay);
        AliveOutlives(s, PulseFrom(env, s, ws, deathDelay), PulseTakers(env, s, ws, deathDelay), ws, deathDelay);
      } else {
        var s1 := DeadWorker(env, s, ws[0], 0);
        var s2 := RemoveWorker(s1, ws[0]);
        DeadWorkerRouses(env, s, ws[0], 0);
        PulseOutlived(env, s2, ws[1..], deathDelay);
        DeadOutlived(s, s1, PulseFrom(env, s, ws, deathDelay), DeadTakers(env, s, ws[0], 0),
                     PulseTakers(env, s2, ws[1..], deathDelay), ws, deathDelay);
      }
    }
  }

  lemma NobodyChecked(s: State, ws: seq<Identity>, deathDelay: int)
    requires ws == []
    ensures Outlived(s, s, {}, ws, deathDelay)
  {
  }

  lemma AliveOutlives(s: State, s': State, takers: set<Identity>, ws: seq<Identity>, deathDelay: int)
    requires ws != [] && Outlived(s, s', takers, ws[1..], deathDelay) && ws[0] !in ws[1..]
    requires ws[0] !in s.workers || AliveIn(s, ws[0], deathDelay)
    ensures Outlived(s, s', takers, ws, deathDelay)
  {
    assert ws == [ws[0]] + ws[1..];
  }

  lemma DeadOutlived(
    s: State, s1: State, s': State, xs: set<Identity>, ys: set<Identity>, ws: seq<Identity>, deathDelay: int)
    requires ws != [] && ws[0] !in ws[1..] && ws[0] in s.workers && deathDelay > 0
    requires !AliveIn(s, ws[0], deathDelay) && Roused(s, s1, xs, ws[0])
    requires Outlived(RemoveWorker(s1, ws[0]), s', ys, ws[1..], deathDelay)
    ensures Outlived(s, s', xs + ys, ws, deathDelay)
  {
    var s2 := RemoveWorker(s1, ws[0]);
    assert ws == [ws[0]] + ws[1..];
    forall v | v in s2.workers
      ensures AliveIn(s2, v, deathDelay) <==> AliveIn(s, v, deathDelay) || v in xs
      ensures LastActive(s2, v) == LastActive(s1, v)
    {
      assert LastActive(s1, v) == if v in xs then s.now else LastActive(s, v);
    }
  }

  /** A pulse check leaves exactly the workers heard of in time and those a direct retry is handed to
      on its way, heard of or not; all it leaves pass for alive. */
  lemma PulseSurvivorsIff(env: Env, s: State, deathDelay: int)
    requires Fair(env) && deathDelay > 0
    ensures var s' := CheckWorkersPulse(env, s, deathDelay);
            var takers := PulseTakers(env, s, env.roster(s.At(), s.workers.Keys), deathDelay);
            && (forall v :: v in s'.workers <==> v in s.workers && (AliveIn(s, v, deathDelay) || v in takers))
            && (forall v :: v in s'.workers ==> AliveIn(s', v, deathDelay))
  {
    var ws := env.roster(s.At(), s.workers.Keys);
    assert Lists(ws, s.workers.Keys);
    var takers := PulseTakers(env, s, ws, deathDelay);
    PulseOutlived(env, s, ws, deathDelay);
    var s' := CheckWorkersPulse(env, s, deathDelay);
    hide PulseFrom, CheckWorkersPulse, PulseTakers;
    forall v | v in s'.workers
      ensures AliveIn(s', v, deathDelay)
    {
      assert LastActive(s', v) == if v in takers then s.now else LastActive(s, v);
    }
  }

  // ----- what becomes of the requests -----

  /** Held by a worker that has been removed. */
  ghost predicate Orphaned(s: State, s': State, k: Key) {
    exists w :: w in s.workers && w !in s'.workers && k in s.Held(w)
  }

  /** The one thing that becomes of an orphaned request, by the flags and count it had: it waits again
      or a registered worker has it, counted as before; or it is left in progress nowhere, its record
      as it was; or it is gone. */
  ghost predicate Settles(r: RequestState, s': State, k: Key) {
    if Retryable(r) then
      && s'.Known(k) && s'.Request(k).tryCount == r.tryCount
      && (s'.Request(k).vfs == r.vfs || s'.Request(k).vfs == r.vfs.Without(ReceiptOnSend))
      && (s'.Request(k).place.Queued? || exists v :: v in s'.workers && k in s'.Held(v))
    else if Abandoned(r) then
      s'.Known(k) && s'.Request(k) == r && Stranded(s', k)
    else
      !s'.Known(k) && exists w :: LastOf(s'.log, k) == Some(Fail(k, w, NoticeOf(r, NotifyOnDeath)))
  }

  ghost predicate Untouched(s: State, s': State, k: Key) {
    && (s'.Known(k) <==> s.Known(k)) && (s.Known(k) ==> s'.Request(k) == s.Request(k))
    && (forall v :: v in s'.workers ==> (k in s'.Held(v) <==> k in s.Held(v)))
    && LastOf(s'.log, k) == LastOf(s.log, k)
  }

  ghost predicate Passed(s: State, s': State, k: Key) {
    if Orphaned(s, s', k) then s.Known(k) && Settles(s.Request(k), s', k) else Untouched(s, s', k)
  }

  lemma DeathPasses(env: Env, s: State, w: Identity, k: Key)
    requires Fair(env) && DeadSafe(env, s, w, 0) && Inv(s, Settled) && w in s.workers
    ensures Passed(s, RemoveWorker(DeadWorker(env, s, w, 0), w), k)
  {
    hide Inv, DeadSafe, Stranded, LeftUpTo;
    var s1 := DeadWorker(env, s, w, 0);
    DeathBegins(s, w);
    DeadWorkerAgrees(env, s, w, 0);
    DeadWorkerNewly(env, s, w, 0);
    DeathStrandsIff(env, s, w, k);
    if k in s.Held(w) {
      HeldIsAssigned(s, w, k);
      FateRemoved(s.Request(k), s1, w, k);
    }
    hide DeadWorker, Fair;
    OneDeathPasses(s, s1, w, k);
  }

  lemma OneDeathPasses(s: State, s1: State, w: Identity, k: Key)
    requires w in s.workers && Aside(s, s1, w, s.Held(w)) && Newly(s, s1, s.Held(w))
    requires k in s.Held(w) ==> s.Known(k) && Fate(s.Request(k), RemoveWorker(s1, w), w, k)
    requires Stranded(RemoveWorker(s1, w), k) <==>
               Stranded(s, k) || (k in s.Held(w) && s.Known(k) && Abandoned(s.Request(k)))
    ensures Passed(s, RemoveWorker(s1, w), k)
  {
    hide Stranded;
    var s' := RemoveWorker(s1, w);
    forall v | v != w
      ensures s'.Held(v) == s1.Held(v)
    {
    }
    if k in s.Held(w) {
      assert Orphaned(s, s', k);
      if Retryable(s.Request(k)) && !s'.Request(k).place.Queued? {
        var v :| v != w && v in s'.workers && k in s'.workers[v].held;
        assert k in s'.Held(v);
      }
    } else {
      assert !Orphaned(s, s', k);
      forall v | v in s'.workers
        ensures k in s'.Held(v) <==> k in s.Held(v)
      {
        assert s.Held(v) <= s1.Held(v);
      }
    }
  }

  lemma UnknownUnheld(s: State, k: Key)
    requires Inv(s, Settled) && !s.Known(k)
    ensures forall v :: k !in s.Held(v)
  {
    forall v
      ensures k !in s.Held(v)
    {
      if k in s.Held(v) {
        HeldIsAssigned(s, v, k);
      }
    }
  }

  lemma PassedTwice(s: State, s1: State, s2: State, k: Key)
    requires Inv(s1, Settled) && s1.workers.Keys <= s.workers.Keys && s2.workers.Keys <= s1.workers.Keys
    requires Passed(s, s1, k) && Passed(s1, s2, k)
    ensures Passed(s, s2, k)
  {
    hide Inv;
    if Orphaned(s, s1, k) {
      assert Orphaned(s, s2, k);
      if !s1.Known(k) {
        UnknownUnheld(s1, k);
        assert !Orphaned(s1, s2, k);
      } else {
        hide Passed, Stranded, Orphaned;
        OrphanPasses(s.Request(k), s1, s2, k);
      }
    } else if Orphaned(s1, s2, k) {
      assert Orphaned(s, s2, k);
    } else {
      assert !Orphaned(s, s2, k);
    }
  }

  lemma OrphanPasses(r: RequestState, s1: State, s2: State, k: Key)
    requires Settles(r, s1, k) && s1.Known(k) && Passed(s1, s2, k)
    ensures Settles(r, s2, k)
  {
    if Retryable(r) {
      assert r.vfs.Without(ReceiptOnSend).Without(ReceiptOnSend) == r.vfs.Without(ReceiptOnSend);
      if !Orphaned(s1, s2, k) && !s1.Request(k).place.Queued? {
        var v :| v in s1.workers && k in s1.Held(v);
        assert v in s2.workers && k in s2.Held(v);
      }
    } else {
      assert !Orphaned(s1, s2, k);
    }
  }

  lemma PassedSame(s: State, k: Key)
    ensures Passed(s, s, k)
  {
  }

  lemma {:induction false} PulsePasses(env: Env, s: State, ws: seq<Identity>, deathDelay: int, k: Key)
    requires Fair(env) && PulseSafe(env, s, ws, deathDelay) && Inv(s, Settled)
    ensures var s' := PulseFrom(env, s, ws, deathDelay);
            Passed(s, s', k) && s'.workers.Keys <= s.workers.Keys
    decreases |ws|
  {
    hide Inv, Fate, DeadSafe, DeadWorker, Passed, Fair;
    if ws == [] {
      PassedSame(s, k);
    } else if ws[0] !in s.workers || s.workers[ws[0]].IsAliveAsOf(s.now, deathDelay) {
      PulsePasses(env, s, ws[1..], deathDelay, k);
    } else {
      var s1 := RemoveWorker(DeadWorker(env, s, ws[0], 0), ws[0]);
      DeathAgrees(env, s, ws[0]);
      DeathPasses(env, s, ws[0], k);
      PulsePasses(env, s1, ws[1..], deathDelay, k);
      PassedTwice(s, s1, PulseFrom(env, s1, ws[1..], deathDelay), k);
    }
  }

  /** After a pulse check that removes any number of workers, in any order, each request one of them
      held has met the one fate its flags and count decide, also if it went to a worker that was itself
      removed later on; every other request has the record and the holder it had; and the tables agree,
      so that no list, no set and no worker refers to what is gone. */
  lemma PulseSettles(env: Env, s: State, deathDelay: int)
    requires Fair(env) && Inv(s, Settled) && Sound(env, s, Pulse(deathDelay))
    ensures var s' := CheckWorkersPulse(env, s, deathDelay);
            Inv(s', Settled) && s'.workers.Keys <= s.workers.Keys && forall k :: Passed(s, s', k)
  {
    var ws := env.roster(s.At(), s.workers.Keys);
    PulseAgrees(env, s, ws, deathDelay);
    PulsePasses(env, s, ws, deathDelay, Key(0, 0));
    forall k
      ensures Passed(s, CheckWorkersPulse(env, s, deathDelay), k)
    {
      PulsePasses(env, s, ws, deathDelay, k);
    }
  }
}

/** Runs of the code on which the stated intent fails. */
module Counterexamples {
  import opened Wrappers
  import opened Cluster
  import opened RequestContexts
  import opened Scheduler
  import opened AbstractScheduler
  import opened Agreement
  import opened Forwarding
  import opened Requests
  import opened Workers
  import opened Deaths
  import opened Safety
  import opened RoundRobin
  import opened Conservation
  import opened Stranding

  const V1 := Version(1, 0)
  const RETRY := VersionFlags(V1, {RetryOnDeath, AllowRedirect})
  const K := Key(0, 0)

  /** The broker's death delay when its heartbeat delay is one second. */
  const DELAY := 2
  const MSG: Message := [[7], [], [1], [2], [3]]

  lemma RunOn(env: Env, events: seq<Event>, e: Event)
    ensures Run(env, Start0, events + [e]) == Step(env, Run(env, Start0, events), e)
    ensures SoundRun(env, Start0, events + [e]) <==>
              SoundRun(env, Start0, events) && Sound(env, Run(env, Start0, events), e)
  {
    assert (events + [e])[..|events + [e]| - 1] == events;
  }

  lemma RunNothing(env: Env)
    ensures Run(env, Start0, []) == Start0 && SoundRun(env, Start0, [])
  {
  }

  lemma PulseAlwaysSound(env: Env, s: State, deathDelay: int)
    requires ReceiptsSent(env)
    ensures Sound(env, s, Pulse(deathDelay))
  {
    PulseCovered(env, s, env.roster(s.At(), s.workers.Keys), deathDelay);
  }

  // ----- an exhausted worker stays available -----

  /** Two requests of one type and one of another wait for a worker that can take three at a time. */
  const QUEUED: seq<Event> :=
    [] + [Ask(Key(0, 0), RETRY, MSG)] + [Ask(Key(0, 1), RETRY, MSG)] + [Ask(Key(1, 0), RETRY, MSG)]

  lemma QueuedRun(env: Env)
    ensures var s := Run(env, Start0, QUEUED);
            && s.workers == map[] && s.Available(0) == {} && s.Available(1) == {}
            && s.contexts.Keys == {0, 1} && |s.Pending(0)| == 2 && |s.Pending(1)| == 1
            && SoundRun(env, Start0, QUEUED)
  {
    hide Run, SoundRun;
    var one := [] + [Ask(Key(0, 0), RETRY, MSG)];
    var two := one + [Ask(Key(0, 1), RETRY, MSG)];
    RunOn(env, [], Ask(Key(0, 0), RETRY, MSG));
    RunOn(env, one, Ask(Key(0, 1), RETRY, MSG));
    RunOn(env, two, Ask(Key(1, 0), RETRY, MSG));
    RunNothing(env);
    var s1 := Run(env, Start0, one);
    assert s1.workers == map[] && s1.contexts.Keys == {0} && s1.Available(0) == {} && |s1.Pending(0)| == 1;
    assert s1.contexts[0].requests.Keys == {0};
    TwoQueued(env, s1);
  }

  lemma TwoQueued(env: Env, s: State)
    requires s.workers == map[] && s.contexts.Keys == {0} && s.contexts[0].requests.Keys == {0}
    requires s.Available(0) == {} && |s.Pending(0)| == 1
    ensures var s1 := Step(env, s, Ask(Key(0, 1), RETRY, MSG));
            var s2 := Step(env, s1, Ask(Key(1, 0), RETRY, MSG));
            && Sound(env, s, Ask(Key(0, 1), RETRY, MSG)) && Sound(env, s1, Ask(Key(1, 0), RETRY, MSG))
            && s2.workers == map[] && s2.Available(0) == {} && s2.Available(1) == {}
            && s2.contexts.Keys == {0, 1} && |s2.Pending(0)| == 2 && |s2.Pending(1)| == 1
  {
  }

  /** The worker gets all three, in the second round at the first type, and stays in the second
      type's set with no capacity left. */
  lemma ExhaustedYetAvailable(env: Env, w: Identity)
    requires Fair(env) && AllSent(env)
    ensures var s := HandleWorkerReady(env, Run(env, Start0, QUEUED), w, 3, [0, 1], 1);
            w in s.Available(1) && s.FreeCapacity(w) == 0
  {
    var s := Run(env, Start0, QUEUED);
    QueuedRun(env);
    RunAgrees(env, QUEUED);
    hide Inv, Run;
    var ps := Counts(s, [0, 1]);
    assert ps == [2, 1];
    assert Total([2, 1], 1, 1) == 3 by {
      assert [2, 1][1..] == [1] && [1][1..] == [];
    }
    assert RunsOutAt(3, ps, 1, 0);
    ReadyCovered(env, s, w, 3, [0, 1], 1);
    hide HandleWorkerReady, ReadySpoils, ReadyForgets, ReadyOverruns, DealEnds, AllSent;
    var r, i, lo, hi := ReadyDeals(env, s, w, 3, [0, 1], 1);
    var s' := HandleWorkerReady(env, s, w, 3, [0, 1], 1);
    DealStops(s, s', w, 3, [0, 1], r, i, lo, hi, false, false);
    StoppedAtFirst(s, s', w, r, i, lo, hi);
  }

  lemma StoppedAtFirst(s: State, s': State, w: Identity, r: nat, i: nat, lo: nat, hi: nat)
    requires DealEnds(s, s', w, 3, [0, 1], r, i, lo, hi, false, false)
    requires s'.FreeCapacity(w) <= 0 && r > 0 && i < 2
    ensures w in s'.Available(1) && s'.FreeCapacity(w) == 0
  {
    hide Inv;
    assert [0, 1][1] == 1;
  }

  // ----- a request handed over again and again -----

  /** Two workers take turns: whenever one dies the other has just become ready. */
  function Turn(n: nat): Identity {
    if n % 2 == 0 then [1] else [2]
  }

  function Relay(n: nat): seq<Event> {
    if n == 0 then [] + [Ready(Turn(0), 1, [0], 1)] + [Ask(K, RETRY, MSG)]
    else Relay(n - 1) + [Tick(n * DELAY)] + [Ready(Turn(n), 1, [0], 1)] + [Pulse(DELAY)]
  }

  /** One worker, last heard of now, holds the one request there is; it was counted once. */
  ghost predicate Carrying(s: State, w: Identity, at: int) {
    && s.now == at && s.workers.Keys == {w} && s.contexts.Keys == {0}
    && s.workers[w].types == [0] && s.workers[w].held == {K} && s.workers[w].workerLastActive == at
    && s.workers[w].freeCapacity == 0
    && var c := s.contexts[0];
       && c.available == {} && c.pending == [] && c.requests.Keys == {0}
       && c.requests[0].vfs == RETRY && c.requests[0].tryCount == 1
  }

  /** The same with another worker registered, available for the request's type. */
  ghost predicate Waiting2(s: State, w: Identity, other: Identity) {
    && other != w && s.workers.Keys == {w, other} && s.contexts.Keys == {0}
    && s.workers[w].types == [0] && s.workers[w].held == {K}
    && s.workers[other].types == [0] && s.workers[other].held == {} && s.workers[other].freeCapacity == 1
    && var c := s.contexts[0];
       && c.available == {other} && c.pending == [] && c.requests.Keys == {0}
       && c.requests[0].vfs == RETRY && c.requests[0].tryCount == 1
  }

  lemma ReadyWaits(env: Env, s: State, w: Identity, other: Identity, at: int)
    requires Carrying(s, w, at) && other != w
    ensures var s1 := HandleWorkerReady(env, s.(now := at + DELAY), other, 1, [0], 1);
            && Waiting2(s1, w, other) && s1.log == s.log && s1.now == at + DELAY
            && s1.workers[w].workerLastActive == at && s1.workers[other].workerLastActive == at + DELAY
            && s1.Request(K) == s.Request(K)
  {
    var s0 := s.(now := at + DELAY).WithWorker(other, Info(1, [0], {}, at + DELAY, at + DELAY, 1, 1, 0));
    var v := NewWorkerVisit(env, s0, other, 0, false);
    assert v.state == s0.WithContext(0, s.contexts[0].IncrementNumWorkers().AddAvailableWorker(other));
    assert NewWorkerPass(env, s0, other, 0, false) == NewWorkerPass(env, v.state, other, 1, v.more);
    assert NewWorkerPass(env, v.state, other, 1, v.more) == (v.state, false);
  }

  lemma OnlyOne(env: Env, at: Moment, w: Identity, t: RequestType)
    requires Fair(env)
    ensures env.order(at, w, t, {0}) == [0]
  {
    var ids := env.order(at, w, t, {0});
    assert Lists(ids, {0});
    ListsLength(ids, {0});
    assert ids[0] in ids;
  }

  lemma {:induction false} ListsLength<T(!new)>(xs: seq<T>, all: set<T>)
    requires Lists(xs, all)
    ensures |xs| == |all|
  {
    if xs == [] {
      assert all == {};
    } else {
      var rest := all - {xs[0]};
      assert xs[0] in xs;
      forall x
        ensures x in xs[1..] <==> x in rest
      {
        assert xs == [xs[0]] + xs[1..];
      }
      ListsLength(xs[1..], rest);
    }
  }

  lemma WaitingDies(env: Env, s: State, w: Identity, other: Identity)
    requires Fair(env) && AllSent(env) && Waiting2(s, w, other)
    ensures var s1 := RemoveWorker(DeadWorker(env, s, w, 0), w);
            && Carrying(s1, other, s.now)
            && s1.log == s.log + [Move(K, w, other, s.Request(K).msg.GetOr([]))]
  {
    var c := s.contexts[0].DecrementNumWorkers().RemoveAvailableWorker(w);
    var s1 := s.WithContext(0, c);
    assert HeldIds(s1, w, 0) == {0} by {
      assert K in s1.Held(w);
    }
    OnlyOne(env, s1.At(), w, 0);
    hide Fair;
    SettlesOver(env, s1, w, other);
    var s2 := Settle(env, s1, w, K);
    assert SettleAll(env, s1, w, 0, [0]) == SettleAll(env, s2, w, 0, []) by {
      assert [0][1..] == [];
    }
    hide Settle;
    assert DeadWorker(env, s, w, 0) == DeadWorker(env, s2, w, 1) == s2;
  }

  lemma SettlesOver(env: Env, s: State, w: Identity, other: Identity)
    requires (forall n, ws :: ws != {} ==> env.pick(n, ws) in ws) && AllSent(env) && Waiting2(s, w, other)
    ensures var s2 := Settle(env, s, w, K);
            && s2.workers.Keys == s.workers.Keys && s2.Types(w) == [0] && s2.now == s.now
            && Carrying(RemoveWorker(s2, w), other, s.now)
            && s2.log == s.log + [Move(K, w, other, s.Request(K).msg.GetOr([]))]
  {
    var r := s.Request(K);
    var msg := r.msg.GetOr([]);
    assert env.pick(s.sends, {other}) == other;
    ForwardDirectIs(env, s, other, K, r.vfs, msg, Move(K, w, other, msg));
    var out := ForwardDirect(env, s, other, K, r.vfs, msg, Move(K, w, other, msg));
    assert Settle(env, s, w, K) == WithdrawIfExhausted(out.state, other);
    hide ForwardDirect, Settle;
    assert out.state.Types(other) == [0] && out.state.FreeCapacity(other) == 0;
    assert Withdraw(out.state, other, 1) == RemoveAvailable(Withdraw(out.state, other, 0), 0, other);
  }

  lemma TwoListed(env: Env, at: Moment, w: Identity, other: Identity)
    requires Fair(env) && w != other
    ensures env.roster(at, {w, other}) == [w, other] || env.roster(at, {w, other}) == [other, w]
  {
    var ws := env.roster(at, {w, other});
    assert Lists(ws, {w, other});
    ListsLength(ws, {w, other});
    assert ws[0] in ws && ws[1] in ws;
  }

  /** A pulse check finds the holder dead and the other worker alive, in whichever order it looks. */
  lemma PulseRelays(env: Env, s: State, w: Identity, other: Identity)
    requires Fair(env) && AllSent(env) && Waiting2(s, w, other)
    requires s.workers[w].workerLastActive == s.now - DELAY && s.workers[other].workerLastActive == s.now
    ensures CheckWorkersPulse(env, s, DELAY) == RemoveWorker(DeadWorker(env, s, w, 0), w)
  {
    var ws := env.roster(s.At(), s.workers.Keys);
    assert s.workers.Keys == {w, other};
    TwoListed(env, s.At(), w, other);
    WaitingDies(env, s, w, other);
    hide Fair, DeadWorker;
    var s1 := RemoveWorker(DeadWorker(env, s, w, 0), w);
    if ws == [w, other] {
      assert ws[1..] == [other] && [other][1..] == [];
      assert PulseFrom(env, s, ws, DELAY) == PulseFrom(env, s1, [other], DELAY);
      assert PulseFrom(env, s1, [other], DELAY) == PulseFrom(env, s1, [], DELAY);
    } else {
      assert ws[1..] == [w] && [w][1..] == [];
      assert PulseFrom(env, s, ws, DELAY) == PulseFrom(env, s, [w], DELAY);
      assert PulseFrom(env, s, [w], DELAY) == PulseFrom(env, s1, [], DELAY);
    }
  }

  lemma FirstCarries(env: Env)
    requires Fair(env) && RequestsSent(env)
    ensures var s := Run(env, Start0, Relay(0));
            && Carrying(s, Turn(0), 0) && SoundRun(env, Start0, Relay(0))
            && s.log == [Start(K, RETRY, MSG, Turn(0))]
  {
    hide Run, SoundRun;
    var ready := Ready(Turn(0), 1, [0], 1);
    RunOn(env, [], ready);
    RunOn(env, [] + [ready], Ask(K, RETRY, MSG));
    RunNothing(env);
    FreshReady(env);
    var s := Step(env, Start0, ready);
    hide Step;
    FreshAsk(env, s);
  }

  lemma FreshReady(env: Env)
    ensures var s := HandleWorkerReady(env, Start0, Turn(0), 1, [0], 1);
            && s.workers == map[Turn(0) := Info(1, [0], {}, 0, 0, 1, 1, 0)] && s.log == [] && s.now == 0
            && s.contexts == map[0 := NewContext().IncrementNumWorkers().AddAvailableWorker(Turn(0))]
  {
    var w := Turn(0);
    var s0 := Start0.WithWorker(w, Info(1, [0], {}, 0, 0, 1, 1, 0));
    var v := NewWorkerVisit(env, s0, w, 0, false);
    assert v.state == s0.WithContext(0, NewContext().IncrementNumWorkers().AddAvailableWorker(w));
    assert NewWorkerPass(env, s0, w, 0, false) == NewWorkerPass(env, v.state, w, 1, v.more);
    assert NewWorkerPass(env, v.state, w, 1, v.more) == (v.state, false);
  }

  lemma FreshAsk(env: Env, s: State)
    requires (forall n, ws :: ws != {} ==> env.pick(n, ws) in ws) && RequestsSent(env)
    requires s.workers == map[Turn(0) := Info(1, [0], {}, 0, 0, 1, 1, 0)] && s.log == [] && s.now == 0
    requires s.contexts == map[0 := NewContext().IncrementNumWorkers().AddAvailableWorker(Turn(0))]
    ensures var s1 := Step(env, s, Ask(K, RETRY, MSG));
            Carrying(s1, Turn(0), 0) && s1.log == [Start(K, RETRY, MSG, Turn(0))]
    ensures Sound(env, s, Ask(K, RETRY, MSG))
  {
    var w := Turn(0);
    assert env.pick(s.sends, {w}) == w;
    ForwardDirectIs(env, s, w, K, RETRY, MSG, Start(K, RETRY, MSG, w));
    var out := ForwardDirect(env, s, w, K, RETRY, MSG, Start(K, RETRY, MSG, w));
    assert Step(env, s, Ask(K, RETRY, MSG)) == WithdrawIfExhausted(out.state, w);
    hide ForwardDirect, ClientRequest;
    assert out.state.Types(w) == [0] && out.state.FreeCapacity(w) == 0;
    assert Withdraw(out.state, w, 1) == RemoveAvailable(Withdraw(out.state, w, 0), 0, w);
  }

  /** A worker becomes ready, and a check finds that nothing else has been heard of since. */
  function Relayed(env: Env, s: State, w: Identity, at: int): State {
    Step(env, Step(env, Step(env, s, Tick(at)), Ready(w, 1, [0], 1)), Pulse(DELAY))
  }

  lemma RelayStep(env: Env, s: State, w: Identity, other: Identity, at: int)
    requires Fair(env) && AllSent(env) && other != w && Carrying(s, w, at)
    ensures Carrying(Relayed(env, s, other, at + DELAY), other, at + DELAY)
    ensures Relayed(env, s, other, at + DELAY).log == s.log + [Move(K, w, other, s.Request(K).msg.GetOr([]))]
  {
    ReadyWaits(env, s, w, other, at);
    var s2 := HandleWorkerReady(env, s.(now := at + DELAY), other, 1, [0], 1);
    assert Relayed(env, s, other, at + DELAY) == CheckWorkersPulse(env, s2, DELAY);
    hide Relayed, HandleWorkerReady, CheckWorkersPulse, DeadWorker, Carrying;
    PulseRelays(env, s2, w, other);
    WaitingDies(env, s2, w, other);
  }

  /** After `n` deaths of its holder the request has gone out `n + 1` times and been counted once. */
  ghost predicate HandedOver(s: State, n: nat) {
    && Carrying(s, Turn(n), n * DELAY)
    && Replay(s.log).Some? && K in Replay(s.log).value.jobs
    && Replay(s.log).value.jobs[K].dispatches == n + 1
  }

  /** However often it has been handed over, a request that asked for retries can be handed over
      once more: a direct retry is not counted, so the bound on tries does not bound them. */
  lemma {:induction false} RetriesUnbounded(env: Env, n: nat)
    requires Fair(env) && AllSent(env)
    ensures SoundRun(env, Start0, Relay(n)) && HandedOver(Run(env, Start0, Relay(n)), n)
  {
    hide HandedOver, Relayed, Run, SoundRun;
    if n == 0 {
      FirstCarries(env);
      FirstHandedOver(Run(env, Start0, Relay(0)));
    } else {
      RetriesUnbounded(env, n - 1);
      RelayRun(env, n);
      RunIsLegal(env, Relay(n));
      HandedOverAgain(env, Run(env, Start0, Relay(n - 1)), n);
    }
  }

  lemma FirstHandedOver(s: State)
    requires Carrying(s, Turn(0), 0) && s.log == [Start(K, RETRY, MSG, Turn(0))]
    ensures HandedOver(s, 0)
  {
    var x := Start(K, RETRY, MSG, Turn(0));
    assert [] + [x] == [x];
    ReplayOne([], x);
  }

  lemma HandedOverAgain(env: Env, s: State, n: nat)
    requires Fair(env) && AllSent(env) && n >= 1 && HandedOver(s, n - 1)
    requires Replay(Relayed(env, s, Turn(n), n * DELAY).log).Some?
    ensures HandedOver(Relayed(env, s, Turn(n), n * DELAY), n)
  {
    hide Relayed, Replay;
    RelayStep(env, s, Turn(n - 1), Turn(n), (n - 1) * DELAY);
    var x := Move(K, Turn(n - 1), Turn(n), s.Request(K).msg.GetOr([]));
    OneMore(s, Relayed(env, s, Turn(n), n * DELAY), n, x);
  }

  lemma OneMore(s: State, s': State, n: nat, x: Action)
    requires n >= 1 && HandedOver(s, n - 1) && Carrying(s', Turn(n), n * DELAY)
    requires x.Move? && x.key == K && s'.log == s.log + [x] && Replay(s'.log).Some?
    ensures HandedOver(s', n)
  {
    hide Carrying;
    MoveCounted(s, s', x);
  }

  lemma RelayRun(env: Env, n: nat)
    requires AllSent(env) && n >= 1 && SoundRun(env, Start0, Relay(n - 1))
    ensures SoundRun(env, Start0, Relay(n))
    ensures Run(env, Start0, Relay(n)) == Relayed(env, Run(env, Start0, Relay(n - 1)), Turn(n), n * DELAY)
  {
    hide Run, SoundRun, Step, Relay, PulseSafe;
    RelayIs(n);
    var one := Relay(n - 1) + [Tick(n * DELAY)];
    var two := one + [Ready(Turn(n), 1, [0], 1)];
    RunOn(env, Relay(n - 1), Tick(n * DELAY));
    RunOn(env, one, Ready(Turn(n), 1, [0], 1));
    RunOn(env, two, Pulse(DELAY));
    PulseAlwaysSound(env, Run(env, Start0, two), DELAY);
  }

  lemma RelayIs(n: nat)
    requires n >= 1
    ensures Relay(n) == Relay(n - 1) + [Tick(n * DELAY)] + [Ready(Turn(n), 1, [0], 1)] + [Pulse(DELAY)]
  {
  }

  lemma RunIsLegal(env: Env, events: seq<Event>)
    requires Fair(env) && SoundRun(env, Start0, events)
    ensures Replay(Run(env, Start0, events).log).Some?
  {
    RunAgrees(env, events);
  }

  lemma MoveCounted(s: State, s': State, x: Action)
    requires Replay(s.log).Some? && K in Replay(s.log).value.jobs
    requires x.Move? && x.key == K && s'.log == s.log + [x] && Replay(s'.log).Some?
    ensures K in Replay(s'.log).value.jobs
    ensures Replay(s'.log).value.jobs[K].dispatches == Replay(s.log).value.jobs[K].dispatches + 1
  {
    OnlyLegal(s.log, x, []);
    assert s.log + [x] + [] == s.log + [x];
    ReplayOne(s.log, x);
  }

  // ----- a new client announced to a worker that is gone -----

  /** The holder of a request dies, the request is retried directly, and its client asks again: the
      redirect goes to the dead worker while the other one has the request. */
  lemma RedirectAstray(env: Env)
    requires Fair(env) && AllSent(env)
    ensures SoundRun(env, Start0, Relay(1) + [Ask(K, RETRY, MSG)])
    ensures var s := Run(env, Start0, Relay(1));
            var s' := Run(env, Start0, Relay(1) + [Ask(K, RETRY, MSG)]);
            && |s.log| < |s'.log| && s'.log[|s.log|].Redirect? && s'.log[|s.log|].holder == Some(Turn(0))
            && Turn(0) !in s.workers && K in s.Held(Turn(1))
  {
    hide Run, SoundRun, Relay, Step, Inv, Named, Holder;
    var s0 := Run(env, Start0, Relay(0));
    var s := Run(env, Start0, Relay(1));
    FirstCarries(env);
    RelayRun(env, 1);
    RelayStep(env, s0, Turn(0), Turn(1), 0);
    RunOn(env, Relay(1), Ask(K, RETRY, MSG));
    RunAgrees(env, Relay(1));
    HeldIsAssigned(s, Turn(1), K);
    var x := Move(K, Turn(0), Turn(1), s0.Request(K).msg.GetOr([]));
    MovedNamed(s.log, x);
    RedirectReachesIff(env, Relay(1), K, RETRY, MSG);
  }

  lemma MovedNamed(log: seq<Action>, x: Action)
    requires log == [Start(K, RETRY, MSG, Turn(0))] + [x] && x.Move?
    ensures Named(log, K) == Some(Turn(0))
  {
    var first := [Start(K, RETRY, MSG, Turn(0))];
    assert log[..|log| - 1] == first;
    assert first[|first| - 1] == Start(K, RETRY, MSG, Turn(0));
    assert Named(first, K) == NamedAfter(first[|first| - 1], K, Named(first[..|first| - 1], K));
  }

  // ----- a finish for a request the worker does not hold -----

  /** A worker of type 1 with no capacity, for which nothing is pending. */
  ghost predicate Spectator(s: State, w: Identity) {
    w in s.workers && s.Types(w) == [1] && s.FreeCapacity(w) == 0 && 1 in s.contexts && s.Pending(1) == []
  }

  lemma SpectatorReady(env: Env, s: State, w: Identity)
    requires w !in s.workers && 1 !in s.contexts
    ensures var s' := Step(env, s, Ready(w, 0, [1], 1));
            && Spectator(s', w) && s'.workers == s.workers[w := s'.workers[w]] && s'.Held(w) == {}
            && s'.contexts == s.contexts[1 := s'.contexts[1]]
    ensures Sound(env, s, Ready(w, 0, [1], 1))
  {
    var s0 := s.WithWorker(w, Info(0, [1], {}, s.now, s.now, 1, 0, 0));
    var v := NewWorkerVisit(env, s0, w, 0, false);
    assert v == Visit(s0.WithContext(1, NewContext().IncrementNumWorkers()), false, false);
    assert NewWorkerPass(env, s0, w, 0, false) == NewWorkerPass(env, v.state, w, 1, false);
    assert NewWorkerPass(env, v.state, w, 1, false) == (v.state, false);
  }

  /** Its finish for a request of type 0 erases the record and changes no list and no other worker. */
  lemma SpectatorFinishes(env: Env, s: State, w: Identity)
    requires Spectator(s, w) && s.Known(K)
    ensures var s' := HandleWorkerFinished(env, s, w, K);
            && !s'.Known(K) && s'.Pending(0) == s.Pending(0)
            && (forall v :: v in s.workers && v != w ==> v in s'.workers && s'.workers[v] == s.workers[v])
  {
    hide FinishActions;
    var s1 := s.WithWorker(w, s.workers[w].RemoveInProgressRequest(K).(workerLastActive := s.now))
               .(log := s.log + FinishActions(s, w, K));
    var v := FinishVisit(env, s1, w, 0, [], false);
    assert v == Visit(AddAvailable(s1, 1, w), false, false);
    assert FinishPass(env, s1, w, K, 0, false, false) == FinishPass(env, v.state, w, K, 1, false, false);
    assert FinishPass(env, v.state, w, K, 1, false, false) == Pass(v.state, false, false);
  }

  /** A worker that holds nothing finishes a request that waits: its record goes, its node stays. */
  lemma FinishedInQueue(env: Env, w: Identity)
    requires Fair(env)
    ensures var events := [] + [Ask(K, RETRY, MSG)] + [Ready(w, 0, [1], 1)];
            var s := Run(env, Start0, events);
            var s' := Run(env, Start0, events + [Finished(w, K)]);
            && SoundRun(env, Start0, events) && s.Known(K) && s.Request(K).place.Queued? && !FinishSafe(s, w, K)
            && !s'.Known(K) && |s'.Pending(0)| == 1 && s'.Pending(0)[0].id == K.id
  {
    hide Run, SoundRun;
    var asked := [] + [Ask(K, RETRY, MSG)];
    var events := asked + [Ready(w, 0, [1], 1)];
    RunOn(env, [], Ask(K, RETRY, MSG));
    RunOn(env, asked, Ready(w, 0, [1], 1));
    RunOn(env, events, Finished(w, K));
    RunNothing(env);
    var s1 := Step(env, Start0, Ask(K, RETRY, MSG));
    assert s1.Known(K) && s1.Pending(0) == [Node(0, 0)] && s1.workers == map[] && s1.contexts.Keys == {0};
    assert s1.Request(K).place.Queued?;
    hide ClientRequest, HandleWorkerReady, HandleWorkerFinished;
    SpectatorReady(env, s1, w);
    SpectatorFinishes(env, Step(env, s1, Ready(w, 0, [1], 1)), w);
  }

  lemma SpectatorTakes(env: Env, s: State, w: Identity)
    requires Carrying(s, Turn(0), 0) && w != Turn(0)
    ensures var s1 := Step(env, s, Ready(w, 0, [1], 1));
            var s2 := Step(env, s1, Finished(w, K));
            && Sound(env, s, Ready(w, 0, [1], 1)) && s1.Known(K) && K in s1.Held(Turn(0)) && !FinishSafe(s1, w, K)
            && !s2.Known(K) && K in s2.Held(Turn(0))
  {
    hide HandleWorkerReady, HandleWorkerFinished;
    SpectatorReady(env, s, w);
    SpectatorFinishes(env, Step(env, s, Ready(w, 0, [1], 1)), w);
  }

  /** A worker finishes a request another one holds: the record goes and the other still holds it. */
  lemma FinishedElsewhere(env: Env, w: Identity)
    requires Fair(env) && RequestsSent(env) && w != Turn(0)
    ensures var events := Relay(0) + [Ready(w, 0, [1], 1)];
            var s := Run(env, Start0, events);
            var s' := Run(env, Start0, events + [Finished(w, K)]);
            && SoundRun(env, Start0, events) && s.Known(K) && K in s.Held(Turn(0)) && !FinishSafe(s, w, K)
            && !s'.Known(K) && K in s'.Held(Turn(0))
  {
    var events := Relay(0) + [Ready(w, 0, [1], 1)];
    hide Run, SoundRun, Relay, Step, Carrying, FinishSafe, Sound;
    FirstCarries(env);
    RunOn(env, Relay(0), Ready(w, 0, [1], 1));
    RunOn(env, events, Finished(w, K));
    SpectatorTakes(env, Run(env, Start0, Relay(0)), w);
  }

  // ----- a type listed twice -----

  /** A worker lists one type twice and dies: its only request is queued once for each. */
  lemma SettledTwice(env: Env)
    requires Fair(env) && RequestsSent(env)
    ensures var s := Run(env, Start0, [] + [Ready(Turn(0), 1, [0, 0], 1)] + [Ask(K, RETRY, MSG)]
                                      + [Tick(DELAY)] + [Pulse(DELAY)]);
            |s.Pending(0)| == 2 && s.Pending(0)[0].id == K.id && s.Pending(0)[1].id == K.id
  {
    hide Run, SoundRun;
    var w := Turn(0);
    var one := [] + [Ready(w, 1, [0, 0], 1)];
    var two := one + [Ask(K, RETRY, MSG)];
    RunOn(env, [], Ready(w, 1, [0, 0], 1));
    RunOn(env, one, Ask(K, RETRY, MSG));
    RunOn(env, two, Tick(DELAY));
    RunOn(env, two + [Tick(DELAY)], Pulse(DELAY));
    RunNothing(env);
    hide Step, Holds;
    TwiceReady(env, w);
    TwiceAsked(env, Step(env, Start0, Ready(w, 1, [0, 0], 1)), w);
    TwiceDies(env, Run(env, Start0, two), w);
  }

  /** The worker lists type 0 twice and holds the one request there is. */
  ghost predicate Holds(s: State, w: Identity, at: int) {
    && s.now == at && s.workers.Keys == {w} && s.contexts.Keys == {0}
    && s.workers[w].types == [0, 0] && s.workers[w].held == {K} && s.workers[w].workerLastActive == 0
    && var c := s.contexts[0];
       && c.available == {} && c.pending == [] && c.requests.Keys == {0}
       && c.requests[0].vfs == RETRY && c.requests[0].tryCount == 1
  }

  lemma TwiceReady(env: Env, w: Identity)
    ensures var s := Step(env, Start0, Ready(w, 1, [0, 0], 1));
            && s.workers == map[w := Info(1, [0, 0], {}, 0, 0, 1, 1, 0)] && s.now == 0
            && s.contexts == map[0 := Context(2, {w}, [], map[], 0)]
  {
    var s0 := Start0.WithWorker(w, Info(1, [0, 0], {}, 0, 0, 1, 1, 0));
    var v0 := NewWorkerVisit(env, s0, w, 0, false);
    assert {} + {w} == {w};
    assert v0 == Visit(s0.WithContext(0, Context(1, {w}, [], map[], 0)), false, false);
    var v1 := NewWorkerVisit(env, v0.state, w, 1, false);
    assert {w} + {w} == {w};
    assert v1.state.contexts == map[0 := Context(2, {w}, [], map[], 0)] && v1.state.workers == s0.workers;
    hide NewWorkerVisit;
    assert NewWorkerPass(env, s0, w, 0, false) == NewWorkerPass(env, v0.state, w, 1, false);
    assert NewWorkerPass(env, v0.state, w, 1, false) == NewWorkerPass(env, v1.state, w, 2, false);
    assert NewWorkerPass(env, v1.state, w, 2, false) == (v1.state, false);
  }

  lemma TwiceAsked(env: Env, s: State, w: Identity)
    requires Fair(env) && RequestsSent(env)
    requires s.workers == map[w := Info(1, [0, 0], {}, 0, 0, 1, 1, 0)] && s.now == 0
    requires s.contexts == map[0 := Context(2, {w}, [], map[], 0)]
    ensures Holds(Step(env, s, Ask(K, RETRY, MSG)), w, 0)
  {
    assert env.pick(s.sends, {w}) == w;
    hide Fair;
    ForwardDirectIs(env, s, w, K, RETRY, MSG, Start(K, RETRY, MSG, w));
    var out := ForwardDirect(env, s, w, K, RETRY, MSG, Start(K, RETRY, MSG, w));
    assert Step(env, s, Ask(K, RETRY, MSG)) == WithdrawIfExhausted(out.state, w);
    hide ForwardDirect, ClientRequest;
    assert out.state.Types(w) == [0, 0] && out.state.FreeCapacity(w) == 0;
    var once := Withdraw(out.state, w, 1);
    assert once == RemoveAvailable(Withdraw(out.state, w, 0), 0, w);
    assert Withdraw(out.state, w, 2) == RemoveAvailable(once, 0, w);
  }

  lemma TwiceDies(env: Env, s: State, w: Identity)
    requires Fair(env) && Holds(s, w, 0)
    ensures var s' := Step(env, s.(now := DELAY), Pulse(DELAY));
            |s'.Pending(0)| == 2 && s'.Pending(0)[0].id == K.id && s'.Pending(0)[1].id == K.id
  {
    var s0 := s.(now := DELAY);
    var s1 := QueuedOnce(env, s0, w, 0);
    var s2 := QueuedOnce(env, s1, w, 1);
    hide Holds, Fair;
    assert DeadWorker(env, s2, w, 2) == s2;
    OneDies(env, s0, w);
  }

  /** One visit of the type takes the request back to the end of the list. */
  lemma QueuedOnce(env: Env, s: State, w: Identity, i: nat) returns (s': State)
    requires Fair(env) && i < 2 && s.Types(w) == [0, 0] && s.workers.Keys == {w} && s.workers[w].held == {K}
    requires 0 in s.contexts && s.Available(0) == {} && 0 in s.contexts[0].requests
    requires s.contexts[0].requests[0].vfs == RETRY && s.contexts[0].requests[0].tryCount == 1
    ensures DeadWorker(env, s, w, i) == DeadWorker(env, s', w, i + 1)
    ensures s'.workers == s.workers && 0 in s'.contexts && s'.Available(0) == {} && 0 in s'.contexts[0].requests
    ensures s'.contexts[0].requests[0].vfs == RETRY && s'.contexts[0].requests[0].tryCount == 1
    ensures |s'.Pending(0)| == |s.Pending(0)| + 1 && s'.Pending(0)[..|s.Pending(0)|] == s.Pending(0)
    ensures s'.Pending(0)[|s.Pending(0)|].id == K.id
  {
    var s1 := s.WithContext(0, s.contexts[0].DecrementNumWorkers().RemoveAvailableWorker(w));
    assert HeldIds(s1, w, 0) == {0} by {
      assert K in s1.Held(w);
    }
    OnlyOne(env, s.At(), w, 0);
    hide Fair;
    s' := Settle(env, s1, w, K);
    assert s' == BackToPending(s1, K, [Requeue(K, w)]);
    assert SettleAll(env, s1, w, 0, [0]) == SettleAll(env, s', w, 0, []) by {
      assert [0][1..] == [];
    }
    hide Settle;
  }

  // ----- a silent worker that outlives a check -----

  /** The holder found dead first, its request goes to a worker not heard of for as long, which then
      passes for heard of. */
  lemma SilentKept(env: Env, s: State, w: Identity, other: Identity)
    requires Fair(env) && AllSent(env) && Waiting2(s, w, other)
    requires !s.workers[w].IsAliveAsOf(s.now, DELAY) && !s.workers[other].IsAliveAsOf(s.now, DELAY)
    requires env.roster(s.At(), {w, other}) == [w, other]
    ensures CheckWorkersPulse(env, s, DELAY).workers.Keys == {other}
  {
    assert s.workers.Keys == {w, other};
    WaitingDies(env, s, w, other);
    hide Fair, DeadWorker;
    var s1 := RemoveWorker(DeadWorker(env, s, w, 0), w);
    assert [w, other][1..] == [other] && [other][1..] == [];
    assert PulseFrom(env, s, [w, other], DELAY) == PulseFrom(env, s1, [other], DELAY);
    assert PulseFrom(env, s1, [other], DELAY) == PulseFrom(env, s1, [], DELAY);
  }

  const SILENCE := Relay(0) + [Tick(DELAY)] + [Ready(Turn(1), 1, [0], 1)] + [Tick(2 * DELAY)]

  lemma SilenceIs(env: Env)
    requires SoundRun(env, Start0, Relay(0))
    ensures SoundRun(env, Start0, SILENCE)
    ensures var s := Run(env, Start0, Relay(0));
            Run(env, Start0, SILENCE) == HandleWorkerReady(env, s.(now := DELAY), Turn(1), 1, [0], 1).(now := 2 * DELAY)
  {
    hide Run, SoundRun, Relay, HandleWorkerReady;
    var one := Relay(0) + [Tick(DELAY)];
    RunOn(env, Relay(0), Tick(DELAY));
    RunOn(env, one, Ready(Turn(1), 1, [0], 1));
    RunOn(env, one + [Ready(Turn(1), 1, [0], 1)], Tick(2 * DELAY));
  }

  /** Both workers were last heard of long ago. */
  ghost predicate BothSilent(s: State) {
    && Waiting2(s, Turn(0), Turn(1)) && s.now == 2 * DELAY
    && s.workers[Turn(0)].workerLastActive == 0 && s.workers[Turn(1)].workerLastActive == DELAY
  }

  lemma SilenceRun(env: Env)
    requires Fair(env) && AllSent(env)
    ensures SoundRun(env, Start0, SILENCE) && BothSilent(Run(env, Start0, SILENCE))
  {
    hide Run, SoundRun, Relay, HandleWorkerReady, BothSilent;
    FirstCarries(env);
    SilenceIs(env);
    LaterSilent(env, Run(env, Start0, Relay(0)));
  }

  lemma LaterSilent(env: Env, s: State)
    requires Carrying(s, Turn(0), 0)
    ensures BothSilent(HandleWorkerReady(env, s.(now := DELAY), Turn(1), 1, [0], 1).(now := 2 * DELAY))
  {
    ReadyWaits(env, s, Turn(0), Turn(1), 0);
    hide HandleWorkerReady;
  }

  /** Two workers have both been silent for longer than the check allows; it removes one and keeps the
      other, because of the request it moved there. */
  lemma SilentYetKept(env: Env)
    requires Fair(env) && AllSent(env)
    requires forall at :: env.roster(at, {Turn(0), Turn(1)}) == [Turn(0), Turn(1)]
    ensures SoundRun(env, Start0, SILENCE + [Pulse(DELAY)])
    ensures var s := Run(env, Start0, SILENCE);
            && s.workers.Keys == {Turn(0), Turn(1)}
            && (forall w :: w in s.workers ==> !s.workers[w].IsAliveAsOf(s.now, DELAY))
            && Run(env, Start0, SILENCE + [Pulse(DELAY)]).workers.Keys == {Turn(1)}
  {
    SilenceRun(env);
    var s := Run(env, Start0, SILENCE);
    RunOn(env, SILENCE, Pulse(DELAY));
    PulseAlwaysSound(env, s, DELAY);
    hide Run, SoundRun, CheckWorkersPulse;
    SilentKept(env, s, Turn(0), Turn(1));
  }

  // ----- a request nobody will ever finish -----

  /** The only worker holds the only request, handed over `tries` times. */
  ghost predicate Alone(s: State, w: Identity, at: int, tries: nat) {
    && s.now == at && s.workers.Keys == {w} && s.contexts.Keys == {0}
    && s.workers[w].types == [0] && s.workers[w].held == {K} && s.workers[w].workerLastActive == at
    && var c := s.contexts[0];
       && c.available == {} && c.pending == [] && c.requests.Keys == {0}
       && c.requests[0].vfs == RETRY && c.requests[0].tryCount == tries
  }

  /** Nobody is registered and the request, handed over once, waits again. */
  ghost predicate Requeued(s: State, at: int) {
    && s.now == at && s.workers.Keys == {} && s.contexts.Keys == {0}
    && var c := s.contexts[0];
       && c.available == {} && c.requests.Keys == {0} && |c.pending| == 1 && c.pending[0].id == 0
       && c.requests[0].vfs == RETRY && c.requests[0].tryCount == 1
       && c.requests[0].place == Queued(c.pending[0].tag)
  }

  lemma AloneDies(env: Env, s: State, w: Identity, at: int)
    requires Fair(env) && Alone(s, w, at, 1)
    ensures Requeued(CheckWorkersPulse(env, s.(now := at + DELAY), DELAY), at + DELAY)
  {
    var s0 := s.(now := at + DELAY);
    var c := s.contexts[0].DecrementNumWorkers().RemoveAvailableWorker(w);
    var s1 := s0.WithContext(0, c);
    assert HeldIds(s1, w, 0) == {0} by {
      assert K in s1.Held(w);
    }
    OnlyOne(env, s1.At(), w, 0);
    OneListed(env, s0.At(), w);
    hide Fair;
    var s2 := Settle(env, s1, w, K);
    assert s2 == BackToPending(s1, K, [Requeue(K, w)]);
    assert SettleAll(env, s1, w, 0, [0]) == SettleAll(env, s2, w, 0, []) by {
      assert [0][1..] == [];
    }
    hide Settle;
    assert DeadWorker(env, s0, w, 0) == DeadWorker(env, s2, w, 1) == s2;
    assert [w][1..] == [];
    assert PulseFrom(env, s0, [w], DELAY) == PulseFrom(env, RemoveWorker(s2, w), [], DELAY);
  }

  lemma OneListed(env: Env, at: Moment, w: Identity)
    requires Fair(env)
    ensures env.roster(at, {w}) == [w]
  {
    var ws := env.roster(at, {w});
    assert Lists(ws, {w});
    ListsLength(ws, {w});
    assert ws[0] in ws;
  }

  lemma RequeuedTaken(env: Env, s: State, w: Identity, at: int)
    requires AllSent(env) && Requeued(s, at)
    ensures Alone(HandleWorkerReady(env, s, w, 1, [0], 1), w, at, 2)
  {
    var s0 := s.WithWorker(w, Info(1, [0], {}, at, at, 1, 1, 0));
    var s1 := s0.WithContext(0, s0.contexts[0].IncrementNumWorkers());
    var k := Key(0, s.Pending(0)[0].id);
    ForwardQueuedIs(env, s1, w, k);
    var out := ForwardQueued(env, s1, w, k);
    assert out.ok;
    hide ForwardQueued;
    assert EraseNode(s.Pending(0), s.Request(K).place.cursor) == s.Pending(0)[1..] == [];
    var v := NewWorkerVisit(env, s0, w, 0, false);
    assert v == Visit(Withdraw(out.state, w, 0), false, false);
    hide NewWorkerVisit;
    assert NewWorkerPass(env, s0, w, 0, false) == NewWorkerPass(env, out.state, w, 1, false);
    assert NewWorkerPass(env, out.state, w, 1, false) == (out.state, false);
  }

  lemma TickThenPulse(env: Env, events: seq<Event>, n: nat)
    requires AllSent(env) && SoundRun(env, Start0, events)
    ensures var before := Run(env, Start0, events + [Tick(n)]);
            before == Run(env, Start0, events).(now := n) && SoundRun(env, Start0, events + [Tick(n)])
            && Run(env, Start0, events + [Tick(n)] + [Pulse(DELAY)]) == CheckWorkersPulse(env, before, DELAY)
            && SoundRun(env, Start0, events + [Tick(n)] + [Pulse(DELAY)])
  {
    RunOn(env, events, Tick(n));
    RunOn(env, events + [Tick(n)], Pulse(DELAY));
    PulseAlwaysSound(env, Run(env, Start0, events + [Tick(n)]), DELAY);
    hide Run, SoundRun, PulseSafe;
  }

  const DOOMED := Relay(0) + [Tick(DELAY)] + [Pulse(DELAY)] + [Ready(Turn(0), 1, [0], 1)]

  lemma TwiceHandedOver(env: Env)
    requires Fair(env) && AllSent(env)
    ensures SoundRun(env, Start0, DOOMED) && Alone(Run(env, Start0, DOOMED), Turn(0), DELAY, 2)
  {
    hide Run, SoundRun, HandleWorkerReady, CheckWorkersPulse, Relay;
    FirstCarries(env);
    TickThenPulse(env, Relay(0), DELAY);
    RunOn(env, Relay(0) + [Tick(DELAY)] + [Pulse(DELAY)], Ready(Turn(0), 1, [0], 1));
    var s0 := Run(env, Start0, Relay(0));
    var s1 := CheckWorkersPulse(env, s0.(now := DELAY), DELAY);
    assert Run(env, Start0, DOOMED) == HandleWorkerReady(env, s1, Turn(0), 1, [0], 1);
    AloneDies(env, s0, Turn(0), 0);
    RequeuedTaken(env, s1, Turn(0), DELAY);
  }

  /** Its holder dies twice; the second time no branch applies, and it is in progress nowhere. */
  lemma AbandonedForGood(env: Env)
    requires Fair(env) && AllSent(env)
    ensures SoundRun(env, Start0, DOOMED + [Tick(2 * DELAY)] + [Pulse(DELAY)])
    ensures var s := Run(env, Start0, DOOMED + [Tick(2 * DELAY)] + [Pulse(DELAY)]);
            Stranded(s, K) && s.workers.Keys == {}
  {
    hide Run, SoundRun, CheckWorkersPulse;
    TwiceHandedOver(env);
    TickThenPulse(env, DOOMED, 2 * DELAY);
    RunAgrees(env, DOOMED + [Tick(2 * DELAY)]);
    hide Inv;
    LastDeath(env, Run(env, Start0, DOOMED + [Tick(2 * DELAY)]), Turn(0));
  }

  lemma OneDies(env: Env, s: State, w: Identity)
    requires Fair(env) && s.workers.Keys == {w} && !s.workers[w].IsAliveAsOf(s.now, DELAY)
    ensures CheckWorkersPulse(env, s, DELAY) == RemoveWorker(DeadWorker(env, s, w, 0), w)
  {
    OneListed(env, s.At(), w);
    var s1 := RemoveWorker(DeadWorker(env, s, w, 0), w);
    hide Fair, DeadWorker;
    assert [w][1..] == [];
    assert PulseFrom(env, s, [w], DELAY) == PulseFrom(env, s1, [], DELAY);
  }

  lemma LastDeath(env: Env, s: State, w: Identity)
    requires Fair(env) && AllSent(env) && Inv(s, Settled) && Alone(s.(now := DELAY), w, DELAY, 2) && s.now == 2 * DELAY
    ensures Stranded(CheckWorkersPulse(env, s, DELAY), K)
    ensures CheckWorkersPulse(env, s, DELAY).workers.Keys == {}
  {
    hide Inv, CheckWorkersPulse, DeadWorker, Fair, Stranded, DeadSafe, Fate;
    assert s.workers.Keys == {w};
    assert K in s.Held(w) && s.Known(K) && Abandoned(s.Request(K));
    OneDies(env, s, w);
    DeadCovered(env, s, w, 0);
    hide Alone;
    DeathStrandsIff(env, s, w, K);
    DeathAgrees(env, s, w);
  }
}

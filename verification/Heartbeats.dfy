/** A worker that keeps its timer going is never taken for dead, in a model with one clock. */
module Heartbeats {
  import opened Cluster
  import opened RequestContexts
  import opened Scheduler
  import opened Forwarding
  import opened Deaths

  // ----- what the broker remembers of a worker through its handlers -----

  /** A registered worker is still registered, and was last heard of when it was before, or now. */
  ghost predicate Heard(s: State, s': State, v: Identity) {
    && s'.now == s.now
    && (v in s.workers ==>
          && v in s'.workers
          && (s'.workers[v].workerLastActive == s.workers[v].workerLastActive
              || s'.workers[v].workerLastActive == s.now))
  }

  lemma ForwardQueuedHeard(env: Env, s: State, w: Identity, k: Key, v: Identity)
    ensures Heard(s, ForwardQueued(env, s, w, k).state, v)
  {
    if s.Known(k) && s.Request(k).place.Queued? && w in s.workers && env.request(s.sends) {
      ForwardQueuedIs(env, s, w, k);
    }
  }

  lemma ForwardDirectHeard(
    env: Env, s: State, w: Identity, k: Key, vfs: VersionFlags, msg: Message, action: Action, v: Identity)
    ensures Heard(s, ForwardDirect(env, s, w, k, vfs, msg, action).state, v)
  {
    if k.kind in s.contexts && w in s.workers && env.request(s.sends) {
      ForwardDirectIs(env, s, w, k, vfs, msg, action);
    }
  }

  lemma {:induction false} WithdrawHeard(s: State, w: Identity, n: nat, v: Identity)
    ensures Heard(s, Withdraw(s, w, n), v)
  {
    if n != 0 && n <= |s.Types(w)| {
      WithdrawHeard(s, w, n - 1, v);
    }
  }

  lemma HeardTwice(s: State, s1: State, s2: State, v: Identity)
    requires Heard(s, s1, v) && Heard(s1, s2, v)
    ensures Heard(s, s2, v)
  {
  }

  lemma {:induction false} SweepHeard(env: Env, s: State, w: Identity, i: nat, more: bool, v: Identity)
    ensures Heard(s, Sweep(env, s, w, i, more).0, v)
    decreases |s.Types(w)| - i
  {
    if i < |s.Types(w)| {
      var visit := SweepVisit(env, s, w, i, more);
      SweepVisitHeard(env, s, w, i, more, v);
      hide SweepVisit;
      if !visit.stop {
        SweepHeard(env, visit.state, w, i + 1, visit.more, v);
      }
    }
  }

  lemma SweepVisitHeard(env: Env, s: State, w: Identity, i: nat, more: bool, v: Identity)
    requires i < |s.Types(w)|
    ensures Heard(s, SweepVisit(env, s, w, i, more).state, v)
  {
    var t := s.Types(w)[i];
    if s.Pending(t) != [] {
      var k := Key(t, s.Pending(t)[0].id);
      ForwardQueuedHeard(env, s, w, k, v);
      hide ForwardQueued;
      WithdrawHeard(ForwardQueued(env, s, w, k).state, w, i + 1, v);
    }
  }

  lemma {:induction false} RoundsHeard(env: Env, s: State, w: Identity, more: bool, v: Identity)
    ensures Heard(s, Rounds(env, s, w, more), v)
    decreases if more then 1 else 0, s.FreeCapacity(w)
  {
    if s.FreeCapacity(w) > 0 && more {
      SweepHeard(env, s, w, 0, false, v);
      var round := Sweep(env, s, w, 0, false);
      if round.1 {
        RoundsHeard(env, round.0, w, true, v);
      }
    }
  }

  lemma NewWorkerVisitHeard(env: Env, s: State, w: Identity, i: nat, more: bool, v: Identity)
    requires i < |s.Types(w)|
    ensures Heard(s, NewWorkerVisit(env, s, w, i, more).state, v)
  {
    var t := s.Types(w)[i];
    if t in s.contexts {
      var s1 := s.WithContext(t, s.contexts[t].IncrementNumWorkers());
      if s1.Pending(t) != [] {
        var k := Key(t, s1.Pending(t)[0].id);
        ForwardQueuedHeard(env, s1, w, k, v);
        hide ForwardQueued;
        WithdrawHeard(ForwardQueued(env, s1, w, k).state, w, i, v);
      }
    }
  }

  lemma {:induction false} NewWorkerPassHeard(env: Env, s: State, w: Identity, i: nat, more: bool, v: Identity)
    ensures Heard(s, NewWorkerPass(env, s, w, i, more).0, v)
    decreases |s.Types(w)| - i
  {
    if i < |s.Types(w)| {
      var visit := NewWorkerVisit(env, s, w, i, more);
      NewWorkerVisitHeard(env, s, w, i, more, v);
      hide NewWorkerVisit;
      NewWorkerPassHeard(env, visit.state, w, i + 1, visit.more, v);
    }
  }

  lemma ReadyHeard(
    env: Env, s: State, w: Identity, capacity: int, types: seq<RequestType>, delay: int, v: Identity)
    ensures Heard(s, HandleWorkerReady(env, s, w, capacity, types, delay), v)
  {
    if Enrols(s, w, capacity, types) {
      var s1 := s.WithWorker(w, Info(capacity, types, {}, s.now, s.now, delay, capacity, 0));
      NewWorkerPassHeard(env, s1, w, 0, false, v);
      var pass := NewWorkerPass(env, s1, w, 0, false);
      hide NewWorkerPass;
      RoundsHeard(env, pass.0, w, pass.1, v);
    }
  }

  lemma FinishVisitHeard(
    env: Env, s: State, w: Identity, i: nat, next: seq<Node>, more: bool, v: Identity)
    requires i < |s.Types(w)|
    ensures Heard(s, FinishVisit(env, s, w, i, next, more).state, v)
  {
    if next != [] {
      var k := Key(s.Types(w)[i], next[0].id);
      ForwardQueuedHeard(env, s, w, k, v);
      hide ForwardQueued;
      WithdrawHeard(ForwardQueued(env, s, w, k).state, w, i + 1, v);
    }
  }

  lemma {:induction false} FinishPassHeard(
    env: Env, s: State, w: Identity, k: Key, i: nat, removed: bool, more: bool, v: Identity)
    ensures Heard(s, FinishPass(env, s, w, k, i, removed, more).state, v)
    decreases |s.Types(w)| - i
  {
    if i < |s.Types(w)| {
      var t := s.Types(w)[i];
      if t !in s.contexts {
        FinishPassHeard(env, s, w, k, i + 1, removed, more, v);
      } else {
        var erase := !removed && t == k.kind;
        var s1 := if erase then RemoveInProgress(s, k) else s;
        FinishVisitHeard(env, s1, w, i, s.Pending(t), more, v);
        var visit := FinishVisit(env, s1, w, i, s.Pending(t), more);
        hide FinishVisit;
        if !visit.stop {
          FinishPassHeard(env, visit.state, w, k, i + 1, removed || erase, visit.more, v);
        }
      }
    }
  }

  lemma FinishedHeard(env: Env, s: State, w: Identity, k: Key, v: Identity)
    ensures Heard(s, HandleWorkerFinished(env, s, w, k), v)
    ensures w in s.workers ==> v == w ==>
              v in HandleWorkerFinished(env, s, w, k).workers
              && HandleWorkerFinished(env, s, w, k).workers[v].workerLastActive == s.now
  {
    if w in s.workers {
      hide FinishActions;
      var s1 := s
        .WithWorker(w, s.workers[w].RemoveInProgressRequest(k).(workerLastActive := s.now))
        .(log := s.log + FinishActions(s, w, k));
      FinishPassHeard(env, s1, w, k, 0, false, false, v);
      var pass := if s1.FreeCapacity(w) > 0 then FinishPass(env, s1, w, k, 0, false, false)
                  else Pass(s1, false, false);
      hide FinishPass;
      var s2 := if pass.removed then pass.state else RemoveInProgress(pass.state, k);
      RoundsHeard(env, s2, w, pass.more, v);
      hide Rounds;
      HeardTwice(s, s1, s2, v);
    }
  }

  lemma ClientHeard(env: Env, s: State, k: Key, vfs: VersionFlags, msg: Message, v: Identity)
    ensures Heard(s, ClientRequest(env, s, k, vfs, msg), v)
  {
    if s.Known(k) {
      RepeatedHeard(env, s, k, vfs, msg, v);
      hide RepeatedRequest;
    } else if s.Available(k.kind) != {} {
      var w := env.pick(s.sends, s.Available(k.kind));
      ForwardDirectHeard(env, s, w, k, vfs, msg, Start(k, vfs, msg, w), v);
      var out := ForwardDirect(env, s, w, k, vfs, msg, Start(k, vfs, msg, w));
      hide ForwardDirect;
      WithdrawHeard(out.state, w, |out.state.Types(w)|, v);
    }
  }

  lemma RepeatedHeard(env: Env, s: State, k: Key, vfs: VersionFlags, msg: Message, v: Identity)
    requires s.Known(k)
    ensures Heard(s, RepeatedRequest(env, s, k, vfs, msg), v)
  {
    hide CopyRequestForFlags;
  }

  lemma SettleHeard(env: Env, s: State, w: Identity, k: Key, v: Identity)
    ensures Heard(s, Settle(env, s, w, k), v)
  {
    if s.Known(k) && Retryable(s.Request(k)) && s.Available(k.kind) != {} {
      var r := s.Request(k);
      var to := env.pick(s.sends, s.Available(k.kind));
      var msg := r.msg.GetOr([]);
      ForwardDirectHeard(env, s, to, k, r.vfs, msg, Move(k, w, to, msg), v);
      var out := ForwardDirect(env, s, to, k, r.vfs, msg, Move(k, w, to, msg));
      hide ForwardDirect;
      WithdrawHeard(out.state, to, |out.state.Types(to)|, v);
    }
  }

  lemma {:induction false} SettleAllHeard(
    env: Env, s: State, w: Identity, t: RequestType, ids: seq<RequestId>, v: Identity)
    ensures Heard(s, SettleAll(env, s, w, t, ids), v)
    decreases |ids|
  {
    if ids != [] {
      SettleHeard(env, s, w, Key(t, ids[0]), v);
      hide Settle;
      SettleAllHeard(env, Settle(env, s, w, Key(t, ids[0])), w, t, ids[1..], v);
    }
  }

  lemma {:induction false} DeadWorkerHeard(env: Env, s: State, w: Identity, i: nat, v: Identity)
    ensures Heard(s, DeadWorker(env, s, w, i), v)
    decreases |s.Types(w)| - i
  {
    if i < |s.Types(w)| {
      var t := s.Types(w)[i];
      if t !in s.contexts {
        DeadWorkerHeard(env, s, w, i + 1, v);
      } else {
        var s1 := Leave(s, w, t);
        var ids := env.order(s.At(), w, t, HeldIds(s, w, t));
        SettleAllHeard(env, s1, w, t, ids, v);
        hide SettleAll;
        DeadWorkerHeard(env, SettleAll(env, s1, w, t, ids), w, i + 1, v);
      }
    }
  }

  /** A pulse check leaves a worker alone that is alive when it begins. */
  lemma {:induction false} PulseHeard(env: Env, s: State, ws: seq<Identity>, deathDelay: int, v: Identity)
    requires deathDelay > 0 && v in s.workers && s.workers[v].IsAliveAsOf(s.now, deathDelay)
    ensures Heard(s, PulseFrom(env, s, ws, deathDelay), v)
    decreases |ws|
  {
    if ws != [] {
      if ws[0] !in s.workers || s.workers[ws[0]].IsAliveAsOf(s.now, deathDelay) {
        PulseHeard(env, s, ws[1..], deathDelay, v);
      } else {
        DeadWorkerHeard(env, s, ws[0], 0, v);
        hide DeadWorker;
        PulseHeard(env, RemoveWorker(DeadWorker(env, s, ws[0], 0), ws[0]), ws[1..], deathDelay, v);
      }
    }
  }

  /** No handler makes the broker forget a live worker, or remember hearing of it earlier than it did. */
  lemma StepHeard(env: Env, s: State, e: Event, v: Identity)
    requires v in s.workers && !e.Tick?
    requires e.Pulse? ==> e.deathDelay > 0 && s.workers[v].IsAliveAsOf(s.now, e.deathDelay)
    ensures Heard(s, Step(env, s, e), v)
  {
    match e
    case Ask(k, vfs, msg) => ClientHeard(env, s, k, vfs, msg, v);
    case Ready(w, capacity, types, delay) => ReadyHeard(env, s, w, capacity, types, delay, v);
    case Finished(w, k) => FinishedHeard(env, s, w, k, v);
    case Pulse(deathDelay) => PulseHeard(env, s, env.roster(s.At(), s.workers.Keys), deathDelay, v);
    case _ =>
  }

  // ----- timed runs -----

  /** The worker's timer period, the longest heartbeat delay the broker asks of it, the longest a
      message takes, and the broker's own heartbeat delay; a worker is dead after twice the last. */
  datatype Timing = Timing(period: nat, delay: nat, latency: nat, half: nat) {
    function DeathDelay(): nat {
      2 * half
    }
  }

  /** The broker, and of one worker when its timer last fired, when it last sent something, and when
      what it sent and has not arrived was sent. Its clock is the broker's. */
  datatype TimedState = TimedState(broker: State, lastTick: int, lastActive: int, inFlight: seq<int>)

  datatype TimedEvent =
    | Advance(now: int)
    | TimerFires(delay: nat)
    | SendsFinish
    | Arrives(i: nat, message: Event)
    | AtBroker(event: Event)

  /** A heartbeat is due when nothing has been sent for the delay the broker last asked for. */
  predicate HeartbeatNeeded(t: TimedState, delay: nat) {
    t.lastActive + delay <= t.broker.now
  }

  function Sending(t: TimedState): TimedState {
    t.(lastActive := t.broker.now, inFlight := t.inFlight + [t.broker.now])
  }

  function TimedStep(env: Env, t: TimedState, e: TimedEvent): TimedState {
    match e
    case Advance(now) => t.(broker := Step(env, t.broker, Tick(now)))
    case TimerFires(delay) =>
      (if HeartbeatNeeded(t, delay) then Sending(t) else t).(lastTick := t.broker.now)
    case SendsFinish => Sending(t)
    case Arrives(i, message) =>
      t.(broker := Step(env, t.broker, message),
         inFlight := if i < |t.inFlight| then t.inFlight[..i] + t.inFlight[i + 1..] else t.inFlight)
    case AtBroker(event) => t.(broker := Step(env, t.broker, event))
  }

  /** Time passes only while the timer and every message are on time; what arrives is a heartbeat sent
      when it says, with a delay the broker accepts, or a finish; and the broker does anything else. */
  ghost predicate Punctual(t: TimedState, e: TimedEvent, tm: Timing, w: Identity) {
    match e
    case Advance(now) =>
      t.broker.now <= now <= t.lastTick + tm.period
      && forall i :: 0 <= i < |t.inFlight| ==> now <= t.inFlight[i] + tm.latency
    case TimerFires(delay) => delay <= tm.delay
    case SendsFinish => true
    case Arrives(i, message) =>
      i < |t.inFlight|
      && (match message
          case Beat(v, sentAt, delay, minimumDelay) => v == w && sentAt == t.inFlight[i] && delay >= minimumDelay
          case Finished(v, _) => v == w
          case _ => false)
    case AtBroker(event) => !event.Tick? && (event.Pulse? ==> event.deathDelay == tm.DeathDelay())
  }

  function TimedRun(env: Env, t: TimedState, events: seq<TimedEvent>): TimedState {
    if events == [] then t
    else TimedStep(env, TimedRun(env, t, events[..|events| - 1]), events[|events| - 1])
  }

  ghost predicate PunctualRun(env: Env, t: TimedState, events: seq<TimedEvent>, tm: Timing, w: Identity) {
    events != [] ==>
      var before := events[..|events| - 1];
      PunctualRun(env, t, before, tm, w) && Punctual(TimedRun(env, t, before), events[|events| - 1], tm, w)
  }

  /** The broker has just registered the worker, whose timer was set before it said it was ready. */
  ghost predicate Begins(t: TimedState, tm: Timing, w: Identity) {
    && w in t.broker.workers && t.broker.workers[w].workerLastActive == t.broker.now
    && t.lastTick <= t.lastActive <= t.broker.now <= t.lastTick + tm.period
    && forall i :: 0 <= i < |t.inFlight| ==> 0 < t.inFlight[i] <= t.broker.now <= t.inFlight[i] + tm.latency
  }

  /** Either something is on its way that was sent soon enough after the broker last heard of the
      worker, or the broker has heard of the worker since it last sent anything. */
  ghost predicate OnTime(t: TimedState, tm: Timing, w: Identity) {
    && w in t.broker.workers && 0 < t.broker.now
    && var last := t.broker.workers[w].workerLastActive;
       && last <= t.broker.now && t.lastActive <= t.broker.now
       && t.lastTick <= t.broker.now <= t.lastTick + tm.period && t.lastTick < t.lastActive + tm.delay
       && (forall i :: 0 <= i < |t.inFlight| ==> 0 < t.inFlight[i] <= t.broker.now <= t.inFlight[i] + tm.latency)
       && (if t.inFlight == [] then t.lastActive <= last else t.inFlight[0] < last + tm.delay + tm.period)
  }

  lemma OnTimeIsAlive(t: TimedState, tm: Timing, w: Identity)
    requires OnTime(t, tm, w) && tm.delay + tm.period + tm.latency <= tm.DeathDelay()
    ensures t.broker.workers[w].IsAliveAsOf(t.broker.now, tm.DeathDelay())
  {
    if t.inFlight != [] {
      assert t.broker.now <= t.inFlight[0] + tm.latency;
    }
  }

  lemma SendingOnTime(t: TimedState, tm: Timing, w: Identity)
    requires OnTime(t, tm, w)
    ensures OnTime(Sending(t), tm, w)
  {
    var s := Sending(t);
    assert t.inFlight != [] ==> s.inFlight[0] == t.inFlight[0];
  }

  /** The broker hears of the worker now, or no less late than before. */
  lemma BrokerOnTime(t: TimedState, t': TimedState, tm: Timing, w: Identity)
    requires OnTime(t, tm, w) && Heard(t.broker, t'.broker, w)
    requires t'.lastTick == t.lastTick && t'.lastActive == t.lastActive
    requires t'.inFlight == t.inFlight
             || (t'.broker.workers[w].workerLastActive == t.broker.now
                 && forall i :: 0 <= i < |t'.inFlight| ==> t'.inFlight[i] in t.inFlight)
    ensures OnTime(t', tm, w)
  {
    forall i | 0 <= i < |t'.inFlight|
      ensures 0 < t'.inFlight[i] <= t.broker.now <= t'.inFlight[i] + tm.latency
    {
      assert t'.inFlight[i] in t.inFlight;
    }
  }

  lemma ArrivalOnTime(env: Env, t: TimedState, i: nat, message: Event, tm: Timing, w: Identity)
    requires OnTime(t, tm, w) && Punctual(t, Arrives(i, message), tm, w)
    ensures OnTime(TimedStep(env, t, Arrives(i, message)), tm, w)
  {
    var t' := TimedStep(env, t, Arrives(i, message));
    StepHeard(env, t.broker, message, w);
    if message.Finished? {
      FinishedHeard(env, t.broker, w, message.key, w);
      hide HandleWorkerFinished;
      BrokerOnTime(t, t', tm, w);
    } else {
      assert 0 < t.inFlight[i] <= t.broker.now;
      BrokerOnTime(t, t', tm, w);
    }
  }

  lemma TimedStepOnTime(env: Env, t: TimedState, e: TimedEvent, tm: Timing, w: Identity)
    requires OnTime(t, tm, w) && Punctual(t, e, tm, w)
    requires tm.delay + tm.period + tm.latency <= tm.DeathDelay() && tm.delay > 0
    ensures OnTime(TimedStep(env, t, e), tm, w)
  {
    match e
    case Advance(now) =>
    case TimerFires(delay) =>
      SendingOnTime(t, tm, w);
    case SendsFinish => SendingOnTime(t, tm, w);
    case Arrives(i, message) => ArrivalOnTime(env, t, i, message, tm, w);
    case AtBroker(event) =>
      OnTimeIsAlive(t, tm, w);
      StepHeard(env, t.broker, event, w);
      hide Step;
      BrokerOnTime(t, TimedStep(env, t, e), tm, w);
  }

  lemma {:induction false} RunOnTime(env: Env, t: TimedState, events: seq<TimedEvent>, tm: Timing, w: Identity)
    requires Begins(t, tm, w) && 0 < t.broker.now && PunctualRun(env, t, events, tm, w)
    requires tm.delay + tm.period + tm.latency <= tm.DeathDelay() && tm.delay > 0
    ensures OnTime(TimedRun(env, t, events), tm, w)
  {
    if events == [] {
      assert t.inFlight != [] ==> t.inFlight[0] <= t.broker.now;
    } else {
      RunOnTime(env, t, events[..|events| - 1], tm, w);
      hide OnTime, Punctual, TimedStep, Begins;
      TimedStepOnTime(env, TimedRun(env, t, events[..|events| - 1]), events[|events| - 1], tm, w);
    }
  }

  /** No false death: in every timed run, while the worker's timer fires within its period, messages
      take no longer than the latency, and delay, period and latency together are at most the death
      delay, the worker stays registered and no pulse check would find it dead. */
  lemma NoFalseDeath(env: Env, t: TimedState, events: seq<TimedEvent>, tm: Timing, w: Identity)
    requires Begins(t, tm, w) && 0 < t.broker.now && PunctualRun(env, t, events, tm, w)
    requires tm.delay + tm.period + tm.latency <= tm.DeathDelay() && tm.delay > 0
    ensures var s := TimedRun(env, t, events).broker;
            w in s.workers && s.workers[w].IsAliveAsOf(s.now, tm.DeathDelay())
  {
    RunOnTime(env, t, events, tm, w);
    OnTimeIsAlive(TimedRun(env, t, events), tm, w);
  }

  // ----- the bound is exact -----

  lemma TimedOn(env: Env, t: TimedState, events: seq<TimedEvent>, e: TimedEvent, tm: Timing, w: Identity)
    ensures TimedRun(env, t, events + [e]) == TimedStep(env, TimedRun(env, t, events), e)
    ensures PunctualRun(env, t, events + [e], tm, w) <==>
              PunctualRun(env, t, events, tm, w) && Punctual(TimedRun(env, t, events), e, tm, w)
  {
    assert (events + [e])[..|events + [e]| - 1] == events;
  }

  /** The timer fires every second, and no heartbeat is due yet. */
  function Silence(start: int, n: nat, delay: nat): seq<TimedEvent> {
    if n == 0 then [] else Silence(start, n - 1, delay) + [Advance(start + n)] + [TimerFires(delay)]
  }

  /** The timed run over one second of silence more. */
  lemma SilenceMore(env: Env, t: TimedState, start: int, n: nat, tm: Timing, w: Identity)
    requires n > 0
    ensures var before := Silence(start, n - 1, tm.delay);
            var events := Silence(start, n, tm.delay);
            var t' := TimedRun(env, t, before);
            var t1 := TimedStep(env, t', Advance(start + n));
            && TimedRun(env, t, events) == TimedStep(env, t1, TimerFires(tm.delay))
            && (PunctualRun(env, t, events, tm, w) <==>
                  PunctualRun(env, t, before, tm, w) && Punctual(t', Advance(start + n), tm, w)
                  && Punctual(t1, TimerFires(tm.delay), tm, w))
  {
    var before := Silence(start, n - 1, tm.delay);
    assert Silence(start, n, tm.delay) == before + [Advance(start + n)] + [TimerFires(tm.delay)];
    hide Silence, TimedRun, PunctualRun, TimedStep, Punctual;
    TimedOn(env, t, before, Advance(start + n), tm, w);
    TimedOn(env, t, before + [Advance(start + n)], TimerFires(tm.delay), tm, w);
  }

  function After(t: TimedState, n: int): TimedState {
    t.(broker := t.broker.(now := t.broker.now + n), lastTick := t.broker.now + n)
  }

  lemma NoSilence(env: Env, t: TimedState, tm: Timing, w: Identity)
    ensures TimedRun(env, t, Silence(t.broker.now, 0, tm.delay)) == t
    ensures PunctualRun(env, t, Silence(t.broker.now, 0, tm.delay), tm, w)
    ensures t.lastTick == t.broker.now ==> After(t, 0) == t
  {
  }

  lemma HeardAtOnce(t: TimedState)
    requires t.lastTick == t.broker.now && forall i :: 0 <= i < |t.inFlight| ==> t.broker.now <= t.inFlight[i]
    ensures Unheard(t, t, 0)
  {
  }

  lemma {:induction false} SilenceRun(env: Env, t: TimedState, n: nat, tm: Timing, w: Identity)
    requires t.inFlight == [] && t.lastTick == t.lastActive == t.broker.now && tm.period > 0 && n < tm.delay
    ensures var events := Silence(t.broker.now, n, tm.delay);
            TimedRun(env, t, events) == After(t, n) && PunctualRun(env, t, events, tm, w)
  {
    hide After, Punctual, TimedRun, PunctualRun, TimedStep, Silence;
    if n == 0 {
      NoSilence(env, t, tm, w);
    } else {
      SilenceRun(env, t, n - 1, tm, w);
      SilenceOn(env, t, n, tm, w);
      SilenceMore(env, t, t.broker.now, n, tm, w);
    }
  }

  lemma SilenceOn(env: Env, t: TimedState, n: nat, tm: Timing, w: Identity)
    requires t.inFlight == [] && t.lastTick == t.lastActive == t.broker.now && tm.period > 0 && 0 < n < tm.delay
    ensures var t1 := TimedStep(env, After(t, n - 1), Advance(t.broker.now + n));
            && Punctual(After(t, n - 1), Advance(t.broker.now + n), tm, w) && Punctual(t1, TimerFires(tm.delay), tm, w)
            && TimedStep(env, t1, TimerFires(tm.delay)) == After(t, n)
  {
  }

  lemma {:induction false} TimedOnward(
    env: Env, t: TimedState, events: seq<TimedEvent>, more: seq<TimedEvent>, tm: Timing, w: Identity)
    ensures TimedRun(env, t, events + more) == TimedRun(env, TimedRun(env, t, events), more)
    ensures PunctualRun(env, t, events + more, tm, w) <==>
              PunctualRun(env, t, events, tm, w) && PunctualRun(env, TimedRun(env, t, events), more, tm, w)
    decreases |more|
  {
    if more == [] {
      assert events + more == events;
    } else {
      var last := more[|more| - 1];
      TimedOnward(env, t, events, more[..|more| - 1], tm, w);
      TimedOn(env, t, events + more[..|more| - 1], last, tm, w);
      assert events + more == events + more[..|more| - 1] + [last];
    }
  }

  /** While a message is on its way the timer goes on, and the broker hears nothing. */
  ghost predicate Unheard(t: TimedState, t': TimedState, n: nat) {
    && t'.broker == t.broker.(now := t.broker.now + n) && t'.lastTick == t.broker.now + n
    && forall i :: 0 <= i < |t'.inFlight| ==> t.broker.now <= t'.inFlight[i]
  }

  lemma {:induction false} WaitRun(env: Env, t: TimedState, n: nat, tm: Timing, w: Identity)
    requires t.lastTick == t.broker.now && tm.period > 0 && n <= tm.latency
    requires forall i :: 0 <= i < |t.inFlight| ==> t.broker.now <= t.inFlight[i]
    ensures var events := Silence(t.broker.now, n, tm.delay);
            Unheard(t, TimedRun(env, t, events), n) && PunctualRun(env, t, events, tm, w)
  {
    hide Unheard, Punctual, TimedRun, PunctualRun, TimedStep, Silence;
    if n == 0 {
      NoSilence(env, t, tm, w);
      HeardAtOnce(t);
    } else {
      WaitRun(env, t, n - 1, tm, w);
      WaitOn(env, t, TimedRun(env, t, Silence(t.broker.now, n - 1, tm.delay)), n, tm, w);
      SilenceMore(env, t, t.broker.now, n, tm, w);
    }
  }

  lemma WaitOn(env: Env, t: TimedState, t': TimedState, n: nat, tm: Timing, w: Identity)
    requires n > 0 && Unheard(t, t', n - 1) && tm.period > 0 && n <= tm.latency
    ensures var t1 := TimedStep(env, t', Advance(t.broker.now + n));
            && Punctual(t', Advance(t.broker.now + n), tm, w) && Punctual(t1, TimerFires(tm.delay), tm, w)
            && Unheard(t, TimedStep(env, t1, TimerFires(tm.delay)), n)
  {
  }

  /** A heartbeat goes out as late as the timer and the delay allow. */
  lemma SentLate(env: Env, t: TimedState, tm: Timing, w: Identity) returns (events: seq<TimedEvent>)
    requires t.inFlight == [] && t.lastTick == t.lastActive == t.broker.now
    requires tm.delay > 0 && tm.period > 0
    ensures PunctualRun(env, t, events, tm, w)
    ensures var late := t.broker.now + tm.delay - 1 + tm.period;
            TimedRun(env, t, events) == TimedState(t.broker.(now := late), late, late, [late])
  {
    hide TimedRun, PunctualRun, Silence;
    var n := tm.delay - 1;
    SilenceRun(env, t, n, tm, w);
    var silent := Silence(t.broker.now, n, tm.delay);
    var late := t.broker.now + n + tm.period;
    TimedOn(env, t, silent, Advance(late), tm, w);
    TimedOn(env, t, silent + [Advance(late)], TimerFires(tm.delay), tm, w);
    events := silent + [Advance(late)] + [TimerFires(tm.delay)];
  }

  /** When delay, period and latency together exceed the death delay, by however little, a worker just
      registered can be on time with everything and yet be dead to a pulse check. */
  lemma LateIsDead(env: Env, t: TimedState, tm: Timing, w: Identity) returns (events: seq<TimedEvent>)
    requires Begins(t, tm, w) && t.inFlight == [] && t.lastTick == t.lastActive == t.broker.now
    requires tm.delay + tm.period + tm.latency > tm.DeathDelay() && tm.delay > 0 && tm.period > 0
    ensures PunctualRun(env, t, events, tm, w)
    ensures var s := TimedRun(env, t, events).broker;
            w in s.workers && !s.workers[w].IsAliveAsOf(s.now, tm.DeathDelay())
  {
    var sent := SentLate(env, t, tm, w);
    var t1 := TimedRun(env, t, sent);
    WaitRun(env, t1, tm.latency, tm, w);
    var wait := Silence(t1.broker.now, tm.latency, tm.delay);
    TimedOnward(env, t, sent, wait, tm, w);
    events := sent + wait;
    hide TimedRun, PunctualRun, Silence;
  }
}

/** Runs on which receipts, or one request, do not get out, and the stated intent fails. */
module LostReceipts {
  import opened Wrappers
  import opened Cluster
  import opened RequestContexts
  import opened Scheduler
  import opened Agreement
  import opened Forwarding
  import opened Requests
  import opened Workers
  import opened Safety
  import opened RoundRobin
  import opened Conservation
  import opened Retrying
  import opened Counterexamples

  /** A request that wants to know when it is sent. */
  const RECEIPT := VersionFlags(V1, {ReceiptOnSend})

  ghost predicate NoReceiptSent(env: Env) {
    RequestsSent(env) && forall n :: !env.receipt(n)
  }

  // ----- requests that wait for a worker -----

  /** Every pending request owes a send receipt. */
  ghost predicate AllOwe(s: State) {
    forall k :: s.Known(k) && s.Request(k).place.Queued? ==> s.Request(k).vfs.Has(ReceiptOnSend)
  }

  /** So many requests of each type wait, numbered from 0, and nobody is registered. */
  ghost predicate Owing(s: State, counts: map<RequestType, nat>) {
    && s.workers == map[] && s.contexts.Keys == counts.Keys && AllOwe(s) && s.sends == 0
    && forall t :: t in counts ==>
         && s.Available(t) == {} && |s.Pending(t)| == counts[t]
         && (forall id: RequestId :: id in s.contexts[t].requests <==> id < counts[t])
  }

  function OneMoreOf(counts: map<RequestType, nat>, t: RequestType): nat {
    if t in counts then counts[t] else 0
  }

  lemma OneOwesMore(env: Env, s: State, counts: map<RequestType, nat>, t: RequestType)
    requires Owing(s, counts)
    ensures var n := OneMoreOf(counts, t);
            var e := Ask(Key(t, n), RECEIPT, MSG);
            Owing(Step(env, s, e), counts[t := n + 1]) && Sound(env, s, e)
  {
    hide AllOwe;
    var n := OneMoreOf(counts, t);
    var s' := Step(env, s, Ask(Key(t, n), RECEIPT, MSG));
    var c0 := if t in s.contexts then s.contexts[t] else NewContext();
    var c := c0.AddPendingRequest(n, RECEIPT, Some(MSG));
    assert n !in c0.requests;
    assert s'.contexts == s.contexts[t := c] && s'.workers == s.workers;
    hide Step;
    JoinedOwes(s, s', Key(t, n), c0, c);
  }

  lemma JoinedOwes(s: State, s': State, k: Key, c0: Context, c: Context)
    requires AllOwe(s) && c0 == if k.kind in s.contexts then s.contexts[k.kind] else NewContext()
    requires k.id !in c0.requests && c == c0.AddPendingRequest(k.id, RECEIPT, Some(MSG))
    requires s'.contexts == s.contexts[k.kind := c]
    ensures AllOwe(s')
  {
    OneContext(s, s', k, c);
    assert s'.Request(k).vfs == RECEIPT;
  }

  /** Three requests of one type. */
  const THREE: seq<Event> :=
    [] + [Ask(Key(0, 0), RECEIPT, MSG)] + [Ask(Key(0, 1), RECEIPT, MSG)] + [Ask(Key(0, 2), RECEIPT, MSG)]

  /** Two requests of each of two types. */
  const FOUR: seq<Event> :=
    [] + [Ask(Key(0, 0), RECEIPT, MSG)] + [Ask(Key(0, 1), RECEIPT, MSG)]
    + [Ask(Key(1, 0), RECEIPT, MSG)] + [Ask(Key(1, 1), RECEIPT, MSG)]

  lemma NobodyOwes()
    ensures Owing(Start0, map[])
  {
  }

  lemma TwoOwe(env: Env)
    ensures var two := [] + [Ask(Key(0, 0), RECEIPT, MSG)] + [Ask(Key(0, 1), RECEIPT, MSG)];
            Owing(Run(env, Start0, two), map[0 := 2]) && SoundRun(env, Start0, two)
  {
    hide Run, SoundRun;
    var one := [] + [Ask(Key(0, 0), RECEIPT, MSG)];
    RunOn(env, [], Ask(Key(0, 0), RECEIPT, MSG));
    RunOn(env, one, Ask(Key(0, 1), RECEIPT, MSG));
    RunNothing(env);
    hide Step, Owing;
    NobodyOwes();
    OneOwesMore(env, Start0, map[], 0);
    assert map[][0 := 1] == map[0 := 1];
    OneOwesMore(env, Run(env, Start0, one), map[0 := 1], 0);
    assert map[0 := 1][0 := 2] == map[0 := 2];
  }

  lemma ThreeOwe(env: Env)
    ensures Owing(Run(env, Start0, THREE), map[0 := 3]) && SoundRun(env, Start0, THREE)
  {
    hide Run, SoundRun, Step, Owing;
    TwoOwe(env);
    var two := [] + [Ask(Key(0, 0), RECEIPT, MSG)] + [Ask(Key(0, 1), RECEIPT, MSG)];
    RunOn(env, two, Ask(Key(0, 2), RECEIPT, MSG));
    OneOwesMore(env, Run(env, Start0, two), map[0 := 2], 0);
    assert map[0 := 2][0 := 3] == map[0 := 3];
  }

  lemma FourOwe(env: Env)
    ensures Owing(Run(env, Start0, FOUR), map[0 := 2, 1 := 2]) && SoundRun(env, Start0, FOUR)
  {
    hide Run, SoundRun, Step, Owing;
    TwoOwe(env);
    var two := [] + [Ask(Key(0, 0), RECEIPT, MSG)] + [Ask(Key(0, 1), RECEIPT, MSG)];
    var three := two + [Ask(Key(1, 0), RECEIPT, MSG)];
    RunOn(env, two, Ask(Key(1, 0), RECEIPT, MSG));
    RunOn(env, three, Ask(Key(1, 1), RECEIPT, MSG));
    OneOwesMore(env, Run(env, Start0, two), map[0 := 2], 1);
    assert map[0 := 2][1 := 1] == map[0 := 2, 1 := 1];
    OneOwesMore(env, Run(env, Start0, three), map[0 := 2, 1 := 1], 1);
    assert map[0 := 2, 1 := 1][1 := 2] == map[0 := 2, 1 := 2];
  }

  // ----- handing them over -----

  /** A worker took the head of a list and the other pending requests still owe their receipts. */
  ghost predicate TookOwing(s: State, s': State, w: Identity, t: RequestType) {
    && Inv(s', Settled) && AllOwe(s') && |s'.Pending(t)| == |s.Pending(t)| - 1
    && (forall u :: u != t ==> s'.Pending(u) == s.Pending(u)) && s'.contexts.Keys == s.contexts.Keys
    && s'.Types(w) == s.Types(w) && s'.FreeCapacity(w) == s.FreeCapacity(w) - 1
    && s'.workers.Keys == s.workers.Keys
  }

  lemma TookOne(s: State, s': State, w: Identity, t: RequestType)
    requires Took(s, s', w, t) && Inv(s', Settled) && AllOwe(s')
    ensures TookOwing(s, s', w, t)
  {
    hide Inv, AllOwe;
  }

  lemma HeadOwes(env: Env, s: State, w: Identity, t: RequestType)
    requires NoReceiptSent(env) && Inv(s, Settled) && AllOwe(s)
    requires w in s.workers && t in s.Types(w) && s.Pending(t) != []
    ensures var out := ForwardQueued(env, s, w, Key(t, s.Pending(t)[0].id));
            !out.ok && TookOwing(s, out.state, w, t) && HeadLost(env, s, t)
  {
    hide Inv, ForwardQueued, Took, TookOwing, Dispatched;
    QueuedIsKnown(s, t, Settled);
    HeadSent(env, s, w, t, Settled);
    ForwardHeadAgrees(env, s, w, t, Settled);
    var k := Key(t, s.Pending(t)[0].id);
    ForwardQueuedIs(env, s, w, k);
    var s' := ForwardQueued(env, s, w, k).state;
    StillOwe(s, s', w, k);
    hide AllOwe;
    TookOne(s, s', w, t);
  }

  lemma StillOwe(s: State, s': State, w: Identity, k: Key)
    requires s.Known(k) && s.Request(k).place.Queued? && w in s.workers && Dispatched(s, s', w, k) && AllOwe(s)
    ensures AllOwe(s')
  {
    OneContext(s, s', k, s'.contexts[k.kind]);
    assert s'.Request(k) == SentFromQueue(s.Request(k), w);
    DispatchedPlace(s.Request(k), w);
    hide Dispatched, SentFromQueue;
  }

  lemma DispatchedPlace(r: RequestState, w: Identity)
    ensures SentFromQueue(r, w).place == Assigned(w)
  {
  }

  /** Counting a worker for a type or making it available touches no record. */
  lemma SameOwe(s: State, s': State)
    requires AllOwe(s) && forall k :: (s'.Known(k) <==> s.Known(k)) && (s.Known(k) ==> s'.Request(k) == s.Request(k))
    ensures AllOwe(s')
  {
  }

  lemma CountedOwe(s: State, t: RequestType)
    requires AllOwe(s) && t in s.contexts
    ensures AllOwe(s.WithContext(t, s.contexts[t].IncrementNumWorkers()))
  {
    SameOwe(s, s.WithContext(t, s.contexts[t].IncrementNumWorkers()));
  }

  lemma OfferedOwe(s: State, t: RequestType, w: Identity)
    requires AllOwe(s)
    ensures AllOwe(AddAvailable(s, t, w))
  {
    SameOwe(s, AddAvailable(s, t, w));
  }

  /** A turn of the first pass hands over one and says that there may be more. */
  lemma VisitOwes(env: Env, s: State, w: Identity, i: nat, more: bool)
    requires NoReceiptSent(env) && Inv(s, Settled) && AllOwe(s) && w in s.workers && s.FreeCapacity(w) > 0
    requires i < |s.Types(w)| && s.Types(w)[i] in s.contexts && s.Pending(s.Types(w)[i]) != []
    ensures var v := NewWorkerVisit(env, s, w, i, more);
            v.more && TookOwing(s, v.state, w, s.Types(w)[i])
  {
    hide Inv, AllOwe, NewWorkerVisit, NewWorkerServed, HeadLost, TookOwing;
    var t := s.Types(w)[i];
    var s1 := s.WithContext(t, s.contexts[t].IncrementNumWorkers());
    CountedAgrees(s, t);
    CountedOwe(s, t);
    KnownTypeIs(env, s, s1, w, i, more);
    HeadOwes(env, s1, w, t);
    NewWorkerVisitAgrees(env, s, w, i, more);
    ServedOwes(env, s1, w, i, more);
    var v := NewWorkerVisit(env, s, w, i, more);
    CountedTook(s, s1, v.state, w, t);
  }

  lemma CountedTook(s: State, s1: State, s': State, w: Identity, t: RequestType)
    requires t in s.contexts && s1 == s.WithContext(t, s.contexts[t].IncrementNumWorkers())
    requires TookOwing(s1, s', w, t)
    ensures TookOwing(s, s', w, t)
  {
    hide Inv, AllOwe;
    assert forall u :: s1.Pending(u) == s.Pending(u);
  }

  lemma ServedOwes(env: Env, s: State, w: Identity, i: nat, more: bool)
    requires i < |s.Types(w)| && s.FreeCapacity(w) > 0 && s.Pending(s.Types(w)[i]) != []
    requires var t := s.Types(w)[i];
             var out := ForwardQueued(env, s, w, Key(t, s.Pending(t)[0].id));
             !out.ok && TookOwing(s, out.state, w, t)
    requires Inv(NewWorkerServed(env, s, w, i, more).state, Settled)
    ensures var v := NewWorkerServed(env, s, w, i, more);
            v.more && TookOwing(s, v.state, w, s.Types(w)[i])
  {
    hide ForwardQueued, Inv, AllOwe, TookOwing;
    var t := s.Types(w)[i];
    var s1 := ForwardQueued(env, s, w, Key(t, s.Pending(t)[0].id)).state;
    assert NewWorkerServed(env, s, w, i, more) == Visit(AddAvailable(s1, t, w), true, false);
    hide NewWorkerServed, AddAvailable;
    OfferedTook(s, s1, w, t);
  }

  lemma OfferedTook(s: State, s1: State, w: Identity, t: RequestType)
    requires TookOwing(s, s1, w, t) && Inv(AddAvailable(s1, t, w), Settled)
    ensures TookOwing(s, AddAvailable(s1, t, w), w, t)
  {
    hide Inv, AllOwe;
    OfferedOwe(s1, t, w);
    assert forall u :: AddAvailable(s1, t, w).Pending(u) == s1.Pending(u);
  }

  /** So does a turn of a later round, which sees nothing of it. */
  lemma TurnOwes(env: Env, s: State, w: Identity, i: nat, more: bool)
    requires NoReceiptSent(env) && Inv(s, Settled) && AllOwe(s) && w in s.workers
    requires i < |s.Types(w)| && s.Pending(s.Types(w)[i]) != []
    ensures var v := SweepVisit(env, s, w, i, more);
            v.more == more && !v.stop && TookOwing(s, v.state, w, s.Types(w)[i]) && HeadLost(env, s, s.Types(w)[i])
  {
    hide Inv, AllOwe, HeadLost, TookOwing;
    HeadOwes(env, s, w, s.Types(w)[i]);
    hide ForwardQueued;
  }

  // ----- a request left waiting beside free capacity -----

  lemma PassOwes(env: Env, s: State, w: Identity)
    requires NoReceiptSent(env) && Inv(s, Settled) && AllOwe(s) && w in s.workers
    requires s.Types(w) == [0] && 0 in s.contexts && |s.Pending(0)| == 3 && s.FreeCapacity(w) == 5
    ensures var pass := NewWorkerPass(env, s, w, 0, false);
            pass.1 && TookOwing(s, pass.0, w, 0)
  {
    hide Inv, AllOwe, NewWorkerVisit, TookOwing;
    VisitOwes(env, s, w, 0, false);
    var v := NewWorkerVisit(env, s, w, 0, false);
    assert NewWorkerPass(env, s, w, 0, false) == NewWorkerPass(env, v.state, w, 1, true);
    assert NewWorkerPass(env, v.state, w, 1, true) == (v.state, true);
  }

  /** The second round hands over one more, does not notice that there is another, and is the last. */
  lemma LastRound(env: Env, s: State, w: Identity)
    requires NoReceiptSent(env) && Inv(s, Settled) && AllOwe(s) && w in s.workers
    requires s.Types(w) == [0] && |s.Pending(0)| == 2 && s.FreeCapacity(w) == 4
    ensures TookOwing(s, Rounds(env, s, w, true), w, 0)
  {
    hide Inv, AllOwe, HeadLost, SweepVisit, TookOwing;
    TurnOwes(env, s, w, 0, false);
    var v := SweepVisit(env, s, w, 0, false);
    assert Sweep(env, v.state, w, 1, false) == (v.state, false);
    assert Sweep(env, s, w, 0, false) == (v.state, false);
  }

  /** Everything a worker with capacity for five becomes ready for goes out but one: it waits, although
      requests get out and the worker has capacity for three more. */
  lemma PendingBesideCapacity(env: Env, w: Identity)
    requires Fair(env) && NoReceiptSent(env)
    ensures SoundRun(env, Start0, THREE + [Ready(w, 5, [0], 1)])
    ensures var s := Run(env, Start0, THREE + [Ready(w, 5, [0], 1)]);
            && w in s.workers && s.Types(w) == [0] && s.FreeCapacity(w) == 3 && |s.Pending(0)| == 1
            && !Served(s)
  {
    hide Run, SoundRun, Inv, Fair, THREE, HandleWorkerReady, Served, AllOwe, NoReceiptSent;
    ThreeOwe(env);
    RunOn(env, THREE, Ready(w, 5, [0], 1));
    RunAgrees(env, THREE);
    var s := Run(env, Start0, THREE);
    assert w !in s.workers && Distinct([0]);
    OwingReady(env, s, w);
    hide Owing;
    BesideIsIdle(HandleWorkerReady(env, s, w, 5, [0], 1), w);
  }

  lemma NewcomerOwes(s: State, w: Identity, capacity: nat, types: seq<RequestType>)
    requires Inv(s, Settled) && AllOwe(s) && w !in s.workers && Distinct(types)
    ensures var s1 := Registered(s, w, capacity, types, 1);
            && Inv(s1, Settled) && AllOwe(s1) && s1.contexts == s.contexts
            && w in s1.workers && s1.Types(w) == types && s1.FreeCapacity(w) == capacity
  {
    var s1 := Registered(s, w, capacity, types, 1);
    RegisteredAgrees(s, s1, w, s1.workers[w]);
    hide Inv;
    SameOwe(s, s1);
  }

  lemma OwingReady(env: Env, s: State, w: Identity)
    requires NoReceiptSent(env) && Inv(s, Settled) && Owing(s, map[0 := 3])
    ensures var s' := HandleWorkerReady(env, s, w, 5, [0], 1);
            w in s'.workers && s'.Types(w) == [0] && s'.FreeCapacity(w) == 3 && |s'.Pending(0)| == 1
  {
    hide Inv, AllOwe, NewWorkerPass, Rounds, NoReceiptSent;
    NewcomerOwes(s, w, 5, [0]);
    hide Owing;
    var s1 := Registered(s, w, 5, [0], 1);
    PassOwes(env, s1, w);
    var pass := NewWorkerPass(env, s1, w, 0, false);
    LastRound(env, pass.0, w);
  }

  lemma BesideIsIdle(s: State, w: Identity)
    requires w in s.workers && s.Types(w) == [0] && s.FreeCapacity(w) > 0 && s.Pending(0) != []
    ensures !Served(s)
  {
    assert 0 in s.Types(w);
  }

  // ----- a worker given more than it can take -----

  lemma BothPass(env: Env, s: State, w: Identity)
    requires NoReceiptSent(env) && Inv(s, Settled) && AllOwe(s) && w in s.workers && s.Types(w) == [0, 1]
    requires s.contexts.Keys == {0, 1} && |s.Pending(0)| == 2 && |s.Pending(1)| == 2 && s.FreeCapacity(w) == 3
    ensures var pass := NewWorkerPass(env, s, w, 0, false);
            && pass.1 && Inv(pass.0, Settled) && AllOwe(pass.0) && pass.0.Types(w) == [0, 1]
            && |pass.0.Pending(0)| == 1 && |pass.0.Pending(1)| == 1 && pass.0.FreeCapacity(w) == 1
            && w in pass.0.workers
  {
    hide Inv, AllOwe, NewWorkerVisit;
    VisitOwes(env, s, w, 0, false);
    var v0 := NewWorkerVisit(env, s, w, 0, false);
    VisitOwes(env, v0.state, w, 1, true);
    var v1 := NewWorkerVisit(env, v0.state, w, 1, true);
    assert NewWorkerPass(env, s, w, 0, false) == NewWorkerPass(env, v0.state, w, 1, true);
    assert NewWorkerPass(env, v0.state, w, 1, true) == NewWorkerPass(env, v1.state, w, 2, true);
    assert NewWorkerPass(env, v1.state, w, 2, true) == (v1.state, true);
  }

  /** The last unit of capacity goes to the first type, unnoticed, and the second gets one more. */
  lemma OneTooMany(env: Env, s: State, w: Identity)
    requires NoReceiptSent(env) && Inv(s, Settled) && AllOwe(s) && w in s.workers && s.Types(w) == [0, 1]
    requires |s.Pending(0)| == 1 && |s.Pending(1)| == 1 && s.FreeCapacity(w) == 1
    ensures Rounds(env, s, w, true).FreeCapacity(w) == -1
  {
    hide Inv, AllOwe, SweepVisit, HeadLost;
    TurnOwes(env, s, w, 0, false);
    var v0 := SweepVisit(env, s, w, 0, false);
    TurnOwes(env, v0.state, w, 1, false);
    var v1 := SweepVisit(env, v0.state, w, 1, false);
    assert Sweep(env, s, w, 0, false) == Sweep(env, v0.state, w, 1, false);
    assert Sweep(env, v0.state, w, 1, false) == Sweep(env, v1.state, w, 2, false);
    assert Sweep(env, v1.state, w, 2, false) == (v1.state, false);
  }

  /** A worker with capacity for three is given four requests. */
  lemma GivenTooMuch(env: Env, w: Identity)
    requires Fair(env) && NoReceiptSent(env)
    ensures SoundRun(env, Start0, FOUR + [Ready(w, 3, [0, 1], 1)])
    ensures Run(env, Start0, FOUR + [Ready(w, 3, [0, 1], 1)]).FreeCapacity(w) == -1
    ensures ReadyOverruns(env, Run(env, Start0, FOUR), w, 3, [0, 1], 1)
  {
    hide Run, SoundRun, Inv, Fair, FOUR, HandleWorkerReady, ReadyOverruns, AllOwe;
    FourOwe(env);
    RunOn(env, FOUR, Ready(w, 3, [0, 1], 1));
    RunAgrees(env, FOUR);
    var s := Run(env, Start0, FOUR);
    assert w !in s.workers && Distinct([0, 1]);
    FourReady(env, s, w);
    hide Owing;
    ReadyOvercommitsIff(env, s, w, 3, [0, 1], 1);
  }

  lemma FourReady(env: Env, s: State, w: Identity)
    requires NoReceiptSent(env) && Inv(s, Settled) && Owing(s, map[0 := 2, 1 := 2])
    ensures HandleWorkerReady(env, s, w, 3, [0, 1], 1).FreeCapacity(w) == -1
  {
    hide Inv, AllOwe, NewWorkerPass, Rounds, NoReceiptSent;
    NewcomerOwes(s, w, 3, [0, 1]);
    hide Owing;
    var s1 := Registered(s, w, 3, [0, 1], 1);
    BothPass(env, s1, w);
    OneTooMany(env, NewWorkerPass(env, s1, w, 0, false).0, w);
  }

  // ----- a worker offered after its last unit -----

  /** A worker that takes one request at a time has one, and another that owes a receipt waits. */
  const BUSY := Relay(0) + [Ask(Key(0, 1), RECEIPT, MSG)]

  lemma BusyRun(env: Env)
    requires Fair(env) && NoReceiptSent(env)
    ensures SoundRun(env, Start0, BUSY) && Busy(Run(env, Start0, BUSY))
  {
    hide Run, SoundRun, Relay, Step, Busy;
    FirstCarries(env);
    RunOn(env, Relay(0), Ask(Key(0, 1), RECEIPT, MSG));
    WaitsToo(env, Run(env, Start0, Relay(0)));
  }

  ghost predicate Busy(s: State) {
    && Turn(0) in s.workers && s.Types(Turn(0)) == [0] && s.FreeCapacity(Turn(0)) == 0
    && K in s.Held(Turn(0)) && |s.Pending(0)| == 1
    && var k := Key(0, s.Pending(0)[0].id);
       k != K && s.Known(k) && s.Request(k).place.Queued? && s.Request(k).vfs == RECEIPT
  }

  lemma WaitsToo(env: Env, s: State)
    requires Carrying(s, Turn(0), 0)
    ensures Busy(Step(env, s, Ask(Key(0, 1), RECEIPT, MSG))) && Sound(env, s, Ask(Key(0, 1), RECEIPT, MSG))
  {
    var k := Key(0, 1);
    var s' := Step(env, s, Ask(k, RECEIPT, MSG));
    assert 0 in s.workers[Turn(0)].types && s.Available(0) == {};
    assert s'.contexts == s.contexts[0 := s.contexts[0].AddPendingRequest(1, RECEIPT, Some(MSG))];
    assert s'.workers == s.workers;
  }

  /** It finishes and is given the other; as that receipt is lost, it is offered with no capacity left. */
  lemma FinishedYetOffered(env: Env)
    requires Fair(env) && NoReceiptSent(env)
    ensures SoundRun(env, Start0, BUSY + [Finished(Turn(0), K)])
    ensures var s := Run(env, Start0, BUSY);
            var s' := Run(env, Start0, BUSY + [Finished(Turn(0), K)]);
            && FinishSpoils(env, s, Turn(0)) && s.FreeCapacity(Turn(0)) == 0
            && s'.FreeCapacity(Turn(0)) == 0 && Turn(0) in s'.Available(0)
  {
    hide Run, SoundRun, Busy, Inv, HandleWorkerFinished;
    BusyRun(env);
    RunOn(env, BUSY, Finished(Turn(0), K));
    RunAgrees(env, BUSY);
    hide BUSY;
    var s := Run(env, Start0, BUSY);
    BusySpoils(env, s);
    GivenLast(env, s);
  }

  lemma GivenLast(env: Env, s: State)
    requires NoReceiptSent(env) && Busy(s)
    ensures var s' := HandleWorkerFinished(env, s, Turn(0), K);
            s'.FreeCapacity(Turn(0)) == 0 && Turn(0) in s'.Available(0)
  {
    var w := Turn(0);
    var s1 := Freed(s, w, K);
    var s2 := RemoveInProgress(s1, K);
    var k := Key(0, s.Pending(0)[0].id);
    hide FinishVisit, FinishActions;
    OneLeft(env, s2, k);
    var v := FinishVisit(env, s2, w, 0, s.Pending(0), false);
    hide RemoveInProgress;
    assert FinishPass(env, s1, w, K, 0, false, false) == FinishPass(env, v.state, w, K, 1, true, true);
    assert FinishPass(env, v.state, w, K, 1, true, true) == Pass(v.state, true, true);
  }

  lemma OneLeft(env: Env, s: State, k: Key)
    requires NoReceiptSent(env) && Turn(0) in s.workers && s.Types(Turn(0)) == [0] && s.FreeCapacity(Turn(0)) == 1
    requires s.Known(k) && k.kind == 0 && s.Request(k).place.Queued? && s.Request(k).vfs == RECEIPT
    requires |s.Pending(0)| == 1 && s.Pending(0)[0].id == k.id
    ensures var v := FinishVisit(env, s, Turn(0), 0, s.Pending(0), false);
            && v.more && !v.stop && v.state.Types(Turn(0)) == [0] && v.state.FreeCapacity(Turn(0)) == 0
            && Turn(0) in v.state.Available(0)
  {
    ForwardQueuedIs(env, s, Turn(0), k);
    assert !ForwardQueued(env, s, Turn(0), k).ok;
    hide ForwardQueued;
  }

  lemma BusySpoils(env: Env, s: State)
    requires NoReceiptSent(env) && Busy(s)
    ensures FinishSpoils(env, s, Turn(0)) && FinishSafe(s, Turn(0), K) && s.FreeCapacity(Turn(0)) == 0
  {
    assert FirstLost(env, s, Turn(0), 0);
  }

  // ----- a request both queued and in progress -----

  /** The request goes out, its receipt does not, and it is queued although the worker has it. */
  lemma QueuedYetHeld(env: Env)
    requires Fair(env) && NoReceiptSent(env)
    ensures var s := ClientRequest(env, Run(env, Start0, [Ready(Turn(0), 1, [0], 1)]), K, RECEIPT, MSG);
            s.Known(K) && s.Request(K).place.Queued? && K in s.Held(Turn(0))
  {
    hide Inv, Run, SoundRun;
    var ready := Ready(Turn(0), 1, [0], 1);
    RunOn(env, [], ready);
    assert [] + [ready] == [ready];
    RunNothing(env);
    FreshReady(env);
    RunAgrees(env, [ready]);
    var s := Run(env, Start0, [ready]);
    assert s.Available(0) == {Turn(0)} && env.pick(s.sends, {Turn(0)}) == Turn(0);
    LostBreaks(env, s, K, RECEIPT, MSG);
  }

  // ----- a request that is tried once too few -----

  const TWO: seq<Event> := [] + [Ask(Key(0, 0), RECEIPT, MSG)] + [Ask(Key(0, 1), RECEIPT, MSG)]

  /** The third send is the only thing that fails. */
  ghost predicate OneFails(env: Env) {
    (forall n :: env.request(n) <==> n != 2) && forall n :: env.receipt(n)
  }

  /** The first pass sends one request and its receipt and sees another. */
  lemma FirstSent(env: Env, s: State, w: Identity)
    requires OneFails(env) && Inv(s, Settled) && AllOwe(s) && w in s.workers && s.sends == 0
    requires s.Types(w) == [0] && 0 in s.contexts && |s.Pending(0)| == 2 && s.FreeCapacity(w) == 3
    ensures var pass := NewWorkerPass(env, s, w, 0, false);
            && pass.1 && pass.0.sends == 2 && |pass.0.Pending(0)| == 1 && pass.0.FreeCapacity(w) == 2
            && pass.0.Types(w) == [0] && w in pass.0.workers && Inv(pass.0, Settled)
  {
    NewWorkerPassAgrees(env, s, w, 0, false);
    var s1 := s.WithContext(0, s.contexts[0].IncrementNumWorkers());
    CountedAgrees(s, 0);
    CountedOwe(s, 0);
    hide Inv, AllOwe, NewWorkerVisit;
    KnownTypeIs(env, s, s1, w, 0, false);
    SecondSeen(env, s1, w);
    hide NewWorkerServed;
    var v := NewWorkerVisit(env, s, w, 0, false);
    assert NewWorkerPass(env, s, w, 0, false) == NewWorkerPass(env, v.state, w, 1, true);
    assert NewWorkerPass(env, v.state, w, 1, true) == (v.state, true);
  }

  lemma SecondSeen(env: Env, s: State, w: Identity)
    requires OneFails(env) && Inv(s, Settled) && AllOwe(s) && w in s.workers && s.sends == 0
    requires s.Types(w) == [0] && 0 in s.contexts && |s.Pending(0)| == 2 && s.FreeCapacity(w) == 3
    ensures var v := NewWorkerServed(env, s, w, 0, false);
            v.more && v.state.sends == 2 && |v.state.Pending(0)| == 1 && v.state.FreeCapacity(w) == 2
  {
    var k := Key(0, s.Pending(0)[0].id);
    QueuedIsKnown(s, 0, Settled);
    HeadSent(env, s, w, 0, Settled);
    hide Inv;
    BothSent(env, s, w, k);
    hide ForwardQueued;
    var s1 := ForwardQueued(env, s, w, k).state;
    assert AddAvailable(s1, 0, w).Pending(0) == s1.Pending(0);
  }

  lemma BothSent(env: Env, s: State, w: Identity, k: Key)
    requires s.Known(k) && s.Request(k).place.Queued? && w in s.workers && AllOwe(s) && env.request(s.sends)
    ensures ForwardQueued(env, s, w, k).state.sends == s.sends + 2
  {
    CopyIfReceipt(s.Request(k).vfs, s.Request(k).msg.GetOr([]));
  }

  lemma ThirdFails(env: Env, s: State, w: Identity)
    requires OneFails(env) && Inv(s, Settled) && w in s.workers && s.sends == 2
    requires s.Types(w) == [0] && |s.Pending(0)| == 1 && s.FreeCapacity(w) == 2
    ensures var s' := Rounds(env, s, w, true);
            w in s'.workers && s'.Types(w) == [0] && s'.FreeCapacity(w) == 2 && |s'.Pending(0)| == 1
  {
    FailedTurn(env, s, w, 0, false);
    hide Inv, SweepVisit;
    var s1 := s.(sends := s.sends + 1);
    assert Sweep(env, s1, w, 1, false) == (s1, false);
    assert Sweep(env, s, w, 0, false) == (s1, false);
  }

  lemma TwoReady(env: Env, s: State, w: Identity)
    requires OneFails(env) && Inv(s, Settled) && Owing(s, map[0 := 2])
    ensures var s' := HandleWorkerReady(env, s, w, 3, [0], 1);
            w in s'.workers && s'.Types(w) == [0] && s'.FreeCapacity(w) == 2 && |s'.Pending(0)| == 1
  {
    hide Inv, AllOwe, NewWorkerPass, Rounds, OneFails;
    NewcomerOwes(s, w, 3, [0]);
    hide Owing;
    var s1 := Registered(s, w, 3, [0], 1);
    assert s1.sends == s.sends;
    FirstSent(env, s1, w);
    ThirdFails(env, NewWorkerPass(env, s1, w, 0, false).0, w);
  }

  /** One send fails, in the only round: that is not tried again, and the request waits beside two units
      of capacity. A send that fails in the first pass would have been. */
  lemma FailedInRound(env: Env, w: Identity)
    requires Fair(env) && OneFails(env)
    ensures SoundRun(env, Start0, TWO + [Ready(w, 3, [0], 1)])
    ensures var s := Run(env, Start0, TWO + [Ready(w, 3, [0], 1)]);
            && w in s.workers && s.Types(w) == [0] && s.FreeCapacity(w) == 2 && |s.Pending(0)| == 1
            && !Served(s)
  {
    hide Run, SoundRun, Inv, Fair, HandleWorkerReady, Served, AllOwe, OneFails;
    TwoOwe(env);
    RunOn(env, TWO, Ready(w, 3, [0], 1));
    RunAgrees(env, TWO);
    var s := Run(env, Start0, TWO);
    assert w !in s.workers && Distinct([0]);
    TwoReady(env, s, w);
    hide Owing;
    BesideIsIdle(HandleWorkerReady(env, s, w, 3, [0], 1), w);
  }
}

/** The broker's scheduling state and what each of its handlers does to it. */
module Scheduler {
  import opened Wrappers
  import opened Cluster
  import opened RequestContexts

  /** What the broker knows about one registered worker. The last two fields are history: the
      capacity the worker advertised, and its finishes for requests it was not recorded as holding. */
  datatype Info = Info(
    freeCapacity: int,
    types: seq<RequestType>,
    held: set<Key>,
    brokerLastActive: int,
    workerLastActive: int,
    heartbeatSendDelay: int,
    advertised: int,
    strays: nat)
  {
    function AddInProgressRequest(k: Key): Info {
      this.(held := held + {k}, freeCapacity := freeCapacity - 1)
    }

    function RemoveInProgressRequest(k: Key): Info {
      this.(held := held - {k}, freeCapacity := freeCapacity + 1,
            strays := if k in held then strays else strays + 1)
    }

    predicate IsAliveAsOf(asOf: int, deathDelay: int) {
      workerLastActive + deathDelay > asOf
    }
  }

  /** One step of the abstract scheduler. Handlers append these to a history no branch reads. A
      notice is the envelope along which a client is told that its request is not its own any more. */
  datatype Action =
    | Accept(key: Key, vfs: VersionFlags, msg: Message)
    | Start(key: Key, vfs: VersionFlags, msg: Message, worker: Identity)
    | Dispatch(key: Key, worker: Identity, msg: Message)
    | Receipt(key: Key, envelope: Message)
    | Redirect(key: Key, vfs: VersionFlags, msg: Message, holder: Option<Identity>, notice: Option<Message>)
    | Reject(key: Key, envelope: Message)
    | Finish(key: Key, worker: Identity)
    | Forget(key: Key)
    | Requeue(key: Key, worker: Identity)
    | Move(key: Key, worker: Identity, to: Identity, msg: Message)
    | Fail(key: Key, worker: Identity, notice: Option<Message>)
    | Strand(key: Key, worker: Identity)

  datatype State = State(
    contexts: map<RequestType, Context>,
    workers: map<Identity, Info>,
    now: int,
    sends: nat,
    log: seq<Action>)
  {
    predicate Known(k: Key) {
      k.kind in contexts && k.id in contexts[k.kind].requests
    }

    function Request(k: Key): RequestState
      requires Known(k)
    {
      contexts[k.kind].requests[k.id]
    }

    function Pending(t: RequestType): seq<Node> {
      if t in contexts then contexts[t].pending else []
    }

    function Available(t: RequestType): set<Identity> {
      if t in contexts then contexts[t].available else {}
    }

    function Types(w: Identity): seq<RequestType> {
      if w in workers then workers[w].types else []
    }

    function Held(w: Identity): set<Key> {
      if w in workers then workers[w].held else {}
    }

    function FreeCapacity(w: Identity): int {
      if w in workers then workers[w].freeCapacity else 0
    }

    function At(): Moment {
      Moment(now, sends)
    }

    function WithContext(t: RequestType, c: Context): State {
      this.(contexts := contexts[t := c])
    }

    function WithWorker(w: Identity, info: Info): State {
      this.(workers := workers[w := info])
    }
  }

  const Start0 := State(map[], map[], 0, 0, [])

  /** The time on the broker's clock, and how many sends there have been. */
  datatype Moment = Moment(now: int, sends: nat)

  /** Everything a run does not control: which sends succeed (to workers and, separately, the
      send receipts), which available worker an unordered set yields first, and the order in which
      unordered tables are walked: all workers, and what a worker holds of a type. The numbers and
      moments say when the choice is made; what is walked at two times is walked in unrelated orders. */
  datatype Env = Env(
    request: nat -> bool,
    receipt: nat -> bool,
    pick: (nat, set<Identity>) -> Identity,
    order: (Moment, Identity, RequestType, set<RequestId>) -> seq<RequestId>,
    roster: (Moment, set<Identity>) -> seq<Identity>)

  ghost predicate Lists<T(!new)>(xs: seq<T>, all: set<T>) {
    && (forall x :: x in xs <==> x in all)
    && (forall i, j :: 0 <= i < j < |xs| ==> xs[i] != xs[j])
  }

  ghost predicate Fair(env: Env) {
    && (forall n, ws :: ws != {} ==> env.pick(n, ws) in ws)
    && (forall at, w, t, ids :: Lists(env.order(at, w, t, ids), ids))
    && (forall at, ws :: Lists(env.roster(at, ws), ws))
  }

  ghost predicate RequestsSent(env: Env) {
    forall n :: env.request(n)
  }

  ghost predicate ReceiptsSent(env: Env) {
    forall n :: env.receipt(n)
  }

  /** What a handler learns from a send: the state after it, and whether it returned zero. */
  datatype Sent = Sent(state: State, ok: bool)

  // ----- keeping a copy -----

  /** What is copied before a request is handed over, as its flags ask. */
  function CopyRequestForFlags(vfs: VersionFlags, msg: Message): Option<Message> {
    if vfs.Has(RetryOnDeath) then Some(msg)
    else if vfs.HasAny({NotifyOnRedirect, NotifyOnDeath, ReceiptOnSend}) then Some(Envelope(msg))
    else None
  }

  /** What the request keeps of that copy; asking for a send receipt is forgotten once acted on. */
  function StoreCopy(r: RequestState, vfs: VersionFlags, copy: Message): RequestState {
    if vfs.Has(ReceiptOnSend) then
      if vfs.HasAny({RetryOnDeath, NotifyOnRedirect, NotifyOnDeath}) then
        r.(msg := Some(copy), vfs := vfs.Without(ReceiptOnSend))
      else
        r.(vfs := vfs.Without(ReceiptOnSend))
    else
      r.(msg := Some(copy))
  }

  /** The copy is handled only after the request went out; its return value is the receipt's. */
  function HandleCopiedRequest(env: Env, s: State, k: Key, vfs: VersionFlags, copy: Message): Sent
    requires s.Known(k)
  {
    var s1 := s.WithContext(k.kind, s.contexts[k.kind].Put(k.id, StoreCopy(s.Request(k), vfs, copy)));
    if vfs.Has(ReceiptOnSend) then
      Sent(s1.(sends := s.sends + 1, log := s.log + [Receipt(k, Envelope(copy))]), env.receipt(s.sends))
    else
      Sent(s1, true)
  }

  // ----- handing a request to a worker -----

  /** Sends a queued request. A request or worker that is not there stands for freed memory; the
      agreement between the tables is that this never happens. */
  function ForwardQueued(env: Env, s: State, w: Identity, k: Key): (out: Sent)
    ensures out.state.workers.Keys == s.workers.Keys && out.state.Types(w) == s.Types(w)
    ensures out.state.FreeCapacity(w) <= s.FreeCapacity(w)
    ensures out.ok ==> out.state.FreeCapacity(w) < s.FreeCapacity(w)
  {
    if !s.Known(k) || !s.Request(k).place.Queued? || w !in s.workers then Sent(s, false)
    else if !env.request(s.sends) then Sent(s.(sends := s.sends + 1), false)
    else
      var r := s.Request(k);
      var msg := r.msg.GetOr([]);
      var c := s.contexts[k.kind];
      var s1 := s
        .WithWorker(w, s.workers[w].AddInProgressRequest(k).(brokerLastActive := s.now))
        .WithContext(k.kind, c.Put(k.id, r.(msg := None)).AssignWorkerFromPending(k.id, w))
        .(sends := s.sends + 1, log := s.log + [Dispatch(k, w, msg)]);
      match CopyRequestForFlags(r.vfs, msg)
      case None => Sent(s1, true)
      case Some(copy) => HandleCopiedRequest(env, s1, k, r.vfs, copy)
  }

  /** Sends a request that is in no queue: a new one, or one taken back from a dead worker, whose
      old record then stays as it was except that its message has gone. */
  function ForwardDirect(
    env: Env, s: State, w: Identity, k: Key, vfs: VersionFlags, msg: Message, action: Action): Sent
  {
    if k.kind !in s.contexts || w !in s.workers then Sent(s, false)
    else if !env.request(s.sends) then Sent(s.(sends := s.sends + 1), false)
    else
      var c := s.contexts[k.kind].AddInProgressRequest(k.id, vfs, w);
      var s1 := s
        .WithWorker(w, s.workers[w].AddInProgressRequest(k).(workerLastActive := s.now))
        .WithContext(k.kind, c.Put(k.id, c.requests[k.id].(msg := None)))
        .(sends := s.sends + 1, log := s.log + [action]);
      match CopyRequestForFlags(vfs, msg)
      case None => Sent(s1, true)
      case Some(copy) => HandleCopiedRequest(env, s1, k, vfs, copy)
  }

  function AddAvailable(s: State, t: RequestType, w: Identity): State {
    if t in s.contexts then s.WithContext(t, s.contexts[t].AddAvailableWorker(w)) else s
  }

  function RemoveAvailable(s: State, t: RequestType, w: Identity): State {
    if t in s.contexts then s.WithContext(t, s.contexts[t].RemoveAvailableWorker(w)) else s
  }

  /** Withdraws a worker from the first `n` of its types. */
  function Withdraw(s: State, w: Identity, n: nat): (s': State)
    ensures s'.workers == s.workers && s'.contexts.Keys == s.contexts.Keys
    ensures forall t :: s'.Available(t) <= s.Available(t)
  {
    if n == 0 || n > |s.Types(w)| then s
    else RemoveAvailable(Withdraw(s, w, n - 1), s.Types(w)[n - 1], w)
  }

  function WithdrawIfExhausted(s: State, w: Identity): State {
    if s.FreeCapacity(w) <= 0 then Withdraw(s, w, |s.Types(w)|) else s
  }

  // ----- a client request -----

  function ClientRequest(
    env: Env, s: State, k: Key, vfs: VersionFlags, msg: Message): State
  {
    if k.kind !in s.contexts then
      s.WithContext(k.kind, NewContext().AddPendingRequest(k.id, vfs, Some(msg)))
       .(log := s.log + [Accept(k, vfs, msg)])
    else if s.Known(k) then
      RepeatedRequest(env, s, k, vfs, msg)
    else
      var ws := s.contexts[k.kind].available;
      if ws == {} then
        AddPending(s, k, vfs, Some(msg), [Accept(k, vfs, msg)])
      else
        var w := env.pick(s.sends, ws);
        var out := ForwardDirect(env, s, w, k, vfs, msg, Start(k, vfs, msg, w));
        if out.ok then WithdrawIfExhausted(out.state, w)
        else if out.state.Known(k) then
          // the request did go out and only its receipt failed: the record that exists is queued
          AddPending(out.state, k, vfs, None, [])
        else
          AddPending(out.state, k, vfs, Some(msg), [Accept(k, vfs, msg)])
  }

  function AddPending(
    s: State, k: Key, vfs: VersionFlags, msg: Option<Message>, actions: seq<Action>): State
  {
    if k.kind !in s.contexts then s
    else s.WithContext(k.kind, s.contexts[k.kind].AddPendingRequest(k.id, vfs, msg))
          .(log := s.log + actions)
  }

  /** Whom a stored request asks to be told, if it does: the way back its stored message has. */
  function NoticeOf(r: RequestState, flag: MessageFlag): Option<Message> {
    if r.vfs.Has(flag) && r.msg.Some? then Some(Envelope(r.msg.value)) else None
  }

  /** The same type and id again: redirected to the new client if the first asked for that, and
      rejected otherwise. */
  function RepeatedRequest(
    env: Env, s: State, k: Key, vfs: VersionFlags, msg: Message): State
    requires s.Known(k)
  {
    var r := s.Request(k);
    if !r.vfs.Has(AllowRedirect) then s.(log := s.log + [Reject(k, Envelope(msg))])
    else match r.place
      case Queued(_) =>
        s.WithContext(k.kind, s.contexts[k.kind].Put(k.id, r.(msg := Some(msg), vfs := vfs)))
         .(log := s.log + [Redirect(k, vfs, msg, None, NoticeOf(r, NotifyOnRedirect))])
      case Assigned(w) =>
        if !env.request(s.sends) then s.(sends := s.sends + 1)
        else
          var s1 := s.(sends := s.sends + 1,
                       log := s.log + [Redirect(k, vfs, msg, Some(w), NoticeOf(r, NotifyOnRedirect))]);
          var s2 := match CopyRequestForFlags(vfs, msg)
                    case None => s1.WithContext(k.kind, s1.contexts[k.kind].Put(k.id, r.(msg := None)))
                    case Some(copy) => HandleCopiedRequest(env, s1, k, vfs, copy).state;
          s2.WithContext(k.kind, s2.contexts[k.kind].Put(k.id, s2.Request(k).(vfs := vfs)))
  }

  // ----- a worker becomes ready -----

  /** A ready is taken up from a worker that is not known, with a capacity that is none below zero and
      at least one type. */
  predicate Enrols(s: State, w: Identity, capacity: int, types: seq<RequestType>) {
    w !in s.workers && capacity >= 0 && types != []
  }

  function HandleWorkerReady(
    env: Env, s: State, w: Identity, capacity: int, types: seq<RequestType>, delay: int): State
  {
    if !Enrols(s, w, capacity, types) then s
    else
      var s1 := s.WithWorker(w, Info(capacity, types, {}, s.now, s.now, delay, capacity, 0));
      var pass := NewWorkerPass(env, s1, w, 0, false);
      Rounds(env, pass.0, w, pass.1)
  }

  /** One type visited: whether more requests are pending anywhere, and whether the walk ends here. */
  datatype Visit = Visit(state: State, more: bool, stop: bool)

  /** The first pass over a new worker's types; the flag says whether more requests are pending. */
  function NewWorkerPass(env: Env, s: State, w: Identity, i: nat, more: bool): (out: (State, bool))
    ensures out.0.workers.Keys == s.workers.Keys && out.0.Types(w) == s.Types(w)
    decreases |s.Types(w)| - i
  {
    if i >= |s.Types(w)| then (s, more)
    else
      var v := NewWorkerVisit(env, s, w, i, more);
      NewWorkerPass(env, v.state, w, i + 1, v.more)
  }

  function NewWorkerVisit(env: Env, s: State, w: Identity, i: nat, more: bool): (v: Visit)
    requires i < |s.Types(w)|
    ensures v.state.workers.Keys == s.workers.Keys && v.state.Types(w) == s.Types(w)
  {
    var t := s.Types(w)[i];
    if t in s.contexts then
      NewWorkerServed(env, s.WithContext(t, s.contexts[t].IncrementNumWorkers()), w, i, more)
    else
      var c := NewContext().IncrementNumWorkers();
      Visit(s.WithContext(t, if s.FreeCapacity(w) > 0 then c.AddAvailableWorker(w) else c), more, false)
  }

  /** The new worker is offered the first pending request of a type it has been counted for. */
  function NewWorkerServed(env: Env, s: State, w: Identity, i: nat, more: bool): (v: Visit)
    requires i < |s.Types(w)|
    ensures v.state.workers.Keys == s.workers.Keys && v.state.Types(w) == s.Types(w)
  {
    var t := s.Types(w)[i];
    if s.FreeCapacity(w) <= 0 then Visit(s, more, false)
    else if s.Pending(t) == [] then Visit(AddAvailable(s, t, w), more, false)
    else
      var out := ForwardQueued(env, s, w, Key(t, s.Pending(t)[0].id));
      if !out.ok then Visit(AddAvailable(out.state, t, w), true, false)
      else if out.state.FreeCapacity(w) <= 0 then Visit(Withdraw(out.state, w, i), more, false)
      else Visit(AddAvailable(out.state, t, w), more || out.state.Pending(t) != [], false)
  }

  /** The round-robin sweeps: round after round while the last one left both capacity and requests. */
  function Rounds(env: Env, s: State, w: Identity, more: bool): State
    decreases if more then 1 else 0, s.FreeCapacity(w)
  {
    if s.FreeCapacity(w) <= 0 || !more then s
    else
      var round := Sweep(env, s, w, 0, false);
      if round.1 then Rounds(env, round.0, w, true) else round.0
  }

  /** One round from the i-th type on: the state after it, and whether more requests are pending. */
  function Sweep(env: Env, s: State, w: Identity, i: nat, more: bool): (out: (State, bool))
    ensures out.0.workers.Keys == s.workers.Keys && out.0.Types(w) == s.Types(w)
    ensures out.0.FreeCapacity(w) <= s.FreeCapacity(w)
    ensures out.1 ==> more || out.0.FreeCapacity(w) < s.FreeCapacity(w)
    decreases |s.Types(w)| - i
  {
    if i >= |s.Types(w)| then (s, more)
    else
      var v := SweepVisit(env, s, w, i, more);
      if v.stop then (v.state, v.more) else Sweep(env, v.state, w, i + 1, v.more)
  }

  function SweepVisit(env: Env, s: State, w: Identity, i: nat, more: bool): (v: Visit)
    requires i < |s.Types(w)|
    ensures v.state.workers.Keys == s.workers.Keys && v.state.Types(w) == s.Types(w)
    ensures v.state.FreeCapacity(w) <= s.FreeCapacity(w)
    ensures v.more ==> more || v.state.FreeCapacity(w) < s.FreeCapacity(w)
  {
    var t := s.Types(w)[i];
    if s.Pending(t) == [] then Visit(s, more, false)
    else
      var out := ForwardQueued(env, s, w, Key(t, s.Pending(t)[0].id));
      if !out.ok then Visit(out.state, more, false)
      else if out.state.FreeCapacity(w) <= 0 then Visit(Withdraw(out.state, w, i + 1), more, true)
      else Visit(out.state, more || out.state.Pending(t) != [], false)
  }

  // ----- a worker finishes -----

  /** A request that is in progress at no registered worker. */
  predicate Stranded(s: State, k: Key) {
    && s.Known(k)
    && s.Request(k).place.Assigned?
    && (forall w | w in s.workers :: k !in s.Held(w))
  }

  function HandleWorkerFinished(env: Env, s: State, w: Identity, k: Key): State {
    if w !in s.workers then s
    else
      var s1 := s
        .WithWorker(w, s.workers[w].RemoveInProgressRequest(k).(workerLastActive := s.now))
        .(log := s.log + FinishActions(s, w, k));
      var pass := if s1.FreeCapacity(w) > 0 then FinishPass(env, s1, w, k, 0, false, false)
                  else Pass(s1, false, false);
      Rounds(env, if pass.removed then pass.state else RemoveInProgress(pass.state, k), w, pass.more)
  }

  function FinishActions(s: State, w: Identity, k: Key): seq<Action> {
    if k in s.Held(w) then [Finish(k, w)]
    else if Stranded(s, k) then [Forget(k)]
    else []
  }

  function RemoveInProgress(s: State, k: Key): State {
    if k.kind in s.contexts then s.WithContext(k.kind, s.contexts[k.kind].RemoveInProgressRequest(k.id))
    else s
  }

  datatype Pass = Pass(state: State, removed: bool, more: bool)

  /** The first pass over a finished worker's types. The finished request is erased on the way if
      its type is reached, and one request per type is handed over until the capacity is gone. */
  function FinishPass(env: Env, s: State, w: Identity, k: Key, i: nat, removed: bool, more: bool): (p: Pass)
    ensures p.state.workers.Keys == s.workers.Keys && p.state.Types(w) == s.Types(w)
    decreases |s.Types(w)| - i
  {
    if i >= |s.Types(w)| then Pass(s, removed, more)
    else
      var t := s.Types(w)[i];
      if t !in s.contexts then FinishPass(env, s, w, k, i + 1, removed, more)
      else
        var next := s.Pending(t);
        var erase := !removed && t == k.kind;
        var v := FinishVisit(env, if erase then RemoveInProgress(s, k) else s, w, i, next, more);
        if v.stop then Pass(v.state, removed || erase, v.more)
        else FinishPass(env, v.state, w, k, i + 1, removed || erase, v.more)
  }

  function FinishVisit(env: Env, s: State, w: Identity, i: nat, next: seq<Node>, more: bool): (v: Visit)
    requires i < |s.Types(w)|
    ensures v.state.workers.Keys == s.workers.Keys && v.state.Types(w) == s.Types(w)
  {
    var t := s.Types(w)[i];
    if next == [] then Visit(AddAvailable(s, t, w), more, false)
    else
      var out := ForwardQueued(env, s, w, Key(t, next[0].id));
      if !out.ok then Visit(AddAvailable(out.state, t, w), true, false)
      else if out.state.FreeCapacity(w) <= 0 then Visit(Withdraw(out.state, w, i + 1), more, true)
      else Visit(AddAvailable(out.state, t, w), more || out.state.Pending(t) != [], false)
  }

  // ----- a worker dies -----

  const MAX_TRY_COUNT := 2

  function CheckWorkersPulse(env: Env, s: State, deathDelay: int): State {
    PulseFrom(env, s, env.roster(s.At(), s.workers.Keys), deathDelay)
  }

  function PulseFrom(env: Env, s: State, ws: seq<Identity>, deathDelay: int): State
    decreases |ws|
  {
    if ws == [] then s
    else if ws[0] !in s.workers || s.workers[ws[0]].IsAliveAsOf(s.now, deathDelay) then
      PulseFrom(env, s, ws[1..], deathDelay)
    else
      PulseFrom(env, RemoveWorker(DeadWorker(env, s, ws[0], 0), ws[0]), ws[1..], deathDelay)
  }

  function RemoveWorker(s: State, w: Identity): State {
    s.(workers := s.workers - {w})
  }

  /** A dead worker leaves its types from the i-th on, and each request it held of them is settled. */
  function DeadWorker(env: Env, s: State, w: Identity, i: nat): State
    decreases |s.Types(w)| - i
  {
    if i >= |s.Types(w)| then s
    else
      var t := s.Types(w)[i];
      if t !in s.contexts then DeadWorker(env, s, w, i + 1)
      else
        var c := s.contexts[t].DecrementNumWorkers().RemoveAvailableWorker(w);
        var s1 := s.WithContext(t, c);
        DeadWorker(env, SettleAll(env, s1, w, t, env.order(s.At(), w, t, HeldIds(s, w, t))), w, i + 1)
  }

  function HeldIds(s: State, w: Identity, t: RequestType): set<RequestId> {
    set k | k in s.Held(w) && k.kind == t :: k.id
  }

  function SettleAll(env: Env, s: State, w: Identity, t: RequestType, ids: seq<RequestId>): (s': State)
    ensures s'.Types(w) == s.Types(w)
    decreases |ids|
  {
    if ids == [] then s
    else SettleAll(env, Settle(env, s, w, Key(t, ids[0])), w, t, ids[1..])
  }

  /** One request of a dead worker: handed to another worker, queued again, failed, or left alone. */
  function Settle(env: Env, s: State, w: Identity, k: Key): (s': State)
    ensures s'.Types(w) == s.Types(w)
  {
    if !s.Known(k) then s
    else
      var r := s.Request(k);
      if r.vfs.Has(RetryOnDeath) && r.tryCount < MAX_TRY_COUNT then
        var ws := s.contexts[k.kind].available;
        if ws == {} then BackToPending(s, k, [Requeue(k, w)])
        else
          var w2 := env.pick(s.sends, ws);
          var msg := r.msg.GetOr([]);
          var out := ForwardDirect(env, s, w2, k, r.vfs, msg, Move(k, w, w2, msg));
          if out.ok then WithdrawIfExhausted(out.state, w2)
          // after a lost receipt the request is queued although the other worker has it
          else BackToPending(out.state, k, if env.request(s.sends) then [] else [Requeue(k, w)])
      else if r.vfs.Has(NotifyOnDeath) || !r.vfs.Has(RetryOnDeath) then
        RemoveInProgress(s, k).(log := s.log + [Fail(k, w, NoticeOf(r, NotifyOnDeath))])
      else
        s.(log := s.log + [Strand(k, w)])
  }

  function BackToPending(s: State, k: Key, actions: seq<Action>): State {
    if !s.Known(k) then s
    else s.WithContext(k.kind, s.contexts[k.kind].BackToPending(k.id)).(log := s.log + actions)
  }

  // ----- messages that only refresh times -----

  function HandleWorkerHeartbeat(s: State, w: Identity, sentAt: int, delay: int, minimumDelay: int): State {
    if w in s.workers && 0 < sentAt <= s.now && delay >= minimumDelay then
      s.WithWorker(w, s.workers[w].(workerLastActive := s.now, heartbeatSendDelay := delay))
    else s
  }

  function HandleWorkerReceipt(s: State, w: Identity): State {
    if w in s.workers then s.WithWorker(w, s.workers[w].(workerLastActive := s.now)) else s
  }

  // ----- runs -----

  datatype Event =
    | Tick(now: int)
    | Ask(key: Key, vfs: VersionFlags, msg: Message)
    | Ready(worker: Identity, capacity: int, types: seq<RequestType>, delay: int)
    | Finished(worker: Identity, key: Key)
    | Pulse(deathDelay: int)
    | Beat(worker: Identity, sentAt: int, delay: int, minimumDelay: int)
    | Received(worker: Identity)

  function Step(env: Env, s: State, e: Event): State {
    match e
    case Tick(now) => s.(now := now)
    case Ask(k, vfs, msg) => ClientRequest(env, s, k, vfs, msg)
    case Ready(w, capacity, types, delay) => HandleWorkerReady(env, s, w, capacity, types, delay)
    case Finished(w, k) => HandleWorkerFinished(env, s, w, k)
    case Pulse(deathDelay) => CheckWorkersPulse(env, s, deathDelay)
    case Beat(w, sentAt, delay, minimumDelay) => HandleWorkerHeartbeat(s, w, sentAt, delay, minimumDelay)
    case Received(w) => HandleWorkerReceipt(s, w)
  }

  function Run(env: Env, s: State, events: seq<Event>): State {
    if events == [] then s else Step(env, Run(env, s, events[..|events| - 1]), events[|events| - 1])
  }
}

/** Safety of the broker over whole runs. */
module Safety {
  import opened Wrappers
  import opened Cluster
  import opened RequestContexts
  import opened Scheduler
  import opened AbstractScheduler
  import opened Agreement
  import opened Requests
  import opened Workers
  import opened Deaths

  /** What each event must respect for the code to keep its tables in agreement. */
  ghost predicate Sound(env: Env, s: State, e: Event) {
    match e
    case Ask(k, vfs, _) => !ReceiptLost(env, s, k, vfs)
    case Ready(w, capacity, types, _) => Enrols(s, w, capacity, types) ==> Distinct(types)
    case Finished(w, k) => FinishSafe(s, w, k)
    case Pulse(deathDelay) => PulseSafe(env, s, env.roster(s.At(), s.workers.Keys), deathDelay)
    case _ => true
  }

  ghost predicate SoundRun(env: Env, s: State, events: seq<Event>) {
    events != [] ==>
      var before := events[..|events| - 1];
      SoundRun(env, s, before) && Sound(env, Run(env, s, before), events[|events| - 1])
  }

  lemma StartAgrees()
    ensures Inv(Start0, Settled)
  {
    assert Represents(Start0, Empty, Settled);
  }

  lemma StepAgrees(env: Env, s: State, e: Event)
    requires Fair(env) && Inv(s, Settled) && Sound(env, s, e)
    ensures Inv(Step(env, s, e), Settled)
  {
    match e
    case Tick(_) => Unaffected(s, Step(env, s, e), Settled);
    case Ask(k, vfs, msg) => ClientRequestAgrees(env, s, k, vfs, msg);
    case Ready(w, capacity, types, delay) => ReadyAgrees(env, s, w, capacity, types, delay);
    case Finished(w, k) => FinishedAgrees(env, s, w, k);
    case Pulse(deathDelay) =>
      PulseAgrees(env, s, env.roster(s.At(), s.workers.Keys), deathDelay);
    case Beat(w, sentAt, delay, minimumDelay) =>
      if w in s.workers {
        Refreshed(s, Step(env, s, e), w, Step(env, s, e).workers[w], Settled);
      }
    case Received(w) =>
      if w in s.workers {
        Refreshed(s, Step(env, s, e), w, Step(env, s, e).workers[w], Settled);
      }
  }

  /** In every state a sound run reaches, the tables agree with each other and the whole history is a
      legal run of the abstract scheduler that ends in the state the tables represent. */
  lemma {:induction false} RunAgrees(env: Env, events: seq<Event>)
    requires Fair(env) && SoundRun(env, Start0, events)
    ensures Inv(Run(env, Start0, events), Settled)
  {
    hide Inv, Sound;
    if events == [] {
      StartAgrees();
    } else {
      RunAgrees(env, events[..|events| - 1]);
      StepAgrees(env, Run(env, Start0, events[..|events| - 1]), events[|events| - 1]);
    }
  }

  // ----- what the agreement says of a reachable state -----

  /** A known request is in exactly one place: once in its type's list, under its own cursor; or in
      the hands of one registered worker; or, if a death left it alone, nowhere. */
  lemma OnePlace(s: State, k: Key)
    requires Inv(s, Settled) && s.Known(k)
    ensures s.Request(k).place.Queued? ==>
              && (exists i :: 0 <= i < |s.Pending(k.kind)|
                              && s.Pending(k.kind)[i] == Node(s.Request(k).place.cursor, k.id))
              && (forall i, j :: 0 <= i < j < |s.Pending(k.kind)| ==>
                    s.Pending(k.kind)[i].id != k.id || s.Pending(k.kind)[j].id != k.id)
              && (forall w :: w in s.workers ==> k !in s.workers[w].held)
    ensures s.Request(k).place.Assigned? ==>
              && (forall i :: 0 <= i < |s.Pending(k.kind)| ==> s.Pending(k.kind)[i].id != k.id)
              && (forall v, w :: k in s.Held(v) && k in s.Held(w) ==> v == w)
    ensures Stranded(s, k) <==> Replay(s.log).value.jobs[k].where.Lost?
  {
    var a := Replay(s.log).value;
    var c := s.contexts[k.kind];
    assert ListAgrees(c) && JobAgrees(s.Request(k), a.jobs[k]);
    forall w | w in s.workers
      ensures k in s.workers[w].held <==> a.jobs[k].where == Running(w)
    {
      assert k in HeldBy(s, w, Settled) <==> a.RunningAt(k, w);
    }
    if a.jobs[k].where.Running? {
      var w := a.jobs[k].where.worker;
      assert a.RunningAt(k, w);
      assert w in s.workers && k in s.Held(w);
    }
  }

  /** Nothing refers to what is not there: every list node, every held key and every available worker. */
  lemma NothingDangles(s: State)
    requires Inv(s, Settled)
    ensures forall t, i :: t in s.contexts && 0 <= i < |s.contexts[t].pending| ==>
              s.Known(Key(t, s.contexts[t].pending[i].id))
    ensures forall w, k :: w in s.workers && k in s.workers[w].held ==> s.Known(k)
    ensures forall t, w :: t in s.contexts && w in s.contexts[t].available ==> w in s.workers
  {
    forall t, i | t in s.contexts && 0 <= i < |s.contexts[t].pending|
      ensures s.Known(Key(t, s.contexts[t].pending[i].id))
    {
      assert ListAgrees(s.contexts[t]);
    }
    forall w, k | w in s.workers && k in s.workers[w].held
      ensures s.Known(k)
    {
      HeldIsAssigned(s, w, k);
    }
  }

  /** What a reachable state's history says of one life: every hand-over except a direct retry is
      counted and at most two are; a request that asked for a send receipt and was never redirected
      got exactly one attempt at it, at its first hand-over; the stored copy is what a retry or a
      notification needs; and the record names the holder unless the last hand-over was a direct retry. */
  lemma LifeOf(s: State, k: Key)
    requires Inv(s, Settled) && s.Known(k)
    ensures var r := s.Request(k);
            var job := Replay(s.log).value.jobs[k];
            && job.dispatches == r.tryCount + job.moves && job.dispatches <= MAX_TRY_COUNT + job.moves
            && (!job.redirected ==>
                  job.receipts == (if job.vfs.Has(ReceiptOnSend) && job.dispatches > 0 then 1 else 0))
            && (r.place.Queued? || r.vfs.Has(RetryOnDeath) ==> r.msg == Some(job.msg))
            && (r.vfs.HasAny({NotifyOnDeath, NotifyOnRedirect}) ==>
                  r.msg.Some? && Envelope(r.msg.value) == Envelope(job.msg))
            && r.vfs.flags - {ReceiptOnSend} == job.vfs.flags - {ReceiptOnSend}
            && (job.where.Running? && !job.stale ==> r.place == Assigned(job.where.worker))
            && (r.place.Assigned? && !job.stale ==> k in s.Held(r.place.worker) || Stranded(s, k))
  {
    var a := Replay(s.log).value;
    assert k in a.jobs && JobAgrees(s.Request(k), a.jobs[k]);
    OnePlace(s, k);
    if a.jobs[k].where.Running? {
      assert a.RunningAt(k, a.jobs[k].where.worker);
    }
  }

  /** Over any sound run no capacity is lost or made up: what a worker has free and what it holds add up
      to what it advertised and its finishes for requests it did not hold; and it holds only requests
      of types it supports. */
  lemma CapacityConserved(env: Env, events: seq<Event>, w: Identity)
    requires Fair(env) && SoundRun(env, Start0, events)
    ensures var s := Run(env, Start0, events);
            w in s.workers ==>
              && s.workers[w].freeCapacity + |s.workers[w].held| == s.workers[w].advertised + s.workers[w].strays
              && (forall k :: k in s.workers[w].held ==> k.kind in s.workers[w].types)
  {
    RunAgrees(env, events);
    var s := Run(env, Start0, events);
    hide Run, SoundRun;
    assert w in s.workers ==> InfoAgrees(s.workers[w]);
  }

  // ----- what is sent, and to whom -----

  datatype Asking = Asking(vfs: VersionFlags, msg: Message)

  /** What an action asks for under a key, if it does. */
  function Asked(x: Action, k: Key): Option<Asking> {
    match x
    case Accept(other, vfs, msg) => if other == k then Some(Asking(vfs, msg)) else None
    case Start(other, vfs, msg, _) => if other == k then Some(Asking(vfs, msg)) else None
    case Redirect(other, vfs, msg, _, _) => if other == k then Some(Asking(vfs, msg)) else None
    case _ => None
  }

  /** What was last asked for under a key. */
  function LastAsked(log: seq<Action>, k: Key): Option<Asking> {
    if log == [] then None
    else
      var last := Asked(log[|log| - 1], k);
      if last.Some? then last else LastAsked(log[..|log| - 1], k)
  }

  lemma AppliedJob(a: Abs, x: Action, k: Key)
    requires Legal(a, x) && k in Apply(a, x).jobs
    ensures var job := Apply(a, x).jobs[k];
            if Asked(x, k).Some? then Asked(x, k) == Some(Asking(job.vfs, job.msg))
            else k in a.jobs && job.vfs == a.jobs[k].vfs && job.msg == a.jobs[k].msg
  {
  }

  lemma {:induction false} JobIsLastAsked(log: seq<Action>, k: Key)
    requires Replay(log).Some? && k in Replay(log).value.jobs
    ensures var job := Replay(log).value.jobs[k];
            LastAsked(log, k) == Some(Asking(job.vfs, job.msg))
  {
    hide Legal, Apply;
    var before := log[..|log| - 1];
    AppliedJob(Replay(before).value, log[|log| - 1], k);
    if Asked(log[|log| - 1], k).None? {
      JobIsLastAsked(before, k);
    }
  }

  /** Of one step: a worker is sent what was last asked for, and a receipt or a notice goes along the
      envelope that came with, if and only if its flags ask for it. */
  predicate SentAsAsked(x: Action, last: Option<Asking>) {
    match x
    case Dispatch(_, _, msg) => last.Some? && msg == last.value.msg
    case Move(_, _, _, msg) => last.Some? && msg == last.value.msg
    case Receipt(_, envelope) =>
      last.Some? && envelope == Envelope(last.value.msg) && last.value.vfs.Has(ReceiptOnSend)
    case Redirect(_, _, _, _, notice) => last.Some? && notice == ToldAs(last.value, NotifyOnRedirect)
    case Fail(_, _, notice) => last.Some? && notice == ToldAs(last.value, NotifyOnDeath)
    case Reject(_, _) => last.Some? && !last.value.vfs.Has(AllowRedirect)
    case _ => true
  }

  function ToldAs(last: Asking, flag: MessageFlag): Option<Message> {
    if last.vfs.Has(flag) then Some(Envelope(last.msg)) else None
  }

  /** Over any sound run every hand-over, receipt, redirect, rejection and death notice is for what was
      last asked for under its key, and goes to the client that asked. */
  lemma HistoryAsAsked(env: Env, events: seq<Event>, i: nat)
    requires Fair(env) && SoundRun(env, Start0, events)
    requires i < |Run(env, Start0, events).log|
    ensures var log := Run(env, Start0, events).log;
            SentAsAsked(log[i], LastAsked(log[..i], log[i].key))
  {
    RunAgrees(env, events);
    var log := Run(env, Start0, events).log;
    hide Run, SoundRun;
    StepAsAsked(log, i);
  }

  lemma StepAsAsked(log: seq<Action>, i: nat)
    requires Replay(log).Some? && i < |log|
    ensures SentAsAsked(log[i], LastAsked(log[..i], log[i].key))
  {
    var upTo := log[..i + 1];
    assert log == upTo + log[i + 1..];
    ReplayPrefix(upTo, log[i + 1..]);
    assert upTo[..i] == log[..i] && upTo[i] == log[i];
    var a := Replay(log[..i]).value;
    assert Legal(a, log[i]);
    if log[i].key in a.jobs {
      JobIsLastAsked(log[..i], log[i].key);
    }
  }

  // ----- where a redirect goes -----

  function NamedAfter(x: Action, k: Key, was: Option<Identity>): Option<Identity> {
    if x.key != k then was
    else match x
      case Accept(_, _, _) => None
      case Start(_, _, _, w) => Some(w)
      case Dispatch(_, w, _) => Some(w)
      case _ => was
  }

  function HolderAfter(x: Action, k: Key, was: Option<Identity>): Option<Identity> {
    if x.key != k then was
    else match x
      case Start(_, _, _, w) => Some(w)
      case Dispatch(_, w, _) => Some(w)
      case Move(_, _, to, _) => Some(to)
      case Receipt(_, _) => was
      case Redirect(_, _, _, _, _) => was
      case Reject(_, _) => was
      case _ => None
  }

  /** The worker a request was last handed to otherwise than by a direct retry. */
  function Named(log: seq<Action>, k: Key): Option<Identity> {
    if log == [] then None else NamedAfter(log[|log| - 1], k, Named(log[..|log| - 1], k))
  }

  /** The worker it was handed to last, if it was neither answered, nor lost, nor taken back since. */
  function Holder(log: seq<Action>, k: Key): Option<Identity> {
    if log == [] then None else HolderAfter(log[|log| - 1], k, Holder(log[..|log| - 1], k))
  }

  /** Whether it was handed over last by a direct retry. */
  function RetriedLast(log: seq<Action>, k: Key): bool {
    && log != []
    && var x := log[|log| - 1];
       if x.key == k && (x.Accept? || x.Start? || x.Dispatch? || x.Move?) then x.Move?
       else RetriedLast(log[..|log| - 1], k)
  }

  /** The abstract scheduler's job of a key, if there is one, says just that. */
  predicate JobIsHistory(a: Abs, k: Key, named: Option<Identity>, holder: Option<Identity>, retried: bool) {
    if k in a.jobs then
      && a.jobs[k].named == named && a.jobs[k].stale == retried
      && holder == (if a.jobs[k].where.Running? then Some(a.jobs[k].where.worker) else None)
      && (a.jobs[k].where.Running? && !retried ==> named == holder)
    else holder == None
  }

  lemma AppliedHistory(
    a: Abs, x: Action, k: Key, named: Option<Identity>, holder: Option<Identity>, retried: bool)
    requires Legal(a, x) && JobIsHistory(a, k, named, holder, retried)
    ensures JobIsHistory(Apply(a, x), k, NamedAfter(x, k, named), HolderAfter(x, k, holder),
                         if x.key == k && (x.Accept? || x.Start? || x.Dispatch? || x.Move?) then x.Move? else retried)
  {
  }

  lemma {:induction false} HistoryTells(log: seq<Action>, k: Key)
    requires Replay(log).Some?
    ensures JobIsHistory(Replay(log).value, k, Named(log, k), Holder(log, k), RetriedLast(log, k))
  {
    hide Legal, Apply, JobIsHistory;
    if log == [] {
      NothingYet(k);
    } else {
      var before := log[..|log| - 1];
      HistoryTells(before, k);
      AppliedHistory(Replay(before).value, log[|log| - 1], k, Named(before, k), Holder(before, k),
                     RetriedLast(before, k));
    }
  }

  lemma NothingYet(k: Key)
    ensures JobIsHistory(Empty, k, None, None, false)
  {
  }

  /** In every state a sound run reaches, the history says who holds each request. */
  lemma HeldIsHistory(s: State, k: Key, w: Identity)
    requires Inv(s, Settled)
    ensures k in s.Held(w) <==> Holder(s.log, k) == Some(w)
  {
    HistoryTells(s.log, k);
    var a := Replay(s.log).value;
    assert k in HeldBy(s, w, Settled) <==> a.RunningAt(k, w);
  }

  lemma NamedIsHistory(s: State, k: Key)
    requires Inv(s, Settled) && s.Known(k) && s.Request(k).place.Assigned?
    ensures Named(s.log, k) == Some(s.Request(k).place.worker)
    ensures Holder(s.log, k).Some? && !RetriedLast(s.log, k) ==> Holder(s.log, k) == Named(s.log, k)
    ensures Holder(s.log, k).None? ==> Stranded(s, k)
  {
    HistoryTells(s.log, k);
    var a := Replay(s.log).value;
    assert k in a.jobs && JobAgrees(s.Request(k), a.jobs[k]);
    OnePlace(s, k);
  }

  /** After any sound run, the new client of a request in progress is announced to the worker the
      request was last handed to otherwise than by a direct retry; that worker has the request exactly
      if it is the last one to which it was handed at all, so the redirect can only miss a request that
      was retried directly or that a death left nowhere. */
  lemma RedirectReachesIff(env: Env, events: seq<Event>, k: Key, vfs: VersionFlags, msg: Message)
    requires Fair(env) && SoundRun(env, Start0, events)
    requires var s := Run(env, Start0, events);
             && s.Known(k) && s.Request(k).vfs.Has(AllowRedirect) && s.Request(k).place.Assigned?
             && env.request(s.sends)
    ensures var s := Run(env, Start0, events);
            var s' := Step(env, s, Ask(k, vfs, msg));
            && s.log <= s'.log && |s.log| < |s'.log|
            && var x := s'.log[|s.log|];
               && x.Redirect? && x.key == k && x.vfs == vfs && x.msg == msg
               && x.holder == Named(s.log, k) && x.holder.Some?
               && (k in s.Held(x.holder.value) <==> Holder(s.log, k) == x.holder)
               && (k !in s.Held(x.holder.value) ==> RetriedLast(s.log, k) || Stranded(s, k))
  {
    RunAgrees(env, events);
    var s := Run(env, Start0, events);
    hide Run, SoundRun, Inv, Fair;
    RepeatedRequestIs(env, s, k, vfs, msg);
    NamedIsHistory(s, k);
    HeldIsHistory(s, k, s.Request(k).place.worker);
  }

  // ----- first in, first out -----

  /** The ids that entered a type's queue, in order: new requests and retries alike. */
  function Enqueued(log: seq<Action>, t: RequestType): seq<RequestId> {
    if log == [] then []
    else
      var before := Enqueued(log[..|log| - 1], t);
      match log[|log| - 1]
      case Accept(k, _, _) => if k.kind == t then before + [k.id] else before
      case Requeue(k, _) => if k.kind == t then before + [k.id] else before
      case _ => before
  }

  /** The ids that left a type's queue for a worker, in order. */
  function Dequeued(log: seq<Action>, t: RequestType): seq<RequestId> {
    if log == [] then []
    else
      var before := Dequeued(log[..|log| - 1], t);
      match log[|log| - 1]
      case Dispatch(k, _, _) => if k.kind == t then before + [k.id] else before
      case _ => before
  }

  lemma {:induction false} QueueHistory(log: seq<Action>, t: RequestType)
    requires Replay(log).Some?
    ensures Enqueued(log, t) == Dequeued(log, t) + Replay(log).value.Queue(t)
  {
    if log != [] {
      var before := log[..|log| - 1];
      QueueHistory(before, t);
      var a := Replay(before).value;
      match log[|log| - 1]
      case Dispatch(k, w, msg) =>
        if k.kind == t {
          assert a.Queue(t) == [k.id] + a.Queue(t)[1..];
        }
      case _ =>
    }
  }

  /** Over any sound run, what entered a queue is what left it followed by what is still pending. */
  lemma FirstInFirstOut(env: Env, events: seq<Event>, t: RequestType)
    requires Fair(env) && SoundRun(env, Start0, events)
    ensures var s := Run(env, Start0, events);
            Enqueued(s.log, t) == Dequeued(s.log, t) + Ids(s.Pending(t))
  {
    RunAgrees(env, events);
    var s := Run(env, Start0, events);
    QueueHistory(s.log, t);
    assert Replay(s.log).value.Queue(t) == Ids(s.Pending(t));
  }
}

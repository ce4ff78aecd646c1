/** Where the code departs from its stated intent: exactly when, and what follows. */
module Departures {
  import opened Cluster
  import opened RequestContexts
  import opened Scheduler
  import opened AbstractScheduler
  import opened Agreement
  import opened Forwarding
  import opened Requests
  import opened Workers
  import opened Deaths
  import opened Safety
  import opened Availability
  import opened Conservation

  // ----- a finish that names a request the worker does not have -----

  /** A known request that a worker holds, or that a node of its list refers to. */
  ghost predicate Marked(s: State, k: Key, v: Identity, tag: nat) {
    && s.Known(k)
    && (k in s.Held(v)
        || (Node(tag, k.id) in s.Pending(k.kind)
            && (forall id :: id != k.id && s.Known(Key(k.kind, id)) ==>
                  s.Request(Key(k.kind, id)).place != Queued(tag))))
  }

  /** The same of a request whose record is gone. */
  ghost predicate Dangling(s: State, k: Key, v: Identity, tag: nat) {
    && !s.Known(k)
    && (k in s.Held(v)
        || (Node(tag, k.id) in s.Pending(k.kind)
            && (forall id :: id != k.id && s.Known(Key(k.kind, id)) ==>
                  s.Request(Key(k.kind, id)).place != Queued(tag))))
  }

  lemma ReferredIsKnown(s: State, k: Key, v: Identity, tag: nat)
    requires Inv(s, Settled)
    ensures k in s.Held(v) || Node(tag, k.id) in s.Pending(k.kind) ==> s.Known(k)
  {
    NothingDangles(s);
    if Node(tag, k.id) in s.Pending(k.kind) {
      var i :| 0 <= i < |s.Pending(k.kind)| && s.Pending(k.kind)[i] == Node(tag, k.id);
      assert s.Known(Key(k.kind, s.contexts[k.kind].pending[i].id));
    }
  }

  lemma DanglingBreaks(s: State, k: Key, v: Identity, tag: nat)
    requires Dangling(s, k, v, tag)
    ensures !Inv(s, Settled)
  {
    hide Inv;
    if Inv(s, Settled) {
      ReferredIsKnown(s, k, v, tag);
      assert false;
    }
  }

  lemma {:induction false} EraseKeepsNode(list: seq<Node>, tag: nat, node: Node)
    requires node in list && node.tag != tag
    ensures node in EraseNode(list, tag)
  {
    if list[0] != node && list[0].tag != tag {
      EraseKeepsNode(list[1..], tag, node);
      assert EraseNode(list, tag)[1..] == EraseNode(list[1..], tag);
    }
  }

  lemma ForwardStaysDangling(env: Env, s: State, w: Identity, other: Key, k: Key, v: Identity, tag: nat)
    requires Dangling(s, k, v, tag)
    ensures Dangling(ForwardQueued(env, s, w, other).state, k, v, tag)
  {
    if s.Known(other) && s.Request(other).place.Queued? && w in s.workers && env.request(s.sends) {
      ForwardQueuedIs(env, s, w, other);
      hide ForwardQueued;
      if k !in s.Held(v) && other.kind == k.kind {
        EraseKeepsNode(s.Pending(k.kind), s.Request(other).place.cursor, Node(tag, k.id));
      }
    }
  }

  lemma ForwardStaysMarked(env: Env, s: State, w: Identity, other: Key, k: Key, v: Identity, tag: nat)
    requires Marked(s, k, v, tag) && other.kind != k.kind
    ensures Marked(ForwardQueued(env, s, w, other).state, k, v, tag)
  {
    if s.Known(other) && s.Request(other).place.Queued? && w in s.workers && env.request(s.sends) {
      ForwardQueuedIs(env, s, w, other);
      hide ForwardQueued;
    }
  }

  /** Only sets of available workers changed. */
  ghost predicate SameRequests(s: State, s': State) {
    && s'.workers == s.workers && s'.contexts.Keys == s.contexts.Keys
    && (forall t :: t in s.contexts ==>
          s'.contexts[t].requests == s.contexts[t].requests && s'.contexts[t].pending == s.contexts[t].pending)
  }

  lemma {:induction false} WithdrawSameRequests(s: State, w: Identity, n: nat)
    ensures SameRequests(s, Withdraw(s, w, n))
  {
    if n != 0 && n <= |s.Types(w)| {
      WithdrawSameRequests(s, w, n - 1);
    }
  }

  lemma SameStays(s: State, s': State, k: Key, v: Identity, tag: nat)
    requires SameRequests(s, s')
    ensures Dangling(s, k, v, tag) ==> Dangling(s', k, v, tag)
    ensures Marked(s, k, v, tag) ==> Marked(s', k, v, tag)
  {
    forall id
      ensures s'.Known(Key(k.kind, id)) <==> s.Known(Key(k.kind, id))
      ensures s.Known(Key(k.kind, id)) ==> s'.Request(Key(k.kind, id)) == s.Request(Key(k.kind, id))
    {
    }
  }

  lemma VisitsStay(s: State, w: Identity, t: RequestType, i: nat, k: Key, v: Identity, tag: nat)
    ensures Dangling(s, k, v, tag) ==>
              Dangling(AddAvailable(s, t, w), k, v, tag) && Dangling(Withdraw(s, w, i), k, v, tag)
    ensures Marked(s, k, v, tag) ==>
              Marked(AddAvailable(s, t, w), k, v, tag) && Marked(Withdraw(s, w, i), k, v, tag)
  {
    WithdrawSameRequests(s, w, i);
    hide Dangling, Marked, Withdraw;
    SameStays(s, Withdraw(s, w, i), k, v, tag);
    SameStays(s, AddAvailable(s, t, w), k, v, tag);
  }

  lemma FinishVisitStays(
    env: Env, s: State, w: Identity, i: nat, next: seq<Node>, more: bool, k: Key, v: Identity, tag: nat)
    requires i < |s.Types(w)|
    ensures Dangling(s, k, v, tag) ==> Dangling(FinishVisit(env, s, w, i, next, more).state, k, v, tag)
    ensures Marked(s, k, v, tag) && s.Types(w)[i] != k.kind ==>
              Marked(FinishVisit(env, s, w, i, next, more).state, k, v, tag)
  {
    hide Dangling, Marked;
    var t := s.Types(w)[i];
    if next == [] {
      VisitsStay(s, w, t, i, k, v, tag);
    } else {
      var other := Key(t, next[0].id);
      var s1 := ForwardQueued(env, s, w, other).state;
      if Dangling(s, k, v, tag) {
        ForwardStaysDangling(env, s, w, other, k, v, tag);
      }
      if Marked(s, k, v, tag) && t != k.kind {
        ForwardStaysMarked(env, s, w, other, k, v, tag);
      }
      VisitsStay(s1, w, t, i + 1, k, v, tag);
    }
  }

  lemma {:induction false} SweepStaysDangling(
    env: Env, s: State, w: Identity, i: nat, more: bool, k: Key, v: Identity, tag: nat)
    requires Dangling(s, k, v, tag)
    ensures Dangling(Sweep(env, s, w, i, more).0, k, v, tag)
    decreases |s.Types(w)| - i
  {
    hide Dangling, SweepVisit;
    if i < |s.Types(w)| {
      var visit := SweepVisit(env, s, w, i, more);
      SweepVisitStays(env, s, w, i, more, k, v, tag);
      if !visit.stop {
        SweepStaysDangling(env, visit.state, w, i + 1, visit.more, k, v, tag);
      }
    }
  }

  lemma SweepVisitStays(env: Env, s: State, w: Identity, i: nat, more: bool, k: Key, v: Identity, tag: nat)
    requires i < |s.Types(w)| && Dangling(s, k, v, tag)
    ensures Dangling(SweepVisit(env, s, w, i, more).state, k, v, tag)
  {
    hide Dangling, Marked;
    var t := s.Types(w)[i];
    if s.Pending(t) != [] {
      var other := Key(t, s.Pending(t)[0].id);
      ForwardStaysDangling(env, s, w, other, k, v, tag);
      VisitsStay(ForwardQueued(env, s, w, other).state, w, t, i + 1, k, v, tag);
    }
  }

  lemma {:induction false} RoundsStayDangling(
    env: Env, s: State, w: Identity, more: bool, k: Key, v: Identity, tag: nat)
    requires Dangling(s, k, v, tag)
    ensures Dangling(Rounds(env, s, w, more), k, v, tag)
    decreases if more then 1 else 0, s.FreeCapacity(w)
  {
    hide Dangling;
    if s.FreeCapacity(w) > 0 && more {
      SweepStaysDangling(env, s, w, 0, false, k, v, tag);
      var round := Sweep(env, s, w, 0, false);
      if round.1 {
        RoundsStayDangling(env, round.0, w, true, k, v, tag);
      }
    }
  }

  lemma MarkedErased(s: State, k: Key, v: Identity, tag: nat)
    requires Marked(s, k, v, tag)
    ensures Dangling(RemoveInProgress(s, k), k, v, tag)
  {
    var s' := RemoveInProgress(s, k);
    forall id | id != k.id
      ensures s'.Known(Key(k.kind, id)) <==> s.Known(Key(k.kind, id))
      ensures s.Known(Key(k.kind, id)) ==> s'.Request(Key(k.kind, id)) == s.Request(Key(k.kind, id))
    {
    }
  }

  lemma {:induction false} FinishPassLeaves(
    env: Env, s: State, w: Identity, k: Key, i: nat, removed: bool, more: bool, v: Identity, tag: nat)
    requires if removed then Dangling(s, k, v, tag) else Marked(s, k, v, tag)
    ensures var p := FinishPass(env, s, w, k, i, removed, more);
            if p.removed then Dangling(p.state, k, v, tag) else Marked(p.state, k, v, tag)
    decreases |s.Types(w)| - i
  {
    hide Dangling, Marked;
    if i < |s.Types(w)| {
      var t := s.Types(w)[i];
      if t !in s.contexts {
        FinishPassLeaves(env, s, w, k, i + 1, removed, more, v, tag);
      } else {
        var erase := !removed && t == k.kind;
        var s1 := if erase then RemoveInProgress(s, k) else s;
        if erase {
          MarkedErased(s, k, v, tag);
        }
        FinishVisitStays(env, s1, w, i, s.Pending(t), more, k, v, tag);
        var visit := FinishVisit(env, s1, w, i, s.Pending(t), more);
        if !visit.stop {
          FinishPassLeaves(env, visit.state, w, k, i + 1, removed || erase, visit.more, v, tag);
        }
      }
    }
  }

  lemma UnsafeMarked(s: State, w: Identity, k: Key) returns (v: Identity, tag: nat)
    requires Inv(s, Settled) && !FinishSafe(s, w, k)
    ensures Marked(Freed(s, w, k), k, v, tag)
  {
    var s1 := Freed(s, w, k);
    assert s1.contexts == s.contexts && s1.workers[w].held == s.workers[w].held - {k};
    v, tag := w, 0;
    if s.Request(k).place.Queued? {
      tag := s.Request(k).place.cursor;
      hide Refines;
      QueuedMarked(s, s1, w, k);
    } else {
      v :| v in s.workers && k in s.Held(v);
      assert s1.Held(v) == s.Held(v);
    }
  }

  lemma QueuedMarked(s: State, s1: State, w: Identity, k: Key)
    requires ListsAgree(s) && s.Known(k) && s.Request(k).place.Queued? && s1.contexts == s.contexts
    ensures Marked(s1, k, w, s.Request(k).place.cursor)
  {
    var c := s.contexts[k.kind];
    assert ListAgrees(c);
    var node := Node(s.Request(k).place.cursor, k.id);
    assert node in c.pending;
    forall id | id in c.requests && c.requests[id].place == Queued(node.tag)
      ensures id == k.id
    {
      assert Node(node.tag, id) in c.pending;
      SameTag(c, node, Node(node.tag, id));
    }
  }

  lemma SameTag(c: Context, a: Node, b: Node)
    requires ListAgrees(c) && a in c.pending && b in c.pending && a.tag == b.tag
    ensures a == b
  {
    var i :| 0 <= i < |c.pending| && c.pending[i] == a;
    var j :| 0 <= j < |c.pending| && c.pending[j] == b;
    TagsDiffer(c, i, j);
    TagsDiffer(c, j, i);
  }

  lemma TagsDiffer(c: Context, i: nat, j: nat)
    requires ListAgrees(c) && i < |c.pending| && j < |c.pending|
    ensures i < j ==> c.pending[i].tag < c.pending[j].tag
  {
  }

  /** Handling a finish keeps the tables in agreement exactly when it names a request the worker
      holds, or one that is in no list and in nobody's hands. */
  lemma FinishedAgreesIff(env: Env, s: State, w: Identity, k: Key)
    requires Inv(s, Settled)
    ensures Inv(HandleWorkerFinished(env, s, w, k), Settled) <==> FinishSafe(s, w, k)
  {
    if FinishSafe(s, w, k) {
      FinishedAgrees(env, s, w, k);
    } else {
      var v, tag := UnsafeMarked(s, w, k);
      hide Inv, Dangling, Marked;
      var s1 := Freed(s, w, k);
      FinishPassLeaves(env, s1, w, k, 0, false, false, v, tag);
      var pass := if s1.FreeCapacity(w) > 0 then FinishPass(env, s1, w, k, 0, false, false)
                  else Pass(s1, false, false);
      var s2 := if pass.removed then pass.state else RemoveInProgress(pass.state, k);
      if !pass.removed {
        MarkedErased(pass.state, k, v, tag);
      }
      RoundsStayDangling(env, s2, w, pass.more, k, v, tag);
      DanglingBreaks(Rounds(env, s2, w, pass.more), k, v, tag);
    }
  }

  // ----- a direct retry -----

  /** Settling one request of a dead worker keeps the tables in agreement exactly when no receipt is
      lost after the request itself went to another worker. */
  lemma SettleAgreesIff(env: Env, s: State, w: Identity, k: Key, todo: set<Key>)
    requires Fair(env) && Inv(s, Dying(w, todo)) && w in s.workers && k in todo
    requires w !in s.Available(k.kind)
    ensures Inv(Settle(env, s, w, k), Dying(w, todo - {k})) <==> !MoveReceiptLost(env, s, k)
  {
    if MoveReceiptLost(env, s, k) {
      AvailableKnown(s, Dying(w, todo));
      MoveLostBreaks(env, s, w, k, todo);
    } else {
      SettleAgrees(env, s, w, k, todo);
    }
  }

  lemma MoveLostBreaks(env: Env, s: State, w: Identity, k: Key, todo: set<Key>)
    requires Fair(env) && MoveReceiptLost(env, s, k) && w !in s.Available(k.kind) && AvailableAgrees(s)
    ensures !Inv(Settle(env, s, w, k), Dying(w, todo - {k}))
  {
    var s' := Settle(env, s, w, k);
    var r := s.Request(k);
    var to := env.pick(s.sends, s.Available(k.kind));
    var msg := r.msg.GetOr([]);
    PickedSupports(env, s, k.kind);
    ForwardDirectIs(env, s, to, k, r.vfs, msg, Move(k, w, to, msg));
    var s1 := ForwardDirect(env, s, to, k, r.vfs, msg, Move(k, w, to, msg)).state;
    assert s' == BackToPending(s1, k, []);
    hide Settle, ForwardDirect;
    assert s'.Known(k) && s'.Request(k).place.Queued? && to != w && k in HeldBy(s', to, Dying(w, todo - {k}));
    hide BackToPending;
    QueuedNotHeld(s', to, k, Dying(w, todo - {k}));
  }

  lemma QueuedNotHeld(s: State, v: Identity, k: Key, x: Transit)
    requires k in HeldBy(s, v, x) && s.Known(k) && s.Request(k).place.Queued?
    ensures !Inv(s, x)
  {
    if Inv(s, x) {
      RunningIsAssigned(s, v, k, x);
      assert false;
    }
  }

  lemma RunningIsAssigned(s: State, v: Identity, k: Key, x: Transit)
    requires Inv(s, x) && k in HeldBy(s, v, x)
    ensures s.Known(k) && s.Request(k).place.Assigned?
  {
    assert Replay(s.log).value.RunningAt(k, v);
  }

  // ----- a check in which a direct retry loses its receipt -----

  /** A type's list is longer than its queue in the history, if that is legal at all. */
  ghost predicate Surplus(s: State, t: RequestType) {
    Replay(s.log).Some? ==> |s.Pending(t)| > |Replay(s.log).value.Queue(t)|
  }

  /** From one state to another, a list's lead over its queue in the history has not shrunk. */
  ghost predicate Leads(s: State, s': State, t: RequestType) {
    Replay(s'.log).Some? ==>
      Replay(s.log).Some?
      && |s'.Pending(t)| - |Replay(s'.log).value.Queue(t)| >= |s.Pending(t)| - |Replay(s.log).value.Queue(t)|
  }

  lemma QueueLength(s: State, t: RequestType, x: Transit)
    requires Inv(s, x)
    ensures |Replay(s.log).value.Queue(t)| == |s.Pending(t)|
  {
    assert Replay(s.log).value.Queue(t) == Ids(s.Pending(t));
  }

  lemma SurplusBreaks(s: State, t: RequestType, x: Transit)
    requires Surplus(s, t)
    ensures !Inv(s, x)
  {
    hide Inv;
    if Inv(s, x) {
      QueueLength(s, t, x);
      assert false by { InvReplays(s, x); }
    }
  }

  lemma InvReplays(s: State, x: Transit)
    requires Inv(s, x)
    ensures Replay(s.log).Some?
  {
  }

  predicate Joins(x: Action, t: RequestType) {
    (x.Accept? || x.Requeue?) && x.key.kind == t
  }

  /** Only joining and being handed over change a queue. */
  lemma ApplyQueue(a: Abs, x: Action, t: RequestType)
    requires Legal(a, x) && !x.Dispatch?
    ensures |Apply(a, x).Queue(t)| == |a.Queue(t)| + if Joins(x, t) then 1 else 0
  {
  }

  lemma JoinLeads(s: State, s': State, x: Action, t: RequestType)
    requires s'.log == s.log + [x] && !x.Dispatch?
    requires |s'.Pending(t)| >= |s.Pending(t)| + if Joins(x, t) then 1 else 0
    ensures Leads(s, s', t)
  {
    if Replay(s'.log).Some? {
      assert s'.log[..|s'.log| - 1] == s.log;
      ApplyQueue(Replay(s.log).value, x, t);
    }
  }

  lemma LeadsTwice(s: State, s1: State, s2: State, t: RequestType)
    requires Leads(s, s1, t) && Leads(s1, s2, t)
    ensures Leads(s, s2, t)
  {
  }

  lemma SameLeads(s: State, s': State, t: RequestType)
    requires s'.log == s.log && |s'.Pending(t)| >= |s.Pending(t)|
    ensures Leads(s, s', t)
  {
  }

  lemma RetriedLeads(s: State, s': State, x: Action, k: Key, vfs: VersionFlags, msg: Message, t: RequestType)
    requires s'.log == s.log + [x] + ReceiptFor(k, vfs, msg) && x.Move?
    requires s'.Pending(t) == s.Pending(t)
    ensures Leads(s, s', t)
  {
    var s1 := s.(log := s.log + [x]);
    hide Replay, Legal, Apply, Leads;
    JoinLeads(s, s1, x, t);
    if vfs.Has(ReceiptOnSend) {
      JoinLeads(s1, s', Receipt(k, Envelope(msg)), t);
      LeadsTwice(s, s1, s', t);
    } else {
      assert s'.log == s1.log;
      SameLeads(s1, s', t);
      LeadsTwice(s, s1, s', t);
    }
  }

  lemma BackLeads(s: State, k: Key, w: Identity, sent: bool, t: RequestType)
    ensures Leads(s, BackToPending(s, k, if sent then [] else [Requeue(k, w)]), t)
  {
    var s' := BackToPending(s, k, if sent then [] else [Requeue(k, w)]);
    hide Replay, Legal, Apply, Leads;
    if !s.Known(k) || sent {
      assert s.log + [] == s.log;
      SameLeads(s, s', t);
    } else {
      JoinLeads(s, s', Requeue(k, w), t);
    }
  }

  lemma DirectLeads(env: Env, s: State, w: Identity, to: Identity, k: Key, t: RequestType)
    requires s.Known(k)
    ensures var msg := s.Request(k).msg.GetOr([]);
            Leads(s, ForwardDirect(env, s, to, k, s.Request(k).vfs, msg, Move(k, w, to, msg)).state, t)
  {
    var r := s.Request(k);
    var msg := r.msg.GetOr([]);
    var s1 := ForwardDirect(env, s, to, k, r.vfs, msg, Move(k, w, to, msg)).state;
    if to in s.workers && env.request(s.sends) {
      ForwardDirectIs(env, s, to, k, r.vfs, msg, Move(k, w, to, msg));
      hide ForwardDirect, Replay, Legal, Apply, Leads;
      RetriedLeads(s, s1, Move(k, w, to, msg), k, r.vfs, msg, t);
    } else {
      SameLeads(s, s1, t);
    }
  }

  /** Settling a request never shortens a list's lead. */
  lemma SettleLeads(env: Env, s: State, w: Identity, k: Key, t: RequestType)
    ensures Leads(s, Settle(env, s, w, k), t)
  {
    hide Replay, Legal, Apply, Leads, ForwardDirect, BackToPending;
    if !s.Known(k) {
      SameLeads(s, s, t);
    } else if !Retryable(s.Request(k)) {
      NotRetriedLeads(env, s, w, k, t);
    } else if s.Available(k.kind) == {} {
      BackLeads(s, k, w, false, t);
    } else {
      var r := s.Request(k);
      var to := env.pick(s.sends, s.Available(k.kind));
      var msg := r.msg.GetOr([]);
      var out := ForwardDirect(env, s, to, k, r.vfs, msg, Move(k, w, to, msg));
      DirectLeads(env, s, w, to, k, t);
      WithdrawLeads(out.state, to, |out.state.Types(to)|, t);
      BackLeads(out.state, k, w, env.request(s.sends), t);
      LeadsTwice(s, out.state, Settle(env, s, w, k), t) by {
        if out.ok && out.state.FreeCapacity(to) > 0 {
          SameLeads(out.state, out.state, t);
        }
      }
    }
  }

  lemma NotRetriedLeads(env: Env, s: State, w: Identity, k: Key, t: RequestType)
    requires s.Known(k) && !Retryable(s.Request(k))
    ensures Leads(s, Settle(env, s, w, k), t)
  {
    hide Replay, Legal, Apply, Leads;
    if Abandoned(s.Request(k)) {
      JoinLeads(s, Settle(env, s, w, k), Strand(k, w), t);
    } else {
      JoinLeads(s, Settle(env, s, w, k), Fail(k, w, NoticeOf(s.Request(k), NotifyOnDeath)), t);
    }
  }

  lemma WithdrawLeads(s: State, w: Identity, n: nat, t: RequestType)
    ensures Leads(s, Withdraw(s, w, n), t)
  {
    WithdrawLog(s, w, n);
    WithdrawSameRequests(s, w, n);
    assert Withdraw(s, w, n).Pending(t) == s.Pending(t);
    hide Withdraw, Leads;
    SameLeads(s, Withdraw(s, w, n), t);
  }

  lemma {:induction false} SettleAllLeads(
    env: Env, s: State, w: Identity, u: RequestType, ids: seq<RequestId>, t: RequestType)
    ensures Leads(s, SettleAll(env, s, w, u, ids), t)
    decreases |ids|
  {
    hide Leads, Settle;
    if ids == [] {
      SameLeads(s, s, t);
    } else {
      var s1 := Settle(env, s, w, Key(u, ids[0]));
      SettleLeads(env, s, w, Key(u, ids[0]), t);
      SettleAllLeads(env, s1, w, u, ids[1..], t);
      LeadsTwice(s, s1, SettleAll(env, s1, w, u, ids[1..]), t);
    }
  }

  lemma {:induction false} DeadWorkerLeads(env: Env, s: State, w: Identity, i: nat, t: RequestType)
    ensures Leads(s, DeadWorker(env, s, w, i), t)
    decreases |s.Types(w)| - i
  {
    hide Leads, SettleAll;
    if i >= |s.Types(w)| {
      SameLeads(s, s, t);
    } else if s.Types(w)[i] !in s.contexts {
      DeadWorkerLeads(env, s, w, i + 1, t);
    } else {
      var u := s.Types(w)[i];
      var s1 := Leave(s, w, u);
      var ids := env.order(s.At(), w, u, HeldIds(s, w, u));
      var s2 := SettleAll(env, s1, w, u, ids);
      SameLeads(s, s1, t);
      SettleAllLeads(env, s1, w, u, ids, t);
      LeadsTwice(s, s1, s2, t);
      DeadWorkerLeads(env, s2, w, i + 1, t);
      LeadsTwice(s, s2, DeadWorker(env, s2, w, i + 1), t);
    }
  }

  lemma {:induction false} PulseLeads(env: Env, s: State, ws: seq<Identity>, deathDelay: int, t: RequestType)
    ensures Leads(s, PulseFrom(env, s, ws, deathDelay), t)
    decreases |ws|
  {
    hide Leads, DeadWorker;
    if ws == [] {
      SameLeads(s, s, t);
    } else if ws[0] !in s.workers || s.workers[ws[0]].IsAliveAsOf(s.now, deathDelay) {
      PulseLeads(env, s, ws[1..], deathDelay, t);
    } else {
      var s1 := DeadWorker(env, s, ws[0], 0);
      DeadWorkerLeads(env, s, ws[0], 0, t);
      SameLeads(s1, RemoveWorker(s1, ws[0]), t);
      LeadsTwice(s, s1, RemoveWorker(s1, ws[0]), t);
      PulseLeads(env, RemoveWorker(s1, ws[0]), ws[1..], deathDelay, t);
      LeadsTwice(s, RemoveWorker(s1, ws[0]), PulseFrom(env, s, ws, deathDelay), t);
    }
  }

  lemma SurplusStays(s: State, s': State, t: RequestType)
    requires Surplus(s, t) && Leads(s, s', t)
    ensures Surplus(s', t)
  {
  }

  /** The request handed over is queued too: its list leads by one, as nothing in the history put it there. */
  lemma LostSurplus(env: Env, s: State, w: Identity, k: Key, x: Transit)
    requires Fair(env) && MoveReceiptLost(env, s, k) && Inv(s, x)
    ensures Surplus(Settle(env, s, w, k), k.kind)
  {
    hide Inv, Fair, Replay, Leads, Surplus, SentDirect;
    QueueLength(s, k.kind, x);
    InvReplays(s, x);
    AvailableKnown(s, x);
    PickedSupports(env, s, k.kind);
    var r := s.Request(k);
    var to := env.pick(s.sends, s.Available(k.kind));
    var msg := r.msg.GetOr([]);
    ForwardDirectIs(env, s, to, k, r.vfs, msg, Move(k, w, to, msg));
    DirectLeads(env, s, w, to, k, k.kind);
    var s1 := ForwardDirect(env, s, to, k, r.vfs, msg, Move(k, w, to, msg)).state;
    assert Settle(env, s, w, k) == BackToPending(s1, k, []);
    hide Settle, ForwardDirect;
    QueuedLeadsByOne(s, s1, k);
  }

  lemma QueuedLeadsByOne(s: State, s1: State, k: Key)
    requires Replay(s.log).Some? && |Replay(s.log).value.Queue(k.kind)| == |s.Pending(k.kind)|
    requires Leads(s, s1, k.kind) && s1.Known(k)
    ensures Surplus(BackToPending(s1, k, []), k.kind)
  {
    assert BackToPending(s1, k, []).log == s1.log;
  }

  lemma {:induction false} UnsafeSettleAll(
    env: Env, s: State, w: Identity, t: RequestType, ids: seq<RequestId>, todo: set<Key>)
    requires Fair(env) && !SettleAllSafe(env, s, w, t, ids)
    requires Inv(s, Dying(w, todo)) && w in s.workers && w !in s.Available(t)
    requires Distinct(ids) && KeysOf(t, ids) <= todo
    ensures Surplus(SettleAll(env, s, w, t, ids), t)
    decreases |ids|
  {
    hide Inv, Aside, Fate, Surplus, Leads;
    var k := Key(t, ids[0]);
    assert k in KeysOf(t, ids);
    var s1 := Settle(env, s, w, k);
    if MoveReceiptLost(env, s, k) {
      LostSurplus(env, s, w, k, Dying(w, todo));
      SettleAllLeads(env, s1, w, t, ids[1..], t);
      SurplusStays(s1, SettleAll(env, s1, w, t, ids[1..]), t);
    } else {
      SettledOne(env, s, w, k, todo);
      KeysOfTail(t, ids);
      UnsafeSettleAll(env, s1, w, t, ids[1..], todo - {k});
    }
  }

  lemma UnsafeType(env: Env, s: State, w: Identity, i: nat)
    requires w in s.workers && i < |s.Types(w)| && Distinct(s.Types(w))
    requires Fair(env) && Inv(s, Dying(w, Unsettled(s, w, i))) && s.Types(w)[i] in s.contexts
    requires var t := s.Types(w)[i];
             !SettleAllSafe(env, Leave(s, w, t), w, t, env.order(s.At(), w, t, HeldIds(s, w, t)))
    ensures var t := s.Types(w)[i];
            Surplus(SettleAll(env, Leave(s, w, t), w, t, env.order(s.At(), w, t, HeldIds(s, w, t))), t)
  {
    var t := s.Types(w)[i];
    var ids := env.order(s.At(), w, t, HeldIds(s, w, t));
    assert Lists(ids, HeldIds(s, w, t));
    hide Inv, Surplus, Fair, Aside;
    UnsettledSplit(s, w, i, ids);
    LeaveAgrees(s, w, t, Dying(w, Unsettled(s, w, i)));
    UnsafeSettleAll(env, Leave(s, w, t), w, t, ids, Unsettled(s, w, i));
  }

  lemma {:induction false} UnsafeDead(env: Env, s: State, w: Identity, i: nat) returns (t: RequestType)
    requires w in s.workers && i <= |s.Types(w)| && Distinct(s.Types(w)) && LeftUpTo(s, w, i)
    requires Fair(env) && Inv(s, Dying(w, Unsettled(s, w, i))) && !DeadSafe(env, s, w, i)
    ensures Surplus(DeadWorker(env, s, w, i), t)
    decreases |s.Types(w)| - i
  {
    hide Inv, Aside, Fate, LeftUpTo, Distinct, Surplus, Leads, SettleAllSafe;
    var u := s.Types(w)[i];
    if u !in s.contexts {
      UnknownTypeSettled(s, w, i);
      t := UnsafeDead(env, s, w, i + 1);
    } else {
      var ids := env.order(s.At(), w, u, HeldIds(s, w, u));
      var s2 := SettleAll(env, Leave(s, w, u), w, u, ids);
      if SettleAllSafe(env, Leave(s, w, u), w, u, ids) {
        TypeSettled(env, s, w, i);
        t := UnsafeDead(env, s2, w, i + 1);
      } else {
        t := u;
        UnsafeType(env, s, w, i);
        DeadWorkerLeads(env, s2, w, i + 1, u);
        SurplusStays(s2, DeadWorker(env, s2, w, i + 1), u);
      }
    }
  }

  /** Removing a dead worker keeps the tables in agreement exactly when no direct retry on the way
      loses the receipt it owes. */
  lemma DeathAgreesIff(env: Env, s: State, w: Identity)
    requires Fair(env) && Inv(s, Settled) && w in s.workers
    ensures Inv(RemoveWorker(DeadWorker(env, s, w, 0), w), Settled) <==> DeadSafe(env, s, w, 0)
  {
    hide Inv, Fate, DeadSafe, Surplus;
    if DeadSafe(env, s, w, 0) {
      DeathAgrees(env, s, w);
    } else {
      var t := UnsafeDeath(env, s, w);
      SurplusBreaks(RemoveWorker(DeadWorker(env, s, w, 0), w), t, Settled);
    }
  }

  lemma UnsafeDeath(env: Env, s: State, w: Identity) returns (t: RequestType)
    requires Fair(env) && Inv(s, Settled) && w in s.workers && !DeadSafe(env, s, w, 0)
    ensures Surplus(RemoveWorker(DeadWorker(env, s, w, 0), w), t)
  {
    hide Inv, Surplus, Leads, DeadSafe, LeftUpTo;
    DeathBegins(s, w);
    t := UnsafeDead(env, s, w, 0);
    var s1 := DeadWorker(env, s, w, 0);
    SameLeads(s1, RemoveWorker(s1, w), t);
    SurplusStays(s1, RemoveWorker(s1, w), t);
  }

  lemma {:induction false} UnsafePulse(env: Env, s: State, ws: seq<Identity>, deathDelay: int)
    returns (t: RequestType)
    requires Fair(env) && Inv(s, Settled) && !PulseSafe(env, s, ws, deathDelay)
    ensures Surplus(PulseFrom(env, s, ws, deathDelay), t)
    decreases |ws|
  {
    hide Inv, Fate, DeadSafe, Surplus, Leads, DeadWorker;
    if ws[0] !in s.workers || s.workers[ws[0]].IsAliveAsOf(s.now, deathDelay) {
      t := UnsafePulse(env, s, ws[1..], deathDelay);
    } else {
      var s1 := RemoveWorker(DeadWorker(env, s, ws[0], 0), ws[0]);
      if DeadSafe(env, s, ws[0], 0) {
        DeathAgrees(env, s, ws[0]);
        t := UnsafePulse(env, s1, ws[1..], deathDelay);
      } else {
        t := UnsafeDeath(env, s, ws[0]);
        PulseLeads(env, s1, ws[1..], deathDelay, t);
        SurplusStays(s1, PulseFrom(env, s1, ws[1..], deathDelay), t);
      }
    }
  }

  /** A pulse check, whomever it removes and in whatever order, keeps the tables in agreement exactly
      when no direct retry on the way loses the receipt it owes. */
  lemma PulseAgreesIff(env: Env, s: State, ws: seq<Identity>, deathDelay: int)
    requires Fair(env) && Inv(s, Settled)
    ensures Inv(PulseFrom(env, s, ws, deathDelay), Settled) <==> PulseSafe(env, s, ws, deathDelay)
  {
    hide Inv, PulseSafe, Surplus;
    if PulseSafe(env, s, ws, deathDelay) {
      PulseAgrees(env, s, ws, deathDelay);
    } else {
      var t := UnsafePulse(env, s, ws, deathDelay);
      SurplusBreaks(PulseFrom(env, s, ws, deathDelay), t, Settled);
    }
  }

  // ----- every event -----

  /** A worker that becomes ready keeps the types it listed. */
  lemma ReadyTypes(env: Env, s: State, w: Identity, capacity: int, types: seq<RequestType>, delay: int)
    requires Enrols(s, w, capacity, types)
    ensures var s' := HandleWorkerReady(env, s, w, capacity, types, delay);
            w in s'.workers && s'.Types(w) == types
  {
    var s1 := s.WithWorker(w, Info(capacity, types, {}, s.now, s.now, delay, capacity, 0));
    var pass := NewWorkerPass(env, s1, w, 0, false);
    RoundsTypes(env, pass.0, w, pass.1);
  }

  lemma TypesDistinct(s: State, w: Identity)
    requires Inv(s, Settled) && w in s.workers
    ensures Distinct(s.Types(w))
  {
    assert InfoAgrees(s.workers[w]);
  }

  lemma ReadyAgreesIff(env: Env, s: State, w: Identity, capacity: int, types: seq<RequestType>, delay: int)
    requires Inv(s, Settled)
    ensures Inv(HandleWorkerReady(env, s, w, capacity, types, delay), Settled) <==>
              (Enrols(s, w, capacity, types) ==> Distinct(types))
  {
    hide Inv, HandleWorkerReady, Distinct;
    if Enrols(s, w, capacity, types) {
      ReadyTypes(env, s, w, capacity, types, delay);
      if Inv(HandleWorkerReady(env, s, w, capacity, types, delay), Settled) {
        TypesDistinct(HandleWorkerReady(env, s, w, capacity, types, delay), w);
      } else if Distinct(types) {
        ReadyAgrees(env, s, w, capacity, types, delay);
      }
    } else {
      ReadyAgrees(env, s, w, capacity, types, delay);
    }
  }

  /** Whatever happens, the tables stay in agreement exactly when the event is sound. */
  lemma StepAgreesIff(env: Env, s: State, e: Event)
    requires Fair(env) && Inv(s, Settled)
    ensures Inv(Step(env, s, e), Settled) <==> Sound(env, s, e)
  {
    hide Inv, ReceiptLost, FinishSafe, PulseSafe, Distinct;
    match e
    case Ask(k, vfs, msg) => ClientRequestAgreesIff(env, s, k, vfs, msg);
    case Ready(w, capacity, types, delay) => ReadyAgreesIff(env, s, w, capacity, types, delay);
    case Finished(w, k) => FinishedAgreesIff(env, s, w, k);
    case Pulse(deathDelay) => PulseAgreesIff(env, s, env.roster(s.At(), s.workers.Keys), deathDelay);
    case _ => StepAgrees(env, s, e);
  }

  /** A run is sound exactly when the tables agree, and represent what the history led to, in every
      state on its way. */
  lemma {:induction false} SoundRunIff(env: Env, events: seq<Event>)
    requires Fair(env)
    ensures SoundRun(env, Start0, events) <==>
              forall n :: 0 <= n <= |events| ==> Inv(Run(env, Start0, events[..n]), Settled)
  {
    hide Inv, Sound, Fair;
    if events == [] {
      Safety.StartAgrees();
      assert events[..0] == events;
    } else {
      var last := |events| - 1;
      var before := events[..last];
      SoundRunIff(env, before);
      forall n | 0 <= n <= last
        ensures before[..n] == events[..n]
      {
      }
      assert events[..|events|] == events;
      assert before[..last] == before;
      if Inv(Run(env, Start0, before), Settled) {
        StepAgreesIff(env, Run(env, Start0, before), events[last]);
      }
    }
  }

  /** What a retry leaves in the request's record. Queued again, it is counted when it next goes out;
      handed over directly, it keeps the dead worker's name and its old count, though another has it. */
  ghost predicate RetryRecord(r: RequestState, s: State, w: Identity, k: Key, direct: bool) {
    && s.Known(k) && Replay(s.log).Some? && k in Replay(s.log).value.jobs
    && s.Request(k).tryCount == r.tryCount
    && var job := Replay(s.log).value.jobs[k];
       if direct then
         && s.Request(k).place == r.place && job.dispatches == r.tryCount + 1
         && job.where.Running? && job.where.worker != w && k in s.Held(job.where.worker)
       else
         s.Request(k).place.Queued? && job.where.Waiting? && job.dispatches == r.tryCount
  }

  /** The count in a retried request's record is still its number of hand-overs exactly when the retry
      was not direct: when no worker was available, or the send to it failed. */
  lemma RetryRecordedIff(env: Env, s: State, w: Identity, k: Key, todo: set<Key>)
    requires Fair(env) && Inv(s, Dying(w, todo)) && w in s.workers && k in todo
    requires w !in s.Available(k.kind) && !MoveReceiptLost(env, s, k)
    requires s.Known(k) && Retryable(s.Request(k)) && s.Request(k).tryCount == Replay(s.log).value.jobs[k].dispatches
    ensures var s' := Settle(env, s, w, k);
            && RetryRecord(s.Request(k), s', w, k, s.Available(k.kind) != {} && env.request(s.sends))
            && (s'.Request(k).tryCount == Replay(s'.log).value.jobs[k].dispatches <==>
                  s.Available(k.kind) == {} || !env.request(s.sends))
  {
    RetryRecorded(env, s, w, k, todo);
    hide Settle, Inv, Replay;
  }

  lemma RetryRecorded(env: Env, s: State, w: Identity, k: Key, todo: set<Key>)
    requires Fair(env) && Inv(s, Dying(w, todo)) && w in s.workers && k in todo
    requires w !in s.Available(k.kind) && !MoveReceiptLost(env, s, k)
    requires s.Known(k) && Retryable(s.Request(k)) && s.Request(k).tryCount == Replay(s.log).value.jobs[k].dispatches
    ensures RetryRecord(s.Request(k), Settle(env, s, w, k), w, k,
                        s.Available(k.kind) != {} && env.request(s.sends))
  {
    hide Settle, Inv, Refines, Replay, RetryRecord, Fair, MoveReceiptLost;
    if s.Available(k.kind) != {} && env.request(s.sends) {
      DirectRecorded(env, s, w, k, todo);
    } else {
      RequeueRecorded(env, s, w, k, todo);
    }
  }

  lemma DirectRecorded(env: Env, s: State, w: Identity, k: Key, todo: set<Key>)
    requires Fair(env) && Inv(s, Dying(w, todo)) && w in s.workers && k in todo
    requires w !in s.Available(k.kind) && !MoveReceiptLost(env, s, k)
    requires s.Available(k.kind) != {} && env.request(s.sends)
    requires s.Known(k) && Retryable(s.Request(k)) && s.Request(k).tryCount == Replay(s.log).value.jobs[k].dispatches
    ensures RetryRecord(s.Request(k), Settle(env, s, w, k), w, k, true)
  {
    hide Settle, Refines, TablesAgree, Replay, Fair, MoveReceiptLost, Fate;
    DyingJob(s, w, k, todo);
    AvailableKnown(s, Dying(w, todo));
    SettleAgrees(env, s, w, k, todo);
    SettleFate(env, s, w, k);
    hide Inv;
    MovedRecord(env, s, w, k);
    MovedCounts(env, s, w, k, todo);
    MovedElsewhere(s.Request(k), Settle(env, s, w, k), w, k);
    MovedRuns(Settle(env, s, w, k), w, k, todo);
  }

  lemma MovedElsewhere(r: RequestState, s: State, w: Identity, k: Key)
    requires Fate(r, s, w, k) && Retryable(r) && s.Known(k) && s.Request(k).place.Assigned?
    ensures exists v :: v != w && v in s.workers && k in s.workers[v].held
  {
  }

  lemma RequeueRecorded(env: Env, s: State, w: Identity, k: Key, todo: set<Key>)
    requires Inv(s, Dying(w, todo)) && w in s.workers && k in todo
    requires s.Available(k.kind) == {} || !env.request(s.sends)
    requires s.Known(k) && Retryable(s.Request(k)) && s.Request(k).tryCount == Replay(s.log).value.jobs[k].dispatches
    ensures RetryRecord(s.Request(k), Settle(env, s, w, k), w, k, false)
  {
    hide Settle, Refines, TablesAgree, Replay;
    RequeuedRecord(env, s, w, k);
    RequeuedCounts(env, s, w, k, todo);
  }

  lemma MovedRuns(s: State, w: Identity, k: Key, todo: set<Key>)
    requires Refines(s, Dying(w, todo - {k})) && s.Known(k) && s.Request(k).place.Assigned?
    requires exists v :: v != w && v in s.workers && k in s.workers[v].held
    ensures k in Replay(s.log).value.jobs
    ensures var where := Replay(s.log).value.jobs[k].where;
            where.Running? && where.worker != w && k in s.Held(where.worker)
  {
    var v :| v != w && v in s.workers && k in s.workers[v].held;
    assert k in HeldBy(s, v, Dying(w, todo - {k}));
    assert Replay(s.log).value.RunningAt(k, v);
  }

  lemma MovedRecord(env: Env, s: State, w: Identity, k: Key)
    requires Fair(env) && AvailableAgrees(s) && !MoveReceiptLost(env, s, k)
    requires s.Known(k) && Retryable(s.Request(k)) && s.Available(k.kind) != {} && env.request(s.sends)
    requires s.Request(k).place.Assigned?
    ensures var s' := Settle(env, s, w, k);
            var to := env.pick(s.sends, s.Available(k.kind));
            var r := s.Request(k);
            var msg := r.msg.GetOr([]);
            && s'.Known(k) && s'.Request(k).tryCount == r.tryCount && s'.Request(k).place == r.place
            && s'.log == s.log + [Move(k, w, to, msg)] + ReceiptFor(k, r.vfs, msg)
  {
    PickedSupports(env, s, k.kind);
    var r := s.Request(k);
    var to := env.pick(s.sends, s.Available(k.kind));
    var msg := r.msg.GetOr([]);
    ForwardDirectIs(env, s, to, k, r.vfs, msg, Move(k, w, to, msg));
    var s1 := ForwardDirect(env, s, to, k, r.vfs, msg, Move(k, w, to, msg)).state;
    hide ForwardDirect;
    WithdrawAside(s1, to, |s1.Types(to)|);
    WithdrawLog(s1, to, |s1.Types(to)|);
  }

  lemma {:induction false} WithdrawLog(s: State, w: Identity, n: nat)
    ensures Withdraw(s, w, n).log == s.log
  {
    if n != 0 && n <= |s.Types(w)| {
      WithdrawLog(s, w, n - 1);
    }
  }

  lemma MovedCounts(env: Env, s: State, w: Identity, k: Key, todo: set<Key>)
    requires Fair(env) && Refines(s, Dying(w, todo)) && w in s.workers && k in todo
    requires w !in s.Available(k.kind) && s.Available(k.kind) != {}
    requires s.Known(k) && Retryable(s.Request(k))
    requires var to := env.pick(s.sends, s.Available(k.kind));
             var r := s.Request(k);
             var msg := r.msg.GetOr([]);
             Settle(env, s, w, k).log == s.log + [Move(k, w, to, msg)] + ReceiptFor(k, r.vfs, msg)
    ensures k in Replay(s.log).value.jobs
    ensures var out := Replay(Settle(env, s, w, k).log);
            out.Some? && k in out.value.jobs
            && out.value.jobs[k].dispatches == Replay(s.log).value.jobs[k].dispatches + 1
            && out.value.jobs[k].moves == Replay(s.log).value.jobs[k].moves + 1
  {
    DyingJob(s, w, k, todo);
    var to := env.pick(s.sends, s.Available(k.kind));
    MoveJob(s.Request(k), Replay(s.log).value.jobs[k], to);
    MoveReplays(s.log, k, w, to, s.Request(k).vfs, Replay(s.log).value);
    hide Settle;
  }

  lemma RequeuedRecord(env: Env, s: State, w: Identity, k: Key)
    requires s.Known(k) && Retryable(s.Request(k))
    requires s.Available(k.kind) == {} || !env.request(s.sends)
    ensures var s' := Settle(env, s, w, k);
            && s'.Known(k) && s'.Request(k).tryCount == s.Request(k).tryCount
            && s'.Request(k).place.Queued?
  {
  }

  lemma RequeuedCounts(env: Env, s: State, w: Identity, k: Key, todo: set<Key>)
    requires Refines(s, Dying(w, todo)) && w in s.workers && k in todo
    requires s.Known(k) && Retryable(s.Request(k))
    requires s.Available(k.kind) == {} || !env.request(s.sends)
    ensures k in Replay(s.log).value.jobs
    ensures var out := Replay(Settle(env, s, w, k).log);
            out.Some? && k in out.value.jobs && out.value.jobs[k].where.Waiting?
            && out.value.jobs[k].dispatches == Replay(s.log).value.jobs[k].dispatches
  {
    DyingJob(s, w, k, todo);
    assert Settle(env, s, w, k).log == s.log + [Requeue(k, w)];
    ReplayOne(s.log, Requeue(k, w));
    hide Settle;
  }
}

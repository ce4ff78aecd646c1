/** How a new worker's capacity is dealt out over its types when requests that are sent get out. */
module RoundRobin {
  import opened Wrappers
  import opened Cluster
  import opened RequestContexts
  import opened Scheduler
  import opened Agreement
  import opened Forwarding
  import opened Workers

  ghost predicate AllSent(env: Env) {
    RequestsSent(env) && ReceiptsSent(env)
  }

  // ----- the arithmetic of a deal -----

  /** What a type with `p` pending requests has given after `r` rounds, or one more if its turn in
      the next round has come. */
  function Share(r: nat, p: nat, turn: bool): nat {
    if turn then (if p <= r then p else r + 1) else (if p <= r then p else r)
  }

  /** What all types have given after `r` rounds and the first `i` turns of the next. */
  function Total(ps: seq<nat>, r: nat, i: nat): nat {
    if ps == [] then 0
    else Share(r, ps[0], i > 0) + Total(ps[1..], r, if i > 0 then i - 1 else 0)
  }

  function Sum(ps: seq<nat>): nat {
    if ps == [] then 0 else ps[0] + Sum(ps[1..])
  }

  lemma {:induction false} TotalStep(ps: seq<nat>, r: nat, i: nat)
    requires i < |ps|
    ensures Total(ps, r, i + 1) == Total(ps, r, i) + if ps[i] > r then 1 else 0
  {
    if i == 0 {
    } else {
      TotalStep(ps[1..], r, i - 1);
    }
  }

  lemma {:induction false} TotalRound(ps: seq<nat>, r: nat, i: nat)
    requires i >= |ps|
    ensures Total(ps, r, i) == Total(ps, r + 1, 0)
  {
    if ps != [] {
      TotalRound(ps[1..], r, i - 1);
    }
  }

  lemma {:induction false} TotalWithin(ps: seq<nat>, r: nat, i: nat)
    ensures Total(ps, r, i) <= Sum(ps)
  {
    if ps != [] {
      TotalWithin(ps[1..], r, if i > 0 then i - 1 else 0);
    }
  }

  /** When every type has given all it had, the total is the sum. */
  lemma {:induction false} TotalDrained(ps: seq<nat>, r: nat, i: nat)
    requires forall j :: 0 <= j < |ps| ==> ps[j] <= Share(r, ps[j], j < i)
    ensures Total(ps, r, i) == Sum(ps)
  {
    if ps != [] {
      assert ps[0] <= Share(r, ps[0], 0 < i);
      var rest := ps[1..];
      forall j | 0 <= j < |rest|
        ensures rest[j] <= Share(r, rest[j], j < if i > 0 then i - 1 else 0)
      {
        assert rest[j] == ps[j + 1];
      }
      TotalDrained(rest, r, if i > 0 then i - 1 else 0);
    }
  }

  lemma {:induction false} TotalGrowsInRound(ps: seq<nat>, r: nat, i: nat, j: nat)
    requires i <= j <= |ps|
    ensures Total(ps, r, i) <= Total(ps, r, j)
    decreases j - i
  {
    if i < j {
      TotalStep(ps, r, i);
      TotalGrowsInRound(ps, r, i + 1, j);
    }
  }

  lemma {:induction false} TotalGrows(ps: seq<nat>, r: nat, i: nat, q: nat, j: nat)
    requires i <= |ps| && j <= |ps| && (r < q || (r == q && i <= j))
    ensures Total(ps, r, i) <= Total(ps, q, j)
    decreases q - r
  {
    if r == q {
      TotalGrowsInRound(ps, r, i, j);
    } else {
      TotalGrowsInRound(ps, r, i, |ps|);
      TotalRound(ps, r, |ps|);
      TotalGrows(ps, r + 1, 0, q, j);
    }
  }

  /** The turn at which the capacity runs out: the turn gives one, and the total is then the capacity. */
  predicate RunsOutAt(cap: int, ps: seq<nat>, r: nat, i: nat) {
    i < |ps| && ps[i] > r && Total(ps, r, i + 1) == cap
  }

  lemma RunsOutOnce(cap: int, ps: seq<nat>, r: nat, i: nat, q: nat, j: nat)
    requires RunsOutAt(cap, ps, r, i) && RunsOutAt(cap, ps, q, j)
    ensures r == q && i == j
  {
    TotalStep(ps, r, i);
    TotalStep(ps, q, j);
    if r < q || (r == q && i < j) {
      TotalGrows(ps, r, i + 1, q, j);
    } else if q < r || (q == r && j < i) {
      TotalGrows(ps, q, j + 1, r, i);
    }
  }

  /** The capacity runs out after the first round, at a type that is not the last: this is when the
      code leaves an exhausted worker in the later types' sets. */
  ghost predicate StopsEarly(cap: int, ps: seq<nat>) {
    exists r: nat, i: nat :: r >= 1 && i + 1 < |ps| && RunsOutAt(cap, ps, r, i)
  }

  lemma SmallNeverStopsEarly(cap: int, ps: seq<nat>)
    requires cap <= 1 || |ps| <= 1
    ensures !StopsEarly(cap, ps)
  {
    forall r: nat, i: nat | r >= 1 && i + 1 < |ps| && RunsOutAt(cap, ps, r, i)
      ensures false
    {
      TotalStep(ps, 0, i);
      TotalStep(ps, r, i);
      TotalGrows(ps, 0, i + 1, r, i);
    }
  }

  // ----- one hand-over -----

  /** The first pending request of a type owes a send receipt that would not get out. Handing it over
      then counts as failed, although the worker has it. */
  predicate HeadLost(env: Env, s: State, t: RequestType) {
    && s.Pending(t) != []
    && var k := Key(t, s.Pending(t)[0].id);
       s.Known(k) && s.Request(k).vfs.Has(ReceiptOnSend) && !env.receipt(s.sends + 1)
  }

  /** A worker took the first pending request of a type, and nothing else about lists, sets,
      types or capacities changed. */
  ghost predicate Took(s: State, s': State, w: Identity, t: RequestType) {
    && s.Pending(t) != [] && s'.Pending(t) == s.Pending(t)[1..]
    && (forall u :: u != t ==> s'.Pending(u) == s.Pending(u))
    && (forall u :: s'.Available(u) == s.Available(u))
    && s'.workers.Keys == s.workers.Keys && s'.contexts.Keys == s.contexts.Keys
    && (forall v :: v in s.workers && v != w ==> s'.workers[v] == s.workers[v])
    && s'.Types(w) == s.Types(w) && s'.FreeCapacity(w) == s.FreeCapacity(w) - 1
  }

  /** When the request gets out, handing over takes the head of the list, and is reported to have worked
      unless the head's receipt was lost. */
  lemma HeadSent(env: Env, s: State, w: Identity, t: RequestType, x: Transit)
    requires env.request(s.sends) && Inv(s, x) && w in s.workers && s.Pending(t) != []
    ensures var out := ForwardQueued(env, s, w, Key(t, s.Pending(t)[0].id));
            Took(s, out.state, w, t) && (out.ok <==> !HeadLost(env, s, t))
  {
    var k := Key(t, s.Pending(t)[0].id);
    QueuedIsKnown(s, t, x);
    HeadFirst(s, t, x);
    hide Inv;
    ForwardQueuedIs(env, s, w, k);
    Reported(env, s, w, k);
    hide ForwardQueued;
    TookIt(s, ForwardQueued(env, s, w, k).state, w, k);
  }

  lemma HeadFirst(s: State, t: RequestType, x: Transit)
    requires Inv(s, x) && s.Pending(t) != []
    ensures var k := Key(t, s.Pending(t)[0].id);
            s.Known(k) && s.Request(k).place.Queued?
            && EraseNode(s.Pending(t), s.Request(k).place.cursor) == s.Pending(t)[1..]
  {
    QueuedIsKnown(s, t, x);
    EraseFirst(s.contexts[t], RequestState(VersionFlags(Version(0, 0), {}), None, 0, Assigned([])));
  }

  lemma Reported(env: Env, s: State, w: Identity, k: Key)
    requires env.request(s.sends) && s.Known(k) && s.Request(k).place.Queued? && w in s.workers
    ensures ForwardQueued(env, s, w, k).ok <==>
              !(s.Request(k).vfs.Has(ReceiptOnSend) && !env.receipt(s.sends + 1))
  {
    CopyIfReceipt(s.Request(k).vfs, s.Request(k).msg.GetOr([]));
  }

  lemma TookIt(s: State, s': State, w: Identity, k: Key)
    requires s.Known(k) && s.Request(k).place.Queued? && w in s.workers && Dispatched(s, s', w, k)
    requires s.Pending(k.kind) != []
    requires EraseNode(s.Pending(k.kind), s.Request(k).place.cursor) == s.Pending(k.kind)[1..]
    ensures Took(s, s', w, k.kind)
  {
  }

  // ----- the deal -----

  function Counts(s: State, types: seq<RequestType>): seq<nat> {
    seq(|types|, j requires 0 <= j < |types| => |s.Pending(types[j])|)
  }

  /** Each type has given its share, from the front of its list. */
  ghost predicate Gave(s0: State, s: State, types: seq<RequestType>, r: nat, i: nat) {
    && (forall j :: 0 <= j < |types| ==>
          s.Pending(types[j]) == s0.Pending(types[j])[Share(r, |s0.Pending(types[j])|, j < i)..])
    && (forall t :: t !in types ==> s.Pending(t) == s0.Pending(t))
  }

  /** The worker's capacity has gone down by as much. */
  ghost predicate Spent(
    s0: State, s: State, w: Identity, cap: int, types: seq<RequestType>, r: nat, i: nat)
  {
    && w in s.workers && s.Types(w) == types
    && s.FreeCapacity(w) == cap - Total(Counts(s0, types), r, i) && s.FreeCapacity(w) >= 0
  }

  ghost predicate Dealt(
    s0: State, s: State, w: Identity, cap: int, types: seq<RequestType>, r: nat, i: nat)
  {
    Spent(s0, s, w, cap, types, r, i) && Gave(s0, s, types, r, i)
  }

  lemma DealtTurn(
    s0: State, s: State, s': State, w: Identity, cap: int, types: seq<RequestType>, r: nat, i: nat)
    requires Dealt(s0, s, w, cap, types, r, i) && Distinct(types) && i < |types|
    requires Took(s, s', w, types[i]) && s.FreeCapacity(w) > 0
    ensures Dealt(s0, s', w, cap, types, r, i + 1) && |s0.Pending(types[i])| > r
  {
    hide Gave, Spent, Took, Distinct;
    TurnTaken(s0, s, s', w, types, r, i);
    GaveTurn(s0, s, s', w, types, r, i);
    SpentTurn(s0, s, s', w, cap, types, r, i);
  }

  lemma SpentTurn(
    s0: State, s: State, s': State, w: Identity, cap: int, types: seq<RequestType>, r: nat, i: nat)
    requires Spent(s0, s, w, cap, types, r, i) && i < |types| && |s0.Pending(types[i])| > r
    requires Took(s, s', w, types[i]) && s.FreeCapacity(w) > 0
    ensures Spent(s0, s', w, cap, types, r, i + 1)
  {
    TotalStep(Counts(s0, types), r, i);
    hide Total;
  }

  lemma GaveTurn(s0: State, s: State, s': State, w: Identity, types: seq<RequestType>, r: nat, i: nat)
    requires Gave(s0, s, types, r, i) && Distinct(types) && i < |types| && Took(s, s', w, types[i])
    requires |s0.Pending(types[i])| > r && s'.Pending(types[i]) == s0.Pending(types[i])[r + 1..]
    ensures Gave(s0, s', types, r, i + 1)
  {
    forall j | 0 <= j < |types|
      ensures s'.Pending(types[j]) == s0.Pending(types[j])[Share(r, |s0.Pending(types[j])|, j < i + 1)..]
    {
      if j != i {
        assert types[j] != types[i];
      }
    }
  }

  /** The turn of a type that still has requests takes the one after its share so far. */
  lemma TurnTaken(s0: State, s: State, s': State, w: Identity, types: seq<RequestType>, r: nat, i: nat)
    requires Gave(s0, s, types, r, i) && i < |types| && Took(s, s', w, types[i])
    ensures |s0.Pending(types[i])| > r && s'.Pending(types[i]) == s0.Pending(types[i])[r + 1..]
  {
    var p := s0.Pending(types[i]);
    assert s.Pending(types[i]) == p[Share(r, |p|, i < i)..];
    assert |p| > r ==> p[r..][1..] == p[r + 1..];
  }

  lemma DealtSkip(s0: State, s: State, w: Identity, cap: int, types: seq<RequestType>, r: nat, i: nat)
    requires Dealt(s0, s, w, cap, types, r, i) && i < |types| && s.Pending(types[i]) == []
    ensures Dealt(s0, s, w, cap, types, r, i + 1)
  {
    Exhausted(s0, s, types, r, i);
    TotalStep(Counts(s0, types), r, i);
    hide Total;
    GaveSame(s0, s, s, types, r, i, r, i + 1);
  }

  lemma Exhausted(s0: State, s: State, types: seq<RequestType>, r: nat, i: nat)
    requires Gave(s0, s, types, r, i) && i < |types| && s.Pending(types[i]) == []
    ensures |s0.Pending(types[i])| <= r
  {
    var p := s0.Pending(types[i]);
    assert |p[Share(r, |p|, i < i)..]| == 0;
  }

  /** The same lists are the shares of another point of the deal, if the shares are the same. */
  lemma GaveSame(
    s0: State, s: State, s': State, types: seq<RequestType>, r: nat, i: nat, r': nat, i': nat)
    requires Gave(s0, s, types, r, i) && forall t :: s'.Pending(t) == s.Pending(t)
    requires forall j :: 0 <= j < |types| ==>
               Share(r', |s0.Pending(types[j])|, j < i') == Share(r, |s0.Pending(types[j])|, j < i)
    ensures Gave(s0, s', types, r', i')
  {
  }

  lemma DealtRound(s0: State, s: State, w: Identity, cap: int, types: seq<RequestType>, r: nat)
    requires Dealt(s0, s, w, cap, types, r, |types|)
    ensures Dealt(s0, s, w, cap, types, r + 1, 0)
  {
    TotalRound(Counts(s0, types), r, |types|);
    hide Total;
    GaveSame(s0, s, s, types, r, |types|, r + 1, 0);
  }

  lemma DealtSame(
    s0: State, s: State, s': State, w: Identity, cap: int, types: seq<RequestType>, r: nat, i: nat)
    requires Dealt(s0, s, w, cap, types, r, i)
    requires s'.workers == s.workers && forall t :: s'.Pending(t) == s.Pending(t)
    ensures Dealt(s0, s', w, cap, types, r, i)
  {
    hide Total;
    GaveSame(s0, s, s', types, r, i, r, i);
  }

  /** The worker is available for exactly the types from `lo` to before `hi`, and nothing else
      about availability, nor about other workers, has changed. */
  ghost predicate Listed(
    s0: State, s: State, w: Identity, types: seq<RequestType>, lo: nat, hi: nat)
  {
    && (forall j :: 0 <= j < |types| ==> (w in s.Available(types[j]) <==> lo <= j < hi))
    && (forall t, v :: v != w || t !in types ==> (v in s.Available(t) <==> v in s0.Available(t)))
    && s.workers.Keys == s0.workers.Keys + {w}
    && (forall v :: v in s0.workers && v != w ==> s.workers[v] == s0.workers[v])
  }

  ghost predicate Dry(s: State, types: seq<RequestType>, n: nat) {
    forall j :: 0 <= j < n && j < |types| ==> s.Pending(types[j]) == []
  }

  lemma {:induction false} WithdrawIs(s: State, w: Identity, n: nat, t: RequestType)
    requires n <= |s.Types(w)|
    ensures Withdraw(s, w, n).Available(t) ==
              if t in s.Types(w)[..n] then s.Available(t) - {w} else s.Available(t)
    ensures Withdraw(s, w, n).Pending(t) == s.Pending(t)
  {
    if n != 0 {
      WithdrawIs(s, w, n - 1, t);
      assert s.Types(w)[..n] == s.Types(w)[..n - 1] + [s.Types(w)[n - 1]];
    }
  }

  /** Taking a worker out of its first types only is as good as taking it out of all of them exactly
      when it is in no later type's set. */
  lemma WithdrawEnoughIff(s: State, w: Identity, n: nat)
    requires Distinct(s.Types(w)) && n <= |s.Types(w)|
    ensures (forall t :: Withdraw(s, w, n).Available(t) == Withdraw(s, w, |s.Types(w)|).Available(t)) <==>
              (forall j :: n <= j < |s.Types(w)| ==> w !in s.Available(s.Types(w)[j]))
  {
    var types := s.Types(w);
    assert types[..|types|] == types;
    forall t
      ensures Withdraw(s, w, n).Available(t) == if t in types[..n] then s.Available(t) - {w} else s.Available(t)
      ensures Withdraw(s, w, |types|).Available(t) == if t in types then s.Available(t) - {w} else s.Available(t)
    {
      WithdrawIs(s, w, n, t);
      WithdrawIs(s, w, |types|, t);
    }
    hide Withdraw;
    forall j | n <= j < |types|
      ensures types[j] in types && types[j] !in types[..n]
    {
    }
    forall t | t in types && t !in types[..n]
      ensures exists j :: n <= j < |types| && types[j] == t
    {
      var j :| 0 <= j < |types| && types[j] == t;
      AmongFirst(types, n, j);
    }
  }

  lemma AmongFirst(types: seq<RequestType>, n: nat, j: nat)
    requires n <= |types| && j < |types|
    ensures j < n ==> types[j] in types[..n]
  {
    if j < n {
      assert types[..n][j] == types[j];
    }
  }

  lemma ListedTook(
    s0: State, s: State, s': State, w: Identity, t: RequestType, types: seq<RequestType>, lo: nat, hi: nat)
    requires Listed(s0, s, w, types, lo, hi) && Took(s, s', w, t)
    ensures Listed(s0, s', w, types, lo, hi)
  {
  }

  lemma ListedWithdrawn(
    s0: State, s: State, w: Identity, types: seq<RequestType>, n: nat, hi: nat)
    requires Listed(s0, s, w, types, 0, hi) && s.Types(w) == types && Distinct(types)
    requires n <= |types|
    ensures Listed(s0, Withdraw(s, w, n), w, types, n, hi)
  {
    var s' := Withdraw(s, w, n);
    forall j | 0 <= j < |types|
      ensures w in s'.Available(types[j]) <==> n <= j < hi
    {
      WithdrawIs(s, w, n, types[j]);
      assert types[j] in types[..n] <==> j < n by {
        if j < n {
          assert types[..n][j] == types[j];
        }
      }
    }
    forall t, v | v != w || t !in types
      ensures v in s'.Available(t) <==> v in s0.Available(t)
    {
      WithdrawIs(s, w, n, t);
      assert v in s.Available(t) <==> v in s0.Available(t);
    }
  }

  lemma DealtWithdrawn(
    s0: State, s: State, w: Identity, cap: int, types: seq<RequestType>, r: nat, i: nat, n: nat)
    requires Dealt(s0, s, w, cap, types, r, i) && n <= |types|
    ensures Dealt(s0, Withdraw(s, w, n), w, cap, types, r, i)
  {
    forall t
      ensures Withdraw(s, w, n).Pending(t) == s.Pending(t)
    {
      WithdrawIs(s, w, n, t);
    }
    DealtSame(s0, s, Withdraw(s, w, n), w, cap, types, r, i);
  }

  /** Where a deal stands: after `r` rounds and `i` turns, the worker listed from `lo` to `hi`. */
  ghost predicate Standing(
    s0: State, s: State, w: Identity, cap: int, types: seq<RequestType>, r: nat, i: nat, lo: nat, hi: nat)
  {
    && Inv(s, Settled) && Distinct(types)
    && Dealt(s0, s, w, cap, types, r, i) && Listed(s0, s, w, types, lo, hi)
  }

  lemma TookStanding(
    s0: State, s: State, s1: State, w: Identity, cap: int, types: seq<RequestType>, r: nat, i: nat,
    lo: nat, hi: nat)
    requires Standing(s0, s, w, cap, types, r, i, lo, hi) && i < |types| && s.FreeCapacity(w) > 0
    requires Took(s, s1, w, types[i]) && Inv(s1, Settled)
    ensures Standing(s0, s1, w, cap, types, r, i + 1, lo, hi) && |s0.Pending(types[i])| > r
  {
    hide Inv;
    DealtTurn(s0, s, s1, w, cap, types, r, i);
    ListedTook(s0, s, s1, w, types[i], types, lo, hi);
    hide Took, Dealt, Listed;
  }

  lemma WithdrawnStanding(
    s0: State, s: State, w: Identity, cap: int, types: seq<RequestType>, r: nat, i: nat, n: nat, hi: nat)
    requires Standing(s0, s, w, cap, types, r, i, 0, hi) && n <= |types|
    requires Inv(Withdraw(s, w, n), Settled)
    ensures Standing(s0, Withdraw(s, w, n), w, cap, types, r, i, n, hi)
  {
    hide Inv;
    DealtWithdrawn(s0, s, w, cap, types, r, i, n);
    ListedWithdrawn(s0, s, w, types, n, hi);
    hide Withdraw, Dealt, Listed;
  }

  lemma SkipStanding(
    s0: State, s: State, w: Identity, cap: int, types: seq<RequestType>, r: nat, i: nat, lo: nat, hi: nat)
    requires Standing(s0, s, w, cap, types, r, i, lo, hi) && i < |types| && s.Pending(types[i]) == []
    ensures Standing(s0, s, w, cap, types, r, i + 1, lo, hi)
  {
    hide Inv, Listed;
    DealtSkip(s0, s, w, cap, types, r, i);
  }

  lemma StandingAgrees(
    s0: State, s: State, w: Identity, cap: int, types: seq<RequestType>, r: nat, i: nat, lo: nat, hi: nat)
    requires Standing(s0, s, w, cap, types, r, i, lo, hi)
    ensures Inv(s, Settled) && w in s.workers && s.Types(w) == types && s.FreeCapacity(w) >= 0
  {
  }

  // ----- the sweeps -----

  /** In this round, from the i-th type on, a lost receipt hides that its type has more requests. */
  predicate SweepForgets(env: Env, s: State, w: Identity, i: nat, more: bool)
    decreases |s.Types(w)| - i
  {
    && i < |s.Types(w)|
    && var v := SweepVisit(env, s, w, i, more);
       || (HeadLost(env, s, s.Types(w)[i]) && |s.Pending(s.Types(w)[i])| > 1)
       || (!v.stop && SweepForgets(env, v.state, w, i + 1, v.more))
  }

  /** In it a lost receipt hides that the capacity has run out. */
  predicate SweepSpoils(env: Env, s: State, w: Identity, i: nat, more: bool)
    decreases |s.Types(w)| - i
  {
    && i < |s.Types(w)|
    && var v := SweepVisit(env, s, w, i, more);
       || (HeadLost(env, s, s.Types(w)[i]) && s.FreeCapacity(w) <= 1)
       || (!v.stop && SweepSpoils(env, v.state, w, i + 1, v.more))
  }

  /** Whether a type after the i-th has a pending request. */
  predicate PendingAfter(s: State, types: seq<RequestType>, i: nat) {
    exists j :: i < j < |types| && s.Pending(types[j]) != []
  }

  /** In it the last unit of capacity goes to a request with a lost receipt while a later type has a
      pending request. */
  predicate SweepOverruns(env: Env, s: State, w: Identity, i: nat, more: bool)
    decreases |s.Types(w)| - i
  {
    && i < |s.Types(w)|
    && var v := SweepVisit(env, s, w, i, more);
       || (HeadLost(env, s, s.Types(w)[i]) && s.FreeCapacity(w) == 1 && PendingAfter(s, s.Types(w), i))
       || (!v.stop && SweepOverruns(env, v.state, w, i + 1, v.more))
  }

  /** In it a type is seen to have more requests than the one handed over. */
  predicate SweepShows(env: Env, s: State, w: Identity, i: nat, more: bool)
    decreases |s.Types(w)| - i
  {
    && i < |s.Types(w)|
    && var v := SweepVisit(env, s, w, i, more);
       || (!HeadLost(env, s, s.Types(w)[i]) && |s.Pending(s.Types(w)[i])| > 1)
       || (!v.stop && SweepShows(env, v.state, w, i + 1, v.more))
  }

  /** How many of the types from the i-th on have a pending request. */
  function Waiters(s: State, types: seq<RequestType>, i: nat): nat
    decreases |types| - i
  {
    if i >= |types| then 0 else (if s.Pending(types[i]) != [] then 1 else 0) + Waiters(s, types, i + 1)
  }

  /** One turn of a sweep that finds a pending request. */
  lemma SweepVisitIs(env: Env, s: State, w: Identity, i: nat, more: bool)
    requires env.request(s.sends) && Inv(s, Settled) && w in s.workers
    requires i < |s.Types(w)| && s.Pending(s.Types(w)[i]) != []
    ensures var t := s.Types(w)[i];
            var s1 := ForwardQueued(env, s, w, Key(t, s.Pending(t)[0].id)).state;
            && Inv(s1, Settled) && Took(s, s1, w, t)
            && SweepVisit(env, s, w, i, more) ==
                 if HeadLost(env, s, t) then Visit(s1, more, false)
                 else if s1.FreeCapacity(w) <= 0 then Visit(Withdraw(s1, w, i + 1), more, true)
                 else Visit(s1, more || s1.Pending(t) != [], false)
  {
    ForwardHeadAgrees(env, s, w, s.Types(w)[i], Settled);
    HeadSent(env, s, w, s.Types(w)[i], Settled);
    hide Inv, Took, HeadLost, ForwardQueued;
  }

  /** What such a turn does to a deal. */
  lemma SweepTurn(
    env: Env, s0: State, s: State, w: Identity, cap: int, types: seq<RequestType>, r: nat, i: nat, more: bool)
    requires RequestsSent(env) && i < |types| && s.Pending(types[i]) != [] && s.FreeCapacity(w) > 0
    requires Standing(s0, s, w, cap, types, r, i, 0, |types|)
    ensures var v := SweepVisit(env, s, w, i, more);
            && |s0.Pending(types[i])| > r && v.state.FreeCapacity(w) == s.FreeCapacity(w) - 1
            && (v.stop <==> v.state.FreeCapacity(w) <= 0 && !HeadLost(env, s, types[i]))
            && Standing(s0, v.state, w, cap, types, r, i + 1, if v.stop then i + 1 else 0, |types|)
  {
    hide Inv, Standing, HeadLost, SweepVisit, ForwardQueued, Took;
    StandingAgrees(s0, s, w, cap, types, r, i, 0, |types|);
    SweepVisitIs(env, s, w, i, more);
    SweepTurnLists(env, s, w, i, more);
    SweepVisitAgrees(env, s, w, i, more);
    var t := types[i];
    var s1 := ForwardQueued(env, s, w, Key(t, s.Pending(t)[0].id)).state;
    TookStanding(s0, s, s1, w, cap, types, r, i, 0, |types|);
    if !HeadLost(env, s, t) && s1.FreeCapacity(w) <= 0 {
      WithdrawnStanding(s0, s1, w, cap, types, r, i + 1, i + 1, |types|);
    }
  }

  /** And to the lists. */
  lemma SweepTurnLists(env: Env, s: State, w: Identity, i: nat, more: bool)
    requires env.request(s.sends) && Inv(s, Settled) && w in s.workers
    requires i < |s.Types(w)| && s.Pending(s.Types(w)[i]) != []
    ensures var t := s.Types(w)[i];
            var v := SweepVisit(env, s, w, i, more);
            && v.state.FreeCapacity(w) == s.FreeCapacity(w) - 1
            && |v.state.Pending(t)| == |s.Pending(t)| - 1
            && (forall u :: u != t ==> v.state.Pending(u) == s.Pending(u))
            && (!v.stop ==> v.more == (more || (!HeadLost(env, s, t) && v.state.Pending(t) != [])))
            && (v.stop ==> v.state.FreeCapacity(w) <= 0)
            && (v.state.FreeCapacity(w) <= 0 && !HeadLost(env, s, t) ==> v.stop)
  {
    SweepVisitIs(env, s, w, i, more);
    var t := s.Types(w)[i];
    var s1 := ForwardQueued(env, s, w, Key(t, s.Pending(t)[0].id)).state;
    hide Inv, HeadLost, SweepVisit, ForwardQueued;
    forall u
      ensures Withdraw(s1, w, i + 1).Pending(u) == s1.Pending(u)
    {
      WithdrawIs(s1, w, i + 1, u);
    }
  }

  lemma SweepSkips(env: Env, s: State, w: Identity, i: nat, more: bool)
    requires i < |s.Types(w)| && s.Pending(s.Types(w)[i]) == []
    ensures SweepVisit(env, s, w, i, more) == Visit(s, more, false) && !HeadLost(env, s, s.Types(w)[i])
  {
  }

  /** A turn changes no later type's list. */
  lemma LaterKept(env: Env, s: State, w: Identity, i: nat, more: bool)
    requires env.request(s.sends) && Inv(s, Settled) && w in s.workers
    requires i < |s.Types(w)| && s.Pending(s.Types(w)[i]) != []
    ensures var s' := SweepVisit(env, s, w, i, more).state;
            var types := s.Types(w);
            s'.Types(w) == types && forall j :: i < j < |types| ==> s'.Pending(types[j]) == s.Pending(types[j])
  {
    SweepTurnLists(env, s, w, i, more);
    assert InfoAgrees(s.workers[w]) && Distinct(s.Types(w));
    hide Inv, InfoAgrees, SweepVisit, HeadLost;
  }

  lemma PendingAfterTurn(env: Env, s: State, w: Identity, i: nat, more: bool)
    requires RequestsSent(env) && Inv(s, Settled) && w in s.workers
    requires i < |s.Types(w)| && s.Pending(s.Types(w)[i]) != []
    ensures var s' := SweepVisit(env, s, w, i, more).state;
            && s'.Types(w) == s.Types(w)
            && (PendingAfter(s', s.Types(w), i) <==> PendingAfter(s, s.Types(w), i))
            && Waiters(s', s.Types(w), i + 1) == Waiters(s, s.Types(w), i + 1)
  {
    hide Inv, SweepVisit;
    LaterKept(env, s, w, i, more);
    SameWaiters(s, SweepVisit(env, s, w, i, more).state, s.Types(w), i + 1);
  }

  lemma {:induction false} SameWaiters(s: State, s': State, types: seq<RequestType>, i: nat)
    requires forall j :: i <= j < |types| ==> s'.Pending(types[j]) == s.Pending(types[j])
    ensures Waiters(s', types, i) == Waiters(s, types, i)
    decreases |types| - i
  {
    if i < |types| {
      SameWaiters(s, s', types, i + 1);
    }
  }

  /** A sweep hands over nothing when nothing is pending. */
  lemma {:induction false} SweepIdles(env: Env, s: State, w: Identity, i: nat, more: bool)
    requires i > 0 && !PendingAfter(s, s.Types(w), i - 1)
    ensures Sweep(env, s, w, i, more) == (s, more) && !SweepForgets(env, s, w, i, more)
    decreases |s.Types(w)| - i
  {
    if i < |s.Types(w)| {
      SweepSkips(env, s, w, i, more);
      hide SweepVisit;
      SweepIdles(env, s, w, i + 1, more);
    }
  }

  /** A sweep either goes round with capacity to spare, having seen whether anything is left unless
      receipts were lost; or it stops where the capacity runs out and takes the worker out of the types
      up to there only, or out of none if a lost receipt hid it. */
  ghost predicate Swept(
    s0: State, s: State, w: Identity, cap: int, types: seq<RequestType>, r: nat, end: nat, spoiled: bool)
  {
    if s.FreeCapacity(w) > 0 then
      Standing(s0, s, w, cap, types, r, |types|, 0, |types|)
    else
      end < |types| && RunsOutAt(cap, Counts(s0, types), r, end)
      && Standing(s0, s, w, cap, types, r, end + 1, if spoiled then 0 else end + 1, |types|)
  }

  lemma {:induction false} SweepDeals(
    env: Env, s0: State, s: State, w: Identity, cap: int, types: seq<RequestType>, r: nat, i: nat, more: bool)
    returns (end: nat)
    requires RequestsSent(env) && i <= |types| && s.FreeCapacity(w) > 0 && s.Types(w) == types
    requires Standing(s0, s, w, cap, types, r, i, 0, |types|) && !SweepOverruns(env, s, w, i, more)
    ensures Swept(s0, Sweep(env, s, w, i, more).0, w, cap, types, r, end, SweepSpoils(env, s, w, i, more))
    decreases |types| - i
  {
    hide Standing, RunsOutAt, SweepVisit, HeadLost, Inv, PendingAfter;
    end := 0;
    if i < |types| {
      var v := SweepVisit(env, s, w, i, more);
      if s.Pending(types[i]) == [] {
        SweepSkips(env, s, w, i, more);
        SkipStanding(s0, s, w, cap, types, r, i, 0, |types|);
        end := SweepDeals(env, s0, s, w, cap, types, r, i + 1, more);
      } else {
        SweepTurn(env, s0, s, w, cap, types, r, i, more);
        if v.state.FreeCapacity(w) <= 0 {
          end := i;
          RanOut(s0, v.state, w, cap, types, r, i, if v.stop then i + 1 else 0, s.FreeCapacity(w));
          if !v.stop {
            StandingAgrees(s0, s, w, cap, types, r, i, 0, |types|);
            PendingAfterTurn(env, s, w, i, more);
            SweepIdles(env, v.state, w, i + 1, v.more);
          }
        } else {
          end := SweepDeals(env, s0, v.state, w, cap, types, r, i + 1, v.more);
        }
      }
    }
  }

  lemma RanOut(
    s0: State, s: State, w: Identity, cap: int, types: seq<RequestType>, r: nat, i: nat, lo: nat, before: int)
    requires Standing(s0, s, w, cap, types, r, i + 1, lo, |types|) && i < |types|
    requires |s0.Pending(types[i])| > r && before > 0 && s.FreeCapacity(w) == before - 1 && s.FreeCapacity(w) <= 0
    ensures RunsOutAt(cap, Counts(s0, types), r, i)
  {
    hide Inv, Listed, Gave, Distinct, Total;
  }

  /** A round keeps capacity exactly if it has some for every type that waits and one more, and then it
      asks for another exactly if it saw a type with more requests. */
  lemma {:induction false} SweepWaits(env: Env, s: State, w: Identity, i: nat, more: bool)
    requires RequestsSent(env) && Inv(s, Settled) && w in s.workers
    ensures var out := Sweep(env, s, w, i, more);
            && (out.0.FreeCapacity(w) > 0 <==> Waiters(s, s.Types(w), i) < s.FreeCapacity(w))
            && (out.0.FreeCapacity(w) > 0 ==> (out.1 <==> more || SweepShows(env, s, w, i, more)))
    decreases |s.Types(w)| - i
  {
    hide SweepVisit, HeadLost, Inv;
    if i < |s.Types(w)| {
      var v := SweepVisit(env, s, w, i, more);
      if s.Pending(s.Types(w)[i]) == [] {
        SweepSkips(env, s, w, i, more);
        SweepWaits(env, s, w, i + 1, more);
      } else {
        SweepTurnLists(env, s, w, i, more);
        PendingAfterTurn(env, s, w, i, more);
        hide PendingAfter;
        if !v.stop {
          SweepVisitAgrees(env, s, w, i, more);
          SweepWaits(env, v.state, w, i + 1, v.more);
        }
      }
    }
  }

  /** Whether anything is left when a round with capacity to spare reports that nothing is: exactly if
      a lost receipt hid it. */
  lemma {:induction false} SweepLeaves(
    env: Env, s: State, w: Identity, types: seq<RequestType>, i: nat, more: bool, forgot: bool)
    requires RequestsSent(env) && Inv(s, Settled) && w in s.workers && s.Types(w) == types && Distinct(types)
    requires i <= |types| && (!more ==> (Dry(s, types, i) <==> !forgot))
    ensures var out := Sweep(env, s, w, i, more);
            out.0.FreeCapacity(w) > 0 && !out.1 ==>
              (Dry(out.0, types, |types|) <==> !forgot && !SweepForgets(env, s, w, i, more))
    decreases |types| - i
  {
    hide Inv, SweepVisit, HeadLost, Dry;
    if i < |types| {
      var v := SweepVisit(env, s, w, i, more);
      if s.Pending(types[i]) == [] {
        SweepSkips(env, s, w, i, more);
        hide Distinct;
        DryOn(s, s, types, i, more, more, forgot, forgot);
        SweepLeaves(env, s, w, types, i + 1, more, forgot);
      } else {
        SweepTurnLists(env, s, w, i, more);
        SweepVisitAgrees(env, s, w, i, more);
        if !v.stop {
          var hid := HeadLost(env, s, types[i]) && |s.Pending(types[i])| > 1;
          OthersKept(s, v.state, types, i);
          hide Distinct;
          DryOn(s, v.state, types, i, more, v.more, forgot, forgot || hid);
          SweepLeaves(env, v.state, w, types, i + 1, v.more, forgot || hid);
        }
      }
    }
  }

  lemma OthersKept(s: State, s': State, types: seq<RequestType>, i: nat)
    requires Distinct(types) && i < |types| && forall u :: u != types[i] ==> s'.Pending(u) == s.Pending(u)
    ensures forall j :: 0 <= j < i ==> s'.Pending(types[j]) == s.Pending(types[j])
  {
  }

  lemma DryOn(
    s: State, s': State, types: seq<RequestType>, i: nat, more: bool, more': bool, forgot: bool, forgot': bool)
    requires i < |types| && (!more ==> (Dry(s, types, i) <==> !forgot))
    requires !more' ==> !more && (s'.Pending(types[i]) != [] || forgot <==> forgot')
    requires forall j :: 0 <= j < i ==> s'.Pending(types[j]) == s.Pending(types[j])
    ensures !more' ==> (Dry(s', types, i + 1) <==> !forgot')
  {
    if !more' {
      assert Dry(s', types, i) <==> Dry(s, types, i);
      assert Dry(s', types, i + 1) <==> Dry(s', types, i) && s'.Pending(types[i]) == [];
    }
  }

  // ----- round after round -----

  /** The rounds end at one with capacity for every type that waits, no type seen to have more requests
      than the one handed over, and one that has more, hidden by a lost receipt. */
  predicate RoundsForget(env: Env, s: State, w: Identity, more: bool)
    decreases if more then 1 else 0, s.FreeCapacity(w)
  {
    && s.FreeCapacity(w) > 0 && more
    && var round := Sweep(env, s, w, 0, false);
       || (round.1 && RoundsForget(env, round.0, w, true))
       || (Waiters(s, s.Types(w), 0) < s.FreeCapacity(w)
           && !SweepShows(env, s, w, 0, false) && SweepForgets(env, s, w, 0, false))
  }

  lemma RoundsForgetIs(env: Env, s: State, w: Identity)
    requires RequestsSent(env) && Inv(s, Settled) && w in s.workers && s.FreeCapacity(w) > 0
    ensures var round := Sweep(env, s, w, 0, false);
            RoundsForget(env, s, w, true) <==>
              if round.1 then RoundsForget(env, round.0, w, true)
              else round.0.FreeCapacity(w) > 0 && SweepForgets(env, s, w, 0, false)
  {
    hide Sweep, SweepForgets, SweepShows, Inv, Waiters;
    SweepWaits(env, s, w, 0, false);
  }

  /** One of the rounds spoils. */
  predicate RoundsSpoil(env: Env, s: State, w: Identity, more: bool)
    decreases if more then 1 else 0, s.FreeCapacity(w)
  {
    && s.FreeCapacity(w) > 0 && more
    && var round := Sweep(env, s, w, 0, false);
       SweepSpoils(env, s, w, 0, false) || (round.1 && RoundsSpoil(env, round.0, w, true))
  }

  /** One of the rounds overruns. */
  predicate RoundsOverrun(env: Env, s: State, w: Identity, more: bool)
    decreases if more then 1 else 0, s.FreeCapacity(w)
  {
    && s.FreeCapacity(w) > 0 && more
    && var round := Sweep(env, s, w, 0, false);
       SweepOverruns(env, s, w, 0, false) || (round.1 && RoundsOverrun(env, round.0, w, true))
  }

  /** The sweeps end with every list of the worker's types empty, unless that was forgotten, or with
      the capacity used up. */
  ghost predicate Rounded(
    s0: State, s: State, w: Identity, cap: int, types: seq<RequestType>, k: nat, i: nat, spoiled: bool, forgot: bool)
  {
    if s.FreeCapacity(w) > 0 then
      i == 0 && Standing(s0, s, w, cap, types, k, 0, 0, |types|) && !spoiled
      && (Dry(s, types, |types|) <==> !forgot)
    else
      i < |types| && k >= 1 && RunsOutAt(cap, Counts(s0, types), k, i)
      && Standing(s0, s, w, cap, types, k, i + 1, if spoiled then 0 else i + 1, |types|)
  }

  lemma {:induction false} RoundsDeal(
    env: Env, s0: State, s: State, w: Identity, cap: int, types: seq<RequestType>, r: nat, more: bool)
    returns (k: nat, i: nat)
    requires RequestsSent(env) && s.FreeCapacity(w) > 0 && r >= 1
    requires Standing(s0, s, w, cap, types, r, 0, 0, |types|) && !RoundsOverrun(env, s, w, more)
    requires !more ==> Dry(s, types, |types|)
    ensures Rounded(s0, Rounds(env, s, w, more), w, cap, types, k, i,
                    RoundsSpoil(env, s, w, more), RoundsForget(env, s, w, more))
    decreases if more then 1 else 0, s.FreeCapacity(w)
  {
    hide Standing, Dry, RunsOutAt, Sweep, SweepOverruns, SweepSpoils, SweepForgets, SweepShows, Waiters;
    hide Inv, Swept, Rounded, Counts;
    StandingAgrees(s0, s, w, cap, types, r, 0, 0, |types|);
    k, i := r, 0;
    if more {
      RoundsForgetIs(env, s, w);
      var end := SweepDeals(env, s0, s, w, cap, types, r, 0, false);
      var round := Sweep(env, s, w, 0, false);
      if round.0.FreeCapacity(w) > 0 {
        RoundWent(s0, round.0, w, cap, types, r, end, SweepSpoils(env, s, w, 0, false));
        NotSpoiled(env, s, w, 0, false);
        if round.1 {
          k, i := RoundsDeal(env, s0, round.0, w, cap, types, r + 1, true);
        } else {
          k, i := r + 1, 0;
          RoundLeaves(env, s0, s, w, cap, types, r);
          RoundedSpare(s0, round.0, w, cap, types, r + 1, SweepForgets(env, s, w, 0, false));
        }
      } else {
        RoundsStop(env, round.0, w, true);
        RoundEnded(s0, round.0, w, cap, types, r, end, SweepSpoils(env, s, w, 0, false));
        i := end;
      }
    } else {
      RoundedSpare(s0, s, w, cap, types, r, false);
    }
  }

  lemma RoundWent(
    s0: State, s: State, w: Identity, cap: int, types: seq<RequestType>, r: nat, end: nat, spoiled: bool)
    requires Swept(s0, s, w, cap, types, r, end, spoiled) && s.FreeCapacity(w) > 0
    ensures Standing(s0, s, w, cap, types, r + 1, 0, 0, |types|)
  {
    hide Standing;
    NextRound(s0, s, w, cap, types, r);
  }

  lemma RoundEnded(
    s0: State, s: State, w: Identity, cap: int, types: seq<RequestType>, r: nat, end: nat, spoiled: bool)
    requires Swept(s0, s, w, cap, types, r, end, spoiled) && s.FreeCapacity(w) <= 0 && r >= 1
    ensures Rounded(s0, s, w, cap, types, r, end, spoiled, false)
  {
    hide Standing, RunsOutAt;
  }

  lemma RoundedSpare(
    s0: State, s: State, w: Identity, cap: int, types: seq<RequestType>, k: nat, forgot: bool)
    requires s.FreeCapacity(w) > 0 && Standing(s0, s, w, cap, types, k, 0, 0, |types|)
    requires Dry(s, types, |types|) <==> !forgot
    ensures Rounded(s0, s, w, cap, types, k, 0, false, forgot)
  {
    hide Standing, Dry;
  }

  lemma RoundLeaves(env: Env, s0: State, s: State, w: Identity, cap: int, types: seq<RequestType>, r: nat)
    requires RequestsSent(env) && Standing(s0, s, w, cap, types, r, 0, 0, |types|)
    ensures var round := Sweep(env, s, w, 0, false);
            round.0.FreeCapacity(w) > 0 && !round.1 ==>
              (Dry(round.0, types, |types|) <==> !SweepForgets(env, s, w, 0, false))
  {
    hide Sweep, SweepForgets, Listed, Dealt, Inv;
    StandingAgrees(s0, s, w, cap, types, r, 0, 0, |types|);
    DryAtFirst(s, types);
    SweepLeaves(env, s, w, types, 0, false, false);
  }

  /** Without capacity to spare nothing more happens. */
  lemma RoundsStop(env: Env, s: State, w: Identity, more: bool)
    requires s.FreeCapacity(w) <= 0
    ensures Rounds(env, s, w, more) == s
    ensures !RoundsSpoil(env, s, w, more) && !RoundsForget(env, s, w, more) && !RoundsOverrun(env, s, w, more)
  {
  }

  /** After a spoiled round there is no capacity. */
  lemma {:induction false} NotSpoiled(env: Env, s: State, w: Identity, i: nat, more: bool)
    requires RequestsSent(env) && Inv(s, Settled) && w in s.workers
    ensures Sweep(env, s, w, i, more).0.FreeCapacity(w) > 0 ==> !SweepSpoils(env, s, w, i, more)
    decreases |s.Types(w)| - i
  {
    hide SweepVisit, HeadLost, Inv;
    if i < |s.Types(w)| {
      var v := SweepVisit(env, s, w, i, more);
      if s.Pending(s.Types(w)[i]) == [] {
        SweepSkips(env, s, w, i, more);
      } else {
        SweepTurnLists(env, s, w, i, more);
      }
      SweepVisitAgrees(env, s, w, i, more);
      if !v.stop {
        NotSpoiled(env, v.state, w, i + 1, v.more);
      }
    }
  }

  lemma DryAtFirst(s: State, types: seq<RequestType>)
    ensures Dry(s, types, 0)
  {
  }

  lemma NextRound(s0: State, s: State, w: Identity, cap: int, types: seq<RequestType>, r: nat)
    requires Standing(s0, s, w, cap, types, r, |types|, 0, |types|)
    ensures Standing(s0, s, w, cap, types, r + 1, 0, 0, |types|)
  {
    hide Inv, Listed;
    DealtRound(s0, s, w, cap, types, r);
  }

  // ----- the first pass -----

  lemma RegisteredStanding(s: State, s1: State, w: Identity, types: seq<RequestType>, cap: nat, info: Info)
    requires Inv(s, Settled) && Distinct(types) && w !in s.workers
    requires s1 == s.WithWorker(w, info) && info.types == types && info.held == {}
    requires info.freeCapacity == cap && info.advertised == cap && info.strays == 0
    ensures Standing(s, s1, w, cap, types, 0, 0, 0, 0)
  {
    RegisteredAgrees(s, s1, w, info);
    StrangerListed(s, s1, w, types);
    RegisteredDealt(s, s1, w, cap, types);
    hide Inv, Dealt, Listed;
  }

  lemma RegisteredDealt(s: State, s1: State, w: Identity, cap: nat, types: seq<RequestType>)
    requires w in s1.workers && s1.contexts == s.contexts
    requires s1.Types(w) == types && s1.FreeCapacity(w) == cap
    ensures Dealt(s, s1, w, cap, types, 0, 0)
  {
    NothingTaken(Counts(s, types));
  }

  lemma StrangerListed(s: State, s1: State, w: Identity, types: seq<RequestType>)
    requires Inv(s, Settled) && w !in s.workers && s1.contexts == s.contexts
    requires s1.workers.Keys == s.workers.Keys + {w}
    requires forall v :: v in s.workers ==> s1.workers[v] == s.workers[v]
    ensures Listed(s, s1, w, types, 0, 0)
  {
    forall t
      ensures w !in s.Available(t)
    {
      assert AvailableAgrees(s);
    }
  }

  lemma {:induction false} NothingTaken(ps: seq<nat>)
    ensures Total(ps, 0, 0) == 0
  {
    if ps != [] {
      NothingTaken(ps[1..]);
    }
  }

  /** Counting a worker for a type, or making the type's context, touches no list and no set. */
  ghost predicate SameLists(s: State, s': State) {
    s'.workers == s.workers
    && forall t :: s'.Pending(t) == s.Pending(t) && s'.Available(t) == s.Available(t)
  }

  lemma CountedStanding(
    s0: State, s: State, s': State, w: Identity, cap: int, types: seq<RequestType>, i: nat, lo: nat, hi: nat)
    requires Standing(s0, s, w, cap, types, 0, i, lo, hi) && Inv(s', Settled) && SameLists(s, s')
    ensures Standing(s0, s', w, cap, types, 0, i, lo, hi)
  {
    hide Inv;
    DealtSame(s0, s, s', w, cap, types, 0, i);
  }

  /** A worker was made available for one type. */
  ghost predicate Relisted(s: State, s': State, w: Identity, t: RequestType) {
    && s'.workers == s.workers
    && (forall u :: s'.Pending(u) == s.Pending(u))
    && (forall u :: s'.Available(u) == if u == t then s.Available(u) + {w} else s.Available(u))
  }

  lemma ListedOneMore(
    s0: State, s: State, s': State, w: Identity, cap: int, types: seq<RequestType>, i: nat, j: nat)
    requires Standing(s0, s, w, cap, types, 0, j, 0, i) && i < |types|
    requires Inv(s', Settled) && Relisted(s, s', w, types[i])
    ensures Standing(s0, s', w, cap, types, 0, j, 0, i + 1)
  {
    hide Inv;
    RelistedListed(s0, s, s', w, types, i);
    hide Listed;
    DealtSame(s0, s, s', w, cap, types, 0, j);
  }

  lemma RelistedListed(s0: State, s: State, s': State, w: Identity, types: seq<RequestType>, i: nat)
    requires Listed(s0, s, w, types, 0, i) && i < |types| && Distinct(types)
    requires Relisted(s, s', w, types[i])
    ensures Listed(s0, s', w, types, 0, i + 1)
  {
  }

  /** In this pass, from the i-th type on, a lost receipt hides that the capacity has run out. */
  predicate PassSpoils(env: Env, s: State, w: Identity, i: nat, more: bool)
    decreases |s.Types(w)| - i
  {
    && i < |s.Types(w)|
    && var v := NewWorkerVisit(env, s, w, i, more);
       || (HeadLost(env, s, s.Types(w)[i]) && s.FreeCapacity(w) == 1)
       || PassSpoils(env, v.state, w, i + 1, v.more)
  }

  /** Where the first pass stands: with capacity left after `i` turns; or used up at some turn and the
      worker available nowhere, or for the types so far if a lost receipt hid it. */
  ghost predicate Passing(
    s0: State, s: State, more: bool, w: Identity, cap: int, types: seq<RequestType>, i: nat,
    end: nat, lo: nat, hi: nat, spoiled: bool)
  {
    if s.FreeCapacity(w) > 0 then
      Standing(s0, s, w, cap, types, 0, i, 0, i) && (!more ==> Dry(s, types, i)) && !spoiled
    else
      end <= |types| && hi <= |types| && (lo < hi <==> spoiled) && Standing(s0, s, w, cap, types, 0, end, lo, hi)
  }

  lemma ServedWithoutCapacity(
    env: Env, s0: State, s: State, w: Identity, cap: int, types: seq<RequestType>, i: nat, more: bool,
    end: nat, lo: nat, hi: nat)
    requires i < |types| && s.FreeCapacity(w) <= 0 && Standing(s0, s, w, cap, types, 0, end, lo, hi)
    ensures var v := NewWorkerVisit(env, s, w, i, more);
            Standing(s0, v.state, w, cap, types, 0, end, lo, hi) && v.state.FreeCapacity(w) <= 0
  {
    WithoutCapacityIs(env, s, w, i, more);
    NewWorkerVisitAgrees(env, s, w, i, more);
    hide Inv, NewWorkerVisit;
    CountedStanding(s0, s, NewWorkerVisit(env, s, w, i, more).state, w, cap, types, end, lo, hi);
  }

  lemma WithoutCapacityIs(env: Env, s: State, w: Identity, i: nat, more: bool)
    requires i < |s.Types(w)| && s.FreeCapacity(w) <= 0
    ensures SameLists(s, NewWorkerVisit(env, s, w, i, more).state)
  {
  }

  lemma {:induction false} NoneSpoils(env: Env, s: State, w: Identity, i: nat, more: bool)
    requires s.FreeCapacity(w) <= 0
    ensures !PassSpoils(env, s, w, i, more)
    decreases |s.Types(w)| - i
  {
    if i < |s.Types(w)| {
      WithoutCapacityIs(env, s, w, i, more);
      var v := NewWorkerVisit(env, s, w, i, more);
      hide NewWorkerVisit, HeadLost;
      NoneSpoils(env, v.state, w, i + 1, v.more);
    }
  }

  /** A type no request and no worker was known for. */
  lemma NewTypeTurn(
    env: Env, s0: State, s: State, w: Identity, cap: int, types: seq<RequestType>, i: nat, more: bool)
    requires i < |types| && s.FreeCapacity(w) > 0 && types[i] !in s.contexts
    requires Standing(s0, s, w, cap, types, 0, i, 0, i) && (!more ==> Dry(s, types, i))
    ensures var v := NewWorkerVisit(env, s, w, i, more);
            Passing(s0, v.state, v.more, w, cap, types, i + 1, 0, 0, 0, false)
  {
    NewTypeIs(env, s, w, i, more);
    NewWorkerVisitAgrees(env, s, w, i, more);
    hide NewWorkerVisit, Inv;
    SkipRelisted(s0, s, NewWorkerVisit(env, s, w, i, more).state, w, cap, types, i, more);
  }

  lemma NewTypeIs(env: Env, s: State, w: Identity, i: nat, more: bool)
    requires i < |s.Types(w)| && s.FreeCapacity(w) > 0 && s.Types(w)[i] !in s.contexts
    ensures var v := NewWorkerVisit(env, s, w, i, more);
            Relisted(s, v.state, w, s.Types(w)[i]) && v.more == more
  {
  }

  lemma SkipRelisted(
    s0: State, s: State, s': State, w: Identity, cap: int, types: seq<RequestType>, i: nat, more: bool)
    requires i < |types| && s.FreeCapacity(w) > 0 && s.Pending(types[i]) == []
    requires Standing(s0, s, w, cap, types, 0, i, 0, i) && (!more ==> Dry(s, types, i))
    requires Inv(s', Settled) && Relisted(s, s', w, types[i])
    ensures Passing(s0, s', more, w, cap, types, i + 1, 0, 0, 0, false)
    ensures s'.FreeCapacity(w) > 0
  {
    SkipStanding(s0, s, w, cap, types, 0, i, 0, i);
    hide Standing, Inv;
    ListedOneMore(s0, s, s', w, cap, types, i, i + 1);
    DryToo(s, s', types, i, more, more);
  }

  lemma DryToo(s: State, s': State, types: seq<RequestType>, i: nat, more: bool, more': bool)
    requires i < |types| && (!more ==> Dry(s, types, i))
    requires !more' ==> !more && s'.Pending(types[i]) == []
    requires forall t :: t != types[i] ==> s'.Pending(t) == s.Pending(t)
    ensures !more' ==> Dry(s', types, i + 1)
  {
    if !more' {
      forall j | 0 <= j < i + 1
        ensures s'.Pending(types[j]) == []
      {
        if j < i {
          assert s.Pending(types[j]) == [];
        }
      }
    }
  }

  /** A type with a context: its worker is counted first, and then served as follows. */
  lemma ServedTurn(
    env: Env, s0: State, s: State, w: Identity, cap: int, types: seq<RequestType>, i: nat, more: bool)
    returns (lo: nat, hi: nat)
    requires RequestsSent(env) && i < |types| && s.FreeCapacity(w) > 0 && types[i] in s.contexts
    requires Standing(s0, s, w, cap, types, 0, i, 0, i) && (!more ==> Dry(s, types, i))
    ensures var v := NewWorkerServed(env, s, w, i, more);
            Passing(s0, v.state, v.more, w, cap, types, i + 1, i + 1, lo, hi,
                    HeadLost(env, s, types[i]) && s.FreeCapacity(w) == 1)
  {
    hide Standing;
    if s.Pending(types[i]) == [] {
      lo, hi := 0, 0;
      EmptyTurn(env, s0, s, w, cap, types, i, more);
    } else {
      lo, hi := if HeadLost(env, s, types[i]) then 0 else i, if HeadLost(env, s, types[i]) then i + 1 else i;
      TakingTurn(env, s0, s, w, cap, types, i, more);
    }
  }

  lemma EmptyTurn(
    env: Env, s0: State, s: State, w: Identity, cap: int, types: seq<RequestType>, i: nat, more: bool)
    requires i < |types| && s.FreeCapacity(w) > 0 && types[i] in s.contexts && s.Pending(types[i]) == []
    requires Standing(s0, s, w, cap, types, 0, i, 0, i) && (!more ==> Dry(s, types, i))
    ensures var v := NewWorkerServed(env, s, w, i, more);
            Passing(s0, v.state, v.more, w, cap, types, i + 1, i + 1, 0, 0, false) && v.state.FreeCapacity(w) > 0
  {
    AddAvailableIs(s, w, types[i]);
    NewWorkerServedAgrees(env, s, w, i, more);
    var s' := AddAvailable(s, types[i], w);
    assert NewWorkerServed(env, s, w, i, more) == Visit(s', more, false);
    hide Inv, AddAvailable, Relisted, NewWorkerServed;
    SkipRelisted(s0, s, s', w, cap, types, i, more);
  }

  lemma AddAvailableIs(s: State, w: Identity, t: RequestType)
    requires t in s.contexts
    ensures Relisted(s, AddAvailable(s, t, w), w, t)
  {
  }

  lemma TakingTurn(
    env: Env, s0: State, s: State, w: Identity, cap: int, types: seq<RequestType>, i: nat, more: bool)
    requires RequestsSent(env) && i < |types| && s.FreeCapacity(w) > 0 && s.Pending(types[i]) != []
    requires Standing(s0, s, w, cap, types, 0, i, 0, i) && (!more ==> Dry(s, types, i))
    ensures var v := NewWorkerServed(env, s, w, i, more);
            var lost := HeadLost(env, s, types[i]);
            Passing(s0, v.state, v.more, w, cap, types, i + 1, i + 1, if lost then 0 else i,
                    if lost then i + 1 else i, lost && s.FreeCapacity(w) == 1)
  {
    var t := types[i];
    var lost := HeadLost(env, s, t);
    var s1 := ForwardQueued(env, s, w, Key(t, s.Pending(t)[0].id)).state;
    StandingAgrees(s0, s, w, cap, types, 0, i, 0, i);
    NewWorkerServedAgrees(env, s, w, i, more);
    ForwardHeadAgrees(env, s, w, t, Settled);
    HeadSent(env, s, w, t, Settled);
    hide Inv, Standing, HeadLost;
    TakingIs(env, s, s1, w, i, more, lost);
    hide ForwardQueued, NewWorkerServed;
    TookStanding(s0, s, s1, w, cap, types, 0, i, 0, i);
    var v := NewWorkerServed(env, s, w, i, more);
    if !lost && s1.FreeCapacity(w) <= 0 {
      WithdrawnStanding(s0, s1, w, cap, types, 0, i + 1, i, i);
    } else {
      ListedOneMore(s0, s1, v.state, w, cap, types, i, i + 1);
      hide Took;
      DryToo(s, v.state, types, i, more, v.more);
    }
  }

  lemma TakingIs(env: Env, s: State, s1: State, w: Identity, i: nat, more: bool, lost: bool)
    requires i < |s.Types(w)| && s.FreeCapacity(w) > 0 && s.Pending(s.Types(w)[i]) != []
    requires var t := s.Types(w)[i];
             var out := ForwardQueued(env, s, w, Key(t, s.Pending(t)[0].id));
             out == Sent(s1, !lost) && Took(s, s1, w, t)
    ensures var v := NewWorkerServed(env, s, w, i, more);
            var t := s.Types(w)[i];
            && s1.FreeCapacity(w) == s.FreeCapacity(w) - 1
            && if !lost && s1.FreeCapacity(w) <= 0 then v.state == Withdraw(s1, w, i)
               else
                 && Relisted(s1, v.state, w, t)
                 && (v.more <==> more || lost || v.state.Pending(t) != [])
                 && (forall u :: u != t ==> v.state.Pending(u) == s.Pending(u))
                 && v.state.FreeCapacity(w) == s1.FreeCapacity(w)
  {
    var t := s.Types(w)[i];
    AddAvailableIs(s1, w, t);
  }

  lemma PassTurn(
    env: Env, s0: State, s: State, w: Identity, cap: int, types: seq<RequestType>, i: nat, more: bool)
    returns (end: nat, lo: nat, hi: nat)
    requires RequestsSent(env) && i < |types| && s.FreeCapacity(w) > 0
    requires Standing(s0, s, w, cap, types, 0, i, 0, i) && (!more ==> Dry(s, types, i))
    ensures var v := NewWorkerVisit(env, s, w, i, more);
            Passing(s0, v.state, v.more, w, cap, types, i + 1, end, lo, hi,
                    HeadLost(env, s, types[i]) && s.FreeCapacity(w) == 1)
  {
    hide Standing, Dry, NewWorkerVisit, Passing;
    if types[i] in s.contexts {
      lo, hi := KnownTypeTurn(env, s0, s, w, cap, types, i, more);
      end := i + 1;
    } else {
      NewTypeTurn(env, s0, s, w, cap, types, i, more);
      end, lo, hi := 0, 0, 0;
    }
  }

  lemma KnownTypeTurn(
    env: Env, s0: State, s: State, w: Identity, cap: int, types: seq<RequestType>, i: nat, more: bool)
    returns (lo: nat, hi: nat)
    requires RequestsSent(env) && i < |types| && s.FreeCapacity(w) > 0 && types[i] in s.contexts
    requires Standing(s0, s, w, cap, types, 0, i, 0, i) && (!more ==> Dry(s, types, i))
    ensures var v := NewWorkerVisit(env, s, w, i, more);
            Passing(s0, v.state, v.more, w, cap, types, i + 1, i + 1, lo, hi,
                    HeadLost(env, s, types[i]) && s.FreeCapacity(w) == 1)
  {
    var t := types[i];
    var s1 := s.WithContext(t, s.contexts[t].IncrementNumWorkers());
    CountedAgrees(s, t);
    KnownTypeIs(env, s, s1, w, i, more);
    hide Inv, NewWorkerVisit, NewWorkerServed, HeadLost;
    CountedStanding(s0, s, s1, w, cap, types, i, 0, i);
    SameDry(s, s1, types, i);
    hide Standing, SameLists, Dry;
    lo, hi := ServedTurn(env, s0, s1, w, cap, types, i, more);
  }

  lemma KnownTypeIs(env: Env, s: State, s1: State, w: Identity, i: nat, more: bool)
    requires i < |s.Types(w)| && s.Types(w)[i] in s.contexts
    requires var t := s.Types(w)[i]; s1 == s.WithContext(t, s.contexts[t].IncrementNumWorkers())
    ensures SameLists(s, s1) && NewWorkerVisit(env, s, w, i, more) == NewWorkerServed(env, s1, w, i, more)
    ensures HeadLost(env, s1, s.Types(w)[i]) == HeadLost(env, s, s.Types(w)[i])
    ensures s1.FreeCapacity(w) == s.FreeCapacity(w)
  {
  }

  lemma SameDry(s: State, s': State, types: seq<RequestType>, n: nat)
    requires SameLists(s, s')
    ensures Dry(s, types, n) ==> Dry(s', types, n)
  {
  }

  lemma {:induction false} PassDeals(
    env: Env, s0: State, s: State, w: Identity, cap: int, types: seq<RequestType>, i: nat, more: bool,
    end0: nat, lo0: nat, hi0: nat, spoiled: bool) returns (end: nat, lo: nat, hi: nat)
    requires RequestsSent(env) && i <= |types| && s.Types(w) == types
    requires Passing(s0, s, more, w, cap, types, i, end0, lo0, hi0, spoiled)
    ensures var out := NewWorkerPass(env, s, w, i, more);
            Passing(s0, out.0, out.1, w, cap, types, |types|, end, lo, hi, spoiled || PassSpoils(env, s, w, i, more))
    decreases |types| - i
  {
    hide Standing, Dry, NewWorkerVisit, HeadLost;
    end, lo, hi := end0, lo0, hi0;
    if i < |types| {
      var v := NewWorkerVisit(env, s, w, i, more);
      if s.FreeCapacity(w) > 0 {
        end, lo, hi := PassTurn(env, s0, s, w, cap, types, i, more);
        var spoils := HeadLost(env, s, types[i]) && s.FreeCapacity(w) == 1;
        end, lo, hi := PassDeals(env, s0, v.state, w, cap, types, i + 1, v.more, end, lo, hi, spoils);
      } else {
        ServedWithoutCapacity(env, s0, s, w, cap, types, i, more, end0, lo0, hi0);
        NoneSpoils(env, s, w, i, more);
        end, lo, hi := PassDeals(env, s0, v.state, w, cap, types, i + 1, v.more, end0, lo0, hi0, spoiled);
        NoneSpoils(env, v.state, w, i + 1, v.more);
      }
    }
  }

  // ----- what lost receipts do to a deal -----

  /** A new worker as it is registered. */
  function Registered(s: State, w: Identity, capacity: int, types: seq<RequestType>, delay: int): State {
    s.WithWorker(w, Info(capacity, types, {}, s.now, s.now, delay, capacity, 0))
  }

  /** The deal ends, with capacity to spare, because a lost receipt hid that there is more to do. */
  predicate ReadyForgets(env: Env, s: State, w: Identity, capacity: int, types: seq<RequestType>, delay: int) {
    var pass := NewWorkerPass(env, Registered(s, w, capacity, types, delay), w, 0, false);
    RoundsForget(env, pass.0, w, pass.1)
  }

  /** A lost receipt hid that the capacity had run out. */
  predicate ReadySpoils(env: Env, s: State, w: Identity, capacity: int, types: seq<RequestType>, delay: int) {
    var s1 := Registered(s, w, capacity, types, delay);
    var pass := NewWorkerPass(env, s1, w, 0, false);
    PassSpoils(env, s1, w, 0, false) || RoundsSpoil(env, pass.0, w, pass.1)
  }

  /** And so a request was handed over without any left. */
  predicate ReadyOverruns(env: Env, s: State, w: Identity, capacity: int, types: seq<RequestType>, delay: int) {
    var pass := NewWorkerPass(env, Registered(s, w, capacity, types, delay), w, 0, false);
    RoundsOverrun(env, pass.0, w, pass.1)
  }

  // ----- the whole deal -----

  /** How the deal ends: with every list of the worker's types empty, unless that was forgotten, and
      the worker available for them all; or with the capacity used up, in the first round with the
      worker available nowhere, or in a later one with the worker still available for the types after
      the last turn; if a lost receipt hid that, for those before it too. */
  ghost predicate DealEnds(
    s0: State, s: State, w: Identity, cap: int, types: seq<RequestType>, r: nat, i: nat, lo: nat, hi: nat,
    spoiled: bool, forgot: bool)
  {
    && i <= |types| && hi <= |types| && Standing(s0, s, w, cap, types, r, i, lo, hi)
    && if s.FreeCapacity(w) > 0 then !spoiled && (Dry(s, types, |types|) <==> !forgot)
       else if r == 0 then lo < hi <==> spoiled
       else
         i >= 1 && RunsOutAt(cap, Counts(s0, types), r, i - 1)
         && lo == (if spoiled then 0 else i) && hi == |types|
  }

  lemma ReadyDeals(env: Env, s: State, w: Identity, capacity: int, types: seq<RequestType>, delay: int)
    returns (r: nat, i: nat, lo: nat, hi: nat)
    requires RequestsSent(env) && Inv(s, Settled) && Distinct(types) && Enrols(s, w, capacity, types)
    requires !ReadyOverruns(env, s, w, capacity, types, delay)
    ensures DealEnds(s, HandleWorkerReady(env, s, w, capacity, types, delay), w, capacity, types, r, i, lo, hi,
                     ReadySpoils(env, s, w, capacity, types, delay), ReadyForgets(env, s, w, capacity, types, delay))
  {
    var s1 := Registered(s, w, capacity, types, delay);
    RegisteredStanding(s, s1, w, types, capacity, s1.workers[w]);
    DryAtFirst(s1, types);
    hide Inv, Standing, Dry, NewWorkerPass, Rounds, DealEnds, Distinct, PassSpoils, RoundsSpoil, RoundsForget, RoundsOverrun;
    assert s1.Types(w) == types;
    var end, low, high := PassDeals(env, s, s1, w, capacity, types, 0, false, 0, 0, 0, false);
    var pass := NewWorkerPass(env, s1, w, 0, false);
    r, i, lo, hi := SweepsDeal(env, s, pass.0, pass.1, w, capacity, types, end, low, high,
                               PassSpoils(env, s1, w, 0, false));
  }

  lemma SweepsDeal(
    env: Env, s0: State, s: State, more: bool, w: Identity, cap: int, types: seq<RequestType>,
    end: nat, low: nat, high: nat, spoiled: bool)
    returns (r: nat, i: nat, lo: nat, hi: nat)
    requires RequestsSent(env) && Passing(s0, s, more, w, cap, types, |types|, end, low, high, spoiled)
    requires !RoundsOverrun(env, s, w, more)
    ensures DealEnds(s0, Rounds(env, s, w, more), w, cap, types, r, i, lo, hi,
                     spoiled || RoundsSpoil(env, s, w, more), RoundsForget(env, s, w, more))
  {
    hide Standing, Dry, Rounds, RunsOutAt, RoundsSpoil, RoundsForget, RoundsOverrun;
    if s.FreeCapacity(w) > 0 {
      NextRound(s0, s, w, cap, types, 0);
      var k, j := RoundsDeal(env, s0, s, w, cap, types, 1, more);
      r, i, lo, hi := k, j, 0, |types|;
      if Rounds(env, s, w, more).FreeCapacity(w) <= 0 {
        i, lo := j + 1, if RoundsSpoil(env, s, w, more) then 0 else j + 1;
      }
    } else {
      RoundsStop(env, s, w, more);
      r, i, lo, hi := 0, end, low, high;
    }
  }

  function Min(a: int, b: int): int {
    if a <= b then a else b
  }

  /** Exactly as many requests as the capacity and the pending requests of a worker's types allow went
      to it, from the front of each list, and the types took turns: after some number of rounds every
      type has given as much as it had, up to one more for the first few. */
  ghost predicate FairlyDealt(s: State, s': State, w: Identity, capacity: int, types: seq<RequestType>) {
    && w in s'.workers
    && s'.FreeCapacity(w) == capacity - Min(capacity, Sum(Counts(s, types)))
    && (exists r: nat, i: nat :: Dealt(s, s', w, capacity, types, r, i))
  }

  /** A new worker's capacity is dealt out like that exactly if no lost receipt hides that there is
      more to do, or that there is no capacity while there is more to do. */
  lemma ReadyRoundRobinIff(env: Env, s: State, w: Identity, capacity: int, types: seq<RequestType>, delay: int)
    requires RequestsSent(env) && Inv(s, Settled) && Distinct(types) && Enrols(s, w, capacity, types)
    ensures FairlyDealt(s, HandleWorkerReady(env, s, w, capacity, types, delay), w, capacity, types) <==>
              !ReadyForgets(env, s, w, capacity, types, delay)
              && !ReadyOverruns(env, s, w, capacity, types, delay)
  {
    if ReadyForgets(env, s, w, capacity, types, delay) {
      ForgotSpare(env, s, w, capacity, types, delay);
    }
    hide Inv, Distinct, HandleWorkerReady, ReadyForgets, ReadyOverruns, ReadySpoils;
    var s' := HandleWorkerReady(env, s, w, capacity, types, delay);
    if ReadyOverruns(env, s, w, capacity, types, delay) {
      OverrunSinks(env, s, w, capacity, types, delay);
    } else {
      var r, i, lo, hi := ReadyDeals(env, s, w, capacity, types, delay);
      hide DealEnds, FairlyDealt;
      FairUnlessForgot(s, s', w, capacity, types, r, i, lo, hi, ReadySpoils(env, s, w, capacity, types, delay),
                       ReadyForgets(env, s, w, capacity, types, delay));
    }
  }

  lemma {:induction false} RoundsForgotSpare(env: Env, s: State, w: Identity, more: bool)
    requires RequestsSent(env) && Inv(s, Settled) && w in s.workers && RoundsForget(env, s, w, more)
    ensures Rounds(env, s, w, more).FreeCapacity(w) > 0
    decreases if more then 1 else 0, s.FreeCapacity(w)
  {
    hide Sweep, SweepForgets, SweepShows, Waiters, Inv;
    RoundsForgetIs(env, s, w);
    SweepAgrees(env, s, w, 0, false);
    var round := Sweep(env, s, w, 0, false);
    if round.1 {
      RoundsForgotSpare(env, round.0, w, true);
    }
  }

  lemma ForgotSpare(env: Env, s: State, w: Identity, capacity: int, types: seq<RequestType>, delay: int)
    requires RequestsSent(env) && Inv(s, Settled) && Distinct(types) && Enrols(s, w, capacity, types)
    requires ReadyForgets(env, s, w, capacity, types, delay)
    ensures HandleWorkerReady(env, s, w, capacity, types, delay).FreeCapacity(w) > 0
  {
    var s1 := Registered(s, w, capacity, types, delay);
    RegisteredAgrees(s, s1, w, s1.workers[w]);
    NewWorkerPassAgrees(env, s1, w, 0, false);
    hide Inv, NewWorkerPass, Rounds, RoundsForget;
    var pass := NewWorkerPass(env, Registered(s, w, capacity, types, delay), w, 0, false);
    RoundsForgotSpare(env, pass.0, w, pass.1);
  }

  lemma FairUnlessForgot(
    s0: State, s: State, w: Identity, cap: nat, types: seq<RequestType>, r: nat, i: nat, lo: nat, hi: nat,
    spoiled: bool, forgot: bool)
    requires DealEnds(s0, s, w, cap, types, r, i, lo, hi, spoiled, forgot)
    requires s.FreeCapacity(w) <= 0 ==> !forgot
    ensures FairlyDealt(s0, s, w, cap, types) <==> !forgot
  {
    hide Standing, Dealt, Dry, RunsOutAt, Sum, Counts, Min;
    StandingAgrees(s0, s, w, cap, types, r, i, lo, hi);
    StandingDealt(s0, s, w, cap, types, r, i, lo, hi);
    DealtMost(s0, s, w, cap, types, r, i);
  }

  lemma StandingDealt(
    s0: State, s: State, w: Identity, cap: int, types: seq<RequestType>, r: nat, i: nat, lo: nat, hi: nat)
    requires Standing(s0, s, w, cap, types, r, i, lo, hi)
    ensures Dealt(s0, s, w, cap, types, r, i)
  {
  }

  /** How many are dealt out: all that fit, unless some of a list are left beside capacity. */
  lemma DealtMost(s0: State, s: State, w: Identity, cap: nat, types: seq<RequestType>, r: nat, i: nat)
    requires Dealt(s0, s, w, cap, types, r, i)
    ensures s.FreeCapacity(w) > 0 && !Dry(s, types, |types|) <==>
              s.FreeCapacity(w) != cap - Min(cap, Sum(Counts(s0, types)))
  {
    var ps := Counts(s0, types);
    TotalWithin(ps, r, i);
    if s.FreeCapacity(w) > 0 {
      if Dry(s, types, |types|) {
        AllGiven(s0, s, types, r, i);
        hide Dealt, Share;
        TotalDrained(ps, r, i);
      } else {
        var j := SomeLeft(s0, s, types, r, i);
        hide Dealt, Share;
        TotalShort(ps, r, i, j);
      }
    }
  }

  lemma AllGiven(s0: State, s: State, types: seq<RequestType>, r: nat, i: nat)
    requires Gave(s0, s, types, r, i) && Dry(s, types, |types|)
    ensures var ps := Counts(s0, types);
            forall j :: 0 <= j < |ps| ==> ps[j] <= Share(r, ps[j], j < i)
  {
    forall j | 0 <= j < |types|
      ensures |s0.Pending(types[j])| <= Share(r, |s0.Pending(types[j])|, j < i)
    {
      var p := s0.Pending(types[j]);
      assert |p[Share(r, |p|, j < i)..]| == 0;
    }
  }

  lemma SomeLeft(s0: State, s: State, types: seq<RequestType>, r: nat, i: nat) returns (j: nat)
    requires Gave(s0, s, types, r, i) && !Dry(s, types, |types|)
    ensures var ps := Counts(s0, types);
            j < |ps| && Share(r, ps[j], j < i) < ps[j]
  {
    j :| j < |types| && s.Pending(types[j]) != [];
    var p := s0.Pending(types[j]);
    assert s.Pending(types[j]) == p[Share(r, |p|, j < i)..];
  }

  /** When some type has not given all it had, the total is less than the sum. */
  lemma {:induction false} TotalShort(ps: seq<nat>, r: nat, i: nat, j: nat)
    requires j < |ps| && Share(r, ps[j], j < i) < ps[j]
    ensures Total(ps, r, i) < Sum(ps)
  {
    var rest := if i > 0 then i - 1 else 0;
    TotalWithin(ps[1..], r, rest);
    if j > 0 {
      assert ps[1..][j - 1] == ps[j];
      TotalShort(ps[1..], r, rest, j - 1);
    }
  }

  // ----- overrunning -----

  /** Once there is no capacity, the next pending request is handed over without any. */
  lemma {:induction false} SweepDrowns(env: Env, s: State, w: Identity, i: nat, more: bool)
    requires RequestsSent(env) && Inv(s, Settled) && w in s.workers && s.FreeCapacity(w) <= 0
    requires i > 0 && PendingAfter(s, s.Types(w), i - 1)
    ensures Sweep(env, s, w, i, more).0.FreeCapacity(w) < 0
    decreases |s.Types(w)| - i
  {
    hide SweepVisit, Inv, HeadLost;
    if s.Pending(s.Types(w)[i]) == [] {
      SweepSkips(env, s, w, i, more);
      SweepDrowns(env, s, w, i + 1, more);
    } else {
      SweepTurnLists(env, s, w, i, more);
    }
  }

  lemma OverrunTurn(env: Env, s: State, w: Identity, i: nat, more: bool)
    requires RequestsSent(env) && Inv(s, Settled) && w in s.workers && i < |s.Types(w)|
    requires HeadLost(env, s, s.Types(w)[i]) && s.FreeCapacity(w) == 1 && PendingAfter(s, s.Types(w), i)
    ensures Sweep(env, s, w, i, more).0.FreeCapacity(w) < 0
  {
    hide SweepVisit, Inv, PendingAfter;
    SweepVisitAgrees(env, s, w, i, more);
    SweepVisitIs(env, s, w, i, more);
    hide HeadLost;
    SweepTurnLists(env, s, w, i, more);
    PendingAfterTurn(env, s, w, i, more);
    var v := SweepVisit(env, s, w, i, more);
    SweepDrowns(env, v.state, w, i + 1, v.more);
  }

  lemma {:induction false} SweepSinks(env: Env, s: State, w: Identity, i: nat, more: bool)
    requires RequestsSent(env) && Inv(s, Settled) && w in s.workers && SweepOverruns(env, s, w, i, more)
    ensures Sweep(env, s, w, i, more).0.FreeCapacity(w) < 0
    decreases |s.Types(w)| - i
  {
    hide SweepVisit, Inv, HeadLost, PendingAfter;
    if HeadLost(env, s, s.Types(w)[i]) && s.FreeCapacity(w) == 1 && PendingAfter(s, s.Types(w), i) {
      OverrunTurn(env, s, w, i, more);
    } else {
      var v := SweepVisit(env, s, w, i, more);
      SweepVisitAgrees(env, s, w, i, more);
      SweepSinks(env, v.state, w, i + 1, v.more);
    }
  }

  lemma {:induction false} RoundsSink(env: Env, s: State, w: Identity, more: bool)
    requires RequestsSent(env) && Inv(s, Settled) && w in s.workers && RoundsOverrun(env, s, w, more)
    ensures Rounds(env, s, w, more).FreeCapacity(w) < 0
    decreases if more then 1 else 0, s.FreeCapacity(w)
  {
    hide Sweep, Inv, SweepOverruns;
    SweepAgrees(env, s, w, 0, false);
    var round := Sweep(env, s, w, 0, false);
    if SweepOverruns(env, s, w, 0, false) {
      SweepSinks(env, s, w, 0, false);
      RoundsStop(env, round.0, w, true);
    } else {
      RoundsSink(env, round.0, w, true);
    }
  }

  /** A worker overrun is over-committed. */
  lemma OverrunSinks(env: Env, s: State, w: Identity, capacity: int, types: seq<RequestType>, delay: int)
    requires RequestsSent(env) && Inv(s, Settled) && Distinct(types) && Enrols(s, w, capacity, types)
    requires ReadyOverruns(env, s, w, capacity, types, delay)
    ensures HandleWorkerReady(env, s, w, capacity, types, delay).FreeCapacity(w) < 0
  {
    var s1 := Registered(s, w, capacity, types, delay);
    RegisteredAgrees(s, s1, w, s1.workers[w]);
    NewWorkerPassAgrees(env, s1, w, 0, false);
    hide Inv, NewWorkerPass, Rounds, RoundsOverrun;
    var pass := NewWorkerPass(env, s1, w, 0, false);
    RoundsSink(env, pass.0, w, pass.1);
  }

  /** A worker that becomes ready is given more than it can take exactly if it is overrun. */
  lemma ReadyOvercommitsIff(env: Env, s: State, w: Identity, capacity: int, types: seq<RequestType>, delay: int)
    requires RequestsSent(env) && Inv(s, Settled) && Distinct(types) && Enrols(s, w, capacity, types)
    ensures HandleWorkerReady(env, s, w, capacity, types, delay).FreeCapacity(w) < 0 <==>
              ReadyOverruns(env, s, w, capacity, types, delay)
  {
    hide Inv, Distinct, HandleWorkerReady, ReadyForgets, ReadyOverruns, ReadySpoils, Standing, Dry, RunsOutAt;
    if ReadyOverruns(env, s, w, capacity, types, delay) {
      OverrunSinks(env, s, w, capacity, types, delay);
    } else {
      var r, i, lo, hi := ReadyDeals(env, s, w, capacity, types, delay);
      StandingAgrees(s, HandleWorkerReady(env, s, w, capacity, types, delay), w, capacity, types, r, i, lo, hi);
    }
  }

  /** While receipts get out nothing is forgotten, spoiled or overrun. */
  lemma {:induction false} SweepCovered(env: Env, s: State, w: Identity, i: nat, more: bool)
    requires RequestsSent(env) && ReceiptsSent(env) && Inv(s, Settled) && w in s.workers && s.FreeCapacity(w) > 0
    ensures !SweepForgets(env, s, w, i, more) && !SweepSpoils(env, s, w, i, more)
    ensures !SweepOverruns(env, s, w, i, more)
    decreases |s.Types(w)| - i
  {
    hide SweepVisit, Inv;
    if i < |s.Types(w)| {
      var v := SweepVisit(env, s, w, i, more);
      SweepVisitAgrees(env, s, w, i, more);
      if s.Pending(s.Types(w)[i]) == [] {
        SweepSkips(env, s, w, i, more);
      } else {
        SweepTurnLists(env, s, w, i, more);
      }
      if !v.stop {
        SweepCovered(env, v.state, w, i + 1, v.more);
      }
    }
  }

  lemma {:induction false} RoundsCovered(env: Env, s: State, w: Identity, more: bool)
    requires RequestsSent(env) && ReceiptsSent(env) && Inv(s, Settled) && w in s.workers
    ensures !RoundsForget(env, s, w, more) && !RoundsSpoil(env, s, w, more) && !RoundsOverrun(env, s, w, more)
    decreases if more then 1 else 0, s.FreeCapacity(w)
  {
    hide Sweep, Inv, SweepForgets, SweepSpoils, SweepOverruns;
    if s.FreeCapacity(w) > 0 && more {
      SweepAgrees(env, s, w, 0, false);
      SweepCovered(env, s, w, 0, false);
      var round := Sweep(env, s, w, 0, false);
      if round.1 {
        RoundsCovered(env, round.0, w, true);
      }
    }
  }

  lemma {:induction false} PassCovered(env: Env, s: State, w: Identity, i: nat, more: bool)
    requires ReceiptsSent(env)
    ensures !PassSpoils(env, s, w, i, more)
    decreases |s.Types(w)| - i
  {
    hide NewWorkerVisit, HeadLost, ReceiptsSent;
    if i < |s.Types(w)| {
      var v := NewWorkerVisit(env, s, w, i, more);
      NoneLost(env, s, s.Types(w)[i]);
      PassCovered(env, v.state, w, i + 1, v.more);
    }
  }

  lemma NoneLost(env: Env, s: State, t: RequestType)
    requires ReceiptsSent(env)
    ensures !HeadLost(env, s, t)
  {
  }

  lemma ReadyCovered(env: Env, s: State, w: Identity, capacity: int, types: seq<RequestType>, delay: int)
    requires AllSent(env) && Inv(s, Settled) && Distinct(types) && Enrols(s, w, capacity, types)
    ensures !ReadyForgets(env, s, w, capacity, types, delay) && !ReadySpoils(env, s, w, capacity, types, delay)
    ensures !ReadyOverruns(env, s, w, capacity, types, delay)
  {
    var s1 := Registered(s, w, capacity, types, delay);
    RegisteredAgrees(s, s1, w, s1.workers[w]);
    NewWorkerPassAgrees(env, s1, w, 0, false);
    PassCovered(env, s1, w, 0, false);
    hide Inv, NewWorkerPass;
    var pass := NewWorkerPass(env, s1, w, 0, false);
    RoundsCovered(env, pass.0, w, pass.1);
  }
}

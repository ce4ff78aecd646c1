/** What a worker keeps of the requests it has passed to its processor. */
module WorkerTables {
  import opened Wrappers
  import opened Cluster
  import opened Hops

  /** Whom to answer: the flags and the envelope of the client that asked last. */
  datatype RequestContext = RequestContext(vfs: VersionFlags, envelope: Message)

  /** The tables, and as history the keys passed to the processor, those it still has, the finishes and
      receipts sent to the broker, each with its envelope, and the keys whose requests or answers went
      with the processor when it was stopped. */
  datatype WorkerState = WorkerState(
    inProgress: map<RequestType, set<RequestId>>,
    requests: map<Key, RequestContext>,
    running: bool,
    accepted: multiset<Key>,
    processing: multiset<Key>,
    finishes: seq<(Key, Message)>,
    receipts: seq<(Key, Message)>,
    lost: multiset<Key>)
  {
    predicate InProgress(k: Key) {
      k.kind in inProgress && k.id in inProgress[k.kind]
    }

    function Begin(k: Key): WorkerState
      requires k.kind in inProgress
    {
      this.(inProgress := inProgress[k.kind := inProgress[k.kind] + {k.id}])
    }

    function End(k: Key): WorkerState {
      if k.kind !in inProgress then this
      else this.(inProgress := inProgress[k.kind := inProgress[k.kind] - {k.id}])
    }
  }

  function StartWith(types: set<RequestType>): WorkerState {
    WorkerState(map t | t in types :: {}, map[], true, multiset{}, multiset{}, [], [], multiset{})
  }

  datatype WorkerEvent =
    | Asked(header: Header, envelope: Message, forwarded: bool)
    | Unsupported
    | Answer(key: Key, status: RequestStatus)
    | Reconnected(gone: multiset<Key>)
    | Nothing

  /** A receipt is sent for a request that asked for one, whether new or redirected. */
  function WithReceipt(s: WorkerState, h: Header, envelope: Message): WorkerState {
    if h.vfs.Has(ReceiptOnReceive) then s.(receipts := s.receipts + [(h.key, envelope)]) else s
  }

  /** A request from the broker: redirected if it is here already, else passed to the processor. */
  function Ask(s: WorkerState, h: Header, envelope: Message, forwarded: bool): WorkerState {
    if h.key.kind !in s.inProgress then s.(running := false)
    else if h.key in s.requests then
      WithReceipt(s.(requests := s.requests[h.key := RequestContext(h.vfs, envelope)]), h, envelope)
    else if !forwarded then s.(running := false)
    else
      WithReceipt(
        s.Begin(h.key).(requests := s.requests[h.key := RequestContext(h.vfs, envelope)],
                        accepted := s.accepted + multiset{h.key},
                        processing := s.processing + multiset{h.key}),
        h, envelope)
  }

  /** The processor is finished with a request. */
  function Returned(s: WorkerState, k: Key): WorkerState {
    if k in s.processing then s.(processing := OneLess(s.processing, k))
    else s.(lost := OneLess(s.lost, k))
  }

  function OneLess(keys: multiset<Key>, k: Key): multiset<Key> {
    keys - multiset{k}
  }

  /** The processor is stopped and started again for a new connection. What is gone with it is not told
      to the tables. */
  function Restarted(s: WorkerState, gone: multiset<Key>): WorkerState {
    s.(processing := s.processing - gone, lost := s.lost + s.processing * gone)
  }

  /** An answer from the processor, which is finished with that request. */
  function Conclude(s: WorkerState, k: Key, status: RequestStatus): WorkerState {
    var s1 := Returned(s, k);
    if k.kind !in s.inProgress then s1.(requests := s.requests - {k})
    else if k !in s.requests then s1.End(k)
    else if k.id !in s.inProgress[k.kind] then s1.(requests := s.requests - {k})
    else
      s1.End(k).(requests := s.requests - {k},
                 finishes := s.finishes + [(k, s.requests[k].envelope)],
                 running := s.running && status != FatalError)
  }

  function WorkerStep(s: WorkerState, e: WorkerEvent): WorkerState {
    if !s.running then s
    else match e
         case Asked(h, envelope, forwarded) => Ask(s, h, envelope, forwarded)
         case Unsupported => s.(running := false)
         case Answer(k, status) => Conclude(s, k, status)
         case Reconnected(gone) => Restarted(s, gone)
         case Nothing => s
  }

  function WorkerRun(types: set<RequestType>, events: seq<WorkerEvent>): WorkerState {
    if events == [] then StartWith(types)
    else WorkerStep(WorkerRun(types, events[..|events| - 1]), events[|events| - 1])
  }

  // ----- coherence -----

  function Keys(finishes: seq<(Key, Message)>): seq<Key> {
    seq(|finishes|, i requires 0 <= i < |finishes| => finishes[i].0)
  }

  /** A context exists for exactly the requests in progress; the processor has exactly one copy of
      each, unless that went when it was stopped; and what it was ever given is what was finished, once
      each, what it still has and what went. */
  ghost predicate Coherent(s: WorkerState) {
    TablesCohere(s) && CountsCohere(s)
  }

  ghost predicate TablesCohere(s: WorkerState) {
    forall k :: k in s.requests <==> s.InProgress(k)
  }

  ghost predicate CountsCohere(s: WorkerState) {
    && s.processing + s.lost == multiset(s.requests.Keys)
    && s.accepted == multiset(Keys(s.finishes)) + (s.processing + s.lost)
  }

  lemma StepCoherent(s: WorkerState, e: WorkerEvent)
    requires Coherent(s)
    ensures Coherent(WorkerStep(s, e))
  {
    hide TablesCohere, CountsCohere;
    if s.running {
      match e
      case Asked(h, envelope, forwarded) =>
        AskTables(s, h, envelope, forwarded);
        AskCounts(s, h, envelope, forwarded);
      case Answer(k, status) =>
        ConcludeTables(s, k, status);
        ConcludeCounts(s, k, status);
      case Unsupported => Stopped(s);
      case Reconnected(gone) => RestartedCoherent(s, gone);
      case Nothing =>
    }
  }

  lemma Stopped(s: WorkerState)
    requires Coherent(s)
    ensures Coherent(s.(running := false))
  {
  }

  lemma RestartedCoherent(s: WorkerState, gone: multiset<Key>)
    requires Coherent(s)
    ensures Coherent(Restarted(s, gone))
  {
    assert s.processing - gone + s.processing * gone == s.processing;
    var s' := Restarted(s, gone);
    assert s'.processing + s'.lost == s.processing + s.lost;
    assert forall k :: s'.InProgress(k) <==> s.InProgress(k);
  }

  /** The request that becomes known, if one does. */
  function AddedKeys(s: WorkerState, h: Header, forwarded: bool): set<Key> {
    if h.key.kind in s.inProgress && h.key !in s.requests && forwarded then {h.key} else {}
  }

  lemma AskTables(s: WorkerState, h: Header, envelope: Message, forwarded: bool)
    requires TablesCohere(s)
    ensures TablesCohere(Ask(s, h, envelope, forwarded))
  {
    var added := AddedKeys(s, h, forwarded);
    var s' := Ask(s, h, envelope, forwarded);
    assert s'.requests.Keys == s.requests.Keys + added;
    forall k
      ensures s'.InProgress(k) <==> s.InProgress(k) || k in added
    {
      assert k.kind == h.key.kind && k.id == h.key.id ==> k == h.key;
    }
    hide Ask;
  }

  lemma AskCounts(s: WorkerState, h: Header, envelope: Message, forwarded: bool)
    requires CountsCohere(s)
    ensures CountsCohere(Ask(s, h, envelope, forwarded))
  {
    AskKeys(s, h, envelope, forwarded);
    AskHistory(s, h, envelope, forwarded);
    hide Ask, Keys, AddedKeys;
    MoreKeys(s.requests.Keys, AddedKeys(s, h, forwarded));
  }

  lemma AskHistory(s: WorkerState, h: Header, envelope: Message, forwarded: bool)
    ensures var s' := Ask(s, h, envelope, forwarded);
            var added := AddedKeys(s, h, forwarded);
            && s'.accepted == s.accepted + multiset(added)
            && s'.processing == s.processing + multiset(added) && s'.finishes == s.finishes
            && s'.lost == s.lost
  {
  }

  lemma AskKeys(s: WorkerState, h: Header, envelope: Message, forwarded: bool)
    ensures var added := AddedKeys(s, h, forwarded);
            Ask(s, h, envelope, forwarded).requests.Keys == s.requests.Keys + added && added !! s.requests.Keys
  {
  }

  lemma MoreKeys(keys: set<Key>, more: set<Key>)
    requires keys !! more
    ensures multiset(keys + more) == multiset(keys) + multiset(more)
  {
  }

  lemma ReturnedTables(s: WorkerState, k: Key)
    ensures var s' := Returned(s, k);
            && s'.inProgress == s.inProgress && s'.requests == s.requests && s'.running == s.running
            && s'.accepted == s.accepted && s'.finishes == s.finishes && s'.receipts == s.receipts
  {
    hide OneLess;
  }

  lemma ConcludeHistory(s: WorkerState, k: Key, status: RequestStatus)
    ensures var s' := Conclude(s, k, status);
            && s'.requests.Keys == s.requests.Keys - {k} && s'.accepted == s.accepted
            && s'.processing == Returned(s, k).processing && s'.lost == Returned(s, k).lost
  {
    ReturnedTables(s, k);
    hide Returned;
  }

  lemma ConcludeProgress(s: WorkerState, k: Key, status: RequestStatus)
    requires k in s.requests <==> s.InProgress(k)
    ensures forall other :: Conclude(s, k, status).InProgress(other) <==> s.InProgress(other) && other != k
  {
    ReturnedTables(s, k);
    hide Returned;
    var s' := Conclude(s, k, status);
    assert s'.inProgress == s.End(k).inProgress;
    hide Conclude;
    forall other
      ensures s'.InProgress(other) <==> s.InProgress(other) && other != k
    {
      assert other.kind == k.kind && other.id == k.id ==> other == k;
    }
  }

  lemma ConcludeFinishes(s: WorkerState, k: Key, status: RequestStatus)
    requires k in s.requests <==> s.InProgress(k)
    ensures Keys(Conclude(s, k, status).finishes) == Keys(s.finishes) + if k in s.requests then [k] else []
  {
    ReturnedTables(s, k);
    hide Returned;
    var s' := Conclude(s, k, status);
    if k in s.requests {
      assert s'.finishes == s.finishes + [(k, s.requests[k].envelope)];
    } else {
      assert s'.finishes == s.finishes;
    }
    hide Conclude;
  }

  lemma ConcludeTables(s: WorkerState, k: Key, status: RequestStatus)
    requires TablesCohere(s)
    ensures TablesCohere(Conclude(s, k, status))
  {
    ConcludeHistory(s, k, status);
    ConcludeProgress(s, k, status);
    hide Conclude;
  }

  lemma ConcludeCounts(s: WorkerState, k: Key, status: RequestStatus)
    requires CountsCohere(s) && TablesCohere(s)
    ensures CountsCohere(Conclude(s, k, status))
  {
    assert k in s.requests <==> s.InProgress(k);
    hide TablesCohere, Conclude, Keys, Returned;
    ConcludeHistory(s, k, status);
    ConcludeFinishes(s, k, status);
    ReturnedOne(s, k);
    OneKeyLess(s.requests.Keys, k);
    var s' := Conclude(s, k, status);
    if k !in s.requests {
      assert Keys(s'.finishes) == Keys(s.finishes);
    }
  }

  lemma ReturnedOne(s: WorkerState, k: Key)
    ensures var s' := Returned(s, k);
            s'.processing + s'.lost == s.processing + s.lost - multiset{k}
  {
  }

  lemma OneKeyLess(keys: set<Key>, k: Key)
    ensures multiset(keys - {k}) == multiset(keys) - multiset{k}
    ensures k in keys ==> multiset(keys) == multiset(keys - {k}) + multiset{k}
  {
  }

  /** Over any run: whatever the broker asks and the processor answers, in any order. */
  lemma {:induction false} WorkerCoherent(types: set<RequestType>, events: seq<WorkerEvent>)
    ensures Coherent(WorkerRun(types, events))
  {
    if events == [] {
      assert Keys([]) == [];
    } else {
      WorkerCoherent(types, events[..|events| - 1]);
      StepCoherent(WorkerRun(types, events[..|events| - 1]), events[|events| - 1]);
    }
  }

  // ----- whom a finish answers -----

  /** The last time a request was asked for. */
  function LastAsk(events: seq<WorkerEvent>, k: Key): Option<RequestContext> {
    if events == [] then None
    else
      match events[|events| - 1]
      case Asked(h, envelope, _) =>
        if h.key == k then Some(RequestContext(h.vfs, envelope)) else LastAsk(events[..|events| - 1], k)
      case _ => LastAsk(events[..|events| - 1], k)
  }

  lemma {:induction false} KeepsLastAsk(types: set<RequestType>, events: seq<WorkerEvent>, k: Key)
    ensures var s := WorkerRun(types, events);
            s.running && k in s.requests ==> LastAsk(events, k) == Some(s.requests[k])
  {
    hide WorkerStep;
    if events != [] {
      var before := events[..|events| - 1];
      KeepsLastAsk(types, before, k);
      StepKeeps(WorkerRun(types, before), events[|events| - 1], k);
    }
  }

  /** A context changes only when its request is asked for again. */
  lemma StepKeeps(s: WorkerState, e: WorkerEvent, k: Key)
    ensures var s' := WorkerStep(s, e);
            s'.running && k in s'.requests ==>
              && s.running
              && if e.Asked? && e.header.key == k then s'.requests[k] == RequestContext(e.header.vfs, e.envelope)
                 else k in s.requests && s'.requests[k] == s.requests[k]
  {
    if s.running {
      match e
      case Answer(other, _) =>
        ReturnedTables(s, other);
        hide Returned;
      case Asked(_, _, _) =>
      case Reconnected(gone) =>
      case Unsupported =>
      case Nothing =>
    }
  }

  /** A finish carries the envelope of the client that asked last, however often it was redirected. */
  lemma FinishAnswersLastAsk(types: set<RequestType>, events: seq<WorkerEvent>, k: Key, status: RequestStatus)
    ensures var s := WorkerRun(types, events);
            var s' := WorkerStep(s, Answer(k, status));
            s'.finishes != s.finishes ==>
              && k in s.requests && LastAsk(events, k).Some?
              && s'.finishes == s.finishes + [(k, LastAsk(events, k).value.envelope)]
    ensures var s := WorkerRun(types, events);
            s.running && k in s.requests ==>
              WorkerStep(s, Answer(k, status)).finishes != s.finishes
  {
    KeepsLastAsk(types, events, k);
    WorkerCoherent(types, events);
  }

  // ----- what a worker takes up, and what it says of it -----

  /** A request of a supported type that is here already, or is new and was passed on. */
  predicate TakesUp(s: WorkerState, h: Header, forwarded: bool) {
    h.key.kind in s.inProgress && (h.key in s.requests || forwarded)
  }

  /** The request is in progress with the context of the client that asked last, and the processor was given
      it if it was not here. */
  ghost predicate TakenUp(s: WorkerState, s': WorkerState, h: Header, envelope: Message) {
    && s'.running == s.running && h.key in s'.requests && s'.InProgress(h.key)
    && s'.requests[h.key].vfs == h.vfs && s'.requests[h.key].envelope == envelope
    && (forall k :: k != h.key ==> (k in s'.requests <==> k in s.requests) && (s'.InProgress(k) <==> s.InProgress(k)))
    && (forall k :: k != h.key && k in s.requests ==> s'.requests[k] == s.requests[k])
    && s'.accepted == s.accepted + (if h.key in s.requests then multiset{} else multiset{h.key})
    && s'.processing == s.processing + (if h.key in s.requests then multiset{} else multiset{h.key})
    && s'.finishes == s.finishes && s'.lost == s.lost
  }

  /** A worker that runs takes a request up exactly if it supports the type and has the request or could
      pass it on; if not it stops, with its tables as they were. */
  lemma AskedExactly(s: WorkerState, h: Header, envelope: Message, forwarded: bool)
    requires s.running && TablesCohere(s)
    ensures var s' := WorkerStep(s, Asked(h, envelope, forwarded));
            if TakesUp(s, h, forwarded) then TakenUp(s, s', h, envelope) else s' == s.(running := false)
  {
    hide TablesCohere;
    if TakesUp(s, h, forwarded) {
      if h.key in s.requests {
        InProgressHere(s, h.key);
      } else {
        var s' := WorkerStep(s, Asked(h, envelope, forwarded));
        forall k
          ensures s'.InProgress(k) <==> s.InProgress(k) || k == h.key
        {
          assert k.kind == h.key.kind && k.id == h.key.id ==> k == h.key;
        }
      }
    }
  }

  lemma InProgressHere(s: WorkerState, k: Key)
    requires TablesCohere(s) && k in s.requests
    ensures s.InProgress(k)
  {
  }

  /** A worker stops exactly on a request it does not take up, on one of an unsupported type, or when it has
      sent an answer that says that nothing more can be done. */
  lemma StopsExactly(s: WorkerState, e: WorkerEvent)
    requires s.running && TablesCohere(s)
    ensures !WorkerStep(s, e).running <==>
              match e
              case Asked(h, _, forwarded) => !TakesUp(s, h, forwarded)
              case Unsupported => true
              case Answer(k, status) => k in s.requests && status == FatalError
              case _ => false
  {
    hide TablesCohere;
    match e
    case Asked(h, envelope, forwarded) => AskedExactly(s, h, envelope, forwarded);
    case Answer(k, status) =>
      ReturnedTables(s, k);
      hide Returned;
      if k in s.requests {
        InProgressHere(s, k);
      }
    case _ =>
  }

  /** The receipts due on a run: for each request taken up while the worker runs, new or redirected, that
      asked for one, to the client that asked. */
  function ReceiptsDue(types: set<RequestType>, events: seq<WorkerEvent>): seq<(Key, Message)> {
    if events == [] then []
    else
      var before := events[..|events| - 1];
      var s := WorkerRun(types, before);
      ReceiptsDue(types, before)
      + match events[|events| - 1]
        case Asked(h, envelope, forwarded) =>
          if s.running && TakesUp(s, h, forwarded) && h.vfs.Has(ReceiptOnReceive) then [(h.key, envelope)] else []
        case _ => []
  }

  /** Over any run exactly the receipts due are sent, in order. */
  lemma {:induction false} ReceiptsSentAsDue(types: set<RequestType>, events: seq<WorkerEvent>)
    ensures WorkerRun(types, events).receipts == ReceiptsDue(types, events)
  {
    hide WorkerStep;
    if events != [] {
      var before := events[..|events| - 1];
      ReceiptsSentAsDue(types, before);
      StepReceipts(WorkerRun(types, before), events[|events| - 1]);
    }
  }

  lemma StepReceipts(s: WorkerState, e: WorkerEvent)
    ensures WorkerStep(s, e).receipts == s.receipts +
              match e
              case Asked(h, envelope, forwarded) =>
                if s.running && TakesUp(s, h, forwarded) && h.vfs.Has(ReceiptOnReceive) then [(h.key, envelope)] else []
              case _ => []
  {
    if e.Answer? {
      ReturnedTables(s, e.key);
      hide Returned;
    }
  }

  // ----- what is lost with a processor -----

  /** A request that went when its processor was stopped stays in progress in every continuation of the
      run, and is never passed to a processor again, however often the broker asks for it. */
  lemma {:induction false} LostForGood(
    types: set<RequestType>, events: seq<WorkerEvent>, more: seq<WorkerEvent>, k: Key)
    requires k in WorkerRun(types, events).lost
    requires forall i :: 0 <= i < |more| ==> !(more[i].Answer? && more[i].key == k)
    ensures var s := WorkerRun(types, events + more);
            k in s.lost && k in s.requests && s.accepted[k] == WorkerRun(types, events).accepted[k]
    decreases |more|
  {
    hide WorkerStep, Coherent;
    WorkerCoherent(types, events + more);
    if more == [] {
      assert events + more == events;
      LostInProgress(WorkerRun(types, events), k);
    } else {
      var before := events + more[..|more| - 1];
      assert (events + more)[..|events + more| - 1] == before;
      LostForGood(types, events, more[..|more| - 1], k);
      LostStays(WorkerRun(types, before), more[|more| - 1], k);
      hide WorkerRun;
      LostInProgress(WorkerRun(types, events + more), k);
    }
  }

  lemma LostInProgress(s: WorkerState, k: Key)
    requires Coherent(s) && k in s.lost
    ensures k in s.requests
  {
    hide TablesCohere;
    assert k in s.processing + s.lost;
  }

  lemma LostStays(s: WorkerState, e: WorkerEvent, k: Key)
    requires k in s.lost && k in s.requests && !(e.Answer? && e.key == k)
    ensures k in WorkerStep(s, e).lost && WorkerStep(s, e).accepted[k] == s.accepted[k]
  {
    if s.running {
      match e
      case Asked(h, envelope, forwarded) => LostAsked(s, h, envelope, forwarded, k);
      case Answer(other, status) => LostAnswered(s, other, status, k);
      case Reconnected(gone) =>
      case _ =>
    }
  }

  lemma LostAsked(s: WorkerState, h: Header, envelope: Message, forwarded: bool, k: Key)
    requires k in s.lost && k in s.requests
    ensures Ask(s, h, envelope, forwarded).lost == s.lost
    ensures Ask(s, h, envelope, forwarded).accepted[k] == s.accepted[k]
  {
  }

  lemma LostAnswered(s: WorkerState, other: Key, status: RequestStatus, k: Key)
    requires k in s.lost && other != k
    ensures k in Conclude(s, other, status).lost && Conclude(s, other, status).accepted == s.accepted
  {
    hide Returned;
    LostReturned(s, other, k);
  }

  lemma LostReturned(s: WorkerState, other: Key, k: Key)
    requires k in s.lost && other != k
    ensures k in Returned(s, other).lost && Returned(s, other).accepted == s.accepted
  {
  }

  // ----- the capacity advertised -----

  /** The sizes of the in-progress sets, type by type. */
  function Load(s: WorkerState, order: seq<RequestType>): nat
    requires forall t :: t in order ==> t in s.inProgress
  {
    if order == [] then 0
    else Load(s, order[..|order| - 1]) + |s.inProgress[order[|order| - 1]]|
  }

  function KeysFor(s: WorkerState, order: seq<RequestType>): set<Key> {
    set k | k in s.requests && k.kind in order
  }

  lemma {:induction false} LoadIs(s: WorkerState, order: seq<RequestType>)
    requires TablesCohere(s) && forall t :: t in order ==> t in s.inProgress
    requires forall i, j :: 0 <= i < j < |order| ==> order[i] != order[j]
    ensures Load(s, order) == |KeysFor(s, order)|
  {
    if order == [] {
      assert KeysFor(s, order) == {};
    } else {
      var before := order[..|order| - 1];
      var t := order[|order| - 1];
      LoadIs(s, before);
      assert order == before + [t] && t !in before;
      var these := set k | k in s.requests && k.kind == t;
      OneType(s, t, these);
      KeysSplit(s, before, t, these);
    }
  }

  lemma KeysSplit(s: WorkerState, before: seq<RequestType>, t: RequestType, these: set<Key>)
    requires t !in before && these == set k | k in s.requests && k.kind == t
    ensures |KeysFor(s, before + [t])| == |KeysFor(s, before)| + |these|
  {
    assert KeysFor(s, before + [t]) == KeysFor(s, before) + these;
    assert KeysFor(s, before) !! these;
  }

  lemma OneType(s: WorkerState, t: RequestType, these: set<Key>)
    requires TablesCohere(s) && t in s.inProgress
    requires these == set k | k in s.requests && k.kind == t
    ensures |these| == |s.inProgress[t]|
  {
    forall k
      ensures k in these <==> k.kind == t && k.id in s.inProgress[t]
    {
      assert k in s.requests <==> s.InProgress(k);
    }
    SameSize(t, s.inProgress[t], these);
  }

  lemma {:induction false} SameSize(t: RequestType, ids: set<RequestId>, keys: set<Key>)
    requires forall k :: k in keys <==> k.kind == t && k.id in ids
    ensures |keys| == |ids|
    decreases ids
  {
    if ids == {} {
      assert keys == {};
    } else {
      var id :| id in ids;
      assert Key(t, id) in keys;
      SameSize(t, ids - {id}, keys - {Key(t, id)});
    }
  }

  /** A worker advertises its capacity less the requests it has, whichever way its types are listed. */
  lemma LoadIsRequests(s: WorkerState, order: seq<RequestType>)
    requires Coherent(s) && forall t :: t in order <==> t in s.inProgress
    requires forall i, j :: 0 <= i < j < |order| ==> order[i] != order[j]
    ensures Load(s, order) == |s.requests|
  {
    LoadIs(s, order);
    assert KeysFor(s, order) == s.requests.Keys by {
      forall k | k in s.requests
        ensures k.kind in order
      {
        assert s.InProgress(k);
      }
    }
  }
}

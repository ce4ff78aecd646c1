/** The worker as the object it is, taking messages apart and putting them together in place. */
module Worker {
  import opened Wrappers
  import opened Cluster
  import opened Wire
  import opened Hops
  import opened WorkerTables

  /** What a request from the broker is to a worker that supports `types`. An unsupported type ends
      the worker even when the id after it is missing. */
  function BrokerEvent(c: Codec, types: set<RequestType>, msg: Message, forwarded: bool): (e: WorkerEvent)
    ensures e.Asked? ==> Delimiter(msg) + 3 < |msg|
  {
    var n := Delimiter(msg);
    if n == 0 || n >= |msg| || !Filled(msg, n + 1) || !Filled(msg, n + 2) then Nothing
    else if c.readKind(msg[n + 2]) !in types then Unsupported
    else match ReadHeader(c, msg, n + 1)
         case None => Nothing
         case Some(h) => Asked(h, msg[..n], forwarded)
  }

  /** The same of what is behind the envelope. */
  function RestEvent(
    c: Codec, types: set<RequestType>, envelope: Message, rest: Message, forwarded: bool): (e: WorkerEvent)
    ensures e.Asked? ==> |rest| >= 3
  {
    if !Filled(rest, 0) || !Filled(rest, 1) then Nothing
    else if c.readKind(rest[1]) !in types then Unsupported
    else match ReadHeader(c, rest, 0)
         case None => Nothing
         case Some(h) => Asked(h, envelope, forwarded)
  }

  lemma BrokerEventIs(c: Codec, types: set<RequestType>, msg: Message, forwarded: bool)
    ensures var n := Delimiter(msg);
            && BrokerEvent(c, types, msg, forwarded) ==
                 (if n == 0 || n >= |msg| then Nothing else RestEvent(c, types, msg[..n], msg[n + 1..], forwarded))
            && (BrokerEvent(c, types, msg, forwarded).Asked? ==>
                  && n + 3 < |msg| && |msg[n + 1..]| >= 3
                  && msg[n + 1..][1] == msg[n + 2] && msg[n + 1..][2] == msg[n + 3])
  {
    hide Delimiter;
  }

  function ProcessorEvent(c: Codec, msg: Message): WorkerEvent {
    match ReadAnswer(c, msg)
    case None => Nothing
    case Some(read) => Answer(read.0.key, read.1)
  }

  /** A request the worker supports is what was sent to it. */
  lemma SupportedIsAsked(c: Codec, types: set<RequestType>, msg: Message, forwarded: bool)
    requires NewRequest(c, msg).Some? && NewRequest(c, msg).value.header.key.kind in types
    ensures var r := NewRequest(c, msg).value;
            BrokerEvent(c, types, msg, forwarded) == Asked(r.header, r.envelope, forwarded)
            && Delimiter(msg) < |msg| && r.rest == msg[Delimiter(msg) + 1..]
  {
    var n := Delimiter(msg);
    assert ReadHeader(c, msg, n + 1) == Some(NewRequest(c, msg).value.header);
    hide Delimiter;
  }

  /** One it does not support ends it. */
  lemma UnsupportedEnds(c: Codec, types: set<RequestType>, msg: Message, forwarded: bool, s: WorkerState)
    requires NewRequest(c, msg).Some? && NewRequest(c, msg).value.header.key.kind !in types && s.running
    ensures WorkerStep(s, BrokerEvent(c, types, msg, forwarded)) == s.(running := false)
  {
    assert ReadHeader(c, msg, Delimiter(msg) + 1) == Some(NewRequest(c, msg).value.header);
    hide Delimiter;
  }

  /** A worker that has forgotten one request. */
  function Forgotten(s: WorkerState, k: Key): WorkerState {
    var s1 := Returned(s, k).End(k);
    s1.(requests := s1.requests - {k})
  }

  /** An answer makes the worker forget its request, and finish it if it was in progress. */
  lemma ConcludeForgets(s: WorkerState, k: Key, status: RequestStatus)
    requires s.running
    ensures Conclude(s, k, status) ==
              if k in s.requests && s.InProgress(k) then
                Forgotten(s, k).(finishes := s.finishes + [(k, s.requests[k].envelope)],
                                 running := status != FatalError)
              else Forgotten(s, k)
  {
    ReturnedTables(s, k);
    hide Returned;
    if k.kind in s.inProgress {
      if k !in s.requests {
        assert s.requests - {k} == s.requests;
      } else if k.id !in s.inProgress[k.kind] {
        assert s.inProgress[k.kind] - {k.id} == s.inProgress[k.kind];
        assert s.inProgress[k.kind := s.inProgress[k.kind]] == s.inProgress;
      }
    }
  }

  lemma AnswerForgets(s: WorkerState, k: Key, status: RequestStatus)
    requires s.running
    ensures WorkerStep(s, Answer(k, status)) ==
              if k in s.requests && s.InProgress(k) then
                Forgotten(s, k).(finishes := s.finishes + [(k, s.requests[k].envelope)],
                                 running := status != FatalError)
              else Forgotten(s, k)
  {
    ConcludeForgets(s, k, status);
    hide Conclude, Forgotten;
  }

  lemma NothingHappens(s: WorkerState)
    ensures WorkerStep(s, Nothing) == s
  {
  }

  class ClientRequestContext {
    var vfs: VersionFlags
    var envelope: Message

    ghost function View(): RequestContext
      reads this
    {
      RequestContext(vfs, envelope)
    }

    constructor (vfs0: VersionFlags, envelope0: Message)
      ensures View() == RequestContext(vfs0, envelope0)
    {
      vfs := vfs0;
      envelope := envelope0;
    }

    /** Takes the other's envelope over; the other is left without. */
    method UpdateEnvelope(other: ClientRequestContext)
      requires other != this
      modifies this, other
      ensures envelope == old(other.envelope) && other.envelope == [] && vfs == old(vfs) && other.vfs == old(other.vfs)
    {
      envelope := other.envelope;
      other.envelope := [];
    }
  }

  class Worker {
    var inProgress: map<RequestType, set<RequestId>>
    var requestContexts: map<Key, ClientRequestContext>
    var running: bool
    var toProcessor: seq<Message>
    var toBroker: seq<Message>
    ghost var accepted: multiset<Key>
    ghost var processing: multiset<Key>
    ghost var finishes: seq<(Key, Message)>
    ghost var receipts: seq<(Key, Message)>
    ghost var lost: multiset<Key>

    ghost predicate Valid()
      reads this
    {
      forall k, l :: k in requestContexts && l in requestContexts && k != l ==>
        requestContexts[k] != requestContexts[l]
    }

    ghost function Requests(): map<Key, RequestContext>
      reads this, requestContexts.Values
    {
      map k | k in requestContexts :: requestContexts[k].View()
    }

    ghost function State(): WorkerState
      reads this, requestContexts.Values
    {
      WorkerState(inProgress, Requests(), running, accepted, processing, finishes, receipts, lost)
    }

    twostate lemma SameRequests()
      requires unchanged(`requestContexts)
      requires forall k :: k in requestContexts ==> requestContexts[k].View() == old(requestContexts[k].View())
      ensures Requests() == old(Requests())
    {
    }

    constructor (types: set<RequestType>)
      ensures Valid() && State() == StartWith(types) && toProcessor == [] && toBroker == []
      ensures requestContexts == map[]
    {
      inProgress := map t | t in types :: {};
      requestContexts := map[];
      running := true;
      toProcessor := [];
      toBroker := [];
      accepted := multiset{};
      processing := multiset{};
      finishes := [];
      receipts := [];
      lost := multiset{};
      new;
      assert Requests() == map[];
    }

    /** Pops the frames before the delimiter, and the delimiter. */
    method PopEnvelope(msg: ZMQMessage) returns (envelope: Message, delimited: bool)
      modifies msg
      ensures envelope == old(msg.frames)[..Delimiter(old(msg.frames))]
      ensures delimited <==> Delimiter(old(msg.frames)) < |old(msg.frames)|
      ensures delimited ==> msg.frames == old(msg.frames)[Delimiter(old(msg.frames)) + 1..]
    {
      hide Delimiter;
      ghost var start := msg.frames;
      ghost var i := 0;
      envelope := [];
      var frame := msg.Pop();
      while frame.Some? && frame.value != []
        invariant 0 <= i <= Delimiter(start) && envelope == start[..i]
        invariant frame == if i < |start| then Some(start[i]) else None
        invariant msg.frames == if i < |start| then start[i + 1..] else []
        decreases |start| - i
      {
        envelope := envelope + [frame.value];
        OneFurther([], start, i);
        ghost var rest := start[i + 1..];
        assert rest != [] ==> rest[0] == start[i + 1] && rest[1..] == start[i + 2..];
        frame := msg.Pop();
        i := i + 1;
      }
      delimited := frame.Some?;
    }

    /** A receipt is attempted; whether it gets out changes nothing here. */
    method SendReceipt(c: Codec, h: Header, envelope: Message, kind: Frame, id: Frame)
      modifies this`toBroker, this`receipts
      ensures State() == WithReceipt(old(State()), h, envelope)
      ensures toBroker == old(toBroker) + if h.vfs.Has(ReceiptOnReceive)
                                          then [ReceivedReceipt(c, envelope, kind, id)] else []
    {
      if h.vfs.Has(ReceiptOnReceive) {
        toBroker := toBroker + [ReceivedReceipt(c, envelope, kind, id)];
        receipts := receipts + [(h.key, envelope)];
      }
    }

    /** A request that is here already is answered to the client that asked last. */
    method RequestRedirected(h: Header, envelope: Message) returns (found: bool)
      requires Valid()
      modifies requestContexts.Values
      ensures Valid() && found == (h.key in requestContexts)
      ensures State() ==
                if found then old(State()).(requests := old(State()).requests[h.key := RequestContext(h.vfs, envelope)])
                         else old(State())
    {
      found := h.key in requestContexts;
      if found {
        var other := new ClientRequestContext(h.vfs, envelope);
        requestContexts[h.key].UpdateEnvelope(other);
        requestContexts[h.key].vfs := h.vfs;
        assert Requests() == old(Requests())[h.key := RequestContext(h.vfs, envelope)];
      }
    }

    method Accept(h: Header, envelope: Message)
      requires Valid() && h.key.kind in inProgress && h.key !in requestContexts
      modifies this`inProgress, this`requestContexts, this`accepted, this`processing
      ensures Valid()
      ensures State() == old(State()).Begin(h.key).(
                requests := old(State()).requests[h.key := RequestContext(h.vfs, envelope)],
                accepted := old(accepted) + multiset{h.key},
                processing := old(processing) + multiset{h.key})
      ensures fresh(requestContexts.Values - old(requestContexts.Values))
    {
      var context := new ClientRequestContext(h.vfs, envelope);
      inProgress := inProgress[h.key.kind := inProgress[h.key.kind] + {h.key.id}];
      requestContexts := requestContexts[h.key := context];
      accepted := accepted + multiset{h.key};
      processing := processing + multiset{h.key};
      assert Requests() == old(Requests())[h.key := RequestContext(h.vfs, envelope)];
    }

    /** What follows once the envelope is off and the header is read. */
    method HandleAsked(c: Codec, h: Header, envelope: Message, rest: Message, forwarded: bool)
      requires Valid() && |rest| >= 3
      modifies this, requestContexts.Values
      ensures Valid() && fresh(requestContexts.Values - old(requestContexts.Values))
      ensures State() == Ask(old(State()), h, envelope, forwarded)
      ensures toProcessor == old(toProcessor)
                + if h.key.kind in old(inProgress) && h.key !in old(requestContexts) && forwarded then [rest] else []
      ensures toBroker == old(toBroker)
                + if TakesUp(old(State()), h, forwarded) && h.vfs.Has(ReceiptOnReceive)
                  then [ReceivedReceipt(c, envelope, rest[1], rest[2])] else []
    {
      hide WithReceipt, WorkerState.Begin, ReceivedReceipt;
      if h.key.kind !in inProgress {
        Stop();
      } else {
        var found := RequestRedirected(h, envelope);
        if found {
          SendReceipt(c, h, envelope, rest[1], rest[2]);
        } else if !forwarded {
          Stop();
        } else {
          HandleNew(c, h, envelope, rest);
        }
      }
    }

    /** A request that is new here is passed on, recorded, and receipted if that was asked for. */
    method HandleNew(c: Codec, h: Header, envelope: Message, rest: Message)
      requires Valid() && |rest| >= 3 && h.key.kind in inProgress && h.key !in requestContexts
      modifies this
      ensures Valid() && fresh(requestContexts.Values - old(requestContexts.Values))
      ensures State() == Ask(old(State()), h, envelope, true)
      ensures toProcessor == old(toProcessor) + [rest]
      ensures toBroker == old(toBroker)
                + if h.vfs.Has(ReceiptOnReceive) then [ReceivedReceipt(c, envelope, rest[1], rest[2])] else []
    {
      hide WithReceipt, WorkerState.Begin, ReceivedReceipt;
      Forward(rest);
      Accept(h, envelope);
      SendReceipt(c, h, envelope, rest[1], rest[2]);
    }

    method Forward(rest: Message)
      modifies this`toProcessor
      ensures toProcessor == old(toProcessor) + [rest] && State() == old(State())
    {
      toProcessor := toProcessor + [rest];
      SameRequests();
    }

    method Stop()
      modifies this`running
      ensures State() == old(State()).(running := false)
    {
      running := false;
      assert Requests() == old(Requests());
    }

    /** What is behind the envelope and the delimiter. */
    method HandleUnwrapped(c: Codec, envelope: Message, rest: Message, forwarded: bool)
      requires Valid() && running
      modifies this, requestContexts.Values
      ensures Valid() && fresh(requestContexts.Values - old(requestContexts.Values))
      ensures var e := RestEvent(c, old(inProgress.Keys), envelope, rest, forwarded);
              && State() == WorkerStep(old(State()), e)
              && toProcessor == old(toProcessor)
                   + (if e.Asked? && e.header.key !in old(requestContexts) && forwarded then [rest] else [])
              && toBroker == old(toBroker)
                   + if e.Asked? && (e.header.key in old(requestContexts) || forwarded)
                        && e.header.vfs.Has(ReceiptOnReceive)
                     then [ReceivedReceipt(c, envelope, rest[1], rest[2])] else []
    {
      hide Ask, ReceivedReceipt;
      if Filled(rest, 0) && Filled(rest, 1) {
        if c.readKind(rest[1]) !in inProgress {
          Stop();
        } else {
          var h := ReadHeader(c, rest, 0);
          if h.Some? {
            HandleAsked(c, h.value, envelope, rest, forwarded);
          }
        }
      }
    }

    /** A request from the broker: its envelope is popped, its header read, the rest passed on if it is new
        here; and a receipt goes back along the envelope if the request is taken up and asked for one. */
    method HandleBrokerNewRequest(c: Codec, msg: ZMQMessage, forwarded: bool)
      requires Valid() && running
      modifies this, requestContexts.Values, msg
      ensures Valid() && fresh(requestContexts.Values - old(requestContexts.Values))
      ensures State() == WorkerStep(old(State()), BrokerEvent(c, old(inProgress.Keys), old(msg.frames), forwarded))
      ensures var frames := old(msg.frames);
              var n := Delimiter(frames);
              var e := BrokerEvent(c, old(inProgress.Keys), frames, forwarded);
              && toProcessor == old(toProcessor)
                   + (if e.Asked? && e.header.key !in old(requestContexts) && forwarded then [frames[n + 1..]] else [])
              && toBroker == old(toBroker)
                   + if e.Asked? && (e.header.key in old(requestContexts) || forwarded)
                        && e.header.vfs.Has(ReceiptOnReceive)
                     then [ReceivedReceipt(c, frames[..n], frames[n + 2], frames[n + 3])] else []
    {
      hide BrokerEvent, RestEvent, WorkerStep, ReceivedReceipt;
      BrokerEventIs(c, inProgress.Keys, msg.frames, forwarded);
      NothingHappens(State());
      var envelope, delimited := PopEnvelope(msg);
      SameRequests();
      if envelope != [] && delimited {
        HandleUnwrapped(c, envelope, msg.frames, forwarded);
      }
    }

    method EndProgress(k: Key)
      modifies this`inProgress
      ensures State() == old(State()).End(k)
    {
      if k.kind in inProgress {
        inProgress := inProgress[k.kind := inProgress[k.kind] - {k.id}];
      }
      SameRequests();
    }

    ghost method Return(k: Key)
      modifies this`processing, this`lost
      ensures State() == Returned(old(State()), k)
    {
      hide OneLess;
      ghost var s := State();
      if k in processing {
        processing := OneLess(processing, k);
      } else {
        lost := OneLess(lost, k);
      }
      SameRequests();
      assert State() == s.(processing := processing, lost := lost);
    }

    method DropContext(k: Key)
      requires Valid()
      modifies this`requestContexts
      ensures Valid() && requestContexts == old(requestContexts) - {k}
      ensures State() == old(State()).(requests := old(State()).requests - {k})
    {
      requestContexts := requestContexts - {k};
      DroppedRequests(k);
    }

    twostate lemma DroppedRequests(k: Key)
      requires requestContexts == old(requestContexts) - {k}
      requires forall l :: l in requestContexts ==> requestContexts[l].View() == old(requestContexts[l].View())
      ensures Requests() == old(Requests()) - {k}
    {
    }

    /** Forgets a request, its processor's copy and its place among those in progress. */
    method Forget(k: Key)
      requires Valid()
      modifies this`inProgress, this`requestContexts, this`processing, this`lost
      ensures Valid() && requestContexts == old(requestContexts) - {k}
      ensures State() == Forgotten(old(State()), k)
    {
      hide Returned, WorkerState.End;
      Return(k);
      EndProgress(k);
      DropContext(k);
    }

    /** Puts the finish around an answer, taking the frames of the envelope from the back. */
    method Wrap(c: Codec, context: ClientRequestContext, msg: ZMQMessage)
      modifies context, msg
      ensures msg.frames == Finish(c, old(context.envelope), old(msg.frames))
    {
      ghost var envelope := context.envelope;
      msg.Prepend(c.message(BrokerResponse));
      msg.Prepend([]);
      ghost var base := msg.frames;
      while context.envelope != []
        invariant |context.envelope| <= |envelope| && context.envelope == envelope[..|context.envelope|]
        invariant msg.frames == envelope[|context.envelope|..] + base
      {
        var last := |context.envelope| - 1;
        msg.Prepend(context.envelope[last]);
        context.envelope := context.envelope[..last];
      }
      msg.Prepend(c.message(WorkerFinished));
      msg.Prepend([]);
    }

    /** The finish of a request that was in progress goes out, and the request is forgotten. */
    method SendFinish(c: Codec, k: Key, status: RequestStatus, msg: ZMQMessage)
      requires Valid() && k in requestContexts
      modifies this, requestContexts.Values, msg
      ensures Valid() && requestContexts == old(requestContexts) - {k}
      ensures var s := old(State());
              && State() == Forgotten(s, k).(finishes := s.finishes + [(k, s.requests[k].envelope)],
                                             running := status != FatalError)
              && toBroker == old(toBroker) + [Finish(c, s.requests[k].envelope, old(msg.frames))]
              && toProcessor == old(toProcessor)
    {
      hide Forgotten, Finish;
      var context := requestContexts[k];
      ghost var envelope := context.envelope;
      Forget(k);
      label Before:
      Wrap(c, context, msg);
      SameRequests@Before();
      RecordFinish(k, envelope, status, msg.frames);
    }

    method RecordFinish(k: Key, ghost envelope: Message, status: RequestStatus, frames: Message)
      modifies this`toBroker, this`finishes, this`running
      ensures State() == old(State()).(finishes := old(finishes) + [(k, envelope)], running := status != FatalError)
      ensures toBroker == old(toBroker) + [frames]
    {
      toBroker := toBroker + [frames];
      finishes := finishes + [(k, envelope)];
      running := status != FatalError;
      SameRequests();
    }

    /** An answer from the processor goes to the broker with the envelope of whoever asked last. */
    method HandleProcessorMessage(c: Codec, msg: ZMQMessage)
      requires Valid() && running
      modifies this, requestContexts.Values, msg
      ensures Valid() && requestContexts.Values <= old(requestContexts.Values)
      ensures State() == WorkerStep(old(State()), ProcessorEvent(c, old(msg.frames)))
      ensures toProcessor == old(toProcessor)
      ensures toBroker == old(toBroker)
                + if finishes == old(finishes) then []
                  else [Finish(c, finishes[|finishes| - 1].1, old(msg.frames))]
    {
      hide Forgotten, Conclude, Finish, ReadAnswer, WorkerStep;
      var read := ReadAnswer(c, msg.frames);
      NothingHappens(State());
      if read.Some? {
        Concluded(c, msg, read.value.0.key, read.value.1);
      }
    }

    /** What follows once the answer's header and status are read. */
    method Concluded(c: Codec, msg: ZMQMessage, k: Key, status: RequestStatus)
      requires Valid() && running
      modifies this, requestContexts.Values, msg
      ensures Valid() && requestContexts.Values <= old(requestContexts.Values)
      ensures State() == WorkerStep(old(State()), Answer(k, status))
      ensures toProcessor == old(toProcessor)
      ensures toBroker == old(toBroker)
                + if finishes == old(finishes) then []
                  else [Finish(c, finishes[|finishes| - 1].1, old(msg.frames))]
    {
      hide Forgotten, Conclude, Finish, WorkerStep;
      AnswerForgets(State(), k, status);
      if k in requestContexts && k.kind in inProgress && k.id in inProgress[k.kind] {
        SendFinish(c, k, status, msg);
      } else {
        Forget(k);
      }
    }

    /** The processor is stopped and started again; the tables are kept as they are. */
    method Restart(ghost gone: multiset<Key>)
      modifies this`processing, this`lost
      ensures State() == Restarted(old(State()), gone)
    {
      processing, lost := processing - gone, lost + processing * gone;
      assert Requests() == old(Requests());
    }

    /** What it advertises: its capacity less what it has in progress. */
    method FreeCapacity(capacity: int, order: seq<RequestType>) returns (free: int)
      requires forall t :: t in order <==> t in inProgress
      requires forall i, j :: 0 <= i < j < |order| ==> order[i] != order[j]
      ensures Coherent(State()) ==> free == capacity - |requestContexts|
    {
      free := capacity;
      var i := 0;
      while i < |order|
        invariant 0 <= i <= |order| && free == capacity - Load(State(), order[..i])
      {
        assert order[..i + 1][..i] == order[..i];
        assert order[i] in order;
        free := free - |inProgress[order[i]]|;
        i := i + 1;
      }
      assert order[..|order|] == order;
      if Coherent(State()) {
        LoadIsRequests(State(), order);
        assert Requests().Keys == requestContexts.Keys;
        assert |Requests()| == |Requests().Keys| && |requestContexts| == |requestContexts.Keys|;
      }
    }

    /** Appends frame after frame what the worker says of itself when it connects. */
    method SendReady(
      c: Codec, vfs: VersionFlags, capacity: int, order: seq<RequestType>, delay: int, types: seq<RequestType>)
      requires forall t :: t in order <==> t in inProgress
      requires forall i, j :: 0 <= i < j < |order| ==> order[i] != order[j]
      modifies this`toBroker
      ensures State() == old(State())
      ensures Coherent(State()) ==>
                toBroker == old(toBroker) + [Ready(c, Readiness(vfs, capacity - |requestContexts|, delay, types))]
    {
      hide Coherent, Ready;
      var free := FreeCapacity(capacity, order);
      var msg := ReadyMessage(c, Readiness(vfs, free, delay, types));
      Send(msg.frames);
    }

    method Send(frames: Message)
      modifies this`toBroker
      ensures State() == old(State()) && toBroker == old(toBroker) + [frames]
    {
      toBroker := toBroker + [frames];
      SameRequests();
    }

    method ReadyMessage(c: Codec, r: Readiness) returns (msg: ZMQMessage)
      ensures fresh(msg) && msg.frames == Ready(c, r)
    {
      msg := new ZMQMessage();
      msg.Append([]);
      msg.Append(c.message(WorkerReady));
      msg.Append(c.vfs(r.vfs));
      msg.Append(c.number(r.capacity));
      msg.Append(c.number(r.delay));
      ghost var head := msg.frames;
      for i := 0 to |r.types|
        invariant msg.frames == head + Kinds(c, r.types)[..i]
      {
        msg.Append(c.kind(r.types[i]));
      }
      assert Kinds(c, r.types)[..|r.types|] == Kinds(c, r.types);
    }
  }
}

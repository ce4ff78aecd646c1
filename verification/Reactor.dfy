/** The broker's message handlers: from the frames that come in to what they do to the schedule. */
module Reactor {
  import opened Wrappers
  import opened Cluster
  import opened Wire
  import opened Hops
  import opened Scheduler
  import P = Proxy
  import E = Endpoints
  import B = Broker

  /** What a message from a client's side asks of the scheduler, if it is well formed. */
  function FrontendEvent(c: Codec, msg: Message): Option<Event> {
    match Retyped(c, msg)
    case None => None
    case Some(read) => if read.0 == ClientNewRequest then RequestEvent(c, read.1) else None
  }

  function RequestEvent(c: Codec, msg: Message): Option<Event> {
    match BrokerRequest(c, msg)
    case None => None
    case Some(h) => Some(Ask(h.key, h.vfs, msg))
  }

  /** What a message from a worker tells the scheduler, if it is well formed. */
  function BackendEvent(c: Codec, minimumDelay: int, msg: Message): Option<Event> {
    match BackendMessage(c, msg)
    case None => None
    case Some(read) =>
      match read.1
      case WorkerReady => ReadyEvent(c, read.0, read.2)
      case WorkerHeartbeat => HeartbeatEvent(c, minimumDelay, read.0, read.2)
      case WorkerFinished => FinishedEvent(c, read.0, read.2)
      case WorkerReceipt => Some(Received(read.0))
      case _ => None
  }

  function ReadyEvent(c: Codec, w: Identity, body: Message): Option<Event> {
    match ReadReady(c, body)
    case None => None
    case Some(r) => Some(Event.Ready(w, r.capacity, r.types, r.delay))
  }

  function HeartbeatEvent(c: Codec, minimumDelay: int, w: Identity, body: Message): Option<Event> {
    match ReadHeartbeat(c, body)
    case None => None
    case Some(beat) => Some(Beat(w, beat.0, beat.1, minimumDelay))
  }

  function FinishedEvent(c: Codec, w: Identity, body: Message): Option<Event> {
    match Hops.Finished(c, body)
    case None => None
    case Some(h) => Some(Event.Finished(w, h.key))
  }

  /** What goes on to the client's side: a receipt, or the response of a request that wanted one. */
  function PassedOn(c: Codec, msg: Message): Option<Message> {
    match BackendMessage(c, msg)
    case None => None
    case Some(read) =>
      match read.1
      case WorkerFinished => ResponseOf(c, read.2)
      case WorkerReceipt => Some(read.2)
      case _ => None
  }

  function ResponseOf(c: Codec, body: Message): Option<Message> {
    match Relayed(c, body)
    case Answered(response) => Some(response)
    case _ => None
  }

  function StepIf(env: Env, s: State, e: Option<Event>): State {
    match e
    case None => s
    case Some(event) => Step(env, s, event)
  }

  // ----- reading frames one after the other -----

  /** Goes from frame to frame up to the delimiter. */
  method SkipEnvelope(msg: ZMQMessage) returns (n: nat)
    ensures n == Delimiter(msg.frames)
  {
    n := 0;
    while n < |msg.frames| && msg.frames[n] != []
      invariant 0 <= n <= Delimiter(msg.frames)
    {
      n := n + 1;
    }
  }

  /** Reads flags, type and id from three frames that must each carry something. */
  method NextHeader(c: Codec, msg: ZMQMessage, i: nat) returns (h: Option<Header>)
    ensures h == ReadHeader(c, msg.frames, i)
  {
    if !Filled(msg.frames, i) {
      return None;
    }
    var vfs := c.readVfs(msg.frames[i]);
    if !Filled(msg.frames, i + 1) {
      return None;
    }
    var kind := c.readKind(msg.frames[i + 1]);
    if !Filled(msg.frames, i + 2) {
      return None;
    }
    h := Some(Header(vfs, Key(kind, c.readId(msg.frames[i + 2]))));
  }

  /** Reads types to the end, unless a frame carries nothing. */
  method NextTypes(c: Codec, msg: ZMQMessage, from: nat) returns (types: Option<seq<RequestType>>)
    requires from <= |msg.frames|
    ensures types == if [] in msg.frames[from..] then None else Some(ReadKinds(c, msg.frames[from..]))
  {
    var read: seq<RequestType> := [];
    var i := from;
    while i < |msg.frames| && msg.frames[i] != []
      invariant from <= i <= |msg.frames|
      invariant forall j :: from <= j < i ==> msg.frames[j] != []
      invariant |read| == i - from
      invariant forall j :: 0 <= j < |read| ==> read[j] == c.readKind(msg.frames[from + j])
    {
      read := read + [c.readKind(msg.frames[i])];
      i := i + 1;
    }
    if i < |msg.frames| {
      assert msg.frames[from..][i - from] == [];
      return None;
    }
    assert read == ReadKinds(c, msg.frames[from..]);
    types := Some(read);
  }

  // ----- from a client's side -----

  method HandleClientRequest(broker: B.Broker, env: Env, c: Codec, msg: ZMQMessage)
    requires broker.Valid()
    modifies broker, broker.contexts.Values, broker.workers.Values
    ensures broker.Valid() && broker.State() == StepIf(env, old(broker.State()), RequestEvent(c, msg.frames))
  {
    hide Step, ReadHeader, B.Broker.State, B.Broker.Valid;
    var n := SkipEnvelope(msg);
    if n < |msg.frames| {
      var h := NextHeader(c, msg, n + 1);
      if h.Some? {
        broker.Handle(env, Ask(h.value.key, h.value.vfs, msg.frames));
      }
    }
  }

  lemma FrontendIs(c: Codec, msg: Message)
    ensures var n := Delimiter(msg);
            FrontendEvent(c, msg) ==
              if n < |msg| && Filled(msg, n + 1) && c.readMessage(msg[n + 1]) == ClientNewRequest then
                RequestEvent(c, msg[..n + 1] + msg[n + 2..])
              else None
  {
    hide RequestEvent, Delimiter;
  }

  /** Scans to the delimiter, takes the message type out, and handles a new request. */
  method HandleFrontendMessage(broker: B.Broker, env: Env, c: Codec, msg: ZMQMessage)
    requires broker.Valid()
    modifies broker, broker.contexts.Values, broker.workers.Values, msg
    ensures broker.Valid() && broker.State() == StepIf(env, old(broker.State()), FrontendEvent(c, old(msg.frames)))
  {
    hide Step, RequestEvent, FrontendEvent, Delimiter, B.Broker.State, B.Broker.Valid;
    FrontendIs(c, msg.frames);
    var n := SkipEnvelope(msg);
    if n < |msg.frames| && Filled(msg.frames, n + 1) {
      var x := c.readMessage(msg.frames[n + 1]);
      msg.Remove(n + 1);
      if x == ClientNewRequest {
        HandleClientRequest(broker, env, c, msg);
      }
    }
  }

  // ----- from a worker -----

  /** Parses what a worker says of itself, frame by frame. */
  method HandleReady(broker: B.Broker, env: Env, c: Codec, w: Identity, msg: ZMQMessage)
    requires broker.Valid()
    modifies broker, broker.contexts.Values, broker.workers.Values
    ensures broker.Valid() && broker.State() == StepIf(env, old(broker.State()), ReadyEvent(c, w, msg.frames))
  {
    hide Step, B.Broker.State, B.Broker.Valid;
    ghost var frames := msg.frames;
    if |msg.frames| < 4 || !Filled(msg.frames, 0) || !Filled(msg.frames, 1) || !Filled(msg.frames, 2) {
      return;
    }
    var capacity := c.readNumber(msg.frames[1]);
    var delay := c.readNumber(msg.frames[2]);
    var types := NextTypes(c, msg, 3);
    assert frames == frames[..3] + frames[3..];
    assert [] in frames <==> [] in frames[3..];
    if types.Some? {
      broker.Handle(env, Event.Ready(w, capacity, types.value, delay));
    }
  }

  method HandleHeartbeat(broker: B.Broker, env: Env, c: Codec, minimumDelay: int, w: Identity, msg: ZMQMessage)
    requires broker.Valid()
    modifies broker, broker.contexts.Values, broker.workers.Values
    ensures broker.Valid()
    ensures broker.State() == StepIf(env, old(broker.State()), HeartbeatEvent(c, minimumDelay, w, msg.frames))
  {
    hide Step, B.Broker.State, B.Broker.Valid;
    if Filled(msg.frames, 0) {
      var sentAt := c.readNumber(msg.frames[0]);
      if Filled(msg.frames, 1) {
        broker.Handle(env, Beat(w, sentAt, c.readNumber(msg.frames[1]), minimumDelay));
      }
    }
  }

  /** Skips the envelope and the broker's message type, reads whose finish it is, relays it unless the
      request was one-way, and has the worker's tables brought up to date. */
  method HandleFinished(broker: B.Broker, env: Env, c: Codec, w: Identity, msg: ZMQMessage)
    returns (relayed: Option<Message>)
    requires broker.Valid()
    modifies broker, broker.contexts.Values, broker.workers.Values
    ensures broker.Valid() && broker.State() == StepIf(env, old(broker.State()), FinishedEvent(c, w, msg.frames))
    ensures relayed == ResponseOf(c, msg.frames)
  {
    hide Step, ReadHeader, B.Broker.State, B.Broker.Valid;
    relayed := None;
    if !Filled(msg.frames, 0) {
      return;
    }
    var n := SkipEnvelope(msg);
    if n >= |msg.frames| || !Filled(msg.frames, n + 1) {
      return;
    }
    var h := NextHeader(c, msg, n + 2);
    if h.Some? {
      if !h.value.vfs.Has(Asynchronous) {
        relayed := Some(msg.frames);
      }
      broker.Handle(env, Event.Finished(w, h.value.key));
    }
  }

  /** Pops the worker's identity, the delimiter and the type, and handles what the worker says; what is
      relayed to the client's side is returned. */
  method HandleBackendMessage(broker: B.Broker, env: Env, c: Codec, minimumDelay: int, msg: ZMQMessage)
    returns (relayed: Option<Message>)
    requires broker.Valid()
    modifies broker, broker.contexts.Values, broker.workers.Values, msg
    ensures broker.Valid()
    ensures broker.State() == StepIf(env, old(broker.State()), BackendEvent(c, minimumDelay, old(msg.frames)))
    ensures relayed == PassedOn(c, old(msg.frames))
  {
    relayed := None;
    ghost var start := msg.frames;
    var w, x := PopType(c, msg);
    hide B.Broker.State, B.Broker.Valid, BackendMessage, Step, StepIf, ReadyEvent, HeartbeatEvent, FinishedEvent, ResponseOf;
    if w.None? {
      assert StepIf(env, broker.State(), None) == broker.State() by { NoStep(env, broker.State()); }
      return;
    }
    match x
    case WorkerReceipt =>
      relayed := Some(msg.frames);
      broker.Handle(env, Received(w.value));
      OneStep(env, old(broker.State()), Received(w.value));
    case WorkerHeartbeat =>
      HandleHeartbeat(broker, env, c, minimumDelay, w.value, msg);
    case WorkerReady =>
      HandleReady(broker, env, c, w.value, msg);
    case WorkerFinished =>
      relayed := HandleFinished(broker, env, c, w.value, msg);
    case _ =>
      NoStep(env, broker.State());
  }

  lemma NoStep(env: Env, s: State)
    ensures StepIf(env, s, None) == s
  {
  }

  lemma OneStep(env: Env, s: State, e: Event)
    ensures StepIf(env, s, Some(e)) == Step(env, s, e)
  {
  }

  /** Pops what stands before the body of a worker's message. */
  method PopType(c: Codec, msg: ZMQMessage) returns (w: Option<Identity>, x: ClusterMessage)
    modifies msg
    ensures w.Some? <==> BackendMessage(c, old(msg.frames)).Some?
    ensures w.Some? ==> BackendMessage(c, old(msg.frames)) == Some((w.value, x, msg.frames))
  {
    x := NoMessage;
    w := E.PopFilled(msg);
    if w.None? {
      return;
    }
    var delimiter := msg.Pop();
    if delimiter != Some([]) {
      return None, x;
    }
    var frame := E.PopFilled(msg);
    if frame.None? {
      return None, x;
    }
    x := c.readMessage(frame.value);
  }

  // ----- what is sent is what is handled -----

  /** What a client asks through its proxy is asked of the scheduler, with an envelope that leads back to
      that client: it is what the broker keeps for receipts, notices and retries. */
  lemma RequestIsAsked(c: Codec, proxy: Identity, client: Identity, h: Header, data: Message)
    requires Faithful(c) && proxy != [] && client != []
    ensures var msg := [proxy, client] + [[]] + (WriteHeader(c, h) + data);
            && FrontendEvent(c, [proxy] + ([client] + SendRequest(c, h, data))) == Some(Ask(h.key, h.vfs, msg))
            && Envelope(msg) == [proxy, client]
  {
    RequestArrives(c, proxy, client, h, data);
    EnvelopeOf([proxy, client], WriteHeader(c, h) + data);
  }

  /** What a worker answers is a finish of that worker for that request, relayed along the envelope it was
      asked with unless the request was one-way. */
  lemma AnswerIsFinish(c: Codec, minimumDelay: int, w: Identity, envelope: Message, h: Header, answer: Message)
    requires Faithful(c) && Routed(envelope) && envelope != [] && w != []
    ensures var body := WriteHeader(c, h) + answer;
            var msg := [w] + Hops.Finish(c, envelope, body);
            && BackendEvent(c, minimumDelay, msg) == Some(Event.Finished(w, h.key))
            && PassedOn(c, msg) == (if h.vfs.Has(Asynchronous) then None
                                    else Some(envelope + [[]] + ([c.message(BrokerResponse)] + body)))
  {
    FinishReads(c, w, envelope, h, answer);
    hide BackendMessage, Hops.Finished, Hops.Finish;
  }

  /** What a worker says of itself is what the scheduler learns: its capacity, its delay and its types in
      their order; and a heartbeat is one. */
  lemma WorkerIsHeard(c: Codec, minimumDelay: int, w: Identity, r: Readiness, sentAt: int)
    requires Faithful(c) && w != [] && r.types != []
    ensures BackendEvent(c, minimumDelay, [w] + Hops.Ready(c, r)) == Some(Event.Ready(w, r.capacity, r.types, r.delay))
    ensures BackendEvent(c, minimumDelay, [w] + Heartbeat(c, sentAt, r.delay)) == Some(Beat(w, sentAt, r.delay, minimumDelay))
    ensures PassedOn(c, [w] + Hops.Ready(c, r)) == None && PassedOn(c, [w] + Heartbeat(c, sentAt, r.delay)) == None
  {
    ReadyReads(c, w, r);
    HeartbeatReads(c, w, sentAt, r.delay);
    hide BackendMessage, Hops.Ready, Heartbeat, ReadReady, ReadHeartbeat;
  }

  /** A worker's receipt for a request it received counts as hearing of it, and goes on along the envelope
      the request came with; at the proxy it is one for that client's request. */
  lemma ReceiptIsRelayed(c: Codec, minimumDelay: int, w: Identity, envelope: Message, k: Key)
    requires Faithful(c) && w != []
    ensures var msg := [w] + ReceivedReceipt(c, envelope, c.kind(k.kind), c.id(k.id));
            var relayed := envelope + [[]] + [c.message(BrokerReceivedReceipt), c.kind(k.kind), c.id(k.id)];
            && BackendEvent(c, minimumDelay, msg) == Some(Received(w)) && PassedOn(c, msg) == Some(relayed)
            && (forall proxy, client :: envelope == [proxy, client] && client != [] ==>
                  && relayed[0] == proxy
                  && P.FromBroker(c, client, relayed[1..]) == P.Receipted(P.BufferKey(k, client), BrokerReceivedReceipt))
  {
    var msg := [w] + ReceivedReceipt(c, envelope, c.kind(k.kind), c.id(k.id));
    var relayed := envelope + [[]] + [c.message(BrokerReceivedReceipt), c.kind(k.kind), c.id(k.id)];
    ReceiptRead(c, w, envelope, k);
    hide BackendMessage, ReceivedReceipt, Faithful;
    forall proxy, client | envelope == [proxy, client] && client != []
      ensures relayed[0] == proxy
      ensures P.FromBroker(c, client, relayed[1..]) == P.Receipted(P.BufferKey(k, client), BrokerReceivedReceipt)
    {
      ReceiptForClient(c, proxy, client, k);
    }
  }

  lemma ReceiptRead(c: Codec, w: Identity, envelope: Message, k: Key)
    requires Faithful(c) && w != []
    ensures BackendMessage(c, [w] + ReceivedReceipt(c, envelope, c.kind(k.kind), c.id(k.id))) ==
              Some((w, WorkerReceipt, envelope + [[]] + [c.message(BrokerReceivedReceipt), c.kind(k.kind), c.id(k.id)]))
  {
    var msg := [w] + ReceivedReceipt(c, envelope, c.kind(k.kind), c.id(k.id));
    var relayed := envelope + [[]] + [c.message(BrokerReceivedReceipt), c.kind(k.kind), c.id(k.id)];
    assert msg == [w, [], c.message(WorkerReceipt)] + relayed;
    assert msg[3..] == relayed;
  }

  lemma ReceiptForClient(c: Codec, proxy: Identity, client: Identity, k: Key)
    requires Faithful(c) && client != []
    ensures var relayed := [proxy, client] + [[]] + [c.message(BrokerReceivedReceipt), c.kind(k.kind), c.id(k.id)];
            relayed[0] == proxy
            && P.FromBroker(c, client, relayed[1..]) == P.Receipted(P.BufferKey(k, client), BrokerReceivedReceipt)
  {
    var relayed := [proxy, client] + [[]] + [c.message(BrokerReceivedReceipt), c.kind(k.kind), c.id(k.id)];
    var atProxy := [client, [], c.message(BrokerReceivedReceipt), c.kind(k.kind), c.id(k.id)];
    assert relayed[1..] == atProxy;
    P.FromBrokerExactly(c, client, atProxy);
  }

  // ----- what is taken for what -----

  /** Behind the first empty frame: the type of a new request, and flags, type and id, all with something in
      them. The message goes on without the first of these. */
  lemma FrontendExactly(c: Codec, msg: Message)
    ensures var n := Delimiter(msg);
            FrontendEvent(c, msg) ==
              if Filled(msg, n + 1) && Filled(msg, n + 2) && Filled(msg, n + 3) && Filled(msg, n + 4)
                 && c.readMessage(msg[n + 1]) == ClientNewRequest
              then Some(Ask(Key(c.readKind(msg[n + 3]), c.readId(msg[n + 4])), c.readVfs(msg[n + 2]),
                            msg[..n + 1] + msg[n + 2..]))
              else None
  {
    hide Delimiter, FrontendEvent, ReadHeader;
    FrontendIs(c, msg);
    var n := Delimiter(msg);
    if Filled(msg, n + 1) {
      TypeTaken(msg);
      RequestTaken(c, msg, n);
    }
  }

  lemma RequestTaken(c: Codec, msg: Message, n: nat)
    requires n + 1 < |msg|
    ensures var taken := msg[..n + 1] + msg[n + 2..];
            ReadHeader(c, taken, n + 1) ==
              if Filled(msg, n + 2) && Filled(msg, n + 3) && Filled(msg, n + 4) then
                Some(Header(c.readVfs(msg[n + 2]), Key(c.readKind(msg[n + 3]), c.readId(msg[n + 4]))))
              else None
  {
    var taken := msg[..n + 1] + msg[n + 2..];
    assert forall i :: n < i < |taken| ==> taken[i] == msg[i + 1];
  }

  lemma TypeTaken(msg: Message)
    requires Delimiter(msg) + 1 < |msg|
    ensures var n := Delimiter(msg);
            var taken := msg[..n + 1] + msg[n + 2..];
            Delimiter(taken) == n && n < |taken|
  {
    var n := Delimiter(msg);
    EnvelopeOf(msg[..n], msg[n + 2..]);
    assert msg[..n] + [[]] == msg[..n + 1];
  }

  /** Behind a worker's identity, the delimiter and the message type. */
  predicate FromWorker(c: Codec, x: ClusterMessage, msg: Message) {
    |msg| >= 3 && msg[0] != [] && msg[1] == [] && msg[2] != [] && c.readMessage(msg[2]) == x
  }

  /** Flags, capacity, delay and at least one type, all with something in them. */
  predicate IsReady(c: Codec, msg: Message) {
    FromWorker(c, WorkerReady, msg) && |msg| >= 7 && [] !in msg[3..]
  }

  predicate IsHeartbeat(c: Codec, msg: Message) {
    FromWorker(c, WorkerHeartbeat, msg) && |msg| >= 5 && msg[3] != [] && msg[4] != []
  }

  /** An envelope with something in it, the delimiter, a type, and flags, type and id. */
  predicate IsFinish(c: Codec, msg: Message) {
    && FromWorker(c, WorkerFinished, msg)
    && var n := 3 + Delimiter(msg[3..]);
       n > 3 && n + 4 < |msg| && forall i :: n < i <= n + 4 ==> msg[i] != []
  }

  /** Whatever a worker sends is one of four things, or nothing, by its frames. */
  lemma BackendExactly(c: Codec, minimumDelay: int, msg: Message)
    ensures IsReady(c, msg) ==>
              BackendEvent(c, minimumDelay, msg) ==
                Some(Event.Ready(msg[0], c.readNumber(msg[4]), ReadKinds(c, msg[6..]), c.readNumber(msg[5])))
    ensures IsHeartbeat(c, msg) ==>
              BackendEvent(c, minimumDelay, msg) ==
                Some(Beat(msg[0], c.readNumber(msg[3]), c.readNumber(msg[4]), minimumDelay))
    ensures FromWorker(c, WorkerReceipt, msg) ==>
              BackendEvent(c, minimumDelay, msg) == Some(Received(msg[0])) && PassedOn(c, msg) == Some(msg[3..])
    ensures IsFinish(c, msg) ==>
              var n := 3 + Delimiter(msg[3..]);
              && BackendEvent(c, minimumDelay, msg) ==
                   Some(Event.Finished(msg[0], Key(c.readKind(msg[n + 3]), c.readId(msg[n + 4]))))
              && PassedOn(c, msg) == if c.readVfs(msg[n + 2]).Has(Asynchronous) then None else Some(msg[3..])
    ensures !IsReady(c, msg) && !IsHeartbeat(c, msg) && !FromWorker(c, WorkerReceipt, msg) && !IsFinish(c, msg) ==>
              BackendEvent(c, minimumDelay, msg) == None && PassedOn(c, msg) == None
    ensures IsReady(c, msg) || IsHeartbeat(c, msg) ==> PassedOn(c, msg) == None
  {
    if BackendMessage(c, msg).Some? {
      var body := msg[3..];
      assert forall i :: 0 <= i < |body| ==> body[i] == msg[i + 3];
      match c.readMessage(msg[2])
      case WorkerReady =>
        if |body| >= 4 {
          assert body[3..] == msg[6..];
          assert body[0] in body && body[1] in body && body[2] in body;
        }
      case WorkerFinished => FinishExactly(c, msg, body);
      case _ =>
    }
  }

  lemma FinishExactly(c: Codec, msg: Message, body: Message)
    requires FromWorker(c, WorkerFinished, msg) && body == msg[3..]
    ensures Hops.Finished(c, body) ==
              if IsFinish(c, msg) then
                var n := 3 + Delimiter(msg[3..]);
                Some(Header(c.readVfs(msg[n + 2]), Key(c.readKind(msg[n + 3]), c.readId(msg[n + 4]))))
              else None
  {
    assert forall i :: 0 <= i < |body| ==> body[i] == msg[i + 3];
  }
}

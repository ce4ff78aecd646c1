/** What each hop reads from and does to the frames of a message, and that a whole trip is faithful. */
module Hops {
  import opened Wrappers
  import opened Cluster
  import opened Wire

  datatype Header = Header(vfs: VersionFlags, key: Key)

  /** Version and flags, type and id, each in a frame of its own. */
  function ReadHeader(c: Codec, msg: Message, i: nat): Option<Header> {
    if Filled(msg, i) && Filled(msg, i + 1) && Filled(msg, i + 2) then
      Some(Header(c.readVfs(msg[i]), Key(c.readKind(msg[i + 1]), c.readId(msg[i + 2]))))
    else None
  }

  function WriteHeader(c: Codec, h: Header): Message {
    [c.vfs(h.vfs), c.kind(h.key.kind), c.id(h.key.id)]
  }

  lemma HeaderRead(c: Codec, before: Message, h: Header, after: Message)
    requires Faithful(c)
    ensures ReadHeader(c, before + WriteHeader(c, h) + after, |before|) == Some(h)
  {
    var msg := before + WriteHeader(c, h) + after;
    assert msg[|before|] == c.vfs(h.vfs);
    assert msg[|before| + 1] == c.kind(h.key.kind);
    assert msg[|before| + 2] == c.id(h.key.id);
  }

  // ----- the hops -----

  /** The client puts its header in front of the data. */
  function SendRequest(c: Codec, h: Header, data: Message): Message {
    [[], c.message(ClientNewRequest)] + WriteHeader(c, h) + data
  }

  /** The proxy reads a request that came with its client's identity in front. */
  function ProxyRequest(c: Codec, msg: Message): Option<(Identity, Header)> {
    if !Filled(msg, 0) || |msg| < 2 || msg[1] != [] then None
    else match ReadHeader(c, msg, 3)
         case None => None
         case Some(h) => Some((msg[0], h))
  }

  /** The message type after the delimiter is read and taken out: at the broker's frontend, and at
      the proxy for what comes from the broker. */
  function Retyped(c: Codec, msg: Message): Option<(ClusterMessage, Message)> {
    var n := Delimiter(msg);
    if n >= |msg| || !Filled(msg, n + 1) then None
    else Some((c.readMessage(msg[n + 1]), msg[..n + 1] + msg[n + 2..]))
  }

  function BrokerRequest(c: Codec, msg: Message): Option<Header> {
    var n := Delimiter(msg);
    if n >= |msg| then None else ReadHeader(c, msg, n + 1)
  }

  function ToWorker(c: Codec, w: Identity, msg: Message): Message {
    [w, [], c.message(BrokerNewRequest)] + msg
  }

  function WorkerMessage(c: Codec, msg: Message): Option<(ClusterMessage, Message)> {
    if |msg| == 0 || msg[0] != [] || !Filled(msg, 1) then None
    else Some((c.readMessage(msg[1]), msg[2..]))
  }

  /** What the worker keeps of a request, its header and envelope, and what it passes on. */
  datatype WorkerRequest = WorkerRequest(header: Header, envelope: Message, rest: Message)

  function NewRequest(c: Codec, msg: Message): Option<WorkerRequest> {
    var n := Delimiter(msg);
    if n == 0 || n >= |msg| then None
    else match ReadHeader(c, msg, n + 1)
         case None => None
         case Some(h) => Some(WorkerRequest(h, msg[..n], msg[n + 1..]))
  }

  type Handler = (VersionFlags, RequestType, RequestId, Message) -> (RequestStatus, Message)

  /** The processor unwraps the request, has it handled, and puts its header before the answer. */
  function Process(c: Codec, handler: Handler, msg: Message): Option<Message> {
    match ReadHeader(c, msg, 0)
    case None => None
    case Some(h) =>
      var result := handler(h.vfs, h.key.kind, h.key.id, msg[3..]);
      Some(msg[..3] + [c.status(result.0)] + result.1)
  }

  function ReadAnswer(c: Codec, msg: Message): Option<(Header, RequestStatus)> {
    match ReadHeader(c, msg, 0)
    case None => None
    case Some(h) => if Filled(msg, 3) then Some((h, c.readStatus(msg[3]))) else None
  }

  function Finish(c: Codec, envelope: Message, answer: Message): Message {
    [[], c.message(WorkerFinished)] + envelope + [[]] + [c.message(BrokerResponse)] + answer
  }

  function BackendMessage(c: Codec, msg: Message): Option<(Identity, ClusterMessage, Message)> {
    if !Filled(msg, 0) || |msg| < 2 || msg[1] != [] || !Filled(msg, 2) then None
    else Some((msg[0], c.readMessage(msg[2]), msg[3..]))
  }

  function Finished(c: Codec, msg: Message): Option<Header> {
    var n := Delimiter(msg);
    if n == 0 || n >= |msg| || !Filled(msg, n + 1) then None else ReadHeader(c, msg, n + 2)
  }

  function ProxyResponse(c: Codec, msg: Message): Option<(Identity, Header)> {
    if !Filled(msg, 0) || |msg| < 2 || msg[1] != [] then None
    else match ReadHeader(c, msg, 2)
         case None => None
         case Some(h) => Some((msg[0], h))
  }

  function ProxyReceipt(c: Codec, msg: Message): Option<(Identity, Key)> {
    if !Filled(msg, 0) || |msg| < 2 || msg[1] != [] || !Filled(msg, 2) || !Filled(msg, 3) then None
    else Some((msg[0], Key(c.readKind(msg[2]), c.readId(msg[3]))))
  }

  /** What a worker says of itself when it becomes ready. */
  datatype Readiness = Readiness(vfs: VersionFlags, capacity: int, delay: int, types: seq<RequestType>)

  function Kinds(c: Codec, types: seq<RequestType>): Message {
    seq(|types|, i requires 0 <= i < |types| => c.kind(types[i]))
  }

  function ReadKinds(c: Codec, msg: Message): seq<RequestType> {
    seq<RequestType>(|msg|, i requires 0 <= i < |msg| => c.readKind(msg[i]))
  }

  function Ready(c: Codec, r: Readiness): Message {
    [[], c.message(WorkerReady)] + [c.vfs(r.vfs), c.number(r.capacity), c.number(r.delay)] + Kinds(c, r.types)
  }

  /** At the broker, behind the type: every frame must carry something, and there must be a type. */
  function ReadReady(c: Codec, msg: Message): Option<Readiness> {
    if |msg| < 4 || [] in msg then None
    else Some(Readiness(c.readVfs(msg[0]), c.readNumber(msg[1]), c.readNumber(msg[2]), ReadKinds(c, msg[3..])))
  }

  function Heartbeat(c: Codec, sentAt: int, delay: int): Message {
    [[], c.message(WorkerHeartbeat), c.number(sentAt), c.number(delay)]
  }

  function ReadHeartbeat(c: Codec, msg: Message): Option<(int, int)> {
    if Filled(msg, 0) && Filled(msg, 1) then Some((c.readNumber(msg[0]), c.readNumber(msg[1]))) else None
  }

  datatype Response = Response(header: Header, status: RequestStatus, data: Message)

  function ReadResponse(c: Codec, msg: Message): Option<Response> {
    if |msg| == 0 || msg[0] != [] then None
    else match ReadHeader(c, msg, 1)
         case None => None
         case Some(h) => if Filled(msg, 4) then Some(Response(h, c.readStatus(msg[4]), msg[5..])) else None
  }

  /** The broker's receipt that a request was sent, and the worker's that it was received. */
  function SentReceipt(c: Codec, envelope: Message, k: Key): Message {
    envelope + [[]] + [c.message(BrokerSentReceipt), c.kind(k.kind), c.id(k.id)]
  }

  function ReceivedReceipt(c: Codec, envelope: Message, kind: Frame, id: Frame): Message {
    [[], c.message(WorkerReceipt)] + envelope + [[]] + [c.message(BrokerReceivedReceipt), kind, id]
  }

  // ----- a whole trip -----

  /** What becomes of a message: some hop finds it malformed; or nothing comes back, as none is wanted;
      or this comes back. */
  datatype Outcome<+T> = Malformed | Unanswered | Answered(value: T)

  /** From the broker's frontend to a worker, through its processor, and back to the frontend. */
  function ThroughWorker(c: Codec, w: Identity, handler: Handler, msg: Message): Outcome<Message> {
    match WorkerMessage(c, ToWorker(c, w, msg)[1..])
    case None => Malformed
    case Some(received) =>
      if received.0 != BrokerNewRequest then Malformed
      else match NewRequest(c, received.1)
           case None => Malformed
           case Some(request) => match Process(c, handler, request.rest)
             case None => Malformed
             case Some(answer) => FromWorker(c, w, request, answer)
  }

  /** The worker's finish for an answer, and what the broker relays of it: nothing if it is one-way. */
  function FromWorker(c: Codec, w: Identity, request: WorkerRequest, answer: Message): Outcome<Message> {
    match ReadAnswer(c, answer)
    case None => Malformed
    case Some(read) =>
      if read.0.key != request.header.key then Malformed
      else match BackendMessage(c, [w] + Finish(c, request.envelope, answer))
           case None => Malformed
           case Some(back) => if back.1 == WorkerFinished then Relayed(c, back.2) else Malformed
  }

  function Relayed(c: Codec, msg: Message): Outcome<Message> {
    match Finished(c, msg)
    case None => Malformed
    case Some(h) => if h.vfs.Has(Asynchronous) then Unanswered else Answered(msg)
  }

  /** The way in: client, proxy and broker. */
  function AtBroker(c: Codec, proxy: Identity, client: Identity, h: Header, data: Message): Option<Message> {
    var atProxy := [client] + SendRequest(c, h, data);
    match ProxyRequest(c, atProxy)
    case None => None
    case Some(_) => match Retyped(c, [proxy] + atProxy)
      case None => None
      case Some(read) =>
        if read.0 != ClientNewRequest || BrokerRequest(c, read.1).None? then None else Some(read.1)
  }

  /** What a handler is given of it, at the end of the way in: the header and the data. */
  function AtHandler(
    c: Codec, proxy: Identity, client: Identity, w: Identity, h: Header, data: Message): Option<(Header, Message)>
  {
    match AtBroker(c, proxy, client, h, data)
    case None => None
    case Some(atBroker) => match WorkerMessage(c, ToWorker(c, w, atBroker)[1..])
      case None => None
      case Some(received) =>
        if received.0 != BrokerNewRequest then None
        else match NewRequest(c, received.1)
             case None => None
             case Some(request) => match ReadHeader(c, request.rest, 0)
               case None => None
               case Some(given) => Some((given, request.rest[3..]))
  }

  /** The whole way: client, proxy, broker, worker, processor and back. The identities are those the
      routing sockets put in front of a message on its way in and take off on its way back; the result
      names the proxy and the client the response is routed to, and what that client reads. */
  function Trip(
    c: Codec, proxy: Identity, client: Identity, w: Identity, handler: Handler, h: Header, data: Message)
    : Outcome<(Identity, Identity, Response)>
  {
    match AtBroker(c, proxy, client, h, data)
    case None => Malformed
    case Some(atBroker) =>
      match ThroughWorker(c, w, handler, atBroker)
      case Malformed => Malformed
      case Unanswered => Unanswered
      case Answered(back) =>
        if back == [] then Malformed
        else match Home(c, back[0], back[1..])
             case None => Malformed
             case Some(response) => Answered(response)
  }

  function Home(c: Codec, proxy: Identity, msg: Message): Option<(Identity, Identity, Response)> {
    match Retyped(c, msg)
    case None => None
    case Some(atProxy) =>
      if atProxy.0 != BrokerResponse then None
      else match ProxyResponse(c, atProxy.1)
           case None => None
           case Some(read) => match ReadResponse(c, atProxy.1[1..])
             case None => None
             case Some(response) => Some((proxy, read.0, response))
  }

  // ----- it is faithful -----

  /** At the worker: the processor gets the header and the data, the worker keeps the envelope. */
  lemma NewRequestReads(c: Codec, envelope: Message, h: Header, data: Message)
    requires Faithful(c) && Routed(envelope) && envelope != []
    ensures NewRequest(c, envelope + [[]] + (WriteHeader(c, h) + data)) ==
              Some(WorkerRequest(h, envelope, WriteHeader(c, h) + data))
  {
    var rest := WriteHeader(c, h) + data;
    EnvelopeOf(envelope, rest);
    HeaderRead(c, envelope + [[]], h, data);
    assert envelope + [[]] + rest == envelope + [[]] + WriteHeader(c, h) + data;
    assert (envelope + [[]] + rest)[..|envelope|] == envelope;
  }

  lemma ProcessAnswers(c: Codec, handler: Handler, h: Header, data: Message)
    requires Faithful(c)
    ensures var result := handler(h.vfs, h.key.kind, h.key.id, data);
            var answer := WriteHeader(c, h) + [c.status(result.0)] + result.1;
            Process(c, handler, WriteHeader(c, h) + data) == Some(answer)
            && ReadAnswer(c, answer) == Some((h, result.0))
  {
    HeaderRead(c, [], h, data);
    assert [] + WriteHeader(c, h) + data == WriteHeader(c, h) + data;
    assert (WriteHeader(c, h) + data)[3..] == data;
    var result := handler(h.vfs, h.key.kind, h.key.id, data);
    HeaderRead(c, [], h, [c.status(result.0)] + result.1);
    assert [] + WriteHeader(c, h) + ([c.status(result.0)] + result.1) ==
      WriteHeader(c, h) + [c.status(result.0)] + result.1;
  }

  lemma FinishReads(c: Codec, w: Identity, envelope: Message, h: Header, answer: Message)
    requires Faithful(c) && Routed(envelope) && envelope != [] && w != []
    ensures var body := WriteHeader(c, h) + answer;
            var back := envelope + [[]] + ([c.message(BrokerResponse)] + body);
            BackendMessage(c, [w] + Finish(c, envelope, body)) == Some((w, WorkerFinished, back))
            && Finished(c, back) == Some(h)
  {
    var body := WriteHeader(c, h) + answer;
    var back := envelope + [[]] + ([c.message(BrokerResponse)] + body);
    BackendReads(c, w, envelope, body);
    FinishedReads(c, envelope, h, answer);
    hide BackendMessage, Finished, Finish;
  }

  lemma BackendReads(c: Codec, w: Identity, envelope: Message, body: Message)
    requires Faithful(c) && w != []
    ensures BackendMessage(c, [w] + Finish(c, envelope, body)) ==
              Some((w, WorkerFinished, envelope + [[]] + ([c.message(BrokerResponse)] + body)))
  {
    var back := envelope + [[]] + ([c.message(BrokerResponse)] + body);
    var msg := [w] + Finish(c, envelope, body);
    assert msg == [w, [], c.message(WorkerFinished)] + back;
    assert msg[3..] == back;
  }

  lemma FinishedReads(c: Codec, envelope: Message, h: Header, answer: Message)
    requires Faithful(c) && Routed(envelope) && envelope != []
    ensures Finished(c, envelope + [[]] + ([c.message(BrokerResponse)] + (WriteHeader(c, h) + answer))) == Some(h)
  {
    var rest := [c.message(BrokerResponse)] + (WriteHeader(c, h) + answer);
    var back := envelope + [[]] + rest;
    EnvelopeOf(envelope, rest);
    assert back[|envelope| + 1] == c.message(BrokerResponse);
    HeaderRead(c, envelope + [[]] + [c.message(BrokerResponse)], h, answer);
    assert back == envelope + [[]] + [c.message(BrokerResponse)] + WriteHeader(c, h) + answer;
  }

  /** For any non-empty envelope of non-empty frames: a request goes to the handler as it was sent, and
      the answer comes back along the same envelope, unless the request was one-way. */
  lemma ThroughWorkerFaithful(
    c: Codec, w: Identity, handler: Handler, envelope: Message, h: Header, data: Message)
    requires Faithful(c) && Routed(envelope) && envelope != [] && w != []
    ensures var result := handler(h.vfs, h.key.kind, h.key.id, data);
            ThroughWorker(c, w, handler, envelope + [[]] + (WriteHeader(c, h) + data)) ==
              if h.vfs.Has(Asynchronous) then Unanswered
              else Answered(envelope + [[]] + ([c.message(BrokerResponse)]
                              + (WriteHeader(c, h) + ([c.status(result.0)] + result.1))))
  {
    var msg := envelope + [[]] + (WriteHeader(c, h) + data);
    WorkerReceives(c, w, msg);
    NewRequestReads(c, envelope, h, data);
    ProcessAnswers(c, handler, h, data);
    var result := handler(h.vfs, h.key.kind, h.key.id, data);
    var answer := [c.status(result.0)] + result.1;
    assert WriteHeader(c, h) + [c.status(result.0)] + result.1 == WriteHeader(c, h) + answer;
    FinishReads(c, w, envelope, h, answer);
    hide WorkerMessage, NewRequest, Process, ReadAnswer, BackendMessage, Finished, Finish, ToWorker, Faithful,
      WriteHeader, Routed;
  }

  lemma WorkerReceives(c: Codec, w: Identity, msg: Message)
    requires Faithful(c)
    ensures WorkerMessage(c, ToWorker(c, w, msg)[1..]) == Some((BrokerNewRequest, msg))
  {
    assert ToWorker(c, w, msg)[1..] == [[], c.message(BrokerNewRequest)] + msg;
    assert ([[], c.message(BrokerNewRequest)] + msg)[2..] == msg;
  }

  lemma RequestArrives(c: Codec, proxy: Identity, client: Identity, h: Header, data: Message)
    requires Faithful(c) && proxy != [] && client != []
    ensures var atProxy := [client] + SendRequest(c, h, data);
            var atBroker := [proxy, client] + [[]] + (WriteHeader(c, h) + data);
            && ProxyRequest(c, atProxy) == Some((client, h))
            && Retyped(c, [proxy] + atProxy) == Some((ClientNewRequest, atBroker))
            && BrokerRequest(c, atBroker) == Some(h)
  {
    ProxyReads(c, client, h, data);
    BrokerReads(c, proxy, client, h, data);
  }

  lemma ProxyReads(c: Codec, client: Identity, h: Header, data: Message)
    requires Faithful(c) && client != []
    ensures ProxyRequest(c, [client] + SendRequest(c, h, data)) == Some((client, h))
  {
    HeaderRead(c, [client, [], c.message(ClientNewRequest)], h, data);
    assert [client] + SendRequest(c, h, data) ==
      [client, [], c.message(ClientNewRequest)] + WriteHeader(c, h) + data;
  }

  lemma BrokerReads(c: Codec, proxy: Identity, client: Identity, h: Header, data: Message)
    requires Faithful(c) && proxy != [] && client != []
    ensures var atBroker := [proxy, client] + [[]] + (WriteHeader(c, h) + data);
            && Retyped(c, [proxy] + ([client] + SendRequest(c, h, data))) == Some((ClientNewRequest, atBroker))
            && BrokerRequest(c, atBroker) == Some(h)
  {
    var rest := WriteHeader(c, h) + data;
    RetypedIs(c, [proxy, client], ClientNewRequest, rest);
    var msg := [proxy] + ([client] + SendRequest(c, h, data));
    assert msg == [proxy, client] + [[]] + ([c.message(ClientNewRequest)] + rest);
    hide Retyped;
    BrokerRequestReads(c, [proxy, client], h, data);
  }

  /** The type after an envelope is read and taken out, and nothing else is touched. */
  lemma RetypedIs(c: Codec, envelope: Message, x: ClusterMessage, rest: Message)
    requires Faithful(c) && Routed(envelope)
    ensures Retyped(c, envelope + [[]] + ([c.message(x)] + rest)) == Some((x, envelope + [[]] + rest))
  {
    var msg := envelope + [[]] + ([c.message(x)] + rest);
    EnvelopeOf(envelope, [c.message(x)] + rest);
    var n := |envelope|;
    assert msg[..n + 1] + msg[n + 2..] == envelope + [[]] + rest;
  }

  lemma BrokerRequestReads(c: Codec, envelope: Message, h: Header, data: Message)
    requires Faithful(c) && Routed(envelope)
    ensures BrokerRequest(c, envelope + [[]] + (WriteHeader(c, h) + data)) == Some(h)
  {
    var rest := WriteHeader(c, h) + data;
    EnvelopeOf(envelope, rest);
    HeaderRead(c, envelope + [[]], h, data);
    assert envelope + [[]] + rest == envelope + [[]] + WriteHeader(c, h) + data;
  }

  lemma ResponseArrives(
    c: Codec, proxy: Identity, client: Identity, h: Header, status: RequestStatus, data: Message)
    requires Faithful(c) && client != []
    ensures Home(c, proxy, [client] + [[]] + ([c.message(BrokerResponse)]
                             + (WriteHeader(c, h) + ([c.status(status)] + data)))) ==
              Some((proxy, client, Response(h, status, data)))
  {
    var rest := WriteHeader(c, h) + ([c.status(status)] + data);
    var msg := [client] + [[]] + ([c.message(BrokerResponse)] + rest);
    EnvelopeOf([client], [c.message(BrokerResponse)] + rest);
    assert msg[..2] + msg[3..] == [client, []] + rest;
    HeaderRead(c, [client, []], h, [c.status(status)] + data);
    assert [client, []] + rest == [client, []] + WriteHeader(c, h) + ([c.status(status)] + data);
    HeaderRead(c, [[]], h, [c.status(status)] + data);
    assert ([client, []] + rest)[1..] == [[]] + WriteHeader(c, h) + ([c.status(status)] + data);
    assert ([client, []] + rest)[1..][4] == c.status(status);
    assert ([client, []] + rest)[1..][5..] == data;
  }

  lemma AtBrokerIs(c: Codec, proxy: Identity, client: Identity, h: Header, data: Message)
    requires Faithful(c) && proxy != [] && client != []
    ensures AtBroker(c, proxy, client, h, data) == Some([proxy, client] + [[]] + (WriteHeader(c, h) + data))
  {
    RequestArrives(c, proxy, client, h, data);
    hide ProxyRequest, Retyped, BrokerRequest, SendRequest, WriteHeader, Faithful;
  }

  /** Whatever the flags, the handler is given exactly what the client sent. */
  lemma HandlerGiven(c: Codec, proxy: Identity, client: Identity, w: Identity, h: Header, data: Message)
    requires Faithful(c) && proxy != [] && client != [] && w != []
    ensures AtHandler(c, proxy, client, w, h, data) == Some((h, data))
  {
    hide AtBroker, WorkerMessage, NewRequest, ReadHeader, Faithful, ToWorker;
    AtBrokerIs(c, proxy, client, h, data);
    var msg := [proxy, client] + [[]] + (WriteHeader(c, h) + data);
    WorkerReceives(c, w, msg);
    NewRequestReads(c, [proxy, client], h, data);
    HeaderFirst(c, h, data);
    hide WriteHeader;
  }

  lemma HeaderFirst(c: Codec, h: Header, data: Message)
    requires Faithful(c)
    ensures ReadHeader(c, WriteHeader(c, h) + data, 0) == Some(h) && |WriteHeader(c, h)| == 3
    ensures (WriteHeader(c, h) + data)[3..] == data
  {
    HeaderRead(c, [], h, data);
    assert [] + WriteHeader(c, h) + data == WriteHeader(c, h) + data;
  }

  /** End to end, for every request and any data: the handler is given exactly what the client sent; and
      that client, behind its own proxy, reads a response with the same flags, type and id and the
      handler's own status and data, unless its request was one-way, when it is sent nothing. */
  lemma TripFaithful(
    c: Codec, proxy: Identity, client: Identity, w: Identity, handler: Handler, h: Header, data: Message)
    requires Faithful(c) && proxy != [] && client != [] && w != []
    ensures AtHandler(c, proxy, client, w, h, data) == Some((h, data))
    ensures var result := handler(h.vfs, h.key.kind, h.key.id, data);
            Trip(c, proxy, client, w, handler, h, data) ==
              if h.vfs.Has(Asynchronous) then Unanswered
              else Answered((proxy, client, Response(h, result.0, result.1)))
  {
    hide AtHandler, AtBroker, ThroughWorker, Home, WriteHeader, Faithful;
    var result := handler(h.vfs, h.key.kind, h.key.id, data);
    HandlerGiven(c, proxy, client, w, h, data);
    AtBrokerIs(c, proxy, client, h, data);
    ThroughWorkerFaithful(c, w, handler, [proxy, client], h, data);
    var tail := [c.message(BrokerResponse)] + (WriteHeader(c, h) + ([c.status(result.0)] + result.1));
    OuterFirst(proxy, client, tail);
    ResponseArrives(c, proxy, client, h, result.0, result.1);
  }

  lemma OuterFirst(proxy: Identity, client: Identity, tail: Message)
    ensures var back := [proxy, client] + [[]] + tail;
            back != [] && back[0] == proxy && back[1..] == [client] + [[]] + tail
  {
  }

  /** Receipts find their way as well: at the proxy, each names the client and the request it is for. */
  lemma ReceiptsFaithful(c: Codec, proxy: Identity, client: Identity, w: Identity, k: Key)
    requires Faithful(c) && proxy != [] && client != [] && w != []
    ensures var sent := SentReceipt(c, [proxy, client], k);
            && sent[0] == proxy
            && Retyped(c, sent[1..]) == Some((BrokerSentReceipt, [client, [], c.kind(k.kind), c.id(k.id)]))
    ensures var received := BackendMessage(c, [w] + ReceivedReceipt(c, [proxy, client], c.kind(k.kind), c.id(k.id)));
            && received.Some? && received.value.1 == WorkerReceipt && received.value.2 != []
            && received.value.2[0] == proxy
            && Retyped(c, received.value.2[1..]) ==
                 Some((BrokerReceivedReceipt, [client, [], c.kind(k.kind), c.id(k.id)]))
    ensures ProxyReceipt(c, [client, [], c.kind(k.kind), c.id(k.id)]) == Some((client, k))
  {
    ReceiptRetyped(c, client, k, BrokerSentReceipt);
    ReceiptRetyped(c, client, k, BrokerReceivedReceipt);
    assert SentReceipt(c, [proxy, client], k)[1..] ==
      [client] + [[]] + ([c.message(BrokerSentReceipt)] + [c.kind(k.kind), c.id(k.id)]);
    var msg := [w] + ReceivedReceipt(c, [proxy, client], c.kind(k.kind), c.id(k.id));
    assert msg[3..] ==
      [proxy] + ([client] + [[]] + ([c.message(BrokerReceivedReceipt)] + [c.kind(k.kind), c.id(k.id)]));
  }

  lemma ReceiptRetyped(c: Codec, client: Identity, k: Key, x: ClusterMessage)
    requires Faithful(c) && client != []
    ensures Retyped(c, [client] + [[]] + ([c.message(x)] + [c.kind(k.kind), c.id(k.id)])) ==
              Some((x, [client, [], c.kind(k.kind), c.id(k.id)]))
  {
    EnvelopeOf([client], [c.message(x)] + [c.kind(k.kind), c.id(k.id)]);
    var msg := [client] + [[]] + ([c.message(x)] + [c.kind(k.kind), c.id(k.id)]);
    assert msg[..2] + msg[3..] == [client, [], c.kind(k.kind), c.id(k.id)];
  }

  /** What the broker sends the client a request was redirected away from. */
  function RedirectNotice(c: Codec, envelope: Message, h: Header): Message {
    envelope + [[]] + [c.message(BrokerResponse)] + WriteHeader(c, h) + [c.status(Redirected)]
  }

  /** That client reads it as a response to its request. */
  lemma RedirectNoticed(c: Codec, proxy: Identity, client: Identity, h: Header)
    requires Faithful(c) && proxy != [] && client != []
    ensures var notice := RedirectNotice(c, [proxy, client], h);
            notice[0] == proxy && Home(c, proxy, notice[1..]) == Some((proxy, client, Response(h, Redirected, [])))
  {
    ResponseArrives(c, proxy, client, h, Redirected, []);
    assert RedirectNotice(c, [proxy, client], h)[1..] ==
      [client] + [[]] + ([c.message(BrokerResponse)] + (WriteHeader(c, h) + ([c.status(Redirected)] + [])));
  }

  // ----- what a worker says of itself -----

  lemma ReadyReads(c: Codec, w: Identity, r: Readiness)
    requires Faithful(c) && w != [] && r.types != []
    ensures var body := [c.vfs(r.vfs), c.number(r.capacity), c.number(r.delay)] + Kinds(c, r.types);
            && BackendMessage(c, [w] + Ready(c, r)) == Some((w, WorkerReady, body))
            && ReadReady(c, body) == Some(r)
  {
    var body := [c.vfs(r.vfs), c.number(r.capacity), c.number(r.delay)] + Kinds(c, r.types);
    var msg := [w] + Ready(c, r);
    assert msg == [w, [], c.message(WorkerReady)] + body;
    assert msg[3..] == body;
    assert [] !in body;
    KindsRead(c, r.types);
    assert body[3..] == Kinds(c, r.types);
  }

  lemma KindsRead(c: Codec, types: seq<RequestType>)
    requires Faithful(c)
    ensures ReadKinds(c, Kinds(c, types)) == types
  {
  }

  lemma HeartbeatReads(c: Codec, w: Identity, sentAt: int, delay: int)
    requires Faithful(c) && w != []
    ensures var body := [c.number(sentAt), c.number(delay)];
            && BackendMessage(c, [w] + Heartbeat(c, sentAt, delay)) == Some((w, WorkerHeartbeat, body))
            && ReadHeartbeat(c, body) == Some((sentAt, delay))
  {
    var msg := [w] + Heartbeat(c, sentAt, delay);
    assert msg[3..] == [c.number(sentAt), c.number(delay)];
  }

  // ----- rejections and death notices -----

  /** A request the broker stored or was just sent, turned into a rejection: its data replaced by a status. */
  function Rejection(c: Codec, envelope: Message, h: Header, status: RequestStatus): Message {
    envelope + [[]] + (WriteHeader(c, h) + [c.status(status)])
  }

  /** The envelope of a request whose data the broker did not keep, turned into a death notice. */
  function DeathNotice(c: Codec, envelope: Message, h: Header): Message {
    envelope + (WriteHeader(c, h) + [c.status(WorkerDeath)])
  }

  /** Neither carries the message type its receiver looks for, and the second no delimiter either: no
      rejection and no death notice is ever read as a response by the client it is for. */
  lemma RejectionUnread(c: Codec, proxy: Identity, client: Identity, h: Header, status: RequestStatus)
    requires Faithful(c) && proxy != [] && client != []
    ensures var msg := Rejection(c, [proxy, client], h, status);
            msg[0] == proxy && Home(c, proxy, msg[1..]) == None
  {
    var msg := Rejection(c, [proxy, client], h, status);
    assert msg[1..] == [client] + [[]] + (WriteHeader(c, h) + [c.status(status)]);
    EnvelopeOf([client], WriteHeader(c, h) + [c.status(status)]);
    assert msg[1..][..2] + msg[1..][3..] == [client, [], c.kind(h.key.kind), c.id(h.key.id), c.status(status)];
  }

  lemma DeathNoticeUnread(c: Codec, proxy: Identity, client: Identity, h: Header)
    requires Faithful(c) && proxy != [] && client != []
    ensures var msg := DeathNotice(c, [proxy, client], h);
            msg[0] == proxy && Home(c, proxy, msg[1..]) == None
  {
    var msg := DeathNotice(c, [proxy, client], h);
    assert msg[1..] ==
      [client, c.vfs(h.vfs), c.kind(h.key.kind), c.id(h.key.id), c.status(WorkerDeath)];
    assert forall i :: 0 <= i < 5 ==> msg[1..][i] != [];
  }
}

/** The two ends of a trip, editing messages in place: the client and the request processor. */
module Endpoints {
  import opened Wrappers
  import opened Cluster
  import opened Wire
  import opened Hops

  /** The client turns its data into a request by putting frames in front of it. */
  method SendRequest(c: Codec, h: Header, msg: ZMQMessage)
    modifies msg
    ensures msg.frames == Hops.SendRequest(c, h, old(msg.frames))
  {
    msg.Prepend(c.id(h.key.id));
    msg.Prepend(c.kind(h.key.kind));
    msg.Prepend(c.vfs(h.vfs));
    msg.Prepend(c.message(ClientNewRequest));
    msg.Prepend([]);
  }

  /** Pops a frame that must carry something. */
  method PopFilled(msg: ZMQMessage) returns (frame: Option<Frame>)
    modifies msg
    ensures frame.Some? <==> Filled(old(msg.frames), 0)
    ensures frame.Some? ==> frame.value == old(msg.frames)[0]
    ensures msg.frames == if old(msg.frames) == [] then [] else old(msg.frames)[1..]
  {
    frame := msg.Pop();
    if frame == Some([]) {
      frame := None;
    }
  }

  /** Pops a header; what is left is what followed it. */
  method PopHeader(c: Codec, msg: ZMQMessage) returns (frames: Option<Message>, ghost h: Option<Header>)
    modifies msg
    ensures h == ReadHeader(c, old(msg.frames), 0)
    ensures frames.Some? <==> h.Some?
    ensures frames.Some? ==> frames.value == old(msg.frames)[..3] && msg.frames == old(msg.frames)[3..]
  {
    h := ReadHeader(c, msg.frames, 0);
    var vfs := PopFilled(msg);
    if vfs.None? {
      return None, h;
    }
    var kind := PopFilled(msg);
    if kind.None? {
      return None, h;
    }
    var id := PopFilled(msg);
    if id.None? {
      return None, h;
    }
    frames := Some([vfs.value, kind.value, id.value]);
  }

  /** The processor takes the header off, has the rest handled, and builds the response around what
      the handler returned; a malformed request gets none. */
  method HandleRequest(c: Codec, handler: Handler, msg: ZMQMessage) returns (response: Option<ZMQMessage>)
    modifies msg
    ensures response.Some? <==> Process(c, handler, old(msg.frames)).Some?
    ensures response.Some? ==>
              fresh(response.value) && response.value.frames == Process(c, handler, old(msg.frames)).value
  {
    var header, h := PopHeader(c, msg);
    if header.None? {
      return None;
    }
    var vfs, kind, id := header.value[0], header.value[1], header.value[2];
    var result := handler(c.readVfs(vfs), c.readKind(kind), c.readId(id), msg.frames);
    var out := new ZMQMessage();
    out.frames := result.1;
    out.Prepend(c.status(result.0));
    out.Prepend(id);
    out.Prepend(kind);
    out.Prepend(vfs);
    response := Some(out);
  }

  /** What a client is given of a response. */
  class RequestResponse {
    var vfs: VersionFlags
    var key: Key
    var status: RequestStatus
    var data: Message

    constructor ()
      ensures Value() == Response(Header(VersionFlags(Version(0, 0), {}), Key(0, 0)), NoStatus, [])
    {
      vfs := VersionFlags(Version(0, 0), {});
      key := Key(0, 0);
      status := NoStatus;
      data := [];
    }

    function Value(): Response
      reads this
    {
      Response(Header(vfs, key), status, data)
    }

    /** Parses a response by popping its frames; a malformed one leaves no claim about the fields. */
    method FillFromMessage(c: Codec, msg: ZMQMessage) returns (ok: bool)
      modifies this, msg
      ensures ok <==> ReadResponse(c, old(msg.frames)).Some?
      ensures ok ==> Value() == ReadResponse(c, old(msg.frames)).value
    {
      ghost var start := msg.frames;
      var frame := msg.Pop();
      if frame != Some([]) {
        return false;
      }
      var first := PopFilled(msg);
      if first.None? {
        return false;
      }
      vfs := c.readVfs(first.value);
      var kind := PopFilled(msg);
      if kind.None? {
        return false;
      }
      var id := PopFilled(msg);
      if id.None? {
        return false;
      }
      key := Key(c.readKind(kind.value), c.readId(id.value));
      var last := PopFilled(msg);
      if last.None? {
        return false;
      }
      status := c.readStatus(last.value);
      data := msg.frames;
      ok := true;
    }
  }
}

/** Messages as frames: how values become frames, and the message object every hop edits in place. */
module Wire {
  import opened Wrappers
  import opened Cluster

  /** How each kind of value is written to a frame and read back. Numbers are capacities, delays and times. */
  datatype Codec = Codec(
    message: ClusterMessage -> Frame,
    readMessage: Frame -> ClusterMessage,
    vfs: VersionFlags -> Frame,
    readVfs: Frame -> VersionFlags,
    kind: RequestType -> Frame,
    readKind: Frame -> RequestType,
    id: RequestId -> Frame,
    readId: Frame -> RequestId,
    status: RequestStatus -> Frame,
    readStatus: Frame -> RequestStatus,
    number: int -> Frame,
    readNumber: Frame -> int)

  /** Values are written to non-empty frames and read back as they were. */
  ghost predicate Faithful(c: Codec) {
    && (forall x :: c.message(x) != [] && c.readMessage(c.message(x)) == x)
    && (forall x :: c.vfs(x) != [] && c.readVfs(c.vfs(x)) == x)
    && (forall x :: c.kind(x) != [] && c.readKind(c.kind(x)) == x)
    && (forall x :: c.id(x) != [] && c.readId(c.id(x)) == x)
    && (forall x :: c.status(x) != [] && c.readStatus(c.status(x)) == x)
    && (forall x :: c.number(x) != [] && c.readNumber(c.number(x)) == x)
  }

  /** A frame that carries something at a position, if there is one. */
  predicate Filled(msg: Message, i: nat) {
    i < |msg| && msg[i] != []
  }

  ghost predicate Routed(envelope: Message) {
    forall i :: 0 <= i < |envelope| ==> envelope[i] != []
  }

  /** The position of the delimiter, or the length if there is none. */
  function Delimiter(msg: Message): (n: nat)
    ensures n <= |msg| && (n < |msg| ==> msg[n] == []) && forall i :: 0 <= i < n ==> msg[i] != []
  {
    if msg == [] || msg[0] == [] then 0 else 1 + Delimiter(msg[1..])
  }

  lemma {:induction false} EnvelopeIs(msg: Message)
    ensures Envelope(msg) == msg[..Delimiter(msg)] && Routed(Envelope(msg))
  {
    if msg != [] && msg[0] != [] {
      EnvelopeIs(msg[1..]);
      assert msg[..Delimiter(msg)] == [msg[0]] + msg[1..][..Delimiter(msg[1..])];
    }
  }

  /** An envelope is found again in front of whatever follows its delimiter. */
  lemma EnvelopeOf(envelope: Message, rest: Message)
    requires Routed(envelope)
    ensures var msg := envelope + [[]] + rest;
            Delimiter(msg) == |envelope| && Envelope(msg) == envelope && msg[|envelope| + 1..] == rest
  {
    var msg := envelope + [[]] + rest;
    assert msg[|envelope|] == [];
    assert forall i :: 0 <= i < |envelope| ==> msg[i] == envelope[i];
    EnvelopeIs(msg);
  }

  /** A message object; every hop pops, prepends and appends frames in place. */
  class ZMQMessage {
    var frames: Message

    constructor ()
      ensures frames == []
    {
      frames := [];
    }

    method Append(frame: Frame)
      modifies this
      ensures frames == old(frames) + [frame]
    {
      frames := frames + [frame];
    }

    method Prepend(frame: Frame)
      modifies this
      ensures frames == [frame] + old(frames)
    {
      frames := [frame] + frames;
    }

    method Pop() returns (frame: Option<Frame>)
      modifies this
      ensures old(frames) == [] ==> frame == None && frames == []
      ensures old(frames) != [] ==> frame == Some(old(frames)[0]) && frames == old(frames)[1..]
    {
      if frames == [] {
        frame := None;
      } else {
        frame := Some(frames[0]);
        frames := frames[1..];
      }
    }

    method Remove(i: nat)
      requires i < |frames|
      modifies this
      ensures frames == old(frames)[..i] + old(frames)[i + 1..]
    {
      frames := frames[..i] + frames[i + 1..];
    }
  }

  /** Copies the frames before the delimiter to the end of another message. */
  method ZMQMessageEnvCopy(to: ZMQMessage, from: ZMQMessage)
    requires to != from
    modifies to
    ensures to.frames == old(to.frames) + Envelope(from.frames)
  {
    ghost var start := from.frames;
    ghost var was := to.frames;
    EnvelopeIs(start);
    hide Envelope;
    var i := 0;
    while i < |from.frames| && from.frames[i] != []
      invariant from.frames == start && 0 <= i <= Delimiter(start)
      invariant to.frames == was + start[..i]
    {
      to.Append(from.frames[i]);
      OneFurther(was, start, i);
      i := i + 1;
    }
  }

  lemma OneFurther(was: Message, msg: Message, i: nat)
    requires i < |msg|
    ensures was + msg[..i] + [msg[i]] == was + msg[..i + 1]
  {
  }

  /** Moves the frames before the delimiter to the end of another message, and drops the delimiter. */
  method ZMQMessageEnvMove(to: ZMQMessage, from: ZMQMessage)
    requires to != from
    modifies to, from
    ensures to.frames == old(to.frames) + Envelope(old(from.frames))
    ensures var n := Delimiter(old(from.frames));
            from.frames == if n < |old(from.frames)| then old(from.frames)[n + 1..] else []
  {
    ghost var start := from.frames;
    ghost var was := to.frames;
    EnvelopeIs(start);
    hide Envelope;
    ghost var i := 0;
    var frame := from.Pop();
    while frame.Some? && frame.value != []
      invariant 0 <= i <= Delimiter(start)
      invariant to.frames == was + start[..i]
      invariant frame == if i < |start| then Some(start[i]) else None
      invariant from.frames == if i < |start| then start[i + 1..] else []
      decreases |start| - i
    {
      to.Append(frame.value);
      OneFurther(was, start, i);
      frame := from.Pop();
      i := i + 1;
    }
  }
}

/** One faithful way of writing values to frames, to show that there is one. The broker's own encoding
    is not part of this model; everything proved of messages holds for any faithful encoding. */
module PlainCodec {
  import opened Cluster
  import opened Wire

  const ALL_FLAGS := [Broker, Asynchronous, ReceiptOnReceive, ReceiptOnSend, NotifyOnDeath, RetryOnDeath,
                      AllowRedirect, NotifyOnRedirect]

  const ALL_MESSAGES := [NoMessage, WorkerHeartbeat, WorkerReady, WorkerFinished, WorkerReceipt, BrokerHeartbeat,
                         BrokerNewRequest, BrokerResponse, BrokerSentReceipt, BrokerReceivedReceipt,
                         BrokerShuttingDown, ClientHeartbeat, ClientNewRequest]

  const ALL_STATUSES := [NoStatus, New, InProgress, Succeeded, Failed, FatalError, Rejected, WorkerDeath, Redirected]

  function FlagCode(f: MessageFlag): nat {
    match f
    case Broker => 0
    case Asynchronous => 1
    case ReceiptOnReceive => 2
    case ReceiptOnSend => 3
    case NotifyOnDeath => 4
    case RetryOnDeath => 5
    case AllowRedirect => 6
    case NotifyOnRedirect => 7
  }

  function MessageCode(x: ClusterMessage): nat {
    match x
    case NoMessage => 0
    case WorkerHeartbeat => 1
    case WorkerReady => 2
    case WorkerFinished => 3
    case WorkerReceipt => 4
    case BrokerHeartbeat => 5
    case BrokerNewRequest => 6
    case BrokerResponse => 7
    case BrokerSentReceipt => 8
    case BrokerReceivedReceipt => 9
    case BrokerShuttingDown => 10
    case ClientHeartbeat => 11
    case ClientNewRequest => 12
  }

  function StatusCode(x: RequestStatus): nat {
    match x
    case NoStatus => 0
    case New => 1
    case InProgress => 2
    case Succeeded => 3
    case Failed => 4
    case FatalError => 5
    case Rejected => 6
    case WorkerDeath => 7
    case Redirected => 8
  }

  /** A number as that many bytes and one more. */
  function WriteNumber(n: nat): Frame {
    seq(n + 1, i => 1)
  }

  function ReadNumber(frame: Frame): nat {
    if frame == [] then 0 else |frame| - 1
  }

  /** The same with a sign in front. */
  function WriteInt(n: int): Frame {
    if n >= 0 then [1] + WriteNumber(n) else [2] + WriteNumber(-n)
  }

  function ReadInt(frame: Frame): int {
    if frame == [] then 0
    else
      var n: int := ReadNumber(frame[1..]);
      if frame[0] == 1 then n else -n
  }

  lemma IntsRead()
    ensures forall n :: WriteInt(n) != [] && ReadInt(WriteInt(n)) == n
  {
    NumbersRead();
    hide ReadNumber, WriteNumber;
    forall n
      ensures ReadInt(WriteInt(n)) == n
    {
      if n >= 0 {
        assert WriteInt(n)[1..] == WriteNumber(n);
      } else {
        assert WriteInt(n)[1..] == WriteNumber(-n);
      }
    }
  }

  function At<T>(xs: seq<T>, i: nat, default: T): T {
    if i < |xs| then xs[i] else default
  }

  function WriteVfs(v: VersionFlags): Frame {
    WriteNumber(v.version.major) + [2] + WriteNumber(v.version.minor) + [2]
      + seq(8, i requires 0 <= i < 8 => if ALL_FLAGS[i] in v.flags then 1 else 0)
  }

  /** How many bytes come before the first 2. */
  function Run(frame: Frame): nat {
    if frame == [] || frame[0] == 2 then 0 else 1 + Run(frame[1..])
  }

  lemma {:induction false} RunOf(n: nat, rest: Frame)
    ensures Run(seq(n, i => 1) + [2] + rest) == n
  {
    var frame: Frame := seq(n, i => 1) + [2] + rest;
    if n == 0 {
      assert frame[0] == 2;
    } else {
      assert frame[1..] == seq(n - 1, i => 1) + [2] + rest;
      RunOf(n - 1, rest);
    }
  }

  function ReadVfs(frame: Frame): VersionFlags {
    var n := Run(frame);
    var rest := if n < |frame| then frame[n + 1..] else [];
    var m := Run(rest);
    var bits := if m < |rest| then rest[m + 1..] else [];
    VersionFlags(
      Version(if n > 0 then n - 1 else 0, if m > 0 then m - 1 else 0),
      set f | f in ALL_FLAGS && At(bits, FlagCode(f), 0) == 1)
  }

  lemma VfsRead(v: VersionFlags)
    ensures ReadVfs(WriteVfs(v)) == v
  {
    var frame := WriteVfs(v);
    var bits: Frame := seq(8, i requires 0 <= i < 8 => if ALL_FLAGS[i] in v.flags then 1 else 0);
    var tail := WriteNumber(v.version.minor) + [2] + bits;
    var n := v.version.major + 1;
    RunOf(n, tail);
    assert frame == seq(n, i => 1) + [2] + tail;
    assert frame[n + 1..] == tail;
    var m := v.version.minor + 1;
    RunOf(m, bits);
    assert tail == seq(m, i => 1) + [2] + bits;
    assert tail[m + 1..] == bits;
    BitsRead(v.flags, bits);
  }

  lemma BitsRead(flags: set<MessageFlag>, bits: Frame)
    requires bits == seq(8, i requires 0 <= i < 8 => if ALL_FLAGS[i] in flags then 1 else 0)
    ensures (set f | f in ALL_FLAGS && At(bits, FlagCode(f), 0) == 1) == flags
  {
    forall f
      ensures f in ALL_FLAGS && (At(bits, FlagCode(f), 0) == 1 <==> f in flags)
    {
      assert ALL_FLAGS[FlagCode(f)] == f;
    }
  }

  lemma CodesRead()
    ensures forall x :: At(ALL_MESSAGES, MessageCode(x), NoMessage) == x
    ensures forall x :: At(ALL_STATUSES, StatusCode(x), NoStatus) == x
  {
  }

  function Plain(): Codec {
    Codec(
      x => WriteNumber(MessageCode(x)),
      frame => At(ALL_MESSAGES, ReadNumber(frame), NoMessage),
      WriteVfs, ReadVfs,
      WriteNumber, ReadNumber, WriteNumber, ReadNumber,
      x => WriteNumber(StatusCode(x)),
      frame => At(ALL_STATUSES, ReadNumber(frame), NoStatus),
      WriteInt, ReadInt)
  }

  lemma NumbersRead()
    ensures forall n: nat :: WriteNumber(n) != [] && ReadNumber(WriteNumber(n)) == n
  {
  }

  lemma VfsReads()
    ensures forall v :: WriteVfs(v) != [] && ReadVfs(WriteVfs(v)) == v
  {
    forall v
      ensures WriteVfs(v) != [] && ReadVfs(WriteVfs(v)) == v
    {
      VfsRead(v);
    }
  }

  lemma PlainIsFaithful()
    ensures Faithful(Plain())
  {
    CodesRead();
    NumbersRead();
    VfsReads();
    IntsRead();
    hide At, WriteNumber, ReadNumber, WriteInt, ReadInt, WriteVfs, ReadVfs, MessageCode, StatusCode;
  }
}

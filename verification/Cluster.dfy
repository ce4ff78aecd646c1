/** The vocabulary every component shares: request keys, version and flags, frames. */
module Cluster {

  type RequestType = nat
  type RequestId = nat

  /** A request is known by the pair of its type and its id. */
  datatype Key = Key(kind: RequestType, id: RequestId)

  datatype MessageFlag =
    | Broker
    | Asynchronous
    | ReceiptOnReceive
    | ReceiptOnSend
    | NotifyOnDeath
    | RetryOnDeath
    | AllowRedirect
    | NotifyOnRedirect

  datatype Version = Version(major: nat, minor: nat)

  datatype VersionFlags = VersionFlags(version: Version, flags: set<MessageFlag>) {
    predicate HasAny(wanted: set<MessageFlag>) {
      exists f | f in wanted :: f in flags
    }

    predicate Has(flag: MessageFlag) {
      flag in flags
    }

    function Without(flag: MessageFlag): VersionFlags {
      VersionFlags(version, flags - {flag})
    }
  }

  datatype RequestStatus =
    | NoStatus
    | New
    | InProgress
    | Succeeded
    | Failed
    | FatalError
    | Rejected
    | WorkerDeath
    | Redirected

  datatype ClusterMessage =
    | NoMessage
    | WorkerHeartbeat
    | WorkerReady
    | WorkerFinished
    | WorkerReceipt
    | BrokerHeartbeat
    | BrokerNewRequest
    | BrokerResponse
    | BrokerSentReceipt
    | BrokerReceivedReceipt
    | BrokerShuttingDown
    | ClientHeartbeat
    | ClientNewRequest

  newtype Byte = x: int | 0 <= x < 256

  /** One frame of a multi-frame message; the empty frame is the envelope delimiter. */
  type Frame = seq<Byte>
  type Message = seq<Frame>

  /** Routing identities are frames. */
  type Identity = Frame

  /** The routing part of a message: every frame before the first empty one. */
  function Envelope(msg: Message): Message {
    if msg == [] || msg[0] == [] then [] else [msg[0]] + Envelope(msg[1..])
  }
}

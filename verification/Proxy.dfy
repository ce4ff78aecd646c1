/** The client proxy's buffer of requests that asked for receipts, and what it guarantees. */
module Proxy {
  import opened Wrappers
  import opened Cluster
  import opened Wire
  import opened Hops

  const RECEIPTS: set<MessageFlag> := {ReceiptOnReceive, ReceiptOnSend}

  /** A buffered request is known by its type and id and by what its client is told from others by: the
      address of the frame with its identity in the code, the content of that frame as it is meant.
      What follows holds for either. */
  datatype BufferKey<A> = BufferKey(key: Key, client: A)

  datatype Buffered = Buffered(vfs: VersionFlags, mask: set<MessageFlag>, msg: Message)

  type Buffer<A(==)> = map<BufferKey<A>, Buffered>

  // ----- what happens at a proxy -----

  datatype ProxyEvent<A> =
    | Requested(key: BufferKey<A>, vfs: VersionFlags, msg: Message)
    | Receipted(key: BufferKey<A>, receipt: ClusterMessage)
    | Responded(key: BufferKey<A>)
    | Restarted
    | Ignored

  function Added<A(==)>(b: Buffer<A>, k: BufferKey<A>, vfs: VersionFlags, msg: Message): Buffer<A> {
    b[k := Buffered(vfs, vfs.flags, msg)]
  }

  function FlagFor(receipt: ClusterMessage): set<MessageFlag> {
    match receipt
    case BrokerReceivedReceipt => {ReceiptOnReceive}
    case BrokerSentReceipt => {ReceiptOnSend}
    case _ => {}
  }

  function Unmasked<A(==)>(b: Buffer<A>, receipt: ClusterMessage, k: BufferKey<A>): Buffer<A> {
    if k !in b then b
    else
      var mask := b[k].mask - FlagFor(receipt);
      if mask * RECEIPTS == {} then b - {k} else b[k := b[k].(mask := mask)]
  }

  function Restore<A(==)>(b: Buffer<A>): Buffer<A> {
    map k | k in b :: b[k].(mask := b[k].vfs.flags)
  }

  function ProxyStep<A(==)>(b: Buffer<A>, e: ProxyEvent<A>): Buffer<A> {
    match e
    case Requested(k, vfs, msg) => if vfs.HasAny(RECEIPTS) then Added(b, k, vfs, msg) else b
    case Receipted(k, receipt) => Unmasked(b, receipt, k)
    case Responded(k) => b - {k}
    case Restarted => Restore(b)
    case Ignored => b
  }

  function ProxyRun<A(==)>(events: seq<ProxyEvent<A>>): Buffer<A> {
    if events == [] then map[]
    else ProxyStep(ProxyRun(events[..|events| - 1]), events[|events| - 1])
  }

  // ----- delivery -----

  /** A request for receipts on `k`. */
  predicate Asks<A(==)>(e: ProxyEvent<A>, k: BufferKey<A>) {
    e.Requested? && e.key == k && e.vfs.HasAny(RECEIPTS)
  }

  /** The receipt is the one the flag asks for. */
  predicate Meets(receipt: ClusterMessage, f: MessageFlag) {
    || (receipt == BrokerReceivedReceipt && f == ReceiptOnReceive)
    || (receipt == BrokerSentReceipt && f == ReceiptOnSend)
  }

  /** The receipt a flag asks for arrived in `events[from..to]`. */
  ghost predicate Got<A>(events: seq<ProxyEvent<A>>, from: nat, to: nat, k: BufferKey<A>, f: MessageFlag) {
    exists p: nat :: from <= p < to && p < |events| && events[p].Receipted? && events[p].key == k
                     && Meets(events[p].receipt, f)
  }

  /** `events[j]` sent the request asked for at `i`, at first or on a restart, and nothing has restarted since. */
  ghost predicate SentAt<A>(events: seq<ProxyEvent<A>>, i: nat, j: nat, to: nat) {
    && i <= j < to <= |events| && (j == i || events[j] == Restarted)
    && (forall q :: j < q < to ==> events[q] != Restarted)
  }

  /** The request asked for at `i` is still buffered, to be sent again, and what is outstanding is
      what has not been received since it was last sent: at least one receipt. */
  ghost predicate StillBuffered<A>(events: seq<ProxyEvent<A>>, k: BufferKey<A>, i: nat, j: nat, b: Buffer<A>)
    requires i < |events| && events[i].Requested?
  {
    && SentAt(events, i, j, |events|)
    && k in b && b[k].vfs == events[i].vfs && b[k].msg == events[i].msg
    && b[k].mask * RECEIPTS != {}
    && (forall f :: f in RECEIPTS ==>
          (f in b[k].mask <==> f in events[i].vfs.flags && !Got(events, j + 1, |events|, k, f)))
  }

  /** Every receipt asked for at `i` has been received after one and the same send. */
  ghost predicate AllReceipted<A>(events: seq<ProxyEvent<A>>, k: BufferKey<A>, i: nat, j: nat, to: nat)
    requires i < |events| && events[i].Requested?
  {
    && SentAt(events, i, j, to)
    && (forall f :: f in RECEIPTS && f in events[i].vfs.flags ==> Got(events, j + 1, to, k, f))
  }

  ghost predicate Answered<A>(events: seq<ProxyEvent<A>>, k: BufferKey<A>, i: nat) {
    exists m: nat :: i < m < |events| && events[m] == Responded(k)
  }

  /** What became of the request asked for at `i`. */
  ghost predicate Delivered<A>(events: seq<ProxyEvent<A>>, k: BufferKey<A>, i: nat)
    requires i < |events| && events[i].Requested?
  {
    || (exists j: nat :: StillBuffered(events, k, i, j, ProxyRun(events)))
    || (exists j: nat, to: nat :: AllReceipted(events, k, i, j, to))
    || Answered(events, k, i)
  }

  lemma GotMore<A>(events: seq<ProxyEvent<A>>, e: ProxyEvent<A>, from: nat, k: BufferKey<A>, f: MessageFlag)
    requires from <= |events|
    ensures Got(events + [e], from, |events| + 1, k, f) <==>
              Got(events, from, |events|, k, f) || (e.Receipted? && e.key == k && Meets(e.receipt, f))
  {
    var more := events + [e];
    assert more[|events|] == e;
    if Got(events, from, |events|, k, f) {
      var p: nat :| from <= p < |events| && events[p].Receipted? && events[p].key == k
                    && Meets(events[p].receipt, f);
      assert more[p] == events[p];
    }
    if Got(more, from, |events| + 1, k, f) {
      var p: nat :| from <= p < |events| + 1 && more[p].Receipted? && more[p].key == k && Meets(more[p].receipt, f);
      assert p < |events| ==> events[p] == more[p];
    }
  }

  /** A request just buffered has everything it asked for outstanding. */
  lemma JustBuffered<A>(events: seq<ProxyEvent<A>>, k: BufferKey<A>)
    requires events != [] && Asks(events[|events| - 1], k)
    ensures StillBuffered(events, k, |events| - 1, |events| - 1, ProxyRun(events))
  {
    var e := events[|events| - 1];
    var f :| f in RECEIPTS && f in e.vfs.flags;
    assert f in ProxyRun(events)[k].mask * RECEIPTS;
  }

  /** One more event leaves a buffered request buffered, receipted or answered; as it should be if it is
      buffered. */
  lemma BufferedOn<A>(events: seq<ProxyEvent<A>>, e: ProxyEvent<A>, k: BufferKey<A>, i: nat, j: nat)
    requires i < |events| && events[i].Requested? && !Asks(e, k)
    requires StillBuffered(events, k, i, j, ProxyRun(events))
    ensures Delivered(events + [e], k, i)
    ensures k in ProxyRun(events + [e]) ==>
              exists j': nat :: StillBuffered(events + [e], k, i, j', ProxyRun(events + [e]))
  {
    var more := events + [e];
    var b := ProxyRun(events);
    assert more[..|more| - 1] == events && more[i] == events[i];
    match e
    case Restarted =>
      RestartedOn(events, k, i, j, b);
      assert StillBuffered(more, k, i, |events|, ProxyRun(more));
    case Responded(other) =>
      if other == k {
        assert more[|events|] == Responded(k);
        assert Answered(more, k, i);
      } else {
        QuietOn(events, e, k, i, j, b);
        assert StillBuffered(more, k, i, j, ProxyRun(more));
      }
    case Receipted(other, receipt) =>
      if other == k {
        ReceiptedOn(events, e, k, i, j, b);
      } else {
        QuietOn(events, e, k, i, j, b);
        assert StillBuffered(more, k, i, j, ProxyRun(more));
      }
    case _ =>
      QuietOn(events, e, k, i, j, b);
      assert StillBuffered(more, k, i, j, ProxyRun(more));
  }

  lemma SentOn<A>(events: seq<ProxyEvent<A>>, e: ProxyEvent<A>, i: nat, j: nat)
    requires SentAt(events, i, j, |events|) && e != Restarted
    ensures SentAt(events + [e], i, j, |events| + 1)
  {
    var more := events + [e];
    forall q | j < q < |events| + 1
      ensures more[q] != Restarted
    {
      assert q < |events| ==> more[q] == events[q];
    }
  }

  lemma RestartedOn<A>(events: seq<ProxyEvent<A>>, k: BufferKey<A>, i: nat, j: nat, b: Buffer<A>)
    requires i < |events| && events[i].Requested? && StillBuffered(events, k, i, j, b)
    ensures StillBuffered(events + [Restarted], k, i, |events|, Restore(b))
  {
    var more := events + [Restarted];
    assert more[i] == events[i];
    var f :| f in b[k].mask * RECEIPTS;
    assert f in Restore(b)[k].mask * RECEIPTS;
    assert |more| == |events| + 1;
  }

  lemma QuietOn<A>(events: seq<ProxyEvent<A>>, e: ProxyEvent<A>, k: BufferKey<A>, i: nat, j: nat, b: Buffer<A>)
    requires i < |events| && events[i].Requested? && StillBuffered(events, k, i, j, b)
    requires e != Restarted && !(e.Receipted? && e.key == k) && e != Responded(k) && !Asks(e, k)
    ensures StillBuffered(events + [e], k, i, j, ProxyStep(b, e))
  {
    SentOn(events, e, i, j);
    var more, from, n := events + [e], j + 1, |events|;
    forall f
      ensures Got(more, from, |more|, k, f) <==> Got(events, from, n, k, f)
    {
      GotMore(events, e, j + 1, k, f);
    }
    assert ProxyStep(b, e)[k] == b[k];
  }

  lemma ReceiptedOn<A>(events: seq<ProxyEvent<A>>, e: ProxyEvent<A>, k: BufferKey<A>, i: nat, j: nat, b: Buffer<A>)
    requires i < |events| && events[i].Requested? && StillBuffered(events, k, i, j, b)
    requires e.Receipted? && e.key == k && b == ProxyRun(events)
    ensures Delivered(events + [e], k, i)
    ensures k in ProxyRun(events + [e]) ==> StillBuffered(events + [e], k, i, j, ProxyRun(events + [e]))
  {
    var more := events + [e];
    assert more[..|more| - 1] == events && more[i] == events[i];
    SentOn(events, e, i, j);
    forall f
      ensures Got(more, j + 1, |more|, k, f) <==> Got(events, j + 1, |events|, k, f) || Meets(e.receipt, f)
    {
      GotMore(events, e, j + 1, k, f);
    }
    assert forall f :: f in FlagFor(e.receipt) <==> Meets(e.receipt, f);
    var mask := b[k].mask - FlagFor(e.receipt);
    if mask * RECEIPTS == {} {
      forall f | f in RECEIPTS && f in more[i].vfs.flags
        ensures Got(more, j + 1, |more|, k, f)
      {
        assert f !in mask * RECEIPTS;
      }
      assert AllReceipted(more, k, i, j, |more|);
    } else {
      assert StillBuffered(more, k, i, j, ProxyRun(more));
    }
  }

  lemma AnsweredOn<A>(events: seq<ProxyEvent<A>>, e: ProxyEvent<A>, k: BufferKey<A>, i: nat)
    requires Answered(events, k, i)
    ensures Answered(events + [e], k, i)
  {
    var m: nat :| i < m < |events| && events[m] == Responded(k);
    assert (events + [e])[m] == Responded(k);
  }

  lemma AllReceiptedOn<A>(events: seq<ProxyEvent<A>>, e: ProxyEvent<A>, k: BufferKey<A>, i: nat, j: nat, to: nat)
    requires i < |events| && events[i].Requested? && AllReceipted(events, k, i, j, to)
    ensures AllReceipted(events + [e], k, i, j, to)
  {
    var more := events + [e];
    assert forall q :: 0 <= q < to ==> more[q] == events[q];
    forall f | f in RECEIPTS && f in more[i].vfs.flags
      ensures Got(more, j + 1, to, k, f)
    {
      assert Got(events, j + 1, to, k, f);
      var p: nat :| j + 1 <= p < to && p < |events| && events[p].Receipted? && events[p].key == k
                    && Meets(events[p].receipt, f);
      assert more[p] == events[p];
    }
  }

  /** Over any run, whatever receipts and responses come and however often the broker dies: a request
      that asked for receipts, until it is asked for again, is buffered with a receipt outstanding, or
      has had every receipt it asked for since one send, or has been answered. */
  lemma {:induction false} Delivery<A>(events: seq<ProxyEvent<A>>, k: BufferKey<A>, i: nat)
    requires i < |events| && Asks(events[i], k)
    requires forall m :: i < m < |events| ==> !Asks(events[m], k)
    ensures Delivered(events, k, i)
  {
    if i == |events| - 1 {
      JustBuffered(events, k);
    } else {
      var before := events[..|events| - 1];
      var e := events[|events| - 1];
      assert events == before + [e];
      assert forall m :: 0 <= m < |before| ==> before[m] == events[m];
      Delivery(before, k, i);
      if Answered(before, k, i) {
        AnsweredOn(before, e, k, i);
      } else if j: nat, to: nat :| AllReceipted(before, k, i, j, to) {
        AllReceiptedOn(before, e, k, i, j, to);
      } else {
        var j: nat :| StillBuffered(before, k, i, j, ProxyRun(before));
        BufferedOn(before, e, k, i, j);
      }
    }
  }

  /** Nothing is buffered that did not ask for a receipt, and nothing after its answer. */
  lemma {:induction false} BufferedAsked<A>(events: seq<ProxyEvent<A>>, k: BufferKey<A>)
    requires k in ProxyRun(events)
    ensures exists i: nat :: i < |events| && Asks(events[i], k) && !Answered(events, k, i)
                             && forall m :: i < m < |events| ==> !Asks(events[m], k)
  {
    var before := events[..|events| - 1];
    var e := events[|events| - 1];
    if Asks(e, k) {
      assert Asks(events[|events| - 1], k) && !Answered(events, k, |events| - 1);
    } else {
      assert k in ProxyRun(before) && e != Responded(k);
      BufferedAsked(before, k);
      var i: nat :| i < |before| && Asks(before[i], k) && !Answered(before, k, i)
                    && forall m :: i < m < |before| ==> !Asks(before[m], k);
      forall m | i < m < |events|
        ensures !Asks(events[m], k) && events[m] != Responded(k)
      {
        assert m < |before| ==> before[m] == events[m];
      }
      assert Asks(events[i], k);
    }
  }

  /** A request that is buffered as it should be has not had all its receipts since it was last sent. */
  lemma NotAllReceipted<A>(events: seq<ProxyEvent<A>>, k: BufferKey<A>, i: nat, j: nat, j': nat)
    requires i < |events| && events[i].Requested? && StillBuffered(events, k, i, j, ProxyRun(events))
    ensures !AllReceipted(events, k, i, j', |events|)
  {
    if SentAt(events, i, j', |events|) {
      SentOnce(events, i, j, j');
      var f :| f in ProxyRun(events)[k].mask * RECEIPTS;
      assert f in events[i].vfs.flags && !Got(events, j' + 1, |events|, k, f);
    }
  }

  lemma SentOnce<A>(events: seq<ProxyEvent<A>>, i: nat, j: nat, j': nat)
    requires SentAt(events, i, j, |events|) && SentAt(events, i, j', |events|)
    ensures j == j'
  {
  }

  /** All that was asked for at `i` has come. */
  ghost predicate Discharged<A>(events: seq<ProxyEvent<A>>, k: BufferKey<A>, i: nat)
    requires i < |events| && events[i].Requested?
  {
    Answered(events, k, i) || exists j: nat, to: nat :: AllReceipted(events, k, i, j, to)
  }

  /** The last request for receipts under a key is at `i`. */
  ghost predicate AskedLast<A>(events: seq<ProxyEvent<A>>, k: BufferKey<A>, i: nat) {
    i < |events| && Asks(events[i], k) && forall m :: i < m < |events| ==> !Asks(events[m], k)
  }

  lemma {:induction false} NotDischarged<A>(events: seq<ProxyEvent<A>>, k: BufferKey<A>, i: nat)
    requires AskedLast(events, k, i) && k in ProxyRun(events)
    ensures !Discharged(events, k, i)
    ensures exists j: nat :: StillBuffered(events, k, i, j, ProxyRun(events))
  {
    var before := events[..|events| - 1];
    var e := events[|events| - 1];
    assert events == before + [e];
    if i == |events| - 1 {
      JustBuffered(events, k);
    } else {
      assert AskedLast(before, k, i) by {
        assert forall m :: 0 <= m < |before| ==> before[m] == events[m];
      }
      NotDischarged(before, k, i);
      var j: nat :| StillBuffered(before, k, i, j, ProxyRun(before));
      BufferedOn(before, e, k, i, j);
      assert e != Responded(k);
      NotDischargedOn(before, e, k, i);
    }
    var j: nat :| StillBuffered(events, k, i, j, ProxyRun(events));
    forall j': nat
      ensures !AllReceipted(events, k, i, j', |events|)
    {
      NotAllReceipted(events, k, i, j, j');
    }
  }

  /** What is discharged before the end of a run is so, unless it takes its last event. */
  lemma NotDischargedOn<A>(events: seq<ProxyEvent<A>>, e: ProxyEvent<A>, k: BufferKey<A>, i: nat)
    requires i < |events| && events[i].Requested? && !Discharged(events, k, i) && e != Responded(k)
    ensures !Answered(events + [e], k, i)
    ensures forall j: nat, to: nat :: to <= |events| ==> !AllReceipted(events + [e], k, i, j, to)
  {
    var more := events + [e];
    assert forall q :: 0 <= q < |events| ==> more[q] == events[q];
    if Answered(more, k, i) {
      var m: nat :| i < m < |more| && more[m] == Responded(k);
      assert Answered(events, k, i);
    }
    forall j: nat, to: nat | to <= |events|
      ensures !AllReceipted(more, k, i, j, to)
    {
      if AllReceipted(more, k, i, j, to) {
        AllReceiptedBefore(events, e, k, i, j, to);
      }
    }
  }

  lemma AllReceiptedBefore<A>(events: seq<ProxyEvent<A>>, e: ProxyEvent<A>, k: BufferKey<A>, i: nat, j: nat, to: nat)
    requires i < |events| && events[i].Requested? && to <= |events| && AllReceipted(events + [e], k, i, j, to)
    ensures AllReceipted(events, k, i, j, to)
  {
    var more := events + [e];
    assert forall q :: 0 <= q < |events| ==> more[q] == events[q];
    forall f | f in RECEIPTS && f in events[i].vfs.flags
      ensures Got(events, j + 1, to, k, f)
    {
      assert Got(more, j + 1, to, k, f);
      var p: nat :| j + 1 <= p < to && p < |more| && more[p].Receipted? && more[p].key == k
                    && Meets(more[p].receipt, f);
      assert events[p] == more[p];
    }
  }

  /** Over any run, exactly those requests are buffered, to be sent again with each new broker, that asked
      for receipts and are still owed one: neither answered, nor receipted in full since one send. */
  lemma BufferedExactly<A>(events: seq<ProxyEvent<A>>, k: BufferKey<A>)
    ensures k in ProxyRun(events) <==> exists i: nat :: AskedLast(events, k, i) && !Discharged(events, k, i)
  {
    hide Discharged, ProxyRun;
    if k in ProxyRun(events) {
      LastAsk(events, k);
      var i: nat :| AskedLast(events, k, i);
      NotDischarged(events, k, i);
    }
    forall i: nat | AskedLast(events, k, i) && !Discharged(events, k, i)
      ensures k in ProxyRun(events)
    {
      OwedIsBuffered(events, k, i);
    }
  }

  lemma LastAsk<A>(events: seq<ProxyEvent<A>>, k: BufferKey<A>)
    requires k in ProxyRun(events)
    ensures exists i: nat :: AskedLast(events, k, i)
  {
    BufferedAsked(events, k);
    var i: nat :| i < |events| && Asks(events[i], k) && !Answered(events, k, i)
                  && forall m :: i < m < |events| ==> !Asks(events[m], k);
    assert AskedLast(events, k, i);
  }

  lemma OwedIsBuffered<A>(events: seq<ProxyEvent<A>>, k: BufferKey<A>, i: nat)
    requires AskedLast(events, k, i) && !Discharged(events, k, i)
    ensures k in ProxyRun(events)
  {
    Delivery(events, k, i);
    var j: nat :| StillBuffered(events, k, i, j, ProxyRun(events));
  }

  /** What a client last sent under a key that asked for receipts, in full. */
  function LastSent<A(==)>(events: seq<ProxyEvent<A>>, k: BufferKey<A>): Option<Message> {
    if events == [] then None
    else
      var e := events[|events| - 1];
      if Asks(e, k) then Some(e.msg) else LastSent(events[..|events| - 1], k)
  }

  /** Over any run, what is buffered, and sent again with each new broker, is what the client last sent. */
  lemma {:induction false} BufferedIsLastSent<A>(events: seq<ProxyEvent<A>>, k: BufferKey<A>)
    requires k in ProxyRun(events)
    ensures LastSent(events, k) == Some(ProxyRun(events)[k].msg)
  {
    var before := events[..|events| - 1];
    if !Asks(events[|events| - 1], k) {
      assert k in ProxyRun(before) && ProxyRun(events)[k].msg == ProxyRun(before)[k].msg;
      BufferedIsLastSent(before, k);
    }
  }

  // ----- keys that are never found -----

  /** The frame with a message's identity is not one of those the buffer keeps. An address never is:
      the frames buffered are still there, and the message just read has frames of its own. */
  ghost predicate OwnFrame<A>(b: Buffer<A>, e: ProxyEvent<A>) {
    e.Requested? || e.Receipted? || e.Responded? ==> forall k :: k in b ==> k.client != e.key.client
  }

  ghost predicate OwnFrames<A>(events: seq<ProxyEvent<A>>) {
    forall n :: 0 <= n < |events| ==> OwnFrame(ProxyRun(events[..n]), events[n])
  }

  /** On such a run no receipt and no response is ever matched with its request: whatever asked for a
      receipt stays buffered, waiting for every receipt it asked for, and is sent again with each new
      broker. */
  lemma {:induction false} NeverErased<A>(events: seq<ProxyEvent<A>>, i: nat)
    requires OwnFrames(events) && i < |events| && events[i].Requested? && events[i].vfs.HasAny(RECEIPTS)
    ensures var k := events[i].key;
            k in ProxyRun(events)
            && ProxyRun(events)[k] == Buffered(events[i].vfs, events[i].vfs.flags, events[i].msg)
  {
    var before := events[..|events| - 1];
    assert OwnFrame(ProxyRun(before), events[|events| - 1]);
    if i < |events| - 1 {
      forall n | 0 <= n < |before|
        ensures OwnFrame(ProxyRun(before[..n]), before[n])
      {
        assert before[..n] == events[..n];
      }
      NeverErased(before, i);
    }
  }

  // ----- the proxy itself -----

  /** What a message from a client, or from the broker, is to the buffer, its client being told from
      others by `a`; malformed ones are nothing. */
  function FromClient<A>(c: Codec, a: A, msg: Message): ProxyEvent<A> {
    match ProxyRequest(c, msg)
    case None => Ignored
    case Some(read) => Requested(BufferKey(read.1.key, a), read.1.vfs, msg)
  }

  function FromBroker<A>(c: Codec, a: A, msg: Message): ProxyEvent<A> {
    match Retyped(c, msg)
    case None => Ignored
    case Some(read) => Typed(c, a, read.0, read.1)
  }

  function Typed<A>(c: Codec, a: A, x: ClusterMessage, msg: Message): ProxyEvent<A> {
    match x
    case BrokerSentReceipt => OfReceipt(c, a, x, msg)
    case BrokerReceivedReceipt => OfReceipt(c, a, x, msg)
    case BrokerResponse =>
      (match ProxyResponse(c, msg)
       case None => Ignored
       case Some(read) => Responded(BufferKey(read.1.key, a)))
    case _ => Ignored
  }

  function OfReceipt<A>(c: Codec, a: A, x: ClusterMessage, msg: Message): ProxyEvent<A> {
    match ProxyReceipt(c, msg)
    case None => Ignored
    case Some(read) => Receipted(BufferKey(read.1, a), x)
  }

  /** By content, what the broker says of a request is about the request its client sent. */
  lemma SameClient(c: Codec, client: Identity, h: Header, data: Message, x: ClusterMessage)
    requires Faithful(c) && client != [] && (x == BrokerSentReceipt || x == BrokerReceivedReceipt)
    ensures var request := [client] + SendRequest(c, h, data);
            var k := BufferKey(h.key, client);
            && FromClient(c, client, request) == Requested(k, h.vfs, request)
            && FromBroker(c, client, [client] + [[]] + ([c.message(x)] + [c.kind(h.key.kind), c.id(h.key.id)])) ==
                 Receipted(k, x)
  {
    ProxyReads(c, client, h, data);
    ReceiptRetyped(c, client, h.key, x);
    hide ProxyRequest, Retyped, SendRequest;
  }

  /** A response is one, for the request of that client, whatever its status and data. */
  lemma ResponseIsOne(c: Codec, client: Identity, h: Header, rest: Message)
    requires Faithful(c) && client != []
    ensures var msg := [client] + [[]] + ([c.message(BrokerResponse)] + (WriteHeader(c, h) + rest));
            FromBroker(c, client, msg) == Responded(BufferKey(h.key, client))
  {
    RetypedIs(c, [client], BrokerResponse, WriteHeader(c, h) + rest);
    HeaderRead(c, [client, []], h, rest);
    assert [client] + [[]] + (WriteHeader(c, h) + rest) == [client, []] + WriteHeader(c, h) + rest;
    hide Retyped;
  }

  // ----- what the proxy takes for what -----

  /** Frame by frame: an identity, the delimiter, some type, and flags, type and id. */
  predicate IsRequest(c: Codec, msg: Message) {
    |msg| >= 6 && msg[0] != [] && msg[1] == [] && msg[3] != [] && msg[4] != [] && msg[5] != []
  }

  /** An identity, the delimiter, the message type, and flags, type and id. */
  predicate IsResponse(c: Codec, msg: Message) {
    && |msg| >= 6 && msg[0] != [] && msg[1] == [] && msg[2] != [] && c.readMessage(msg[2]) == BrokerResponse
    && msg[3] != [] && msg[4] != [] && msg[5] != []
  }

  /** An identity, the delimiter, the message type, and type and id. */
  predicate IsReceipt(c: Codec, msg: Message) {
    && |msg| >= 5 && msg[0] != [] && msg[1] == [] && msg[2] != []
    && c.readMessage(msg[2]) in {BrokerSentReceipt, BrokerReceivedReceipt}
    && msg[3] != [] && msg[4] != []
  }

  lemma FromClientExactly<A>(c: Codec, a: A, msg: Message)
    ensures FromClient(c, a, msg) ==
              if IsRequest(c, msg) then
                Requested(BufferKey(Key(c.readKind(msg[4]), c.readId(msg[5])), a), c.readVfs(msg[3]), msg)
              else Ignored
  {
  }

  /** Whatever comes from the broker is a response, a receipt or nothing, by its frames. */
  lemma FromBrokerExactly<A>(c: Codec, a: A, msg: Message)
    ensures FromBroker(c, a, msg) ==
              if IsResponse(c, msg) then Responded(BufferKey(Key(c.readKind(msg[4]), c.readId(msg[5])), a))
              else if IsReceipt(c, msg) then
                Receipted(BufferKey(Key(c.readKind(msg[3]), c.readId(msg[4])), a), c.readMessage(msg[2]))
              else Ignored
    ensures IsResponse(c, msg) || IsReceipt(c, msg) ==>
              Retyped(c, msg) == Some((c.readMessage(msg[2]), msg[..2] + msg[3..]))
  {
    var n := Delimiter(msg);
    if |msg| >= 2 && msg[0] != [] && msg[1] == [] {
      assert Delimiter(msg[1..]) == 0 && n == 1;
    }
  }

  /** The buffer, whose entries are added, masked and erased in place. */
  class ClientRequestBuffer<A(==)> {
    var bufferedRequests: Buffer<A>

    constructor ()
      ensures bufferedRequests == map[]
    {
      bufferedRequests := map[];
    }

    method Add(k: BufferKey<A>, vfs: VersionFlags, msg: Message)
      modifies this
      ensures bufferedRequests == Added(old(bufferedRequests), k, vfs, msg)
    {
      bufferedRequests := bufferedRequests[k := Buffered(vfs, vfs.flags, msg)];
    }

    method EraseIfLastReceipt(receipt: ClusterMessage, k: BufferKey<A>)
      modifies this
      ensures bufferedRequests == Unmasked(old(bufferedRequests), receipt, k)
    {
      if k in bufferedRequests {
        var mask := bufferedRequests[k].mask;
        match receipt {
          case BrokerReceivedReceipt => mask := mask - {ReceiptOnReceive};
          case BrokerSentReceipt => mask := mask - {ReceiptOnSend};
          case _ =>
        }
        assert mask == bufferedRequests[k].mask - FlagFor(receipt);
        if ReceiptOnSend !in mask && ReceiptOnReceive !in mask {
          assert mask * RECEIPTS == {};
          Erase(k);
        } else {
          bufferedRequests := bufferedRequests[k := bufferedRequests[k].(mask := mask)];
          assert (if ReceiptOnSend in mask then ReceiptOnSend else ReceiptOnReceive) in mask * RECEIPTS;
        }
      }
    }

    method Erase(k: BufferKey<A>)
      modifies this
      ensures bufferedRequests == old(bufferedRequests) - {k}
    {
      bufferedRequests := bufferedRequests - {k};
    }
  }

  /** A buffer of which some requests wait for all their receipts again. */
  function RestoredFor<A(==)>(b: Buffer<A>, again: seq<BufferKey<A>>): Buffer<A> {
    map k | k in b :: if k in again then b[k].(mask := b[k].vfs.flags) else b[k]
  }

  lemma NoneRestored<A>(b: Buffer<A>)
    ensures RestoredFor(b, []) == b
  {
  }

  lemma RestoredOne<A>(b: Buffer<A>, again: seq<BufferKey<A>>, k: BufferKey<A>)
    requires k in b
    ensures var r := RestoredFor(b, again);
            && r.Keys == b.Keys && r[k].vfs == b[k].vfs && r[k].msg == b[k].msg
            && RestoredFor(b, again + [k]) == r[k := r[k].(mask := b[k].vfs.flags)]
  {
  }

  class ClientProxy<A(==)> {
    const requestsBuffer: ClientRequestBuffer<A>
    var toBroker: seq<Message>
    var toClients: seq<Message>

    function Buffer(): Buffer<A>
      reads this, requestsBuffer
    {
      requestsBuffer.bufferedRequests
    }

    constructor ()
      ensures Buffer() == map[] && toBroker == [] && toClients == [] && fresh(requestsBuffer)
    {
      requestsBuffer := new ClientRequestBuffer<A>();
      toBroker := [];
      toClients := [];
    }

    /** A client's message, its identity in front, is buffered if it asks for receipts, and sent on. What
        is not a request is dropped. */
    method HandleClientMessage(c: Codec, a: A, msg: ZMQMessage)
      modifies this, requestsBuffer
      ensures Buffer() == ProxyStep(old(Buffer()), FromClient(c, a, msg.frames))
      ensures toBroker == old(toBroker) + if IsRequest(c, msg.frames) then [msg.frames] else []
      ensures toClients == old(toClients)
    {
      FromClientExactly(c, a, msg.frames);
      var read := ProxyRequest(c, msg.frames);
      if read.Some? {
        var h := read.value.1;
        if h.vfs.HasAny(RECEIPTS) {
          requestsBuffer.Add(BufferKey(h.key, a), h.vfs, msg.frames);
        }
        toBroker := toBroker + [msg.frames];
      }
    }

    /** Scans to the delimiter and takes out the message type after it. */
    method TakeType(c: Codec, msg: ZMQMessage) returns (x: Option<ClusterMessage>)
      modifies msg
      ensures match Retyped(c, old(msg.frames))
              case None => x == None && msg.frames == old(msg.frames)
              case Some(read) => x == Some(read.0) && msg.frames == read.1
    {
      var n := 0;
      while n < |msg.frames| && msg.frames[n] != []
        invariant 0 <= n <= Delimiter(msg.frames)
      {
        n := n + 1;
      }
      if n >= |msg.frames| || !Filled(msg.frames, n + 1) {
        return None;
      }
      x := Some(c.readMessage(msg.frames[n + 1]));
      msg.Remove(n + 1);
    }

    /** A receipt or a response from the broker. A response takes its request out of the buffer and goes on
        to its client without the message type; nothing else goes to a client. */
    method HandleBrokerMessage(c: Codec, a: A, msg: ZMQMessage)
      modifies this, requestsBuffer, msg
      ensures var e := FromBroker(c, a, old(msg.frames));
              && Buffer() == ProxyStep(old(Buffer()), e) && toBroker == old(toBroker)
              && (Retyped(c, old(msg.frames)).Some? ==> msg.frames == Retyped(c, old(msg.frames)).value.1)
      ensures var frames := old(msg.frames);
              if IsResponse(c, frames) then
                && Buffer() == old(Buffer()) - {BufferKey(Key(c.readKind(frames[4]), c.readId(frames[5])), a)}
                && toClients == old(toClients) + [frames[..2] + frames[3..]]
              else toClients == old(toClients)
    {
      FromBrokerExactly(c, a, msg.frames);
      var x := TakeType(c, msg);
      if x.Some? {
        if x.value == BrokerSentReceipt || x.value == BrokerReceivedReceipt {
          var read := ProxyReceipt(c, msg.frames);
          if read.Some? {
            requestsBuffer.EraseIfLastReceipt(x.value, BufferKey(read.value.1, a));
          }
        } else if x.value == BrokerResponse {
          var read := ProxyResponse(c, msg.frames);
          if read.Some? {
            requestsBuffer.Erase(BufferKey(read.value.1.key, a));
            toClients := toClients + [msg.frames];
          }
        }
      }
    }

    /** After the broker died: every buffered request is sent once more, in full, and waits for all its
        receipts again. */
    method Restart(order: seq<BufferKey<A>>)
      requires forall k :: k in order <==> k in Buffer()
      requires forall i, j :: 0 <= i < j < |order| ==> order[i] != order[j]
      modifies this, requestsBuffer
      ensures Buffer() == ProxyStep(old(Buffer()), Restarted)
      ensures |toBroker| == |old(toBroker)| + |order| && old(toBroker) <= toBroker && toClients == old(toClients)
      ensures forall i :: 0 <= i < |order| ==> toBroker[|old(toBroker)| + i] == old(Buffer())[order[i]].msg
    {
      ghost var b := Buffer();
      NoneRestored(b);
      var i := 0;
      while i < |order|
        invariant 0 <= i <= |order| && toClients == old(toClients)
        invariant |toBroker| == |old(toBroker)| + i && old(toBroker) <= toBroker
        invariant forall j :: 0 <= j < i ==> toBroker[|old(toBroker)| + j] == b[order[j]].msg
        invariant Buffer() == RestoredFor(b, order[..i])
      {
        var k := order[i];
        assert k in order;
        RestoredOne(b, order[..i], k);
        assert order[..i + 1] == order[..i] + [k];
        hide RestoredFor;
        var entry := requestsBuffer.bufferedRequests[k];
        toBroker := toBroker + [entry.msg];
        requestsBuffer.bufferedRequests := requestsBuffer.bufferedRequests[k := entry.(mask := entry.vfs.flags)];
        i := i + 1;
      }
      assert order[..i] == order;
      assert RestoredFor(b, order) == Restore(b);
    }
  }
}

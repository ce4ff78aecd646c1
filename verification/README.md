# Verification of LHCluster's request routing

LHCluster routes requests from clients to workers through one broker. A request is known by its type
and id. The broker keeps, for each type, a list of pending requests, a table of all its requests and a
set of available workers, and for each worker the requests it holds and its free capacity. Workers
register, finish requests and die; requests are queued, handed over, redirected, retried and failed; a
proxy buffers the requests of its clients until the receipts they asked for have come.

This project is a Dafny model of that machinery, written from the code of `liblhcluster`, with proofs
of what it guarantees over every run, and, where the code departs from its stated intent, of exactly
when it does. `dafny verify dfyconfig.toml` checks everything.

## How it is built

- `Cluster`, `RequestContexts`, `Scheduler`: keys, flags and frames; the context of a request type; and
  what each broker handler does to the state, branch for branch as the code does it. Everything a run
  does not control is a parameter (`Env`): which sends to workers and which send receipts succeed, which
  available worker an unordered set yields, in which order unordered tables are walked. Sends and
  branches append to a history (`log`) that no branch reads.
- `AbstractScheduler`: the simple scheduler that is meant. A job waits, runs at one worker or is lost,
  and an action is legal only in the right place; receipts, rejections and notices are actions too.
- `Agreement`, `Forwarding`, `Requests`, `Workers`, `Deaths`, `Safety`: the invariant `Inv` says that
  lists, cursors, request tables, worker tables and available sets agree with each other, that capacity
  is conserved, and that the history is a legal run of the abstract scheduler ending in the state the
  tables represent. Every handler keeps it exactly when the event is sound, whatever sends fail.
- `Availability`, `RoundRobin`, `Conservation`: who is offered for what, how a new worker's capacity is
  dealt out, work conservation and the absence of over-commitment.
- `Departures`, `Stranding`, `Headcounts`: the exact conditions under which the code meets its intent.
- `Pulses`: a whole pulse check: who outlives it, and what becomes of every request.
- `Effects`: what each event does to the requests that are known and to when workers were heard of: a
  request once asked for is kept until one of its ends comes.
- `Retrying`: what a worker that becomes ready or finishes leaves waiting, whatever sends fail.
- `Counterexamples`, `LostReceipts`: runs on which the intent fails. `Environments`: there are
  environments as these and the run theorems suppose them.
- `BrokerTables`, `Broker`: the same broker as objects with fields updated in place and loops with
  breaks. Each method is proved to do to the state what its specification function does, and `Serve`
  that a broker serving any events reaches the state the specification runs to.
- `Heartbeats`: a timed model around the broker's state; a worker that keeps its timer going is never
  declared dead, and the bound for that is exact.
- `Wire`, `PlainCodec`, `Hops`, `Endpoints`: messages as frames, every hop of a request and its
  response, the round trip, and the hops that edit a message in place. Values are written to frames by
  any faithful encoding, a parameter; `PlainCodec` shows that there is one.
- `Reactor`: the broker's message handlers, from frames to events of the scheduler and back.
- `Proxy`: the client proxy's buffer, and delivery over runs with any number of broker deaths.
- `WorkerTables`, `Worker`: the worker's tables over any run, and the worker as an object.

## Where the code departs from its intent

The model keeps the code as it is. Each departure has an exact condition, a run, or both.

- Exhausted workers stay available (broker.cxx:1516-1535): removal stops at the current type. After a
  worker becomes ready it is offered without capacity when `StopsEarly` holds of its capacity and the
  pending counts (`ReadySpareIff`); never for a capacity of at most 1; run: `ExhaustedYetAvailable`.
  Removal up to a type is full removal exactly when the worker is in no later type's set
  (`WithdrawEnoughIff`).
- A send receipt that does not get out makes a hand-over that did happen count as failed
  (broker.cxx:2793-2803, 2882-2888). This has four effects, each with its exact condition:
  - a new request, or one retried directly after a death, is queued although a worker has it: exactly in
    the case `ReceiptLost` (`ClientRequestAgreesIff`), and for a death or a whole pulse check exactly when
    some retry on the way meets `MoveReceiptLost` (`DeathAgreesIff`, `PulseAgreesIff`); run:
    `QueuedYetHeld`. The repository's README promises no duplicate work for a request that is pending or
    in progress; this is the case in which there is;
  - a worker that becomes ready is left with free capacity beside a pending request, exactly when
    `ReadyForgets` (`ReadyServedIff`); run: `PendingBesideCapacity`;
  - its running out of capacity goes unnoticed, exactly when `ReadySpoils` (`ReadySpareIff`) on becoming
    ready and `FinishSpoils` (`FinishedSpareIff`) on a finish beside which no work was left, and it stays
    available; run: `FinishedYetOffered`. On any finish, that and early removal together are `FinishSlips`
    (`FinishSlipsIff`);
  - it is given more than it can take, exactly when `ReadyOverruns` (`ReadyOvercommitsIff`): in some round
    its last unit goes to a request with a lost receipt while a later type has a pending request; run:
    `GivenTooMuch`. Capacity is dealt out evenly and in full exactly when neither this nor the second
    happens (`ReadyRoundRobinIff`).
- A send that fails in the first pass of a ready or a finish is tried again in the rounds
  (broker.cxx:1419, 2085), one that fails in a round is not, if nothing else asks for another round: what is
  left beside capacity is exactly what failed in the last round (`ReadyServedExactly`,
  `FinishedServedExactly`); run: `FailedInRound`.
- Direct retries are not recorded (broker.cxx:1661-1666): the record keeps the dead worker's name and
  the old count, exactly when the retry was not queued (`RetryRecordedIff`), so hand-overs are not
  bounded (`RetriesUnbounded`), although cluster.h:162 promises one retry.
- A direct hand-over refreshes the worker's last-active time, not the broker's (broker.cxx:2875): a worker
  not heard of outlives a pulse check exactly when the check gives it a retry (`PulseSurvivorsIff`); run:
  `SilentYetKept`.
- Requests with their tries used up and no wish to be notified match no branch (broker.cxx:1647-1746):
  exactly these are left in progress at no worker (`DeathStrandsIff`), for ever (`StrandedForever`);
  run: `AbandonedForGood`.
- Erasing a finished request assumes it is in progress (brokerrequesttypecontext.cxx:47): the tables stay
  in agreement exactly when the finish names a request the worker holds or one that is in no list and no
  hands (`FinishedAgreesIff`); runs: `FinishedInQueue` leaves a list node without a record,
  `FinishedElsewhere` a worker with a request nobody knows.
- A redirect is addressed to the worker the record names (broker.cxx:2570-2591), which a direct retry does
  not change: it reaches the worker that has the request exactly when the last hand-over was to the worker
  named (`RedirectReachesIff`); run: `RedirectAstray`. No table disagrees after it.
- A type listed twice is counted twice (broker.cxx:847-852): headcounts stay right exactly when a ready
  worker's types are distinct (`ReadyCountedIff`). When such a worker dies its requests are settled twice,
  and one that is queued again is in its list twice; run: `SettledTwice`.
- Rejections and death notices are sent without the message type their receiver looks for, death notices
  of requests that were not kept without the delimiter as well (broker.cxx:2473-2543): no client ever
  reads one (`RejectionUnread`, `DeathNoticeUnread`).
- The proxy's buffer compares the addresses of identity frames (clientrequestbuffer.h:16-21), and no frame
  it reads is one it keeps: no receipt and no response is ever matched with its request, and everything
  that asked for a receipt is sent again with each new broker (`NeverErased`). What the proxy guarantees
  (`Delivery`) is proved for any way of telling clients apart, this one and the intended one.
- A worker's processor is stopped and started again on a reconnect (worker.cxx:800), the worker's tables
  are not told: what was in the processor is in progress for ever, is never passed to it again, and counts
  against the capacity advertised (`LostForGood`).

An event is sound (`Sound`) when it respects those of these conditions that concern the agreement of the
tables: distinct types, finishes, and receipts of direct hand-overs. Nothing else is asked: requests and
receipts may fail to be sent, clients may ask again for anything, workers may come and go, and events may
come in any order. Soundness is exact: the
tables agree after an event if and only if it is sound (`StepAgreesIff`), so a run is sound if and only if
they agree in every state on its way (`SoundRunIff`).

## Model

| member | source | states |
|---|---|---|
| Scheduler.ForwardQueued | liblhcluster/src/broker.cxx:2750-2831 | A send that reports success has lowered the worker's free capacity; no send raises it, or registers or forgets a worker |
| Scheduler.Sweep | liblhcluster/src/broker.cxx:1463-1562 | A round of sweeping asks for another only if it handed something over and lowered the free capacity, which is why the rounds end whatever sends fail |
| Scheduler.Withdraw | liblhcluster/src/broker.cxx:1516-1535 | Withdrawing a worker adds nobody to any type's set and changes no worker |
| Agreement.AppendKeeps | liblhcluster/src/brokerrequesttypecontext.cxx:51-74 | A request in no list is linked once at the end, its cursor on its own node, and every other node and cursor still agree |
| Agreement.EraseFirst | liblhcluster/src/brokerrequesttypecontext.cxx:143-149 | Assigning the first pending request through its cursor erases exactly the head of the list, and list and table still agree |
| Agreement.RemoveKeepsIff | liblhcluster/src/brokerrequesttypecontext.cxx:45-49 | Erasing a request leaves no dangling node exactly when it was not queued |
| Agreement.PutSamePlace | liblhcluster/src/requeststate.cxx:54-80 | Replacing a request's message and flags where it is leaves list and table in agreement |
| Agreement.HoldingOneMore | liblhcluster/src/workerinfo.cxx:149-159 | Taking a request one does not hold, of a supported type, keeps free capacity plus held requests equal to what was advertised plus stray finishes |
| Forwarding.DispatchJob | liblhcluster/src/broker.cxx:2771-2821 | A request handed over from the queue keeps the copy its flags need, is counted once more, and owes no send receipt any more |
| Forwarding.ForwardQueuedAgrees | liblhcluster/src/broker.cxx:2750-2831 | Handing the head of a list to a worker of its type keeps all tables in agreement, whether the send works or not, and with or without its receipt |
| Forwarding.StartAgrees | liblhcluster/src/broker.cxx:2835-2916 | So does sending a new request directly |
| Requests.RepeatedRequestAgrees | liblhcluster/src/broker.cxx:2566-2653 | So does the same type and id again, queued or in progress, redirected or rejected, wherever the redirect goes |
| Requests.AcceptAgrees | liblhcluster/src/broker.cxx:2710-2743 | So does queueing a new request at the end of its type's list, new type or not |
| Requests.LostBreaks | liblhcluster/src/broker.cxx:2666-2684 | A new request whose receipt is lost ends up queued and held by the worker at once |
| Requests.ClientRequestAgreesIff | liblhcluster/src/broker.cxx:2545-2748 | A client request keeps the tables in agreement exactly when no receipt is lost after a new request itself went out |
| Workers.SweepAgrees | liblhcluster/src/broker.cxx:1469-1561 | One round over a worker's types keeps the tables in agreement, whatever sends fail and wherever it stops |
| Workers.NewWorkerPassAgrees | liblhcluster/src/broker.cxx:1336-1449 | So does the first pass over a new worker's types, which also makes their contexts |
| Workers.ReadyAgrees | liblhcluster/src/broker.cxx:745-883 | So does a whole worker-ready, of a new or a known worker, with any capacity |
| Workers.FinishReplays | liblhcluster/src/broker.cxx:1953-1955 | A finish ends the life of a request its worker runs, or of a lost one; a finish for an unknown request ends nothing |
| Workers.FinishPassAgrees | liblhcluster/src/broker.cxx:1995-2107 | The first pass after a finish keeps the tables in agreement, the finished request being erased on the way or not yet |
| Workers.FinishedAgrees | liblhcluster/src/broker.cxx:1970-2245 | So does a whole finish that names a request the worker holds, or one in no list and no hands |
| Deaths.SettleAgrees | liblhcluster/src/broker.cxx:1640-1747 | Settling one request of a dead worker keeps the tables in agreement and leaves one request fewer to settle |
| Deaths.SettleFate | liblhcluster/src/broker.cxx:1647-1746 | By its flags and count it is queued again or held by another worker, left alone, or failed and gone |
| Deaths.DeathAgrees | liblhcluster/src/broker.cxx:1587-1779 | While no direct retry on the way loses a receipt it owes: after a death the tables agree without the worker; each request it held met the fate its flags and count decide, and every other request is untouched |
| Deaths.RemoveWorkerAgrees | liblhcluster/src/broker.cxx:729-736 | Once its types are left and its requests settled, no list, no available set and no other worker refers to the removed worker or to its requests; the records of stranded and of directly retried requests may still name it |
| Deaths.PulseAgrees | liblhcluster/src/broker.cxx:696-743 | A pulse check that removes any number of workers, in any order, keeps the tables in agreement while no direct retry on the way loses a receipt it owes |
| Safety.StepAgrees | liblhcluster/src/broker.cxx:696-2916 | Every sound event keeps the invariant |
| Safety.RunAgrees | liblhcluster/src/broker.cxx:696-2916 | In every state a sound run reaches the tables agree, and the whole history is a legal run of the abstract scheduler ending in what they represent |
| Safety.OnePlace | liblhcluster/src/brokerrequesttypecontext.cxx:32-74 | A known request is in its list exactly once, under its own cursor, and in nobody's hands; or in no list and in at most one worker's hands; it is in none exactly when a death lost it |
| Safety.NothingDangles | liblhcluster/src/broker.cxx:1587-1779 | Every list node and every held key names a known request, and every available worker is registered |
| Safety.LifeOf | liblhcluster/src/requeststate.cxx:7-52 | Hand-overs are the recorded tries plus the direct retries; a never redirected request that asked for a send receipt got exactly one attempt at it, others none; the stored copy is what a retry or a notification needs; and the record names the worker that has the request, unless the last hand-over was a direct retry or a death stranded it |
| Safety.CapacityConserved | liblhcluster/src/workerinfo.cxx:149-167 | Over any sound run free capacity plus held requests is the advertised capacity plus finishes for requests not held, and held requests are of supported types |
| Safety.HistoryAsAsked | liblhcluster/src/broker.cxx:2412-2543 | Over any sound run a worker is sent exactly what was last asked for under the key, and every send receipt, redirect notice, rejection and death notice is for it: sent if and only if its flags ask for it, along the envelope of the client that asked last |
| Safety.HeldIsHistory | liblhcluster/src/broker.cxx:696-2916 | When the tables agree, a worker holds a request exactly if it is the one to which the history handed it last, with no answer, loss or return since |
| Safety.RedirectReachesIff | liblhcluster/src/broker.cxx:2566-2653 | After any sound run, a redirect that gets out goes to the worker the request was last handed to otherwise than by a direct retry; that worker has the request exactly if it was also the last to be handed it at all, and lacks it only if the last hand-over was a direct retry or a death left the request nowhere |
| Safety.QueueHistory | liblhcluster/src/brokerrequesttypecontext.cxx:51-93 | In any legal history what entered a type's queue is what left it followed by what is in it |
| Safety.FirstInFirstOut | liblhcluster/src/brokerrequesttypecontext.cxx:51-93 | Over any sound run requests leave a type's list for workers in the order they entered it, retries entering at the tail, and failed sends and redirects change nothing |
| Availability.ClientRequestShelved | liblhcluster/src/broker.cxx:2655-2743 | A client request leaves every worker with capacity offered for all its types, and headcounts right |
| Availability.ReadyShelved | liblhcluster/src/broker.cxx:1336-1449 | A ready worker is counted for each of its types and, while it has capacity, offered for each |
| Availability.FinishedShelved | liblhcluster/src/broker.cxx:1995-2107 | A worker whose finish leaves it capacity is offered for each of its types again |
| Availability.DeathShelved | liblhcluster/src/broker.cxx:1617-1629 | A dead worker is counted for nothing and everybody else is offered as before |
| Availability.RunShelved | liblhcluster/src/broker.cxx:1315-2245 | In every state a sound run reaches, whatever sends fail, registered workers with capacity are available for each of their types, and each type's count is the number of workers that support it |
| RoundRobin.RunsOutOnce | liblhcluster/src/broker.cxx:1463-1562 | A deal has at most one turn at which a given capacity runs out |
| RoundRobin.SmallNeverStopsEarly | liblhcluster/src/broker.cxx:1516-1535 | With a capacity of at most 1, or a single type, capacity never runs out early |
| RoundRobin.HeadSent | liblhcluster/src/broker.cxx:2750-2831 | When requests get out, handing over takes exactly the head of one list and one unit of capacity, changes no set, no other list and no other worker, and is reported to have worked exactly if no receipt the head owes was lost |
| RoundRobin.WithdrawEnoughIff | liblhcluster/src/broker.cxx:2043-2058 | Removal up to the current type equals removal from all types exactly when the worker is in no later type's set |
| RoundRobin.SweepDeals | liblhcluster/src/broker.cxx:1469-1561 | A round in which the last unit of capacity is not lost sight of while a later type waits gives one turn to each type, or stops where the capacity runs out: with the worker left in the later types' sets, or in all of them if a lost receipt hid it |
| RoundRobin.SweepLeaves | liblhcluster/src/broker.cxx:1469-1561 | A round that reports nothing more to do has left nothing, exactly if no lost receipt hid that its type has more |
| RoundRobin.SweepWaits | liblhcluster/src/broker.cxx:1463-1562 | A round leaves capacity exactly if there was more of it than types with a pending request, and then asks for another exactly if some type had more than one, in sight |
| RoundRobin.ReadyRoundRobinIff | liblhcluster/src/broker.cxx:1336-1562 | A new worker gets exactly the smaller of its capacity and the pending requests of its types, from the front of each list, every type having given after some number of rounds what it had, up to one more for the first few; exactly if the rounds do not end with a lost receipt hiding that there is more to do, and in none the last unit goes to a request with a lost receipt while a later type has a pending request |
| RoundRobin.ReadyOvercommitsIff | liblhcluster/src/broker.cxx:1486-1535 | A worker that becomes ready is given more than it can take exactly if, in some round, its last unit of capacity goes to a request whose receipt is lost while a later type of the round has a pending request |
| Conservation.ReadyServedIff | liblhcluster/src/broker.cxx:1463-1562 | After a worker-ready no worker has free capacity beside a pending request it supports, exactly if no lost receipt hid that there was more to do |
| Conservation.ReadySpareIff | liblhcluster/src/broker.cxx:1516-1535 | After a worker-ready nobody is offered without capacity or over-committed, exactly when no lost receipt hides that the capacity ran out, and it does not run out early, or would only have if a lost receipt had not ended the deal |
| Conservation.FinishedServed | liblhcluster/src/broker.cxx:1995-2236 | A finish leaves no worker with free capacity beside a pending request it supports, whatever receipts are lost |
| Conservation.FinishedSpareIff | liblhcluster/src/broker.cxx:2037-2061 | After a finish removal up to the current type is enough, exactly if the worker's last unit of capacity does not go to a request whose receipt is lost |
| Conservation.FinishSlipsIff | liblhcluster/src/broker.cxx:1995-2236 | After a finish nobody is offered without capacity or over-committed, whatever work was pending beside capacity before, exactly if at no turn the worker's last unit goes to a request whose receipt is lost, or goes while there is a later type for which it was offered |
| Conservation.ClientConserves | liblhcluster/src/broker.cxx:2655-2743 | A client request whose receipt is not lost is queued only if no worker with capacity supports it, and the worker it goes to is withdrawn when full |
| Conservation.DeathConserves | liblhcluster/src/broker.cxx:1651-1721 | So it is for the retries of a dead worker |
| Conservation.WorkConservedIff | liblhcluster/src/broker.cxx:1315-2743 | When requests get out, no state on the way of a run has a registered worker with free capacity and a pending request of a type it supports, exactly if no lost receipt ever hid from a worker that became ready that there was more to do |
| Conservation.CapacitySparedIff | liblhcluster/src/broker.cxx:1315-2743 | When requests get out, no state on the way of a run has a worker offered without capacity or given more than it can take, exactly if no lost receipt ever hid that a worker's capacity had run out, no ready worker's ran out early, and no last unit went after a finish while the worker was offered for a later type |
| Conservation.SentRemembered | liblhcluster/src/broker.cxx:1315-1562 | While receipts get out as well nothing is ever forgotten |
| Conservation.AvailableExactly | liblhcluster/src/broker.cxx:1315-2743 | On a run that meets both conditions a type's available set is exactly the registered workers that support it and have free capacity, empty while the type has pending requests, and its count is right |
| Departures.FinishedAgreesIff | liblhcluster/src/broker.cxx:1970-2245 | A finish keeps the tables in agreement exactly when it names a request the worker holds, or one in no list and no hands |
| Departures.SettleAgreesIff | liblhcluster/src/broker.cxx:1651-1721 | Settling a dead worker's request keeps them in agreement exactly when no receipt is lost after a direct retry went out |
| Departures.DeathAgreesIff | liblhcluster/src/broker.cxx:1587-1779 | So is a whole death, exactly when no direct retry on the way loses a receipt it owes |
| Departures.PulseAgreesIff | liblhcluster/src/broker.cxx:696-743 | And a whole pulse check: once a receipt is lost, its request stays queued and held whatever the rest of the check does |
| Departures.StepAgreesIff | liblhcluster/src/broker.cxx:614-2916 | The tables agree after an event exactly if it is sound |
| Departures.SoundRunIff | liblhcluster/src/broker.cxx:614-2916 | A run is sound exactly if the tables agree, and represent what the history led to, in every state on its way |
| Departures.RetryRecordedIff | liblhcluster/src/broker.cxx:1651-1721 | The count in a retried request's record is still its number of hand-overs exactly if no worker was available or the send failed; then it is queued, else it is in progress at another worker under the old worker's name, one hand-over short |
| Stranding.DeathStrandsIff | liblhcluster/src/broker.cxx:1647-1746 | A death in which no direct retry loses a receipt leaves in progress at no worker exactly the requests that were, and those of the dead worker with retries asked for and used up and no notification asked for |
| Stranding.StrandedForever | liblhcluster/src/broker.cxx:1647-1746 | Such a request stays so in every sound continuation of the run, also when its client asks for it again, unless a finish names it |
| Pulses.PulseSurvivorsIff | liblhcluster/src/broker.cxx:696-743 | A pulse check leaves exactly the workers heard of in time and those that are picked, on its walk over the dead ones, for a request that may be retried while some worker is available and requests get out; and all it leaves pass for alive |
| Pulses.PulseSettles | liblhcluster/src/broker.cxx:696-743 | Over a whole check, however many workers it removes: each request a removed worker held has met the one fate its flags and count decide, also if it was moved to a worker removed later; one that failed is gone, and the last its history says is the death notice its flags ask for; all others have the record, the holder and the history they had; and the tables agree |
| Effects.NewRequestKept | liblhcluster/src/broker.cxx:2655-2743 | Whatever is sent or lost, a new request is never dropped: it goes to one worker that was available if the send gets out, and if not, or if nobody is available, it waits behind all others with its flags and its message; no other request, list or worker changes |
| Effects.AskedTakes | liblhcluster/src/broker.cxx:2655-2684 | The worker it goes to is the one an unordered set of available workers yields first; it has the request, one unit less, and counts as heard of |
| Effects.RepeatedServes | liblhcluster/src/broker.cxx:2566-2653 | The same request again changes its own record only: rejected, and nothing else, if redirects are not allowed; else from now on the new client's, where it waits or, if the redirect gets out, at the worker; with notice to the former client and a receipt to the new one as their flags ask |
| Effects.ReadyServes | liblhcluster/src/broker.cxx:745-883 | A worker taken up is registered with its types and its delay and as heard of now; no other worker changes, no request becomes known or unknown, and the only records that change are of requests that left their lists for it |
| Effects.FinishedServes | liblhcluster/src/broker.cxx:1939-1955 | A finish from a registered worker ends exactly the request it names, counts as hearing of the worker, and otherwise changes only records of requests that left their lists for it |
| Effects.KnownAfter | liblhcluster/src/broker.cxx:614-2916 | After any sound event a request is known exactly if it was or is asked for, and the event is not one of its ends: a finish for it, or a pulse check that removes its holder when it may be neither retried nor left alone |
| Effects.KnownUntilEnded | liblhcluster/src/broker.cxx:614-2916 | Over any sound run, whatever sends and receipts fail, a request once asked for stays known until one of its ends comes |
| Effects.HeardExactly | liblhcluster/src/broker.cxx:885-993 | After any event a worker that stays was last heard of now exactly if it finished something, sent a receipt or a heartbeat dated in the past with an acceptable delay, or was sent a request directly; else when it was before; and only such a heartbeat sets its delay |
| Retrying.ReadyLeaves | liblhcluster/src/broker.cxx:1336-1562 | Whatever sends fail, beside the capacity a ready worker has left nothing waits but what its turn in the last round tried and failed to send, or what is behind something whose receipt was lost there; each list is as that turn left it; what the first pass failed to send has been tried again |
| Retrying.FinishedLeaves | liblhcluster/src/broker.cxx:1995-2236 | So it is after a finish |
| Retrying.ReadyServedExactly | liblhcluster/src/broker.cxx:1336-1562 | A ready keeps work conserved, whatever sends fail, exactly if its capacity is used up, no round was asked for, or no turn of the last round leaves anything |
| Retrying.FinishedServedExactly | liblhcluster/src/broker.cxx:1995-2236 | So does a finish |
| Retrying.ReadyRetries | liblhcluster/src/broker.cxx:1415-1423 | If everything from the end of the first pass on gets out, nothing that pass failed to send stays behind capacity |
| Retrying.FinishedRetries | liblhcluster/src/broker.cxx:2073-2089 | So it is after a finish |
| Headcounts.ReadyCountedIff | liblhcluster/src/broker.cxx:847-852 | Headcounts stay right when a worker becomes ready exactly when it lists no type twice |
| Counterexamples.ExhaustedYetAvailable | liblhcluster/src/broker.cxx:1516-1535 | Capacity 3 with two requests of one type and one of the next leaves the worker at no capacity and available |
| Counterexamples.RetriesUnbounded | liblhcluster/src/broker.cxx:1651-1666 | For every n there is a sound run on which one request is handed over n + 1 times while its try count stays 1 |
| Counterexamples.SilentYetKept | liblhcluster/src/broker.cxx:2875-2875 | Two workers have both been silent too long; the check removes one and keeps the other for the request it moved there |
| Counterexamples.AbandonedForGood | liblhcluster/src/broker.cxx:1647-1746 | A sound run after which a request is in progress although no worker is registered |
| Counterexamples.RedirectAstray | liblhcluster/src/broker.cxx:2566-2653 | The holder of a request dies, the request is retried directly, its client asks again: the redirect goes to the dead worker while the other one has the request |
| Counterexamples.FinishedInQueue | liblhcluster/src/brokerrequesttypecontext.cxx:45-49 | A finish that names a waiting request leaves its list node without a record |
| Counterexamples.FinishedElsewhere | liblhcluster/src/brokerrequesttypecontext.cxx:45-49 | A finish that names another worker's request leaves that worker with a request that is not known any more |
| Counterexamples.SettledTwice | liblhcluster/src/broker.cxx:1605-1752 | A worker that listed one type twice dies: its one request is in the list twice |
| LostReceipts.PendingBesideCapacity | liblhcluster/src/broker.cxx:1463-1562 | Three requests that want send receipts, a worker with capacity for five, and receipts not getting out: one request waits beside three free units |
| LostReceipts.GivenTooMuch | liblhcluster/src/broker.cxx:1463-1562 | Two requests of each of two types that want send receipts, a worker with capacity for three, and receipts not getting out: it is given all four |
| LostReceipts.FinishedYetOffered | liblhcluster/src/broker.cxx:1995-2107 | A worker that takes one request at a time finishes it and is given another whose receipt is lost: it is available with no capacity |
| LostReceipts.FailedInRound | liblhcluster/src/broker.cxx:1538-1550 | Everything gets out but one send in a round: the request waits beside two units of capacity |
| LostReceipts.QueuedYetHeld | liblhcluster/src/broker.cxx:2882-2888 | When receipts do not get out, a first request for one is queued and held at once |
| BrokerTables.BrokerRequestTypeContext.AddInProgressRequest | liblhcluster/src/brokerrequesttypecontext.cxx:32-43 | Adds a record only if there is none, and keeps list and table in agreement |
| BrokerTables.BrokerRequestTypeContext.RemoveInProgressRequest | liblhcluster/src/brokerrequesttypecontext.cxx:45-49 | Erases the record; the list survives exactly if it was not queued |
| BrokerTables.BrokerRequestTypeContext.AddPendingRequest | liblhcluster/src/brokerrequesttypecontext.cxx:51-67 | Links a node at the end and points the request's cursor at it, keeping an existing record |
| BrokerTables.BrokerRequestTypeContext.BackToPending | liblhcluster/src/brokerrequesttypecontext.cxx:69-74 | The same for a request in progress |
| BrokerTables.BrokerRequestTypeContext.AssignWorkerFromPending | liblhcluster/src/brokerrequesttypecontext.cxx:143-149 | Erases the node under the cursor and counts the try; the head's node is the head |
| BrokerTables.BrokerRequestTypeContext.UpdateRequest | liblhcluster/src/requeststate.cxx:54-80 | Replaces message and flags in place |
| BrokerTables.WorkerInfo.AddInProgressRequest | liblhcluster/src/workerinfo.cxx:149-159 | Holds one request more with one unit of capacity less, conserving capacity |
| BrokerTables.WorkerInfo.RemoveInProgressRequest | liblhcluster/src/workerinfo.cxx:161-167 | Gives the unit back whether or not the request was held, conserving capacity up to stray finishes |
| Broker.Broker.Withdraw | liblhcluster/src/broker.cxx:1516-1535 | The loop over the first types of a worker removes it from exactly their sets |
| Broker.Broker.HandleCopiedRequest | liblhcluster/src/broker.cxx:2351-2410 | Sends the receipt asked for and keeps the copy the flags ask for, and returns the receipt's outcome |
| Broker.Broker.ForwardQueued | liblhcluster/src/broker.cxx:2750-2831 | Sends a queued request; all tables change if the send succeeds, none if it fails |
| Broker.Broker.ForwardDirect | liblhcluster/src/broker.cxx:2835-2916 | Sends a request that is in no queue, recording it only if it has no record |
| Broker.Broker.OneRound | liblhcluster/src/broker.cxx:1469-1561 | The sweep loop with its break is the specified round |
| Broker.Broker.SweepIn | liblhcluster/src/broker.cxx:1463-1562 | The loop of rounds ends and is the specified rounds |
| Broker.Broker.FirstPass | liblhcluster/src/broker.cxx:1336-1449 | The loop over a new worker's types is the specified pass |
| Broker.Broker.HandleWorkerReady | liblhcluster/src/broker.cxx:745-883 | Registers a new worker and updates the contexts as specified; ignores a known one, a negative capacity and a ready that lists no type |
| Broker.Broker.FinishPass | liblhcluster/src/broker.cxx:1995-2107 | The loop over a finished worker's types, erasing on the way and breaking when full, is the specified pass |
| Broker.Broker.HandleWorkerFinished | liblhcluster/src/broker.cxx:1939-1955 | Releases the request and updates the contexts as specified |
| Broker.Broker.RepeatedRequest | liblhcluster/src/broker.cxx:2566-2653 | Redirects or rejects a repeated request as specified, with the notice asked for |
| Broker.Broker.ForwardParsedClientRequest | liblhcluster/src/broker.cxx:2545-2748 | Handles a client request as specified |
| Broker.Broker.Settle | liblhcluster/src/broker.cxx:1640-1747 | Settles one request of a dead worker as specified |
| Broker.Broker.UpdateContextsForDeadWorker | liblhcluster/src/broker.cxx:1587-1779 | The loops over a dead worker's types and requests are the specified death |
| Broker.Broker.CheckWorkersPulse | liblhcluster/src/broker.cxx:696-743 | The loop over all workers removes the dead ones as specified |
| Broker.Broker.HandleWorkerHeartbeat | liblhcluster/src/broker.cxx:885-993 | A heartbeat sent in the past with an acceptable delay refreshes the worker's times; any other changes nothing |
| Broker.Broker.HandleWorkerReceipt | liblhcluster/src/broker.cxx:2975-3016 | A worker's receipt refreshes its time |
| Broker.Serve | liblhcluster/src/broker.cxx:614-656 | A broker serving any events reaches the state its specification runs to, and the invariant if they are sound |
| Environments.FairEnvironment | liblhcluster/src/broker.cxx:614-656 | Whichever requests and receipts get out, there is an environment of that kind as the run theorems suppose it |
| Reactor.HandleFrontendMessage | liblhcluster/src/broker.cxx:995-1065 | A well-formed new request from a client's side is asked of the scheduler, with its message type taken out; anything else changes nothing |
| Reactor.HandleBackendMessage | liblhcluster/src/broker.cxx:1094-1226 | A ready, a heartbeat, a finish or a receipt, parsed frame by frame, does to the schedule what it should for the worker it came from, malformed ones nothing; a receipt is relayed, and a finish unless it answers a one-way request |
| Reactor.RequestIsAsked | liblhcluster/src/broker.cxx:2247-2324 | What a client sends through its proxy reaches the scheduler with its flags, type and id, and with an envelope that leads back to it |
| Reactor.AnswerIsFinish | liblhcluster/src/broker.cxx:1781-1955 | What a worker answers is a finish of that worker for that request, relayed along the envelope it was asked with |
| Reactor.WorkerIsHeard | liblhcluster/src/broker.cxx:745-993 | What a worker says of itself, its capacity, delay and types in their order, is what the scheduler learns, and a heartbeat is one |
| Reactor.ReceiptIsRelayed | liblhcluster/src/broker.cxx:2975-3016 | A worker's receipt for a request counts as hearing of the worker and goes on along the request's envelope; at the proxy it is one for that client's request |
| Reactor.FrontendExactly | liblhcluster/src/broker.cxx:995-1065 | Frame by frame, what is taken for a new request, with which flags, type and id, and what is nothing |
| Reactor.BackendExactly | liblhcluster/src/broker.cxx:1094-1226 | Frame by frame, what is taken for a ready, a heartbeat, a finish or a receipt, with which values, what of it is relayed, and what is nothing |
| Heartbeats.PulseHeard | liblhcluster/src/broker.cxx:696-743 | A pulse check leaves alone a worker that is alive when it begins, whomever else it removes |
| Heartbeats.StepHeard | liblhcluster/src/broker.cxx:696-2916 | No handler forgets a live worker or remembers hearing of it earlier than it did |
| Heartbeats.NoFalseDeath | liblhcluster/src/worker.cxx:826-868 | While the timer fires within its period and messages take no longer than the latency, and delay, period and latency are together at most twice the broker's delay, the worker is never declared dead |
| Heartbeats.LateIsDead | liblhcluster/src/workerinfo.cxx:86-106 | When they are more, by however little, a worker on time with everything can be dead to a pulse check |
| Wire.ZMQMessageEnvCopy | liblhcluster/src/utils.cxx:54-64 | Appends exactly the frames before the first empty one, leaving the source as it was |
| Wire.ZMQMessageEnvMove | liblhcluster/src/utils.cxx:66-79 | Moves them, and drops the delimiter |
| Wire.EnvelopeOf | liblhcluster/src/broker.cxx:1005-1020 | An envelope of non-empty frames is found again in front of its delimiter, whatever follows |
| Hops.NewRequestReads | liblhcluster/src/worker.cxx:1297-1440 | A worker reads back the envelope, flags, type and id it was sent, and passes on the header and the data |
| Hops.ProcessAnswers | liblhcluster/src/requestprocessor.cxx:215-298 | The handler gets what the header says and the data; the answer carries the same header, its status and its data |
| Hops.FinishReads | liblhcluster/src/worker.cxx:1026-1068 | A finish reaches the broker as one, with its envelope, for the request it is for |
| Hops.RequestArrives | liblhcluster/src/clientproxy.cxx:1257-1366 | A client's request is read by its proxy and by the broker as it was sent, behind both identities |
| Hops.ResponseArrives | liblhcluster/src/requestresponse.cxx:49-97 | A response at the proxy is routed to its client, which reads its flags, type, id, status and data |
| Hops.ThroughWorkerFaithful | liblhcluster/src/broker.cxx:1907-1935 | For any non-empty envelope of non-empty frames, broker to worker to processor and back returns the handler's answer along the same envelope, or nothing exactly if the request was one-way |
| Hops.TripFaithful | liblhcluster/src/client.cxx:135-154 | End to end, the handler gets what the client sent; and that client behind its proxy reads the same flags, type and id with the handler's status and data, or is sent nothing exactly if its request was one-way |
| Hops.HandlerGiven | liblhcluster/src/requestprocessor.cxx:215-298 | Whatever the flags, the handler is given the header and the data as they were sent |
| Hops.ReceiptsFaithful | liblhcluster/src/broker.cxx:2326-2349 | Both receipts reach the proxy naming the client and the request they are for |
| Hops.RedirectNoticed | liblhcluster/src/broker.cxx:2433-2471 | The client redirected away from reads a response to its request with the status of a redirect |
| Hops.RejectionUnread | liblhcluster/src/broker.cxx:2505-2543 | No client reads a rejection as a response to its request |
| Hops.DeathNoticeUnread | liblhcluster/src/broker.cxx:2473-2503 | Nor a death notice built from the envelope alone |
| Hops.ReadyReads | liblhcluster/src/worker.cxx:1599-1665 | What a worker sends of itself when it connects is read by the broker as it was |
| Hops.HeartbeatReads | liblhcluster/src/utils.cxx:26-52 | So is a heartbeat |
| Endpoints.SendRequest | liblhcluster/src/client.cxx:135-154 | Prepending in place makes the request the hops expect |
| Endpoints.HandleRequest | liblhcluster/src/requestprocessor.cxx:215-313 | Popping and prepending in place is the processor's hop, and a malformed request gets no response |
| Endpoints.RequestResponse.FillFromMessage | liblhcluster/src/requestresponse.cxx:138-186 | Accepts exactly the well-formed responses, with their values |
| Proxy.Delivery | liblhcluster/src/clientproxy.cxx:748-859 | Over any run with broker deaths, and however clients are told apart, a request that asked for receipts is buffered with at least one outstanding since it was last sent, or has had every one since one send, or has been answered |
| Proxy.BufferedAsked | liblhcluster/src/clientproxy.cxx:1335-1344 | Nothing is buffered that did not ask for a receipt, or after its answer |
| Proxy.NeverErased | liblhcluster/include/lhcluster_impl/lhcluster_impl/clientrequestbuffer.h:16-21 | When no frame read is one the buffer keeps, as with addresses, whatever asked for a receipt stays buffered with everything outstanding |
| Proxy.SameClient | liblhcluster/src/clientrequestbuffer.cxx:51-60 | By the content of the identity, a receipt names the buffered request its client sent |
| Proxy.ResponseIsOne | liblhcluster/src/clientproxy.cxx:1533-1547 | A response to a client's request is one for the key it was buffered under, whatever its status and data |
| Proxy.BufferedExactly | liblhcluster/src/clientrequestbuffer.cxx:51-101 | Over any run exactly those requests are buffered that asked for receipts and are owed one: neither answered nor receipted in full since one send |
| Proxy.BufferedIsLastSent | liblhcluster/src/clientrequestbuffer.cxx:30-49 | Over any run what is buffered under a key is, in full, what its client last sent under it |
| Proxy.FromClientExactly | liblhcluster/src/clientproxy.cxx:1257-1366 | Frame by frame, what is taken for a request, and what is dropped |
| Proxy.FromBrokerExactly | liblhcluster/src/clientproxy.cxx:967-1052 | Frame by frame, what is taken for a response or a receipt, for which key, and what is nothing |
| Proxy.ClientRequestBuffer.Add | liblhcluster/src/clientrequestbuffer.cxx:30-49 | Buffers the request with its full mask, replacing one with the same key |
| Proxy.ClientRequestBuffer.EraseIfLastReceipt | liblhcluster/src/clientrequestbuffer.cxx:51-87 | If the key is found, takes one receipt off the mask and erases the request if none is outstanding; else changes nothing |
| Proxy.ClientRequestBuffer.Erase | liblhcluster/src/clientrequestbuffer.cxx:89-101 | Erases the request if the key is found |
| Proxy.ClientProxy.HandleClientMessage | liblhcluster/src/clientproxy.cxx:1257-1366 | A well-formed request is buffered if it asks for receipts and sent on; a malformed one is dropped |
| Proxy.ClientProxy.HandleBrokerMessage | liblhcluster/src/clientproxy.cxx:967-1052 | A response takes its request out of the buffer and goes to its client without the type frame; a receipt does to the buffer what is specified; nothing else goes to a client |
| Proxy.ClientProxy.Restart | liblhcluster/src/clientproxy.cxx:790-801 | Every buffered request is sent once more, in full, in the order of the table, and waits for all its receipts again |
| WorkerTables.WorkerCoherent | liblhcluster/src/worker.cxx:1460-1555 | Over any run, reconnects included, a context exists for exactly the requests in progress, the processor has exactly one copy of each that did not go when it was stopped, and what it was ever given was finished once each, is still there, or went |
| WorkerTables.KeepsLastAsk | liblhcluster/src/worker.cxx:1820-1835 | A context names the client that asked last |
| WorkerTables.FinishAnswersLastAsk | liblhcluster/src/worker.cxx:1026-1094 | A request in progress gets a finish when the processor answers, and the finish carries the envelope of the client that asked last |
| WorkerTables.AskedExactly | liblhcluster/src/worker.cxx:1460-1555 | A running worker takes a request up exactly if it supports the type and has the request or could pass it on: it is then in progress for the client that asked last, given to the processor only if new, and no other request changes; if not the worker stops |
| WorkerTables.StopsExactly | liblhcluster/src/worker.cxx:1297-1560 | It stops exactly on a request it does not take up, on an unsupported type, or having sent an answer with a fatal status |
| WorkerTables.ReceiptsSentAsDue | liblhcluster/src/worker.cxx:1460-1555 | Over any run exactly one receipt is sent, in order, for each request taken up, new or redirected, that asked for one, along the envelope it came with |
| WorkerTables.LostForGood | liblhcluster/src/worker.cxx:796-812 | A request that went when its processor was stopped stays in progress in every continuation, and is never passed on again however often it is asked for |
| WorkerTables.LoadIsRequests | liblhcluster/src/worker.cxx:1628-1631 | The sizes of the in-progress sets add up to the number of requests |
| Worker.ClientRequestContext.UpdateEnvelope | liblhcluster/src/clientrequestcontext.cxx:71-80 | Takes over the other's envelope, leaving the other without |
| Worker.SupportedIsAsked | liblhcluster/src/worker.cxx:1297-1440 | What the hops call a well-formed request is one to the worker, if it supports the type |
| Worker.UnsupportedEnds | liblhcluster/src/worker.cxx:1297-1440 | One of a type it does not support ends it |
| Worker.Worker.PopEnvelope | liblhcluster/src/worker.cxx:1313-1346 | The loop pops exactly the frames before the delimiter, and the delimiter |
| Worker.Worker.RequestRedirected | liblhcluster/src/worker.cxx:1820-1835 | A known request is from now on answered to the new client |
| Worker.Worker.HandleBrokerNewRequest | liblhcluster/src/worker.cxx:1297-1560 | A request from the broker is dropped, ends the worker, redirects, or is passed on and recorded, as specified; the frames behind its envelope go to the processor exactly if it is new and passed on, and a receipt to the broker exactly if it is taken up and asked for one |
| Worker.Worker.Wrap | liblhcluster/src/worker.cxx:1026-1068 | Taking the envelope's frames from the back puts them in front of the answer in their order |
| Worker.Worker.HandleProcessorMessage | liblhcluster/src/worker.cxx:870-1121 | An answer is forgotten, or sent to the broker as the finish the hops expect, as specified |
| Worker.Worker.FreeCapacity | liblhcluster/src/worker.cxx:1628-1631 | A worker advertises its capacity less the requests it has in progress |
| Worker.Worker.SendReady | liblhcluster/src/worker.cxx:1599-1665 | On connecting it sends its capacity less the requests in progress, its delay and its types, appended frame by frame |

## Left out

- Safety.RunAgrees: says nothing of the states after an event that is not sound, where the code may go on with tables that disagree.
- Conservation.WorkConservedIff: supposes that requests get out; a new request or a retry whose send fails waits beside idle workers until the next event that visits its type, and what a ready or a finish leaves is said of each of them only (`Retrying`).
- RoundRobin.ReadyRoundRobinIff: supposes the same; when requests do not get out the deal is as even as the sends that work.
- Pulses.PulseSurvivorsIff: supposes a positive death delay; the broker's is twice its own heartbeat delay (broker.cxx:277).
- Heartbeats.NoFalseDeath: follows one worker on one clock, in whole seconds, with its sends succeeding; calendar conversion and the failure of a heartbeat send are not modelled.
- Proxy.Delivery: says nothing of what the broker does with a resent request.
- Agreement.HoldingOneMore: capacity is an unbounded integer; the code stores it unsigned and reads it back as a signed 32-bit value, which is the same for every capacity that fits one.
- Request states are values in their context's table; a node or a worker refers to one by its id, so a dangling pointer is an id without a record, and a list node's address is a tag; a record that still refers to a removed worker names it, where the code keeps a pointer to what was freed.
- A worker's in-progress requests of all types are one set of keys; an empty entry for a type is not told from no entry.
- Whether a redirect notice, a rejection, a death notice or a response gets out: no branch depends on it.
- Heartbeats from the broker to workers and clients, the pulse of the broker as workers and proxies see it, and the start, stop and restart of threads and sockets.
- Sockets, timers, the encoding of values in frames, statistics and logging, parameter builders, endpoints, factories and Python bindings.
- Notifications (publisher, subscriber, broker): thin wrappers over sockets.
- `Client::RetrieveResponses`: polling with a timeout, a thin loop over a socket.

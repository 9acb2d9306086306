# The XATMI switchboard and its client library

The switchboard is a single-threaded broker. Clients connect, advertise services, ask for work, submit
calls and collect replies. Each connection has one buffer being filled and one handler that runs when it is
full. Calls, services and advertisements are linked to each other by many pointers, and every handler
rearranges them; the project is about what these rearrangements keep.

- `Board.dfy` is the specification: the state as a value, and one total function per operation. An
  operation that would follow a dead or null pointer, cast a queue head to the wrong structure or fail one
  of the program's assertions yields `Fault`.
- `Invariant.dfy` is the invariant. `DeleteCall`, `Touch`, `Answer`, `Dispatch`, `Registry`, `Departure`,
  `Handlers` and `Steps` show that each operation keeps it; `Exactness` shows that the conditions of `Steps`
  are not only enough but necessary.
- `History`, `Calmness` and `HistorySteps` prove what the log of everything written says. `Runs` draws the
  consequences for every reachable state. `Order`, `Fairness`, `FirstCome` and `Clocks` are about who is served
  first, `Conservation` about how a call can end, `Aftermath` and `Orphans` about what a departure leaves behind.
- `Responses` says what each request is answered with. `Holdings` and `Replies` follow kept replies and those who
  wait for them over whole runs, `Waiting` those who wait in vain, `Offering` what workers advertise.
- `Switchboard.dfy` is the program in its own form: a class whose methods and loops update tables in place,
  each proved to do what `Board` says. `CdPool.dfy` and `Queue.dfy` do the same for the array of
  descriptors and for the doubly linked lists on the heap.
- `Steadiness` and `Turning` say what an event leaves alone. On them `Stream`, `Traces` and `Messages` account
  for every byte that is read, over whole runs. `Framing`, `Codec` and `Session` are the cutting into reads, the
  messages and the client library; `EndToEnd` puts the two sides together for one message, `Ledger` and
  `Alignment` for whole sessions.
- `Memory.dfy` is the guarded allocator. `AsWritten.dfy` has runs in which the program as written goes wrong, and
  `FailingRuns.dfy` runs that go wrong whatever the repairs.

## Where the program departs from its comments

`Fixes` selects, for each of three lines, the line as written or a repaired one; a theorem that takes a
`Fixes` holds for all eight choices unless it asks for one, and `Allowed` says exactly what each choice needs of its clients.

- A call dispatched by `svrservice` stays on its service's queue (`unlink`). As written, `TPTWORK` is safe
  if and only if no call waits for the worker.
- `find_earliest` keeps the later arrival (`oldest`).
- `del_client` compares `wait4` with a local variable of the same name as the sentinel of `svrreturn`
  (`wakeAny`). As written, the departure of a connection with a live buffer is safe if and only if the caller of
  the call it executes does not wait for any reply.

Some things go wrong whatever the choice, and are conditions in `Allowed`, each proved necessary:

- A worker that executes a call may not ask for work, get or wait for a reply, or withdraw that service.
- A return needs a call that is still there and a length that is not negative. `tolong` extends the sign of
  the top byte, so lengths from 2^31 on are negative.
- A service must still exist when the body of a call to it is complete, and a worker that is sending the
  body of a reply loses its buffer when the caller leaves. The client loop reads the size of the buffer before it
  reads the connection, so that nothing the worker does afterwards is survived, not even its end of file
  (`Orphans`). `FailingRuns` has a run for each.
- A random batch must not repeat a descriptor. `transaction.c` also reads one entry past the array; `CdPool`
  says exactly when that matters, and `Board` takes the entry to be zero.

A client that waits for a reply is not told when its call goes with the service, nor when it waits for any reply and
has no call out: it waits until it disconnects (`Waiting`, `FailingRuns.CallerIsForgotten`).

A reply that reports a failed worker goes out in the long form, which `tpgetrply` does not expect
(`Codec.FailureIsMisread`); such replies are the only ones that put a client out of step (`Alignment`).

## Conventions of the model

- Clients, services and calls are serial numbers that are never used again, so a dead pointer is a number
  that is in no table.
- The clock, the order of a tree walk, the random batches and the sizes of single reads are parameters.
- The tree of advertisements is a map from services to their values; comparing names with `strncmp` is
  equality of names cut at the first NUL or after fifteen bytes.
- What is written to a connection is an entry of the log; `Codec.Written` gives its bytes.
- Theorems over runs take the states `ss` of a run from the empty switchboard; by `Traces.TraceOf` and
  `Traces.TraceRuns` these are exactly the runs whose events are allowed.
- Memory that C leaves unspecified (a fresh buffer, the end of a grown one) is zero in `Board`, and
  arbitrary in `Memory`.

## Model

| member | source | states |
|---|---|---|
| Steps.StepKeeps | util/switchboard/src/main/cxx/tpserver.c:175-260 | An accepted connection, a departure or a read that is allowed does not fault, not even in reading the size of the buffer being filled, keeps the whole invariant, and disconnects nobody but its own client, and that one exactly at its end of file, at bytes it was not asked for, or at an unknown command |
| Exactness.StepExact | util/switchboard/src/main/cxx/tpserver.c:175-260 | From a good state an event leads to a good state if and only if it is allowed; holds for the program as written and for every choice of the three repairs |
| Runs.RunsAreSafe | util/switchboard/src/main/cxx/tpserver.c:175-260 | Any run from the empty switchboard whose events are allowed never faults and ends in a good state with a truthful log |
| Runs.RunExact | util/switchboard/src/main/cxx/tpserver.c:175-260 | A possible run stays good at every state if and only if each of its events is allowed when it happens |
| Runs.EveryCallHasOnePlace | util/switchboard/src/main/cxx/svracall.c:28-82 | In every reachable state a call is on exactly one of its submitter's two lists and in exactly one of four places; it is on `requests` if and only if it is arriving, queued or executing |
| Runs.AtMostOnce | util/switchboard/src/main/cxx/svrservice.c:63-84 | Over any run each call is accepted, handed to a worker and answered at most once |
| Runs.WorkIsWhatWasSent | util/switchboard/src/main/cxx/svrservice.c:63-84 | What a worker is handed was logged earlier as the body of a call of that service, with those flags and under that descriptor, from one and the same client |
| Runs.ReplyIsWhatWasReturned | util/switchboard/src/main/cxx/svrgetrply.c:36-50 | A reply goes only to the client that made the call, after a worker was handed it, and carries what that very worker returned, or says TPESVCERR and the log has noted before that this worker left |
| Messages.FailureMeansDeparture | util/switchboard/src/main/cxx/client.c:58-78 | Over any run, a reply that its worker did not return says TPESVCERR, and at an earlier event the worker that had been handed the call left while it executed it |
| Conservation.AcceptedCallsAreKept | util/switchboard/src/main/cxx/transaction.c:55-109 | Over any run, an acknowledged call is there from its acknowledgement on without a break, up to the end or to one event, which answers it, is the departure of its caller, or takes the last advertiser from the service in whose queue it waits |
| Conservation.KeptReplyStays | util/switchboard/src/main/cxx/svrreturn.c:27-45 | Over any run, a kept reply stays on its caller's list until the caller collects it or leaves |
| Conservation.StepEnds | util/switchboard/src/main/cxx/tpserver.c:175-260 | Whatever event takes a call away, it is for one of the three reasons, and the client whose event it is is then the caller that collects or leaves, the worker that is done, or the only advertiser |
| Responses.GetReplyByDescriptor | util/switchboard/src/main/cxx/svrgetrply.c:52-93 | A request for the reply under a descriptor is answered at once if and only if that reply is kept for the client, and with it; with TPEBADDESC if and only if the client has no such call; with TPEBLOCK if and only if the call is out and TPNOBLOCK is set; otherwise the client waits, and for that very call |
| Responses.GetReplyAny | util/switchboard/src/main/cxx/svrgetrply.c:52-93 | A request for any reply gets the first of the kept ones at once if there is one; otherwise it is TPEBLOCK or waits for any, if and only if TPNOBLOCK is set or not |
| Responses.AdvertiseAnswers | util/switchboard/src/main/cxx/svradvertise.c:24-38 | The answer is TPEMATCH if and only if the client already advertises the name with another value, which then stays; otherwise it is 0 and the client then advertises the name with exactly the value given; no other advertisement of anybody changes |
| Responses.UnadvertiseAnswers | util/switchboard/src/main/cxx/svrunadvertise.c:24-32 | The answer is 0 if and only if the client advertised a service of that name, which it then no longer does; otherwise it is TPENOENT and no table changes; no other advertisement of anybody changes |
| Responses.CallAnswers | util/switchboard/src/main/cxx/svracall.c:57-82 | A call is refused, with TPENOENT and no change of any table, if and only if nobody advertises its name or its length is negative; otherwise it is made for this client and service, with this length, these flags, a fresh descriptor and the time of the event, and acknowledged |
| Replies.ReplyWasAskedFor | util/switchboard/src/main/cxx/svrgetrply.c:52-93 | Over any run, every reply answers the last request of its client, which was for any reply or for the reply under that very descriptor |
| Replies.RepliesInOrder | util/switchboard/src/main/cxx/svrreturn.c:27-45 | Over any run, the kept replies of a client stand in the order in which their calls were returned or abandoned |
| Replies.FirstEndedFirst | util/switchboard/src/main/cxx/svrgetrply.c:60-71 | Over any run, a request for any reply that can be answered at once gets the reply to the call that ended first of all that are kept for the client |
| Replies.FailureCarriesData | util/switchboard/src/main/cxx/client.c:58-78 | Over any run, a reply that its worker did not return carries what the data of the call was when that worker left |
| Offering.OffersStand | util/switchboard/src/main/cxx/advert.c:54-80 | Over any run, what a client advertises is a name and value that it delivered as `tpadvertise` sends them, with no withdrawal of that name completed since |
| Offering.HandedAsAdvertised | util/switchboard/src/main/cxx/svrservice.c:63-84 | Over any run, the value a worker is handed with a call is the one it delivered an advertisement of that name with, and has not withdrawn |
| Clocks.ArrivalIsClock | util/switchboard/src/main/cxx/transaction.c:29-45 | Over any run, a live call's arrival is the clock of the one event that acknowledged it |
| Clocks.ServedByClock | util/switchboard/src/main/cxx/svrservice.c:34-41 | Over any run, a worker that asks for work gets a call if and only if one waits at a service it advertises; repaired, no waiting head was accepted at a smaller clock, and as written none at a greater one |
| Waiting.HopelessForever | util/switchboard/src/main/cxx/svrgetrply.c:72-92 | Over any run, a client that waits while no call is out that it waits for goes on waiting until it disconnects, and nothing is ever written to it again |
| HistorySteps.StepLog | util/switchboard/src/main/cxx/tpserver.c:175-260 | Every allowed event adds only entries to the log that earlier entries account for |
| Runs.NoLostWork | util/switchboard/src/main/cxx/svrservice.c:86-103 | No call is queued on a service that a parked worker advertises, and that worker is on the queue of each service it advertises |
| Runs.NoMissedReply | util/switchboard/src/main/cxx/svrgetrply.c:60-92 | No client is parked for any reply while one is there, or for a call that is not still among its requests |
| Runs.ExecutorsAndWorkers | util/switchboard/src/main/cxx/svrreturn.c:27-45 | `executor` and the `wait4` of an armed client are inverse, and every call in a `wait4` is live |
| Runs.QueuesAreHomogeneous | util/switchboard/src/main/cxx/svrservice.c:44-60 | A waiting queue holds calls only or workers only, the flag tells which, and every node is live and belongs there, so every cast of a head is right |
| Runs.IndexIsWhatIsAdvertised | util/switchboard/src/main/cxx/advert.c:84-103 | A name is in the index if and only if some connected client advertises its service, and names are unique |
| Runs.DescriptorsAreDistinct | util/switchboard/src/main/cxx/transaction.c:55-90 | The descriptors of live calls are non-zero and pairwise different |
| Runs.BodyIsOfLastRequest | util/switchboard/src/main/cxx/svracall.c:34-35 | While a body arrives it belongs to the last of its client's requests, whatever other clients did meanwhile, and the buffer has room |
| Handlers.SvrAcallKeeps | util/switchboard/src/main/cxx/svracall.c:57-82 | `svracall` does not fault, keeps the invariant with no handler left on the stack, and connects or disconnects nobody |
| Handlers.SendToWorkerKeeps | util/switchboard/src/main/cxx/svracall.c:28-54 | `send_to_worker` does not fault and keeps the invariant for the call just completed, which was in no place before and is in one after |
| Handlers.SvrServiceKeeps | util/switchboard/src/main/cxx/svrservice.c:86-103 | `svrservice` keeps the invariant when the worker has no call, and, as written, when no call waits for it |
| Handlers.SvrReturnKeeps | util/switchboard/src/main/cxx/svrreturn.c:47-57 | `svrreturn` keeps the invariant for a worker with a call and a length that is not negative |
| Handlers.Part2Keeps | util/switchboard/src/main/cxx/svrreturn.c:27-45 | `part2` keeps the invariant, also when a client executes its own call |
| Steps.SvrGetReplyKeeps | util/switchboard/src/main/cxx/svrgetrply.c:52-93 | `svrgetrply` keeps the invariant for a client that executes nothing, or that gets an error |
| Steps.SvrAdvertiseKeeps | util/switchboard/src/main/cxx/svradvertise.c:24-38 | `svradvertise` keeps the invariant, including for a second, different advertisement |
| Steps.SvrUnadvertiseKeeps | util/switchboard/src/main/cxx/svrunadvertise.c:24-32 | `svrunadvertise` keeps the invariant unless a worker withdraws the service it is executing |
| Steps.ConnectKeeps | util/switchboard/src/main/cxx/client.c:30-49 | A new connection keeps the invariant |
| DeleteCall.DelCallKeeps | util/switchboard/src/main/cxx/transaction.c:95-109 | Deleting a call keeps the invariant and lifts the suspension for that call |
| Answer.SndReplyKeeps | util/switchboard/src/main/cxx/svrgetrply.c:36-50 | Sending a reply to a client that can take it does not fault and keeps the invariant |
| Answer.FinishKeeps | util/switchboard/src/main/cxx/svrreturn.c:27-45 | Answering or keeping a finished call keeps the invariant |
| Dispatch.SendToServerKeeps | util/switchboard/src/main/cxx/svrservice.c:63-84 | Handing a call to a worker keeps the invariant when the call leaves its queue |
| Registry.DelServiceKeeps | util/switchboard/src/main/cxx/service.c:78-93 | Draining and deleting a service that nobody advertises keeps the invariant, and never meets an advertisement on its queue |
| Registry.DelAdvertKeeps | util/switchboard/src/main/cxx/advert.c:84-103 | Deleting an advertisement does not fault and keeps the invariant, so the service goes when its last advertiser does; that advertisement is gone, and other tables only lose elements |
| Departure.DelClientKeeps | util/switchboard/src/main/cxx/client.c:52-86 | `del_client` ends, does not fault and keeps the invariant for everybody else |
| Exactness.WorkTwiceBreaks | util/switchboard/src/main/cxx/svrservice.c:86-103 | A worker that asks for work while it executes a call breaks the invariant, in every such state |
| Exactness.WorkKeepsQueuedBreaks | util/switchboard/src/main/cxx/svrservice.c:63-84 | As written, handing over a queued call breaks the invariant, in every such state |
| Exactness.GetReplyBreaks | util/switchboard/src/main/cxx/svrgetrply.c:52-93 | A worker with a call that gets or waits for a reply breaks the invariant |
| Exactness.UnadvertiseBreaks | util/switchboard/src/main/cxx/svrunadvertise.c:24-32 | Withdrawing the service being executed breaks the invariant |
| Exactness.CallBreaks | util/switchboard/src/main/cxx/transaction.c:60-90 | A call that draws from a batch with a repeated descriptor breaks the invariant |
| Aftermath.NothingIsLeft | util/switchboard/src/main/cxx/client.c:52-86 | Every `del_client` in a good state ends without fault; no table, queue or `executor` mentions the client any more, and no table, list, queue or `wait4` any call it made; exactly the workers that were sending the reply to one of them stay armed with its freed buffer; and the state is good if and only if nobody who waits for any reply is stranded |
| Order.NoneReplacesPick | util/switchboard/src/main/cxx/svrservice.c:34-41 | No examined head would replace the one that `find_earliest` keeps, under either comparison |
| Order.EarliestIsServed | util/switchboard/src/main/cxx/svrservice.c:34-41 | With the comparison repaired a worker is given a head with the smallest arrival of all services it advertises, and none if and only if none waits |
| Order.AsWrittenLatestIsServed | util/switchboard/src/main/cxx/svrservice.c:34-41 | As written it is given the earliest head if and only if all waiting heads arrived at the same time |
| FirstCome.FirstCallFirst | util/switchboard/src/main/cxx/svrservice.c:44-60 | Over any run, of two calls in a queue the later one is handed over only after the earlier one was handed over or deleted |
| FirstCome.FirstWorkerFirst | util/switchboard/src/main/cxx/svrservice.c:44-60 | Over any run, while a worker waits for a service without interruption no call of it goes to a worker that was not before it in the queue |
| Orphans.DeparturesDoNotFault | util/switchboard/src/main/cxx/client.c:52-86 | From a good state `del_client` itself never faults, for every choice of the repairs, even where it strands a client |
| Orphans.DeadIsUnservable | util/switchboard/src/main/cxx/tpserver.c:215-236 | All events of a connection fault, its end of file among them, if and only if it is armed with a freed buffer |
| Orphans.DeadAreOrphans | util/switchboard/src/main/cxx/tpserver.c:215-236 | Over any run, a connection is armed with a freed buffer only because a caller left while this worker was sending the reply to its call |
| Orphans.OrphanedForever | util/switchboard/src/main/cxx/tpserver.c:215-236 | Once that happens, over any run, the connection stays so and every later event of the worker faults |
| Fairness.TurnIsOrderly | util/switchboard/src/main/cxx/svrio.c:59-76 | In one turn queues only lose elements or grow at the end, a handed call involves the head of its queue, only parked connections are armed by another client's turn, and the client itself ends up armed, parked or gone |
| AsWritten.HandedTwice | util/switchboard/src/main/cxx/svrservice.c:63-84 | A possible run of the program as written from the empty switchboard, each message read in two pieces, in which the same call is handed to the same worker twice |
| AsWritten.StrandedByShadowing | util/switchboard/src/main/cxx/client.c:57-78 | One possible run from the empty switchboard which, as written, ends with a client parked for any reply although its reply is there, and, repaired, with that reply sent |
| AsWritten.LaterServedFirst | util/switchboard/src/main/cxx/svrservice.c:34-41 | One possible run from the empty switchboard, with two services and a call to each at different times, which as written hands the worker the later call, and repaired the earlier one |
| AsWritten.ReturnToNobodyFaults | util/switchboard/src/main/cxx/svrreturn.c:47-57 | Whenever a client leaves while its call is executed, whatever the repairs and whoever is stranded, the worker's return finds `wait4` null |
| FailingRuns.WorkerIsOrphaned | util/switchboard/src/main/cxx/tpserver.c:215-236 | A run of allowed events from the empty switchboard, for every choice of the repairs, that leaves a worker's connection armed with a freed buffer, so that no event of it is survived, not even its end of file |
| FailingRuns.ServiceIsGone | util/switchboard/src/main/cxx/svracall.c:28-54 | A run from the empty switchboard, for every choice of the repairs, whose last byte completes the body of a call to a service that its only advertiser took along, and faults; all events before it are allowed |
| FailingRuns.CallerIsForgotten | util/switchboard/src/main/cxx/service.c:78-93 | A run of allowed events from the empty switchboard, for every choice of the repairs, that leaves a client waiting for a call that went with its service, which no later event can answer |
| Switchboard.Switchboard.NewTransaction | util/switchboard/src/main/cxx/transaction.c:29-93 | New state is the specified one, with the descriptor from the in-place pool; fails if and only if the specification does |
| Switchboard.Switchboard.RemoveFromWaitqs | util/switchboard/src/main/cxx/svrservice.c:56-60 | The walk takes the worker off the queues of all services it advertises, and no others |
| Switchboard.Switchboard.AddToWaitqs | util/switchboard/src/main/cxx/svrservice.c:44-53 | The walk puts the worker at the end of the queues of all services it advertises, and no others |
| Switchboard.Switchboard.FindEarliest | util/switchboard/src/main/cxx/svrservice.c:34-41 | The loop finds what the recursive specification finds |
| Switchboard.Switchboard.FindByCd | util/switchboard/src/main/cxx/svrgetrply.c:60-92 | The loop finds the first call of the list with the descriptor |
| Switchboard.Switchboard.Scan | util/switchboard/src/main/cxx/advert.c:84-103 | The loop over all clients finds an advertiser if and only if there is one |
| Switchboard.Switchboard.DelService | util/switchboard/src/main/cxx/service.c:78-93 | The loop that drains the queue ends in the specified state |
| Switchboard.Switchboard.DropAdvertisements | util/switchboard/src/main/cxx/client.c:79-79 | The loop ends with all advertisements deleted, as specified |
| Switchboard.Switchboard.DropRequests | util/switchboard/src/main/cxx/client.c:80-80 | The loop ends with all requests deleted, as specified |
| Switchboard.Switchboard.DropReplies | util/switchboard/src/main/cxx/client.c:81-81 | The loop ends with all replies deleted, as specified |
| Switchboard.Switchboard.Turn | util/switchboard/src/main/cxx/tpserver.c:211-259 | One allowed event performs the specified step and keeps the invariant, and the client list changes as the event says |
| Switchboard.Switchboard.Round | util/switchboard/src/main/cxx/tpserver.c:211-259 | The client loop ends, visits each client that was connected at its start exactly once and in order, and is the run of their events |
| Queue.QAppend | util/switchboard/src/main/cxx/queue.c:24-29 | On any circular list, insertion after a node, with forward and backward links inverse |
| Queue.QPrepend | util/switchboard/src/main/cxx/queue.c:31-36 | On any circular list, insertion before a node, with forward and backward links inverse |
| Queue.QDelete | util/switchboard/src/main/cxx/queue.c:38-43 | Removal from any circular list; the node is linked to itself, and if it was so before nothing changes |
| Queue.Enqueue | util/switchboard/src/main/cxx/queue.c:24-29 | Refines appending to a sequence and leaves every disjoint ring alone |
| Queue.Remove | util/switchboard/src/main/cxx/queue.c:38-43 | Refines removal from a sequence and leaves every disjoint ring alone |
| Queue.RemoveAgain | util/switchboard/src/main/cxx/queue.c:38-43 | Deleting a deleted node changes no link anywhere |
| Queue.Walk | util/switchboard/src/main/cxx/tpserver.c:211-259 | A walk that saves the successor visits every element once and in order although visited ones may be deleted |
| Descriptors.TakeFresh | util/switchboard/src/main/cxx/transaction.c:60-90 | The descriptor taken is non-zero and not in use; the pool stays good if and only if the batch drawn from repeats none |
| CdPool.PastEndMatters | util/switchboard/src/main/cxx/transaction.c:60-90 | Reading one entry past the array is harmless if and only if it holds zero or is not reached |
| CdPool.PastEndMayBeInUse | util/switchboard/src/main/cxx/transaction.c:60-90 | Otherwise the descriptor handed out may be one in use |
| CdPool.RepeatedBatchEntry | util/switchboard/src/main/cxx/transaction.c:60-90 | A batch with two equal numbers gives two calls in a row the same descriptor |
| CdPool.CdPool.Refill | util/switchboard/src/main/cxx/transaction.c:60-90 | The nested loops leave the batch with exactly the descriptors in use struck out |
| CdPool.CdPool.Next | util/switchboard/src/main/cxx/transaction.c:60-90 | The cursor loop takes what the recursive specification takes and leaves the array as it says |
| Traces.EveryByteIsHandledOnce | util/switchboard/src/main/cxx/tpserver.c:211-259 | Over any run of the whole switchboard, the bytes read from a connection are the payloads its handlers were called with, in order, followed by the filled part of its buffer; of a lost connection the payloads are a prefix |
| Messages.FrameIsHandled | util/switchboard/src/main/cxx/tpserver.c:236-250 | A handler is called with exactly the bytes of the frame that was completed |
| Messages.CommandByte | util/switchboard/src/main/cxx/tpserver.c:132-158 | Each of the five bytes of the library's requests runs its handler and no other byte does; with the request for work they are all the commands there are |
| Messages.AlwaysUnderway | util/switchboard/src/main/cxx/tpserver.c:146-158 | Over any run, what a connection is armed for is what its last frames announced: the command, then the length, flags, name or return values of its header |
| Messages.WorkWasDelivered | util/switchboard/src/main/cxx/svracall.c:28-82 | Over any run, whatever a worker is handed, some client delivered: the bytes read from it end in a call as `tpacall` sends it, of that service and with those flags, and that body |
| Messages.ReturnWasDelivered | util/switchboard/src/main/cxx/svrreturn.c:27-57 | Over any run, whatever is logged as returned by a worker is the end of what was read from that worker, as `tpreturn` sends it |
| Framing.SplitRead | util/switchboard/src/main/cxx/tpserver.c:211-259 | On the whole switchboard, reading x and then y is reading x followed by y |
| Framing.ReadsMayBeCutAnywhere | util/switchboard/src/main/cxx/tpserver.c:211-259 | The whole switchboard ends in the same state however a client's bytes are cut into reads |
| Codec.ShortRoundTrip | xatmi/src/main/cxx/byteorder.c:28-31 | A short survives the wire if and only if it fits, also when sent back unsigned, and is never read as -1 |
| Codec.LongRoundTrip | xatmi/src/main/cxx/byteorder.c:34-37 | A number is read back as written if and only if it fits thirty-two bits with sign |
| Codec.FlagsOnTheWire | util/switchboard/src/main/cxx/svrgetrply.c:60-86 | The two flags of a request for a reply are the lowest and the highest bit of the first byte of the number, whatever its other bits and its sign |
| Codec.CallArrives | xatmi/src/main/cxx/tpacall.c:24-49 | What `tpacall` sends is one frame on which the switchboard runs `svracall` with the same name, length and flags |
| Codec.GetReplyArrives | xatmi/src/main/cxx/tpgetrply.c:31-67 | What `tpgetrply` sends asks for the very descriptor that `tpacall` returned |
| Codec.AdvertiseArrives | xatmi/src/main/cxx/tpadvertise.c:24-45 | What `tpadvertise` sends runs `svradvertise` with the same name and value |
| Codec.UnadvertiseArrives | xatmi/src/main/cxx/tpunadvertise.c:24-44 | What `tpunadvertise` sends runs `svrunadvertise` with the same name |
| Codec.ReturnArrives | xatmi/src/main/cxx/tpreturn.c:31-47 | What `tpreturn` sends is one frame for `svrreturn` followed by exactly the body it announces |
| Codec.AckRoundTrip | xatmi/src/main/cxx/tpacall.c:24-49 | Both acknowledgements of a call are read as written, leaving what follows unread |
| Codec.ReplyRoundTrip | xatmi/src/main/cxx/tpgetrply.c:31-67 | A reply is read as it was written if and only if its return value is TPSUCCESS or TPFAIL |
| Codec.FailureIsMisread | xatmi/src/main/cxx/tpgetrply.c:31-67 | A reply with any other return value is taken for the short form: the descriptor becomes the error code and the rest stays unread |
| Codec.NoReplyRoundTrip | util/switchboard/src/main/cxx/svrgetrply.c:27-33 | The short form of an error is read as it was meant |
| Session.WorkRoundTrip | xatmi/src/main/cxx/tpreturn.c:50-93 | A work message is read as it was written, name, flags, descriptor and body, leaving what follows unread |
| Session.FieldRoundTrip | xatmi/src/main/include/xatmi.h:36-43 | A little-endian field of any width gives back a number if and only if it fits |
| Session.DecodeInPlace | xatmi/src/main/cxx/tpreturn.c:64-70 | Spreading the packed fields over the structure in place gives each field its value under both layouts, although they overlap |
| Session.Session.TxRead | tx/src/main/cxx/tx_io.c:102-127 | Reads exactly the bytes asked for, or all there are, and succeeds if and only if there are enough, however short single reads are |
| Session.Session.TpAcall | xatmi/src/main/cxx/tpacall.c:24-49 | A null name is TPEINVAL and sends nothing; otherwise sends the call, and the body only after it is accepted, and the result is what the acknowledgement says |
| Session.Session.TpGetReply | xatmi/src/main/cxx/tpgetrply.c:31-67 | A null descriptor, data or length pointer or a zero length is TPEINVAL and sends nothing; otherwise sends the request and returns what the reply says, body and length, in all four outcomes |
| Session.Session.TpAdvertise | xatmi/src/main/cxx/tpadvertise.c:24-45 | A null argument is TPEINVAL and sends nothing; otherwise sends the advertisement and returns what the answer says |
| Session.Session.TpUnadvertise | xatmi/src/main/cxx/tpunadvertise.c:24-44 | A null name is TPEINVAL and sends nothing; otherwise sends the withdrawal and returns what the answer says |
| Session.Session.TpReturn | xatmi/src/main/cxx/tpreturn.c:31-47 | Sends the reply with any irregular return value replaced by TPFAIL |
| Session.Session.TpService | xatmi/src/main/cxx/tpreturn.c:50-93 | Asks for work and returns what the message says |
| EndToEnd.WritesFit | xatmi/src/main/cxx/byteorder.c:28-37 | Over any run, every number the switchboard writes fits the field it is written to |
| EndToEnd.WorkerReadsWhatWasSent | xatmi/src/main/cxx/tpreturn.c:50-93 | Over any run, the bytes of a work message are read by `tpservice` as the name, flags and body that one client delivered together as `tpacall` sends them, the descriptor this client was given, and the value that the worker itself delivered with its advertisement of that name and has not withdrawn; no byte more is consumed |
| EndToEnd.CallerReadsWhatWasReturned | xatmi/src/main/cxx/tpgetrply.c:31-67 | Over any run, the bytes of a regular reply are read by `tpgetrply` as what the worker that was handed the call delivered as `tpreturn` sends it, under the descriptor this client was given; no byte more is consumed |
| Ledger.AnswersMatchRequests | util/switchboard/src/main/cxx/tpserver.c:175-260 | Over any run, what was written to a connection is one answer for each of its requests, of the kind the request asks for and in their order; of a live connection only the last can be missing, and it is exactly when the client is parked |
| Alignment.SessionsStayAligned | xatmi/src/main/cxx/tpgetrply.c:31-67 | Over any run, a client that reads one answer after each request, as the library does, reads every message written to it to its end and no further if and only if no reply in the long form with an irregular return value was written to it |
| Alignment.OutOfStepMeansDeparture | xatmi/src/main/cxx/tpgetrply.c:31-67 | If all workers return what `tpreturn` sends, a client's reads get out of step only by a TPERRNO reply that was written because a worker had left while it executed one of its calls |
| Memory.UnitsFit | xatmi/src/main/include/libxatmi.h:44-53 | The data fits between the guards with less than one unit to spare, and nothing wraps around, for every non-negative long of both word sizes |
| Memory.Arena.TpAlloc | xatmi/src/main/cxx/tpalloc.c:27-47 | A new buffer of the size asked for, others unchanged; a negative size or lack of memory is an error and changes nothing |
| Memory.Arena.TpRealloc | xatmi/src/main/cxx/tprealloc.c:26-53 | The buffer gets the new size and keeps the common prefix, wherever it moves; on every error all buffers stay as they were |
| Memory.Arena.TpFree | xatmi/src/main/cxx/tpfree.c:26-37 | A pointer that is no live buffer stops the program and changes nothing; otherwise the guards agree, both are spoilt, and this buffer alone is gone |
| Memory.Arena.TpTypes | xatmi/src/main/cxx/tptypes.c:26-43 | The size last asked for, or -1 and TPEINVAL; the type is always empty |
| Memory.Arena.Poke | xatmi/src/main/include/libxatmi.h:44-53 | A store within the size asked for changes that byte only and no guard |

## Left out

- Sockets, `select`, signals, logging and the start of the server: the events are what is left of them.
- Write errors: a write always succeeds.
- Allocation failure inside the switchboard; `Memory` has it for the library's own calls.
- `tpcall` as a method: it is `tpacall` followed by `tpgetrply`.
- The dispatch of a call to the function a worker registered, and `tpreturn`'s jump out of it.
- Conversations (`tpconnect`, `tpsend`, `tprecv`, `tpdiscon`) and `tpcancel`: the switchboard has no handler for them.
- Transactions of the TX interface and the time-out flags, which the switchboard carries but does not use.
- The order of the tree of advertisements: walks may be in any order, which covers the tree's.
- `del_service` on a queue of advertisements: it would re-enter `del_advertisement`; the model gives `Fault` there and `Registry.DelServiceKeeps` shows that it does not happen.
- Switchboard.Switchboard.Turn: keeps the lists of the program as sequences of numbers, not as linked nodes; that linking and unlinking nodes is adding to and removing from a sequence is proved in `Queue`.
- Memory.Arena.TpFree: takes memory that has been given back to keep its spoilt guards; C lets it change.
- Memory.Arena.TpRealloc: a block is a header, bytes and a trailer, not one array, so that the old trailer may be any bytes after growth.
- Codec.ReplyRoundTrip: asks for a code and a length that fit their fields; `EndToEnd.WritesFit` shows that they always do.

# PDU session establishment: a verified model

The repository simulates the establishment of PDU sessions: an AMF asks an SMF for a session, the SMF answers
at once and lets a pool of workers do the rest: save the session, ask the UDM, install the session in the UPF
over PFCP, mark it ACTIVE, call the AMF back. This project models that procedure in Dafny and proves what it
keeps, in every reachable state and over whole runs, and models the imperative pieces (codec buffers, session
tables, counters, queues, channels) as classes tied to the same functions the transition system uses.

`dafny verify dfyconfig.toml` checks everything.

## How it is laid out

| file | about |
|---|---|
| `Bytes`, `Decimal`, `Address` | machine integers, big-endian buffers, decimal printing, dotted quads and how `net.ParseIP` reads them back |
| `Codec` | the 13-byte request and 9-byte response; heap encoders and decoders |
| `UpfServer` | the UPF's table as a function of datagrams; the server with its shared read buffer |
| `PfcpClient` | the SMF's reply channels as a value; the client with its receive loop |
| `FailureReason` | substring search, error texts, the reason each failure is filed under |
| `Repository`, `InMemoryRepository` | the session table, its counts, the grouped form of the counts; the store of private copies |
| `SmContext` | references, addresses and jobs |
| `AmfHandler` | the AMF's map from IMSI to reference and its two handlers |
| `Orchestrator` | admission, one worker and the request handler on the heap |
| `Outcomes` | how an establishment ends in terms of what the job meets: stage, record, number, notice |
| `System` | AMF, SMF, UPF and network as one labelled transition system |
| `SystemFrames`, `SystemInvariant`, `SystemMoves`, `SystemPreservation` | what each step leaves alone; the inductive invariant, component by component, and why each step keeps it |
| `SystemTheorems`, `SystemRuns` | what follows for reachable states and for whole runs, shutdown included |
| `SystemWitness` | runs that exist: every job in hand can succeed, a timeout can orphan a UPF session, a queue without workers can strand a job |
| `SystemWrites` | what was written to the UPF and what of it arrived: exactly which failed sessions can have a UPF session |
| `SystemRecords` | what is stored and sent about a request is its own, field by field; the AMF's map, answers and modify calls as the history of its events |
| `Dashboard` | the publish/subscribe hub as a transition system and on the heap |

## The transition system

`System.State` holds the SMF's counters, queue, workers, repository and PFCP client, every datagram ever sent in
each direction, the UPF's table, the AMF's map, and a `History` no step reads. A datagram once sent may be
delivered any number of times, at any time, in any order, or never. A callback once sent may be handled by the AMF
at any later time or never, whether its worker still waits or gave up after the client's five seconds. Each atomic
action of a goroutine is a step:

| steps | source |
|---|---|
| `Arrive`, `Allocate`, `Enqueue`, `HandOver`, `Refuse`, `CountRefusal` | `internal/smf/handler.go:43-60`, `internal/smf/service.go:94-114` |
| `Close`, `Dequeue`, `Exit` | `internal/smf/service.go:87-92`, `internal/smf/service.go:116-120` |
| `SaveSession`, `SaveFails`, `QueryUdm` | `internal/smf/service.go:172-220` |
| `TakeNumber`, `EncodeFails`, `RegisterCall`, `WriteRequest`, `WriteFails`, `TakeReply`, `Expire`, `UnregisterCall` | `internal/smf/pfcp_client.go:111-147` |
| `ActivateSession`, `SendActive`, `CallReturns` | `internal/smf/service.go:234-278` |
| `LatencyAdded`, `TpsAdded`, `RecordSuccess`, `RecordFailure`, `MarkFailed`, `NotifyFailure`, `FinishFailure` | `internal/smf/service.go:127-151`, `internal/smf/service.go:281-337` |
| `AmfHandles` | `internal/amf/handler.go:144-202` |
| `UpfReceives`, `UpfReplies` | `internal/upf/server.go:86-126` |
| `SmfReceives`, `SmfPuts` | `internal/smf/pfcp_client.go:87-103` |
| `Acknowledge` | `internal/amf/handler.go:126-136` |
| `ReportTps`, `ReportLatency` | `internal/smf/service.go:405-408` |

Assumptions: one SMF and one UPF, neither of which restarts; fewer than 2^32 requests in a run (`System.Bounded`, the
guard under which no counter that names things comes round again); only the UPF sends to the SMF's port and only the
SMF calls the AMF's callback; nothing is enqueued after the queue is closed; a failed save stores nothing. Timeouts,
lost writes, UDM and AMF answers, clock readings and the IPv6 reader of Go's library are nondeterministic or
parameters.

## What the code does not guarantee

- That a FAILED session has no session in the UPF. It can come to have one exactly when its request took a number and
  was written (`FailedSessionOrphans`), so never after a failed save, UDM query (`EarlyFailureNeverInstalled`) or write
  (`FailedWriteNeverInstalled`), while a timeout can orphan one (`TimeoutCanOrphan`, `SomeSessionIsOrphaned`).
- A failure is filed under its own stage exactly when the text it wraps does not mislead (`FiledUnderItsStage`): an
  N1N2 error whose cause mentions "PFCP" is reported as `PFCP_TIMEOUT`.
- The grouped failure breakdown equals the in-memory one exactly when no failed session has an empty reason
  (`GroupedReasonsAgree`), and it loses a group exactly when a null reason and a reason "UNKNOWN" both occur
  (`GroupedReasonsTotal`).
- The AMF's modify call names the session of the callback exactly when that session's reference was the last one the
  AMF was told for the IMSI (`ModifyNamesOwnSession`, with a counterexample in `ModifyOfAnotherSession`), and a callback
  gets 404 exactly when it was told none.
- Re-encoding a decoded datagram restores it exactly on canonical datagrams (`RequestCanonical`, `ResponseCanonical`).
- Two establishment datagrams of different origin commute exactly when they differ in sequence number or agree on the
  session (`EstablishmentsCommute`).
- A dashboard client receives every event the hub hands out exactly when none found its channel full
  (`CompleteUnlessFull`), and every event published while it is registered exactly when, besides, no publish found the
  hub's own queue full (`EveryPublishedEventArrives`).
- When all workers have exited, every accepted job is settled exactly when there was a worker or the queue is empty
  (`AllExitedAllSettled`); with no workers, closing strands the queue (`ClosedQueueCanStrand`).
- `report.md` says that requests shed under load are marked FAILED in the database, and names the statuses CONNECTED,
  ACTIVATING and PENDING; the code never stores a shed request and never writes these statuses. The model follows the
  code: `ShedIsNotStored`, and `CountersTrackRepository` subtracts the refusals.

## Model

| member | source | states |
|---|---|---|
| SystemTheorems.StepKeeps | internal/smf/service.go:106-155 | every step of every worker, handler, receive loop, the UPF, the AMF and the network keeps the whole invariant |
| SystemPreservation.InitInv | internal/smf/service.go:71-76 | the state the orchestrator starts in satisfies the invariant |
| SystemTheorems.RunInv | internal/smf/service.go:106-155 | the invariant holds in every state of every run of fewer than 2^32 requests |
| SystemTheorems.StoredAddressIsInstalled | internal/smf/service.go:226-236 | a session with an address is ACTIVE or FAILED, and the UPF holds, under the number its request took, a session with exactly the four bytes the address denotes |
| SystemTheorems.StoredAddressesDistinct | internal/smf/service.go:94-103 | no two stored sessions share a non-empty address |
| SystemTheorems.OneCallPerChannel | internal/smf/pfcp_client.go:111-147 | each registered number has one channel and one worker in flight on it; no other worker is in flight on that number or channel |
| SystemTheorems.ChannelHoldsOwnAnswer | internal/smf/pfcp_client.go:87-109 | a reply channel holds at most one response, and only the UPF's answer to the channel's own number |
| SystemTheorems.SuccessIsOwnAnswer | internal/smf/pfcp_client.go:138-143 | a call that succeeds returns the UPF's answer to its own number, and the UPF then holds the address of that request |
| SystemTheorems.ReplyTouchesOwnChannel | internal/smf/pfcp_client.go:94-103 | putting a reply changes no channel but one made for the reply's own number, and that only while it is empty |
| SystemTheorems.DeliveryOrderIrrelevant | internal/upf/server.go:94-112 | from any reachable state the UPF's table after any deliveries depends only on the set of datagrams delivered |
| SystemTheorems.JobConservation | internal/smf/service.go:106-155 | requests that reached EnqueueJob = queued + held uncounted + refusals about to be counted + succeeded + failed, also for the wrapping counters modulo 2^64; accepted and uncounted never exceed queue size plus workers |
| SystemTheorems.CountersTrackRepository | internal/smf/service.go:111-149 | #ACTIVE = successes + workers that set ACTIVE and have not settled it; #FAILED = failures - refusals - failed saves - workers between counting and writing FAILED; the counters are these counts modulo 2^64 |
| SystemTheorems.CountersExactWhenIdle | internal/smf/service.go:111-149 | with no busy worker these are plain equalities and nothing is CREATING |
| SystemTheorems.LatencyConserved | internal/smf/service.go:396-408 | latency reported plus what is left in the sum is the latency added, modulo 2^64 |
| SystemTheorems.ShedIsNotStored | internal/smf/service.go:106-114 | a request that was shed, or is about to be counted as shed, has no stored session |
| SystemTheorems.ThroughputConserved | internal/smf/service.go:396-408 | jobs reported by the metrics reporter plus those still in the counter are the jobs completed, modulo 2^64 |
| SystemTheorems.StoredStatus | internal/smf/service.go:134-145 | a stored session is CREATING without an address, ACTIVE with one, or FAILED with one of the four reasons; only FAILED ones have a reason |
| SystemTheorems.StatisticsPartition | internal/smf/db.go:118-129 | in every reachable state the breakdown by reason sums to the failed count, the three status counts sum to the saved sessions, and the grouped breakdown is the in-memory one |
| SystemTheorems.AmfHoldsIssuedReferences | internal/amf/handler.go:133-136 | under any interleaving of triggers, 201 replies and callbacks, late ones included, each reference the AMF holds or calls modify for was issued by the SMF for that IMSI, in an accepted request |
| SystemTheorems.AmfMapGrows | internal/amf/handler.go:164-202 | over any stretch of a run an IMSI once present stays present, and no modify call is taken back |
| SystemPreservation.EncodeNeverFails | pkg/models/pfcp.go:28-32 | an allocated address always has a datagram, so no call fails at encoding |
| SystemRuns.SessionStep | internal/smf/service.go:172-190 | each step leaves a session alone or moves it absent, CREATING, ACTIVE or FAILED, ACTIVE to FAILED; only the worker that holds the session's job writes it |
| SystemRuns.SessionsMoveForward | internal/smf/service.go:120-155 | over any stretch of a run a session never moves back, and a FAILED record never changes |
| SystemRuns.PhaseStep | internal/smf/service.go:106-155 | each step leaves a request where it is or moves it along: numbered, addressed, queued or refused, held, settled |
| SystemRuns.AdmissionDecides | internal/smf/service.go:106-114 | a request is refused only when the queue is full, queued only when it is not and then last, handed over only to an idle worker at a queue without a buffer, and none of these after the close |
| SystemRuns.OneWorkerPerJob | internal/smf/service.go:116-120 | once a worker holds a job no other ever does, and a settled outcome stands |
| SystemRuns.DrainDecreases | internal/smf/service.go:87-92 | after the close every worker step leaves less to do, and no other step changes what is left |
| SystemRuns.DrainBound | internal/smf/service.go:87-92 | after the close the workers take at most as many steps as there was left to do, whatever else interleaves |
| SystemRuns.WorkerNeverStuck | internal/smf/service.go:116-155 | after the close each worker that has not exited can take a step |
| SystemRuns.DrainCompletes | internal/smf/service.go:87-92 | from every closed state the workers alone can reach the state where all have exited |
| SystemRuns.AllExitedAllSettled | internal/smf/service.go:87-92 | when all workers have exited, every accepted job is settled exactly when there was a worker or the queue is empty |
| SystemFrames.Frame | internal/smf/service.go:106-155 | which steps touch requests, repository, phases, AMF map, UPF table, sent datagrams, numbers and workers; all others leave them alone |
| SystemWrites.StoredIfDelivered | internal/upf/server.go:94-112 | over every run, the UPF holds a session under a number exactly when it has received the request issued under that number |
| SystemWrites.FailedSessionOrphans | internal/smf/service.go:226-232 | a FAILED session has or can come to have a UPF session exactly when its request took a number and was written |
| SystemWrites.InstalledLaterIfWritten | internal/smf/pfcp_client.go:133-147 | the same for every job past its write, whatever its outcome |
| SystemWrites.EarlyFailureNeverInstalled | internal/smf/service.go:188-224 | a job that failed at the save or at the UDM has no number, and the UPF never gets a session for it |
| SystemWrites.FailedWriteNeverInstalled | internal/smf/pfcp_client.go:133-136 | nor does it for a job whose write failed |
| SystemWrites.WaitingCallCanSucceed | internal/smf/pfcp_client.go:111-147 | in every reachable state a waiting call has been written, and at most five steps let it succeed with the UPF holding its address |
| SystemRecords.StoredSessionIsOwn | internal/smf/service.go:174-186 | in every reachable state each stored session carries its own request's reference, subscriber, GPSI, session id, DNN, slice, serving function and access type |
| SystemRecords.CallbacksAreOwn | internal/smf/service.go:242-253 | every callback on its way or answered names its own request's reference, subscriber, id, slice and DNN, and is either ACTIVE with REQUEST_ACCEPTED or FAILED with the reason its message is filed under |
| SystemRecords.CallbackSent | internal/smf/service.go:281-303 | a step sends a callback only for a worker: ACTIVE from the call after the PFCP exchange, FAILED from the notification, with the error's text |
| SystemRecords.OutcomeRestsOnAnswer | internal/smf/service.go:266-278 | a job succeeds only if the AMF answered its callback with 200, which started a modify call for its subscriber; it fails with an AMF status only if the AMF answered with that status |
| SystemRecords.AmfHoldsLastTold | internal/amf/handler.go:133-179 | over every run the AMF holds a reference for an IMSI exactly when it is the one it was told last |
| SystemRecords.UpdatesComeFromCallbacks | internal/amf/handler.go:168-202 | over every run the modify calls are exactly those of handled callbacks that are not failures, each for the reference told last |
| SystemWitness.JobCanSucceed | internal/smf/service.go:172-236 | from every state satisfying the invariant, each job a worker has just taken has a continuation that makes its session ACTIVE with its own address, installed in the UPF |
| SystemWitness.FirstJobTaken | internal/smf/handler.go:28-60 | from the start, for every subscriber, profile, clock reading, buffered queue and positive number of workers, a first request can reach a worker |
| SystemWitness.SomeSessionBecomesActive | internal/smf/service.go:234-236 | reachable states within the bound with an ACTIVE session and a non-empty address exist, so the safety theorems are not empty |
| SystemWitness.SomeSessionIsOrphaned | internal/smf/pfcp_client.go:138-146 | reachable states within the bound with a FAILED session that the UPF holds exist |
| SystemWitness.ClosedQueueCanStrand | pkg/config/config.go:128-131 | without workers a reachable closed state holds an accepted job that nobody will settle |
| SystemWitness.TimeoutCanOrphan | internal/smf/pfcp_client.go:138-146 | whenever a worker is about to send its request, some continuation leaves its session FAILED with PFCP_TIMEOUT and no address while the UPF holds the session |
| UpfServer.DeliverInstalls | internal/upf/server.go:94-112 | the table after any deliveries holds exactly the establishments that arrived at least once |
| UpfServer.UpfConfluence | internal/upf/server.go:94-112 | for the requests of one SMF, order and multiplicity of delivery do not matter |
| UpfServer.EstablishmentsCommute | internal/upf/server.go:105-112 | two establishments commute on every table exactly when they differ in number or agree on the session |
| UpfServer.HandleExactly | internal/upf/server.go:86-172 | byte by byte: which datagrams are accepted, that both types leave the PDN type and address of bytes 8 to 12 under the number of bytes 4 to 7 and nothing else, and that the answer is type 51 or 53 with the same number and cause 1 |
| UpfServer.HandleSeen | internal/upf/server.go:62-81 | a datagram longer than the read buffer is handled as if it had been read whole |
| UpfServer.Server.HandlePacket | internal/upf/server.go:86-172 | decodes, stores under the sequence number, then answers; anything else is ignored without a reply |
| UpfServer.Server.ReadFromUDP | internal/upf/server.go:68 | overwriting the shared buffer changes no stored session |
| UpfServer.Server.ListenOnce | internal/upf/server.go:68-80 | one read yields a fresh copy of the datagram as far as the buffer holds it, and changes no stored session |
| UpfServer.Server.ListenLoop | internal/upf/server.go:61-84 | for any interleaving of arrivals and handlers, the table, addresses read through windows on the stored packets, is the one the handled datagrams determine in their order |
| PfcpClient.DeliverAllByNumber | internal/smf/pfcp_client.go:87-109 | after any arrivals each box holds what it held, or the first reply to its own number |
| PfcpClient.LookupThenPut | internal/smf/pfcp_client.go:94-103 | looking a reply up and then putting it is handling it at once |
| PfcpClient.CallSucceedsOnOwnReply | internal/smf/pfcp_client.go:138-146 | a call that is not timed out succeeds exactly when the first reply bearing its number accepts |
| PfcpClient.PFCPClient.HandleResponse | internal/smf/pfcp_client.go:87-109 | puts a decodable reply in the empty channel of its number and touches nothing else |
| PfcpClient.PFCPClient.ReceiveLoop | internal/smf/pfcp_client.go:62-85 | for any interleaving of arrivals and handlers, through one reused buffer, the boxes end up as the handled datagrams determine in their order |
| PfcpClient.PFCPClient.SendSessionEstablishmentRequest | internal/smf/pfcp_client.go:111-147 | takes the next number, sends exactly the encoded request, returns what the first reply to that number says or an error, and leaves no registration behind |
| Codec.RequestRoundTrip | pkg/models/pfcp.go:28-63 | an encoded request decodes to the same type, number and address, with or without trailing bytes |
| Codec.ResponseRoundTrip | pkg/models/pfcp.go:66-94 | the same for responses and their cause |
| Codec.EncodedRoundTrip | pkg/models/pfcp.go:28-43 | encoding fails exactly on texts without an IPv4 reading; otherwise the four bytes of the text come back |
| Codec.RequestCanonical | pkg/models/pfcp.go:46-63 | decoding and encoding again restores a request exactly when it has 13 bytes, the flags, length 5 and PDN type 1 |
| Codec.ResponseCanonical | pkg/models/pfcp.go:78-94 | the same for responses: 9 bytes, the flags, length 1 |
| Codec.RequestLayout | pkg/models/pfcp.go:34-40 | 13 bytes: 0x20, type, 0, 5, the sequence number with byte 4 weighing most, 1, the address |
| Codec.ResponseLayout | pkg/models/pfcp.go:67-72 | 9 bytes: 0x20, type, 0, 1, the sequence number with byte 4 weighing most, the cause |
| Codec.RequestFields | pkg/models/pfcp.go:46-63 | what is accepted, which error the rest gets, and that each field is read from its bytes, the first weighing most |
| Codec.ResponseFields | pkg/models/pfcp.go:78-94 | the same for responses |
| Codec.EveryRunHandles | internal/upf/server.go:81 | in a schedule where every run finds its goroutine, each handles one datagram |
| Codec.SequentialOrder | internal/upf/server.go:81 | handling each datagram before the next arrives handles them in their order |
| Codec.OrderArrived | internal/upf/server.go:81 | whatever the interleaving, each handled datagram arrived and none is handled more often than it arrived |
| Codec.SeenSuffices | pkg/models/pfcp.go:46-60 | cutting a datagram to 1024 bytes does not change what it decodes to |
| Codec.EncodeRequest | pkg/models/pfcp.go:28-43 | the buffer written in place is the specified datagram, or an error for a text without four bytes |
| Codec.DecodeRequest | pkg/models/pfcp.go:46-63 | the decoded message, its address a window on the datagram itself; short or wrongly flagged data is an error |
| Codec.EncodeResponse | pkg/models/pfcp.go:66-75 | the buffer written in place is the specified datagram |
| Codec.DecodeResponse | pkg/models/pfcp.go:78-94 | the decoded response, or the error for short or wrongly flagged data |
| Address.ParseIPv4Exact | pkg/models/pfcp.go:29 | the IPv4 reader accepts exactly the printed dotted quads, each for its own four bytes |
| Address.DottedReadsBack | pkg/models/pfcp.go:29 | a printed address is read back as itself whatever the IPv6 reader does |
| Address.DottedInjective | internal/smf/service.go:94-103 | two 32-bit values print alike exactly when they are equal |
| SmContext.OffsetOfAddress | internal/smf/service.go:94-103 | below 2^32 allocations the value handed out determines which allocation it was, and one more allocation is one increment |
| Address.DottedWeighs | internal/smf/service.go:94-103 | the four printed numbers weigh the 32-bit value, the first weighing most |
| SmContext.FirstAddresses | internal/smf/service.go:76 | the nth address handed out, for n below 255, reads "10.11.22." and the decimal text of n + 1 |
| SmContext.RefReads | internal/smf/handler.go:43 | the prefix, the decimal clock reading, a dash and the decimal counter |
| SmContext.RefInjective | internal/smf/handler.go:43 | a reference determines its clock reading, negative ones included, and its counter |
| SmContext.RefsDistinct | internal/smf/handler.go:43 | two requests share a reference exactly when the clock read the same and their arrival numbers agree modulo 2^64 |
| FailureReason.IndexString | internal/smf/service.go:163-170 | the least occurrence, or -1 when there is none |
| FailureReason.ContainsString | internal/smf/service.go:158-161 | true exactly when there is an occurrence |
| FailureReason.ContainsConcat | internal/smf/service.go:138-143 | a marker that cannot straddle the seam occurs in a concatenation exactly when it occurs in one part |
| FailureReason.Classify | internal/smf/service.go:134-145 | the switch of the worker loop yields the specified reason for every text |
| FailureReason.ReasonInWords | internal/smf/service.go:136-143 | the marker texts and reason texts, in their order |
| FailureReason.PfcpFailureReason | internal/smf/service.go:231 | a PFCP-stage error is filed as PFCP_TIMEOUT for every inner text |
| FailureReason.N1N2FailureReason | internal/smf/service.go:268 | an N1N2 transport error is filed as N1N2_FAILED exactly when the inner text lacks "PFCP" |
| FailureReason.AmfStatusReason | internal/smf/service.go:273-275 | an AMF error status is filed as N1N2_FAILED exactly when its status text lacks "PFCP" |
| FailureReason.SaveFailureReason | internal/smf/service.go:189 | a save error is filed as DB_ERROR exactly when the inner text has none of the earlier markers |
| FailureReason.FiledUnderItsStage | internal/smf/service.go:133-145 | every failure is filed under its own stage exactly when the text it wraps does not mislead |
| Repository.ReasonCountsTotal | internal/smf/db.go:118-129 | the breakdown sums to the failed sessions with a reason; to all failed ones exactly when none lacks it |
| Repository.StatusCountsCover | internal/smf/db.go:280-294 | the three counts cover the table exactly when every status is one of the four counted |
| Repository.StatusCountUpdate | internal/smf/db.go:280-294 | what one write does to a status count |
| Repository.ReasonCountsAdd | internal/smf/db.go:118-129 | what one more session does to the breakdown |
| Repository.GroupedCountByStatus | internal/smf/db.go:296-324 | adding up the groups, in any order, gives the counts of the one-pass scan on any table |
| Repository.GroupedCountByFailureReason | internal/smf/db.go:239-261 | the map copied from the groups is the number of failed sessions for each reason on a table without null reasons, and adds up to the failed rows exactly when a null reason and "UNKNOWN" do not both occur |
| Repository.GroupedReasonsReported | internal/smf/db.go:239-261 | whatever order the groups come in, the map built from them is the number of failed sessions for each reason |
| Repository.GroupedReasonsAgree | internal/smf/db.go:239-261 | the grouped breakdown equals the in-memory one exactly when no failed session has an empty reason |
| Repository.GroupedReasonsTotal | internal/smf/db.go:239-261 | the grouped breakdown sums to the failed rows exactly when a null reason and "UNKNOWN" do not both occur |
| InMemoryRepository.Store.SaveSession | internal/smf/db.go:39-51 | stamps the caller's record and stores a private copy under its reference |
| InMemoryRepository.Store.GetSession | internal/smf/db.go:53-63 | a fresh copy of the stored record, or nothing for an unknown reference |
| InMemoryRepository.Store.UpdateSessionStatusWithReason | internal/smf/db.go:78-90 | sets status and reason of a known session in place and nothing else; reports an unknown one |
| InMemoryRepository.Store.UpdateSessionStatusAndIP | internal/smf/db.go:92-104 | sets status and address of a known session in place and nothing else; reports an unknown one |
| InMemoryRepository.Store.GetAllSessions | internal/smf/db.go:106-116 | fresh copies of all records, each once |
| InMemoryRepository.Store.CountByStatus | internal/smf/db.go:280-294 | the loop counts the sets of ACTIVE, of PENDING or CREATING, and of FAILED sessions |
| InMemoryRepository.Store.CountByFailureReason | internal/smf/db.go:118-129 | the loop computes the breakdown by non-empty reason |
| AmfHandler.LatestReferenceWins | internal/amf/handler.go:133-179 | after any sequence of triggers and callbacks the AMF holds for each IMSI the reference it was told last |
| AmfHandler.ModifyNamesLatest | internal/amf/handler.go:187-202 | a callback that is not a failure gets 200 exactly when the IMSI was told a reference, 404 otherwise, and its modify call names the last one told |
| AmfHandler.CallbackAnswers | internal/amf/handler.go:144-202 | every answer after any events: 400 without effect if unreadable; for a failure 200, no modify call, the named reference held from then on; otherwise nothing changes and a modify call with 200 exactly when a reference was told |
| AmfHandler.TriggerAnswers | internal/amf/handler.go:59-141 | the status for each way the SMF answers, and a reference stored for the trigger's own subscriber exactly on a readable 201 |
| AmfHandler.ModifyNamesOwnSession | internal/amf/handler.go:164-202 | the modify call names the callback's own session exactly when that was told last |
| AmfHandler.ModifyOfAnotherSession | internal/amf/handler.go:164-202 | two triggers for one IMSI make the first callback modify the second session |
| AmfHandler.Handler.TriggerEstablishment | internal/amf/handler.go:42-141 | the status sent back for each way the SMF answers, and a reference stored exactly on a readable 201 |
| AmfHandler.Handler.ReceiveN1N2Callback | internal/amf/handler.go:144-202 | 400, 404 or 200, the reference stored on a failure callback, the modify call started on any other |
| Orchestrator.Orchestrator.AllocateIP | internal/smf/service.go:94-103 | increments the wrapping counter and prints its four bytes |
| Orchestrator.Orchestrator.EnqueueJob | internal/smf/service.go:106-114 | accepts exactly when the buffer has room; otherwise counts a failure and leaves the queue |
| Orchestrator.Orchestrator.CreateSMContext | internal/smf/handler.go:28-80 | 400, 201 with the reference that was queued with its address, or 503 with a failure counted and an address spent |
| Orchestrator.Orchestrator.ProcessEstablishment | internal/smf/service.go:172-279 | the error of the first stage that fails, and the repository as that leaves it |
| Orchestrator.Orchestrator.NotifyAMFSessionFailure | internal/smf/service.go:281-338 | exactly when the session is stored, a failure callback with the cause and message given and the session's own id, slice and DNN |
| Orchestrator.Orchestrator.RunJob | internal/smf/service.go:120-152 | one turn of the worker loop changes repository, counters and callbacks as specified |
| Orchestrator.Orchestrator.Worker | internal/smf/service.go:116-155 | on a closed queue a worker runs every job once, in order |
| Orchestrator.Orchestrator.Stop | internal/smf/service.go:87-92 | closes the queue and returns when the worker has run every job in it once, in order |
| Orchestrator.Orchestrator.ReportMetrics | internal/smf/service.go:405-408 | hands out and zeroes throughput and latency, and leaves the outcome counters |
| Outcomes.FirstFailedStageDecides | internal/smf/service.go:172-279 | a job succeeds exactly when the save succeeded, the UDM answered 200 with its own DNN and slice, its address is IPv4, the write succeeded, the call did not expire and its first reply accepts, and the AMF answered 200; otherwise the first stage it does not pass names the error |
| Outcomes.UpfDecides | internal/smf/pfcp_client.go:111-147 | the PFCP call fails exactly unless the first reply accepts in time, with the text for each way it fails |
| Outcomes.UdmErrorKind | internal/smf/service.go:195-222 | which error each answer of the UDM amounts to |
| Outcomes.AmfErrorKind | internal/smf/service.go:256-275 | which error each answer of the AMF amounts to |
| Outcomes.FiledAs | internal/smf/service.go:133-145 | the reason a failed job is filed under, from what it met |
| Outcomes.WorkRecords | internal/smf/service.go:120-152 | one job from the outside: the record field by field with its status, address, reason and times, the counters, the number used, and the notice with the error's text |
| Outcomes.WorkAllRecords | internal/smf/service.go:116-155 | after a drained queue every job's record is exactly what the job met says |
| Outcomes.WorkAllNumbers | internal/smf/pfcp_client.go:112 | the sequence numbers of a drained queue run on without a gap, one for each job that reaches the PFCP call |
| Outcomes.WorkAllLatency | internal/smf/service.go:127-128 | the latency sum grows by what the jobs took, modulo 2^64 |
| Orchestrator.WorkSettles | internal/smf/service.go:172-279 | one job leaves its session in the standing System gives a job settled that way, and touches no other session |
| Orchestrator.WorkAllSettles | internal/smf/service.go:116-155 | after a drained queue every job's session shows its own fate and every other session is untouched |
| Orchestrator.WorkAllTallies | internal/smf/service.go:127-149 | success, failure and throughput counters move by the number of fates of each kind, modulo 2^64 |
| Orchestrator.WorkAllCounts | internal/smf/service.go:127-149 | the repository gains one ACTIVE session for each success and one FAILED for each failure after the save |
| Orchestrator.NoticesMatchFailures | internal/smf/service.go:144-147 | the AMF is sent a failure notice for exactly the sessions that end FAILED, with the subscriber, reason, id, slice and DNN the repository shows and a message that is filed under that reason |
| Dashboard.RunInv | internal/smf/dashboard.go:30-110 | the hub's invariant holds in every state of every run |
| Dashboard.ChannelsAreSafe | internal/smf/dashboard.go:30-56 | no channel is sent to after its close or closed twice; a channel is closed exactly when its connection is gone, and no streaming connection sees its channel closed |
| Dashboard.BuffersAreBounded | internal/smf/dashboard.go:25 | at most 200 events wait in the hub's queue and 20 messages in a channel |
| Dashboard.DropsOnlyWhenFull | internal/smf/dashboard.go:48-53 | an event is dropped only when 200 wait, a message missed only when 20 wait |
| Dashboard.HubIsFirstInFirstOut | internal/smf/dashboard.go:59-71 | the events that found room are exactly those taken by the hub followed by those still queued |
| Dashboard.ReceivedIsSelection | internal/smf/dashboard.go:74-110 | what a client was given is an order-preserving selection, without repetition, of the messages taken while it was registered; every other one found its channel full |
| Dashboard.CompleteUnlessFull | internal/smf/dashboard.go:44-53 | a client is given every message served since it registered exactly when none found its channel full |
| Dashboard.EveryPublishedEventArrives | internal/smf/dashboard.go:59-71 | a client is given, or still has to be handed, the hub's backlog at its registration and then every event published while it is registered, exactly when no publish in that time found the hub's queue full and no message found its channel full |
| Dashboard.FanOutAdvances | internal/smf/dashboard.go:44-53 | the hub is never blocked by a client while it hands out a message |
| Dashboard.DashboardHub.HandleRegister | internal/smf/dashboard.go:33-36 | adds the channel to the subscribers |
| Dashboard.DashboardHub.HandleUnregister | internal/smf/dashboard.go:37-43 | removes the channel and closes it only if it was still registered |
| Dashboard.DashboardHub.HandleBroadcast | internal/smf/dashboard.go:44-53 | the oldest event goes to every subscriber with room; full ones are skipped |
| Dashboard.DashboardHub.BroadcastEvent | internal/smf/dashboard.go:59-71 | the formatted event is queued if the queue has room and the event can be encoded |

## Left out

- HTTP servers and clients, JSON, URL escaping, sockets and logging: each external call is a nondeterministic outcome,
  and a SUPI is an opaque text.
- PostgreSQL connections and errors of repository writes the code ignores: a failed save is modelled, other writes
  succeed. The grouped queries are modelled as any grouping of an abstract table.
- Retries of a failed save and rows kept by a save that reported an error: a failed save stores nothing.
- `SendSessionModificationRequest`, `UpdateSMContext`, `failSession`, `NotifyAMFJobFailure`, `UpdateSessionStatus`:
  without callers or stubs. The UPF's handling of modification requests is modelled.
- Real time: timers, the delay before a modify call, averages of the latency. The two swaps of the metrics reporter are
  separate steps in System, so the two sums are each conserved but need not be of the same jobs.
- UDM lookup, configuration, command-line entry points, the load generator, web and deployment files: plumbing.
- More than one SMF or UPF, and restarts: sequence numbers and addresses repeat there.
- Orchestrator.Orchestrator.Worker: one worker on a closed queue; the interleaving of workers, handlers and shutdown is
  in System, whose steps use the same functions for the repository, the client, the UPF and the AMF.
- PfcpClient.PFCPClient.SendSessionEstablishmentRequest: the replies handled while the call waits are handled before it
  looks at its channel; a call that takes its reply between two of them is in System, step `TakeReply`.
- Orchestrator.Orchestrator.EnqueueJob: the class has no worker waiting beside it, so with a queue size of 0 it always
  refuses; the hand-over to a waiting worker is step `HandOver` of System.
- Orchestrator.Orchestrator.CreateSMContext: the same, as it enqueues through EnqueueJob.
- What the AMF does with the id, slice, DNN and message of a callback: it only logs them.
- System.Refuse: with an unbuffered queue a request may be refused although a worker is idle, since the send depends on
  whether that worker already waits; System allows both.
- Session statuses are four constants and OTHER for any further text; `Repository.Session` keeps all stored fields.
- `net.ParseIP` on texts whose first separator is a colon is a parameter: any function to four bytes or nothing.

/** AMF, SMF, UPF and the datagram network between SMF and UPF as one labelled transition system.
    Every step is one atomic action of one goroutine; workers, handlers, receive loops and the
    network interleave freely. */
module System {
  import opened Address
  import opened Bytes
  import opened Codec
  import opened FailureReason
  import opened PfcpClient
  import opened SmContext
  import opened Wrappers
  import AmfHandler
  import Repository
  import UpfServer

  // ----- requests -----

  /** What a call of CreateSMContext is about, fixed when it takes its number. `clock` records the
      clock reading in the reference. */
  datatype Intake = Intake(ref: string, supi: string, profile: Profile, clock: int)

  /** Where a request is. Queued and Held say which slot or worker has its job, Settled how its
      job ended. */
  datatype Phase =
    | Numbered
    | Addressed
    | Queued(ticket: nat)
    | Held(worker: nat)
    | Settled(outcome: Option<StageError>)
    | Shedding
    | Shed

  // ----- workers -----

  datatype Holder = Idle | Busy(id: nat) | Exited

  /** The next action of a busy worker; Free for the others. `err` is what processEstablishment
      returned, `sent` whether the request of an HTTP call is out. */
  datatype At =
    | Free
    | Save
    | Query
    | Number
    | Register(seqNum: U32, data: Datagram)
    | Write(seqNum: U32, ch: nat, data: Datagram)
    | Wait(seqNum: U32, ch: nat)
    | Unregister(seqNum: U32, ch: nat, reply: Result<Response, string>)
    | Activate
    | Call(sent: bool)
    | AddLatency(err: Option<StageError>)
    | AddTps(err: Option<StageError>)
    | Record(err: Option<StageError>)
    | Mark(failure: StageError)
    | Notify(failure: StageError, sent: bool)

  // ----- callbacks -----

  /** A callback of the SMF about request `id`, on its way to the AMF. */
  datatype Callback = Callback(id: nat, imsi: string, body: AmfHandler.Transfer)

  // ----- the state -----

  /** What an observer of the whole run has counted and noted; no step reads it. */
  datatype History = History(
    arrived: nat,                  // requests that reached EnqueueJob
    rejected: nat,                 // of these, counted as shed
    succeeded: nat, failed: nat,   // outcomes counted, without wrap-around
    unsaved: nat,                  // failures counted for jobs whose save failed
    dequeued: nat,                 // jobs taken from the queue
    addresses: nat, calls: nat,    // addresses and sequence numbers handed out
    completed: nat, reported: nat, // jobs added to and reported from the throughput counter
    micros: nat, microsOut: nat,   // the same for the latency sum
    accepted: set<nat>,            // requests whose job was accepted
    refOwner: map<string, nat>, addrOwner: map<U32, nat>, seqOwner: map<U32, nat>,
    issued: map<U32, Quad>)        // the address sent under each sequence number

  /** A request is known by its index in `requests`: `phases` says how far it is, `addrs` which address
      it was given, `tags` which PFCP sequence number it took, `acked` whether the AMF has its reference.
      A queued or held job is the index of its request. `ats` goes with `holders`. */
  datatype State = State(
    queueSize: nat,
    contextCounter: U64, ipCounter: U32,
    requests: seq<Intake>, phases: seq<Phase>, addrs: map<nat, U32>, tags: map<nat, U32>, acked: set<nat>,
    queue: seq<nat>, closed: bool,
    holders: seq<Holder>, ats: seq<At>,
    successCounter: U64, failCounter: U64, tpsCounter: U64, latencySum: U64,
    repo: Repository.Table,
    client: Client, sorted: multiset<(nat, Response)>,  // replies looked up but not yet put
    toUpf: set<Datagram>, toSmf: set<Datagram>,         // every datagram ever sent
    upf: UpfServer.Table, replies: multiset<Datagram>,  // replies the UPF has yet to send
    callbacks: multiset<Callback>,                      // sent and not yet handled by the AMF
    answers: set<(Callback, nat)>,                      // the statuses the AMF answered with
    amf: map<string, string>, updates: set<(string, string)>,
    log: History)
  {
    predicate Aligned() {
      |phases| == |requests| && |ats| == |holders|
    }

    predicate InPhase(k: nat, p: Phase) {
      Aligned() && k < |requests| && phases[k] == p
    }

    /** The address text of a request, empty before the allocation. */
    function IpOf(k: nat): string {
      if k in addrs then DottedU32(addrs[k]) else ""
    }

    function JobOf(k: nat): Job
      requires k < |requests|
    {
      Job(requests[k].ref, requests[k].supi, IpOf(k), requests[k].profile)
    }

    /** Worker `w` holds a job and is about to take an action. */
    predicate Working(w: nat) {
      && Aligned() && w < |holders| && holders[w].Busy?
      && holders[w].id < |requests| && holders[w].id in addrs
    }

    /** The worker goes on to `at`. */
    function Goto(w: nat, at: At): State
      requires w < |ats|
    {
      this.(ats := ats[w := at])
    }

    /** The worker takes the job of request `k`. */
    function Take(w: nat, k: nat): State
      requires w < |holders| && w < |ats| && k < |phases|
    {
      this.(holders := holders[w := Busy(k)], ats := ats[w := Save], phases := phases[k := Held(w)])
    }

    /** The worker is done with its job. */
    function Finish(w: nat, outcome: Option<StageError>): State
      requires Working(w)
    {
      this.(holders := holders[w := Idle], ats := ats[w := Free], phases := phases[holders[w].id := Settled(outcome)])
    }
  }

  ghost predicate Init(s: State) {
    && s.Aligned()
    && s.contextCounter == 0 && s.ipCounter == FIRST_ADDRESS && s.requests == []
    && s.addrs == map[] && s.tags == map[] && s.acked == {}
    && s.queue == [] && !s.closed
    && (forall w | 0 <= w < |s.holders| :: s.holders[w] == Idle && s.ats[w] == Free)
    && s.successCounter == s.failCounter == s.tpsCounter == s.latencySum == 0
    && s.repo == map[] && s.client == Client(0, map[], []) && s.sorted == multiset{}
    && s.toUpf == {} && s.toSmf == {} && s.upf == map[] && s.replies == multiset{}
    && s.callbacks == multiset{} && s.answers == {} && s.amf == map[] && s.updates == {}
    && s.log == History(0, 0, 0, 0, 0, 0, 0, 0, 0, 0, 0, 0, {}, map[], map[], map[], map[])
  }

  // ----- steps of the request handlers -----

  ghost predicate Arrive(s: State, t: State, clock: int, supi: string, profile: Profile) {
    var c := Add64(s.contextCounter, 1);
    var r := Intake(Ref(clock, c), supi, profile, clock);
    && s.Aligned()
    && t == s.(contextCounter := c, requests := s.requests + [r], phases := s.phases + [Numbered],
               log := s.log.(refOwner := s.log.refOwner[r.ref := |s.requests|]))
  }

  ghost predicate Allocate(s: State, t: State, k: nat) {
    && s.InPhase(k, Numbered)
    && var v := Inc32(s.ipCounter);
       t == s.(ipCounter := v, addrs := s.addrs[k := v], phases := s.phases[k := Addressed],
               log := s.log.(addresses := s.log.addresses + 1, addrOwner := s.log.addrOwner[v := k]))
  }

  /** EnqueueJob with room in the buffer. */
  ghost predicate Enqueue(s: State, t: State, k: nat) {
    && !s.closed && s.InPhase(k, Addressed) && |s.queue| < s.queueSize
    && t == s.(phases := s.phases[k := Queued(s.log.dequeued + |s.queue|)], queue := s.queue + [k],
               log := s.log.(arrived := s.log.arrived + 1, accepted := s.log.accepted + {k}))
  }

  /** EnqueueJob on a queue without a buffer, straight to a worker waiting for a job. */
  ghost predicate HandOver(s: State, t: State, k: nat, w: nat) {
    && !s.closed && s.InPhase(k, Addressed) && s.queueSize == 0 && w < |s.holders| && s.holders[w] == Idle
    && t == s.Take(w, k).(log := s.log.(arrived := s.log.arrived + 1, accepted := s.log.accepted + {k}))
  }

  /** EnqueueJob finds no room. */
  ghost predicate Refuse(s: State, t: State, k: nat) {
    && !s.closed && s.InPhase(k, Addressed) && |s.queue| >= s.queueSize
    && t == s.(phases := s.phases[k := Shedding], log := s.log.(arrived := s.log.arrived + 1))
  }

  ghost predicate CountRefusal(s: State, t: State, k: nat) {
    && s.InPhase(k, Shedding)
    && t == s.(phases := s.phases[k := Shed], failCounter := Add64(s.failCounter, 1),
               log := s.log.(rejected := s.log.rejected + 1, failed := s.log.failed + 1))
  }

  /** The AMF receives the 201 reply and stores the reference. */
  ghost predicate Acknowledge(s: State, t: State, k: nat) {
    && s.Aligned() && k < |s.requests| && k in s.log.accepted && k !in s.acked
    && var r := s.requests[k];
       t == s.(amf := AmfHandler.Trigger(s.amf, Some(r.supi), AmfHandler.Created(Some(r.ref))).sessions,
               acked := s.acked + {k})
  }

  ghost predicate Close(s: State, t: State) {
    s.Aligned() && !s.closed && t == s.(closed := true)
  }

  // ----- steps of the workers -----

  ghost predicate Dequeue(s: State, t: State, w: nat) {
    && s.Aligned() && w < |s.holders| && s.holders[w] == Idle && s.queue != [] && s.queue[0] < |s.requests|
    && t == s.Take(w, s.queue[0]).(queue := s.queue[1..], log := s.log.(dequeued := s.log.dequeued + 1))
  }

  ghost predicate Exit(s: State, t: State, w: nat) {
    && s.Aligned() && w < |s.holders| && s.holders[w] == Idle && s.closed && s.queue == []
    && t == s.(holders := s.holders[w := Exited])
  }

  ghost predicate SaveSession(s: State, t: State, w: nat, now: int) {
    && s.Working(w) && s.ats[w] == Save
    && t == s.Goto(w, Query).(repo := Repository.Save(s.repo, NewSession(s.JobOf(s.holders[w].id)), now))
  }

  ghost predicate SaveFails(s: State, t: State, w: nat, inner: string) {
    && s.Working(w) && s.ats[w] == Save
    && t == s.Goto(w, AddLatency(Some(SaveFailed(inner))))
  }

  predicate IsUdmError(e: StageError) {
    e.UdmRequestFailed? || e.UdmUnreachable? || e.UdmNotFound? || e.UdmStatus? || e.UdmDecodeFailed? || e.UdmMismatch?
  }

  ghost predicate QueryUdm(s: State, t: State, w: nat, err: Option<StageError>) {
    && s.Working(w) && s.ats[w] == Query
    && (err.Some? ==> IsUdmError(err.value))
    && t == s.Goto(w, if err.Some? then AddLatency(err) else Number)
  }

  /** A sequence number, and the datagram for it. */
  ghost predicate TakeNumber(s: State, t: State, w: nat, v6: V6Reader) {
    && s.Working(w) && s.ats[w] == Number
    && var n, k := Inc32(s.client.seqCounter), s.holders[w].id;
       && Encoded(ESTABLISHMENT_REQUEST, n, s.IpOf(k), v6).Ok?
       && t == s.Goto(w, Register(n, Encoded(ESTABLISHMENT_REQUEST, n, s.IpOf(k), v6).value)).(
                 client := s.client.TakeNumber(), tags := s.tags[k := n],
                 log := s.log.(calls := s.log.calls + 1, seqOwner := s.log.seqOwner[n := k],
                               issued := s.log.issued[n := U32Bytes(s.addrs[k])]))
  }

  /** A sequence number, but no datagram for the address. */
  ghost predicate EncodeFails(s: State, t: State, w: nat, v6: V6Reader) {
    && s.Working(w) && s.ats[w] == Number
    && Encoded(ESTABLISHMENT_REQUEST, Inc32(s.client.seqCounter), s.IpOf(s.holders[w].id), v6).Err?
    && t == s.Goto(w, AddLatency(Some(PfcpFailed("invalid IPv4 address")))).(
              client := s.client.TakeNumber(), log := s.log.(calls := s.log.calls + 1))
  }

  ghost predicate RegisterCall(s: State, t: State, w: nat) {
    && s.Working(w) && s.ats[w].Register?
    && var Register(n, data) := s.ats[w];
       t == s.Goto(w, Write(n, |s.client.channels|, data)).(client := s.client.Register(n, s.holders[w].id))
  }

  ghost predicate WriteRequest(s: State, t: State, w: nat) {
    && s.Working(w) && s.ats[w].Write?
    && t == s.Goto(w, Wait(s.ats[w].seqNum, s.ats[w].ch)).(toUpf := s.toUpf + {s.ats[w].data})
  }

  ghost predicate WriteFails(s: State, t: State, w: nat, inner: string) {
    && s.Working(w) && s.ats[w].Write?
    && t == s.Goto(w, Unregister(s.ats[w].seqNum, s.ats[w].ch, Err(inner)))
  }

  ghost predicate TakeReply(s: State, t: State, w: nat) {
    && s.Working(w) && s.ats[w].Wait?
    && var Wait(n, ch) := s.ats[w];
       && ch < |s.client.channels| && s.client.channels[ch].buf != []
       && var res := s.client.channels[ch].buf[0];
          t == s.Goto(w, Unregister(n, ch, if res.cause == ACCEPTED then Ok(res)
                                           else Err("PFCP session establishment rejected by UPF"))).(
                 client := s.client.TakeReply(ch))
  }

  ghost predicate Expire(s: State, t: State, w: nat) {
    && s.Working(w) && s.ats[w].Wait?
    && t == s.Goto(w, Unregister(s.ats[w].seqNum, s.ats[w].ch,
                                 Err("timeout waiting for PFCP session establishment response")))
  }

  ghost predicate UnregisterCall(s: State, t: State, w: nat) {
    && s.Working(w) && s.ats[w].Unregister?
    && var reply := s.ats[w].reply;
       t == s.Goto(w, if reply.Ok? then Activate else AddLatency(Some(PfcpFailed(reply.error)))).(
              client := s.client.Unregister(s.ats[w].seqNum))
  }

  ghost predicate ActivateSession(s: State, t: State, w: nat, now: int) {
    && s.Working(w) && s.ats[w] == Activate
    && var k := s.holders[w].id;
       t == s.Goto(w, Call(false)).(
              repo := Repository.SetIP(s.repo, s.requests[k].ref, Repository.ACTIVE, s.IpOf(k), now))
  }

  function ActiveCallback(r: Intake, id: nat): Callback {
    Callback(id, r.supi, ActiveTransfer(r.ref, r.profile))
  }

  ghost predicate SendActive(s: State, t: State, w: nat) {
    && s.Working(w) && s.ats[w] == Call(false)
    && var k := s.holders[w].id;
       t == s.Goto(w, Call(true)).(callbacks := s.callbacks + multiset{ActiveCallback(s.requests[k], k)})
  }

  /** The AMF handles a callback: any one that was sent, at any later time, whether or not the worker still
      waits for the answer. */
  ghost predicate AmfHandles(s: State, t: State, c: Callback) {
    && s.Aligned() && c in s.callbacks
    && var answer := AmfHandler.Callback(s.amf, c.imsi, Some(c.body));
       t == s.(callbacks := s.callbacks - multiset{c}, answers := s.answers + {(c, answer.code)},
               amf := answer.sessions,
               updates := if answer.update.Some? then s.updates + {answer.update.value} else s.updates)
  }

  /** An error of the last stage, after the session became ACTIVE. */
  predicate IsCallError(e: StageError) {
    e.N1N2NotBuilt? || e.N1N2Failed? || e.AmfStatus?
  }

  /** The callback returns to the worker with the AMF's answer, or cannot be built, or fails: a transport
      error or a timeout, whatever the AMF does. */
  ghost predicate CallReturns(s: State, t: State, w: nat, err: Option<StageError>) {
    && s.Working(w) && s.ats[w].Call?
    && var k := s.holders[w].id;
       var c := ActiveCallback(s.requests[k], k);
       && (match err
           case None => s.ats[w].sent && (c, 200) in s.answers
           case Some(e) =>
             && IsCallError(e)
             && (e.AmfStatus? ==> s.ats[w].sent && e.code != 200 && (c, e.code) in s.answers)
             && (e.N1N2NotBuilt? ==> !s.ats[w].sent))
       && t == s.Goto(w, AddLatency(err))
  }

  ghost predicate LatencyAdded(s: State, t: State, w: nat, micros: U64) {
    && s.Working(w) && s.ats[w].AddLatency?
    && t == s.Goto(w, AddTps(s.ats[w].err)).(
              latencySum := Add64(s.latencySum, micros), log := s.log.(micros := s.log.micros + micros))
  }

  ghost predicate TpsAdded(s: State, t: State, w: nat) {
    && s.Working(w) && s.ats[w].AddTps?
    && t == s.Goto(w, Record(s.ats[w].err)).(
              tpsCounter := Add64(s.tpsCounter, 1), log := s.log.(completed := s.log.completed + 1))
  }

  ghost predicate RecordSuccess(s: State, t: State, w: nat) {
    && s.Working(w) && s.ats[w] == Record(None)
    && t == s.Finish(w, None).(successCounter := Add64(s.successCounter, 1),
                               log := s.log.(succeeded := s.log.succeeded + 1))
  }

  ghost predicate RecordFailure(s: State, t: State, w: nat) {
    && s.Working(w) && s.ats[w].Record? && s.ats[w].err.Some?
    && var e := s.ats[w].err.value;
       t == s.Goto(w, Mark(e)).(
              failCounter := Add64(s.failCounter, 1),
              log := s.log.(failed := s.log.failed + 1, unsaved := s.log.unsaved + if e.SaveFailed? then 1 else 0))
  }

  ghost predicate MarkFailed(s: State, t: State, w: nat, now: int) {
    && s.Working(w) && s.ats[w].Mark?
    && var e := s.ats[w].failure;
       t == s.Goto(w, Notify(e, false)).(
              repo := Repository.SetReason(s.repo, s.requests[s.holders[w].id].ref, Repository.FAILED,
                ReasonOf(Text(e)), now))
  }

  ghost function FailureCallback(r: Intake, id: nat, session: Repository.Session, e: StageError): Callback {
    Callback(id, r.supi, FailureTransfer(r.ref, session, ReasonOf(Text(e)), Text(e)))
  }

  /** The failure is reported to the AMF unless the session is missing. */
  ghost predicate NotifyFailure(s: State, t: State, w: nat) {
    && s.Working(w) && s.ats[w].Notify? && !s.ats[w].sent
    && var k, e := s.holders[w].id, s.ats[w].failure;
       var r := s.requests[k];
       && r.ref in s.repo
       && t == s.Goto(w, Notify(e, true)).(
                 callbacks := s.callbacks + multiset{FailureCallback(r, k, s.repo[r.ref], e)})
  }

  /** The worker is done with a failed job: nothing was sent, or the AMF answered, or the call gave up. */
  ghost predicate FinishFailure(s: State, t: State, w: nat) {
    && s.Working(w) && s.ats[w].Notify?
    && t == s.Finish(w, Some(s.ats[w].failure))
  }

  // ----- steps of the network, the UPF and the receive loop -----

  /** The UPF handles a datagram that was sent to it; any number of times, in any order, or never. */
  ghost predicate UpfReceives(s: State, t: State, p: Datagram) {
    && s.Aligned() && p in s.toUpf
    && var h := UpfServer.Handle(s.upf, p);
       t == s.(upf := h.table, replies := s.replies + if h.reply.Some? then multiset{h.reply.value} else multiset{})
  }

  /** The UPF sends a reply it owes, or fails to. */
  ghost predicate UpfReplies(s: State, t: State, p: Datagram, sent: bool) {
    && s.Aligned() && p in s.replies
    && t == s.(replies := s.replies - multiset{p}, toSmf := if sent then s.toSmf + {p} else s.toSmf)
  }

  ghost predicate SmfReceives(s: State, t: State, p: Datagram) {
    && s.Aligned() && p in s.toSmf
    && var found := s.client.Lookup(p);
       t == s.(sorted := s.sorted + if found.Some? then multiset{found.value} else multiset{})
  }

  ghost predicate SmfPuts(s: State, t: State, found: (nat, Response)) {
    && s.Aligned() && found in s.sorted && found.0 < |s.client.channels|
    && t == s.(sorted := s.sorted - multiset{found}, client := s.client.Put(found.0, found.1))
  }

  ghost predicate ReportTps(s: State, t: State) {
    s.Aligned() && t == s.(tpsCounter := 0, log := s.log.(reported := s.log.reported + s.tpsCounter))
  }

  ghost predicate ReportLatency(s: State, t: State) {
    s.Aligned() && t == s.(latencySum := 0, log := s.log.(microsOut := s.log.microsOut + s.latencySum))
  }

  // ----- labels and runs -----

  datatype Label =
    | LArrive(clock: int, supi: string, profile: Profile)
    | LAllocate(k: nat)
    | LEnqueue(k: nat)
    | LHandOver(k: nat, w: nat)
    | LRefuse(k: nat)
    | LCountRefusal(k: nat)
    | LAcknowledge(k: nat)
    | LClose
    | LDequeue(w: nat)
    | LExit(w: nat)
    | LSave(w: nat, now: int)
    | LSaveFails(w: nat, inner: string)
    | LQuery(w: nat, err: Option<StageError>)
    | LTakeNumber(w: nat, v6: V6Reader)
    | LEncodeFails(w: nat, v6: V6Reader)
    | LRegister(w: nat)
    | LWrite(w: nat)
    | LWriteFails(w: nat, inner: string)
    | LTakeReply(w: nat)
    | LExpire(w: nat)
    | LUnregister(w: nat)
    | LActivate(w: nat, now: int)
    | LSendActive(w: nat)
    | LCallReturns(w: nat, err: Option<StageError>)
    | LLatency(w: nat, micros: U64)
    | LTps(w: nat)
    | LRecordSuccess(w: nat)
    | LRecordFailure(w: nat)
    | LMark(w: nat, now: int)
    | LNotify(w: nat)
    | LFinishFailure(w: nat)
    | LAmfHandles(c: Callback)
    | LUpfReceives(p: Datagram)
    | LUpfReplies(p: Datagram, sent: bool)
    | LSmfReceives(p: Datagram)
    | LSmfPuts(found: (nat, Response))
    | LReportTps
    | LReportLatency

  /** The request handlers, the AMF on the 201 reply, and the close. */
  ghost predicate HandlerStep(s: State, l: Label, t: State) {
    match l
    case LArrive(clock, supi, profile) => Arrive(s, t, clock, supi, profile)
    case LAllocate(k) => Allocate(s, t, k)
    case LEnqueue(k) => Enqueue(s, t, k)
    case LHandOver(k, w) => HandOver(s, t, k, w)
    case LRefuse(k) => Refuse(s, t, k)
    case LCountRefusal(k) => CountRefusal(s, t, k)
    case LAcknowledge(k) => Acknowledge(s, t, k)
    case LClose => Close(s, t)
    case _ => false
  }

  /** A worker between jobs, and up to its PFCP call. */
  ghost predicate PrepareStep(s: State, l: Label, t: State) {
    match l
    case LDequeue(w) => Dequeue(s, t, w)
    case LExit(w) => Exit(s, t, w)
    case LSave(w, now) => SaveSession(s, t, w, now)
    case LSaveFails(w, inner) => SaveFails(s, t, w, inner)
    case LQuery(w, err) => QueryUdm(s, t, w, err)
    case LTakeNumber(w, v6) => TakeNumber(s, t, w, v6)
    case LEncodeFails(w, v6) => EncodeFails(s, t, w, v6)
    case _ => false
  }

  /** A worker in its PFCP call. */
  ghost predicate ExchangeStep(s: State, l: Label, t: State) {
    match l
    case LRegister(w) => RegisterCall(s, t, w)
    case LWrite(w) => WriteRequest(s, t, w)
    case LWriteFails(w, inner) => WriteFails(s, t, w, inner)
    case LTakeReply(w) => TakeReply(s, t, w)
    case LExpire(w) => Expire(s, t, w)
    case LUnregister(w) => UnregisterCall(s, t, w)
    case _ => false
  }

  /** A worker after the call, until the outcome is known and timed. */
  ghost predicate CallbackStep(s: State, l: Label, t: State) {
    match l
    case LActivate(w, now) => ActivateSession(s, t, w, now)
    case LSendActive(w) => SendActive(s, t, w)
    case LCallReturns(w, err) => CallReturns(s, t, w, err)
    case LLatency(w, micros) => LatencyAdded(s, t, w, micros)
    case LTps(w) => TpsAdded(s, t, w)
    case _ => false
  }

  /** A worker recording the outcome. */
  ghost predicate SettleStep(s: State, l: Label, t: State) {
    match l
    case LRecordSuccess(w) => RecordSuccess(s, t, w)
    case LRecordFailure(w) => RecordFailure(s, t, w)
    case LMark(w, now) => MarkFailed(s, t, w, now)
    case LNotify(w) => NotifyFailure(s, t, w)
    case LFinishFailure(w) => FinishFailure(s, t, w)
    case _ => false
  }

  /** The AMF on a callback, the UPF, the receive loop and the metrics reporter. */
  ghost predicate NetworkStep(s: State, l: Label, t: State) {
    match l
    case LAmfHandles(c) => AmfHandles(s, t, c)
    case LUpfReceives(p) => UpfReceives(s, t, p)
    case LUpfReplies(p, sent) => UpfReplies(s, t, p, sent)
    case LSmfReceives(p) => SmfReceives(s, t, p)
    case LSmfPuts(found) => SmfPuts(s, t, found)
    case LReportTps => ReportTps(s, t)
    case LReportLatency => ReportLatency(s, t)
    case _ => false
  }

  ghost predicate Step(s: State, l: Label, t: State) {
    || HandlerStep(s, l, t)
    || PrepareStep(s, l, t)
    || ExchangeStep(s, l, t)
    || CallbackStep(s, l, t)
    || SettleStep(s, l, t)
    || NetworkStep(s, l, t)
  }

  /** The worker whose next action the step is, if it is one. */
  function ActorOf(l: Label): Option<nat> {
    match l
    case LDequeue(w) => Some(w)
    case LExit(w) => Some(w)
    case LSave(w, _) => Some(w)
    case LSaveFails(w, _) => Some(w)
    case LQuery(w, _) => Some(w)
    case LTakeNumber(w, _) => Some(w)
    case LEncodeFails(w, _) => Some(w)
    case LRegister(w) => Some(w)
    case LWrite(w) => Some(w)
    case LWriteFails(w, _) => Some(w)
    case LTakeReply(w) => Some(w)
    case LExpire(w) => Some(w)
    case LUnregister(w) => Some(w)
    case LActivate(w, _) => Some(w)
    case LSendActive(w) => Some(w)
    case LCallReturns(w, _) => Some(w)
    case LLatency(w, _) => Some(w)
    case LTps(w) => Some(w)
    case LRecordSuccess(w) => Some(w)
    case LRecordFailure(w) => Some(w)
    case LMark(w, _) => Some(w)
    case LNotify(w) => Some(w)
    case LFinishFailure(w) => Some(w)
    case _ => None
  }

  /** A run: `states[i]` goes to `states[i + 1]` by `labels[i]`. */
  ghost predicate Run(states: seq<State>, labels: seq<Label>) {
    && |states| == |labels| + 1
    && forall i | 0 <= i < |labels| :: Step(states[i], labels[i], states[i + 1])
  }

  ghost predicate Reachable(s: State) {
    exists states, labels :: Run(states, labels) && Init(states[0]) && states[|labels|] == s
  }

  /** Fewer than 2^32 requests: within it no counter that names things comes round again. */
  ghost predicate Bounded(s: State) {
    |s.requests| < TWO_32
  }
}

/** What the SMF wrote to the UPF and what of it arrived: which failed sessions can have a session in the
    UPF, and which never will. */
module SystemWrites {
  import opened Address
  import opened Bytes
  import opened Codec
  import opened FailureReason
  import opened SmContext
  import opened System
  import opened SystemFrames
  import opened SystemInvariant
  import opened SystemMoves
  import opened SystemPreservation
  import opened SystemRuns
  import opened SystemTheorems
  import opened SystemWitness
  import opened Wrappers
  import Repository
  import UpfServer

  // ----- what each worker has written -----

  /** A failure before the PFCP call. */
  predicate IsEarly(e: StageError) {
    e.SaveFailed? || IsUdmError(e)
  }

  predicate IsEarlyEnd(err: Option<StageError>) {
    err.Some? && IsEarly(err.value)
  }

  /** The job has not come to its PFCP call, or failed before it. */
  predicate AtEarly(at: At) {
    match at
    case Save => true
    case Query => true
    case Number => true
    case AddLatency(err) => IsEarlyEnd(err)
    case AddTps(err) => IsEarlyEnd(err)
    case Record(err) => IsEarlyEnd(err)
    case Mark(e) => IsEarly(e)
    case Notify(e, _) => IsEarly(e)
    case _ => false
  }

  /** The datagram of a call is not sent before its write, and sent once the worker waits. */
  ghost predicate AtSends(at: At, issued: map<U32, Quad>, toUpf: set<Datagram>) {
    match at
    case Register(_, data) => data !in toUpf
    case Write(_, _, data) => data !in toUpf
    case Wait(q, _) => q in issued && RequestBytes(ESTABLISHMENT_REQUEST, q, issued[q]) in toUpf
    case _ => true
  }

  ghost predicate Sends(holders: seq<Holder>, ats: seq<At>, tags: map<nat, U32>, issued: map<U32, Quad>,
    toUpf: set<Datagram>) {
    && |ats| == |holders|
    && (forall w | 0 <= w < |holders| && holders[w].Busy? ::
          AtSends(ats[w], issued, toUpf) && (AtEarly(ats[w]) ==> holders[w].id !in tags))
  }

  ghost predicate Untagged(phases: seq<Phase>, tags: map<nat, U32>) {
    forall k | 0 <= k < |phases| && phases[k].Settled? && IsEarlyEnd(phases[k].outcome) :: k !in tags
  }

  ghost predicate Traces(s: State) {
    Sends(s.holders, s.ats, s.tags, s.log.issued, s.toUpf) && Untagged(s.phases, s.tags)
  }

  // ----- every step keeps this -----

  lemma GotoTraces(s: State, t: State, w: nat, at: At)
    requires Traces(s) && s.Working(w)
    requires t.ats == s.ats[w := at] && t.holders == s.holders && t.phases == s.phases
    requires t.tags == s.tags && t.log.issued == s.log.issued && t.toUpf == s.toUpf
    requires AtEarly(at) ==> AtEarly(s.ats[w])
    requires AtSends(at, s.log.issued, s.toUpf)
    ensures Traces(t)
  {
    hide AtEarly, AtSends, RequestBytes;
  }

  /** Moves of a worker that write nothing to the UPF and take no number. */
  lemma PrepareGoes(s: State, l: Label, t: State)
    requires Traces(s) && PrepareStep(s, l, t) && (l.LSave? || l.LSaveFails? || l.LQuery?)
    ensures Traces(t)
  {
    hide Traces, RequestBytes, Repository.Save;
    GotoTraces(s, t, l.w, t.ats[l.w]);
  }

  lemma ExchangeGoes(s: State, l: Label, t: State)
    requires Traces(s) && ExchangeStep(s, l, t) && !l.LWrite?
    ensures Traces(t)
  {
    hide Traces, RequestBytes;
    if l.LRegister? {
      WorkerTraces(s, l.w);
    }
    GotoTraces(s, t, l.w, t.ats[l.w]);
  }

  lemma CallGoes(s: State, l: Label, t: State)
    requires Traces(s) && CallbackStep(s, l, t) && (l.LActivate? || l.LSendActive? || l.LCallReturns?)
    ensures Traces(t)
  {
    hide Traces, RequestBytes, Repository.SetIP, ActiveCallback;
    GotoTraces(s, t, l.w, t.ats[l.w]);
  }

  lemma TallyGoes(s: State, l: Label, t: State)
    requires Traces(s) && CallbackStep(s, l, t) && (l.LLatency? || l.LTps?)
    ensures Traces(t)
  {
    hide Traces, RequestBytes, Add64;
    GotoTraces(s, t, l.w, t.ats[l.w]);
  }

  lemma CallbackTraces(s: State, l: Label, t: State)
    requires Traces(s) && CallbackStep(s, l, t)
    ensures Traces(t)
  {
    hide Traces, ActivateSession, SendActive, CallReturns, LatencyAdded, TpsAdded;
    if l.LLatency? || l.LTps? {
      TallyGoes(s, l, t);
    } else {
      CallGoes(s, l, t);
    }
  }

  lemma SettleGoes(s: State, l: Label, t: State)
    requires Traces(s) && SettleStep(s, l, t) && (l.LRecordFailure? || l.LMark? || l.LNotify?)
    ensures Traces(t)
  {
    hide Traces, RequestBytes, ReasonOf, Text, Repository.SetReason;
    GotoTraces(s, t, l.w, t.ats[l.w]);
  }

  lemma WorkerTraces(s: State, w: nat)
    requires Traces(s) && s.Working(w)
    ensures AtSends(s.ats[w], s.log.issued, s.toUpf)
    ensures AtEarly(s.ats[w]) ==> s.holders[w].id !in s.tags
  {
    hide AtSends, AtEarly;
  }

  lemma FinishGoes(s: State, t: State, w: nat, outcome: Option<StageError>)
    requires Traces(s) && s.Working(w) && (IsEarlyEnd(outcome) ==> AtEarly(s.ats[w]))
    requires t.holders == s.holders[w := Idle] && t.ats == s.ats[w := Free]
    requires s.holders[w].id < |s.phases| && t.phases == s.phases[s.holders[w].id := Settled(outcome)]
    requires t.tags == s.tags && t.log.issued == s.log.issued && t.toUpf == s.toUpf
    ensures Traces(t)
  {
    hide AtEarly, AtSends, IsEarlyEnd;
  }

  lemma FinishTraces(s: State, l: Label, t: State)
    requires Traces(s) && SettleStep(s, l, t) && (l.LRecordSuccess? || l.LFinishFailure?)
    ensures Traces(t)
  {
    hide Traces;
    FinishGoes(s, t, l.w, if l.LRecordSuccess? then None else Some(s.ats[l.w].failure));
  }

  lemma TakeGoes(s: State, t: State, w: nat, k: nat)
    requires Traces(s) && w < |s.holders| && k !in s.tags && k < |s.phases|
    requires t.holders == s.holders[w := Busy(k)] && t.ats == s.ats[w := Save] && t.phases == s.phases[k := Held(w)]
    requires t.tags == s.tags && t.log.issued == s.log.issued && t.toUpf == s.toUpf
    ensures Traces(t)
  {
    hide AtEarly;
  }

  lemma HandOverTraces(s: State, t: State, k: nat, w: nat)
    requires Inv(s) && Traces(s) && HandOver(s, t, k, w)
    ensures Traces(t)
  {
    hide Traces;
    hide Refs, Places, Hands, Drained, Network, Issued, Boxes, Calls, Pending, Sessions, Known, Backed, AmfMap,
      Conservation, Statuses, Counters, Latencies, Tags, Addresses;
    TakeGoes(s, t, w, k);
  }

  lemma DequeueTraces(s: State, t: State, w: nat)
    requires Inv(s) && Traces(s) && Dequeue(s, t, w)
    ensures Traces(t)
  {
    hide Traces;
    hide Refs, Places, Hands, Drained, Network, Issued, Boxes, Calls, Pending, Sessions, Known, Backed, AmfMap,
      Conservation, Statuses, Counters, Latencies, Tags, Addresses;
    PlacesDequeue(s.phases, s.queue, s.log.dequeued, s.holders, w);
    TakeGoes(s, t, w, s.queue[0]);
  }

  lemma ExitTraces(s: State, t: State, w: nat)
    requires Traces(s) && Exit(s, t, w)
    ensures Traces(t)
  {
  }

  /** Two busy workers hold different jobs. */
  lemma OwnJobs(s: State, v: nat, w: nat)
    requires Inv(s) && v < |s.holders| && w < |s.holders| && s.holders[v].Busy? && s.holders[w].Busy? && v != w
    ensures s.holders[v].id != s.holders[w].id
  {
    hide Refs, Hands, Progress, Drained, Network, Issued, Boxes, Calls, Pending, Sessions, Known, Backed, AmfMap,
      Conservation, Statuses, Counters, Latencies, Tags, Addresses;
    assert s.phases[s.holders[v].id] == Held(v) && s.phases[s.holders[w].id] == Held(w);
  }

  /** A number that was not issued has no datagram on the way. */
  lemma UnissuedUnsent(issued: map<U32, Quad>, toUpf: set<Datagram>, upf: UpfServer.Table, replies: multiset<Datagram>,
    toSmf: set<Datagram>, q: U32, ip: Quad)
    requires Network(issued, toUpf, upf, replies, toSmf) && q !in issued
    ensures RequestBytes(ESTABLISHMENT_REQUEST, q, ip) !in toUpf
  {
    var p := RequestBytes(ESTABLISHMENT_REQUEST, q, ip);
    if p in toUpf {
      var r :| r in issued && p == RequestBytes(ESTABLISHMENT_REQUEST, r, issued[r]);
      UpfServer.RequestBytesInjective(q, ip, r, issued[r]);
    }
  }

  lemma AtSendsMore(at: At, issued: map<U32, Quad>, toUpf: set<Datagram>, q: U32, ip: Quad)
    requires AtSends(at, issued, toUpf) && q !in issued
    ensures AtSends(at, issued[q := ip], toUpf)
  {
    hide RequestBytes;
  }

  /** A worker takes a number and goes on to register its call. */
  lemma NumberGoes(s: State, t: State, w: nat, q: U32, data: Datagram, ip: Quad)
    requires Traces(s) && s.Working(w)
    requires forall v | 0 <= v < |s.holders| && s.holders[v].Busy? && v != w :: s.holders[v].id != s.holders[w].id
    requires forall k | 0 <= k < |s.phases| && s.phases[k].Settled? :: k != s.holders[w].id
    requires q !in s.log.issued && data !in s.toUpf
    requires t.ats == s.ats[w := Register(q, data)] && t.holders == s.holders && t.phases == s.phases
    requires t.tags == s.tags[s.holders[w].id := q] && t.log.issued == s.log.issued[q := ip] && t.toUpf == s.toUpf
    ensures Traces(t)
  {
    hide AtEarly, AtSends, IsEarlyEnd, RequestBytes;
    forall v | 0 <= v < |t.holders| && t.holders[v].Busy?
      ensures AtSends(t.ats[v], t.log.issued, t.toUpf) && (AtEarly(t.ats[v]) ==> t.holders[v].id !in t.tags)
    {
      if v == w {
        RegisterSends(q, data, t.log.issued, t.toUpf);
      } else {
        AtSendsMore(s.ats[v], s.log.issued, s.toUpf, q, ip);
      }
    }
  }

  lemma RegisterSends(q: U32, data: Datagram, issued: map<U32, Quad>, toUpf: set<Datagram>)
    requires data !in toUpf
    ensures AtSends(Register(q, data), issued, toUpf) && !AtEarly(Register(q, data))
  {
  }

  lemma TakeNumberTraces(s: State, t: State, w: nat, v6: V6Reader)
    requires Inv(s) && Traces(s) && TakeNumber(s, t, w, v6) && Bounded(t)
    ensures Traces(t)
  {
    hide Inv, Traces, Bounded, RequestBytes, Encoded, DottedU32, InCall, Stands;
    var k, q := s.holders[w].id, Inc32(s.client.seqCounter);
    WorkerAt(s, w);
    NumberTaken(s, t, w, v6);
    NumberDatagram(s, t, w, v6);
    InvNetwork(s);
    UnissuedUnsent(s.log.issued, s.toUpf, s.upf, s.replies, s.toSmf, q, U32Bytes(s.addrs[k]));
    forall v | 0 <= v < |s.holders| && s.holders[v].Busy? && v != w ensures s.holders[v].id != k {
      OwnJobs(s, v, w);
    }
    NumberGoes(s, t, w, q, RequestBytes(ESTABLISHMENT_REQUEST, q, U32Bytes(s.addrs[k])), U32Bytes(s.addrs[k]));
  }

  lemma InvNetwork(s: State)
    requires Inv(s)
    ensures Network(s.log.issued, s.toUpf, s.upf, s.replies, s.toSmf)
    ensures Tags(s.client.seqCounter, s.log.calls, s.tags, s.log.seqOwner)
    ensures Issued(s.log.issued, s.log.seqOwner, s.addrs)
  {
    hide Network, Tags, Issued;
  }

  /** A worker writes its datagram, which no other worker has yet to write. */
  lemma WriteGoes(s: State, t: State, w: nat, q: U32, ch: nat, data: Datagram)
    requires Traces(s) && s.Working(w) && q in s.log.issued
      && data == RequestBytes(ESTABLISHMENT_REQUEST, q, s.log.issued[q])
    requires forall v | 0 <= v < |s.holders| && s.holders[v].Busy? && v != w
      && (s.ats[v].Register? || s.ats[v].Write?) ::
      s.ats[v].data != data
    requires t.ats == s.ats[w := Wait(q, ch)] && t.holders == s.holders && t.phases == s.phases
    requires t.tags == s.tags && t.log.issued == s.log.issued && t.toUpf == s.toUpf + {data}
    ensures Traces(t)
  {
    hide RequestBytes, IsEarlyEnd;
  }

  /** The datagrams of two calls about to be written differ. */
  lemma DataDiffers(s: State, v: nat, w: nat)
    requires Inv(s) && s.Working(w) && s.Working(v) && v != w && s.ats[w].Write?
    requires s.ats[v].Register? || s.ats[v].Write?
    ensures s.ats[v].data != s.ats[w].data
  {
    hide Inv, RequestBytes, Stands, AtStanding, AtAnswered;
    WorkerAt(s, v);
    WorkerAt(s, w);
    OwnJobs(s, v, w);
    InvNetwork(s);
    TagOwner(s.client.seqCounter, s.log.calls, s.tags, s.log.seqOwner, s.holders[v].id);
    TagOwner(s.client.seqCounter, s.log.calls, s.tags, s.log.seqOwner, s.holders[w].id);
    if s.ats[v].data == s.ats[w].data {
      UpfServer.RequestBytesInjective(s.ats[v].seqNum, s.log.issued[s.ats[v].seqNum], s.ats[w].seqNum,
        s.log.issued[s.ats[w].seqNum]);
    }
  }

  lemma WriteTraces(s: State, t: State, w: nat)
    requires Inv(s) && Traces(s) && WriteRequest(s, t, w)
    ensures Traces(t)
  {
    hide Inv, Traces, RequestBytes;
    WriteKnowsItsData(s, w);
    forall v | 0 <= v < |s.holders| && s.holders[v].Busy? && v != w && (s.ats[v].Register? || s.ats[v].Write?)
      ensures s.ats[v].data != s.ats[w].data
    {
      BusyWorks(s, v);
      DataDiffers(s, v, w);
    }
    WriteGoes(s, t, w, s.ats[w].seqNum, s.ats[w].ch, s.ats[w].data);
  }

  lemma HandlersTrace(s: State, l: Label, t: State)
    requires Inv(s) && Traces(s) && HandlerStep(s, l, t) && !l.LHandOver?
    ensures Traces(t)
  {
    hide Inv, Sends, IsEarlyEnd, Ref, DottedU32;
    HandlerFrame(s, l, t);
    hide SameTraces;
    HandlerSends(s, l, t);
    forall k | 0 <= k < |t.phases| && t.phases[k].Settled? ensures k < |s.phases| && s.phases[k] == t.phases[k] {
    }
  }

  lemma HandlerSends(s: State, l: Label, t: State)
    requires Sends(s.holders, s.ats, s.tags, s.log.issued, s.toUpf) && HandlerStep(s, l, t) && !l.LHandOver?
    ensures Sends(t.holders, t.ats, t.tags, t.log.issued, t.toUpf) && t.tags == s.tags
  {
    hide Sends, Ref, DottedU32;
  }

  lemma PrepareTraces(s: State, l: Label, t: State)
    requires Inv(s) && Traces(s) && PrepareStep(s, l, t) && Bounded(t)
    ensures Traces(t)
  {
    hide Inv, Traces, Bounded, Dequeue, Exit, SaveSession, SaveFails, QueryUdm, TakeNumber, EncodeFails;
    match l
    case LDequeue(w) => DequeueTraces(s, t, w);
    case LExit(w) => ExitTraces(s, t, w);
    case LTakeNumber(w, v6) => TakeNumberTraces(s, t, w, v6);
    case LEncodeFails(w, v6) => EncodeNeverFails(s, t, w, v6);
    case _ => PrepareGoes(s, l, t);
  }

  lemma ExchangeTraces(s: State, l: Label, t: State)
    requires Inv(s) && Traces(s) && ExchangeStep(s, l, t)
    ensures Traces(t)
  {
    hide Inv, Traces, RegisterCall, WriteRequest, WriteFails, TakeReply, Expire, UnregisterCall;
    if l.LWrite? {
      WriteTraces(s, t, l.w);
    } else {
      ExchangeGoes(s, l, t);
    }
  }

  lemma SettleTraces(s: State, l: Label, t: State)
    requires Traces(s) && SettleStep(s, l, t)
    ensures Traces(t)
  {
    hide Traces, RecordSuccess, RecordFailure, MarkFailed, NotifyFailure, FinishFailure;
    if l.LRecordSuccess? || l.LFinishFailure? {
      FinishTraces(s, l, t);
    } else {
      SettleGoes(s, l, t);
    }
  }

  lemma HandlerTraces(s: State, l: Label, t: State)
    requires Inv(s) && Traces(s) && HandlerStep(s, l, t)
    ensures Traces(t)
  {
    hide Inv, Traces, HandOver, Ref;
    if l.LHandOver? {
      HandOverTraces(s, t, l.k, l.w);
    } else {
      HandlersTrace(s, l, t);
    }
  }

  lemma NetworkTraces(s: State, l: Label, t: State)
    requires Traces(s) && NetworkStep(s, l, t)
    ensures Traces(t)
  {
    hide NetworkStep, Sends, Untagged;
    NetworkFrame(s, l, t);
  }

  lemma TracesStep(s: State, l: Label, t: State)
    requires Inv(s) && Traces(s) && Step(s, l, t) && Bounded(t)
    ensures Traces(t)
  {
    hide Inv, Traces, Bounded, HandlerStep, PrepareStep, ExchangeStep, CallbackStep, SettleStep, NetworkStep;
    if HandlerStep(s, l, t) {
      HandlerTraces(s, l, t);
    } else if PrepareStep(s, l, t) {
      PrepareTraces(s, l, t);
    } else if ExchangeStep(s, l, t) {
      ExchangeTraces(s, l, t);
    } else if CallbackStep(s, l, t) {
      CallbackTraces(s, l, t);
    } else if SettleStep(s, l, t) {
      SettleTraces(s, l, t);
    } else {
      NetworkTraces(s, l, t);
    }
  }

  lemma InitTraces(s: State)
    requires Init(s)
    ensures Traces(s)
  {
  }

  lemma {:induction false} RunTraces(states: seq<State>, labels: seq<Label>, i: nat)
    requires Run(states, labels) && Init(states[0]) && i <= |labels| && Bounded(states[|labels|])
    ensures Traces(states[i])
  {
    hide Step, Inv, Traces, Bounded, Init;
    if i == 0 {
      InitTraces(states[0]);
    } else {
      RunTraces(states, labels, i - 1);
      RunInv(states, labels, i - 1);
      RunBounded(states, labels, i);
      TracesStep(states[i - 1], labels[i - 1], states[i]);
    }
  }

  lemma ReachableTraces(s: State)
    requires Reachable(s) && Bounded(s)
    ensures Traces(s)
  {
    hide Step, Traces, Bounded, Init;
    var states, labels :| Run(states, labels) && Init(states[0]) && states[|labels|] == s;
    RunTraces(states, labels, |labels|);
  }

  // ----- what arrived -----

  ghost predicate Delivers(l: Label, q: U32, ip: Quad) {
    l == LUpfReceives(RequestBytes(ESTABLISHMENT_REQUEST, q, ip))
  }

  /** A run in which the UPF received, before state `i`, the request that state `i` records under `q`. */
  ghost predicate Delivered(states: seq<State>, labels: seq<Label>, i: nat, q: U32)
    requires |states| == |labels| + 1 && i <= |labels|
  {
    q in states[i].log.issued && exists j :: 0 <= j < i && Delivers(labels[j], q, states[i].log.issued[q])
  }

  /** Issued numbers keep their address. */
  lemma IssuedStep(s: State, l: Label, t: State)
    requires Inv(s) && Step(s, l, t) && Bounded(t)
    ensures forall q | q in s.log.issued :: q in t.log.issued && t.log.issued[q] == s.log.issued[q]
  {
    hide Inv, Step, Bounded;
    if l.LTakeNumber? {
      TakeNumberIssues(s, l, t);
    } else {
      Frame(s, l, t);
    }
  }

  lemma TakeNumberIssues(s: State, l: Label, t: State)
    requires Inv(s) && Step(s, l, t) && Bounded(t) && l.LTakeNumber?
    ensures forall q | q in s.log.issued :: q in t.log.issued && t.log.issued[q] == s.log.issued[q]
    ensures t.toUpf == s.toUpf && t.phases == s.phases && t.holders == s.holders && l.w < |s.holders|
    ensures s.holders[l.w].Busy? && s.ats[l.w] == Number && s.holders[l.w].id !in s.tags
    ensures forall k | k in s.tags :: k in t.tags && t.tags[k] == s.tags[k]
    ensures forall k | k in t.tags && k !in s.tags :: k == s.holders[l.w].id
  {
    hide Inv, Bounded, TakeNumber;
    NumberIssues(s, t, l.w, l.v6);
  }

  lemma NumberIssues(s: State, t: State, w: nat, v6: V6Reader)
    requires Inv(s) && TakeNumber(s, t, w, v6) && Bounded(t)
    ensures forall q | q in s.log.issued :: q in t.log.issued && t.log.issued[q] == s.log.issued[q]
    ensures t.toUpf == s.toUpf && t.phases == s.phases && t.holders == s.holders && w < |s.holders|
    ensures s.holders[w].Busy? && s.ats[w] == Number && s.holders[w].id !in s.tags
    ensures forall k | k in s.tags :: k in t.tags && t.tags[k] == s.tags[k]
    ensures forall k | k in t.tags && k !in s.tags :: k == s.holders[w].id
  {
    hide Inv, Bounded, RequestBytes, Encoded, DottedU32;
    NumberTaken(s, t, w, v6);
  }

  /** What the UPF receives is a request issued before, and its table gains just that number. */
  lemma ReceiveStores(s: State, p: Datagram, t: State) returns (q: U32)
    requires Inv(s) && UpfReceives(s, t, p)
    ensures q in s.log.issued && p == RequestBytes(ESTABLISHMENT_REQUEST, q, s.log.issued[q])
    ensures t.upf.Keys == s.upf.Keys + {q} && t.log.issued == s.log.issued
  {
    hide Inv, RequestBytes, UpfServer.Handle, ResponseBytes;
    InvNetwork(s);
    q :| q in s.log.issued && p == RequestBytes(ESTABLISHMENT_REQUEST, q, s.log.issued[q]);
    UpfServer.HandleEstablishment(s.upf, q, s.log.issued[q]);
  }

  lemma StoredIsIssued(s: State, q: U32)
    requires Inv(s) && q in s.upf
    ensures q in s.log.issued
  {
    hide Inv, RequestBytes;
    InvNetwork(s);
  }

  lemma DeliveredBefore(states: seq<State>, labels: seq<Label>, i: nat, q: U32)
    requires Run(states, labels) && i < |labels| && q in states[i].log.issued
    requires q in states[i + 1].log.issued && states[i + 1].log.issued[q] == states[i].log.issued[q]
    ensures Delivered(states, labels, i + 1, q) <==>
      Delivered(states, labels, i, q) || Delivers(labels[i], q, states[i].log.issued[q])
  {
    hide Step, Delivers;
    var ip := states[i].log.issued[q];
    if Delivers(labels[i], q, ip) {
      assert 0 <= i < i + 1;
    }
  }

  lemma DeliveryStep(s: State, l: Label, t: State, q: U32)
    requires Inv(s) && Step(s, l, t) && q in s.log.issued
    ensures q in t.upf <==> q in s.upf || Delivers(l, q, s.log.issued[q])
  {
    hide Inv, RequestBytes;
    if l.LUpfReceives? {
      hide UpfReceives;
      var r := ReceiveStores(s, l.p, t);
      if Delivers(l, q, s.log.issued[q]) {
        UpfServer.RequestBytesInjective(q, s.log.issued[q], r, s.log.issued[r]);
      }
    } else {
      hide Step;
      Frame(s, l, t);
    }
  }

  /** A number that was not issued was not delivered. */
  lemma {:induction false} DeliveredIsIssued(states: seq<State>, labels: seq<Label>, i: nat, j: nat, q: U32, ip: Quad)
    requires Run(states, labels) && Init(states[0]) && Bounded(states[|labels|]) && j < i <= |labels|
    requires Delivers(labels[j], q, ip)
    ensures q in states[i].log.issued && states[i].log.issued[q] == ip
    decreases i
  {
    hide Step, Inv, Bounded, Init, RequestBytes, UpfReceives;
    RunInv(states, labels, i - 1);
    RunBounded(states, labels, i);
    if j == i - 1 {
      ReceiveLabel(states[j], labels[j], states[i]);
      var r := ReceiveStores(states[j], labels[j].p, states[i]);
      UpfServer.RequestBytesInjective(q, ip, r, states[j].log.issued[r]);
    } else {
      DeliveredIsIssued(states, labels, i - 1, j, q, ip);
      IssuedStep(states[i - 1], labels[i - 1], states[i]);
    }
  }

  lemma ReceiveLabel(s: State, l: Label, t: State)
    requires Step(s, l, t) && l.LUpfReceives?
    ensures UpfReceives(s, t, l.p)
  {
    hide UpfReceives;
  }

  /** Over every run, the UPF holds a session under a number exactly when it has received the request issued
      under that number. */
  lemma {:induction false} StoredIfDelivered(states: seq<State>, labels: seq<Label>, i: nat, q: U32)
    requires Run(states, labels) && Init(states[0]) && Bounded(states[|labels|]) && i <= |labels|
    ensures q in states[i].upf <==> Delivered(states, labels, i, q)
    decreases i
  {
    hide Step, Inv, Bounded, Init, Delivers;
    if i == 0 {
      InitEmpty(states[0]);
    } else {
      StoredIfDelivered(states, labels, i - 1, q);
      RunInv(states, labels, i - 1);
      RunInv(states, labels, i);
      RunBounded(states, labels, i);
      if q in states[i - 1].log.issued {
        IssuedStep(states[i - 1], labels[i - 1], states[i]);
        DeliveredBefore(states, labels, i - 1, q);
        DeliveryStep(states[i - 1], labels[i - 1], states[i], q);
      } else {
        NotYetStored(states, labels, i, q);
      }
    }
  }

  lemma InitEmpty(s: State)
    requires Init(s)
    ensures s.upf == map[] && s.log.issued == map[]
  {
  }

  lemma NotYetStored(states: seq<State>, labels: seq<Label>, i: nat, q: U32)
    requires Run(states, labels) && Init(states[0]) && Bounded(states[|labels|]) && 0 < i <= |labels|
    requires q !in states[i - 1].log.issued
    ensures q !in states[i].upf && !Delivered(states, labels, i, q)
  {
    hide Step, Inv, Bounded, Init, Delivers;
    var s, l, t := states[i - 1], labels[i - 1], states[i];
    RunInv(states, labels, i - 1);
    if l.LUpfReceives? {
      ReceiveLabel(s, l, t);
      var r := ReceiveStores(s, l.p, t);
    } else {
      Frame(s, l, t);
    }
    if q in s.upf {
      StoredIsIssued(s, q);
    }
    forall j | 0 <= j < i && q in t.log.issued ensures !Delivers(labels[j], q, t.log.issued[q]) {
      if Delivers(labels[j], q, t.log.issued[q]) {
        if j < i - 1 {
          DeliveredIsIssued(states, labels, i - 1, j, q, t.log.issued[q]);
        } else {
          LateDelivery(s, l, t, q, t.log.issued[q]);
        }
      }
    }
  }

  lemma LateDelivery(s: State, l: Label, t: State, q: U32, ip: Quad)
    requires Inv(s) && Step(s, l, t) && Delivers(l, q, ip)
    ensures q in s.log.issued
  {
    hide Inv, Step, RequestBytes, UpfReceives;
    ReceiveLabel(s, l, t);
    var r := ReceiveStores(s, l.p, t);
    UpfServer.RequestBytesInjective(q, ip, r, s.log.issued[r]);
  }

  // ----- after the write -----

  /** The request of `k` was written to the UPF. */
  ghost predicate WrittenFor(s: State, k: nat) {
    && k in s.tags && s.tags[k] in s.log.issued
    && RequestBytes(ESTABLISHMENT_REQUEST, s.tags[k], s.log.issued[s.tags[k]]) in s.toUpf
  }

  /** The UPF holds a session for request `k`. */
  predicate InstalledAt(s: State, k: nat) {
    k in s.tags && s.tags[k] in s.upf
  }

  predicate AtPast(at: At) {
    !at.Free? && !at.Save? && !at.Query? && !at.Number? && !at.Register? && !at.Write?
  }

  /** The job of `k` will not write to the UPF any more. */
  predicate PastWrite(s: State, k: nat) {
    k < |s.phases| && match s.phases[k]
                      case Held(w) => w < |s.ats| && AtPast(s.ats[w])
                      case Settled(_) => true
                      case _ => false
  }

  lemma PastByRest(at: At)
    ensures AtPast(at) <==> at != Free && Rest(at) <= 12
  {
  }

  lemma HolderAt(s: State, k: nat, w: nat)
    requires Inv(s) && k < |s.phases| && s.phases[k] == Held(w)
    ensures w < |s.holders| && s.holders[w] == Busy(k) && s.Working(w) && s.ats[w] != Free
  {
    hide Refs, Hands, Progress, Drained, Network, Issued, Boxes, Calls, Pending, Sessions, Known, Backed, AmfMap,
      Conservation, Statuses, Counters, Latencies, Tags, Addresses;
    BusyWorks(s, w);
  }

  /** A worker's at changes only by its own step, and by taking a job when it has none. */
  lemma AtKept(s: State, l: Label, t: State, w: nat)
    requires Hands(s.holders, s.ats) && Step(s, l, t) && w < |s.holders| && s.holders[w].Busy? && ActorOf(l) != Some(w)
    ensures w < |t.ats| && t.ats[w] == s.ats[w]
  {
    hide Hands, HandlerStep, PrepareStep, ExchangeStep, CallbackStep, SettleStep, NetworkStep, Moved;
    HandsLength(s.holders, s.ats);
    if l.LHandOver? {
      HandOverKeepsAts(s, l, t, w);
    } else if l.LDequeue? || l.LExit? {
      IdleKeepsAts(s, l, t, w);
    } else if ActorOf(l).Some? {
      JobStep(s, l, t);
      MovedAts(s, t, l.w, w);
    } else {
      SameAts(s, l, t);
    }
  }

  lemma HandOverKeepsAts(s: State, l: Label, t: State, w: nat)
    requires Step(s, l, t) && l.LHandOver? && w < |s.holders| && w < |s.ats| && s.holders[w].Busy?
    ensures w < |t.ats| && t.ats[w] == s.ats[w]
  {
  }

  lemma IdleKeepsAts(s: State, l: Label, t: State, w: nat)
    requires Step(s, l, t) && (l.LDequeue? || l.LExit?) && w < |s.holders| && w < |s.ats| && s.holders[w].Busy?
    ensures w < |t.ats| && t.ats[w] == s.ats[w]
  {
  }

  lemma MovedAts(s: State, t: State, v: nat, w: nat)
    requires Moved(s, t, v) && w < |s.ats| && v != w
    ensures w < |t.ats| && t.ats[w] == s.ats[w]
  {
  }

  lemma SameAts(s: State, l: Label, t: State)
    requires Step(s, l, t) && ActorOf(l).None? && !l.LHandOver?
    ensures t.ats == s.ats
  {
    hide Step;
    Frame(s, l, t);
    if l.LEnqueue? {
      EnqueueAts(s, l, t);
    }
  }

  lemma EnqueueAts(s: State, l: Label, t: State)
    requires Step(s, l, t) && l.LEnqueue?
    ensures t.ats == s.ats
  {
  }

  lemma PastWriteStays(s: State, l: Label, t: State, k: nat)
    requires Inv(s) && Inv(t) && Step(s, l, t) && PastWrite(s, k)
    ensures PastWrite(t, k)
  {
    hide Inv, Step, AtPast, Rest, Moved, ActorOf;
    PhaseStep(s, l, t, k);
    if s.phases[k].Held? && t.phases[k].Held? {
      var w := s.phases[k].worker;
      HolderAt(s, k, w);
      HolderAt(t, k, w);
      InvHands(s);
      PastByRest(s.ats[w]);
      PastByRest(t.ats[w]);
      if ActorOf(l) == Some(w) {
        OwnStep(s, l, t, w);
      } else {
        AtKept(s, l, t, w);
      }
    }
  }

  lemma OwnStep(s: State, l: Label, t: State, w: nat)
    requires Step(s, l, t) && ActorOf(l) == Some(w) && w < |s.holders| && s.holders[w].Busy?
    ensures Moved(s, t, w) && w < |t.ats| && Rest(t.ats[w]) < Rest(s.ats[w])
  {
    hide HandlerStep, PrepareStep, ExchangeStep, CallbackStep, SettleStep, NetworkStep, Rest;
    if l.LDequeue? || l.LExit? {
      IdleIsIdle(s, l, t);
    } else {
      JobStep(s, l, t);
    }
  }

  lemma IdleIsIdle(s: State, l: Label, t: State)
    requires Step(s, l, t) && (l.LDequeue? || l.LExit?)
    ensures l.w < |s.holders| && s.holders[l.w] == Idle
  {
  }

  lemma WriterIsAtWrite(s: State, l: Label, t: State)
    requires Step(s, l, t) && l.LWrite?
    ensures s.Working(l.w) && s.ats[l.w].Write? && t.toUpf == s.toUpf + {s.ats[l.w].data}
    ensures t.tags == s.tags && t.log.issued == s.log.issued
  {
  }

  /** Past its write, a job's number and datagram are settled. */
  lemma WrittenStays(s: State, l: Label, t: State, k: nat)
    requires Inv(s) && Step(s, l, t) && Bounded(t) && PastWrite(s, k)
    ensures k in t.tags <==> k in s.tags
    ensures k in s.tags ==> t.tags[k] == s.tags[k]
    ensures WrittenFor(t, k) <==> WrittenFor(s, k)
  {
    hide Inv, Step, Bounded, RequestBytes;
    if s.phases[k].Held? {
      HolderAt(s, k, s.phases[k].worker);
    }
    if k in s.tags {
      TagIssued(s, k);
    }
    if l.LTakeNumber? {
      TakeNumberIssues(s, l, t);
      WorkerHolds(s, l.w);
    } else if l.LWrite? {
      WriterIsAtWrite(s, l, t);
      WorkerHolds(s, l.w);
      if k in s.tags {
        OtherDatagram(s, l.w, k);
      }
    } else {
      Frame(s, l, t);
    }
  }

  lemma WorkerHolds(s: State, w: nat)
    requires Inv(s) && w < |s.holders| && s.holders[w].Busy?
    ensures s.holders[w].id < |s.phases| && s.phases[s.holders[w].id] == Held(w)
  {
    hide Refs, Hands, Progress, Drained, Network, Issued, Boxes, Calls, Pending, Sessions, Known, Backed, AmfMap,
      Conservation, Statuses, Counters, Latencies, Tags, Addresses;
  }

  lemma TagIssued(s: State, k: nat)
    requires Inv(s) && k in s.tags
    ensures s.tags[k] in s.log.issued
  {
    hide Inv;
    InvNetwork(s);
  }

  /** The datagram a worker is about to write is not another request's. */
  lemma OtherDatagram(s: State, w: nat, k: nat)
    requires Inv(s) && s.Working(w) && s.ats[w].Write? && k in s.tags && k != s.holders[w].id
    requires s.tags[k] in s.log.issued
    ensures s.ats[w].data != RequestBytes(ESTABLISHMENT_REQUEST, s.tags[k], s.log.issued[s.tags[k]])
  {
    hide Inv, RequestBytes;
    WriteKnowsItsData(s, w);
    TagInCall(s, w);
    InvNetwork(s);
    TagOwner(s.client.seqCounter, s.log.calls, s.tags, s.log.seqOwner, k);
    TagOwner(s.client.seqCounter, s.log.calls, s.tags, s.log.seqOwner, s.holders[w].id);
    var q := s.ats[w].seqNum;
    if s.ats[w].data == RequestBytes(ESTABLISHMENT_REQUEST, s.tags[k], s.log.issued[s.tags[k]]) {
      UpfServer.RequestBytesInjective(q, s.log.issued[q], s.tags[k], s.log.issued[s.tags[k]]);
    }
  }

  /** Both over any continuation. */
  lemma {:induction false} PastWriteRun(states: seq<State>, labels: seq<Label>, k: nat)
    requires Run(states, labels) && Inv(states[0]) && Bounded(states[|labels|]) && PastWrite(states[0], k)
    ensures PastWrite(states[|labels|], k) && (WrittenFor(states[|labels|], k) <==> WrittenFor(states[0], k))
    ensures k in states[|labels|].tags <==> k in states[0].tags
    decreases |labels|
  {
    hide Step, Inv, Bounded, PastWrite, WrittenFor;
    if labels == [] {
    } else {
      var n := |labels| - 1;
      var front, before := states[..n + 1], labels[..n];
      assert Run(front, before) && front[0] == states[0] && front[n] == states[n];
      Frame(states[n], labels[n], states[n + 1]);
      BoundedBefore(states[n], states[n + 1]);
      PastWriteRun(front, before, k);
      RunKeepsInv(front, before);
      RunKeepsInv(states, labels);
      PastWriteStays(states[n], labels[n], states[n + 1], k);
      WrittenStays(states[n], labels[n], states[n + 1], k);
    }
  }

  lemma PastWriteLeads(s: State, t: State, k: nat)
    requires Inv(s) && Leads(s, t) && Bounded(t) && PastWrite(s, k)
    ensures WrittenFor(t, k) <==> WrittenFor(s, k)
    ensures k in t.tags <==> k in s.tags
  {
    hide Step, Inv, Bounded, PastWrite, WrittenFor;
    var states, labels :| Run(states, labels) && states[0] == s && states[|labels|] == t;
    PastWriteRun(states, labels, k);
  }

  lemma InstalledIsWritten(s: State, k: nat)
    requires Inv(s) && InstalledAt(s, k)
    ensures WrittenFor(s, k)
  {
    hide Inv, RequestBytes;
    InvNetwork(s);
  }

  // ----- which failed sessions can have a UPF session -----

  ghost predicate CanBeInstalled(s: State, k: nat) {
    exists t :: Leads(s, t) && Bounded(t) && InstalledAt(t, k)
  }

  /** A written request can still arrive. */
  lemma WrittenCanArrive(s: State, k: nat)
    requires s.Aligned() && Bounded(s) && WrittenFor(s, k)
    ensures CanBeInstalled(s, k)
  {
    hide Leads, UpfServer.Handle, RequestBytes, ResponseBytes, Bounded;
    var q := s.tags[k];
    var p := RequestBytes(ESTABLISHMENT_REQUEST, q, s.log.issued[q]);
    UpfServer.HandleEstablishment(s.upf, q, s.log.issued[q]);
    var h := UpfServer.Handle(s.upf, p);
    var t := s.(upf := h.table, replies := s.replies + multiset{h.reply.value});
    LeadsStep(s, LUpfReceives(p), t);
    SameBounded(s, t);
    assert InstalledAt(t, k);
  }

  /** Once a job is past its write, the UPF can come to hold its session exactly when its request was
      written. */
  lemma InstalledLaterIfWritten(s: State, k: nat)
    requires Inv(s) && Bounded(s) && PastWrite(s, k)
    ensures CanBeInstalled(s, k) <==> WrittenFor(s, k)
  {
    hide Leads, Inv, Bounded, PastWrite, WrittenFor, InstalledAt;
    if CanBeInstalled(s, k) {
      var t :| Leads(s, t) && Bounded(t) && InstalledAt(t, k);
      LeadsKeepsInv(s, t);
      InstalledIsWritten(t, k);
      PastWriteLeads(s, t, k);
    }
    if WrittenFor(s, k) {
      InvAligned(s);
      WrittenCanArrive(s, k);
    }
  }

  lemma InvAligned(s: State)
    requires Inv(s)
    ensures s.Aligned()
  {
    hide Refs, Places, Progress, Drained, Network, Issued, Boxes, Calls, Pending, Sessions, Known, Backed, AmfMap,
      Conservation, Statuses, Counters, Latencies, Tags, Addresses;
  }

  /** A FAILED session's job is past its write. */
  lemma FailedIsPast(s: State, ref: string)
    requires Inv(s) && ref in s.repo && s.repo[ref].status == Repository.FAILED
    ensures ref in s.log.refOwner && PastWrite(s, s.log.refOwner[ref])
  {
    hide Inv;
    SessionOf(s, ref);
    var k := s.log.refOwner[ref];
    PastByStanding(s.phases[k], s.ats);
  }

  lemma PastByStanding(phase: Phase, ats: seq<At>)
    requires StandingOf(phase, ats).Failed?
    ensures match phase
            case Held(w) => w < |ats| && AtPast(ats[w])
            case Settled(_) => true
            case _ => false
  {
  }

  /** When a FAILED session has, or can come to have, a session in the UPF: exactly when its request took a
      number and was written. So a session that failed earlier never gets one, and one that failed after
      the write may, even if it timed out. */
  lemma FailedSessionOrphans(s: State, ref: string)
    requires Reachable(s) && Bounded(s) && ref in s.repo && s.repo[ref].status == Repository.FAILED
    ensures ref in s.log.refOwner
    ensures CanBeInstalled(s, s.log.refOwner[ref]) <==> WrittenFor(s, s.log.refOwner[ref])
  {
    hide Reachable, Bounded, Inv, CanBeInstalled, PastWrite, WrittenFor;
    ReachableInv(s);
    FailedIsPast(s, ref);
    InstalledLaterIfWritten(s, s.log.refOwner[ref]);
  }

  /** A job that failed at the save or at the UDM has no number, so the UPF never gets a session for it. */
  lemma EarlyFailureNeverInstalled(s: State, k: nat)
    requires Reachable(s) && Bounded(s) && k < |s.phases| && s.phases[k].Settled? && IsEarlyEnd(s.phases[k].outcome)
    ensures k !in s.tags && !CanBeInstalled(s, k)
  {
    hide Reachable, Bounded, Inv, CanBeInstalled, Sends, IsEarlyEnd;
    ReachableInv(s);
    ReachableTraces(s);
    InstalledLaterIfWritten(s, k);
  }

  /** Nor does it for a job whose write failed. */
  lemma FailedWriteNeverInstalled(s: State, t: State, w: nat, inner: string)
    requires Reachable(s) && Bounded(s) && WriteFails(s, t, w, inner)
    ensures !CanBeInstalled(t, s.holders[w].id)
  {
    hide Reachable, Bounded, Inv, CanBeInstalled, Traces, RequestBytes, AtEarly;
    var k := s.holders[w].id;
    ReachableInv(s);
    ReachableTraces(s);
    WorkerTraces(s, w);
    WriteKnowsItsData(s, w);
    TagInCall(s, w);
    SameBounded(s, t);
    WriteFailsKeeps(s, t, w, inner);
    WorkerHolds(s, w);
    InstalledLaterIfWritten(t, k);
  }

  /** A call that waits has been written, so its answer can still arrive: success is possible from every
      waiting state, in at most five steps, and a timeout can orphan every one of them. */
  lemma WaitingCallCanSucceed(s: State, w: nat) returns (states: seq<State>, labels: seq<Label>)
    requires Reachable(s) && Bounded(s) && s.Working(w) && s.ats[w].Wait?
    ensures s.ats[w].seqNum in s.log.issued && WrittenFor(s, s.holders[w].id)
    ensures Run(states, labels) && |labels| <= 5 && states[0] == s
    ensures var t, q := states[|labels|], s.ats[w].seqNum;
            && SameJobs(s, t) && t.Working(w) && t.ats[w] == Unregister(q, s.ats[w].ch, Ok(AnswerRead(q)))
            && q in t.upf && t.upf[q] == UpfServer.Session(q, PDN_IPV4, s.log.issued[q])
  {
    hide Reachable, Bounded, Inv, Traces, RequestBytes, AtEarly, Step, Stands, AtStanding;
    ReachableInv(s);
    ReachableTraces(s);
    WorkerTraces(s, w);
    WorkerAt(s, w);
    states, labels := WrittenCallCanSucceed(s, w, s.ats[w].seqNum, s.ats[w].ch);
  }
}

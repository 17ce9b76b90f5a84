/** What holds in every reachable state and over whole runs. */
module SystemTheorems {
  import opened Address
  import opened Bytes
  import opened Codec
  import opened FailureReason
  import opened PfcpClient
  import opened System
  import opened SystemFrames
  import opened SystemInvariant
  import opened SystemPreservation
  import opened Wrappers
  import Repository
  import UpfServer

  // ----- runs -----

  lemma HandlerStepKeeps(s: State, l: Label, t: State)
    requires Inv(s) && HandlerStep(s, l, t) && Bounded(t)
    ensures Inv(t)
  {
    hide Inv, Bounded, Arrive, Allocate, Enqueue, HandOver, Refuse, CountRefusal, Acknowledge, Close;
    match l
    case LArrive(clock, supi, profile) => ArriveKeeps(s, t, clock, supi, profile);
    case LAllocate(k) => AllocateKeeps(s, t, k);
    case LEnqueue(k) => EnqueueKeeps(s, t, k);
    case LHandOver(k, w) => HandOverKeeps(s, t, k, w);
    case LRefuse(k) => RefuseKeeps(s, t, k);
    case LCountRefusal(k) => CountRefusalKeeps(s, t, k);
    case LAcknowledge(k) => AcknowledgeKeeps(s, t, k);
    case LClose => CloseKeeps(s, t);
    case _ =>
  }

  lemma PrepareStepKeeps(s: State, l: Label, t: State)
    requires Inv(s) && PrepareStep(s, l, t) && Bounded(t)
    ensures Inv(t)
  {
    hide Inv, Bounded, Dequeue, Exit, SaveSession, SaveFails, QueryUdm, TakeNumber, EncodeFails;
    match l
    case LDequeue(w) => DequeueKeeps(s, t, w);
    case LExit(w) => ExitKeeps(s, t, w);
    case LSave(w, now) => SaveSessionKeeps(s, t, w, now);
    case LSaveFails(w, inner) => SaveFailsKeeps(s, t, w, inner);
    case LQuery(w, err) => QueryUdmKeeps(s, t, w, err);
    case LTakeNumber(w, v6) => TakeNumberKeeps(s, t, w, v6);
    case LEncodeFails(w, v6) => EncodeNeverFails(s, t, w, v6);
    case _ =>
  }

  lemma ExchangeStepKeeps(s: State, l: Label, t: State)
    requires Inv(s) && ExchangeStep(s, l, t) && Bounded(t)
    ensures Inv(t)
  {
    hide Inv, Bounded, RegisterCall, WriteRequest, WriteFails, TakeReply, Expire, UnregisterCall;
    match l
    case LRegister(w) => RegisterCallKeeps(s, t, w);
    case LWrite(w) => WriteRequestKeeps(s, t, w);
    case LWriteFails(w, inner) => WriteFailsKeeps(s, t, w, inner);
    case LTakeReply(w) => TakeReplyKeeps(s, t, w);
    case LExpire(w) => ExpireKeeps(s, t, w);
    case LUnregister(w) => UnregisterCallKeeps(s, t, w);
    case _ =>
  }

  lemma CallbackStepKeeps(s: State, l: Label, t: State)
    requires Inv(s) && CallbackStep(s, l, t) && Bounded(t)
    ensures Inv(t)
  {
    hide Inv, Bounded, ActivateSession, SendActive, CallReturns, LatencyAdded, TpsAdded;
    match l
    case LActivate(w, now) => ActivateSessionKeeps(s, t, w, now);
    case LSendActive(w) => SendActiveKeeps(s, t, w);
    case LCallReturns(w, err) => CallReturnsKeeps(s, t, w, err);
    case LLatency(w, micros) => LatencyAddedKeeps(s, t, w, micros);
    case LTps(w) => TpsAddedKeeps(s, t, w);
    case _ =>
  }

  lemma SettleStepKeeps(s: State, l: Label, t: State)
    requires Inv(s) && SettleStep(s, l, t) && Bounded(t)
    ensures Inv(t)
  {
    hide Inv, Bounded, RecordSuccess, RecordFailure, MarkFailed, NotifyFailure, FinishFailure;
    match l
    case LRecordSuccess(w) => RecordSuccessKeeps(s, t, w);
    case LRecordFailure(w) => RecordFailureKeeps(s, t, w);
    case LMark(w, now) => MarkFailedKeeps(s, t, w, now);
    case LNotify(w) => NotifyFailureKeeps(s, t, w);
    case LFinishFailure(w) => FinishFailureKeeps(s, t, w);
    case _ =>
  }

  lemma NetworkStepKeeps(s: State, l: Label, t: State)
    requires Inv(s) && NetworkStep(s, l, t) && Bounded(t)
    ensures Inv(t)
  {
    hide Inv, Bounded, AmfHandles, UpfReceives, UpfReplies, SmfReceives, SmfPuts, ReportTps, ReportLatency;
    match l
    case LAmfHandles(c) => AmfHandlesKeeps(s, t, c);
    case LUpfReceives(p) => UpfReceivesKeeps(s, t, p);
    case LUpfReplies(p, sent) => UpfRepliesKeeps(s, t, p, sent);
    case LSmfReceives(p) => SmfReceivesKeeps(s, t, p);
    case LSmfPuts(found) => SmfPutsKeeps(s, t, found);
    case LReportTps => ReportTpsKeeps(s, t);
    case LReportLatency => ReportLatencyKeeps(s, t);
    case _ =>
  }

  /** Every step keeps the invariant. */
  lemma StepKeeps(s: State, l: Label, t: State)
    requires Inv(s) && Step(s, l, t) && Bounded(t)
    ensures Inv(t)
  {
    hide Inv, Bounded;
    hide HandlerStep, PrepareStep, ExchangeStep, CallbackStep, SettleStep, NetworkStep;
    if HandlerStep(s, l, t) {
      HandlerStepKeeps(s, l, t);
    } else if PrepareStep(s, l, t) {
      PrepareStepKeeps(s, l, t);
    } else if ExchangeStep(s, l, t) {
      ExchangeStepKeeps(s, l, t);
    } else if CallbackStep(s, l, t) {
      CallbackStepKeeps(s, l, t);
    } else if SettleStep(s, l, t) {
      SettleStepKeeps(s, l, t);
    } else {
      NetworkStepKeeps(s, l, t);
    }
  }

  lemma {:induction false} RunBounded(states: seq<State>, labels: seq<Label>, i: nat)
    requires Run(states, labels) && i <= |labels| && Bounded(states[|labels|])
    ensures Bounded(states[i])
    decreases |labels| - i
  {
    hide Step;
    if i == |labels| {
    } else {
      RunBounded(states, labels, i + 1);
      Frame(states[i], labels[i], states[i + 1]);
    }
  }

  /** The invariant holds in every state of every run from an initial state. */
  lemma {:induction false} RunInv(states: seq<State>, labels: seq<Label>, i: nat)
    requires Run(states, labels) && Init(states[0]) && i <= |labels| && Bounded(states[|labels|])
    ensures Inv(states[i])
  {
    hide Step, Inv, Bounded, Init;
    RunBounded(states, labels, i);
    if i == 0 {
      InitInv(states[0]);
    } else {
      RunInv(states, labels, i - 1);
      StepKeeps(states[i - 1], labels[i - 1], states[i]);
    }
  }

  lemma ReachableInv(s: State)
    requires Reachable(s) && Bounded(s)
    ensures Inv(s)
  {
    hide Step, Inv, Bounded, Init;
    var states, labels :| Run(states, labels) && Init(states[0]) && states[|labels|] == s;
    RunInv(states, labels, |labels|);
  }

  // ----- addresses: repository against UPF -----

  /** A session that has an address is backed by the UPF: the table holds, under the sequence number the
      request took, a session with exactly the four bytes the address text denotes. */
  lemma StoredAddressIsInstalled(s: State, ref: string)
    requires Reachable(s) && Bounded(s)
    requires ref in s.repo && s.repo[ref].ipAddress != ""
    ensures s.repo[ref].status in {Repository.ACTIVE, Repository.FAILED}
    ensures ref in s.log.refOwner
    ensures var k := s.log.refOwner[ref];
            && k in s.tags && s.tags[k] in s.upf
            && s.upf[s.tags[k]].seqNum == s.tags[k] && s.upf[s.tags[k]].pdnType == PDN_IPV4
            && Dotted(s.upf[s.tags[k]].ip) == s.repo[ref].ipAddress
  {
    hide Reachable, Init, Run, Bounded;
    ReachableInv(s);
    InstalledFor(s, ref);
  }

  lemma InstalledFor(s: State, ref: string)
    requires Inv(s) && ref in s.repo && s.repo[ref].ipAddress != ""
    ensures s.repo[ref].status in {Repository.ACTIVE, Repository.FAILED}
    ensures ref in s.log.refOwner
    ensures var k := s.log.refOwner[ref];
            && k < |s.requests| && s.requests[k].ref == ref && k in s.addrs
              && s.repo[ref].ipAddress == DottedU32(s.addrs[k])
            && k in s.tags && s.tags[k] in s.upf
            && s.upf[s.tags[k]] == UpfServer.Session(s.tags[k], PDN_IPV4, U32Bytes(s.addrs[k]))
  {
    hide Places, Hands, Drained, Boxes, Calls, Pending, AmfMap, Conservation, Statuses, Counters, Latencies;
    hide Refs, Progress, Addresses, Network, Tags, Issued, Backed, Sessions;
    SessionOf(s, ref);
    var k := s.log.refOwner[ref];
    assert Answered(s.phases[k], s.ats);
    BackedAt(s.phases, s.ats, s.tags, s.upf.Keys, k);
    TagOwner(s.client.seqCounter, s.log.calls, s.tags, s.log.seqOwner, k);
    NetworkAt(s.log.issued, s.toUpf, s.upf, s.replies, s.toSmf, s.tags[k]);
    IssuedAt(s.log.issued, s.log.seqOwner, s.addrs, s.tags[k]);
  }

  /** The request behind a stored session, and what the repository shows for it. */
  lemma SessionOf(s: State, ref: string)
    requires Inv(s) && ref in s.repo
    ensures ref in s.log.refOwner
    ensures var k := s.log.refOwner[ref];
            && k < |s.requests| && s.requests[k].ref == ref && |s.phases| == |s.requests|
            && Stands(s.repo, ref, IpText(s.addrs, k), StandingOf(s.phases[k], s.ats))
  {
    hide Places, Hands, Drained, Boxes, Calls, Pending, AmfMap, Conservation, Statuses, Counters, Latencies, Progress,
      Addresses, Network, Tags, Issued, Backed;
    hide Stands, StandingOf;
  }

  lemma BackedAt(phases: seq<Phase>, ats: seq<At>, tags: map<nat, U32>, upf: set<U32>, k: nat)
    requires Backed(phases, ats, tags, upf) && k < |phases| && Answered(phases[k], ats)
    ensures k in tags && tags[k] in upf
  {
  }

  lemma TagOwner(counter: U32, n: nat, tags: map<nat, U32>, owner: map<U32, nat>, k: nat)
    requires Tags(counter, n, tags, owner) && k in tags
    ensures tags[k] in owner && owner[tags[k]] == k
  {
  }

  lemma NetworkAt(
    issued: map<U32, Quad>, toUpf: set<Datagram>, upf: UpfServer.Table, replies: multiset<Datagram>,
    toSmf: set<Datagram>, q: U32)
    requires Network(issued, toUpf, upf, replies, toSmf) && q in upf
    ensures q in issued && upf[q] == UpfServer.Session(q, PDN_IPV4, issued[q])
  {
  }

  lemma IssuedAt(issued: map<U32, Quad>, owner: map<U32, nat>, addrs: map<nat, U32>, q: U32)
    requires Issued(issued, owner, addrs) && q in owner
    ensures q in issued && owner[q] in addrs && issued[q] == U32Bytes(addrs[owner[q]])
  {
  }

  /** No two stored sessions share an address. */
  lemma StoredAddressesDistinct(s: State, ref1: string, ref2: string)
    requires Reachable(s) && Bounded(s)
    requires ref1 in s.repo && ref2 in s.repo && s.repo[ref1].ipAddress != ""
    requires s.repo[ref1].ipAddress == s.repo[ref2].ipAddress
    ensures ref1 == ref2
  {
    hide Reachable, Init, Run, Bounded;
    hide Refs, Places, Hands, Progress, Drained, Network, Issued, Boxes, Calls, Pending, Sessions, Known, Backed,
      AmfMap, Conservation, Statuses, Counters, Latencies, Tags, Addresses;
    ReachableInv(s);
    InstalledFor(s, ref1);
    InstalledFor(s, ref2);
    var j, k := s.log.refOwner[ref1], s.log.refOwner[ref2];
    DottedInjective(s.addrs[j], s.addrs[k]);
    AddressOwner(s.ipCounter, s.log.addresses, s.addrs, s.log.addrOwner, j);
    AddressOwner(s.ipCounter, s.log.addresses, s.addrs, s.log.addrOwner, k);
  }

  lemma AddressOwner(counter: U32, n: nat, addrs: map<nat, U32>, owner: map<U32, nat>, k: nat)
    requires Addresses(counter, n, addrs, owner) && k in addrs
    ensures addrs[k] in owner && owner[addrs[k]] == k
  {
  }

  // ----- no cross-talk -----

  /** Each registered number has one channel, one call in flight and one worker; no other worker is in
      flight on that number or that channel. */
  lemma OneCallPerChannel(s: State, q: U32)
    requires Reachable(s) && Bounded(s) && q in s.client.pending
    ensures s.client.pending[q] < |s.client.channels|
    ensures exists w ::
      && 0 <= w < |s.holders| && w < |s.ats| && InFlight(s.ats[w], q, s.client.pending[q])
      && s.holders[w] == Busy(s.client.channels[s.client.pending[q]].call)
      && s.holders[w].id in s.tags && s.tags[s.holders[w].id] == q
      && OnlyCaller(s.holders, s.ats, q, s.client.pending[q], w)
  {
    hide Reachable, Init, Run, Bounded;
    hide Refs, Places, Hands, Progress, Drained, Network, Issued, Boxes, Calls, Sessions, Known, Backed, AmfMap,
      Conservation, Statuses, Counters, Latencies, Tags, Addresses;
    ReachableInv(s);
    var w :| 0 <= w < |s.holders| && s.holders[w] == Busy(s.client.channels[s.client.pending[q]].call)
               && InFlight(s.ats[w], q, s.client.pending[q]);
    OnlyOne(s.holders, s.ats, s.tags, s.log.issued, s.client, s.upf.Keys,
      s.client.seqCounter, s.log.calls, s.log.seqOwner, s.phases, s.queue, s.log.dequeued, q, w);
  }

  ghost predicate OnlyCaller(holders: seq<Holder>, ats: seq<At>, q: U32, ch: nat, w: nat) {
    forall v | 0 <= v < |holders| && v < |ats| && holders[v].Busy? && InCallOn(ats[v], q, ch) :: v == w
  }

  lemma OnlyOne(
    holders: seq<Holder>, ats: seq<At>, tags: map<nat, U32>, issued: map<U32, Quad>, client: Client, upf: set<U32>,
    counter: U32, n: nat, owner: map<U32, nat>, phases: seq<Phase>, queue: seq<nat>, d: nat, q: U32, w: nat)
    requires Calls(holders, ats, tags, issued, client, upf) && Tags(counter, n, tags, owner)
      && Places(phases, queue, d, holders)
    requires q in client.pending && w < |holders| && holders[w].Busy? && InFlight(ats[w], q, client.pending[q])
    ensures holders[w].id in tags && tags[holders[w].id] == q && OnlyCaller(holders, ats, q, client.pending[q], w)
  {
    assert InCall(ats[w], holders[w].id, tags, issued, client, upf);
    forall v | 0 <= v < |holders| && holders[v].Busy? && InCallOn(ats[v], q, client.pending[q]) ensures v == w {
      assert InCall(ats[v], holders[v].id, tags, issued, client, upf);
      assert tags[holders[v].id] == q;
      assert phases[holders[v].id] == Held(v) && phases[holders[w].id] == Held(w);
    }
  }

  /** The worker is in flight on this number or on this channel. */
  predicate InCallOn(at: At, q: U32, ch: nat) {
    (at.Write? || at.Wait? || at.Unregister?) && (at.seqNum == q || at.ch == ch)
  }

  /** A channel never holds more than one response, and only the UPF's answer to its own number. */
  lemma ChannelHoldsOwnAnswer(s: State, ch: nat)
    requires Reachable(s) && Bounded(s) && ch < |s.client.channels|
    ensures |s.client.channels[ch].buf| <= 1
    ensures forall r | r in s.client.channels[ch].buf ::
      r == AnswerRead(s.client.channels[ch].tag) && s.client.channels[ch].tag in s.upf
  {
    hide Reachable, Init, Run, Bounded;
    hide Refs, Hands, Progress, Drained, Network, Issued, Calls, Pending, Sessions, Known, Backed, AmfMap,
      Conservation, Statuses, Counters, Latencies, Addresses, Tags, Places;
    ReachableInv(s);
  }

  /** A call that succeeded got the UPF's answer to its own number, and the UPF then holds the address
      of the call's own request. */
  lemma SuccessIsOwnAnswer(s: State, w: nat, q: U32, ch: nat, r: Response)
    requires Reachable(s) && Bounded(s) && s.Working(w) && s.ats[w] == Unregister(q, ch, Ok(r))
    ensures var k := s.holders[w].id;
            && k in s.tags && s.tags[k] == q && r == AnswerRead(q)
            && q in s.upf && s.upf[q] == UpfServer.Session(q, PDN_IPV4, U32Bytes(s.addrs[k]))
  {
    hide Reachable, Init, Run, Bounded;
    hide Refs, Places, Hands, Progress, Drained, Network, Issued, Boxes, Calls, Pending, Sessions, Known, Backed,
      AmfMap, Conservation, Statuses, Counters, Latencies, Tags, Addresses;
    ReachableInv(s);
    WorkerAt(s, w);
    TagOwner(s.client.seqCounter, s.log.calls, s.tags, s.log.seqOwner, s.holders[w].id);
    NetworkAt(s.log.issued, s.toUpf, s.upf, s.replies, s.toSmf, q);
    IssuedAt(s.log.issued, s.log.seqOwner, s.addrs, q);
  }

  /** Handling a reply touches no channel but one registered under the reply's own number, and that
      only while it is empty; late and duplicate replies change nothing. */
  lemma ReplyTouchesOwnChannel(s: State, t: State, found: (nat, Response), ch: nat)
    requires Reachable(s) && Bounded(s) && SmfPuts(s, t, found) && ch < |s.client.channels|
    ensures t.client.pending == s.client.pending && |t.client.channels| == |s.client.channels|
    ensures t.client.channels[ch] != s.client.channels[ch] ==>
      && s.client.channels[ch].tag == found.1.header.sequenceNumber && s.client.channels[ch].buf == []
      && t.client.channels[ch] == s.client.channels[ch].(buf := [found.1])
  {
    hide Reachable, Init, Run, Bounded;
    hide Refs, Places, Hands, Progress, Drained, Network, Issued, Boxes, Calls, Pending, Sessions, Known, Backed,
      AmfMap, Conservation, Statuses, Counters, Latencies, Tags, Addresses;
    ReachableInv(s);
    BoxTag(s.client.channels, s.sorted, s.upf.Keys, found);
  }

  lemma BoxTag(channels: seq<Channel>, sorted: multiset<(nat, Response)>, upf: set<U32>, found: (nat, Response))
    requires Boxes(channels, sorted, upf) && found in sorted
    ensures found.0 < |channels| && found.1 == AnswerRead(channels[found.0].tag)
  {
  }

  // ----- the UPF table -----

  lemma SentIsIssued(issued: map<U32, Quad>, toUpf: set<Datagram>, upf: UpfServer.Table, replies: multiset<Datagram>,
    toSmf: set<Datagram>)
    requires Network(issued, toUpf, upf, replies, toSmf)
    ensures forall p | p in toUpf :: UpfServer.IsIssued(issued, p)
  {
  }

  /** From any reachable state, the UPF's table after any deliveries of what was sent depends only on which
      datagrams arrive: neither their order nor their number matters. */
  lemma DeliveryOrderIrrelevant(s: State, ps: seq<Datagram>, qs: seq<Datagram>)
    requires Reachable(s) && Bounded(s)
    requires (forall p | p in ps :: p in s.toUpf) && (forall p :: p in ps <==> p in qs)
    ensures UpfServer.Deliver(s.upf, ps) == UpfServer.Deliver(s.upf, qs)
  {
    hide Reachable, Init, Run, Bounded, Network;
    hide Refs, Places, Hands, Progress, Drained, Issued, Boxes, Calls, Pending, Sessions, Known, Backed, AmfMap,
      Conservation, Statuses, Counters, Latencies, Tags, Addresses;
    ReachableInv(s);
    SentIsIssued(s.log.issued, s.toUpf, s.upf, s.replies, s.toSmf);
    UpfServer.UpfConfluence(s.upf, s.log.issued, ps, qs);
  }

  // ----- conservation and counters -----

  /** At every interleaving each request that reached EnqueueJob is queued, in the hands of a worker that
      has not counted it, about to be counted as refused, or counted; the machine counters agree with
      that modulo 2^64, and accepted jobs not yet counted never exceed the queue and the workers. */
  lemma JobConservation(s: State)
    requires Reachable(s) && Bounded(s)
    ensures s.log.arrived
         == |s.queue| + Count(s.ats, Uncounted) + Count(s.phases, IsShedding) + s.log.succeeded + s.log.failed
    ensures (|s.queue| + Count(s.ats, Uncounted) + Count(s.phases, IsShedding)
             + s.successCounter + s.failCounter) % TWO_64
         == s.log.arrived % TWO_64
    ensures |s.queue| + Count(s.ats, Uncounted) <= s.queueSize + |s.holders|
  {
    hide Reachable, Init, Run, Bounded;
    hide Refs, Places, Progress, Drained, Network, Issued, Boxes, Calls, Pending, Sessions, Known, Backed, AmfMap,
      Statuses, Tags, Addresses;
    ReachableInv(s);
    CountBound(s.ats, Uncounted);
    WrapSum(|s.queue| + Count(s.ats, Uncounted) + Count(s.phases, IsShedding), s.log.succeeded, s.log.failed);
  }

  lemma WrapSum(a: nat, b: nat, c: nat)
    ensures (a + b % TWO_64 + c % TWO_64) % TWO_64 == (a + b + c) % TWO_64
  {
    WrapPart(a + b % TWO_64, c);
    WrapPart(a + c, b);
  }

  /** The counters follow the repository up to the workers caught between a write and a count. */
  lemma CountersTrackRepository(s: State)
    requires Reachable(s) && Bounded(s)
    ensures |Repository.WithStatus(s.repo, {Repository.ACTIVE})| == s.log.succeeded + Count(s.ats, ActiveUnsettled)
    ensures |Repository.WithStatus(s.repo, {Repository.FAILED})|
         == s.log.failed - s.log.rejected - s.log.unsaved - Count(s.ats, AwaitingMark)
    ensures s.successCounter == s.log.succeeded % TWO_64 && s.failCounter == s.log.failed % TWO_64
  {
    hide Reachable, Init, Run, Bounded;
    hide Refs, Places, Hands, Progress, Drained, Network, Issued, Boxes, Calls, Pending, Sessions, Known, Backed,
      AmfMap, Conservation, Tags, Addresses;
    ReachableInv(s);
  }

  /** With every worker idle or gone the counts are equal outright. */
  lemma CountersExactWhenIdle(s: State)
    requires Reachable(s) && Bounded(s) && forall w | 0 <= w < |s.holders| :: !s.holders[w].Busy?
    ensures |Repository.WithStatus(s.repo, {Repository.ACTIVE})| == s.log.succeeded
    ensures |Repository.WithStatus(s.repo, {Repository.FAILED})| == s.log.failed - s.log.rejected - s.log.unsaved
    ensures |Repository.WithStatus(s.repo, {Repository.CREATING})| == 0
  {
    hide Reachable, Init, Run, Bounded;
    hide Refs, Places, Progress, Drained, Network, Issued, Boxes, Calls, Pending, Sessions, Known, Backed, AmfMap,
      Conservation, Counters, Latencies, Tags, Addresses;
    ReachableInv(s);
    CountBound(s.ats, ActiveUnsettled);
    CountBound(s.ats, AwaitingMark);
    CountBound(s.ats, AtCreating);
  }

  /** The throughput counter loses nothing to the reporter: what was reported and what is still in the
      counter make up the jobs completed. */
  lemma ThroughputConserved(s: State)
    requires Reachable(s) && Bounded(s)
    ensures (s.log.reported + s.tpsCounter) % TWO_64 == s.log.completed % TWO_64
  {
    hide Reachable, Init, Run, Bounded;
    hide Refs, Places, Hands, Progress, Drained, Network, Issued, Boxes, Calls, Pending, Sessions, Known, Backed,
      AmfMap, Conservation, Statuses, Tags, Addresses;
    ReachableInv(s);
  }

  /** Nor does the latency sum lose anything: what was reported and what is left make up what was added. */
  lemma LatencyConserved(s: State)
    requires Reachable(s) && Bounded(s)
    ensures (s.log.microsOut + s.latencySum) % TWO_64 == s.log.micros % TWO_64
  {
    hide Reachable, Init, Run, Bounded;
    hide Refs, Places, Hands, Progress, Drained, Network, Issued, Boxes, Calls, Pending, Sessions, Known, Backed,
      AmfMap, Conservation, Statuses, Counters, Tags, Addresses;
    ReachableInv(s);
  }

  /** A request that was shed, or is about to be counted as shed, has no stored session. */
  lemma ShedIsNotStored(s: State, k: nat)
    requires Reachable(s) && Bounded(s) && k < |s.requests|
    requires k < |s.phases| && (s.phases[k].Shedding? || s.phases[k].Shed?)
    ensures s.requests[k].ref !in s.repo
  {
    hide Reachable, Init, Run, Bounded;
    hide Refs, Places, Hands, Progress, Drained, Network, Issued, Boxes, Calls, Pending, Known, Backed, AmfMap,
      Conservation, Statuses, Counters, Latencies, Tags, Addresses;
    ReachableInv(s);
  }

  // ----- the statistics of a reachable repository -----

  lemma StoredStatus(s: State, ref: string)
    requires Inv(s) && ref in s.repo
    ensures s.repo[ref].status in {Repository.ACTIVE, Repository.CREATING, Repository.FAILED}
    ensures s.repo[ref].status == Repository.CREATING ==> s.repo[ref].ipAddress == ""
    ensures s.repo[ref].status == Repository.ACTIVE ==> s.repo[ref].ipAddress != ""
    ensures if s.repo[ref].status == Repository.FAILED
            then s.repo[ref].failureReason in {PFCP_TIMEOUT, N1N2_FAILED, DB_ERROR, E2E_FAILED}
              && s.repo[ref].failureReason != ""
            else s.repo[ref].failureReason == ""
  {
    hide Refs, Places, Hands, Drained, Network, Issued, Boxes, Calls, Pending, Sessions, Known, Backed, AmfMap,
      Conservation, Statuses, Counters, Latencies, Tags, Addresses;
    SessionOf(s, ref);
    var k := s.log.refOwner[ref];
    ProgressAt(s.phases, s.addrs, s.tags, s.log.accepted, k);
    if k in s.addrs {
      DottedNotEmpty(U32Bytes(s.addrs[k]));
    }
  }

  /** Every failed session has one of the four reasons, so the breakdown adds up to the failed count; the
      three status counts cover the repository; and the grouped breakdown is the in-memory one. */
  lemma StatisticsPartition(s: State)
    requires Reachable(s) && Bounded(s)
    ensures forall r | r in s.repo && s.repo[r].status == Repository.FAILED ::
      s.repo[r].failureReason in {PFCP_TIMEOUT, N1N2_FAILED, DB_ERROR, E2E_FAILED}
    ensures Repository.Total(Repository.ReasonCounts(s.repo)) == |Repository.WithStatus(s.repo, {Repository.FAILED})|
    ensures |Repository.WithStatus(s.repo, {Repository.ACTIVE})|
          + |Repository.WithStatus(s.repo, {Repository.PENDING, Repository.CREATING})|
          + |Repository.WithStatus(s.repo, {Repository.FAILED})| == |s.repo|
    ensures Repository.GroupedReasons(s.repo) == Repository.ReasonCounts(s.repo)
  {
    hide Reachable, Init, Run, Bounded;
    hide Inv;
    ReachableInv(s);
    forall r | r in s.repo
      ensures s.repo[r].status in {Repository.ACTIVE, Repository.CREATING, Repository.FAILED}
      ensures s.repo[r].status == Repository.FAILED ==>
        s.repo[r].failureReason in {PFCP_TIMEOUT, N1N2_FAILED, DB_ERROR, E2E_FAILED} && s.repo[r].failureReason != ""
    {
      StoredStatus(s, r);
    }
    assert Repository.FailedFor(s.repo, "") == {};
    Repository.ReasonCountsTotal(s.repo);
    Repository.StatusCountsCover(s.repo);
    Repository.GroupedReasonsAgree(s.repo);
  }

  // ----- the AMF -----

  /** Each reference the AMF holds, and each it calls modify for, was issued by the SMF for that IMSI. */
  lemma AmfHoldsIssuedReferences(s: State)
    requires Reachable(s) && Bounded(s)
    ensures forall imsi | imsi in s.amf :: IssuedFor(s.requests, s.log.accepted, s.amf[imsi], imsi)
    ensures forall m | m in s.updates :: IssuedFor(s.requests, s.log.accepted, m.0, m.1) && m.1 in s.amf
  {
    hide Reachable, Init, Run, Bounded;
    hide Refs, Places, Hands, Progress, Drained, Network, Issued, Boxes, Calls, Pending, Sessions, Known, Backed,
      Conservation, Statuses, Counters, Latencies, Tags, Addresses;
    ReachableInv(s);
    hide IssuedFor;
  }

  /** Over any stretch of a run an IMSI once present stays present, and modify calls are never taken back. */
  lemma {:induction false} AmfMapGrows(states: seq<State>, labels: seq<Label>, i: nat, j: nat)
    requires Run(states, labels) && i <= j <= |labels|
    ensures states[i].amf.Keys <= states[j].amf.Keys && states[i].updates <= states[j].updates
    decreases j
  {
    hide Step;
    if i == j {
    } else {
      AmfMapGrows(states, labels, i, j - 1);
      Frame(states[j - 1], labels[j - 1], states[j]);
    }
  }
}

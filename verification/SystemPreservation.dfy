/** Every step keeps the invariant. */
module SystemPreservation {
  import opened Address
  import opened Bytes
  import opened Codec
  import opened FailureReason
  import opened PfcpClient
  import opened SmContext
  import opened System
  import opened SystemInvariant
  import opened SystemMoves
  import opened Wrappers
  import Repository
  import UpfServer

  // ----- what one worker or request can rely on -----

  /** What the invariants say about the job in a worker's hands. */
  lemma WorkerAt(s: State, w: nat)
    requires Inv(s) && s.Working(w)
    ensures var k := s.holders[w].id;
            && s.phases[k] == Held(w) && k in s.log.accepted && s.ats[w] != Free
            && InCall(s.ats[w], k, s.tags, s.log.issued, s.client, s.upf.Keys)
            && Stands(s.repo, s.requests[k].ref, s.IpOf(k), AtStanding(s.ats[w]))
            && (AtAnswered(s.ats[w]) ==> k in s.tags && s.tags[k] in s.upf)
  {
    hide Refs, Addresses, Tags, Network, Issued, Boxes, Pending, Known, AmfMap, Conservation, Statuses, Counters,
      Latencies, Drained;
    hide Stands, InCall, AtStanding, AtAnswered;
    var k := s.holders[w].id;
    assert StandingOf(s.phases[k], s.ats) == AtStanding(s.ats[w]);
    assert AtAnswered(s.ats[w]) ==> Answered(s.phases[k], s.ats);
  }

  lemma ProgressAt(phases: seq<Phase>, addrs: map<nat, U32>, tags: map<nat, U32>, accepted: set<nat>, k: nat)
    requires Progress(phases, addrs, tags, accepted) && k < |phases|
    ensures k in addrs <==> !phases[k].Numbered?
    ensures k in accepted <==> Accepted(phases[k])
    ensures k in tags ==> phases[k].Held? || phases[k].Settled?
  {
  }

  lemma ProgressAllocate(phases: seq<Phase>, addrs: map<nat, U32>, tags: map<nat, U32>, accepted: set<nat>, k: nat,
    v: U32)
    requires Progress(phases, addrs, tags, accepted) && k < |phases| && phases[k] == Numbered
    ensures Progress(phases[k := Addressed], addrs[k := v], tags, accepted)
  {
  }

  lemma HandsAt(holders: seq<Holder>, ats: seq<At>, w: nat)
    requires Hands(holders, ats) && w < |holders|
    ensures ats[w] == Free <==> !holders[w].Busy?
  {
  }

  lemma HeldOnce(phases: seq<Phase>, queue: seq<nat>, dequeued: nat, holders: seq<Holder>, w: nat)
    requires Places(phases, queue, dequeued, holders) && w < |holders| && holders[w].Busy?
    ensures forall j | 0 <= j < |phases| && phases[j] == Held(w) :: j == holders[w].id
  {
  }

  lemma NobodyHeld(phases: seq<Phase>, queue: seq<nat>, dequeued: nat, holders: seq<Holder>, w: nat)
    requires Places(phases, queue, dequeued, holders) && w < |holders| && !holders[w].Busy?
    ensures forall j | 0 <= j < |phases| :: phases[j] != Held(w)
  {
  }

  lemma PlacesExit(phases: seq<Phase>, queue: seq<nat>, dequeued: nat, holders: seq<Holder>, w: nat)
    requires Places(phases, queue, dequeued, holders) && w < |holders| && !holders[w].Busy?
    ensures Places(phases, queue, dequeued, holders[w := Exited])
  {
  }

  lemma DrainedIdle(queue: seq<nat>, closed: bool, holders: seq<Holder>, w: nat)
    requires Drained(queue, closed, holders) && w < |holders|
    ensures Drained(queue, closed, holders[w := Idle])
  {
  }

  lemma RefKnown(counter: U64, requests: seq<Intake>, owner: map<string, nat>, k: nat)
    requires Refs(counter, requests, owner) && k < |requests|
    ensures requests[k].ref in owner
  {
  }

  lemma KnownAt(repo: Repository.Table, owner: map<string, nat>, ref: string)
    requires Known(repo, owner) && ref in repo
    ensures repo[ref].ref == ref
  {
  }

  lemma BoxHolds(channels: seq<Channel>, sorted: multiset<(nat, Response)>, upf: set<U32>, ch: nat)
    requires Boxes(channels, sorted, upf) && ch < |channels| && channels[ch].buf != []
    ensures channels[ch].buf == [AnswerRead(channels[ch].tag)] && channels[ch].tag in upf
  {
  }

  lemma SentIsAnswer(
    issued: map<U32, Quad>, toUpf: set<Datagram>, upf: UpfServer.Table, replies: multiset<Datagram>,
    toSmf: set<Datagram>, p: Datagram)
    requires Network(issued, toUpf, upf, replies, toSmf) && p in toSmf
    ensures IsAnswer(upf, p)
  {
  }

  lemma PendingValid(holders: seq<Holder>, ats: seq<At>, client: Client)
    requires Pending(holders, ats, client)
    ensures client.Valid()
  {
  }

  lemma RoomLeft(keys: set<nat>, n: nat, k: nat)
    requires (forall j | j in keys :: j < n) && k < n && k !in keys
    ensures |keys| < n
  {
    RangeSize(keys + {k}, n);
  }

  /** No more addresses and numbers were handed out than requests arrived. */
  lemma Budget(phases: seq<Phase>, addrs: map<nat, U32>, tags: map<nat, U32>, accepted: set<nat>, requests: seq<Intake>)
    requires Progress(phases, addrs, tags, accepted) && |phases| == |requests|
    ensures forall k | 0 <= k < |phases| && k !in addrs :: |addrs| < |requests|
    ensures forall k | 0 <= k < |phases| && k !in tags :: |tags| < |requests|
  {
    forall k | 0 <= k < |phases| && k !in addrs ensures |addrs.Keys| < |requests| {
      RoomLeft(addrs.Keys, |phases|, k);
    }
    forall k | 0 <= k < |phases| && k !in tags ensures |tags.Keys| < |requests| {
      RoomLeft(tags.Keys, |phases|, k);
    }
  }

  lemma NumberUnissued(s: State, q: U32)
    requires Inv(s) && q !in s.log.seqOwner
    ensures q !in s.log.issued && q !in s.client.pending
  {
    hide Refs, Addresses, Places, Hands, Progress, Drained, Network, Boxes, Sessions, Known, Backed, AmfMap,
      Conservation, Statuses, Counters, Latencies;
    hide Calls, Pending, Tags;
    PendingIsIssued(s.holders, s.ats, s.tags, s.log.issued, s.client, s.upf.Keys, s.client.seqCounter, s.log.calls,
      s.log.seqOwner, s.addrs);
  }

  /** An allocated address always has a datagram, so a call never fails before it is registered. */
  lemma EncodeNeverFails(s: State, t: State, w: nat, v6: V6Reader)
    ensures !EncodeFails(s, t, w, v6)
  {
    if s.Working(w) {
      var k := s.holders[w].id;
      DottedReadsBack(U32Bytes(s.addrs[k]), v6);
      EncodedRoundTrip(ESTABLISHMENT_REQUEST, Inc32(s.client.seqCounter), s.IpOf(k), v6);
    }
  }

  // ----- counters that wrap -----

  lemma AddOne(counter: U64, n: nat)
    requires counter == n % TWO_64
    ensures Add64(counter, 1) == (n + 1) % TWO_64
  {
    NextWraps(n);
  }

  lemma AddReported(tps: U64, completed: nat, reported: nat)
    requires (reported + tps) % TWO_64 == completed % TWO_64
    ensures (reported + Add64(tps, 1)) % TWO_64 == (completed + 1) % TWO_64
  {
    NextWraps(reported + tps);
    NextWraps(completed);
    if tps + 1 == TWO_64 {
      assert reported + tps + 1 == reported + TWO_64;
      assert (reported + TWO_64) % TWO_64 == reported % TWO_64;
    }
  }

  lemma LatenciesAdd(latencySum: U64, micros: nat, microsOut: nat, more: U64)
    requires Latencies(latencySum, micros, microsOut)
    ensures Latencies(Add64(latencySum, more), micros + more, microsOut)
  {
    WrapPart(microsOut, latencySum + more);
    WrapPart(more, microsOut + latencySum);
    WrapPart(more, micros);
  }

  // ----- step by step -----

  lemma ArriveKeeps(s: State, t: State, clock: int, supi: string, profile: Profile)
    requires Inv(s) && Arrive(s, t, clock, supi, profile) && Bounded(t)
    ensures Inv(t)
  {
    hide Refs, Addresses, Tags, Places, Hands, Progress, Drained, Network, Issued, Boxes, Calls, Pending,
      Sessions, Backed, AmfMap, Statuses, Counters, Latencies;
    var r := Intake(Ref(clock, Add64(s.contextCounter, 1)), supi, profile, clock);
    RefsArrive(s.contextCounter, s.requests, s.log.refOwner, r);
    KnownStays(s.repo, s.log.refOwner, r.ref, |s.requests|);
    PlacesArrive(s.phases, s.queue, s.log.dequeued, s.holders);
    ProgressArrive(s.phases, s.addrs, s.tags, s.log.accepted);
    SessionsArrive(s.requests, s.addrs, s.phases, s.ats, s.repo, r);
    BackedArrive(s.phases, s.ats, s.tags, s.upf.Keys);
    AmfMapStays(s.requests, [r], s.log.accepted, s.log.accepted, s.amf, s.updates, s.callbacks);
    CountAppend(s.phases, Numbered, IsShedding);
  }

  lemma AllocateKeeps(s: State, t: State, k: nat)
    requires Inv(s) && Allocate(s, t, k) && Bounded(t)
    ensures Inv(t)
  {
    hide Refs, Addresses, Tags, Places, Hands, Progress, Drained, Network, Issued, Boxes, Calls, Pending,
      Sessions, Known, Backed, AmfMap, Statuses, Counters, Latencies;
    var v := Inc32(s.ipCounter);
    Budget(s.phases, s.addrs, s.tags, s.log.accepted, s.requests);
    ProgressAt(s.phases, s.addrs, s.tags, s.log.accepted, k);
    AddressesAllocate(s.ipCounter, s.log.addresses, s.addrs, s.log.addrOwner, k);
    IssuedStays(s.log.issued, s.log.seqOwner, s.addrs, k, v);
    PlacesJobless(s.phases, s.queue, s.log.dequeued, s.holders, k, Addressed);
    ProgressAllocate(s.phases, s.addrs, s.tags, s.log.accepted, k, v);
    SessionsAllocate(s.requests, s.addrs, s.phases, s.ats, s.repo, k, v);
    BackedJobless(s.phases, s.ats, s.tags, s.upf.Keys, k, Addressed);
    CountUpdate(s.phases, k, Addressed, IsShedding);
  }

  lemma EnqueueKeeps(s: State, t: State, k: nat)
    requires Inv(s) && Enqueue(s, t, k)
    ensures Inv(t)
  {
    hide Refs, Addresses, Tags, Places, Hands, Progress, Network, Issued, Boxes, Calls, Pending, Sessions, Known,
      Backed, AmfMap, Statuses, Counters, Latencies;
    var p := Queued(s.log.dequeued + |s.queue|);
    PlacesEnqueue(s.phases, s.queue, s.log.dequeued, s.holders, k);
    ProgressAt(s.phases, s.addrs, s.tags, s.log.accepted, k);
    ProgressPhase(s.phases, s.addrs, s.tags, s.log.accepted, k, p);
    SessionsJobless(s.requests, s.addrs, s.phases, s.ats, s.repo, k, p);
    BackedJobless(s.phases, s.ats, s.tags, s.upf.Keys, k, p);
    AmfMapStays(s.requests, [], s.log.accepted, s.log.accepted + {k}, s.amf, s.updates, s.callbacks);
    assert s.requests + [] == s.requests;
    CountUpdate(s.phases, k, p, IsShedding);
  }

  lemma RefuseKeeps(s: State, t: State, k: nat)
    requires Inv(s) && Refuse(s, t, k)
    ensures Inv(t)
  {
    hide Refs, Addresses, Tags, Places, Hands, Progress, Drained, Network, Issued, Boxes, Calls, Pending,
      Sessions, Known, Backed, AmfMap, Statuses, Counters, Latencies;
    PlacesJobless(s.phases, s.queue, s.log.dequeued, s.holders, k, Shedding);
    ProgressAt(s.phases, s.addrs, s.tags, s.log.accepted, k);
    ProgressPhase(s.phases, s.addrs, s.tags, s.log.accepted, k, Shedding);
    SessionsJobless(s.requests, s.addrs, s.phases, s.ats, s.repo, k, Shedding);
    BackedJobless(s.phases, s.ats, s.tags, s.upf.Keys, k, Shedding);
    assert s.log.accepted - {k} == s.log.accepted;
    CountUpdate(s.phases, k, Shedding, IsShedding);
  }

  lemma CountRefusalKeeps(s: State, t: State, k: nat)
    requires Inv(s) && CountRefusal(s, t, k)
    ensures Inv(t)
  {
    hide Refs, Addresses, Tags, Places, Hands, Progress, Drained, Network, Issued, Boxes, Calls, Pending,
      Sessions, Known, Backed, AmfMap, Latencies;
    PlacesJobless(s.phases, s.queue, s.log.dequeued, s.holders, k, Shed);
    ProgressAt(s.phases, s.addrs, s.tags, s.log.accepted, k);
    ProgressPhase(s.phases, s.addrs, s.tags, s.log.accepted, k, Shed);
    SessionsJobless(s.requests, s.addrs, s.phases, s.ats, s.repo, k, Shed);
    BackedJobless(s.phases, s.ats, s.tags, s.upf.Keys, k, Shed);
    assert s.log.accepted - {k} == s.log.accepted;
    CountUpdate(s.phases, k, Shed, IsShedding);
    AddOne(s.failCounter, s.log.failed);
  }

  lemma HandOverKeeps(s: State, t: State, k: nat, w: nat)
    requires Inv(s) && HandOver(s, t, k, w)
    ensures Inv(t)
  {
    hide Refs, Addresses, Tags, Places, Hands, Progress, Network, Issued, Boxes, Calls, Pending, Sessions, Known,
      Backed, AmfMap, Statuses, Counters, Latencies;
    PlacesHandOver(s.phases, s.queue, s.log.dequeued, s.holders, k, w);
    ProgressAt(s.phases, s.addrs, s.tags, s.log.accepted, k);
    ProgressPhase(s.phases, s.addrs, s.tags, s.log.accepted, k, Held(w));
    HandsAt(s.holders, s.ats, w);
    HandsHolder(s.holders, s.ats, w, Busy(k), Save);
    NobodyHeld(s.phases, s.queue, s.log.dequeued, s.holders, w);
    CallsHolder(s.holders, s.ats, s.tags, s.log.issued, s.client, s.upf.Keys, w, Busy(k), Save);
    PendingHolder(s.holders, s.ats, s.client, w, Busy(k), Save);
    SessionsTake(s.requests, s.addrs, s.phases, s.ats, s.repo, s.holders, s.queue, s.log.dequeued, w, k, Held(w), Save);
    BackedTake(s.phases, s.ats, s.tags, s.upf.Keys, w, k, Held(w), Save);
    CountUpdate(s.phases, k, Held(w), IsShedding);
    CountUpdate(s.ats, w, Save, Uncounted);
    StatusesMove(s.repo, s.ats, s.log.succeeded, s.log.failed, s.log.rejected, s.log.unsaved, w, Save);
    AmfMapStays(s.requests, [], s.log.accepted, s.log.accepted + {k}, s.amf, s.updates, s.callbacks);
    assert s.requests + [] == s.requests;
  }

  lemma DequeueKeeps(s: State, t: State, w: nat)
    requires Inv(s) && Dequeue(s, t, w)
    ensures Inv(t)
  {
    hide Refs, Addresses, Tags, Places, Hands, Progress, Network, Issued, Boxes, Calls, Pending, Sessions, Known,
      Backed, AmfMap, Statuses, Counters, Latencies;
    var k := s.queue[0];
    PlacesDequeue(s.phases, s.queue, s.log.dequeued, s.holders, w);
    ProgressAt(s.phases, s.addrs, s.tags, s.log.accepted, k);
    ProgressPhase(s.phases, s.addrs, s.tags, s.log.accepted, k, Held(w));
    HandsAt(s.holders, s.ats, w);
    HandsHolder(s.holders, s.ats, w, Busy(k), Save);
    NobodyHeld(s.phases, s.queue, s.log.dequeued, s.holders, w);
    CallsHolder(s.holders, s.ats, s.tags, s.log.issued, s.client, s.upf.Keys, w, Busy(k), Save);
    PendingHolder(s.holders, s.ats, s.client, w, Busy(k), Save);
    SessionsTake(s.requests, s.addrs, s.phases, s.ats, s.repo, s.holders, s.queue, s.log.dequeued, w, k, Held(w), Save);
    BackedTake(s.phases, s.ats, s.tags, s.upf.Keys, w, k, Held(w), Save);
    CountUpdate(s.phases, k, Held(w), IsShedding);
    CountUpdate(s.ats, w, Save, Uncounted);
    StatusesMove(s.repo, s.ats, s.log.succeeded, s.log.failed, s.log.rejected, s.log.unsaved, w, Save);
    assert s.log.accepted + {k} == s.log.accepted;
  }

  lemma ExitKeeps(s: State, t: State, w: nat)
    requires Inv(s) && Exit(s, t, w)
    ensures Inv(t)
  {
    hide Refs, Addresses, Tags, Places, Hands, Progress, Network, Issued, Boxes, Calls, Pending, Sessions, Known,
      Backed, AmfMap, Conservation, Statuses, Counters, Latencies;
    HandsAt(s.holders, s.ats, w);
    assert s.ats[w := Free] == s.ats;
    HandsHolder(s.holders, s.ats, w, Exited, Free);
    PlacesExit(s.phases, s.queue, s.log.dequeued, s.holders, w);
    CallsHolder(s.holders, s.ats, s.tags, s.log.issued, s.client, s.upf.Keys, w, Exited, Free);
    PendingHolder(s.holders, s.ats, s.client, w, Exited, Free);
  }

  lemma AcknowledgeKeeps(s: State, t: State, k: nat)
    requires Inv(s) && Acknowledge(s, t, k)
    ensures Inv(t)
  {
    hide Refs, Addresses, Tags, Places, Hands, Progress, Drained, Network, Issued, Boxes, Calls, Pending,
      Sessions, Known, Backed, AmfMap, Conservation, Statuses, Counters, Latencies;
    IssuedForOwn(s.requests, s.log.accepted, k);
    AmfMapStore(s.requests, s.log.accepted, s.amf, s.updates, s.callbacks, s.requests[k].supi, s.requests[k].ref);
  }

  lemma CloseKeeps(s: State, t: State)
    requires Inv(s) && Close(s, t)
    ensures Inv(t)
  {
    hide Refs, Addresses, Tags, Places, Hands, Progress, Network, Issued, Boxes, Calls, Pending, Sessions, Known,
      Backed, AmfMap, Conservation, Statuses, Counters, Latencies;
  }

  lemma SaveFailsKeeps(s: State, t: State, w: nat, inner: string)
    requires Inv(s) && SaveFails(s, t, w, inner)
    ensures Inv(t)
  {
    hide Inv;
    var at := AddLatency(Some(SaveFailed(inner)));
    WorkerAt(s, w);
    QuietMove(s, w, at);
  }

  lemma QueryUdmKeeps(s: State, t: State, w: nat, err: Option<StageError>)
    requires Inv(s) && QueryUdm(s, t, w, err)
    ensures Inv(t)
  {
    hide Inv;
    var at := if err.Some? then AddLatency(err) else Number;
    WorkerAt(s, w);
    QuietMove(s, w, at);
  }

  lemma WriteRequestKeeps(s: State, t: State, w: nat)
    requires Inv(s) && WriteRequest(s, t, w)
    ensures Inv(t)
  {
    hide Refs, Addresses, Tags, Places, Hands, Progress, Drained, Network, Issued, Boxes, Calls, Pending,
      Sessions, Known, Backed, AmfMap, Conservation, Statuses, Counters, Latencies;
    var at := Wait(s.ats[w].seqNum, s.ats[w].ch);
    WorkerAt(s, w);
    QuietMove(s, w, at);
    NetworkSend(s.log.issued, s.toUpf, s.upf, s.replies, s.toSmf, s.ats[w].seqNum);
  }

  lemma WriteFailsKeeps(s: State, t: State, w: nat, inner: string)
    requires Inv(s) && WriteFails(s, t, w, inner)
    ensures Inv(t)
  {
    hide Inv;
    var at := Unregister(s.ats[w].seqNum, s.ats[w].ch, Err(inner));
    WorkerAt(s, w);
    QuietMove(s, w, at);
  }

  lemma ExpireKeeps(s: State, t: State, w: nat)
    requires Inv(s) && Expire(s, t, w)
    ensures Inv(t)
  {
    hide Inv;
    var at := Unregister(s.ats[w].seqNum, s.ats[w].ch, Err("timeout waiting for PFCP session establishment response"));
    WorkerAt(s, w);
    QuietMove(s, w, at);
  }

  lemma SendActiveKeeps(s: State, t: State, w: nat)
    requires Inv(s) && SendActive(s, t, w)
    ensures Inv(t)
  {
    hide Refs, Addresses, Tags, Places, Hands, Progress, Drained, Network, Issued, Boxes, Calls, Pending,
      Sessions, Known, Backed, AmfMap, Conservation, Statuses, Counters, Latencies;
    var k := s.holders[w].id;
    WorkerAt(s, w);
    QuietMove(s, w, Call(true));
    IssuedForOwn(s.requests, s.log.accepted, k);
    AmfMapSend(s.requests, s.log.accepted, s.amf, s.updates, s.callbacks, ActiveCallback(s.requests[k], k));
  }

  lemma AmfHandlesKeeps(s: State, t: State, c: Callback)
    requires Inv(s) && AmfHandles(s, t, c)
    ensures Inv(t)
  {
    hide Refs, Addresses, Tags, Places, Hands, Progress, Drained, Network, Issued, Boxes, Calls, Pending,
      Sessions, Known, Backed, AmfMap, Conservation, Statuses, Counters, Latencies;
    AmfMapHandle(s.requests, s.log.accepted, s.amf, s.updates, s.callbacks, c);
  }

  lemma CallReturnsKeeps(s: State, t: State, w: nat, err: Option<StageError>)
    requires Inv(s) && CallReturns(s, t, w, err)
    ensures Inv(t)
  {
    hide Inv;
    var at := AddLatency(err);
    WorkerAt(s, w);
    QuietMove(s, w, at);
  }

  lemma LatencyAddedKeeps(s: State, t: State, w: nat, micros: U64)
    requires Inv(s) && LatencyAdded(s, t, w, micros)
    ensures Inv(t)
  {
    hide Refs, Addresses, Tags, Places, Hands, Progress, Drained, Network, Issued, Boxes, Calls, Pending,
      Sessions, Known, Backed, AmfMap, Conservation, Statuses, Counters, Latencies;
    var at := AddTps(s.ats[w].err);
    WorkerAt(s, w);
    QuietMove(s, w, at);
    LatenciesAdd(s.latencySum, s.log.micros, s.log.microsOut, micros);
  }

  lemma TpsAddedKeeps(s: State, t: State, w: nat)
    requires Inv(s) && TpsAdded(s, t, w)
    ensures Inv(t)
  {
    hide Refs, Addresses, Tags, Places, Hands, Progress, Drained, Network, Issued, Boxes, Calls, Pending,
      Sessions, Known, Backed, AmfMap, Conservation, Statuses, Latencies;
    var at := Record(s.ats[w].err);
    WorkerAt(s, w);
    QuietMove(s, w, at);
    AddReported(s.tpsCounter, s.log.completed, s.log.reported);
  }

  /** The next number is new, and there is room for it. */
  lemma NextNumberFree(s: State, w: nat)
    requires Inv(s) && s.Working(w) && s.ats[w] == Number && Bounded(s)
    ensures var k, q := s.holders[w].id, Inc32(s.client.seqCounter);
            && k !in s.tags && |s.tags| + 1 < TWO_32
            && q !in s.log.seqOwner && q !in s.log.issued && q !in s.client.pending
  {
    hide Refs, Addresses, Tags, Places, Hands, Progress, Drained, Network, Issued, Boxes, Calls, Pending,
      Sessions, Known, Backed, AmfMap, Conservation, Statuses, Counters, Latencies;
    WorkerAt(s, w);
    Budget(s.phases, s.addrs, s.tags, s.log.accepted, s.requests);
    TagsTake(s.client.seqCounter, s.log.calls, s.tags, s.log.seqOwner, s.holders[w].id);
    NumberUnissued(s, Inc32(s.client.seqCounter));
  }

  /** The datagram is for the address of the call's own request. */
  lemma NumberDatagram(s: State, t: State, w: nat, v6: V6Reader)
    requires TakeNumber(s, t, w, v6)
    ensures var k, q := s.holders[w].id, Inc32(s.client.seqCounter);
            t.ats[w] == Register(q, RequestBytes(ESTABLISHMENT_REQUEST, q, U32Bytes(s.addrs[k])))
  {
    DottedReadsBack(U32Bytes(s.addrs[s.holders[w].id]), v6);
  }

  lemma NumberTaken(s: State, t: State, w: nat, v6: V6Reader)
    requires Inv(s) && TakeNumber(s, t, w, v6) && Bounded(t)
    ensures s.holders[w].id !in s.tags
    ensures Inc32(s.client.seqCounter) !in s.log.issued && Inc32(s.client.seqCounter) !in s.client.pending
    ensures Tags(t.client.seqCounter, t.log.calls, t.tags, t.log.seqOwner)
    ensures Issued(t.log.issued, t.log.seqOwner, t.addrs)
    ensures Network(t.log.issued, t.toUpf, t.upf, t.replies, t.toSmf)
  {
    hide Refs, Addresses, Tags, Places, Hands, Progress, Drained, Network, Issued, Boxes, Calls, Pending,
      Sessions, Known, Backed, AmfMap, Conservation, Statuses, Counters, Latencies;
    hide RequestBytes, Encoded, DottedU32;
    var k, q := s.holders[w].id, Inc32(s.client.seqCounter);
    NextNumberFree(s, w);
    TagsTake(s.client.seqCounter, s.log.calls, s.tags, s.log.seqOwner, k);
    IssuedTake(s.log.issued, s.log.seqOwner, s.addrs, q, k);
    NetworkIssue(s.log.issued, s.toUpf, s.upf, s.replies, s.toSmf, q, U32Bytes(s.addrs[k]));
  }

  lemma TakeNumberKeeps(s: State, t: State, w: nat, v6: V6Reader)
    requires Inv(s) && TakeNumber(s, t, w, v6) && Bounded(t)
    ensures Inv(t)
  {
    hide Refs, Addresses, Tags, Places, Hands, Progress, Drained, Network, Issued, Boxes, Calls, Pending,
      Sessions, Known, Backed, AmfMap, Statuses, Counters, Latencies;
    hide RequestBytes, Encoded, DottedU32;
    var k, q := s.holders[w].id, Inc32(s.client.seqCounter);
    WorkerAt(s, w);
    NumberTaken(s, t, w, v6);
    NumberDatagram(s, t, w, v6);
    CallsTake(s.holders, s.ats, s.tags, s.log.issued, s.client, s.upf.Keys, w, q, U32Bytes(s.addrs[k]), t.ats[w],
      s.phases, s.queue, s.log.dequeued);
    ProgressTag(s.phases, s.addrs, s.tags, s.log.accepted, k, q);
    HandsMove(s.holders, s.ats, w, t.ats[w]);
    PendingMove(s.holders, s.ats, s.client, w, t.ats[w]);
    PendingCounter(s.holders, t.ats, s.client);
    SessionsMove(s.requests, s.addrs, s.phases, s.ats, s.repo, w, t.ats[w]);
    BackedMove(s.phases, s.ats, s.tags, s.upf.Keys, s.holders, s.queue, s.log.dequeued, w, t.ats[w]);
    BackedTag(s.phases, t.ats, s.tags, s.upf.Keys, k, q);
    CountUpdate(s.ats, w, t.ats[w], Uncounted);
    StatusesMove(s.repo, s.ats, s.log.succeeded, s.log.failed, s.log.rejected, s.log.unsaved, w, t.ats[w]);
  }

  lemma RegisterCallKeeps(s: State, t: State, w: nat)
    requires Inv(s) && RegisterCall(s, t, w)
    ensures Inv(t)
  {
    hide Refs, Addresses, Tags, Places, Hands, Progress, Drained, Network, Issued, Boxes, Calls, Pending,
      Sessions, Known, Backed, AmfMap, Statuses, Counters, Latencies;
    WorkerAt(s, w);
    BoxesRegister(s.client.channels, s.sorted, s.upf.Keys, s.ats[w].seqNum, s.holders[w].id);
    CallsRegister(s.holders, s.ats, s.tags, s.log.issued, s.client, s.upf.Keys, w, s.client.seqCounter, s.log.calls,
      s.log.seqOwner, s.phases, s.queue, s.log.dequeued);
    PendingRegister(s.holders, s.ats, s.client, w, s.ats[w].seqNum, s.ats[w].data);
    HandsMove(s.holders, s.ats, w, t.ats[w]);
    SessionsMove(s.requests, s.addrs, s.phases, s.ats, s.repo, w, t.ats[w]);
    BackedMove(s.phases, s.ats, s.tags, s.upf.Keys, s.holders, s.queue, s.log.dequeued, w, t.ats[w]);
    CountUpdate(s.ats, w, t.ats[w], Uncounted);
    StatusesMove(s.repo, s.ats, s.log.succeeded, s.log.failed, s.log.rejected, s.log.unsaved, w, t.ats[w]);
  }

  lemma TakeReplyKeeps(s: State, t: State, w: nat)
    requires Inv(s) && TakeReply(s, t, w)
    ensures Inv(t)
  {
    hide Refs, Addresses, Tags, Places, Hands, Progress, Drained, Network, Issued, Boxes, Calls, Pending,
      Sessions, Known, Backed, AmfMap, Conservation, Statuses, Counters, Latencies;
    WorkerAt(s, w);
    BoxHolds(s.client.channels, s.sorted, s.upf.Keys, s.ats[w].ch);
    QuietMove(s, w, t.ats[w]);
    BoxesTake(s.client, s.sorted, s.upf.Keys, s.ats[w].ch);
    CallsContents(s.holders, t.ats, s.tags, s.log.issued, s.client, t.client, s.upf.Keys);
    PendingContents(s.holders, t.ats, s.client, t.client);
  }

  lemma UnregisterCallKeeps(s: State, t: State, w: nat)
    requires Inv(s) && UnregisterCall(s, t, w)
    ensures Inv(t)
  {
    hide Refs, Addresses, Tags, Places, Hands, Progress, Drained, Network, Issued, Boxes, Calls, Pending,
      Sessions, Known, Backed, AmfMap, Statuses, Counters, Latencies;
    WorkerAt(s, w);
    CallsUnregister(s.holders, s.ats, s.tags, s.log.issued, s.client, s.upf.Keys, w, t.ats[w], s.client.seqCounter,
      s.log.calls, s.log.seqOwner, s.phases, s.queue, s.log.dequeued);
    PendingUnregister(s.holders, s.ats, s.tags, s.log.issued, s.client, s.upf.Keys, w, t.ats[w]);
    HandsMove(s.holders, s.ats, w, t.ats[w]);
    SessionsMove(s.requests, s.addrs, s.phases, s.ats, s.repo, w, t.ats[w]);
    BackedMove(s.phases, s.ats, s.tags, s.upf.Keys, s.holders, s.queue, s.log.dequeued, w, t.ats[w]);
    CountUpdate(s.ats, w, t.ats[w], Uncounted);
    StatusesMove(s.repo, s.ats, s.log.succeeded, s.log.failed, s.log.rejected, s.log.unsaved, w, t.ats[w]);
  }

  /** The worker writes the session of its job and goes on. */
  lemma WriteMove(s: State, w: nat, at: At, v: Repository.Session)
    requires Inv(s) && s.Working(w) && at != Free
    requires InCall(at, s.holders[w].id, s.tags, s.log.issued, s.client, s.upf.Keys)
    requires forall q, ch :: !InFlight(s.ats[w], q, ch)
    requires AtAnswered(at) ==> AtAnswered(s.ats[w])
    requires Uncounted(at) == Uncounted(s.ats[w])
    requires v.ref == s.requests[s.holders[w].id].ref
    requires var r := s.requests[s.holders[w].id].ref;
             Stands(s.repo[r := v], r, IpText(s.addrs, s.holders[w].id), AtStanding(at))
    requires AwaitingMark(s.ats[w]) == AtStanding(at).Failed? && !AwaitingMark(at) && !AtStanding(s.ats[w]).Failed?
    ensures Inv(s.Goto(w, at).(repo := s.repo[v.ref := v]))
  {
    hide Refs, Addresses, Tags, Places, Hands, Progress, Drained, Network, Issued, Boxes, Calls, Pending,
      Sessions, Known, Backed, AmfMap, Conservation, Statuses, Counters, Latencies;
    hide InCall, InFlight, AtStanding, AtAnswered, Uncounted, AwaitingMark, Stands;
    var k := s.holders[w].id;
    WorkerAt(s, w);
    HeldOnce(s.phases, s.queue, s.log.dequeued, s.holders, w);
    HandsMove(s.holders, s.ats, w, at);
    CallsMove(s.holders, s.ats, s.tags, s.log.issued, s.client, s.upf.Keys, w, at);
    PendingMove(s.holders, s.ats, s.client, w, at);
    BackedMove(s.phases, s.ats, s.tags, s.upf.Keys, s.holders, s.queue, s.log.dequeued, w, at);
    ConservationMove(s.queue, s.phases, s.ats, s.log.arrived, s.log.succeeded, s.log.failed, w, at);
    RefKnown(s.contextCounter, s.requests, s.log.refOwner, k);
    KnownWrite(s.repo, s.log.refOwner, v.ref, v);
    SessionsWrite(s.requests, s.addrs, s.phases, s.ats, s.repo, w, at, v, s.contextCounter, s.log.refOwner, k);
    StatusesWrite(s.repo, s.ats, s.log.succeeded, s.log.failed, s.log.rejected, s.log.unsaved, w, at, v.ref,
      IpText(s.addrs, k), v);
  }

  lemma SaveSessionKeeps(s: State, t: State, w: nat, now: int)
    requires Inv(s) && SaveSession(s, t, w, now)
    ensures Inv(t)
  {
    hide Inv;
    WorkerAt(s, w);
    var v := NewSession(s.JobOf(s.holders[w].id)).(createdAt := now, updatedAt := now);
    WriteMove(s, w, Query, v);
  }

  lemma StoredOwnRef(s: State, w: nat)
    requires Inv(s) && s.Working(w)
    ensures var r := s.requests[s.holders[w].id].ref; r in s.repo ==> s.repo[r].ref == r
  {
    hide Refs, Addresses, Tags, Places, Hands, Progress, Drained, Network, Issued, Boxes, Calls, Pending,
      Sessions, Known, Backed, AmfMap, Conservation, Statuses, Counters, Latencies;
    var r := s.requests[s.holders[w].id].ref;
    if r in s.repo {
      KnownAt(s.repo, s.log.refOwner, r);
    }
  }

  lemma ActivateSessionKeeps(s: State, t: State, w: nat, now: int)
    requires Inv(s) && ActivateSession(s, t, w, now)
    ensures Inv(t)
  {
    hide Inv;
    var k := s.holders[w].id;
    WorkerAt(s, w);
    StoredOwnRef(s, w);
    var v := s.repo[s.requests[k].ref].(status := Repository.ACTIVE, ipAddress := s.IpOf(k), updatedAt := now);
    WriteMove(s, w, Call(false), v);
  }

  lemma MarkFailedKeeps(s: State, t: State, w: nat, now: int)
    requires Inv(s) && MarkFailed(s, t, w, now)
    ensures Inv(t)
  {
    hide Inv, ReasonOf, Text;
    var k, e := s.holders[w].id, s.ats[w].failure;
    WorkerAt(s, w);
    if e.SaveFailed? {
      QuietMove(s, w, Notify(e, false));
    } else {
      StoredOwnRef(s, w);
      var v := s.repo[s.requests[k].ref].(status := Repository.FAILED, failureReason := ReasonOf(Text(e)),
        updatedAt := now);
      WriteMove(s, w, Notify(e, false), v);
    }
  }

  lemma ConservationFail(queue: seq<nat>, phases: seq<Phase>, ats: seq<At>, arrived: nat, succeeded: nat, failed: nat,
    w: nat, at: At)
    requires Conservation(queue, phases, ats, arrived, succeeded, failed)
    requires w < |ats| && Uncounted(ats[w]) && !Uncounted(at)
    ensures Conservation(queue, phases, ats[w := at], arrived, succeeded, failed + 1)
  {
    CountUpdate(ats, w, at, Uncounted);
  }

  lemma CountersFailure(success: U64, fail: U64, tps: U64, succeeded: nat, failed: nat, completed: nat, reported: nat)
    requires Counters(success, fail, tps, succeeded, failed, completed, reported)
    ensures Counters(success, Add64(fail, 1), tps, succeeded, failed + 1, completed, reported)
  {
    AddOne(fail, failed);
  }

  lemma MarkAfterRecord(e: StageError)
    ensures var r, m := Record(Some(e)), Mark(e);
            && AtStanding(m) == AtStanding(r) && AtAnswered(m) == AtAnswered(r)
            && Uncounted(r) && !Uncounted(m) && AwaitingMark(m) == !e.SaveFailed? && !AwaitingMark(r)
            && ActiveUnsettled(m) == ActiveUnsettled(r) && AtCreating(m) == AtCreating(r)
  {
  }

  lemma RecordFailureKeeps(s: State, t: State, w: nat)
    requires Inv(s) && RecordFailure(s, t, w)
    ensures Inv(t)
  {
    hide ReasonOf, Text;
    hide Refs, Addresses, Tags, Places, Hands, Progress, Drained, Network, Issued, Boxes, Calls, Pending,
      Sessions, Known, Backed, AmfMap, Conservation, Statuses, Counters, Latencies;
    hide AtStanding, AtAnswered, Uncounted, AwaitingMark, ActiveUnsettled, AtCreating, Stands;
    var e := s.ats[w].err.value;
    var at := Mark(e);
    MarkAfterRecord(e);
    WorkerAt(s, w);
    HandsMove(s.holders, s.ats, w, at);
    CallsMove(s.holders, s.ats, s.tags, s.log.issued, s.client, s.upf.Keys, w, at);
    PendingMove(s.holders, s.ats, s.client, w, at);
    SessionsMove(s.requests, s.addrs, s.phases, s.ats, s.repo, w, at);
    BackedMove(s.phases, s.ats, s.tags, s.upf.Keys, s.holders, s.queue, s.log.dequeued, w, at);
    ConservationFail(s.queue, s.phases, s.ats, s.log.arrived, s.log.succeeded, s.log.failed, w, at);
    StatusesTally(s.repo, s.ats, s.log.succeeded, s.log.failed, s.log.rejected, s.log.unsaved, w, at,
      s.log.succeeded, t.log.failed, t.log.unsaved);
    CountersFailure(s.successCounter, s.failCounter, s.tpsCounter, s.log.succeeded, s.log.failed, s.log.completed,
      s.log.reported);
  }

  lemma ConservationSettle(
    queue: seq<nat>, phases: seq<Phase>, ats: seq<At>, arrived: nat, succeeded: nat, failed: nat, w: nat, k: nat)
    requires Conservation(queue, phases, ats, arrived, succeeded, failed)
    requires w < |ats| && Uncounted(ats[w]) && k < |phases| && !IsShedding(phases[k])
    ensures Conservation(queue, phases[k := Settled(None)], ats[w := Free], arrived, succeeded + 1, failed)
  {
    CountUpdate(phases, k, Settled(None), IsShedding);
    CountUpdate(ats, w, Free, Uncounted);
  }

  lemma CountersSuccess(success: U64, fail: U64, tps: U64, succeeded: nat, failed: nat, completed: nat, reported: nat)
    requires Counters(success, fail, tps, succeeded, failed, completed, reported)
    ensures Counters(Add64(success, 1), fail, tps, succeeded + 1, failed, completed, reported)
  {
    AddOne(success, succeeded);
  }

  lemma RecordSuccessKeeps(s: State, t: State, w: nat)
    requires Inv(s) && RecordSuccess(s, t, w)
    ensures Inv(t)
  {
    hide ReasonOf, Text;
    hide Refs, Addresses, Tags, Places, Hands, Progress, Drained, Network, Issued, Boxes, Calls, Pending,
      Sessions, Known, Backed, AmfMap, Statuses, Conservation, Counters, Latencies;
    var k := s.holders[w].id;
    WorkerAt(s, w);
    HeldOnce(s.phases, s.queue, s.log.dequeued, s.holders, w);
    PlacesFinish(s.phases, s.queue, s.log.dequeued, s.holders, w, None);
    ProgressAt(s.phases, s.addrs, s.tags, s.log.accepted, k);
    ProgressPhase(s.phases, s.addrs, s.tags, s.log.accepted, k, Settled(None));
    assert s.log.accepted + {k} == s.log.accepted;
    HandsHolder(s.holders, s.ats, w, Idle, Free);
    DrainedIdle(s.queue, s.closed, s.holders, w);
    CallsHolder(s.holders, s.ats, s.tags, s.log.issued, s.client, s.upf.Keys, w, Idle, Free);
    PendingHolder(s.holders, s.ats, s.client, w, Idle, Free);
    SessionsTake(s.requests, s.addrs, s.phases, s.ats, s.repo, s.holders, s.queue, s.log.dequeued, w, k, Settled(None),
      Free);
    BackedTake(s.phases, s.ats, s.tags, s.upf.Keys, w, k, Settled(None), Free);
    ConservationSettle(s.queue, s.phases, s.ats, s.log.arrived, s.log.succeeded, s.log.failed, w, k);
    StatusesTally(s.repo, s.ats, s.log.succeeded, s.log.failed, s.log.rejected, s.log.unsaved, w, Free,
      t.log.succeeded, t.log.failed, t.log.unsaved);
    CountersSuccess(s.successCounter, s.failCounter, s.tpsCounter, s.log.succeeded, s.log.failed, s.log.completed,
      s.log.reported);
  }

  lemma NotifyFailureKeeps(s: State, t: State, w: nat)
    requires Inv(s) && NotifyFailure(s, t, w)
    ensures Inv(t)
  {
    hide ReasonOf, Text;
    hide Refs, Addresses, Tags, Places, Hands, Progress, Drained, Network, Issued, Boxes, Calls, Pending,
      Sessions, Known, Backed, AmfMap, Conservation, Statuses, Counters, Latencies;
    var k, e := s.holders[w].id, s.ats[w].failure;
    WorkerAt(s, w);
    QuietMove(s, w, Notify(e, true));
    IssuedForOwn(s.requests, s.log.accepted, k);
    AmfMapSend(s.requests, s.log.accepted, s.amf, s.updates, s.callbacks,
      FailureCallback(s.requests[k], k, s.repo[s.requests[k].ref], e));
  }

  lemma FinishFailureKeeps(s: State, t: State, w: nat)
    requires Inv(s) && FinishFailure(s, t, w)
    ensures Inv(t)
  {
    hide ReasonOf, Text;
    hide Refs, Addresses, Tags, Places, Hands, Progress, Drained, Network, Issued, Boxes, Calls, Pending,
      Sessions, Known, Backed, AmfMap, Statuses, Counters, Latencies;
    var k := s.holders[w].id;
    WorkerAt(s, w);
    HeldOnce(s.phases, s.queue, s.log.dequeued, s.holders, w);
    PlacesFinish(s.phases, s.queue, s.log.dequeued, s.holders, w, Some(s.ats[w].failure));
    ProgressAt(s.phases, s.addrs, s.tags, s.log.accepted, k);
    ProgressPhase(s.phases, s.addrs, s.tags, s.log.accepted, k, Settled(Some(s.ats[w].failure)));
    assert s.log.accepted + {k} == s.log.accepted;
    HandsHolder(s.holders, s.ats, w, Idle, Free);
    DrainedIdle(s.queue, s.closed, s.holders, w);
    CallsHolder(s.holders, s.ats, s.tags, s.log.issued, s.client, s.upf.Keys, w, Idle, Free);
    PendingHolder(s.holders, s.ats, s.client, w, Idle, Free);
    SessionsTake(s.requests, s.addrs, s.phases, s.ats, s.repo, s.holders, s.queue, s.log.dequeued, w, k,
      Settled(Some(s.ats[w].failure)), Free);
    BackedTake(s.phases, s.ats, s.tags, s.upf.Keys, w, k, Settled(Some(s.ats[w].failure)), Free);
    CountUpdate(s.phases, k, Settled(Some(s.ats[w].failure)), IsShedding);
    CountUpdate(s.ats, w, Free, Uncounted);
    StatusesTally(s.repo, s.ats, s.log.succeeded, s.log.failed, s.log.rejected, s.log.unsaved, w, Free,
      t.log.succeeded, t.log.failed, t.log.unsaved);
  }

  lemma UpfReceivesKeeps(s: State, t: State, p: Datagram)
    requires Inv(s) && UpfReceives(s, t, p)
    ensures Inv(t)
  {
    hide Refs, Addresses, Tags, Places, Hands, Progress, Drained, Network, Issued, Boxes, Calls, Pending,
      Sessions, Known, Backed, AmfMap, Conservation, Statuses, Counters, Latencies;
    NetworkDeliver(s.log.issued, s.toUpf, s.upf, s.replies, s.toSmf, p);
    UpfGrows(s.client.channels, s.sorted, s.holders, s.ats, s.tags, s.log.issued, s.client, s.phases, s.upf.Keys,
      t.upf.Keys);
  }

  lemma UpfRepliesKeeps(s: State, t: State, p: Datagram, sent: bool)
    requires Inv(s) && UpfReplies(s, t, p, sent)
    ensures Inv(t)
  {
    hide Refs, Addresses, Tags, Places, Hands, Progress, Drained, Network, Issued, Boxes, Calls, Pending,
      Sessions, Known, Backed, AmfMap, Conservation, Statuses, Counters, Latencies;
    NetworkReply(s.log.issued, s.toUpf, s.upf, s.replies, s.toSmf, p);
  }

  lemma SmfReceivesKeeps(s: State, t: State, p: Datagram)
    requires Inv(s) && SmfReceives(s, t, p)
    ensures Inv(t)
  {
    hide Refs, Addresses, Tags, Places, Hands, Progress, Drained, Network, Issued, Boxes, Calls, Pending,
      Sessions, Known, Backed, AmfMap, Conservation, Statuses, Counters, Latencies;
    if s.client.Lookup(p).Some? {
      SentIsAnswer(s.log.issued, s.toUpf, s.upf, s.replies, s.toSmf, p);
      PendingValid(s.holders, s.ats, s.client);
      BoxesLookup(s.client, s.sorted, s.upf, p);
    } else {
      assert t.sorted == s.sorted;
    }
  }

  lemma SmfPutsKeeps(s: State, t: State, found: (nat, Response))
    requires Inv(s) && SmfPuts(s, t, found)
    ensures Inv(t)
  {
    hide Refs, Addresses, Tags, Places, Hands, Progress, Drained, Network, Issued, Boxes, Calls, Pending,
      Sessions, Known, Backed, AmfMap, Conservation, Statuses, Counters, Latencies;
    BoxesPut(s.client, s.sorted, s.upf.Keys, found);
    CallsContents(s.holders, s.ats, s.tags, s.log.issued, s.client, t.client, s.upf.Keys);
    PendingContents(s.holders, s.ats, s.client, t.client);
  }

  lemma ReportTpsKeeps(s: State, t: State)
    requires Inv(s) && ReportTps(s, t)
    ensures Inv(t)
  {
    hide Refs, Addresses, Tags, Places, Hands, Progress, Drained, Network, Issued, Boxes, Calls, Pending,
      Sessions, Known, Backed, AmfMap, Conservation, Statuses, Latencies;
  }

  lemma ReportLatencyKeeps(s: State, t: State)
    requires Inv(s) && ReportLatency(s, t)
    ensures Inv(t)
  {
    hide Refs, Addresses, Tags, Places, Hands, Progress, Drained, Network, Issued, Boxes, Calls, Pending,
      Sessions, Known, Backed, AmfMap, Conservation, Statuses, Counters;
  }

  // ----- whole runs -----

  lemma InitInv(s: State)
    requires Init(s)
    ensures Inv(s)
  {
    CountBound(s.ats, Uncounted);
    CountBound(s.ats, ActiveUnsettled);
    CountBound(s.ats, AwaitingMark);
    CountBound(s.ats, AtCreating);
  }

}

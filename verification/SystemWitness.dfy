/** The system is not stuck at safety: jobs reach workers, and every job in hand can still succeed. */
module SystemWitness {
  import opened Address
  import opened Bytes
  import opened Codec
  import opened FailureReason
  import opened PfcpClient
  import opened SmContext
  import opened System
  import opened SystemFrames
  import opened SystemInvariant
  import opened SystemPreservation
  import opened SystemRuns
  import opened SystemTheorems
  import opened Wrappers
  import Repository
  import UpfServer

  // ----- runs put together -----

  lemma {:induction false} RunKeepsInv(states: seq<State>, labels: seq<Label>)
    requires Run(states, labels) && Inv(states[0]) && Bounded(states[|labels|])
    ensures Inv(states[|labels|])
    decreases |labels|
  {
    hide Step, Inv, Bounded;
    if labels == [] {
    } else {
      var n := |labels| - 1;
      Frame(states[n], labels[n], states[n + 1]);
      BoundedBefore(states[n], states[n + 1]);
      assert states[..n + 1][n] == states[n] && states[..n + 1][0] == states[0];
      RunKeepsInv(states[..n + 1], labels[..n]);
      StepKeeps(states[n], labels[n], states[n + 1]);
    }
  }

  lemma BoundedBefore(s: State, t: State)
    requires |s.requests| <= |t.requests| && Bounded(t)
    ensures Bounded(s)
  {
  }

  /** `t` can be reached from `s`. */
  ghost predicate Leads(s: State, t: State) {
    exists states, labels :: Run(states, labels) && states[0] == s && states[|labels|] == t
  }

  lemma LeadsStep(s: State, l: Label, t: State)
    requires Step(s, l, t)
    ensures Leads(s, t)
  {
    hide Step;
    var states, labels := [s, t], [l];
    assert Run(states, labels) && states[0] == s && states[|labels|] == t;
  }

  lemma LeadsOn(s: State, t: State, u: State)
    requires Leads(s, t) && Leads(t, u)
    ensures Leads(s, u)
  {
    hide Step;
    var xs, ls :| Run(xs, ls) && xs[0] == s && xs[|ls|] == t;
    var ys, ms :| Run(ys, ms) && ys[0] == t && ys[|ms|] == u;
    var states, labels := xs + ys[1..], ls + ms;
    forall i | 0 <= i < |labels| ensures Step(states[i], labels[i], states[i + 1]) {
      if i < |ls| {
        assert states[i] == xs[i] && states[i + 1] == xs[i + 1] && labels[i] == ls[i];
      } else {
        var j := i - |ls|;
        assert states[i] == ys[j] && states[i + 1] == ys[j + 1] && labels[i] == ms[j];
      }
    }
    assert Run(states, labels) && states[0] == s && states[|labels|] == u;
  }

  lemma LeadsKeepsInv(s: State, t: State)
    requires Leads(s, t) && Inv(s) && Bounded(t)
    ensures Inv(t)
  {
    hide Inv, Step, Bounded;
    var states, labels :| Run(states, labels) && states[0] == s && states[|labels|] == t;
    RunKeepsInv(states, labels);
  }

  // ----- a job in hand can succeed -----

  /** `t` has the same requests as `s`, and `w` still holds its job, now at `at`. */
  ghost predicate Carries(s: State, t: State, w: nat, at: At) {
    SameJobs(s, t) && t.Working(w) && t.ats[w] == at
  }

  lemma PrepareCarries(s: State, w: nat) returns (t: State)
    requires s.Working(w) && (s.ats[w] == Save || s.ats[w] == Query)
    ensures Leads(s, t) && Carries(s, t, w, if s.ats[w] == Save then Query else Number)
  {
    hide HandlerStep, ExchangeStep, CallbackStep, SettleStep, NetworkStep;
    hide Leads;
    t := PrepareProgress(s, w);
    LeadsStep(s, NextOf(w, s.ats[w]), t);
  }

  lemma NumberCarries(s: State, w: nat) returns (t: State)
    requires s.Working(w) && s.ats[w] == Number
    ensures Leads(s, t) && t.Working(w) && t.ats[w].Register? && Carries(s, t, w, t.ats[w])
  {
    hide HandlerStep, ExchangeStep, CallbackStep, SettleStep, NetworkStep;
    hide Leads, Encoded, DottedU32;
    t := NumberProgress(s, w);
    LeadsStep(s, NextOf(w, Number), t);
  }

  lemma RegisterCarries(s: State, w: nat) returns (t: State)
    requires s.Working(w) && s.ats[w].Register?
    ensures Leads(s, t) && t.Working(w) && t.ats[w].Write? && Carries(s, t, w, t.ats[w])
  {
    hide HandlerStep, PrepareStep, CallbackStep, SettleStep, NetworkStep;
    hide Leads;
    t := ExchangeProgress(s, w);
    LeadsStep(s, LRegister(w), t);
  }

  lemma WriteCarries(s: State, w: nat) returns (t: State)
    requires s.Working(w) && s.ats[w].Write?
    ensures Leads(s, t) && Carries(s, t, w, Wait(s.ats[w].seqNum, s.ats[w].ch))
    ensures s.ats[w].data in t.toUpf && t.log.issued == s.log.issued && t.tags == s.tags
  {
    hide HandlerStep, PrepareStep, CallbackStep, SettleStep, NetworkStep;
    hide Leads;
    t := ExchangeProgress(s, w);
    LeadsStep(s, LWrite(w), t);
  }

  lemma AnswerCarries(s: State, w: nat) returns (t: State)
    requires s.Working(w) && s.ats[w].Unregister? && s.ats[w].reply.Ok?
    ensures Leads(s, t) && Carries(s, t, w, Activate)
  {
    hide HandlerStep, PrepareStep, CallbackStep, SettleStep, NetworkStep;
    hide Leads;
    t := ExchangeProgress(s, w);
    LeadsStep(s, LUnregister(w), t);
  }

  lemma ActivateCarries(s: State, w: nat) returns (t: State)
    requires s.Working(w) && s.ats[w] == Activate
    ensures Leads(s, t) && Carries(s, t, w, Call(false))
  {
    hide HandlerStep, PrepareStep, ExchangeStep, SettleStep, NetworkStep;
    hide Leads, Repository.SetIP;
    t := CallbackProgress(s, w);
    LeadsStep(s, LActivate(w, 0), t);
  }

  lemma WaitCarries(s: State, w: nat) returns (t: State)
    requires Inv(s) && s.Working(w) && s.ats[w].Wait?
    requires s.ats[w].seqNum in s.log.issued
    requires RequestBytes(ESTABLISHMENT_REQUEST, s.ats[w].seqNum, s.log.issued[s.ats[w].seqNum]) in s.toUpf
    ensures Leads(s, t) && t.Working(w) && t.ats[w].Unregister? && t.ats[w].reply.Ok? && Carries(s, t, w, t.ats[w])
  {
    hide Inv, Step, RequestBytes, AnswerRead;
    var states, labels := WrittenCallCanSucceed(s, w, s.ats[w].seqNum, s.ats[w].ch);
    t := states[|labels|];
  }

  lemma WriteKnowsItsData(s: State, w: nat)
    requires Inv(s) && s.Working(w) && s.ats[w].Write?
    ensures s.ats[w].seqNum in s.log.issued
    ensures s.ats[w].data == RequestBytes(ESTABLISHMENT_REQUEST, s.ats[w].seqNum, s.log.issued[s.ats[w].seqNum])
  {
    hide Inv, RequestBytes;
    WorkerAt(s, w);
  }

  /** From the save up to the wait for the UPF. */
  lemma JobReachesWrite(s: State, w: nat) returns (t: State)
    requires Inv(s) && Bounded(s) && s.Working(w) && s.ats[w] == Save
    ensures Inv(t) && Leads(s, t) && t.Working(w) && t.ats[w].Write? && Carries(s, t, w, t.ats[w])
  {
    hide Inv, Leads, Bounded;
    var s1 := PrepareCarries(s, w);
    var s2 := PrepareCarries(s1, w);
    var s3 := NumberCarries(s2, w);
    t := RegisterCarries(s3, w);
    LeadsOn(s, s1, s2);
    LeadsOn(s, s2, s3);
    LeadsOn(s, s3, t);
    SameBounded(s, t);
    LeadsKeepsInv(s, t);
  }

  lemma JobReachesAnswer(s: State, w: nat) returns (t: State)
    requires Inv(s) && Bounded(s) && s.Working(w) && s.ats[w].Write?
    ensures Inv(t) && Leads(s, t) && Carries(s, t, w, Call(false))
  {
    hide Inv, Leads, Bounded, RequestBytes;
    WriteKnowsItsData(s, w);
    var s1 := WriteCarries(s, w);
    SameBounded(s, s1);
    LeadsKeepsInv(s, s1);
    var s2 := WaitCarries(s1, w);
    var s3 := AnswerCarries(s2, w);
    t := ActivateCarries(s3, w);
    LeadsOn(s, s1, s2);
    LeadsOn(s, s2, s3);
    LeadsOn(s, s3, t);
    SameBounded(s, t);
    LeadsKeepsInv(s, t);
  }

  /** Every job a worker has just taken can still succeed, whatever state the rest of the system is in: some
      continuation makes its session ACTIVE with the address of the request, installed in the UPF. */
  lemma JobCanSucceed(s: State, w: nat) returns (t: State)
    requires Inv(s) && Bounded(s) && s.Working(w) && s.ats[w] == Save
    ensures Leads(s, t) && SameJobs(s, t)
    ensures var k := s.holders[w].id;
            var ref := s.requests[k].ref;
            && ref in t.repo && t.repo[ref].status == Repository.ACTIVE
              && t.repo[ref].ipAddress == DottedU32(s.addrs[k])
            && k in t.tags && t.tags[k] in t.upf && t.upf[t.tags[k]].ip == U32Bytes(s.addrs[k])
  {
    hide Inv, Leads, Bounded;
    var s1 := JobReachesWrite(s, w);
    SameBounded(s, s1);
    t := JobReachesAnswer(s1, w);
    LeadsOn(s, s1, t);
    WorkerAt(t, w);
    var k := s.holders[w].id;
    DottedNotEmpty(U32Bytes(s.addrs[k]));
    InstalledFor(t, s.requests[k].ref);
    OwnerOf(t, k);
  }

  lemma OwnerOf(s: State, k: nat)
    requires Inv(s) && k < |s.requests|
    ensures s.requests[k].ref in s.log.refOwner && s.log.refOwner[s.requests[k].ref] == k
  {
    hide Addresses, Tags, Places, Hands, Progress, Drained, Network, Issued, Boxes, Calls, Pending, Sessions,
      Known, Backed, AmfMap, Conservation, Statuses, Counters, Latencies, Ref;
  }

  // ----- a job in hand exists -----

  function Start(queueSize: nat, workers: nat): State {
    State(queueSize, 0, FIRST_ADDRESS, [], [], map[], map[], {}, [], false,
          seq(workers, _ => Idle), seq(workers, _ => Free), 0, 0, 0, 0,
          map[], Client(0, map[], []), multiset{}, {}, {}, map[], multiset{}, multiset{}, {}, map[], {},
          History(0, 0, 0, 0, 0, 0, 0, 0, 0, 0, 0, 0, {}, map[], map[], map[], map[]))
  }

  /** The queue holds the job of the first and only request. */
  ghost predicate FirstQueued(t: State, supi: string) {
    && t.InPhase(0, Queued(0)) && t.log.dequeued == 0 && t.queue == [0] && !t.closed
    && |t.requests| == 1 && t.requests[0].supi == supi && 0 in t.addrs && 0 in t.log.accepted
  }

  /** A first request is accepted, for every subscriber, profile, clock reading, number of workers and queue
      with a buffer. */
  lemma FirstJobAccepted(queueSize: nat, workers: nat, clock: int, supi: string, profile: Profile) returns (t: State)
    requires queueSize > 0
    ensures Init(Start(queueSize, workers)) && Leads(Start(queueSize, workers), t)
    ensures FirstQueued(t, supi) && t.holders == Start(queueSize, workers).holders
  {
    hide Leads, Ref;
    var s := Start(queueSize, workers);
    var r := Intake(Ref(clock, 1), supi, profile, clock);
    var s1 := s.(contextCounter := 1, requests := [r], phases := [Numbered],
      log := s.log.(refOwner := map[r.ref := 0]));
    assert Arrive(s, s1, clock, supi, profile);
    LeadsStep(s, LArrive(clock, supi, profile), s1);
    t := FirstJobQueued(s1);
    LeadsOn(s, s1, t);
  }

  lemma FirstJobQueued(s: State) returns (t: State)
    requires s.InPhase(0, Numbered) && |s.requests| == 1 && s.log.dequeued == 0
    requires s.queue == [] && !s.closed && s.queueSize > 0
    ensures Leads(s, t) && FirstQueued(t, s.requests[0].supi) && t.holders == s.holders
  {
    hide Leads;
    var v := Inc32(s.ipCounter);
    var s1 := s.(ipCounter := v, addrs := s.addrs[0 := v], phases := s.phases[0 := Addressed],
                 log := s.log.(addresses := s.log.addresses + 1, addrOwner := s.log.addrOwner[v := 0]));
    LeadsStep(s, LAllocate(0), s1);
    t := s1.(phases := s1.phases[0 := Queued(s1.log.dequeued + |s1.queue|)], queue := s1.queue + [0],
             log := s1.log.(arrived := s1.log.arrived + 1, accepted := s1.log.accepted + {0}));
    LeadsStep(s1, LEnqueue(0), t);
    LeadsOn(s, s1, t);
  }

  /** And, if there is a worker, it reaches one. */
  lemma FirstJobTaken(queueSize: nat, workers: nat, clock: int, supi: string, profile: Profile) returns (t: State)
    requires queueSize > 0 && workers > 0
    ensures Init(Start(queueSize, workers)) && Leads(Start(queueSize, workers), t) && Bounded(t)
    ensures t.Working(0) && t.ats[0] == Save && t.requests[t.holders[0].id].supi == supi
  {
    hide Leads, Init;
    var s := FirstJobAccepted(queueSize, workers, clock, supi, profile);
    t := s.Take(0, 0).(queue := s.queue[1..], log := s.log.(dequeued := s.log.dequeued + 1));
    LeadsStep(s, LDequeue(0), t);
    LeadsOn(Start(queueSize, workers), s, t);
  }

  /** Without workers, an accepted job can stay in the closed queue for good. */
  lemma ClosedQueueCanStrand(supi: string, profile: Profile, clock: int) returns (t: State)
    ensures Reachable(t) && Bounded(t) && t.closed && t.holders == [] && AllExited(t)
    ensures t.queue != [] && t.queue[0] in t.log.accepted && !AllSettled(t)
  {
    hide Leads, Init, Reachable;
    var s := FirstJobAccepted(1, 0, clock, supi, profile);
    t := s.(closed := true);
    LeadsStep(s, LClose, t);
    LeadsOn(Start(1, 0), s, t);
    LeadsReachable(Start(1, 0), t);
    assert !t.phases[0].Settled?;
  }

  /** So ACTIVE sessions, and the addresses the safety theorems speak of, do occur. */
  lemma SomeSessionBecomesActive(supi: string, profile: Profile, clock: int) returns (t: State, ref: string)
    ensures Reachable(t) && Bounded(t)
    ensures ref in t.repo && t.repo[ref].status == Repository.ACTIVE && t.repo[ref].ipAddress != ""
  {
    hide Leads, Inv, Init, Bounded, Step, Reachable;
    var s := FirstJobTaken(1, 1, clock, supi, profile);
    InitInv(Start(1, 1));
    LeadsKeepsInv(Start(1, 1), s);
    t := JobCanSucceed(s, 0);
    LeadsOn(Start(1, 1), s, t);
    LeadsReachable(Start(1, 1), t);
    SameBounded(s, t);
    ref := s.requests[s.holders[0].id].ref;
    DottedNotEmpty(U32Bytes(s.addrs[s.holders[0].id]));
  }

  lemma LeadsReachable(s: State, t: State)
    requires Init(s) && Leads(s, t)
    ensures Reachable(t)
  {
    hide Init, Step;
  }

  // ----- a failed session can have a session in the UPF -----

  /** As Carries, with the UPF's table and the tags as they were. */
  ghost predicate CarriesAlone(s: State, t: State, w: nat, at: At) {
    Carries(s, t, w, at) && t.upf == s.upf && t.tags == s.tags
  }

  lemma RequestLands(s: State, w: nat, q: U32, ip: Quad) returns (t: State)
    requires s.Working(w) && RequestBytes(ESTABLISHMENT_REQUEST, q, ip) in s.toUpf
    ensures Leads(s, t) && Carries(s, t, w, s.ats[w]) && t.tags == s.tags
    ensures q in t.upf
  {
    hide Leads, UpfServer.Handle, RequestBytes, ResponseBytes;
    var p := RequestBytes(ESTABLISHMENT_REQUEST, q, ip);
    UpfServer.HandleEstablishment(s.upf, q, ip);
    var h := UpfServer.Handle(s.upf, p);
    t := s.(upf := h.table, replies := s.replies + multiset{h.reply.value});
    LeadsStep(s, LUpfReceives(p), t);
  }

  lemma ExpireCarries(s: State, w: nat) returns (t: State)
    requires s.Working(w) && s.ats[w].Wait?
    ensures Leads(s, t) && t.Working(w) && t.ats[w].Unregister? && t.ats[w].reply.Err?
      && CarriesAlone(s, t, w, t.ats[w])
  {
    hide HandlerStep, PrepareStep, CallbackStep, SettleStep, NetworkStep;
    hide Leads;
    t := ExchangeProgress(s, w);
    LeadsStep(s, LExpire(w), t);
  }

  lemma UnregisterCarries(s: State, w: nat) returns (t: State)
    requires s.Working(w) && s.ats[w].Unregister? && s.ats[w].reply.Err?
    ensures Leads(s, t) && CarriesAlone(s, t, w, AddLatency(Some(PfcpFailed(s.ats[w].reply.error))))
  {
    hide HandlerStep, PrepareStep, CallbackStep, SettleStep, NetworkStep;
    hide Leads;
    t := ExchangeProgress(s, w);
    LeadsStep(s, LUnregister(w), t);
  }

  lemma TallyCarries(s: State, w: nat) returns (t: State)
    requires s.Working(w) && (s.ats[w].AddLatency? || s.ats[w].AddTps?)
    ensures Leads(s, t)
      && CarriesAlone(s, t, w, if s.ats[w].AddLatency? then AddTps(s.ats[w].err) else Record(s.ats[w].err))
  {
    hide HandlerStep, PrepareStep, ExchangeStep, SettleStep, NetworkStep;
    hide Leads, Add64;
    t := CallbackProgress(s, w);
    LeadsStep(s, NextOf(w, s.ats[w]), t);
  }

  lemma RecordCarries(s: State, w: nat, e: StageError) returns (t: State)
    requires s.Working(w) && s.ats[w] == Record(Some(e))
    ensures Leads(s, t) && CarriesAlone(s, t, w, Mark(e))
  {
    hide HandlerStep, PrepareStep, ExchangeStep, CallbackStep, NetworkStep;
    hide Leads, Add64;
    t := RecordProgress(s, w);
    LeadsStep(s, LRecordFailure(w), t);
  }

  lemma MarkCarries(s: State, w: nat, e: StageError) returns (t: State)
    requires s.Working(w) && s.ats[w] == Mark(e)
    ensures Leads(s, t) && CarriesAlone(s, t, w, Notify(e, false))
  {
    hide HandlerStep, PrepareStep, ExchangeStep, CallbackStep, NetworkStep;
    hide Leads, ReasonOf, Text;
    t := FailureProgress(s, w);
    LeadsStep(s, LMark(w, 0), t);
  }

  lemma ErrorIsMarked(s: State, w: nat) returns (t: State, e: StageError)
    requires s.Working(w) && s.ats[w].Unregister? && s.ats[w].reply.Err?
    ensures Leads(s, t) && e.PfcpFailed? && CarriesAlone(s, t, w, Notify(e, false))
  {
    hide Leads;
    e := PfcpFailed(s.ats[w].reply.error);
    var s1 := UnregisterCarries(s, w);
    var s2 := TallyCarries(s1, w);
    var s3 := TallyCarries(s2, w);
    var s4 := RecordCarries(s3, w, e);
    t := MarkCarries(s4, w, e);
    LeadsOn(s, s1, s2);
    LeadsOn(s, s2, s3);
    LeadsOn(s, s3, s4);
    LeadsOn(s, s4, t);
  }

  lemma TagInCall(s: State, w: nat)
    requires Inv(s) && s.Working(w) && s.ats[w].Write?
    ensures s.holders[w].id in s.tags && s.tags[s.holders[w].id] == s.ats[w].seqNum
  {
    hide Inv;
    WorkerAt(s, w);
  }

  /** A timeout can orphan a UPF session: whenever a worker is about to send a request, some continuation
      leaves its session FAILED, without an address, while the UPF holds the session. */
  lemma TimeoutCanOrphan(s: State, w: nat) returns (t: State)
    requires Inv(s) && Bounded(s) && s.Working(w) && s.ats[w].Write?
    ensures Leads(s, t) && SameJobs(s, t)
    ensures var k := s.holders[w].id;
            var ref := s.requests[k].ref;
            && ref in t.repo && t.repo[ref].status == Repository.FAILED && t.repo[ref].ipAddress == ""
            && t.repo[ref].failureReason == PFCP_TIMEOUT
            && k in t.tags && t.tags[k] in t.upf
  {
    hide Inv, Leads, Bounded, RequestBytes, ReasonOf, Text;
    TagInCall(s, w);
    WriteKnowsItsData(s, w);
    var q := s.ats[w].seqNum;
    var s1 := WriteCarries(s, w);
    var s2 := RequestLands(s1, w, q, s.log.issued[q]);
    var s3 := ExpireCarries(s2, w);
    var e;
    t, e := ErrorIsMarked(s3, w);
    LeadsOn(s, s1, s2);
    LeadsOn(s, s2, s3);
    LeadsOn(s, s3, t);
    SameBounded(s, t);
    LeadsKeepsInv(s, t);
    WorkerAt(t, w);
    PfcpFailureReason(e.inner);
  }

  /** So orphans do occur. */
  lemma SomeSessionIsOrphaned(supi: string, profile: Profile, clock: int) returns (t: State, k: nat)
    ensures Reachable(t) && Bounded(t) && k < |t.requests|
    ensures var ref := t.requests[k].ref;
            && ref in t.repo && t.repo[ref].status == Repository.FAILED && t.repo[ref].ipAddress == ""
            && k in t.tags && t.tags[k] in t.upf
  {
    hide Leads, Inv, Init, Bounded, Step, Reachable;
    var s := FirstJobTaken(1, 1, clock, supi, profile);
    InitInv(Start(1, 1));
    LeadsKeepsInv(Start(1, 1), s);
    var s1 := JobReachesWrite(s, 0);
    SameBounded(s, s1);
    t := TimeoutCanOrphan(s1, 0);
    LeadsOn(Start(1, 1), s, s1);
    LeadsOn(Start(1, 1), s1, t);
    LeadsReachable(Start(1, 1), t);
    SameBounded(s1, t);
    k := s1.holders[0].id;
  }
}

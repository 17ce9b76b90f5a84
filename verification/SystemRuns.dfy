/** Properties of whole runs: the life of a session and of a job, and how shutdown drains the queue. */
module SystemRuns {
  import opened Address
  import opened Bytes
  import opened Codec
  import opened FailureReason
  import opened SmContext
  import opened System
  import opened SystemFrames
  import opened SystemInvariant
  import opened SystemMoves
  import opened SystemPreservation
  import opened SystemTheorems
  import opened Wrappers
  import Repository
  import UpfServer

  // ----- the life of a session -----

  /** absent, then CREATING without an address, then ACTIVE or FAILED, possibly ACTIVE then FAILED with
      the address kept; a FAILED record never changes. */
  ghost predicate SessionNext(before: Repository.Table, after: Repository.Table, ref: string) {
    if ref !in before then
      ref in after ==> after[ref].status == Repository.CREATING && after[ref].ipAddress == ""
    else
      && ref in after
      && (after[ref] == before[ref]
          || (before[ref].status == Repository.CREATING && after[ref].status == Repository.ACTIVE
            && after[ref].ipAddress != "")
          || (before[ref].status in {Repository.CREATING, Repository.ACTIVE} && after[ref].status == Repository.FAILED
              && after[ref].ipAddress == before[ref].ipAddress))
  }

  /** Worker `w` holds the job whose session `ref` is. */
  ghost predicate HoldsJobOf(s: State, w: nat, ref: string) {
    w < |s.holders| && s.holders[w].Busy? && s.holders[w].id < |s.requests| && s.requests[s.holders[w].id].ref == ref
  }

  lemma SaveNext(s: State, t: State, w: nat, now: int, ref: string)
    requires Inv(s) && SaveSession(s, t, w, now)
    ensures SessionNext(s.repo, t.repo, ref)
    ensures (ref in t.repo && (ref !in s.repo || t.repo[ref] != s.repo[ref])) ==> HoldsJobOf(s, w, ref)
  {
    hide Inv;
    WorkerAt(s, w);
  }

  lemma ActivateNext(s: State, t: State, w: nat, now: int, ref: string)
    requires Inv(s) && ActivateSession(s, t, w, now)
    ensures SessionNext(s.repo, t.repo, ref)
    ensures (ref in t.repo && (ref !in s.repo || t.repo[ref] != s.repo[ref])) ==> HoldsJobOf(s, w, ref)
  {
    hide Inv;
    WorkerAt(s, w);
    DottedNotEmpty(U32Bytes(s.addrs[s.holders[w].id]));
  }

  lemma MarkNext(s: State, t: State, w: nat, now: int, ref: string)
    requires Inv(s) && MarkFailed(s, t, w, now)
    ensures SessionNext(s.repo, t.repo, ref)
    ensures (ref in t.repo && (ref !in s.repo || t.repo[ref] != s.repo[ref])) ==> HoldsJobOf(s, w, ref)
  {
    hide Inv;
    WorkerAt(s, w);
  }

  lemma WriterStep(s: State, l: Label, t: State, w: nat, ref: string)
    requires Inv(s) && Step(s, l, t) && (l.LSave? || l.LActivate? || l.LMark?) && ActorOf(l) == Some(w)
    ensures SessionNext(s.repo, t.repo, ref)
    ensures (ref in t.repo && (ref !in s.repo || t.repo[ref] != s.repo[ref])) ==> HoldsJobOf(s, w, ref)
  {
    hide Inv, SaveSession, ActivateSession, MarkFailed, SessionNext, HoldsJobOf;
    match l
    case LSave(_, now) => SaveNext(s, t, w, now, ref);
    case LActivate(_, now) => ActivateNext(s, t, w, now, ref);
    case LMark(_, now) => MarkNext(s, t, w, now, ref);
    case _ =>
  }

  /** Every step moves every session along its life or leaves it alone, and only the worker that holds
      the session's job writes it. */
  lemma SessionStep(s: State, l: Label, t: State, ref: string)
    requires Inv(s) && Step(s, l, t)
    ensures SessionNext(s.repo, t.repo, ref)
    ensures (ref in t.repo && (ref !in s.repo || t.repo[ref] != s.repo[ref])) ==>
      ActorOf(l).Some? && HoldsJobOf(s, ActorOf(l).value, ref)
  {
    hide Inv, Step, HoldsJobOf;
    if l.LSave? || l.LActivate? || l.LMark? {
      WriterStep(s, l, t, l.w, ref);
    } else {
      Frame(s, l, t);
    }
  }

  function Rank(repo: Repository.Table, ref: string): nat {
    if ref !in repo then 0
    else match repo[ref].status
      case CREATING => 1
      case ACTIVE => 2
      case _ => 3
  }

  /** Over any stretch of a run a session only moves forward, and once FAILED its record stays as it is. */
  lemma {:induction false} SessionsMoveForward(states: seq<State>, labels: seq<Label>, i: nat, j: nat, ref: string)
    requires Run(states, labels) && Init(states[0]) && Bounded(states[|labels|]) && i <= j <= |labels|
    ensures Rank(states[i].repo, ref) <= Rank(states[j].repo, ref)
    ensures ref in states[i].repo && states[i].repo[ref].status == Repository.FAILED ==>
      ref in states[j].repo && states[j].repo[ref] == states[i].repo[ref]
    decreases j
  {
    hide Step, Inv, Bounded, Init;
    if i == j {
    } else {
      SessionsMoveForward(states, labels, i, j - 1, ref);
      RunInv(states, labels, j - 1);
      SessionStep(states[j - 1], labels[j - 1], states[j], ref);
    }
  }

  // ----- the life of a job -----

  predicate PhaseNext(before: Phase, after: Phase) {
    || after == before
    || (before.Numbered? && after.Addressed?)
    || (before.Addressed? && (after.Queued? || after.Held? || after.Shedding?))
    || (before.Shedding? && after.Shed?)
    || (before.Queued? && after.Held?)
    || (before.Held? && after.Settled?)
  }

  lemma PhaseStepHandlers(s: State, l: Label, t: State, k: nat)
    requires HandlerStep(s, l, t) && k < |s.phases|
    ensures k < |t.phases| && PhaseNext(s.phases[k], t.phases[k])
  {
    hide Ref, DottedU32;
  }

  lemma PhaseStepDequeue(s: State, t: State, w: nat, k: nat)
    requires Inv(s) && Dequeue(s, t, w) && k < |s.phases|
    ensures k < |t.phases| && PhaseNext(s.phases[k], t.phases[k])
  {
    hide Refs, Hands, Progress, Drained, Network, Issued, Boxes, Calls, Pending, Sessions, Known, Backed, AmfMap,
      Conservation, Statuses, Counters, Latencies, Tags, Addresses, Places;
    PlacesDequeue(s.phases, s.queue, s.log.dequeued, s.holders, w);
  }

  lemma PhaseStepFinish(s: State, l: Label, t: State, w: nat, k: nat)
    requires Inv(s) && (RecordSuccess(s, t, w) || FinishFailure(s, t, w)) && k < |s.phases|
    ensures k < |t.phases| && PhaseNext(s.phases[k], t.phases[k])
  {
    hide Inv, InCall, Stands, AtStanding;
    WorkerAt(s, w);
  }

  lemma PhaseStepWorkers(s: State, l: Label, t: State, k: nat)
    requires Inv(s) && Step(s, l, t) && k < |s.phases| && (l.LDequeue? || l.LRecordSuccess? || l.LFinishFailure?)
    ensures k < |t.phases| && PhaseNext(s.phases[k], t.phases[k])
  {
    hide Inv, Dequeue, RecordSuccess, FinishFailure, PhaseNext;
    if l.LDequeue? {
      PhaseStepDequeue(s, t, l.w, k);
    } else {
      PhaseStepFinish(s, l, t, l.w, k);
    }
  }

  lemma HandlerLabels(s: State, l: Label, t: State)
    requires Step(s, l, t) && MovesPhases(l) && !(l.LDequeue? || l.LRecordSuccess? || l.LFinishFailure?)
    ensures HandlerStep(s, l, t)
  {
    hide HandlerStep;
  }

  /** A request moves along its phases; in particular a job goes from the queue, or straight, to one
      worker, and from that worker nowhere but to its end. */
  lemma PhaseStep(s: State, l: Label, t: State, k: nat)
    requires Inv(s) && Step(s, l, t) && k < |s.phases|
    ensures k < |t.phases| && PhaseNext(s.phases[k], t.phases[k])
  {
    hide Inv, Step, HandlerStep;
    if !MovesPhases(l) {
      Frame(s, l, t);
    } else if l.LDequeue? || l.LRecordSuccess? || l.LFinishFailure? {
      PhaseStepWorkers(s, l, t, k);
    } else {
      HandlerLabels(s, l, t);
      PhaseStepHandlers(s, l, t, k);
    }
  }

  /** An addressed request is only touched by its own handler, while the queue is open. */
  lemma AdmissionByHandler(s: State, l: Label, t: State, k: nat)
    requires HandlerStep(s, l, t) && k < |s.phases| && s.phases[k] == Addressed
    requires k < |t.phases| && t.phases[k] != Addressed
    ensures !s.closed
    ensures t.phases[k].Shedding? ==> |s.queue| >= s.queueSize && t.queue == s.queue
    ensures t.phases[k].Queued? ==> |s.queue| < s.queueSize && t.queue == s.queue + [k]
    ensures t.phases[k].Held? ==>
      && s.queueSize == 0 && t.queue == s.queue
      && t.phases[k].worker < |s.holders| && s.holders[t.phases[k].worker] == Idle
  {
    hide Ref, DottedU32;
  }

  /** Workers do not touch an addressed request. */
  lemma AddressedKept(s: State, l: Label, t: State, k: nat)
    requires Inv(s) && Step(s, l, t) && k < |s.phases| && s.phases[k] == Addressed
    requires l.LDequeue? || l.LRecordSuccess? || l.LFinishFailure?
    ensures k < |t.phases| && t.phases[k] == Addressed
  {
    hide Inv, Dequeue, RecordSuccess, FinishFailure;
    if l.LDequeue? {
      DequeueKeepsAddressed(s, t, l.w, k);
    } else {
      FinishKeepsAddressed(s, t, l.w, k);
    }
  }

  lemma DequeueKeepsAddressed(s: State, t: State, w: nat, k: nat)
    requires Inv(s) && Dequeue(s, t, w) && k < |s.phases| && s.phases[k] == Addressed
    ensures k < |t.phases| && t.phases[k] == Addressed
  {
    hide Refs, Hands, Progress, Drained, Network, Issued, Boxes, Calls, Pending, Sessions, Known, Backed, AmfMap,
      Conservation, Statuses, Counters, Latencies, Tags, Addresses, Places;
    PlacesDequeue(s.phases, s.queue, s.log.dequeued, s.holders, w);
  }

  lemma FinishKeepsAddressed(s: State, t: State, w: nat, k: nat)
    requires Inv(s) && (RecordSuccess(s, t, w) || FinishFailure(s, t, w)) && k < |s.phases| && s.phases[k] == Addressed
    ensures k < |t.phases| && t.phases[k] == Addressed
  {
    hide Inv, InCall, Stands, AtStanding;
    WorkerAt(s, w);
  }

  /** Load is shed exactly when the queue is full: a request that leaves admission refused found no room, one that
      was queued found some and went to the end of the queue, one handed over met an idle worker at a queue
      without a buffer; and none is admitted or refused after the close. */
  lemma AdmissionDecides(s: State, l: Label, t: State, k: nat)
    requires Inv(s) && Step(s, l, t) && k < |s.phases| && s.phases[k] == Addressed
    requires k < |t.phases| && t.phases[k] != Addressed
    ensures !s.closed
    ensures t.phases[k].Shedding? || t.phases[k].Queued? || t.phases[k].Held?
    ensures t.phases[k].Shedding? ==> |s.queue| == s.queueSize && t.queue == s.queue
    ensures t.phases[k].Queued? ==> |s.queue| < s.queueSize && t.queue == s.queue + [k]
    ensures t.phases[k].Held? ==>
      && s.queueSize == 0 && t.queue == s.queue
      && t.phases[k].worker < |s.holders| && s.holders[t.phases[k].worker] == Idle
  {
    hide Inv, Step, HandlerStep;
    PhaseStep(s, l, t, k);
    RoomBound(s);
    if !MovesPhases(l) {
      Frame(s, l, t);
    } else if l.LDequeue? || l.LRecordSuccess? || l.LFinishFailure? {
      AddressedKept(s, l, t, k);
    } else {
      HandlerLabels(s, l, t);
      AdmissionByHandler(s, l, t, k);
    }
  }

  lemma RoomBound(s: State)
    requires Inv(s)
    ensures |s.queue| <= s.queueSize
  {
    hide Refs, Places, Hands, Progress, Drained, Network, Issued, Boxes, Calls, Pending, Sessions, Known, Backed,
      AmfMap, Conservation, Statuses, Counters, Latencies, Tags, Addresses;
  }

  /** Once a worker holds a job, no other worker ever does, and once settled its outcome stands. */
  lemma {:induction false} OneWorkerPerJob(states: seq<State>, labels: seq<Label>, i: nat, j: nat, k: nat)
    requires Run(states, labels) && Init(states[0]) && Bounded(states[|labels|]) && i <= j <= |labels|
    requires k < |states[i].phases|
    ensures k < |states[j].phases|
    ensures states[i].phases[k].Held? ==> states[j].phases[k] == states[i].phases[k] || states[j].phases[k].Settled?
    ensures states[i].phases[k].Settled? ==> states[j].phases[k] == states[i].phases[k]
    decreases j
  {
    hide Step, Inv, Bounded, Init;
    if i == j {
    } else {
      OneWorkerPerJob(states, labels, i, j - 1, k);
      RunInv(states, labels, j - 1);
      PhaseStep(states[j - 1], labels[j - 1], states[j], k);
    }
  }

  // ----- shutdown -----

  /** An upper bound on the actions a worker has left for its job. */
  function Rest(at: At): nat {
    match at
    case Free => 0
    case Save => 17
    case Query => 16
    case Number => 15
    case Register(_, _) => 14
    case Write(_, _, _) => 13
    case Wait(_, _) => 12
    case Unregister(_, _, _) => 11
    case Activate => 10
    case Call(sent) => if sent then 8 else 9
    case AddLatency(_) => 7
    case AddTps(_) => 6
    case Record(_) => 5
    case Mark(_) => 4
    case Notify(_, sent) => if sent then 2 else 3
  }

  function Sum(ats: seq<At>): nat {
    if ats == [] then 0 else Sum(ats[..|ats| - 1]) + Rest(ats[|ats| - 1])
  }

  lemma {:induction false} SumUpdate(ats: seq<At>, w: nat, at: At)
    requires w < |ats|
    ensures Sum(ats[w := at]) + Rest(ats[w]) == Sum(ats) + Rest(at)
  {
    var n := |ats| - 1;
    if w < n {
      assert ats[w := at][..n] == ats[..n][w := at];
      SumUpdate(ats[..n], w, at);
    } else {
      assert ats[w := at][..n] == ats[..n];
    }
  }

  predicate Present(h: Holder) {
    !h.Exited?
  }

  /** What is left to do: the queued jobs, the jobs in hand, and the workers that have yet to exit. */
  function Remaining(s: State): nat {
    18 * |s.queue| + Sum(s.ats) + Count(s.holders, Present)
  }

  ghost predicate Moved(s: State, t: State, w: nat) {
    && s.Working(w) && t.queue == s.queue && t.closed == s.closed && w < |s.ats| && w < |s.holders|
    && (exists at :: t.ats == s.ats[w := at] && Rest(at) < Rest(s.ats[w]))
    && (t.holders == s.holders || t.holders == s.holders[w := Idle])
  }

  lemma SaveMoves(s: State, l: Label, t: State)
    requires PrepareStep(s, l, t) && (l.LSave? || l.LSaveFails?)
    ensures Moved(s, t, l.w)
  {
    hide Repository.Save, NewSession;
    assert t.ats == s.ats[l.w := t.ats[l.w]] && Rest(t.ats[l.w]) < Rest(s.ats[l.w]);
  }

  lemma QueryMoves(s: State, l: Label, t: State)
    requires PrepareStep(s, l, t) && (l.LQuery? || l.LTakeNumber? || l.LEncodeFails?)
    ensures Moved(s, t, l.w)
  {
    hide Encoded, DottedU32;
    assert t.ats == s.ats[l.w := t.ats[l.w]] && Rest(t.ats[l.w]) < Rest(s.ats[l.w]);
  }

  lemma PrepareMoves(s: State, l: Label, t: State)
    requires PrepareStep(s, l, t) && !l.LDequeue? && !l.LExit?
    ensures Moved(s, t, l.w)
  {
    hide Moved, Dequeue, Exit, SaveSession, SaveFails, QueryUdm, TakeNumber, EncodeFails;
    if l.LSave? || l.LSaveFails? {
      SaveMoves(s, l, t);
    } else {
      QueryMoves(s, l, t);
    }
  }

  lemma SendMoves(s: State, l: Label, t: State)
    requires ExchangeStep(s, l, t) && (l.LRegister? || l.LWrite? || l.LWriteFails?)
    ensures Moved(s, t, l.w)
  {
    assert t.ats == s.ats[l.w := t.ats[l.w]] && Rest(t.ats[l.w]) < Rest(s.ats[l.w]);
  }

  lemma WaitMoves(s: State, l: Label, t: State)
    requires ExchangeStep(s, l, t) && (l.LTakeReply? || l.LExpire?)
    ensures Moved(s, t, l.w)
  {
    assert t.ats == s.ats[l.w := t.ats[l.w]] && Rest(t.ats[l.w]) < Rest(s.ats[l.w]);
  }

  lemma UnregisterMoves(s: State, l: Label, t: State)
    requires ExchangeStep(s, l, t) && l.LUnregister?
    ensures Moved(s, t, l.w)
  {
    assert t.ats == s.ats[l.w := t.ats[l.w]] && Rest(t.ats[l.w]) < Rest(s.ats[l.w]);
  }

  lemma ExchangeMoves(s: State, l: Label, t: State)
    requires ExchangeStep(s, l, t)
    ensures Moved(s, t, l.w)
  {
    hide Moved;
    if l.LRegister? || l.LWrite? || l.LWriteFails? {
      SendMoves(s, l, t);
    } else if l.LUnregister? {
      UnregisterMoves(s, l, t);
    } else {
      WaitMoves(s, l, t);
    }
  }

  lemma CallMoves(s: State, l: Label, t: State)
    requires CallbackStep(s, l, t) && (l.LActivate? || l.LSendActive? || l.LCallReturns?)
    ensures Moved(s, t, l.w)
  {
    hide Repository.SetIP, ActiveCallback;
    assert t.ats == s.ats[l.w := t.ats[l.w]] && Rest(t.ats[l.w]) < Rest(s.ats[l.w]);
  }

  lemma TallyMoves(s: State, l: Label, t: State)
    requires CallbackStep(s, l, t) && (l.LLatency? || l.LTps?)
    ensures Moved(s, t, l.w)
  {
    hide Add64;
    assert t.ats == s.ats[l.w := t.ats[l.w]] && Rest(t.ats[l.w]) < Rest(s.ats[l.w]);
  }

  lemma CallbackMoves(s: State, l: Label, t: State)
    requires CallbackStep(s, l, t)
    ensures Moved(s, t, l.w)
  {
    hide Moved;
    if l.LLatency? || l.LTps? {
      TallyMoves(s, l, t);
    } else {
      CallMoves(s, l, t);
    }
  }

  lemma SettleMoves(s: State, l: Label, t: State)
    requires SettleStep(s, l, t)
    ensures Moved(s, t, l.w)
  {
    hide ReasonOf, Text, Repository.SetReason, Add64;
    assert t.ats == s.ats[l.w := t.ats[l.w]] && Rest(t.ats[l.w]) < Rest(s.ats[l.w]);
  }

  lemma JobStepCounts(s: State, t: State, w: nat)
    requires Moved(s, t, w)
    ensures Remaining(t) < Remaining(s) && t.closed == s.closed
  {
    var at :| t.ats == s.ats[w := at] && Rest(at) < Rest(s.ats[w]);
    SumUpdate(s.ats, w, at);
    CountUpdate(s.holders, w, Idle, Present);
  }

  lemma DequeueCounts(s: State, t: State, w: nat)
    requires Hands(s.holders, s.ats) && Dequeue(s, t, w)
    ensures Remaining(t) < Remaining(s) && t.closed == s.closed
  {
    SumUpdate(s.ats, w, Save);
    CountUpdate(s.holders, w, Busy(s.queue[0]), Present);
  }

  lemma ExitCounts(s: State, t: State, w: nat)
    requires Exit(s, t, w)
    ensures Remaining(t) < Remaining(s) && t.closed == s.closed
  {
    CountUpdate(s.holders, w, Exited, Present);
  }

  /** After the queue is closed every worker step leaves less to do, and nothing else changes what is
      left to do. */
  lemma DrainDecreases(s: State, l: Label, t: State)
    requires Hands(s.holders, s.ats) && Step(s, l, t) && s.closed
    ensures t.closed
    ensures if ActorOf(l).Some? then Remaining(t) < Remaining(s) else Remaining(t) == Remaining(s)
  {
    hide Hands, Step, Remaining;
    Frame(s, l, t);
    if ActorOf(l).None? {
      SameRemaining(s, t);
    } else if l.LDequeue? || l.LExit? {
      IdleStep(s, l, t);
    } else {
      JobStep(s, l, t);
      JobStepCounts(s, t, l.w);
    }
  }

  /** A busy worker's step brings it nearer to the end of its job. */
  lemma JobStep(s: State, l: Label, t: State)
    requires Step(s, l, t) && ActorOf(l).Some? && !l.LDequeue? && !l.LExit?
    ensures Moved(s, t, l.w)
  {
    hide Moved, HandlerStep, PrepareStep, ExchangeStep, CallbackStep, SettleStep, NetworkStep;
    if PrepareStep(s, l, t) {
      PrepareMoves(s, l, t);
    } else if ExchangeStep(s, l, t) {
      ExchangeMoves(s, l, t);
    } else if CallbackStep(s, l, t) {
      CallbackMoves(s, l, t);
    } else if SettleStep(s, l, t) {
      SettleMoves(s, l, t);
    } else {
      NoActor(s, l, t);
    }
  }

  lemma NoActor(s: State, l: Label, t: State)
    requires HandlerStep(s, l, t) || NetworkStep(s, l, t)
    ensures ActorOf(l).None?
  {
    hide HandlerStep, NetworkStep;
    if HandlerStep(s, l, t) {
      HandlerFrame(s, l, t);
    } else {
      NetworkFrame(s, l, t);
    }
  }

  lemma SameRemaining(s: State, t: State)
    requires SameWork(s, t)
    ensures Remaining(t) == Remaining(s)
  {
  }

  lemma IdleStep(s: State, l: Label, t: State)
    requires Hands(s.holders, s.ats) && Step(s, l, t) && (l.LDequeue? || l.LExit?)
    ensures Remaining(t) < Remaining(s) && t.closed == s.closed
  {
    if l.LDequeue? {
      DequeueCounts(s, t, l.w);
    } else {
      ExitCounts(s, t, l.w);
    }
  }

  /** How many steps of a run are workers' own. */
  function WorkerSteps(labels: seq<Label>): nat {
    if labels == [] then 0
    else WorkerSteps(labels[..|labels| - 1]) + if ActorOf(labels[|labels| - 1]).Some? then 1 else 0
  }

  /** After the queue is closed the workers take at most as many steps as there was left to do, however
      the rest of the system interleaves. */
  lemma {:induction false} DrainBound(states: seq<State>, labels: seq<Label>, i: nat, j: nat)
    requires Run(states, labels) && Init(states[0]) && Bounded(states[|labels|]) && i <= j <= |labels|
    requires states[i].closed
    ensures states[j].closed
    ensures WorkerSteps(labels[i..j]) + Remaining(states[j]) <= Remaining(states[i])
    decreases j
  {
    hide Step, Inv, Bounded, Init, Remaining;
    if i == j {
    } else {
      DrainBound(states, labels, i, j - 1);
      RunHands(states, labels, j - 1);
      DrainDecreases(states[j - 1], labels[j - 1], states[j]);
      assert labels[i..j][..j - 1 - i] == labels[i..j - 1];
    }
  }

  lemma RunHands(states: seq<State>, labels: seq<Label>, i: nat)
    requires Run(states, labels) && Init(states[0]) && Bounded(states[|labels|]) && i <= |labels|
    ensures Hands(states[i].holders, states[i].ats)
  {
    hide Step, Bounded, Init, Hands;
    RunInv(states, labels, i);
  }

  // ----- a worker is never stuck -----

  /** The step a worker can take on its job whatever the rest of the system does: it saves, asks, gives up
      waiting for a reply, or takes the failure of a call. */
  function NextOf(w: nat, at: At): Label {
    match at
    case Free => LExit(w)
    case Save => LSave(w, 0)
    case Query => LQuery(w, None)
    case Number => LTakeNumber(w, (s: string) => None)
    case Register(_, _) => LRegister(w)
    case Write(_, _, _) => LWrite(w)
    case Wait(_, _) => LExpire(w)
    case Unregister(_, _, _) => LUnregister(w)
    case Activate => LActivate(w, 0)
    case Call(_) => LCallReturns(w, Some(N1N2Failed("")))
    case AddLatency(_) => LLatency(w, 0)
    case AddTps(_) => LTps(w)
    case Record(None) => LRecordSuccess(w)
    case Record(Some(_)) => LRecordFailure(w)
    case Mark(_) => LMark(w, 0)
    case Notify(_, _) => LFinishFailure(w)
  }

  lemma PrepareProgress(s: State, w: nat) returns (t: State)
    requires s.Working(w) && (s.ats[w].Save? || s.ats[w].Query?)
    ensures PrepareStep(s, NextOf(w, s.ats[w]), t)
  {
    match s.ats[w] {
      case Save =>
        t := s.Goto(w, Query).(repo := Repository.Save(s.repo, NewSession(s.JobOf(s.holders[w].id)), 0));
      case Query => t := s.Goto(w, Number);
    }
  }

  lemma NumberProgress(s: State, w: nat) returns (t: State)
    requires s.Working(w) && s.ats[w].Number?
    ensures PrepareStep(s, NextOf(w, Number), t)
  {
    var v6: V6Reader := (s: string) => None;
    var n, k := Inc32(s.client.seqCounter), s.holders[w].id;
    EncodeNeverFails(s, s, w, v6);
    DottedReadsBack(U32Bytes(s.addrs[k]), v6);
    EncodedRoundTrip(ESTABLISHMENT_REQUEST, n, s.IpOf(k), v6);
    t := s.Goto(w, Register(n, Encoded(ESTABLISHMENT_REQUEST, n, s.IpOf(k), v6).value)).(
           client := s.client.TakeNumber(), tags := s.tags[k := n],
           log := s.log.(calls := s.log.calls + 1, seqOwner := s.log.seqOwner[n := k],
                         issued := s.log.issued[n := U32Bytes(s.addrs[k])]));
    assert TakeNumber(s, t, w, v6);
  }

  lemma ExchangeProgress(s: State, w: nat) returns (t: State)
    requires s.Working(w)
    requires s.ats[w].Register? || s.ats[w].Write? || s.ats[w].Wait? || s.ats[w].Unregister?
    ensures ExchangeStep(s, NextOf(w, s.ats[w]), t)
  {
    match s.ats[w] {
      case Register(n, data) =>
        t := s.Goto(w, Write(n, |s.client.channels|, data)).(client := s.client.Register(n, s.holders[w].id));
      case Write(n, ch, data) => t := s.Goto(w, Wait(n, ch)).(toUpf := s.toUpf + {data});
      case Wait(n, ch) =>
        t := s.Goto(w, Unregister(n, ch, Err("timeout waiting for PFCP session establishment response")));
      case Unregister(n, _, reply) =>
        t := s.Goto(w, if reply.Ok? then Activate else AddLatency(Some(PfcpFailed(reply.error)))).(
               client := s.client.Unregister(n));
    }
  }

  lemma CallbackProgress(s: State, w: nat) returns (t: State)
    requires s.Working(w) && (s.ats[w].Activate? || s.ats[w].Call? || s.ats[w].AddLatency? || s.ats[w].AddTps?)
    ensures CallbackStep(s, NextOf(w, s.ats[w]), t)
  {
    match s.ats[w] {
      case Activate =>
        var k := s.holders[w].id;
        t := s.Goto(w, Call(false)).(
               repo := Repository.SetIP(s.repo, s.requests[k].ref, Repository.ACTIVE, s.IpOf(k), 0));
      case Call(_) => t := s.Goto(w, AddLatency(Some(N1N2Failed(""))));
      case AddLatency(err) =>
        t := s.Goto(w, AddTps(err)).(
               latencySum := Add64(s.latencySum, 0), log := s.log.(micros := s.log.micros + 0));
      case AddTps(err) =>
        t := s.Goto(w, Record(err)).(
               tpsCounter := Add64(s.tpsCounter, 1), log := s.log.(completed := s.log.completed + 1));
    }
  }

  lemma RecordProgress(s: State, w: nat) returns (t: State)
    requires s.Working(w) && s.ats[w].Record?
    ensures SettleStep(s, NextOf(w, s.ats[w]), t)
  {
    match s.ats[w].err {
      case None =>
        t := s.Finish(w, None).(successCounter := Add64(s.successCounter, 1),
                                log := s.log.(succeeded := s.log.succeeded + 1));
      case Some(e) =>
        t := s.Goto(w, Mark(e)).(
               failCounter := Add64(s.failCounter, 1),
               log := s.log.(failed := s.log.failed + 1, unsaved := s.log.unsaved + if e.SaveFailed? then 1 else 0));
    }
  }

  lemma FailureProgress(s: State, w: nat) returns (t: State)
    requires s.Working(w) && (s.ats[w].Mark? || s.ats[w].Notify?)
    ensures SettleStep(s, NextOf(w, s.ats[w]), t)
  {
    hide ReasonOf, Text;
    match s.ats[w] {
      case Mark(e) =>
        var k := s.holders[w].id;
        t := s.Goto(w, Notify(e, false)).(
               repo := Repository.SetReason(s.repo, s.requests[k].ref, Repository.FAILED, ReasonOf(Text(e)), 0));
      case Notify(e, _) => t := s.Finish(w, Some(e));
    }
  }

  lemma IdleProgress(s: State, w: nat) returns (l: Label, t: State)
    requires Inv(s) && s.closed && w < |s.holders| && s.holders[w] == Idle
    ensures ActorOf(l) == Some(w) && PrepareStep(s, l, t)
  {
    hide Refs, Hands, Progress, Drained, Network, Issued, Boxes, Calls, Pending, Sessions, Known, Backed, AmfMap,
      Conservation, Statuses, Counters, Latencies, Tags, Addresses, Places;
    HandsLength(s.holders, s.ats);
    if s.queue == [] {
      l, t := LExit(w), s.(holders := s.holders[w := Exited]);
    } else {
      PlacesDequeue(s.phases, s.queue, s.log.dequeued, s.holders, w);
      l, t := LDequeue(w), s.Take(w, s.queue[0]).(queue := s.queue[1..], log := s.log.(dequeued := s.log.dequeued + 1));
    }
  }

  lemma HandsLength(holders: seq<Holder>, ats: seq<At>)
    requires Hands(holders, ats)
    ensures |ats| == |holders|
    ensures forall w | 0 <= w < |holders| && holders[w].Busy? :: ats[w] != Free
  {
  }

  lemma BusyWorks(s: State, w: nat)
    requires Inv(s) && w < |s.holders| && s.holders[w].Busy?
    ensures s.Working(w) && s.ats[w] != Free
  {
    hide Refs, Drained, Network, Issued, Boxes, Calls, Pending, Sessions, Known, Backed, AmfMap, Conservation,
      Statuses, Counters, Latencies, Tags, Addresses;
    assert s.phases[s.holders[w].id] == Held(w);
  }

  /** In every reachable state after the close, each worker that has not exited can take a step. */
  lemma WorkerNeverStuck(s: State, w: nat) returns (l: Label, t: State)
    requires Inv(s) && s.closed && w < |s.holders| && !s.holders[w].Exited?
    ensures ActorOf(l) == Some(w) && Step(s, l, t)
  {
    hide Inv, HandlerStep, PrepareStep, ExchangeStep, CallbackStep, SettleStep, NetworkStep;
    if s.holders[w] == Idle {
      l, t := IdleProgress(s, w);
    } else {
      BusyWorks(s, w);
      l := NextOf(w, s.ats[w]);
      var at := s.ats[w];
      if at.Save? || at.Query? {
        t := PrepareProgress(s, w);
      } else if at.Number? {
        t := NumberProgress(s, w);
      } else if at.Register? || at.Write? || at.Wait? || at.Unregister? {
        t := ExchangeProgress(s, w);
      } else if at.Record? {
        t := RecordProgress(s, w);
      } else if at.Mark? || at.Notify? {
        t := FailureProgress(s, w);
      } else {
        t := CallbackProgress(s, w);
      }
    }
  }

  // ----- the end of the drain -----

  ghost predicate AllExited(s: State) {
    forall w | 0 <= w < |s.holders| :: s.holders[w].Exited?
  }

  ghost predicate AllSettled(s: State) {
    forall k | k in s.log.accepted :: k < |s.phases| && s.phases[k].Settled?
  }

  /** When all workers have exited, every accepted job has been settled, except that without any worker a
      queue that is not empty stays as it is. */
  lemma AllExitedAllSettled(s: State)
    requires Reachable(s) && Bounded(s) && AllExited(s)
    ensures Count(s.ats, Uncounted) == 0
    ensures |s.holders| > 0 ==> s.queue == []
    ensures AllSettled(s) <==> |s.holders| > 0 || s.queue == []
  {
    hide Reachable, Init, Run, Bounded;
    hide Refs, Network, Issued, Boxes, Calls, Pending, Sessions, Known, Backed, AmfMap, Conservation, Statuses,
      Counters, Latencies, Tags, Addresses;
    ReachableInv(s);
    CountBound(s.ats, Uncounted);
    if |s.holders| > 0 {
      assert s.holders[0] == Exited;
    } else if s.queue != [] {
      assert s.phases[s.queue[0]] == Queued(s.log.dequeued + 0);
      assert s.queue[0] in s.log.accepted;
    }
  }

  /** A run of worker steps only. */
  ghost predicate WorkersRun(states: seq<State>, labels: seq<Label>) {
    Run(states, labels) && forall i | 0 <= i < |labels| :: ActorOf(labels[i]).Some?
  }

  lemma RunBefore(s: State, l: Label, rest: seq<State>, more: seq<Label>)
    requires WorkersRun(rest, more) && Step(s, l, rest[0]) && ActorOf(l).Some?
    ensures WorkersRun([s] + rest, [l] + more) && ([s] + rest)[0] == s && ([s] + rest)[|more| + 1] == rest[|more|]
  {
    hide Step;
    var states, labels := [s] + rest, [l] + more;
    forall i | 0 <= i < |labels|
      ensures Step(states[i], labels[i], states[i + 1]) && ActorOf(labels[i]).Some?
    {
      if i > 0 {
        assert states[i] == rest[i - 1] && labels[i] == more[i - 1] && states[i + 1] == rest[i];
      }
    }
  }

  /** From every closed state the workers alone can drain the queue and exit, in no more steps than there
      was left to do. */
  lemma {:induction false} DrainCompletes(s: State) returns (states: seq<State>, labels: seq<Label>)
    requires Inv(s) && s.closed && Bounded(s)
    ensures WorkersRun(states, labels) && states[0] == s && |labels| <= Remaining(s)
    ensures |states[|labels|].holders| == |s.holders| && AllExited(states[|labels|])
    decreases Remaining(s)
  {
    hide Step, Inv, Bounded, Remaining, ActorOf;
    if AllExited(s) {
      states, labels := [s], [];
    } else {
      var w :| 0 <= w < |s.holders| && !s.holders[w].Exited?;
      var l, t := WorkerNeverStuck(s, w);
      InvHands(s);
      DrainDecreases(s, l, t);
      Frame(s, l, t);
      SameBounded(s, t);
      StepKeeps(s, l, t);
      var rest, more := DrainCompletes(t);
      RunBefore(s, l, rest, more);
      states, labels := [s] + rest, [l] + more;
    }
  }

  lemma SameBounded(s: State, t: State)
    requires t.requests == s.requests && Bounded(s)
    ensures Bounded(t)
  {
  }

  lemma InvHands(s: State)
    requires Inv(s)
    ensures Hands(s.holders, s.ats)
  {
    hide Hands;
  }

  // ----- a call whose datagrams arrive -----

  /** The worker waits on an empty channel, registered under its number, and its request was written. */
  ghost predicate Awaiting(s: State, w: nat, q: U32, ch: nat, ip: Quad) {
    && s.Working(w) && s.ats[w] == Wait(q, ch)
    && q in s.client.pending && s.client.pending[q] == ch && ch < |s.client.channels| && s.client.channels[ch].buf == []
    && RequestBytes(ESTABLISHMENT_REQUEST, q, ip) in s.toUpf
  }

  /** The same requests, addresses and workers' jobs. */
  predicate SameJobs(s: State, t: State) {
    t.requests == s.requests && t.holders == s.holders && t.addrs == s.addrs
  }

  lemma RequestArrives(s: State, w: nat, q: U32, ch: nat, ip: Quad) returns (t: State)
    requires Awaiting(s, w, q, ch, ip)
    ensures Step(s, LUpfReceives(RequestBytes(ESTABLISHMENT_REQUEST, q, ip)), t)
    ensures Awaiting(t, w, q, ch, ip) && Answer(q) in t.replies && SameJobs(s, t)
    ensures q in t.upf && t.upf[q] == UpfServer.Session(q, PDN_IPV4, ip)
  {
    hide UpfServer.Handle, RequestBytes, ResponseBytes;
    var p := RequestBytes(ESTABLISHMENT_REQUEST, q, ip);
    UpfServer.HandleEstablishment(s.upf, q, ip);
    var h := UpfServer.Handle(s.upf, p);
    t := s.(upf := h.table, replies := s.replies + multiset{h.reply.value});
  }

  lemma AnswerArrives(s: State, w: nat, q: U32, ch: nat, ip: Quad) returns (t: State, u: State)
    requires Awaiting(s, w, q, ch, ip) && Answer(q) in s.replies
    ensures Step(s, LUpfReplies(Answer(q), true), t) && Step(t, LSmfReceives(Answer(q)), u)
    ensures Awaiting(u, w, q, ch, ip) && (ch, AnswerRead(q)) in u.sorted && u.upf == s.upf && SameJobs(s, u)
  {
    hide DecodedResponse, ResponseBytes, RequestBytes;
    t := s.(replies := s.replies - multiset{Answer(q)}, toSmf := s.toSmf + {Answer(q)});
    AnswerDecodes(q);
    u := t.(sorted := t.sorted + multiset{(ch, AnswerRead(q))});
  }

  lemma ReplyIsTaken(s: State, w: nat, q: U32, ch: nat, ip: Quad) returns (t: State, u: State)
    requires Awaiting(s, w, q, ch, ip) && (ch, AnswerRead(q)) in s.sorted
    ensures Step(s, LSmfPuts((ch, AnswerRead(q))), t) && Step(t, LTakeReply(w), u)
    ensures u.Working(w) && u.ats[w] == Unregister(q, ch, Ok(AnswerRead(q))) && u.upf == s.upf && SameJobs(s, u)
  {
    hide RequestBytes;
    t := s.(sorted := s.sorted - multiset{(ch, AnswerRead(q))}, client := s.client.Put(ch, AnswerRead(q)));
    u := t.Goto(w, Unregister(q, ch, Ok(AnswerRead(q)))).(client := t.client.TakeReply(ch));
  }

  lemma EmptyChannelServed(s: State, w: nat, q: U32, ch: nat, ip: Quad) returns (states: seq<State>, labels: seq<Label>)
    requires Awaiting(s, w, q, ch, ip)
    ensures Run(states, labels) && |labels| == 5 && states[0] == s
    ensures states[5].Working(w) && states[5].ats[w] == Unregister(q, ch, Ok(AnswerRead(q))) && SameJobs(s, states[5])
    ensures q in states[5].upf && states[5].upf[q] == UpfServer.Session(q, PDN_IPV4, ip)
  {
    hide Step, Awaiting;
    var s1 := RequestArrives(s, w, q, ch, ip);
    var s2, s3 := AnswerArrives(s1, w, q, ch, ip);
    var s4, s5 := ReplyIsTaken(s3, w, q, ch, ip);
    states := [s, s1, s2, s3, s4, s5];
    labels := [LUpfReceives(RequestBytes(ESTABLISHMENT_REQUEST, q, ip)), LUpfReplies(Answer(q), true),
               LSmfReceives(Answer(q)), LSmfPuts((ch, AnswerRead(q))), LTakeReply(w)];
  }

  /** A channel that is full already holds the answer. */
  lemma FullChannelTaken(s: State, w: nat, q: U32, ch: nat) returns (t: State)
    requires s.Working(w) && s.ats[w] == Wait(q, ch)
    requires ch < |s.client.channels| && s.client.channels[ch].buf == [AnswerRead(q)]
    ensures Step(s, LTakeReply(w), t) && t.upf == s.upf && SameJobs(s, t)
    ensures t.Working(w) && t.ats[w] == Unregister(q, ch, Ok(AnswerRead(q)))
  {
    t := s.Goto(w, Unregister(q, ch, Ok(AnswerRead(q)))).(client := s.client.TakeReply(ch));
  }

  /** Once the request was written, success is possible from every waiting state: five steps of the network,
      the UPF and the receive loop, or one if the answer is there, let the call return it, and the UPF
      then holds the address issued for the call. */
  lemma WrittenCallCanSucceed(s: State, w: nat, q: U32, ch: nat) returns (states: seq<State>, labels: seq<Label>)
    requires Inv(s) && s.Working(w) && s.ats[w] == Wait(q, ch)
    requires q in s.log.issued && RequestBytes(ESTABLISHMENT_REQUEST, q, s.log.issued[q]) in s.toUpf
    ensures Run(states, labels) && |labels| <= 5 && states[0] == s
    ensures var t := states[|labels|];
            && SameJobs(s, t) && t.Working(w) && t.ats[w] == Unregister(q, ch, Ok(AnswerRead(q)))
            && q in t.upf && t.upf[q] == UpfServer.Session(q, PDN_IPV4, s.log.issued[q])
  {
    hide Step, Refs, Places, Hands, Progress, Drained, Network, Issued, Calls, Pending, Sessions, Known, Backed,
      AmfMap, Conservation, Statuses, Counters, Latencies, Tags, Addresses, RequestBytes;
    WorkerAt(s, w);
    if s.client.channels[ch].buf == [] {
      states, labels := EmptyChannelServed(s, w, q, ch, s.log.issued[q]);
    } else {
      NetworkAt(s.log.issued, s.toUpf, s.upf, s.replies, s.toSmf, q);
      var t := FullChannelTaken(s, w, q, ch);
      states, labels := [s, t], [LTakeReply(w)];
    }
  }
}

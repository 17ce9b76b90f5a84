/** What each step leaves alone. */
module SystemFrames {
  import opened System

  /** The queue and the workers are as they were. */
  predicate SameWork(s: State, t: State) {
    t.queue == s.queue && t.holders == s.holders && t.ats == s.ats
  }

  /** Nothing was written to the UPF, and no number was taken. */
  predicate SameTraces(s: State, t: State) {
    t.tags == s.tags && t.log.issued == s.log.issued && t.toUpf == s.toUpf && t.upf == s.upf
  }

  predicate SameAmf(s: State, t: State) {
    t.amf == s.amf && t.updates == s.updates
  }

  predicate SameCalls(s: State, t: State) {
    t.callbacks == s.callbacks && t.answers == s.answers
  }

  predicate MovesPhases(l: Label) {
    || l.LArrive? || l.LAllocate? || l.LEnqueue? || l.LHandOver? || l.LRefuse? || l.LCountRefusal?
    || l.LDequeue? || l.LRecordSuccess? || l.LFinishFailure?
  }

  lemma AdmissionFrame(s: State, l: Label, t: State)
    requires HandlerStep(s, l, t) && (l.LEnqueue? || l.LHandOver? || l.LRefuse? || l.LCountRefusal?)
    ensures s.requests <= t.requests && t.repo == s.repo && SameTraces(s, t) && SameCalls(s, t)
    ensures s.amf.Keys <= t.amf.Keys && t.updates == s.updates && (!l.LAcknowledge? ==> t.amf == s.amf)
    ensures l.LArrive? || t.requests == s.requests
    ensures MovesPhases(l) || t.phases == s.phases
    ensures (s.closed || !(l.LEnqueue? || l.LHandOver?)) ==> SameWork(s, t)
    ensures s.closed ==> t.closed
    ensures ActorOf(l).None?
  {
  }

  lemma IntakeFrame(s: State, l: Label, t: State)
    requires HandlerStep(s, l, t) && !(l.LEnqueue? || l.LHandOver? || l.LRefuse? || l.LCountRefusal?)
    ensures s.requests <= t.requests && t.repo == s.repo && SameTraces(s, t) && SameCalls(s, t)
    ensures s.amf.Keys <= t.amf.Keys && t.updates == s.updates && (!l.LAcknowledge? ==> t.amf == s.amf)
    ensures l.LArrive? || t.requests == s.requests
    ensures MovesPhases(l) || t.phases == s.phases
    ensures (s.closed || !(l.LEnqueue? || l.LHandOver?)) ==> SameWork(s, t)
    ensures s.closed ==> t.closed
    ensures ActorOf(l).None?
  {
  }

  lemma HandlerFrame(s: State, l: Label, t: State)
    requires HandlerStep(s, l, t)
    ensures s.requests <= t.requests && t.repo == s.repo && SameTraces(s, t) && SameCalls(s, t)
    ensures s.amf.Keys <= t.amf.Keys && t.updates == s.updates && (!l.LAcknowledge? ==> t.amf == s.amf)
    ensures l.LArrive? || t.requests == s.requests
    ensures MovesPhases(l) || t.phases == s.phases
    ensures (s.closed || !(l.LEnqueue? || l.LHandOver?)) ==> SameWork(s, t)
    ensures s.closed ==> t.closed
    ensures ActorOf(l).None?
  {
    hide HandlerStep;
    if l.LEnqueue? || l.LHandOver? || l.LRefuse? || l.LCountRefusal? {
      AdmissionFrame(s, l, t);
    } else {
      IntakeFrame(s, l, t);
    }
  }

  lemma PrepareFrame(s: State, l: Label, t: State)
    requires PrepareStep(s, l, t)
    ensures t.requests == s.requests && t.closed == s.closed && |t.holders| == |s.holders|
    ensures SameAmf(s, t) && SameCalls(s, t) && t.toUpf == s.toUpf && t.upf == s.upf
    ensures l.LSave? || t.repo == s.repo
    ensures l.LDequeue? || t.phases == s.phases
    ensures l.LTakeNumber? || SameTraces(s, t)
    ensures ActorOf(l).Some?
  {
  }

  lemma ExchangeFrame(s: State, l: Label, t: State)
    requires ExchangeStep(s, l, t)
    ensures t.requests == s.requests && t.closed == s.closed && t.queue == s.queue && t.holders == s.holders
    ensures t.repo == s.repo && t.phases == s.phases && SameAmf(s, t) && SameCalls(s, t)
    ensures t.tags == s.tags && t.log.issued == s.log.issued && t.upf == s.upf
    ensures l.LWrite? || t.toUpf == s.toUpf
    ensures ActorOf(l).Some?
  {
  }

  lemma CallbackFrame(s: State, l: Label, t: State)
    requires CallbackStep(s, l, t)
    ensures t.requests == s.requests && t.closed == s.closed && t.queue == s.queue && t.holders == s.holders
    ensures t.phases == s.phases && SameAmf(s, t) && SameTraces(s, t)
    ensures l.LActivate? || t.repo == s.repo
    ensures l.LSendActive? || SameCalls(s, t)
    ensures ActorOf(l).Some?
  {
  }

  lemma SettleFrame(s: State, l: Label, t: State)
    requires SettleStep(s, l, t)
    ensures t.requests == s.requests && t.closed == s.closed && t.queue == s.queue && |t.holders| == |s.holders|
    ensures SameAmf(s, t) && SameTraces(s, t)
    ensures l.LMark? || t.repo == s.repo
    ensures l.LNotify? || SameCalls(s, t)
    ensures MovesPhases(l) || t.phases == s.phases
    ensures ActorOf(l).Some?
  {
  }

  lemma NetworkFrame(s: State, l: Label, t: State)
    requires NetworkStep(s, l, t)
    ensures t.requests == s.requests && t.closed == s.closed && SameWork(s, t)
    ensures t.repo == s.repo && t.phases == s.phases
    ensures s.amf.Keys <= t.amf.Keys && s.updates <= t.updates && (l.LAmfHandles? || SameAmf(s, t))
    ensures s.answers <= t.answers && (l.LAmfHandles? || SameCalls(s, t))
    ensures t.tags == s.tags && t.log.issued == s.log.issued && t.toUpf == s.toUpf
    ensures l.LUpfReceives? || t.upf == s.upf
    ensures ActorOf(l).None?
  {
  }

  /** All of the above. */
  lemma Frame(s: State, l: Label, t: State)
    requires Step(s, l, t)
    ensures s.requests <= t.requests && (s.closed ==> t.closed)
    ensures l.LSave? || l.LActivate? || l.LMark? || t.repo == s.repo
    ensures MovesPhases(l) || t.phases == s.phases
    ensures s.amf.Keys <= t.amf.Keys && s.updates <= t.updates
    ensures l.LAcknowledge? || l.LAmfHandles? || SameAmf(s, t)
    ensures l.LSendActive? || l.LNotify? || l.LAmfHandles? || SameCalls(s, t)
    ensures l.LArrive? || t.requests == s.requests
    ensures l.LTakeNumber? || (t.tags == s.tags && t.log.issued == s.log.issued)
    ensures l.LWrite? || t.toUpf == s.toUpf
    ensures l.LUpfReceives? || t.upf == s.upf
    ensures ActorOf(l).None? && (s.closed || !(l.LEnqueue? || l.LHandOver?)) ==> SameWork(s, t)
    ensures ActorOf(l).Some? ==> t.requests == s.requests && t.closed == s.closed && |t.holders| == |s.holders|
  {
    hide HandlerStep, PrepareStep, ExchangeStep, CallbackStep, SettleStep, NetworkStep;
    if HandlerStep(s, l, t) {
      HandlerFrame(s, l, t);
    } else if PrepareStep(s, l, t) {
      PrepareFrame(s, l, t);
    } else if ExchangeStep(s, l, t) {
      ExchangeFrame(s, l, t);
    } else if CallbackStep(s, l, t) {
      CallbackFrame(s, l, t);
    } else if SettleStep(s, l, t) {
      SettleFrame(s, l, t);
    } else {
      NetworkFrame(s, l, t);
    }
  }
}

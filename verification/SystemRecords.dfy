/** What is stored and sent about a request is the request's own, field by field; and what the AMF holds,
    answers and asks for follows from the messages it handled. */
module SystemRecords {
  import opened Address
  import opened AmfHandler
  import opened Bytes
  import opened Codec
  import opened FailureReason
  import opened SmContext
  import opened System
  import opened SystemFrames
  import opened SystemInvariant
  import opened SystemMoves
  import opened SystemPreservation
  import opened SystemRuns
  import opened SystemTheorems
  import opened SystemWitness
  import opened SystemWrites
  import opened Wrappers
  import Repository

  // ----- the fields -----

  /** The stored session carries the request's own fields. */
  predicate CarriesRequest(x: Repository.Session, r: Intake) {
    && x.ref == r.ref && x.supi == r.supi && x.gpsi == r.profile.gpsi
    && x.pduSessionId == r.profile.pduSessionId && x.dnn == r.profile.dnn
    && x.sst == r.profile.sst && x.sd == r.profile.sd
    && x.servingNfId == r.profile.servingNfId && x.anType == r.profile.anType
  }

  predicate SaysActive(c: Callback) {
    c.body.status == "ACTIVE" && c.body.cause == "REQUEST_ACCEPTED" && c.body.message == ""
  }

  ghost predicate SaysFailed(c: Callback) {
    && c.body.status == "FAILED" && c.body.cause == ReasonOf(c.body.message)
    && c.body.cause in {"PFCP_TIMEOUT", "N1N2_FAILED", "DB_ERROR", "E2E_ESTABLISHMENT_FAILED"}
  }

  /** The callback names its own request, and says that it is active or why it failed. */
  ghost predicate NamesRequest(c: Callback, r: Intake) {
    && c.imsi == r.supi && c.body.ref == r.ref && c.body.pduSessionId == r.profile.pduSessionId
    && c.body.dnn == r.profile.dnn && c.body.sst == r.profile.sst && c.body.sd == r.profile.sd
    && (SaysActive(c) || SaysFailed(c))
  }

  ghost predicate Records(requests: seq<Intake>, repo: Repository.Table) {
    forall k | 0 <= k < |requests| && requests[k].ref in repo :: CarriesRequest(repo[requests[k].ref], requests[k])
  }

  ghost predicate Named(requests: seq<Intake>, c: Callback) {
    c.id < |requests| && NamesRequest(c, requests[c.id])
  }

  ghost predicate Calling(requests: seq<Intake>, callbacks: multiset<Callback>, answers: set<(Callback, nat)>) {
    (forall c | c in callbacks :: Named(requests, c)) && (forall a | a in answers :: Named(requests, a.0))
  }

  // ----- the sessions -----

  lemma RefsDiffer(s: State, j: nat, k: nat)
    requires Inv(s) && j < |s.requests| && k < |s.requests| && j != k
    ensures s.requests[j].ref != s.requests[k].ref
  {
    hide Inv;
    OwnerOf(s, j);
    OwnerOf(s, k);
  }

  lemma WriteRecords(s: State, t: State, k: nat, v: Repository.Session)
    requires Inv(s) && Records(s.requests, s.repo) && k < |s.requests| && CarriesRequest(v, s.requests[k])
    requires t.requests == s.requests && t.repo == s.repo[s.requests[k].ref := v]
    ensures Records(t.requests, t.repo)
  {
    hide Inv, CarriesRequest;
    forall j | 0 <= j < |t.requests| && t.requests[j].ref in t.repo
      ensures CarriesRequest(t.repo[t.requests[j].ref], t.requests[j])
    {
      if j != k {
        RefsDiffer(s, j, k);
      }
    }
  }

  lemma SaveRecords(s: State, t: State, w: nat, now: int)
    requires Inv(s) && Records(s.requests, s.repo) && SaveSession(s, t, w, now)
    ensures Records(t.requests, t.repo)
  {
    hide Inv, Records;
    var k := s.holders[w].id;
    WriteRecords(s, t, k, NewSession(s.JobOf(k)).(createdAt := now, updatedAt := now));
  }

  lemma ActivateRecords(s: State, t: State, w: nat, now: int)
    requires Inv(s) && Records(s.requests, s.repo) && ActivateSession(s, t, w, now)
    ensures Records(t.requests, t.repo)
  {
    hide Inv;
    var k := s.holders[w].id;
    var ref := s.requests[k].ref;
    if ref in s.repo {
      assert CarriesRequest(s.repo[ref], s.requests[k]);
      WriteRecords(s, t, k, t.repo[ref]);
    }
  }

  lemma MarkRecords(s: State, t: State, w: nat, now: int)
    requires Inv(s) && Records(s.requests, s.repo) && MarkFailed(s, t, w, now)
    ensures Records(t.requests, t.repo)
  {
    hide Inv, ReasonOf, Text;
    var k := s.holders[w].id;
    var ref := s.requests[k].ref;
    if ref in s.repo {
      assert CarriesRequest(s.repo[ref], s.requests[k]);
      WriteRecords(s, t, k, t.repo[ref]);
    }
  }

  /** A new request has no stored session. */
  lemma ArriveRecords(s: State, t: State)
    requires Inv(s) && Inv(t) && Records(s.requests, s.repo) && s.requests <= t.requests && t.repo == s.repo
    ensures Records(t.requests, t.repo)
  {
    hide Inv, CarriesRequest, Stands, StandingOf;
    forall k | 0 <= k < |t.requests| && t.requests[k].ref in t.repo
      ensures CarriesRequest(t.repo[t.requests[k].ref], t.requests[k])
    {
      SessionOf(s, t.requests[k].ref);
      var j := s.log.refOwner[t.requests[k].ref];
      assert t.requests[j] == s.requests[j];
      if j != k {
        RefsDiffer(t, j, k);
      }
    }
  }

  lemma RecordsStep(s: State, l: Label, t: State)
    requires Inv(s) && Inv(t) && Records(s.requests, s.repo) && Step(s, l, t)
    ensures Records(t.requests, t.repo)
  {
    hide Inv, Records, SaveSession, ActivateSession, MarkFailed;
    if l.LSave? {
      SaveRecords(s, t, l.w, l.now);
    } else if l.LActivate? {
      ActivateRecords(s, t, l.w, l.now);
    } else if l.LMark? {
      MarkRecords(s, t, l.w, l.now);
    } else {
      hide Step;
      Frame(s, l, t);
      ArriveRecords(s, t);
    }
  }

  // ----- the callbacks -----

  lemma NamedLater(requests: seq<Intake>, more: seq<Intake>, c: Callback)
    requires Named(requests, c) && requests <= more
    ensures Named(more, c)
  {
    hide NamesRequest;
  }

  lemma CallingLater(
    requests: seq<Intake>, more: seq<Intake>, callbacks: multiset<Callback>, answers: set<(Callback, nat)>)
    requires Calling(requests, callbacks, answers) && requests <= more
    ensures Calling(more, callbacks, answers)
  {
    hide Named;
    forall c | c in callbacks ensures Named(more, c) {
      NamedLater(requests, more, c);
    }
    forall a | a in answers ensures Named(more, a.0) {
      NamedLater(requests, more, a.0);
    }
  }

  /** The only callback a step sends is a worker's: ACTIVE from the call after the PFCP exchange, FAILED from the
      notification after the failure was marked, with the stored reason and the error's text. */
  ghost predicate SentFrom(s: State, w: nat, c: Callback) {
    && s.Working(w) && s.holders[w].id == c.id
    && (SaysActive(c) <==> s.ats[w] == Call(false))
    && (SaysFailed(c) <==> s.ats[w].Notify? && !s.ats[w].sent)
    && (s.ats[w].Notify? ==> c.body.message == Text(s.ats[w].failure))
    && (s.ats[w].Call? || s.ats[w].Notify?)
  }

  lemma ReasonLiterals(s: string)
    ensures ReasonOf(s) in {"PFCP_TIMEOUT", "N1N2_FAILED", "DB_ERROR", "E2E_ESTABLISHMENT_FAILED"}
  {
    hide ReasonOf;
    ReasonInWords(s);
  }

  lemma ActiveSent(s: State, t: State, w: nat) returns (c: Callback)
    requires SendActive(s, t, w)
    ensures t.callbacks == s.callbacks + multiset{c} && t.answers == s.answers && t.requests == s.requests
    ensures Named(s.requests, c) && SentFrom(s, w, c)
  {
    var k := s.holders[w].id;
    c := ActiveCallback(s.requests[k], k);
    StatusesDiffer();
  }

  lemma StatusesDiffer()
    ensures "ACTIVE" != "FAILED"
  {
    assert "ACTIVE"[0] != "FAILED"[0];
  }

  lemma FailureSent(s: State, t: State, w: nat) returns (c: Callback)
    requires Records(s.requests, s.repo) && NotifyFailure(s, t, w)
    ensures t.callbacks == s.callbacks + multiset{c} && t.answers == s.answers && t.requests == s.requests
    ensures Named(s.requests, c) && SentFrom(s, w, c)
  {
    hide ReasonOf, Text;
    var k, e := s.holders[w].id, s.ats[w].failure;
    var ref := s.requests[k].ref;
    assert CarriesRequest(s.repo[ref], s.requests[k]);
    c := FailureCallback(s.requests[k], k, s.repo[ref], e);
    ReasonLiterals(Text(e));
    StatusesDiffer();
  }

  lemma CallingSend(requests: seq<Intake>, callbacks: multiset<Callback>, answers: set<(Callback, nat)>, c: Callback)
    requires Calling(requests, callbacks, answers) && Named(requests, c)
    ensures Calling(requests, callbacks + multiset{c}, answers)
  {
    hide Named;
  }

  lemma HandledMoves(s: State, t: State, c: Callback)
    requires Calling(s.requests, s.callbacks, s.answers) && AmfHandles(s, t, c)
    ensures Calling(t.requests, t.callbacks, t.answers)
  {
    hide Named;
    assert Named(s.requests, c);
  }

  lemma CallingStep(s: State, l: Label, t: State)
    requires Records(s.requests, s.repo) && Calling(s.requests, s.callbacks, s.answers) && Step(s, l, t)
    ensures Calling(t.requests, t.callbacks, t.answers)
  {
    hide Records, Calling, SendActive, NotifyFailure, AmfHandles;
    if l.LSendActive? {
      var c := ActiveSent(s, t, l.w);
      CallingSend(s.requests, s.callbacks, s.answers, c);
    } else if l.LNotify? {
      var c := FailureSent(s, t, l.w);
      CallingSend(s.requests, s.callbacks, s.answers, c);
    } else if l.LAmfHandles? {
      HandledMoves(s, t, l.c);
    } else {
      hide Step;
      Frame(s, l, t);
      CallingLater(s.requests, t.requests, s.callbacks, s.answers);
    }
  }

  lemma CallbackSentFrom(s: State, l: Label, t: State, c: Callback)
    requires Records(s.requests, s.repo) && Step(s, l, t) && t.callbacks[c] > s.callbacks[c]
    ensures ActorOf(l).Some? && SentFrom(s, ActorOf(l).value, c) && Named(s.requests, c)
  {
    hide Records, SendActive, NotifyFailure, AmfHandles, SentFrom, Named;
    if l.LSendActive? {
      var d := ActiveSent(s, t, l.w);
    } else if l.LNotify? {
      var d := FailureSent(s, t, l.w);
    } else if l.LAmfHandles? {
      HandledRemoves(s, t, l.c, c);
    } else {
      hide Step;
      Frame(s, l, t);
    }
  }

  lemma HandledRemoves(s: State, t: State, c: Callback, d: Callback)
    requires AmfHandles(s, t, c)
    ensures t.callbacks[d] <= s.callbacks[d]
  {
  }

  // ----- outcomes and the AMF's answers -----

  /** The AMF answered the ACTIVE callback of request `k` with `code`. */
  ghost predicate AnsweredWith(k: nat, code: nat, answers: set<(Callback, nat)>) {
    exists a :: a in answers && a.1 == code && a.0.id == k && SaysActive(a.0)
  }

  /** An outcome that rests on an answer of the AMF has it. */
  ghost predicate Justified(err: Option<StageError>, k: nat, answers: set<(Callback, nat)>) {
    match err
    case None => AnsweredWith(k, 200, answers)
    case Some(e) => e.AmfStatus? ==> e.code != 200 && AnsweredWith(k, e.code, answers)
  }

  ghost predicate AtJustified(at: At, k: nat, answers: set<(Callback, nat)>) {
    match at
    case AddLatency(err) => Justified(err, k, answers)
    case AddTps(err) => Justified(err, k, answers)
    case Record(err) => Justified(err, k, answers)
    case Mark(e) => Justified(Some(e), k, answers)
    case Notify(e, _) => Justified(Some(e), k, answers)
    case _ => true
  }

  ghost predicate HandsEnd(holders: seq<Holder>, ats: seq<At>, answers: set<(Callback, nat)>) {
    && |ats| == |holders|
    && (forall w | 0 <= w < |holders| && holders[w].Busy? :: AtJustified(ats[w], holders[w].id, answers))
  }

  ghost predicate PhasesEnd(phases: seq<Phase>, answers: set<(Callback, nat)>) {
    forall k | 0 <= k < |phases| && phases[k].Settled? :: Justified(phases[k].outcome, k, answers)
  }

  ghost predicate Ends(s: State) {
    HandsEnd(s.holders, s.ats, s.answers) && PhasesEnd(s.phases, s.answers)
  }

  lemma JustifiedLater(err: Option<StageError>, k: nat, answers: set<(Callback, nat)>, more: set<(Callback, nat)>)
    requires Justified(err, k, answers) && answers <= more
    ensures Justified(err, k, more)
  {
    hide SaysActive;
  }

  lemma EndsLater(s: State, more: set<(Callback, nat)>)
    requires Ends(s) && s.answers <= more
    ensures HandsEnd(s.holders, s.ats, more) && PhasesEnd(s.phases, more)
  {
    hide Justified;
    forall w | 0 <= w < |s.holders| && s.holders[w].Busy? ensures AtJustified(s.ats[w], s.holders[w].id, more) {
      AtJustifiedLater(s.ats[w], s.holders[w].id, s.answers, more);
    }
    forall k | 0 <= k < |s.phases| && s.phases[k].Settled? ensures Justified(s.phases[k].outcome, k, more) {
      JustifiedLater(s.phases[k].outcome, k, s.answers, more);
    }
  }

  lemma AtJustifiedLater(at: At, k: nat, answers: set<(Callback, nat)>, more: set<(Callback, nat)>)
    requires AtJustified(at, k, answers) && answers <= more
    ensures AtJustified(at, k, more)
  {
    hide SaysActive;
  }

  lemma GotoEnds(s: State, t: State, w: nat, at: At)
    requires Ends(s) && s.Working(w) && AtJustified(at, s.holders[w].id, s.answers)
    requires t.ats == s.ats[w := at] && t.holders == s.holders && t.phases == s.phases && t.answers == s.answers
    ensures Ends(t)
  {
    hide AtJustified, Justified;
  }

  lemma WorkerEnds(s: State, w: nat)
    requires Ends(s) && s.Working(w)
    ensures AtJustified(s.ats[w], s.holders[w].id, s.answers)
  {
    hide AtJustified, Justified;
  }

  lemma PrepareGoesOn(s: State, l: Label, t: State)
    requires Ends(s) && PrepareStep(s, l, t) && !l.LDequeue? && !l.LExit?
    ensures Ends(t)
  {
    hide Ends, Repository.Save, NewSession, Encoded, DottedU32;
    GotoEnds(s, t, l.w, t.ats[l.w]);
  }

  lemma ExchangeGoesOn(s: State, l: Label, t: State)
    requires Ends(s) && ExchangeStep(s, l, t)
    ensures Ends(t)
  {
    hide Ends;
    GotoEnds(s, t, l.w, t.ats[l.w]);
  }

  lemma ReturnGoesOn(s: State, t: State, w: nat, err: Option<StageError>)
    requires Ends(s) && CallReturns(s, t, w, err)
    ensures Ends(t)
  {
    hide Ends;
    var k := s.holders[w].id;
    var c := ActiveCallback(s.requests[k], k);
    assert SaysActive(c) && c.id == k;
    if err.None? {
      assert (c, 200) in s.answers;
    } else if err.value.AmfStatus? {
      assert (c, err.value.code) in s.answers;
    }
    GotoEnds(s, t, w, AddLatency(err));
  }

  lemma CallbackGoesOn(s: State, l: Label, t: State)
    requires Ends(s) && CallbackStep(s, l, t) && !l.LCallReturns?
    ensures Ends(t)
  {
    hide Ends, Justified, Repository.SetIP, Add64;
    WorkerEnds(s, l.w);
    GotoEnds(s, t, l.w, t.ats[l.w]);
  }

  lemma SettleGoesOn(s: State, l: Label, t: State)
    requires Ends(s) && SettleStep(s, l, t) && (l.LRecordFailure? || l.LMark? || l.LNotify?)
    ensures Ends(t)
  {
    hide Ends, Justified, Repository.SetReason, Add64, ReasonOf, Text;
    WorkerEnds(s, l.w);
    GotoEnds(s, t, l.w, t.ats[l.w]);
  }

  lemma FinishEnds(s: State, t: State, w: nat, outcome: Option<StageError>)
    requires Ends(s) && s.Working(w) && s.holders[w].id < |s.phases| && Justified(outcome, s.holders[w].id, s.answers)
    requires t.holders == s.holders[w := Idle] && t.ats == s.ats[w := Free] && t.answers == s.answers
    requires t.phases == s.phases[s.holders[w].id := Settled(outcome)]
    ensures Ends(t)
  {
    hide AtJustified, Justified;
  }

  lemma FinishGoesOn(s: State, l: Label, t: State)
    requires Ends(s) && SettleStep(s, l, t) && (l.LRecordSuccess? || l.LFinishFailure?)
    ensures Ends(t)
  {
    hide Ends, Justified, Add64;
    WorkerEnds(s, l.w);
    FinishEnds(s, t, l.w, if l.LRecordSuccess? then None else Some(s.ats[l.w].failure));
  }

  lemma TakeEnds(s: State, t: State, w: nat, k: nat)
    requires Ends(s) && w < |s.holders| && k < |s.phases|
    requires t.holders == s.holders[w := Busy(k)] && t.ats == s.ats[w := Save] && t.answers == s.answers
    requires t.phases == s.phases[k := Held(w)]
    ensures Ends(t)
  {
    hide Justified;
  }

  lemma IdleEnds(s: State, l: Label, t: State)
    requires Ends(s) && Step(s, l, t) && (l.LDequeue? || l.LExit? || l.LHandOver?)
    ensures Ends(t)
  {
    hide Justified;
    if l.LDequeue? {
      TakeEnds(s, t, l.w, s.queue[0]);
    } else if l.LHandOver? {
      TakeEnds(s, t, l.w, l.k);
    }
  }

  /** Request handlers other than the hand-over settle nothing. */
  lemma HandlersEnd(s: State, l: Label, t: State)
    requires Ends(s) && HandlerStep(s, l, t) && !l.LHandOver?
    ensures Ends(t)
  {
    hide HandsEnd, Justified, Ref, DottedU32;
    HandlerFrame(s, l, t);
    hide SameTraces;
    HandlersKeepHands(s, l, t);
    forall k | 0 <= k < |t.phases| && t.phases[k].Settled? ensures k < |s.phases| && s.phases[k] == t.phases[k] {
    }
  }

  lemma HandlersKeepHands(s: State, l: Label, t: State)
    requires HandlerStep(s, l, t) && !l.LHandOver?
    ensures t.holders == s.holders && t.ats == s.ats && t.answers == s.answers
  {
    hide Ref, DottedU32;
  }

  lemma NetworkEnds(s: State, l: Label, t: State)
    requires Ends(s) && NetworkStep(s, l, t)
    ensures Ends(t)
  {
    hide NetworkStep, HandsEnd, PhasesEnd;
    NetworkFrame(s, l, t);
    EndsLater(s, t.answers);
  }

  lemma EndsStep(s: State, l: Label, t: State)
    requires Ends(s) && Step(s, l, t)
    ensures Ends(t)
  {
    hide Ends, HandlerStep, PrepareStep, ExchangeStep, CallbackStep, SettleStep, NetworkStep;
    if l.LDequeue? || l.LExit? || l.LHandOver? {
      IdleEnds(s, l, t);
    } else if HandlerStep(s, l, t) {
      HandlersEnd(s, l, t);
    } else if PrepareStep(s, l, t) {
      PrepareEnds(s, l, t);
    } else if ExchangeStep(s, l, t) {
      ExchangeGoesOn(s, l, t);
    } else if CallbackStep(s, l, t) {
      CallbackEnds(s, l, t);
    } else if SettleStep(s, l, t) {
      SettleEnds(s, l, t);
    } else {
      NetworkEnds(s, l, t);
    }
  }

  lemma PrepareEnds(s: State, l: Label, t: State)
    requires Ends(s) && PrepareStep(s, l, t) && !l.LDequeue? && !l.LExit?
    ensures Ends(t)
  {
    hide Ends, Dequeue, Exit, SaveSession, SaveFails, QueryUdm, TakeNumber, EncodeFails;
    PrepareGoesOn(s, l, t);
  }

  lemma CallbackEnds(s: State, l: Label, t: State)
    requires Ends(s) && CallbackStep(s, l, t)
    ensures Ends(t)
  {
    hide Ends, ActivateSession, SendActive, CallReturns, LatencyAdded, TpsAdded;
    if l.LCallReturns? {
      ReturnGoesOn(s, t, l.w, l.err);
    } else {
      CallbackGoesOn(s, l, t);
    }
  }

  lemma SettleEnds(s: State, l: Label, t: State)
    requires Ends(s) && SettleStep(s, l, t)
    ensures Ends(t)
  {
    hide Ends, RecordSuccess, RecordFailure, MarkFailed, NotifyFailure, FinishFailure;
    if l.LRecordSuccess? || l.LFinishFailure? {
      FinishGoesOn(s, l, t);
    } else {
      SettleGoesOn(s, l, t);
    }
  }

  // ----- answers and modify calls -----

  /** A callback that was answered 200 and is not a failure started a modify call for its IMSI. */
  ghost predicate Updated(answers: set<(Callback, nat)>, updates: set<(string, string)>) {
    forall a | a in answers && a.1 == 200 && a.0.body.status != "FAILED" :: exists ref :: (ref, a.0.imsi) in updates
  }

  lemma UpdatedHandles(s: State, t: State, c: Callback)
    requires Updated(s.answers, s.updates) && AmfHandles(s, t, c)
    ensures Updated(t.answers, t.updates)
  {
    forall a | a in t.answers && a.1 == 200 && a.0.body.status != "FAILED"
      ensures exists ref :: (ref, a.0.imsi) in t.updates
    {
      if a in s.answers {
        var ref :| (ref, a.0.imsi) in s.updates;
        assert (ref, a.0.imsi) in t.updates;
      } else {
        assert (s.amf[c.imsi], c.imsi) in t.updates;
      }
    }
  }

  lemma UpdatedStep(s: State, l: Label, t: State)
    requires Updated(s.answers, s.updates) && Step(s, l, t)
    ensures Updated(t.answers, t.updates)
  {
    hide AmfHandles, Updated;
    if l.LAmfHandles? {
      UpdatedHandles(s, t, l.c);
    } else {
      hide Step;
      Frame(s, l, t);
      SameAnswers(s, l, t);
    }
  }

  lemma SameAnswers(s: State, l: Label, t: State)
    requires Step(s, l, t) && !l.LAmfHandles?
    ensures t.answers == s.answers && t.updates == s.updates
  {
    hide SendActive, NotifyFailure;
    if l.LSendActive? || l.LNotify? {
      SendersAnswer(s, l, t);
    } else if l.LAcknowledge? {
      TriggersAnswer(s, l, t);
    } else {
      hide Step;
      Frame(s, l, t);
    }
  }

  lemma TriggersAnswer(s: State, l: Label, t: State)
    requires Step(s, l, t) && l.LAcknowledge?
    ensures t.answers == s.answers && t.updates == s.updates
  {
  }

  lemma SendersAnswer(s: State, l: Label, t: State)
    requires Step(s, l, t) && (l.LSendActive? || l.LNotify?)
    ensures t.answers == s.answers && t.updates == s.updates
  {
    hide ReasonOf, Text;
  }

  // ----- over runs -----

  ghost predicate Kept(s: State) {
    && Records(s.requests, s.repo) && Calling(s.requests, s.callbacks, s.answers)
    && Ends(s) && Updated(s.answers, s.updates)
  }

  lemma InitKept(s: State)
    requires Init(s)
    ensures Kept(s)
  {
  }

  lemma KeptStep(s: State, l: Label, t: State)
    requires Inv(s) && Inv(t) && Kept(s) && Step(s, l, t)
    ensures Kept(t)
  {
    hide Inv, Step, Records, Calling, Ends, Updated;
    RecordsStep(s, l, t);
    CallingStep(s, l, t);
    EndsStep(s, l, t);
    UpdatedStep(s, l, t);
  }

  lemma {:induction false} RunKept(states: seq<State>, labels: seq<Label>, i: nat)
    requires Run(states, labels) && Init(states[0]) && i <= |labels| && Bounded(states[|labels|])
    ensures Kept(states[i])
  {
    hide Step, Inv, Kept, Bounded, Init;
    if i == 0 {
      InitKept(states[0]);
    } else {
      RunKept(states, labels, i - 1);
      RunInv(states, labels, i - 1);
      RunInv(states, labels, i);
      KeptStep(states[i - 1], labels[i - 1], states[i]);
    }
  }

  lemma ReachableKept(s: State)
    requires Reachable(s) && Bounded(s)
    ensures Kept(s)
  {
    hide Step, Kept, Bounded, Init;
    var states, labels :| Run(states, labels) && Init(states[0]) && states[|labels|] == s;
    RunKept(states, labels, |labels|);
  }

  /** Every stored session carries the fields of the request it was stored for. */
  lemma StoredSessionIsOwn(s: State, ref: string)
    requires Reachable(s) && Bounded(s) && ref in s.repo
    ensures ref in s.log.refOwner && s.log.refOwner[ref] < |s.requests|
    ensures CarriesRequest(s.repo[ref], s.requests[s.log.refOwner[ref]])
  {
    hide Reachable, Bounded, Inv, Calling, Ends, Updated, Stands, StandingOf, CarriesRequest;
    ReachableInv(s);
    ReachableKept(s);
    SessionOf(s, ref);
  }

  /** Every callback on its way to the AMF, and every one the AMF has answered, names its own request and says
      that it is active, or that it failed and why. */
  lemma CallbacksAreOwn(s: State, c: Callback)
    requires Reachable(s) && Bounded(s) && (c in s.callbacks || exists code :: (c, code) in s.answers)
    ensures c.id < |s.requests| && NamesRequest(c, s.requests[c.id])
  {
    hide Reachable, Bounded, Inv, Records, Ends, Updated, NamesRequest;
    ReachableKept(s);
    assert Named(s.requests, c);
  }

  /** Each callback that a step adds was sent by one worker: ACTIVE from the call after the PFCP exchange, FAILED from
      the notification after the failure was marked, with the error's own text. */
  lemma CallbackSent(s: State, l: Label, t: State, c: Callback)
    requires Reachable(s) && Bounded(s) && Step(s, l, t) && t.callbacks[c] > s.callbacks[c]
    ensures ActorOf(l).Some? && SentFrom(s, ActorOf(l).value, c)
    ensures c.id < |s.requests| && NamesRequest(c, s.requests[c.id])
  {
    hide Reachable, Bounded, Step, Records, Calling, Ends, Updated, SentFrom, NamesRequest;
    ReachableKept(s);
    CallbackSentFrom(s, l, t, c);
  }

  /** A job ends in success only if the AMF answered its ACTIVE callback with 200, and that started a modify
      call for the subscriber, whom the AMF therefore knows; it ends in an AMF error only if the AMF answered
      with that status, not 200. */
  lemma OutcomeRestsOnAnswer(s: State, k: nat)
    requires Reachable(s) && Bounded(s) && k < |s.phases| && s.phases[k].Settled?
    ensures s.phases[k].outcome == None ==>
      && AnsweredWith(k, 200, s.answers)
      && k < |s.requests| && s.requests[k].supi in s.amf && exists ref :: (ref, s.requests[k].supi) in s.updates
    ensures s.phases[k].outcome.Some? && s.phases[k].outcome.value.AmfStatus? ==>
      s.phases[k].outcome.value.code != 200 && AnsweredWith(k, s.phases[k].outcome.value.code, s.answers)
  {
    hide Reachable, Bounded, Init, Run, Records;
    ReachableKept(s);
    assert Justified(s.phases[k].outcome, k, s.answers);
    if s.phases[k].outcome == None {
      SuccessKnown(s, k);
    }
  }

  lemma SuccessKnown(s: State, k: nat)
    requires Reachable(s) && Bounded(s) && Kept(s) && AnsweredWith(k, 200, s.answers)
    ensures k < |s.requests| && s.requests[k].supi in s.amf && exists ref :: (ref, s.requests[k].supi) in s.updates
  {
    hide Reachable, Bounded, Records, Ends, IssuedFor, ReasonOf;
    AmfHoldsIssuedReferences(s);
    StatusesDiffer();
    var a :| a in s.answers && a.1 == 200 && a.0.id == k && SaysActive(a.0);
    assert Named(s.requests, a.0);
    var ref :| (ref, a.0.imsi) in s.updates;
  }

  // ----- the AMF's map as the history of its events -----

  /** What a step tells the AMF, if anything. */
  function EventOf(s: State, l: Label): Option<Event> {
    match l
    case LAcknowledge(k) =>
      if k < |s.requests| then Some(Triggered(Some(s.requests[k].supi), Created(Some(s.requests[k].ref)))) else None
    case LAmfHandles(c) => Some(CalledBack(c.imsi, Some(c.body)))
    case _ => None
  }

  function EventsTo(states: seq<State>, labels: seq<Label>, i: nat): seq<Event>
    requires |states| == |labels| + 1 && i <= |labels|
  {
    if i == 0 then []
    else
      EventsTo(states, labels, i - 1)
      + match EventOf(states[i - 1], labels[i - 1]) case None => [] case Some(e) => [e]
  }

  lemma AfterOne(events: seq<Event>, e: Event)
    ensures After(events + [e]) == React(After(events), e).sessions
  {
    assert (events + [e])[..|events|] == events;
  }

  lemma AmfStepReacts(s: State, l: Label, t: State)
    requires Step(s, l, t)
    ensures match EventOf(s, l)
            case None => t.amf == s.amf
            case Some(e) => t.amf == React(s.amf, e).sessions
  {
    hide Acknowledge, AmfHandles;
    if l.LAcknowledge? {
      AcknowledgeReacts(s, t, l.k);
    } else if l.LAmfHandles? {
      HandlesReacts(s, t, l.c);
    } else {
      hide Step;
      Frame(s, l, t);
    }
  }

  lemma AcknowledgeReacts(s: State, t: State, k: nat)
    requires Acknowledge(s, t, k)
    ensures k < |s.requests|
    ensures t.amf == React(s.amf, Triggered(Some(s.requests[k].supi), Created(Some(s.requests[k].ref)))).sessions
  {
  }

  lemma HandlesReacts(s: State, t: State, c: Callback)
    requires AmfHandles(s, t, c)
    ensures t.amf == React(s.amf, CalledBack(c.imsi, Some(c.body))).sessions
    ensures var a := AmfHandler.Callback(s.amf, c.imsi, Some(c.body));
            t.updates == if a.update.Some? then s.updates + {a.update.value} else s.updates
  {
  }

  /** Over every run the AMF holds what its events so far tell. */
  lemma {:induction false} AmfFollowsEvents(states: seq<State>, labels: seq<Label>, i: nat)
    requires Run(states, labels) && Init(states[0]) && i <= |labels|
    ensures states[i].amf == After(EventsTo(states, labels, i))
  {
    hide Step, Init, React, EventOf, After;
    if i == 0 {
      AmfStartsEmpty(states[0]);
    } else {
      AmfFollowsEvents(states, labels, i - 1);
      AmfStepReacts(states[i - 1], labels[i - 1], states[i]);
      var e := EventOf(states[i - 1], labels[i - 1]);
      var before := EventsTo(states, labels, i - 1);
      if e.Some? {
        AfterOne(before, e.value);
        assert EventsTo(states, labels, i) == before + [e.value];
      } else {
        assert EventsTo(states, labels, i) == before + [] == before;
      }
    }
  }

  lemma AmfStartsEmpty(s: State)
    requires Init(s)
    ensures s.amf == After([]) && s.updates == {}
  {
  }

  /** So it holds `ref` for `imsi` exactly when that is what it was told last. */
  lemma AmfHoldsLastTold(states: seq<State>, labels: seq<Label>, i: nat, imsi: string, ref: string)
    requires Run(states, labels) && Init(states[0]) && i <= |labels|
    ensures imsi in states[i].amf && states[i].amf[imsi] == ref <==> LastTold(EventsTo(states, labels, i), imsi, ref)
  {
    hide Step, Init, LastTold, EventsTo;
    AmfFollowsEvents(states, labels, i);
    LatestReferenceWins(EventsTo(states, labels, i), imsi, ref);
  }

  /** The `j`th step handles a callback, not of a failure, whose IMSI was told `m.0` last. */
  ghost predicate Starts(states: seq<State>, labels: seq<Label>, j: nat, m: (string, string))
    requires |states| == |labels| + 1 && j < |labels|
  {
    && labels[j].LAmfHandles? && labels[j].c.imsi == m.1 && m.1 != "" && labels[j].c.body.status != "FAILED"
    && LastTold(EventsTo(states, labels, j), m.1, m.0)
  }

  lemma UpdatesGain(states: seq<State>, labels: seq<Label>, j: nat, m: (string, string))
    requires Run(states, labels) && Init(states[0]) && j < |labels|
    ensures m in states[j + 1].updates <==> m in states[j].updates || Starts(states, labels, j, m)
  {
    hide Step, Init, LastTold, EventsTo;
    AmfHoldsLastTold(states, labels, j, m.1, m.0);
    if labels[j].LAmfHandles? {
      HandlesLabel(states[j], labels[j], states[j + 1]);
      HandlesReacts(states[j], states[j + 1], labels[j].c);
    } else {
      SameAnswers(states[j], labels[j], states[j + 1]);
    }
  }

  lemma HandlesLabel(s: State, l: Label, t: State)
    requires Step(s, l, t) && l.LAmfHandles?
    ensures AmfHandles(s, t, l.c)
  {
    hide AmfHandles;
  }

  /** Over every run, the modify calls are exactly those started by handled callbacks that are not failures,
      each for the reference the AMF was told last for the callback's IMSI. */
  lemma {:induction false} UpdatesComeFromCallbacks(states: seq<State>, labels: seq<Label>, i: nat, m: (string, string))
    requires Run(states, labels) && Init(states[0]) && i <= |labels|
    ensures m in states[i].updates <==> exists j :: 0 <= j < i && Starts(states, labels, j, m)
  {
    hide Step, Init, Starts;
    if i == 0 {
      AmfStartsEmpty(states[0]);
    } else {
      UpdatesComeFromCallbacks(states, labels, i - 1, m);
      UpdatesGain(states, labels, i - 1, m);
    }
  }
}

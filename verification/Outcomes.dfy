/** How an establishment ends, in terms of what the job meets: which stage decides, what is stored, which
    number is used, and what the AMF is told. */
module Outcomes {
  import opened Address
  import opened AmfHandler
  import opened Bytes
  import opened Codec
  import opened FailureReason
  import opened Orchestrator
  import opened PfcpClient
  import opened SmContext
  import opened Wrappers
  import Repository
  import System

  // ----- the four stages -----

  predicate PassesSave(o: Outside) {
    o.saveError == None
  }

  /** The UDM answers 200 with exactly the subscription of the job. */
  predicate PassesUdm(job: Job, o: Outside) {
    && o.udm.UdmAnswered? && o.udm.code == 200 && o.udm.body.Ok?
    && o.udm.body.value.dnn == job.profile.dnn && o.udm.body.value.sst == job.profile.sst
    && o.udm.body.value.sd == job.profile.sd
  }

  /** Some datagram handled while the call waits is the first reply to its number, with this verdict. */
  ghost predicate FirstReplySays(o: Outside, n: U32, accepted: bool) {
    var handled := Order([], o.turns);
    exists i :: 0 <= i < |handled| && IsFirstReply(handled, n, i)
                && (DecodedResponse(handled[i]).value.cause == 1 <==> accepted)
  }

  ghost predicate PassesUpf(job: Job, n: U32, o: Outside) {
    ParseTo4(job.ip, o.v6).Some? && o.writeError == None && !o.expired && FirstReplySays(o, n, true)
  }

  predicate PassesAmf(o: Outside) {
    o.amf.AmfAnswered? && o.amf.code == 200
  }

  ghost predicate PassesAll(job: Job, n: U32, o: Outside) {
    PassesSave(o) && PassesUdm(job, o) && PassesUpf(job, n, o) && PassesAmf(o)
  }

  /** There is at most one first reply. */
  lemma OneFirstReply(handled: seq<Datagram>, n: U32, i: nat, j: nat)
    requires IsFirstReply(handled, n, i) && IsFirstReply(handled, n, j)
    ensures i == j
  {
  }

  lemma VerdictOfReply(o: Outside, n: U32)
    ensures var first := FirstReply(Order([], o.turns), n);
            && (FirstReplySays(o, n, true) <==> first != [] && first[0].cause == 1)
            && (FirstReplySays(o, n, false) <==> first != [] && first[0].cause != 1)
  {
    var handled := Order([], o.turns);
    FirstReplyIsFirst(handled, n);
    CallSucceedsOnOwnReply(handled, n);
    var first := FirstReply(handled, n);
    if first != [] {
      var i :| 0 <= i < |handled| && IsFirstReply(handled, n, i) && first == [DecodedResponse(handled[i]).value];
      forall j | 0 <= j < |handled| && IsFirstReply(handled, n, j) ensures j == i {
        OneFirstReply(handled, n, i, j);
      }
    }
  }

  /** The PFCP call fails exactly unless the UPF's first reply accepts in time, and says why. */
  lemma UpfDecides(job: Job, n: U32, o: Outside)
    ensures PfcpError(job.ip, n, o) ==
      if PassesUpf(job, n, o) then None
      else Some(PfcpFailed(
        if ParseTo4(job.ip, o.v6).None? then "invalid IPv4 address"
        else if o.writeError.Some? then o.writeError.value
        else if !o.expired && FirstReplySays(o, n, false) then "PFCP session establishment rejected by UPF"
        else "timeout waiting for PFCP session establishment response"))
  {
    hide FirstReplySays;
    VerdictOfReply(o, n);
  }

  lemma UdmDecides(job: Job, o: Outside)
    ensures UdmError(job.profile, o.udm) == None <==> PassesUdm(job, o)
    ensures UdmError(job.profile, o.udm).Some? ==> System.IsUdmError(UdmError(job.profile, o.udm).value)
  {
  }

  /** Which error the UDM's answer amounts to. */
  lemma UdmErrorKind(job: Job, udm: UdmReply)
    ensures var e := UdmError(job.profile, udm);
            match udm
            case UdmNotAsked(inner) => e == Some(UdmRequestFailed(inner))
            case UdmSilent(inner) => e == Some(UdmUnreachable(inner))
            case UdmAnswered(code, body) =>
              && (code == 404 <==> e == Some(UdmNotFound))
              && (code != 200 && code != 404 <==> e == Some(UdmStatus(code)))
              && (code == 200 && body.Err? <==> e.Some? && e.value.UdmDecodeFailed?)
              && (code == 200 && body.Err? ==> e.value.inner == body.error)
              && (code == 200 && body.Ok?
                  && (body.value.dnn != job.profile.dnn || body.value.sst != job.profile.sst
                      || body.value.sd != job.profile.sd)
                  <==> e == Some(UdmMismatch))
  {
  }

  /** Which error the AMF's answer amounts to. */
  lemma AmfErrorKind(amf: AmfReply)
    ensures var e := AmfError(amf);
            match amf
            case AmfNotAsked(inner) => e == Some(N1N2NotBuilt(inner))
            case AmfSilent(inner) => e == Some(N1N2Failed(inner))
            case AmfAnswered(code, status) =>
              (code == 200 <==> e == None) && (code != 200 ==> e == Some(AmfStatus(code, status)))
  {
  }

  /** A job succeeds exactly when it passes all four stages; otherwise the first one it does not pass names
      the error. */
  lemma FirstFailedStageDecides(job: Job, n: U32, o: Outside)
    ensures var err := Fate(job, n, o);
            && (err == None <==> PassesAll(job, n, o))
            && (err.Some? && err.value.SaveFailed? <==> !PassesSave(o))
            && (err.Some? && System.IsUdmError(err.value) <==> PassesSave(o) && !PassesUdm(job, o))
            && (err.Some? && err.value.PfcpFailed? <==> PassesSave(o) && PassesUdm(job, o) && !PassesUpf(job, n, o))
            && (err.Some? && System.IsCallError(err.value) <==>
                  PassesSave(o) && PassesUdm(job, o) && PassesUpf(job, n, o) && !PassesAmf(o))
  {
    hide PassesUdm, PassesUpf, PfcpError, UdmError;
    UpfDecides(job, n, o);
    UdmDecides(job, o);
  }

  // ----- the reason a failure is filed under -----

  ghost function UdmReason(udm: UdmReply): string {
    match udm
    case UdmNotAsked(inner) => ReasonOf(inner)
    case UdmSilent(inner) => ReasonOf(inner)
    case UdmAnswered(code, body) =>
      if code == 200 && body.Err? then ReasonOf(body.error) else "E2E_ESTABLISHMENT_FAILED"
  }

  ghost function AmfReason(amf: AmfReply): string {
    match amf
    case AmfNotAsked(inner) => ReasonOf(inner)
    case AmfSilent(inner) => if Contains(inner, "PFCP") then "PFCP_TIMEOUT" else "N1N2_FAILED"
    case AmfAnswered(_, status) => if Contains(status, "PFCP") then "PFCP_TIMEOUT" else "N1N2_FAILED"
  }

  ghost function Reason(job: Job, n: U32, o: Outside): string {
    if !PassesUdm(job, o) then UdmReason(o.udm)
    else if !PassesUpf(job, n, o) then "PFCP_TIMEOUT"
    else AmfReason(o.amf)
  }

  lemma UdmFiled(job: Job, o: Outside)
    requires !PassesUdm(job, o)
    ensures UdmError(job.profile, o.udm).Some?
    ensures ReasonOf(Text(UdmError(job.profile, o.udm).value)) == UdmReason(o.udm)
  {
    hide ReasonOf, Text;
    match o.udm
    case UdmNotAsked(inner) => UdmRequestReason(inner);
    case UdmSilent(inner) => UdmUnreachableReason(inner);
    case UdmAnswered(code, body) =>
      if code == 404 {
        UdmNotFoundReason();
      } else if code != 200 {
        UdmStatusReason(code);
      } else if body.Err? {
        UdmDecodeReason(body.error);
      } else {
        UdmMismatchReason();
      }
  }

  lemma AmfFiled(o: Outside)
    requires !PassesAmf(o)
    ensures AmfError(o.amf).Some? && ReasonOf(Text(AmfError(o.amf).value)) == AmfReason(o.amf)
  {
    hide ReasonOf;
    match o.amf
    case AmfNotAsked(inner) =>
    case AmfSilent(inner) => hide Text; N1N2FailureReason(inner);
    case AmfAnswered(code, status) => hide Text; AmfStatusReason(code, status);
  }

  lemma FiledAs(job: Job, n: U32, o: Outside)
    requires PassesSave(o) && !PassesAll(job, n, o)
    ensures Fate(job, n, o).Some? && ReasonOf(Text(Fate(job, n, o).value)) == Reason(job, n, o)
  {
    hide ReasonOf, Text, PassesUdm, PassesUpf, PassesAmf, PfcpError, UdmError, AmfError, UdmReason, AmfReason;
    UpfDecides(job, n, o);
    UdmDecides(job, o);
    if !PassesUdm(job, o) {
      UdmFiled(job, o);
    } else if !PassesUpf(job, n, o) {
      PfcpFailureReason(PfcpError(job.ip, n, o).value.inner);
    } else {
      AmfFiled(o);
    }
  }

  // ----- what is stored -----

  /** The session is the job's own, field by field. */
  predicate OwnSession(x: Repository.Session, job: Job) {
    && x.ref == job.ref && x.supi == job.supi && x.gpsi == job.profile.gpsi
    && x.pduSessionId == job.profile.pduSessionId && x.dnn == job.profile.dnn
    && x.sst == job.profile.sst && x.sd == job.profile.sd
    && x.servingNfId == job.profile.servingNfId && x.anType == job.profile.anType
  }

  /** What the repository has to show for a job that met `o` and used number `n`. */
  ghost predicate Recorded(t: Repository.Table, job: Job, n: U32, o: Outside) {
    if !PassesSave(o) then job.ref !in t
    else
      && job.ref in t
      && var x := t[job.ref];
         && OwnSession(x, job) && x.createdAt == o.savedAt
         && x.ipAddress == (if PassesUdm(job, o) && PassesUpf(job, n, o) then job.ip else "")
         && if PassesAll(job, n, o)
            then x.status == Repository.ACTIVE && x.failureReason == "" && x.updatedAt == o.activeAt
            else x.status == Repository.FAILED && x.failureReason == Reason(job, n, o) && x.updatedAt == o.failedAt
  }

  /** One job, from the outside: the record, the counters, the call and the notice. */
  lemma WorkRecords(b: Books, job: Job, o: Outside)
    requires job.ref !in b.repo
    ensures var n, u := (b.calls + 1) % 0x1_0000_0000, Work(b, job, o);
            && Recorded(u.repo, job, n, o)
            && u.calls == (if PassesSave(o) && PassesUdm(job, o) then n else b.calls)
            && (u.success == Add64(b.success, 1) && u.fail == b.fail <==> PassesAll(job, n, o))
            && (u.fail == Add64(b.fail, 1) && u.success == b.success <==> !PassesAll(job, n, o))
            && |u.notices| == |b.notices| + (if PassesSave(o) && !PassesAll(job, n, o) then 1 else 0)
            && (PassesSave(o) && !PassesAll(job, n, o) ==>
                  && Fate(job, n, o).Some? && var m := u.notices[|b.notices|].1;
                     && m.message == Text(Fate(job, n, o).value) && m.cause == Reason(job, n, o)
                     && TellsOf(u.notices[|b.notices|], job))
  {
    hide ReasonOf, Text, PassesUdm, PassesUpf, PassesAmf, PfcpError, UdmError, AmfError, UdmReason, AmfReason,
      Reason, Fate;
    var n := Inc32(b.calls);
    FirstFailedStageDecides(job, n, o);
    UdmDecides(job, o);
    if PassesSave(o) && !PassesAll(job, n, o) {
      FiledAs(job, n, o);
    }
  }

  // ----- a drained queue -----

  /** How many of the jobs get as far as the PFCP call. */
  function CallCount(jobs: seq<Job>, os: seq<Outside>): nat
    requires |os| == |jobs|
  {
    if jobs == [] then 0
    else
      var n := |jobs| - 1;
      CallCount(jobs[..n], os[..n]) + if PassesSave(os[n]) && PassesUdm(jobs[n], os[n]) then 1 else 0
  }

  /** The number job `i` uses if it gets that far: one more than the calls before it. */
  function NumberOf(first: U32, jobs: seq<Job>, os: seq<Outside>, i: nat): U32
    requires |os| == |jobs| && i <= |jobs|
  {
    (first + CallCount(jobs[..i], os[..i]) + 1) % 0x1_0000_0000
  }

  lemma NextCall(calls: U32, first: U32, n: nat, more: bool)
    requires calls == (first + n) % 0x1_0000_0000
    ensures (calls + 1) % 0x1_0000_0000 == (first + n + 1) % 0x1_0000_0000
    ensures (if more then (calls + 1) % 0x1_0000_0000 else calls)
         == (first + (n + if more then 1 else 0)) % 0x1_0000_0000
  {
    var q := (first + n) / 0x1_0000_0000;
    assert first + n + 1 == q * 0x1_0000_0000 + (calls + 1);
    if calls + 1 == 0x1_0000_0000 {
      assert first + n + 1 == (q + 1) * 0x1_0000_0000;
    }
  }

  /** The numbers of a drained queue run on without a gap. */
  lemma {:induction false} WorkAllNumbers(b: Books, jobs: seq<Job>, os: seq<Outside>)
    requires |os| == |jobs|
    ensures WorkAll(b, jobs, os).calls == (b.calls + CallCount(jobs, os)) % 0x1_0000_0000
  {
    hide Work, PassesUdm;
    if jobs == [] {
    } else {
      var n := |jobs| - 1;
      var before := WorkAll(b, jobs[..n], os[..n]);
      WorkAllNumbers(b, jobs[..n], os[..n]);
      WorkCalls(before, jobs[n], os[n]);
      NextCall(before.calls, b.calls, CallCount(jobs[..n], os[..n]), PassesSave(os[n]) && PassesUdm(jobs[n], os[n]));
    }
  }

  lemma WorkCalls(b: Books, job: Job, o: Outside)
    ensures Work(b, job, o).calls
         == if PassesSave(o) && PassesUdm(job, o) then (b.calls + 1) % 0x1_0000_0000 else b.calls
  {
    hide Fate, UdmError, PassesUdm, ReasonOf, Text;
    UdmDecides(job, o);
  }

  lemma RecordedUntouched(t: Repository.Table, u: Repository.Table, job: Job, n: U32, o: Outside)
    requires Untouched(t, u, job.ref) && Recorded(t, job, n, o)
    ensures Recorded(u, job, n, o)
  {
    hide PassesUdm, PassesUpf, PassesAmf, Reason;
  }

  lemma NumberOfFront(first: U32, jobs: seq<Job>, os: seq<Outside>, i: nat)
    requires |os| == |jobs| && i < |jobs|
    ensures NumberOf(first, jobs, os, i) == NumberOf(first, jobs[..|jobs| - 1], os[..|os| - 1], i)
  {
    var n := |jobs| - 1;
    assert jobs[..n][..i] == jobs[..i] && os[..n][..i] == os[..i];
  }

  /** After a drained queue the repository shows, for every job, exactly what the job met says. */
  lemma {:induction false} WorkAllRecords(b: Books, jobs: seq<Job>, os: seq<Outside>)
    requires |os| == |jobs| && FreshJobs(b.repo, jobs)
    ensures forall i | 0 <= i < |jobs| ::
      Recorded(WorkAll(b, jobs, os).repo, jobs[i], NumberOf(b.calls, jobs, os, i), os[i])
  {
    hide Fate, Work, FreshJobs, Recorded, NumberOf;
    if jobs == [] {
    } else {
      var n := |jobs| - 1;
      var before := WorkAll(b, jobs[..n], os[..n]);
      FreshFront(b.repo, jobs);
      WorkAllRecords(b, jobs[..n], os[..n]);
      LastStaysFresh(b, jobs, os);
      WorkSettles(before, jobs[n], os[n]);
      WorkRecords(before, jobs[n], os[n]);
      LastNumber(b, jobs, os);
      forall i | 0 <= i < |jobs|
        ensures Recorded(WorkAll(b, jobs, os).repo, jobs[i], NumberOf(b.calls, jobs, os, i), os[i])
      {
        NumberOfFront(b.calls, jobs, os, i);
        if i < n {
          assert jobs[..n][i] == jobs[i] && os[..n][i] == os[i];
          RecordedUntouched(before.repo, WorkAll(b, jobs, os).repo, jobs[i], NumberOf(b.calls, jobs, os, i), os[i]);
        }
      }
    }
  }

  lemma LastNumber(b: Books, jobs: seq<Job>, os: seq<Outside>)
    requires |os| == |jobs| && jobs != []
    ensures (WorkAll(b, jobs[..|jobs| - 1], os[..|os| - 1]).calls + 1) % 0x1_0000_0000
         == NumberOf(b.calls, jobs, os, |jobs| - 1)
  {
    hide Work, WorkAll, CallCount;
    var n := |jobs| - 1;
    WorkAllNumbers(b, jobs[..n], os[..n]);
    NextCall(WorkAll(b, jobs[..n], os[..n]).calls, b.calls, CallCount(jobs[..n], os[..n]), true);
  }

  /** And the latency sum is what the jobs took. */
  function Micros(os: seq<Outside>): nat {
    if os == [] then 0 else Micros(os[..|os| - 1]) + os[|os| - 1].micros
  }

  lemma {:induction false} WorkAllLatency(b: Books, jobs: seq<Job>, os: seq<Outside>)
    requires |os| == |jobs|
    ensures WorkAll(b, jobs, os).latency == (b.latency + Micros(os)) % TWO_64
  {
    hide Work;
    if jobs == [] {
    } else {
      var n := |jobs| - 1;
      var before := WorkAll(b, jobs[..n], os[..n]);
      WorkAllLatency(b, jobs[..n], os[..n]);
      WorkLatency(before, jobs[n], os[n]);
      WrapPart(os[n].micros, b.latency + Micros(os[..n]));
    }
  }

  lemma WorkLatency(b: Books, job: Job, o: Outside)
    ensures Work(b, job, o).latency == Add64(b.latency, o.micros)
  {
    hide Fate, Established, ReasonOf, Text;
  }
}

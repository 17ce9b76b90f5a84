/** The orchestrator and the request handler as they run on the heap: admission, one worker, and what the
    outside world does to each job taken as input. The interleaving of several workers is the subject of
    System; here each method is tied to a function of the whole books, and the books of a drained queue
    are compared with what System says about settled jobs. */
module Orchestrator {
  import opened Address
  import opened AmfHandler
  import opened Bytes
  import opened Codec
  import opened FailureReason
  import opened InMemoryRepository
  import opened PfcpClient
  import opened SmContext
  import opened Wrappers
  import Repository
  import System
  import SystemInvariant

  // ----- the outside world during one job -----

  datatype Subscription = Subscription(dnn: string, sst: int, sd: string)

  datatype UdmReply =
    | UdmNotAsked(inner: string)
    | UdmSilent(inner: string)
    | UdmAnswered(code: nat, body: Result<Subscription, string>)

  datatype AmfReply =
    | AmfNotAsked(inner: string)
    | AmfSilent(inner: string)
    | AmfAnswered(code: nat, status: string)

  /** What a job meets: a repository that may refuse the save, the answers of UDM and AMF, the datagrams
      that come in while it waits for the UPF, and the clock. */
  datatype Outside = Outside(
    saveError: Option<string>, udm: UdmReply,
    v6: V6Reader, writeError: Option<string>, turns: seq<Turn>, expired: bool,
    amf: AmfReply, micros: U64, savedAt: int, activeAt: int, failedAt: int)

  // ----- what becomes of a job -----

  function UdmError(profile: Profile, reply: UdmReply): Option<StageError> {
    match reply
    case UdmNotAsked(inner) => Some(UdmRequestFailed(inner))
    case UdmSilent(inner) => Some(UdmUnreachable(inner))
    case UdmAnswered(code, body) =>
      if code == 404 then Some(UdmNotFound)
      else if code != 200 then Some(UdmStatus(code))
      else match body
        case Err(inner) => Some(UdmDecodeFailed(inner))
        case Ok(sub) => if sub == Subscription(profile.dnn, profile.sst, profile.sd) then None else Some(UdmMismatch)
  }

  /** The PFCP call for address `ip` under sequence number `n`. */
  function PfcpError(ip: string, n: U32, o: Outside): Option<StageError> {
    if ParseTo4(ip, o.v6).None? then Some(PfcpFailed("invalid IPv4 address"))
    else if o.writeError.Some? then Some(PfcpFailed(o.writeError.value))
    else match OutcomeOf(FirstReply(Order([], o.turns), n), o.expired)
      case Ok(_) => None
      case Err(e) =>
        Some(PfcpFailed(if e == Rejected then "PFCP session establishment rejected by UPF"
                        else "timeout waiting for PFCP session establishment response"))
  }

  function AmfError(reply: AmfReply): Option<StageError> {
    match reply
    case AmfNotAsked(inner) => Some(N1N2NotBuilt(inner))
    case AmfSilent(inner) => Some(N1N2Failed(inner))
    case AmfAnswered(code, status) => if code != 200 then Some(AmfStatus(code, status)) else None
  }

  /** The job gets as far as the PFCP call. */
  predicate Calls(job: Job, o: Outside) {
    o.saveError.None? && UdmError(job.profile, o.udm).None?
  }

  /** How the job ends when its PFCP call, if any, has sequence number `n`. */
  function Fate(job: Job, n: U32, o: Outside): Option<StageError> {
    if o.saveError.Some? then Some(SaveFailed(o.saveError.value))
    else if UdmError(job.profile, o.udm).Some? then UdmError(job.profile, o.udm)
    else if PfcpError(job.ip, n, o).Some? then PfcpError(job.ip, n, o)
    else AmfError(o.amf)
  }

  lemma ErrorStages(job: Job, n: U32, o: Outside)
    ensures UdmError(job.profile, o.udm).Some? ==>
      !UdmError(job.profile, o.udm).value.SaveFailed? && !System.IsCallError(UdmError(job.profile, o.udm).value)
    ensures PfcpError(job.ip, n, o).Some? ==> PfcpError(job.ip, n, o).value.PfcpFailed?
    ensures AmfError(o.amf).Some? ==> System.IsCallError(AmfError(o.amf).value)
  {
  }

  /** The repository when the establishment returns. */
  function Established(t: Repository.Table, job: Job, err: Option<StageError>, o: Outside): Repository.Table {
    if err.Some? && err.value.SaveFailed? then t
    else
      var saved := Repository.Save(t, NewSession(job), o.savedAt);
      if err.None? || System.IsCallError(err.value)
      then Repository.SetIP(saved, job.ref, Repository.ACTIVE, job.ip, o.activeAt)
      else saved
  }

  /** Everything a worker changes; `notices` are the failure callbacks it sent. */
  datatype Books = Books(
    repo: Repository.Table, calls: U32, success: U64, fail: U64, tps: U64, latency: U64,
    notices: seq<(string, Transfer)>)

  function FailureNotice(t: Repository.Table, ref: string, supi: string, cause: string, message: string)
    : seq<(string, Transfer)>
  {
    if ref in t then [(supi, FailureTransfer(ref, t[ref], cause, message))] else []
  }

  /** Marking a session changes nothing a callback repeats. */
  lemma NoticeAfter(t: Repository.Table, ref: string, supi: string, reason: string, message: string, now: int)
    ensures FailureNotice(Repository.SetReason(t, ref, Repository.FAILED, reason, now), ref, supi, reason, message)
         == FailureNotice(t, ref, supi, reason, message)
  {
  }

  ghost function Work(b: Books, job: Job, o: Outside): Books {
    var err := Fate(job, Inc32(b.calls), o);
    var repo := Established(b.repo, job, err, o);
    var timed := b.(repo := repo, calls := if Calls(job, o) then Inc32(b.calls) else b.calls,
                    latency := Add64(b.latency, o.micros), tps := Add64(b.tps, 1));
    match err
    case None => timed.(success := Add64(b.success, 1))
    case Some(e) =>
      var reason := ReasonOf(Text(e));
      timed.(fail := Add64(b.fail, 1),
             repo := Repository.SetReason(repo, job.ref, Repository.FAILED, reason, o.failedAt),
             notices := b.notices + FailureNotice(repo, job.ref, job.supi, reason, Text(e)))
  }

  ghost function WorkAll(b: Books, jobs: seq<Job>, os: seq<Outside>): Books
    requires |os| == |jobs|
  {
    if jobs == [] then b
    else Work(WorkAll(b, jobs[..|jobs| - 1], os[..|os| - 1]), jobs[|jobs| - 1], os[|os| - 1])
  }

  lemma WorkAllNone(b: Books)
    ensures WorkAll(b, [], []) == b
  {
  }

  lemma WorkAllNext(b: Books, jobs: seq<Job>, os: seq<Outside>, i: nat)
    requires |os| == |jobs| && i < |jobs|
    ensures WorkAll(b, jobs[..i + 1], os[..i + 1]) == Work(WorkAll(b, jobs[..i], os[..i]), jobs[i], os[i])
  {
    assert jobs[..i + 1][..i] == jobs[..i] && os[..i + 1][..i] == os[..i];
  }

  /** How each job of the queue ends. */
  ghost function Fates(b: Books, jobs: seq<Job>, os: seq<Outside>): (r: seq<Option<StageError>>)
    requires |os| == |jobs|
    ensures |r| == |jobs|
  {
    if jobs == [] then []
    else
      var n := |jobs| - 1;
      Fates(b, jobs[..n], os[..n]) + [Fate(jobs[n], Inc32(WorkAll(b, jobs[..n], os[..n]).calls), os[n])]
  }

  // ----- a drained queue -----

  /** One job: its session ends up as System has it for a settled job, and no other session changes. */
  lemma WorkSettles(b: Books, job: Job, o: Outside)
    requires job.ref !in b.repo
    ensures SystemInvariant.Stands(Work(b, job, o).repo, job.ref, job.ip,
              SystemInvariant.StandingOf(System.Settled(Fate(job, Inc32(b.calls), o)), []))
    ensures forall r | r != job.ref :: Untouched(b.repo, Work(b, job, o).repo, r)
  {
    hide ReasonOf, Text;
  }

  ghost predicate Untouched(t: Repository.Table, u: Repository.Table, ref: string) {
    (ref in u <==> ref in t) && (ref in t ==> u[ref] == t[ref])
  }

  ghost predicate FreshJobs(t: Repository.Table, jobs: seq<Job>) {
    && (forall i | 0 <= i < |jobs| :: jobs[i].ref !in t)
    && (forall i, j | 0 <= i < j < |jobs| :: jobs[i].ref != jobs[j].ref)
  }

  lemma StandsUntouched(t: Repository.Table, u: Repository.Table, ref: string, ip: string, st: SystemInvariant.Standing)
    requires Untouched(t, u, ref)
    ensures SystemInvariant.Stands(t, ref, ip, st) <==> SystemInvariant.Stands(u, ref, ip, st)
  {
  }

  lemma FreshFront(t: Repository.Table, jobs: seq<Job>)
    requires FreshJobs(t, jobs) && jobs != []
    ensures FreshJobs(t, jobs[..|jobs| - 1])
    ensures forall i | 0 <= i < |jobs| - 1 :: jobs[i].ref != jobs[|jobs| - 1].ref
  {
  }

  /** The repository shows job `i` the way its fate says. */
  ghost predicate ShowsFate(u: Repository.Table, b: Books, jobs: seq<Job>, os: seq<Outside>, i: nat)
    requires |os| == |jobs| && i < |jobs|
  {
    SystemInvariant.Stands(u, jobs[i].ref, jobs[i].ip,
      SystemInvariant.StandingOf(System.Settled(Fates(b, jobs, os)[i]), []))
  }

  lemma ShowsFateLater(t: Repository.Table, u: Repository.Table, b: Books, jobs: seq<Job>, os: seq<Outside>, i: nat)
    requires |os| == |jobs| && i < |jobs| - 1 && Untouched(t, u, jobs[i].ref)
    requires ShowsFate(t, b, jobs[..|jobs| - 1], os[..|os| - 1], i)
    ensures ShowsFate(u, b, jobs, os, i)
  {
    hide SystemInvariant.Stands, SystemInvariant.StandingOf, Fate;
    StandsUntouched(t, u, jobs[i].ref, jobs[i].ip,
      SystemInvariant.StandingOf(System.Settled(Fates(b, jobs, os)[i]), []));
  }

  /** Every job of the queue is settled in its own session, by its own fate, and nothing else changes. */
  lemma {:induction false} WorkAllSettles(b: Books, jobs: seq<Job>, os: seq<Outside>)
    requires |os| == |jobs| && FreshJobs(b.repo, jobs)
    ensures forall i | 0 <= i < |jobs| :: ShowsFate(WorkAll(b, jobs, os).repo, b, jobs, os, i)
    ensures forall r | (forall i | 0 <= i < |jobs| :: jobs[i].ref != r) ::
      Untouched(b.repo, WorkAll(b, jobs, os).repo, r)
  {
    hide SystemInvariant.Stands, SystemInvariant.StandingOf, Fate, Work, FreshJobs;
    if jobs == [] {
    } else {
      var n := |jobs| - 1;
      var front, rest := jobs[..n], os[..n];
      var before, after := WorkAll(b, front, rest), WorkAll(b, jobs, os);
      FreshFront(b.repo, jobs);
      WorkAllSettles(b, front, rest);
      LastIsFresh(b.repo, jobs);
      assert Untouched(b.repo, before.repo, jobs[n].ref);
      WorkSettles(before, jobs[n], os[n]);
      forall i | 0 <= i < |jobs| ensures ShowsFate(after.repo, b, jobs, os, i) {
        if i < n {
          ShowsFateLater(before.repo, after.repo, b, jobs, os, i);
        }
      }
      forall r | (forall i | 0 <= i < |jobs| :: jobs[i].ref != r) ensures Untouched(b.repo, after.repo, r) {
        assert forall i | 0 <= i < |front| :: front[i] == jobs[i];
        assert Untouched(b.repo, before.repo, r) && Untouched(before.repo, after.repo, r);
      }
    }
  }

  lemma LastIsFresh(t: Repository.Table, jobs: seq<Job>)
    requires FreshJobs(t, jobs) && jobs != []
    ensures jobs[|jobs| - 1].ref !in t
  {
  }

  // ----- the counters and the notices of a drained queue -----

  predicate Succeeded(err: Option<StageError>) {
    err.None?
  }

  predicate Failed(err: Option<StageError>) {
    err.Some?
  }

  /** The job failed after its session was saved. */
  predicate FailedSaved(err: Option<StageError>) {
    err.Some? && !err.value.SaveFailed?
  }

  ghost function StatusCount(t: Repository.Table, status: Repository.Status): nat {
    |Repository.WithStatus(t, {status})|
  }

  /** What one job does to the two status counts. */
  lemma WorkCounts(b: Books, job: Job, o: Outside)
    requires job.ref !in b.repo
    ensures var err := Fate(job, Inc32(b.calls), o);
            var u := Work(b, job, o).repo;
            && StatusCount(u, Repository.ACTIVE)
               == StatusCount(b.repo, Repository.ACTIVE) + (if Succeeded(err) then 1 else 0)
            && StatusCount(u, Repository.FAILED)
               == StatusCount(b.repo, Repository.FAILED) + (if FailedSaved(err) then 1 else 0)
  {
    hide ReasonOf, Text, Fate, Repository.WithStatus;
    var err, u := Fate(job, Inc32(b.calls), o), Work(b, job, o).repo;
    if err.None? || !err.value.SaveFailed? {
      assert u == b.repo[job.ref := u[job.ref]];
      Repository.StatusCountUpdate(b.repo, job.ref, u[job.ref], {Repository.ACTIVE});
      Repository.StatusCountUpdate(b.repo, job.ref, u[job.ref], {Repository.FAILED});
    } else {
      assert u == b.repo;
    }
  }

  lemma Tallied(base: U64, n: nat, counter: U64, hit: bool)
    requires counter == (base + n) % TWO_64
    ensures (if hit then Add64(counter, 1) else counter) == (base + (n + if hit then 1 else 0)) % TWO_64
  {
    NextWraps(base + n);
  }

  /** One more job moves the counters by its fate. */
  lemma TalliesStep(b: Books, before: Books, job: Job, o: Outside, succeeded: nat, failed: nat, n: nat)
    requires before.success == (b.success + succeeded) % TWO_64
    requires before.fail == (b.fail + failed) % TWO_64
    requires before.tps == (b.tps + n) % TWO_64
    ensures var err, u := Fate(job, Inc32(before.calls), o), Work(before, job, o);
            && u.success == (b.success + (succeeded + if Succeeded(err) then 1 else 0)) % TWO_64
            && u.fail == (b.fail + (failed + if Failed(err) then 1 else 0)) % TWO_64
            && u.tps == (b.tps + (n + 1)) % TWO_64
  {
    hide Fate, Work, Add64, Inc32;
    var err := Fate(job, Inc32(before.calls), o);
    WorkTallies(before, job, o);
    Tallied(b.success, succeeded, before.success, Succeeded(err));
    Tallied(b.fail, failed, before.fail, Failed(err));
    Tallied(b.tps, n, before.tps, true);
  }

  /** The counters count the fates. */
  lemma {:induction false} WorkAllTallies(b: Books, jobs: seq<Job>, os: seq<Outside>)
    requires |os| == |jobs|
    ensures var u, fates := WorkAll(b, jobs, os), Fates(b, jobs, os);
            && u.success == (b.success + SystemInvariant.Count(fates, Succeeded)) % TWO_64
            && u.fail == (b.fail + SystemInvariant.Count(fates, Failed)) % TWO_64
            && u.tps == (b.tps + |jobs|) % TWO_64
  {
    hide Fate, Work;
    if jobs == [] {
    } else {
      var n := |jobs| - 1;
      var front, rest := jobs[..n], os[..n];
      var before, fates := WorkAll(b, front, rest), Fates(b, front, rest);
      WorkAllTallies(b, front, rest);
      var err := Fate(jobs[n], Inc32(before.calls), os[n]);
      SystemInvariant.CountAppend(fates, err, Succeeded);
      SystemInvariant.CountAppend(fates, err, Failed);
      TalliesStep(b, before, jobs[n], os[n], SystemInvariant.Count(fates, Succeeded),
        SystemInvariant.Count(fates, Failed), n);
    }
  }

  /** The repository gains one ACTIVE session for each success and one FAILED session for each failure but
      the failed saves. */
  lemma {:induction false} WorkAllCounts(b: Books, jobs: seq<Job>, os: seq<Outside>)
    requires |os| == |jobs| && FreshJobs(b.repo, jobs)
    ensures var u, fates := WorkAll(b, jobs, os).repo, Fates(b, jobs, os);
            && StatusCount(u, Repository.ACTIVE)
               == StatusCount(b.repo, Repository.ACTIVE) + SystemInvariant.Count(fates, Succeeded)
            && StatusCount(u, Repository.FAILED)
               == StatusCount(b.repo, Repository.FAILED) + SystemInvariant.Count(fates, FailedSaved)
  {
    hide Fate, Work, FreshJobs, StatusCount;
    if jobs == [] {
    } else {
      var n := |jobs| - 1;
      var front, rest := jobs[..n], os[..n];
      var before, fates := WorkAll(b, front, rest), Fates(b, front, rest);
      FreshFront(b.repo, jobs);
      WorkAllCounts(b, front, rest);
      LastStaysFresh(b, jobs, os);
      WorkCounts(before, jobs[n], os[n]);
      var err := Fate(jobs[n], Inc32(before.calls), os[n]);
      SystemInvariant.CountAppend(fates, err, Succeeded);
      SystemInvariant.CountAppend(fates, err, FailedSaved);
    }
  }

  lemma LastStaysFresh(b: Books, jobs: seq<Job>, os: seq<Outside>)
    requires |os| == |jobs| && FreshJobs(b.repo, jobs) && jobs != []
    ensures jobs[|jobs| - 1].ref !in WorkAll(b, jobs[..|jobs| - 1], os[..|os| - 1]).repo
  {
    hide Fate, Work, FreshJobs, WorkAll, Fates, ShowsFate;
    FreshFront(b.repo, jobs);
    WorkAllSettles(b, jobs[..|jobs| - 1], os[..|os| - 1]);
    LastIsFresh(b.repo, jobs);
    assert Untouched(b.repo, WorkAll(b, jobs[..|jobs| - 1], os[..|os| - 1]).repo, jobs[|jobs| - 1].ref);
  }

  lemma WorkTallies(b: Books, job: Job, o: Outside)
    ensures var err, u := Fate(job, Inc32(b.calls), o), Work(b, job, o);
            && u.success == (if Succeeded(err) then Add64(b.success, 1) else b.success)
            && u.fail == (if Failed(err) then Add64(b.fail, 1) else b.fail)
            && u.tps == Add64(b.tps, 1)
  {
  }

  /** The notice tells of a session that is FAILED for the reason it names. */
  ghost predicate Truthful(t: Repository.Table, notice: (string, Transfer)) {
    && notice.1.ref in t
    && var session := t[notice.1.ref];
       && session.supi == notice.0 && session.status == Repository.FAILED && session.failureReason == notice.1.cause
       && ReasonOf(notice.1.message) == notice.1.cause
       && notice.1.status == "FAILED"
       && notice.1.pduSessionId == session.pduSessionId && notice.1.dnn == session.dnn
       && notice.1.sst == session.sst && notice.1.sd == session.sd
  }

  /** The notice is about this job and says what the job said. */
  ghost predicate TellsOf(notice: (string, Transfer), job: Job) {
    && notice.0 == job.supi && notice.1.ref == job.ref && notice.1.status == "FAILED"
    && notice.1.pduSessionId == job.profile.pduSessionId && notice.1.dnn == job.profile.dnn
    && notice.1.sst == job.profile.sst && notice.1.sd == job.profile.sd
  }

  ghost predicate Noticed(notices: seq<(string, Transfer)>, ref: string) {
    exists i :: 0 <= i < |notices| && notices[i].1.ref == ref
  }

  /** One job adds at most the notice of its own failure. */
  lemma WorkNotices(b: Books, job: Job, o: Outside)
    requires job.ref !in b.repo
    ensures var u := Work(b, job, o);
            && b.notices <= u.notices && |u.notices| <= |b.notices| + 1
            && (|u.notices| > |b.notices| ==>
                  TellsOf(u.notices[|b.notices|], job) && Truthful(u.repo, u.notices[|b.notices|]))
            && (|u.notices| > |b.notices| <==> job.ref in u.repo && u.repo[job.ref].status == Repository.FAILED)
  {
    hide ReasonOf, Text, Fate;
  }

  lemma NoticedAfter(before: seq<(string, Transfer)>, after: seq<(string, Transfer)>, ref: string)
    requires before <= after && |after| <= |before| + 1
    ensures Noticed(after, ref) <==> Noticed(before, ref) || (|after| > |before| && after[|before|].1.ref == ref)
  {
    if Noticed(before, ref) {
      var i :| 0 <= i < |before| && before[i].1.ref == ref;
      assert after[i] == before[i];
    }
    if |after| > |before| && after[|before|].1.ref == ref {
      assert Noticed(after, ref);
    }
  }

  /** The AMF is sent a failure notice for exactly the sessions of the queue that end FAILED, each with the
      subscriber and the reason the repository shows. */
  ghost predicate NoticesMatch(u: Books, jobs: seq<Job>) {
    && (forall i | 0 <= i < |u.notices| ::
          Truthful(u.repo, u.notices[i]) && exists k :: 0 <= k < |jobs| && TellsOf(u.notices[i], jobs[k]))
    && (forall k | 0 <= k < |jobs| ::
          Noticed(u.notices, jobs[k].ref) <==> jobs[k].ref in u.repo && u.repo[jobs[k].ref].status == Repository.FAILED)
  }

  lemma {:induction false} NoticesMatchFailures(b: Books, jobs: seq<Job>, os: seq<Outside>)
    requires |os| == |jobs| && FreshJobs(b.repo, jobs) && b.notices == []
    ensures NoticesMatch(WorkAll(b, jobs, os), jobs)
  {
    hide Fate, Work, FreshJobs;
    if jobs == [] {
    } else {
      var n := |jobs| - 1;
      var before := WorkAll(b, jobs[..n], os[..n]);
      FreshFront(b.repo, jobs);
      NoticesMatchFailures(b, jobs[..n], os[..n]);
      LastStaysFresh(b, jobs, os);
      NoticesStep(before, jobs, os[n]);
    }
  }

  lemma NoticesStep(before: Books, jobs: seq<Job>, o: Outside)
    requires jobs != [] && NoticesMatch(before, jobs[..|jobs| - 1])
    requires jobs[|jobs| - 1].ref !in before.repo
    requires forall i | 0 <= i < |jobs| - 1 :: jobs[i].ref != jobs[|jobs| - 1].ref
    ensures NoticesMatch(Work(before, jobs[|jobs| - 1], o), jobs)
  {
    hide Fate, Work, Noticed, SystemInvariant.Stands, SystemInvariant.StandingOf;
    var n := |jobs| - 1;
    var front, after := jobs[..n], Work(before, jobs[n], o);
    WorkSettles(before, jobs[n], o);
    WorkNotices(before, jobs[n], o);
    forall i | 0 <= i < |after.notices|
      ensures Truthful(after.repo, after.notices[i])
      ensures exists k :: 0 <= k < |jobs| && TellsOf(after.notices[i], jobs[k])
    {
      if i < |before.notices| {
        assert after.notices[i] == before.notices[i];
        var k :| 0 <= k < |front| && TellsOf(before.notices[i], front[k]);
        assert jobs[k] == front[k];
        assert Untouched(before.repo, after.repo, jobs[k].ref);
      } else {
        assert TellsOf(after.notices[i], jobs[n]);
      }
    }
    forall k | 0 <= k < |jobs|
      ensures Noticed(after.notices, jobs[k].ref) <==>
        jobs[k].ref in after.repo && after.repo[jobs[k].ref].status == Repository.FAILED
    {
      NoticedAfter(before.notices, after.notices, jobs[k].ref);
      if k < n {
        assert front[k] == jobs[k];
        assert Untouched(before.repo, after.repo, jobs[k].ref);
      } else {
        NotNoticed(before, front, jobs[n].ref);
      }
    }
  }

  lemma NotNoticed(before: Books, front: seq<Job>, ref: string)
    requires NoticesMatch(before, front) && ref !in before.repo
    ensures !Noticed(before.notices, ref)
  {
  }

  // ----- the orchestrator on the heap -----

  /** The reply of CreateSMContext: 400, 201 with a reference, or 503. */
  datatype Reply = BadRequest | Accepted(ref: string) | Congested

  class Orchestrator {
    const repo: Store
    const pfcpClient: PFCPClient
    const buf: array<Byte>  // the receive loop's
    const queueSize: nat
    var smContextCounter: U64
    var ipCounter: U32
    var jobQueue: seq<Job>
    var closed: bool
    var tpsCounter: U64
    var successCounter: U64
    var failCounter: U64
    var latencySum: U64

    ghost predicate Valid()
      reads this, repo, repo.Repr, pfcpClient, pfcpClient.Repr
    {
      && repo.Valid() && pfcpClient.Valid() && buf.Length == READ_BUFFER
      && |jobQueue| <= queueSize
    }

    ghost function Now(notices: seq<(string, Transfer)>): Books
      requires Valid()
      reads this, repo, repo.Repr, pfcpClient, pfcpClient.Repr
    {
      Books(repo.Model(), pfcpClient.seqCounter, successCounter, failCounter, tpsCounter, latencySum, notices)
    }

    constructor (repo: Store, pfcpClient: PFCPClient, queueSize: nat)
      requires repo.Valid() && pfcpClient.Valid()
      ensures Valid() && this.repo == repo && this.pfcpClient == pfcpClient && this.queueSize == queueSize
      ensures jobQueue == [] && !closed && ipCounter == FIRST_ADDRESS
      ensures Now([]) == Books(repo.Model(), pfcpClient.seqCounter, 0, 0, 0, 0, [])
    {
      this.repo, this.pfcpClient, this.queueSize := repo, pfcpClient, queueSize;
      buf := new Byte[READ_BUFFER];
      smContextCounter, ipCounter := 0, 0x0a0b1601;
      jobQueue, closed := [], false;
      tpsCounter, successCounter, failCounter, latencySum := 0, 0, 0, 0;
    }

    /** The next address, as text. */
    method AllocateIP() returns (ip: string)
      modifies this`ipCounter
      ensures ipCounter == Inc32(old(ipCounter)) && ip == DottedU32(ipCounter)
    {
      ipCounter := (ipCounter + 1) % TWO_32;
      var quad := new Byte[4];
      quad[0] := ipCounter / 0x100_0000 % 0x100;
      quad[1] := ipCounter / 0x1_0000 % 0x100;
      quad[2] := ipCounter / 0x100 % 0x100;
      quad[3] := ipCounter % 0x100;
      assert quad[..] == U32Bytes(ipCounter);
      ip := Dotted(quad[..]);
    }

    /** Accepts the job if the buffer has room, otherwise counts it as failed. */
    method EnqueueJob(job: Job) returns (accepted: bool)
      requires !closed && |jobQueue| <= queueSize
      modifies this`jobQueue, this`failCounter
      ensures accepted <==> |old(jobQueue)| < queueSize
      ensures jobQueue == if accepted then old(jobQueue) + [job] else old(jobQueue)
      ensures failCounter == if accepted then old(failCounter) else Add64(old(failCounter), 1)
    {
      if |jobQueue| < queueSize {
        jobQueue := jobQueue + [job];
        return true;
      }
      failCounter := (failCounter + 1) % TWO_64;
      return false;
    }

    /** A request whose body can be read takes a reference and an address, whether or not its job finds
        room; the job that is queued carries both. */
    method CreateSMContext(body: Option<(string, Profile)>, clock: int) returns (reply: Reply)
      requires Valid() && !closed
      modifies this
      ensures Valid() && closed == old(closed)
      ensures body.None? ==> reply == BadRequest && jobQueue == old(jobQueue) && Now([]) == old(Now([]))
      ensures body.None? ==> ipCounter == old(ipCounter) && smContextCounter == old(smContextCounter)
      ensures body.Some? ==>
        && ipCounter == Inc32(old(ipCounter)) && smContextCounter == Add64(old(smContextCounter), 1)
        && var ref := Ref(clock, smContextCounter);
           if |old(jobQueue)| < queueSize then
             && reply == Accepted(ref) && Now([]) == old(Now([]))
             && jobQueue == old(jobQueue) + [Job(ref, body.value.0, DottedU32(ipCounter), body.value.1)]
           else
             && reply == Congested && jobQueue == old(jobQueue)
             && Now([]) == old(Now([])).(fail := Add64(old(failCounter), 1))
    {
      hide Ref, DottedU32, Store.Valid, Store.Model, PFCPClient.Valid;
      if body.None? {
        return BadRequest;
      }
      smContextCounter := (smContextCounter + 1) % TWO_64;
      var ref := Ref(clock, smContextCounter);
      var ip := AllocateIP();
      var enqueued := EnqueueJob(Job(ref, body.value.0, ip, body.value.1));
      if !enqueued {
        return Congested;
      }
      return Accepted(ref);
    }

    /** Steps 1 to 11 of one job. */
    method ProcessEstablishment(job: Job, o: Outside) returns (err: Option<StageError>)
      requires Valid()
      modifies repo, repo.Repr, pfcpClient, pfcpClient.Repr, buf
      ensures Valid() && fresh(repo.Repr - old(repo.Repr)) && fresh(pfcpClient.Repr - old(pfcpClient.Repr))
      ensures err == Fate(job, Inc32(old(pfcpClient.seqCounter)), o)
      ensures repo.Model() == Established(old(repo.Model()), job, err, o)
      ensures pfcpClient.seqCounter ==
        if Calls(job, o) then Inc32(old(pfcpClient.seqCounter)) else old(pfcpClient.seqCounter)
    {
      hide UdmError, PfcpError, AmfError, NewSession, Repository.Save, Repository.SetIP, Inc32;
      hide Store.Valid, Store.Model, PFCPClient.Valid;
      ErrorStages(job, Inc32(pfcpClient.seqCounter), o);
      ghost var before: Repository.Table := repo.Model();
      if o.saveError.Some? {
        return Some(SaveFailed(o.saveError.value));
      }
      var session := new PDUSession(NewSession(job));
      repo.SaveSession(session, o.savedAt);
      ghost var saved := Repository.Save(before, NewSession(job), o.savedAt);
      assert repo.Model() == saved && Valid();
      err := UdmError(job.profile, o.udm);
      if err.Some? {
        return;
      }
      err := CallUpf(job.ip, o);
      assert repo.Model() == saved && Valid();
      if err.Some? {
        return;
      }
      var found := repo.UpdateSessionStatusAndIP(job.ref, Repository.ACTIVE, job.ip, o.activeAt);
      err := AmfError(o.amf);
    }

    /** Step 10a. */
    method CallUpf(ip: string, o: Outside) returns (err: Option<StageError>)
      requires Valid()
      modifies pfcpClient, pfcpClient.Repr, buf
      ensures Valid() && fresh(pfcpClient.Repr - old(pfcpClient.Repr))
      ensures pfcpClient.seqCounter == Inc32(old(pfcpClient.seqCounter))
      ensures err == PfcpError(ip, pfcpClient.seqCounter, o)
    {
      var res, sent := pfcpClient.SendSessionEstablishmentRequest(ip, o.v6, o.writeError.None?, buf, o.turns,
        o.expired);
      match res {
        case Ok(_) => return None;
        case Err(NotEncoded) => return Some(PfcpFailed("invalid IPv4 address"));
        case Err(NotSent) => return Some(PfcpFailed(o.writeError.value));
        case Err(Rejected) => return Some(PfcpFailed("PFCP session establishment rejected by UPF"));
        case Err(TimedOut) => return Some(PfcpFailed("timeout waiting for PFCP session establishment response"));
      }
    }

    /** The failure callback for a session, sent only if the session is stored. */
    method NotifyAMFSessionFailure(ref: string, supi: string, cause: string, message: string)
      returns (notice: seq<(string, Transfer)>)
      requires repo.Valid()
      ensures notice == FailureNotice(repo.Model(), ref, supi, cause, message)
    {
      var session := repo.GetSession(ref);
      if session == null {
        return [];
      }
      var found := session.data;
      return [(supi, Transfer(found.pduSessionId, found.sst, found.sd, found.dnn, ref, "FAILED", cause, message))];
    }

    /** Marks the session FAILED and reports it. */
    method FileFailure(job: Job, reason: string, message: string, now: int) returns (notice: seq<(string, Transfer)>)
      requires repo.Valid()
      modifies repo.Repr
      ensures repo.Valid()
      ensures repo.Model() == Repository.SetReason(old(repo.Model()), job.ref, Repository.FAILED, reason, now)
      ensures notice == FailureNotice(old(repo.Model()), job.ref, job.supi, reason, message)
    {
      hide Repository.SetReason, FailureNotice;
      NoticeAfter(repo.Model(), job.ref, job.supi, reason, message, now);
      var found := repo.UpdateSessionStatusWithReason(job.ref, Repository.FAILED, reason, now);
      notice := NotifyAMFSessionFailure(job.ref, job.supi, reason, message);
    }

    /** The failure branch of the worker loop. */
    method RecordFailure(job: Job, e: StageError, o: Outside) returns (notice: seq<(string, Transfer)>)
      requires Valid()
      modifies this`failCounter, repo.Repr
      ensures Valid() && failCounter == Add64(old(failCounter), 1)
      ensures repo.Model() ==
        Repository.SetReason(old(repo.Model()), job.ref, Repository.FAILED, ReasonOf(Text(e)), o.failedAt)
      ensures notice == FailureNotice(old(repo.Model()), job.ref, job.supi, ReasonOf(Text(e)), Text(e))
    {
      hide ReasonOf, Text, Repository.SetReason, FailureNotice;
      failCounter := (failCounter + 1) % TWO_64;
      var reason := Classify(Text(e));
      notice := FileFailure(job, reason, Text(e), o.failedAt);
    }

    /** One turn of the worker loop. */
    method RunJob(job: Job, o: Outside, sent: seq<(string, Transfer)>) returns (notices: seq<(string, Transfer)>)
      requires Valid()
      modifies this`latencySum, this`tpsCounter, this`failCounter, this`successCounter
      modifies repo, repo.Repr, pfcpClient, pfcpClient.Repr, buf
      ensures Valid() && fresh(repo.Repr - old(repo.Repr)) && fresh(pfcpClient.Repr - old(pfcpClient.Repr))
      ensures Now(notices) == Work(old(Now(sent)), job, o)
    {
      hide Fate, Established, ReasonOf, Text, Inc32, Repository.SetReason, FailureNotice;
      hide Store.Valid, Store.Model, PFCPClient.Valid;
      ghost var books := Now(sent);
      var err := ProcessEstablishment(job, o);
      latencySum := (latencySum + o.micros) % TWO_64;
      tpsCounter := (tpsCounter + 1) % TWO_64;
      ghost var timed := Now(sent);
      assert timed == books.(repo := Established(books.repo, job, err, o),
                             calls := if Calls(job, o) then Inc32(books.calls) else books.calls,
                             latency := Add64(books.latency, o.micros), tps := Add64(books.tps, 1));
      if err.Some? {
        var notice := RecordFailure(job, err.value, o);
        notices := sent + notice;
      } else {
        successCounter := (successCounter + 1) % TWO_64;
        notices := sent;
      }
    }

    /** A worker on a closed queue: it runs every job once, in order, and returns. */
    method Worker(os: seq<Outside>) returns (notices: seq<(string, Transfer)>)
      requires Valid() && closed && |os| == |jobQueue|
      modifies this`jobQueue, this`latencySum, this`tpsCounter, this`failCounter, this`successCounter
      modifies repo, repo.Repr, pfcpClient, pfcpClient.Repr, buf
      ensures Valid() && jobQueue == []
      ensures Now(notices) == WorkAll(old(Now([])), old(jobQueue), os)
    {
      hide Work, WorkAll, Store.Valid, Store.Model, PFCPClient.Valid;
      ghost var books, jobs := Now([]), jobQueue;
      notices := [];
      WorkAllNone(books);
      var i := 0;
      while jobQueue != []
        invariant 0 <= i <= |jobs| && jobQueue == jobs[i..] && Valid()
        invariant fresh(repo.Repr - old(repo.Repr)) && fresh(pfcpClient.Repr - old(pfcpClient.Repr))
        invariant Now(notices) == WorkAll(books, jobs[..i], os[..i])
        decreases |jobQueue|
      {
        var job := jobQueue[0];
        jobQueue := jobQueue[1..];
        notices := RunJob(job, os[i], notices);
        WorkAllNext(books, jobs, os, i);
        i := i + 1;
      }
      assert jobs[..i] == jobs && os[..i] == os;
    }

    /** Closes the queue and waits for the worker to drain it. */
    method Stop(os: seq<Outside>) returns (notices: seq<(string, Transfer)>)
      requires Valid() && !closed && |os| == |jobQueue|
      modifies this`closed, this`jobQueue, this`latencySum, this`tpsCounter, this`failCounter, this`successCounter
      modifies repo, repo.Repr, pfcpClient, pfcpClient.Repr, buf
      ensures Valid() && closed && jobQueue == []
      ensures Now(notices) == WorkAll(old(Now([])), old(jobQueue), os)
    {
      hide Work, WorkAll, Store.Valid, Store.Model, PFCPClient.Valid;
      closed := true;
      notices := Worker(os);
    }

    /** One tick of the metrics reporter. */
    method ReportMetrics() returns (tps: U64, success: U64, failed: U64, latency: U64)
      modifies this`tpsCounter, this`latencySum
      ensures tps == old(tpsCounter) && latency == old(latencySum) && tpsCounter == latencySum == 0
      ensures success == successCounter && failed == failCounter
    {
      tps, tpsCounter := tpsCounter, 0;
      success, failed := successCounter, failCounter;
      latency, latencySum := latencySum, 0;
    }
  }
}

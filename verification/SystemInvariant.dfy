/** What holds in every reachable state, one predicate per concern. Each takes just the components it
    is about, so a step that leaves these alone keeps it. */
module SystemInvariant {
  import opened Address
  import opened Bytes
  import opened Codec
  import opened FailureReason
  import opened PfcpClient
  import opened SmContext
  import opened System
  import opened Wrappers
  import Repository
  import UpfServer

  // ----- counting -----

  /** How many entries satisfy `p`. */
  function Count<T>(xs: seq<T>, p: T -> bool): nat {
    if xs == [] then 0 else Count(xs[..|xs| - 1], p) + if p(xs[|xs| - 1]) then 1 else 0
  }

  lemma {:induction false} CountUpdate<T>(xs: seq<T>, i: nat, x: T, p: T -> bool)
    requires i < |xs|
    ensures Count(xs[i := x], p) == Count(xs, p) - (if p(xs[i]) then 1 else 0) + (if p(x) then 1 else 0)
  {
    var n := |xs| - 1;
    if i < n {
      assert xs[i := x][..n] == xs[..n][i := x];
      CountUpdate(xs[..n], i, x, p);
    } else {
      assert xs[i := x][..n] == xs[..n];
    }
  }

  lemma CountAppend<T>(xs: seq<T>, x: T, p: T -> bool)
    ensures Count(xs + [x], p) == Count(xs, p) + if p(x) then 1 else 0
  {
    assert (xs + [x])[..|xs|] == xs;
  }

  lemma {:induction false} CountBound<T>(xs: seq<T>, p: T -> bool)
    ensures Count(xs, p) <= |xs|
    ensures Count(xs, p) == 0 <==> forall i | 0 <= i < |xs| :: !p(xs[i])
  {
    if xs == [] {
    } else {
      CountBound(xs[..|xs| - 1], p);
    }
  }

  lemma {:induction false} RangeSize(keys: set<nat>, n: nat)
    requires forall k | k in keys :: k < n
    ensures |keys| <= n
  {
    if n == 0 {
    } else {
      RangeSize(keys - {n - 1}, n - 1);
    }
  }

  // ----- names -----

  /** Each request has its own reference, made from its clock reading and arrival number. */
  ghost predicate Refs(counter: U64, requests: seq<Intake>, owner: map<string, nat>) {
    && counter == |requests| % TWO_64
    && (forall k | 0 <= k < |requests| ::
          var r := requests[k];
          r.ref == Ref(r.clock, Counter(k)) && r.ref in owner && owner[r.ref] == k)
    && (forall r | r in owner :: owner[r] < |requests| && requests[owner[r]].ref == r)
  }

  /** Each address that was handed out belongs to one request. */
  ghost predicate Addresses(counter: U32, n: nat, addrs: map<nat, U32>, owner: map<U32, nat>) {
    && counter == AddressAt(n) && |addrs| == n
    && (forall k | k in addrs :: addrs[k] in owner && owner[addrs[k]] == k)
    && (forall v | v in owner :: owner[v] in addrs && addrs[owner[v]] == v && 1 <= Offset(v) <= n)
  }

  /** Each sequence number that was taken belongs to one request. */
  ghost predicate Tags(counter: U32, n: nat, tags: map<nat, U32>, owner: map<U32, nat>) {
    && counter == n % TWO_32 && |tags| == n
    && (forall k | k in tags :: tags[k] in owner && owner[tags[k]] == k)
    && (forall q | q in owner :: owner[q] in tags && tags[owner[q]] == q && 1 <= q <= n)
  }

  // ----- places -----

  predicate Accepted(p: Phase) {
    p.Queued? || p.Held? || p.Settled?
  }

  /** Each accepted job is in exactly one place: a queue slot, a worker's hands, or done with. */
  ghost predicate Places(phases: seq<Phase>, queue: seq<nat>, dequeued: nat, holders: seq<Holder>) {
    && (forall i | 0 <= i < |queue| :: queue[i] < |phases| && phases[queue[i]] == Queued(dequeued + i))
    && (forall w | 0 <= w < |holders| && holders[w].Busy? ::
          holders[w].id < |phases| && phases[holders[w].id] == Held(w))
    && (forall k | 0 <= k < |phases| && phases[k].Queued? ::
          dequeued <= phases[k].ticket < dequeued + |queue| && queue[phases[k].ticket - dequeued] == k)
    && (forall k | 0 <= k < |phases| && phases[k].Held? ::
          phases[k].worker < |holders| && holders[phases[k].worker] == Busy(k))
  }

  ghost predicate Hands(holders: seq<Holder>, ats: seq<At>) {
    && |ats| == |holders|
    && (forall w | 0 <= w < |holders| :: ats[w] == Free <==> !holders[w].Busy?)
  }

  ghost predicate Progress(phases: seq<Phase>, addrs: map<nat, U32>, tags: map<nat, U32>, accepted: set<nat>) {
    && (forall k | k in addrs :: k < |phases|)
    && (forall k | k in tags :: k < |phases|)
    && (forall k | k in accepted :: k < |phases|)
    && (forall k | 0 <= k < |phases| ::
          && (k in addrs <==> !phases[k].Numbered?)
          && (k in accepted <==> Accepted(phases[k]))
          && (k in tags ==> phases[k].Held? || phases[k].Settled?))
  }

  // ----- the network and the UPF -----

  /** Every datagram on the way is one the SMF sent for an issued number, or the UPF's answer to one
      it has stored; and the UPF stores only what was sent. */
  ghost predicate Network(
    issued: map<U32, Quad>, toUpf: set<Datagram>, upf: UpfServer.Table, replies: multiset<Datagram>,
    toSmf: set<Datagram>)
  {
    && (forall p | p in toUpf :: UpfServer.IsIssued(issued, p))
    && (forall q | q in upf ::
          && q in issued && upf[q] == UpfServer.Session(q, PDN_IPV4, issued[q])
          && RequestBytes(ESTABLISHMENT_REQUEST, q, issued[q]) in toUpf)
    && (forall p | p in replies :: IsAnswer(upf, p))
    && (forall p | p in toSmf :: IsAnswer(upf, p))
  }

  ghost predicate IsAnswer(upf: UpfServer.Table, p: Datagram) {
    exists q :: q in upf && p == Answer(q)
  }

  function Answer(q: U32): Datagram {
    ResponseBytes(ESTABLISHMENT_RESPONSE, q, ACCEPTED)
  }

  /** The decoded form of the UPF's answer. */
  function AnswerRead(q: U32): Response {
    Response(Header(FLAGS, ESTABLISHMENT_RESPONSE, 1, q), ACCEPTED)
  }

  ghost predicate Issued(issued: map<U32, Quad>, owner: map<U32, nat>, addrs: map<nat, U32>) {
    && issued.Keys == owner.Keys
    && (forall q | q in owner :: owner[q] in addrs && issued[q] == U32Bytes(addrs[owner[q]]))
  }

  // ----- the reply channels -----

  /** A channel holds at most one response, and only one the UPF gave to the channel's own number. */
  ghost predicate Boxes(channels: seq<Channel>, sorted: multiset<(nat, Response)>, upf: set<U32>) {
    && (forall ch | 0 <= ch < |channels| ::
          channels[ch].buf == [] || (channels[ch].buf == [AnswerRead(channels[ch].tag)] && channels[ch].tag in upf))
    && (forall f | f in sorted ::
          f.0 < |channels| && f.1 == AnswerRead(channels[f.0].tag) && channels[f.0].tag in upf)
  }

  /** Call `id` owns channel `ch`, registered under its number `q`. */
  ghost predicate Owns(client: Client, id: nat, q: U32, ch: nat) {
    && ch < |client.channels| && client.channels[ch].tag == q && client.channels[ch].call == id
    && q in client.pending && client.pending[q] == ch
  }

  /** What a worker at each point of a PFCP call relies on. */
  ghost predicate InCall(at: At, id: nat, tags: map<nat, U32>, issued: map<U32, Quad>, client: Client, upf: set<U32>) {
    match at
    case Free => true
    case Save => id !in tags
    case Query => id !in tags
    case Number => id !in tags
    case Register(q, data) =>
      && id in tags && tags[id] == q && q !in client.pending
      && q in issued && data == RequestBytes(ESTABLISHMENT_REQUEST, q, issued[q])
    case Write(q, ch, data) =>
      && id in tags && tags[id] == q && Owns(client, id, q, ch)
      && q in issued && data == RequestBytes(ESTABLISHMENT_REQUEST, q, issued[q])
    case Wait(q, ch) => id in tags && tags[id] == q && Owns(client, id, q, ch)
    case Unregister(q, ch, reply) =>
      && id in tags && tags[id] == q && Owns(client, id, q, ch)
      && (reply.Ok? ==> reply.value == AnswerRead(q) && q in upf)
    case _ => true
  }

  ghost predicate Calls(
    holders: seq<Holder>, ats: seq<At>, tags: map<nat, U32>, issued: map<U32, Quad>, client: Client, upf: set<U32>)
  {
    && |ats| == |holders|
    && (forall w | 0 <= w < |holders| && holders[w].Busy? :: InCall(ats[w], holders[w].id, tags, issued, client, upf))
  }

  /** The worker is between registering `q` on channel `ch` and removing it. */
  predicate InFlight(at: At, q: U32, ch: nat) {
    (at.Write? || at.Wait? || at.Unregister?) && at.seqNum == q && at.ch == ch
  }

  /** Every registered channel belongs to a call in flight. */
  ghost predicate Pending(holders: seq<Holder>, ats: seq<At>, client: Client) {
    && |ats| == |holders| && client.Valid()
    && (forall q | q in client.pending ::
          exists w :: 0 <= w < |holders| && holders[w] == Busy(client.channels[client.pending[q]].call)
                      && InFlight(ats[w], q, client.pending[q]))
  }

  // ----- sessions -----

  /** What the repository has to show for a request. */
  datatype Standing = Absent | Creating | Active | Failed(failure: StageError)

  /** The failure left its session behind in this standing. */
  function Left(e: StageError): Standing {
    if e.SaveFailed? then Absent else if IsCallError(e) then Active else Creating
  }

  function LeftBy(err: Option<StageError>): Standing {
    match err
    case None => Active
    case Some(e) => Left(e)
  }

  function Marked(e: StageError): Standing {
    if e.SaveFailed? then Absent else Failed(e)
  }

  function AtStanding(at: At): Standing {
    match at
    case Free => Absent
    case Save => Absent
    case Query => Creating
    case Number => Creating
    case Register(_, _) => Creating
    case Write(_, _, _) => Creating
    case Wait(_, _) => Creating
    case Unregister(_, _, _) => Creating
    case Activate => Creating
    case Call(_) => Active
    case AddLatency(err) => LeftBy(err)
    case AddTps(err) => LeftBy(err)
    case Record(err) => LeftBy(err)
    case Mark(e) => Left(e)
    case Notify(e, _) => Marked(e)
  }

  function StandingOf(phase: Phase, ats: seq<At>): Standing {
    match phase
    case Held(w) => if w < |ats| then AtStanding(ats[w]) else Absent
    case Settled(None) => Active
    case Settled(Some(e)) => Marked(e)
    case _ => Absent
  }

  ghost predicate Stands(repo: Repository.Table, ref: string, ip: string, st: Standing) {
    match st
    case Absent => ref !in repo
    case Creating =>
      ref in repo && repo[ref].status == Repository.CREATING && repo[ref].ipAddress == ""
        && repo[ref].failureReason == ""
    case Active =>
      ref in repo && repo[ref].status == Repository.ACTIVE && repo[ref].ipAddress == ip && repo[ref].failureReason == ""
    case Failed(e) =>
      && ref in repo && repo[ref].status == Repository.FAILED
      && repo[ref].ipAddress == (if IsCallError(e) then ip else "") && repo[ref].failureReason == ReasonOf(Text(e))
  }

  function IpText(addrs: map<nat, U32>, k: nat): string {
    if k in addrs then DottedU32(addrs[k]) else ""
  }

  ghost predicate Sessions(
    requests: seq<Intake>, addrs: map<nat, U32>, phases: seq<Phase>, ats: seq<At>, repo: Repository.Table)
  {
    && |phases| == |requests|
    && (forall k | 0 <= k < |requests| ::
          Stands(repo, requests[k].ref, IpText(addrs, k), StandingOf(phases[k], ats)))
  }

  /** The repository holds sessions of known requests only, each under its own reference. */
  ghost predicate Known(repo: Repository.Table, owner: map<string, nat>) {
    forall r | r in repo :: r in owner && repo[r].ref == r
  }

  /** The PFCP exchange of the job is over and was answered. */
  predicate AtAnswered(at: At) {
    match at
    case Unregister(_, _, reply) => reply.Ok?
    case Activate => true
    case _ => AtStanding(at) == Active || (at.Notify? && IsCallError(at.failure))
  }

  predicate Answered(phase: Phase, ats: seq<At>) {
    match phase
    case Held(w) => w < |ats| && AtAnswered(ats[w])
    case Settled(None) => true
    case Settled(Some(e)) => IsCallError(e)
    case _ => false
  }

  /** A request whose exchange was answered has its session in the UPF. */
  ghost predicate Backed(phases: seq<Phase>, ats: seq<At>, tags: map<nat, U32>, upf: set<U32>) {
    forall k | 0 <= k < |phases| && Answered(phases[k], ats) :: k in tags && tags[k] in upf
  }

  // ----- the AMF -----

  /** `ref` was issued by the SMF for `imsi`, in an accepted request. */
  ghost predicate IssuedFor(requests: seq<Intake>, accepted: set<nat>, ref: string, imsi: string) {
    exists k :: k in accepted && k < |requests| && requests[k].ref == ref && requests[k].supi == imsi
  }

  ghost predicate AmfMap(
    requests: seq<Intake>, accepted: set<nat>, amf: map<string, string>, updates: set<(string, string)>,
    callbacks: multiset<Callback>)
  {
    && (forall c | c in callbacks :: IssuedFor(requests, accepted, c.body.ref, c.imsi))
    && (forall imsi | imsi in amf :: IssuedFor(requests, accepted, amf[imsi], imsi))
    && (forall m | m in updates :: IssuedFor(requests, accepted, m.0, m.1) && m.1 in amf)
  }

  // ----- tallies -----

  /** The worker holds a job whose outcome is not counted yet. */
  predicate Uncounted(at: At) {
    !at.Free? && !at.Mark? && !at.Notify?
  }

  /** The worker's session is ACTIVE, and neither counted as a success nor written FAILED. */
  predicate ActiveUnsettled(at: At) {
    AtStanding(at) == Active
  }

  /** The worker counted a failure and has yet to write FAILED. */
  predicate AwaitingMark(at: At) {
    at.Mark? && !at.failure.SaveFailed?
  }


  predicate IsShedding(p: Phase) { p.Shedding? }

  /** Every request that reached EnqueueJob is queued, held uncounted, about to be counted as refused,
      or counted. */
  ghost predicate Conservation(queue: seq<nat>, phases: seq<Phase>, ats: seq<At>, arrived: nat, succeeded: nat,
    failed: nat) {
    arrived == |queue| + Count(ats, Uncounted) + Count(phases, IsShedding) + succeeded + failed
  }

  ghost predicate Statuses(repo: Repository.Table, ats: seq<At>, succeeded: nat, failed: nat, rejected: nat,
    unsaved: nat) {
    && |Repository.WithStatus(repo, {Repository.ACTIVE})| == succeeded + Count(ats, ActiveUnsettled)
    && |Repository.WithStatus(repo, {Repository.FAILED})| + Count(ats, AwaitingMark) + rejected + unsaved == failed
    && |Repository.WithStatus(repo, {Repository.CREATING})| == Count(ats, AtCreating)
  }

  predicate AtCreating(at: At) {
    AtStanding(at) == Creating
  }

  /** The machine counters are the observer's counts modulo their width. */
  ghost predicate Counters(success: U64, fail: U64, tps: U64, succeeded: nat, failed: nat, completed: nat,
    reported: nat) {
    && success == succeeded % TWO_64 && fail == failed % TWO_64
    && (reported + tps) % TWO_64 == completed % TWO_64
  }

  ghost predicate Latencies(latencySum: U64, micros: nat, microsOut: nat) {
    (microsOut + latencySum) % TWO_64 == micros % TWO_64
  }

  // ----- shutdown -----

  ghost predicate Drained(queue: seq<nat>, closed: bool, holders: seq<Holder>) {
    forall w | 0 <= w < |holders| && holders[w] == Exited :: closed && queue == []
  }

  // ----- all together -----

  ghost predicate Naming(s: State) {
    && Refs(s.contextCounter, s.requests, s.log.refOwner)
    && Addresses(s.ipCounter, s.log.addresses, s.addrs, s.log.addrOwner)
    && Tags(s.client.seqCounter, s.log.calls, s.tags, s.log.seqOwner)
  }

  ghost predicate Placing(s: State) {
    && |s.phases| == |s.requests|
    && Places(s.phases, s.queue, s.log.dequeued, s.holders)
    && Hands(s.holders, s.ats)
    && Progress(s.phases, s.addrs, s.tags, s.log.accepted)
    && |s.queue| <= s.queueSize
    && Drained(s.queue, s.closed, s.holders)
  }

  ghost predicate Exchange(s: State) {
    && Network(s.log.issued, s.toUpf, s.upf, s.replies, s.toSmf)
    && Issued(s.log.issued, s.log.seqOwner, s.addrs)
    && Boxes(s.client.channels, s.sorted, s.upf.Keys)
    && Calls(s.holders, s.ats, s.tags, s.log.issued, s.client, s.upf.Keys)
    && Pending(s.holders, s.ats, s.client)
  }

  ghost predicate Storing(s: State) {
    && Sessions(s.requests, s.addrs, s.phases, s.ats, s.repo)
    && Known(s.repo, s.log.refOwner)
    && Backed(s.phases, s.ats, s.tags, s.upf.Keys)
    && AmfMap(s.requests, s.log.accepted, s.amf, s.updates, s.callbacks)
  }

  ghost predicate Tallying(s: State) {
    && Conservation(s.queue, s.phases, s.ats, s.log.arrived, s.log.succeeded, s.log.failed)
    && Statuses(s.repo, s.ats, s.log.succeeded, s.log.failed, s.log.rejected, s.log.unsaved)
    && Counters(s.successCounter, s.failCounter, s.tpsCounter, s.log.succeeded, s.log.failed, s.log.completed,
      s.log.reported)
    && Latencies(s.latencySum, s.log.micros, s.log.microsOut)
  }

  ghost predicate Inv(s: State) {
    Naming(s) && Placing(s) && Exchange(s) && Storing(s) && Tallying(s)
  }
}

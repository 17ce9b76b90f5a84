/** How single changes to the components keep the invariants: a worker moving on, a request changing
    phase, a session being written, a call being registered, a datagram being sent. */
module SystemMoves {
  import opened Address
  import opened Bytes
  import opened Codec
  import opened FailureReason
  import opened PfcpClient
  import opened SmContext
  import opened System
  import opened SystemInvariant
  import opened Wrappers
  import AmfHandler
  import Repository
  import UpfServer

  // ----- a worker goes on to its next action -----

  lemma HandsMove(holders: seq<Holder>, ats: seq<At>, w: nat, at: At)
    requires Hands(holders, ats) && w < |holders| && holders[w].Busy? && at != Free
    ensures Hands(holders, ats[w := at])
  {
  }

  lemma CallsMove(
    holders: seq<Holder>, ats: seq<At>, tags: map<nat, U32>, issued: map<U32, Quad>, client: Client, upf: set<U32>,
    w: nat, at: At)
    requires Calls(holders, ats, tags, issued, client, upf)
    requires w < |holders| && (holders[w].Busy? ==> InCall(at, holders[w].id, tags, issued, client, upf))
    ensures Calls(holders, ats[w := at], tags, issued, client, upf)
  {
  }

  lemma PendingMove(holders: seq<Holder>, ats: seq<At>, client: Client, w: nat, at: At)
    requires Pending(holders, ats, client) && w < |holders|
    requires forall q, ch :: InFlight(ats[w], q, ch) ==> InFlight(at, q, ch)
    ensures Pending(holders, ats[w := at], client)
  {
    forall q | q in client.pending
      ensures exists v :: 0 <= v < |holders| && holders[v] == Busy(client.channels[client.pending[q]].call)
                && InFlight(ats[w := at][v], q, client.pending[q])
    {
      var v :| 0 <= v < |holders| && holders[v] == Busy(client.channels[client.pending[q]].call)
                 && InFlight(ats[v], q, client.pending[q]);
      assert InFlight(ats[w := at][v], q, client.pending[q]);
    }
  }

  lemma SessionsMove(
    requests: seq<Intake>, addrs: map<nat, U32>, phases: seq<Phase>, ats: seq<At>, repo: Repository.Table, w: nat,
    at: At)
    requires Sessions(requests, addrs, phases, ats, repo)
    requires w < |ats| && AtStanding(at) == AtStanding(ats[w])
    ensures Sessions(requests, addrs, phases, ats[w := at], repo)
  {
    forall k | 0 <= k < |requests| ensures StandingOf(phases[k], ats[w := at]) == StandingOf(phases[k], ats) {
    }
  }

  lemma BackedMove(phases: seq<Phase>, ats: seq<At>, tags: map<nat, U32>, upf: set<U32>, holders: seq<Holder>,
    queue: seq<nat>, n: nat, w: nat, at: At)
    requires Backed(phases, ats, tags, upf) && Places(phases, queue, n, holders)
    requires w < |ats| && w < |holders| && holders[w].Busy?
    requires AtAnswered(at) ==> AtAnswered(ats[w]) || (holders[w].id in tags && tags[holders[w].id] in upf)
    ensures Backed(phases, ats[w := at], tags, upf)
  {
    forall k | 0 <= k < |phases| && Answered(phases[k], ats[w := at]) ensures k in tags && tags[k] in upf {
      if phases[k] == Held(w) {
        assert holders[w] == Busy(k);
      } else {
        assert Answered(phases[k], ats);
      }
    }
  }

  lemma ConservationMove(queue: seq<nat>, phases: seq<Phase>, ats: seq<At>, arrived: nat, succeeded: nat, failed: nat,
    w: nat, at: At)
    requires Conservation(queue, phases, ats, arrived, succeeded, failed)
    requires w < |ats| && Uncounted(at) == Uncounted(ats[w])
    ensures Conservation(queue, phases, ats[w := at], arrived, succeeded, failed)
  {
    CountUpdate(ats, w, at, Uncounted);
  }

  lemma StatusesMove(repo: Repository.Table, ats: seq<At>, succeeded: nat, failed: nat, rejected: nat, unsaved: nat,
    w: nat, at: At)
    requires Statuses(repo, ats, succeeded, failed, rejected, unsaved)
    requires w < |ats| && AtStanding(at) == AtStanding(ats[w]) && AwaitingMark(at) == AwaitingMark(ats[w])
    ensures Statuses(repo, ats[w := at], succeeded, failed, rejected, unsaved)
  {
    CountUpdate(ats, w, at, ActiveUnsettled);
    CountUpdate(ats, w, at, AwaitingMark);
    CountUpdate(ats, w, at, AtCreating);
  }

  function Bit(b: bool): nat {
    if b then 1 else 0
  }

  /** A move that the counts follow. */
  lemma StatusesTally(
    repo: Repository.Table, ats: seq<At>, succeeded: nat, failed: nat, rejected: nat, unsaved: nat, w: nat, at: At,
    succeeded': nat, failed': nat, unsaved': nat)
    requires Statuses(repo, ats, succeeded, failed, rejected, unsaved) && w < |ats|
    requires succeeded' + Bit(ActiveUnsettled(at)) == succeeded + Bit(ActiveUnsettled(ats[w]))
    requires failed' + Bit(AwaitingMark(ats[w])) + unsaved == failed + Bit(AwaitingMark(at)) + unsaved'
    requires AtCreating(at) == AtCreating(ats[w])
    ensures Statuses(repo, ats[w := at], succeeded', failed', rejected, unsaved')
  {
    CountUpdate(ats, w, at, ActiveUnsettled);
    CountUpdate(ats, w, at, AwaitingMark);
    CountUpdate(ats, w, at, AtCreating);
  }

  /** A move that writes nothing and keeps the standing of the job. */
  ghost predicate Quiet(s: State, w: nat, at: At) {
    && s.Working(w) && at != Free
    && InCall(at, s.holders[w].id, s.tags, s.log.issued, s.client, s.upf.Keys)
    && (forall q, ch :: InFlight(s.ats[w], q, ch) ==> InFlight(at, q, ch))
    && AtStanding(at) == AtStanding(s.ats[w])
    && (AtAnswered(at) ==> AtAnswered(s.ats[w]) || (s.holders[w].id in s.tags && s.tags[s.holders[w].id] in s.upf))
    && Uncounted(at) == Uncounted(s.ats[w]) && AwaitingMark(at) == AwaitingMark(s.ats[w])
  }

  lemma QuietMove(s: State, w: nat, at: At)
    requires Inv(s) && Quiet(s, w, at)
    ensures Inv(s.Goto(w, at))
  {
    hide Refs, Addresses, Tags, Places, Hands, Progress, Drained, Network, Issued, Boxes, Calls, Pending,
      Sessions, Known, Backed, AmfMap, Conservation, Statuses, Counters, Latencies;
    hide InCall, InFlight, AtStanding, AtAnswered, Uncounted, AwaitingMark;
    HandsMove(s.holders, s.ats, w, at);
    CallsMove(s.holders, s.ats, s.tags, s.log.issued, s.client, s.upf.Keys, w, at);
    PendingMove(s.holders, s.ats, s.client, w, at);
    SessionsMove(s.requests, s.addrs, s.phases, s.ats, s.repo, w, at);
    BackedMove(s.phases, s.ats, s.tags, s.upf.Keys, s.holders, s.queue, s.log.dequeued, w, at);
    ConservationMove(s.queue, s.phases, s.ats, s.log.arrived, s.log.succeeded, s.log.failed, w, at);
    StatusesMove(s.repo, s.ats, s.log.succeeded, s.log.failed, s.log.rejected, s.log.unsaved, w, at);
  }

  // ----- a request arrives -----

  lemma NextCounter(counter: U64, n: nat)
    requires counter == n % TWO_64
    ensures Add64(counter, 1) == Counter(n) == (n + 1) % TWO_64
  {
    NextWraps(n);
  }

  lemma NewRef(counter: U64, requests: seq<Intake>, owner: map<string, nat>, clock: int)
    requires Refs(counter, requests, owner) && |requests| < TWO_32
    ensures Ref(clock, Counter(|requests|)) !in owner
  {
    hide Ref, Counter;
    var ref := Ref(clock, Counter(|requests|));
    if ref in owner {
      var j := owner[ref];
      RefsDistinct(j, |requests|, requests[j].clock, clock);
      assert false;
    }
  }

  lemma RefsArrive(counter: U64, requests: seq<Intake>, owner: map<string, nat>, r: Intake)
    requires Refs(counter, requests, owner) && |requests| < TWO_32
    requires r.ref == Ref(r.clock, Add64(counter, 1))
    ensures Add64(counter, 1) == Counter(|requests|) && r.ref !in owner
    ensures Refs(Add64(counter, 1), requests + [r], owner[r.ref := |requests|])
  {
    hide Ref, Counter, Add64;
    NextCounter(counter, |requests|);
    NewRef(counter, requests, owner, r.clock);
  }

  lemma PlacesArrive(phases: seq<Phase>, queue: seq<nat>, dequeued: nat, holders: seq<Holder>)
    requires Places(phases, queue, dequeued, holders)
    ensures Places(phases + [Numbered], queue, dequeued, holders)
  {
  }

  lemma ProgressArrive(phases: seq<Phase>, addrs: map<nat, U32>, tags: map<nat, U32>, accepted: set<nat>)
    requires Progress(phases, addrs, tags, accepted)
    ensures Progress(phases + [Numbered], addrs, tags, accepted)
  {
  }

  lemma SessionsArrive(
    requests: seq<Intake>, addrs: map<nat, U32>, phases: seq<Phase>, ats: seq<At>, repo: Repository.Table, r: Intake)
    requires Sessions(requests, addrs, phases, ats, repo) && r.ref !in repo
    ensures Sessions(requests + [r], addrs, phases + [Numbered], ats, repo)
  {
  }

  lemma BackedArrive(phases: seq<Phase>, ats: seq<At>, tags: map<nat, U32>, upf: set<U32>)
    requires Backed(phases, ats, tags, upf)
    ensures Backed(phases + [Numbered], ats, tags, upf)
  {
  }

  /** Issued references stay issued. */
  lemma IssuedForStays(requests: seq<Intake>, more: seq<Intake>, accepted: set<nat>, wider: set<nat>, ref: string,
    imsi: string)
    requires IssuedFor(requests, accepted, ref, imsi) && accepted <= wider
    ensures IssuedFor(requests + more, wider, ref, imsi)
  {
    var k :| k in accepted && k < |requests| && requests[k].ref == ref && requests[k].supi == imsi;
    assert (requests + more)[k] == requests[k];
  }

  lemma AmfMapStays(
    requests: seq<Intake>, more: seq<Intake>, accepted: set<nat>, wider: set<nat>, amf: map<string, string>,
    updates: set<(string, string)>, callbacks: multiset<Callback>)
    requires AmfMap(requests, accepted, amf, updates, callbacks) && accepted <= wider
    ensures AmfMap(requests + more, wider, amf, updates, callbacks)
  {
    forall c | c in callbacks ensures IssuedFor(requests + more, wider, c.body.ref, c.imsi) {
      IssuedForStays(requests, more, accepted, wider, c.body.ref, c.imsi);
    }
    forall imsi | imsi in amf ensures IssuedFor(requests + more, wider, amf[imsi], imsi) {
      IssuedForStays(requests, more, accepted, wider, amf[imsi], imsi);
    }
    forall m | m in updates ensures IssuedFor(requests + more, wider, m.0, m.1) {
      IssuedForStays(requests, more, accepted, wider, m.0, m.1);
    }
  }

  /** The AMF stores a reference that was issued for the IMSI. */
  lemma AmfMapStore(
    requests: seq<Intake>, accepted: set<nat>, amf: map<string, string>, updates: set<(string, string)>,
    callbacks: multiset<Callback>, imsi: string, ref: string)
    requires AmfMap(requests, accepted, amf, updates, callbacks) && IssuedFor(requests, accepted, ref, imsi)
    ensures AmfMap(requests, accepted, amf[imsi := ref], updates, callbacks)
  {
  }

  lemma IssuedForOwn(requests: seq<Intake>, accepted: set<nat>, k: nat)
    requires k in accepted && k < |requests|
    ensures IssuedFor(requests, accepted, requests[k].ref, requests[k].supi)
  {
  }

  /** The SMF sends a callback with a reference it issued for the IMSI. */
  lemma AmfMapSend(
    requests: seq<Intake>, accepted: set<nat>, amf: map<string, string>, updates: set<(string, string)>,
    callbacks: multiset<Callback>, c: Callback)
    requires AmfMap(requests, accepted, amf, updates, callbacks) && IssuedFor(requests, accepted, c.body.ref, c.imsi)
    ensures AmfMap(requests, accepted, amf, updates, callbacks + multiset{c})
  {
  }

  /** The AMF handles a callback. */
  lemma AmfMapHandle(
    requests: seq<Intake>, accepted: set<nat>, amf: map<string, string>, updates: set<(string, string)>,
    callbacks: multiset<Callback>, c: Callback)
    requires AmfMap(requests, accepted, amf, updates, callbacks) && c in callbacks
    ensures var a := AmfHandler.Callback(amf, c.imsi, Some(c.body));
            AmfMap(requests, accepted, a.sessions, if a.update.Some? then updates + {a.update.value} else updates,
              callbacks - multiset{c})
  {
    hide IssuedFor;
    var rest := callbacks - multiset{c};
    assert AmfMap(requests, accepted, amf, updates, rest);
    assert IssuedFor(requests, accepted, c.body.ref, c.imsi);
  }

  lemma KnownStays(repo: Repository.Table, owner: map<string, nat>, ref: string, k: nat)
    requires Known(repo, owner)
    ensures Known(repo, owner[ref := k])
  {
  }

  // ----- a request without a job changes phase -----

  predicate Jobless(p: Phase) {
    !p.Queued? && !p.Held? && !p.Settled?
  }

  lemma PlacesJobless(phases: seq<Phase>, queue: seq<nat>, dequeued: nat, holders: seq<Holder>, k: nat, p: Phase)
    requires Places(phases, queue, dequeued, holders)
    requires k < |phases| && Jobless(phases[k]) && Jobless(p)
    ensures Places(phases[k := p], queue, dequeued, holders)
  {
  }

  lemma SessionsJobless(
    requests: seq<Intake>, addrs: map<nat, U32>, phases: seq<Phase>, ats: seq<At>, repo: Repository.Table, k: nat,
    p: Phase)
    requires Sessions(requests, addrs, phases, ats, repo)
    requires k < |phases| && StandingOf(phases[k], ats) == Absent && StandingOf(p, ats) == Absent
    ensures Sessions(requests, addrs, phases[k := p], ats, repo)
  {
  }

  lemma SessionsAllocate(
    requests: seq<Intake>, addrs: map<nat, U32>, phases: seq<Phase>, ats: seq<At>, repo: Repository.Table, k: nat,
    v: U32)
    requires Sessions(requests, addrs, phases, ats, repo) && k < |phases| && phases[k] == Numbered
    ensures Sessions(requests, addrs[k := v], phases[k := Addressed], ats, repo)
  {
  }

  lemma BackedJobless(phases: seq<Phase>, ats: seq<At>, tags: map<nat, U32>, upf: set<U32>, k: nat, p: Phase)
    requires Backed(phases, ats, tags, upf) && k < |phases| && !Answered(p, ats)
    ensures Backed(phases[k := p], ats, tags, upf)
  {
  }

  lemma AddressesAllocate(counter: U32, n: nat, addrs: map<nat, U32>, owner: map<U32, nat>, k: nat)
    requires Addresses(counter, n, addrs, owner) && k !in addrs && |addrs| + 1 < TWO_32
    ensures Inc32(counter) !in owner
    ensures Addresses(Inc32(counter), n + 1, addrs[k := Inc32(counter)], owner[Inc32(counter) := k])
  {
    OffsetOfAddress(n);
    OffsetOfAddress(n + 1);
  }

  lemma IssuedStays(issued: map<U32, Quad>, owner: map<U32, nat>, addrs: map<nat, U32>, k: nat, v: U32)
    requires Issued(issued, owner, addrs) && k !in addrs
    ensures Issued(issued, owner, addrs[k := v])
  {
  }

  // ----- a job changes hands -----

  lemma PlacesEnqueue(phases: seq<Phase>, queue: seq<nat>, dequeued: nat, holders: seq<Holder>, k: nat)
    requires Places(phases, queue, dequeued, holders) && k < |phases| && Jobless(phases[k])
    ensures Places(phases[k := Queued(dequeued + |queue|)], queue + [k], dequeued, holders)
  {
  }

  lemma PlacesHandOver(phases: seq<Phase>, queue: seq<nat>, dequeued: nat, holders: seq<Holder>, k: nat, w: nat)
    requires Places(phases, queue, dequeued, holders) && k < |phases| && Jobless(phases[k])
    requires w < |holders| && !holders[w].Busy?
    ensures Places(phases[k := Held(w)], queue, dequeued, holders[w := Busy(k)])
  {
  }

  lemma PlacesDequeue(phases: seq<Phase>, queue: seq<nat>, dequeued: nat, holders: seq<Holder>, w: nat)
    requires Places(phases, queue, dequeued, holders) && queue != []
    requires w < |holders| && !holders[w].Busy?
    ensures queue[0] < |phases| && phases[queue[0]] == Queued(dequeued)
    ensures Places(phases[queue[0] := Held(w)], queue[1..], dequeued + 1, holders[w := Busy(queue[0])])
  {
    var k := queue[0];
    assert phases[queue[0]] == Queued(dequeued + 0);
    forall i | 0 <= i < |queue| - 1 ensures queue[1..][i] != k && phases[queue[1..][i]] == Queued(dequeued + 1 + i) {
      assert queue[1..][i] == queue[i + 1];
    }
  }

  lemma PlacesFinish(phases: seq<Phase>, queue: seq<nat>, dequeued: nat, holders: seq<Holder>, w: nat,
    outcome: Option<StageError>)
    requires Places(phases, queue, dequeued, holders) && w < |holders| && holders[w].Busy?
    ensures holders[w].id < |phases|
    ensures Places(phases[holders[w].id := Settled(outcome)], queue, dequeued, holders[w := Idle])
  {
  }

  lemma ProgressPhase(phases: seq<Phase>, addrs: map<nat, U32>, tags: map<nat, U32>, accepted: set<nat>, k: nat,
    p: Phase)
    requires Progress(phases, addrs, tags, accepted) && k < |phases| && !phases[k].Numbered? && !p.Numbered?
    requires k in tags ==> p.Held? || p.Settled?
    ensures Progress(phases[k := p], addrs, tags, if Accepted(p) then accepted + {k} else accepted - {k})
  {
  }

  lemma CallsHolder(
    holders: seq<Holder>, ats: seq<At>, tags: map<nat, U32>, issued: map<U32, Quad>, client: Client, upf: set<U32>,
    w: nat, h: Holder, at: At)
    requires Calls(holders, ats, tags, issued, client, upf) && w < |holders|
    requires h.Busy? ==> InCall(at, h.id, tags, issued, client, upf)
    ensures Calls(holders[w := h], ats[w := at], tags, issued, client, upf)
  {
  }

  lemma PendingHolder(holders: seq<Holder>, ats: seq<At>, client: Client, w: nat, h: Holder, at: At)
    requires Pending(holders, ats, client) && w < |holders|
    requires forall q, ch :: !InFlight(ats[w], q, ch)
    ensures Pending(holders[w := h], ats[w := at], client)
  {
    var hs := holders[w := h];
    forall q | q in client.pending
      ensures exists v :: 0 <= v < |hs| && hs[v] == Busy(client.channels[client.pending[q]].call)
                && InFlight(ats[w := at][v], q, client.pending[q])
    {
      var v :| 0 <= v < |holders| && holders[v] == Busy(client.channels[client.pending[q]].call)
                 && InFlight(ats[v], q, client.pending[q]);
      assert v != w && hs[v] == holders[v];
      assert InFlight(ats[w := at][v], q, client.pending[q]);
    }
  }

  /** Worker `w` and request `k` change together, nobody else refers to either. */
  lemma SessionsTake(
    requests: seq<Intake>, addrs: map<nat, U32>, phases: seq<Phase>, ats: seq<At>, repo: Repository.Table,
    holders: seq<Holder>, queue: seq<nat>, n: nat, w: nat, k: nat, p: Phase, at: At)
    requires Sessions(requests, addrs, phases, ats, repo) && Places(phases, queue, n, holders)
    requires w < |ats| && w < |holders| && k < |phases|
    requires forall j | 0 <= j < |phases| && phases[j] == Held(w) :: j == k
    requires StandingOf(phases[k], ats) == StandingOf(p, ats[w := at])
    ensures Sessions(requests, addrs, phases[k := p], ats[w := at], repo)
  {
    forall j | 0 <= j < |phases| && j != k ensures StandingOf(phases[j], ats[w := at]) == StandingOf(phases[j], ats) {
    }
  }

  lemma BackedTake(phases: seq<Phase>, ats: seq<At>, tags: map<nat, U32>, upf: set<U32>, w: nat, k: nat, p: Phase,
    at: At)
    requires Backed(phases, ats, tags, upf) && w < |ats| && k < |phases|
    requires forall j | 0 <= j < |phases| && phases[j] == Held(w) :: j == k
    requires Answered(p, ats[w := at]) ==> Answered(phases[k], ats)
    ensures Backed(phases[k := p], ats[w := at], tags, upf)
  {
    forall j | 0 <= j < |phases| && j != k && Answered(phases[j], ats[w := at]) ensures Answered(phases[j], ats) {
    }
  }

  lemma HandsHolder(holders: seq<Holder>, ats: seq<At>, w: nat, h: Holder, at: At)
    requires Hands(holders, ats) && w < |holders| && (at == Free <==> !h.Busy?)
    ensures Hands(holders[w := h], ats[w := at])
  {
  }

  // ----- a call takes a number -----

  lemma TagsTake(counter: U32, n: nat, tags: map<nat, U32>, owner: map<U32, nat>, k: nat)
    requires Tags(counter, n, tags, owner) && k !in tags && |tags| + 1 < TWO_32
    ensures Inc32(counter) == n + 1 && Inc32(counter) !in owner
    ensures Tags(Inc32(counter), n + 1, tags[k := Inc32(counter)], owner[Inc32(counter) := k])
  {
    assert counter == n && Inc32(counter) == n + 1;
    assert n + 1 !in owner;
    forall j | j in tags ensures tags[j] in owner && tags[j] != n + 1 {
    }
  }

  lemma IssuedTake(issued: map<U32, Quad>, owner: map<U32, nat>, addrs: map<nat, U32>, q: U32, k: nat)
    requires Issued(issued, owner, addrs) && q !in owner && k in addrs
    ensures Issued(issued[q := U32Bytes(addrs[k])], owner[q := k], addrs)
  {
  }

  lemma NetworkIssue(
    issued: map<U32, Quad>, toUpf: set<Datagram>, upf: UpfServer.Table, replies: multiset<Datagram>,
    toSmf: set<Datagram>, q: U32, ip: Quad)
    requires Network(issued, toUpf, upf, replies, toSmf) && q !in issued
    ensures Network(issued[q := ip], toUpf, upf, replies, toSmf)
  {
    forall p | p in toUpf ensures UpfServer.IsIssued(issued[q := ip], p) {
      var r :| r in issued && p == RequestBytes(ESTABLISHMENT_REQUEST, r, issued[r]);
      assert issued[q := ip][r] == issued[r];
    }
  }

  lemma CallsTake(
    holders: seq<Holder>, ats: seq<At>, tags: map<nat, U32>, issued: map<U32, Quad>, client: Client, upf: set<U32>,
    w: nat, q: U32, ip: Quad, at: At, phases: seq<Phase>, queue: seq<nat>, n: nat)
    requires Calls(holders, ats, tags, issued, client, upf) && Places(phases, queue, n, holders)
    requires w < |holders| && holders[w].Busy? && holders[w].id !in tags && q !in issued && q !in client.pending
    requires at == Register(q, RequestBytes(ESTABLISHMENT_REQUEST, q, ip))
    ensures Calls(holders, ats[w := at], tags[holders[w].id := q], issued[q := ip], client.TakeNumber(), upf)
  {
    var id := holders[w].id;
    forall v | 0 <= v < |holders| && holders[v].Busy?
      ensures InCall(ats[w := at][v], holders[v].id, tags[id := q], issued[q := ip], client.TakeNumber(), upf)
    {
      if v != w {
        assert phases[holders[v].id] == Held(v) && phases[id] == Held(w);
      }
    }
  }

  lemma BackedTag(phases: seq<Phase>, ats: seq<At>, tags: map<nat, U32>, upf: set<U32>, k: nat, q: U32)
    requires Backed(phases, ats, tags, upf) && k !in tags
    ensures Backed(phases, ats, tags[k := q], upf)
  {
  }

  lemma PendingCounter(holders: seq<Holder>, ats: seq<At>, client: Client)
    requires Pending(holders, ats, client)
    ensures Pending(holders, ats, client.TakeNumber())
  {
  }

  lemma ProgressTag(phases: seq<Phase>, addrs: map<nat, U32>, tags: map<nat, U32>, accepted: set<nat>, k: nat, q: U32)
    requires Progress(phases, addrs, tags, accepted) && k < |phases| && phases[k].Held?
    ensures Progress(phases, addrs, tags[k := q], accepted)
  {
  }

  /** A number that was not issued has no channel waiting for it. */
  lemma PendingIsIssued(
    holders: seq<Holder>, ats: seq<At>, tags: map<nat, U32>, issued: map<U32, Quad>, client: Client, upf: set<U32>,
    counter: U32, n: nat, owner: map<U32, nat>, addrs: map<nat, U32>)
    requires Calls(holders, ats, tags, issued, client, upf) && Pending(holders, ats, client)
    requires Tags(counter, n, tags, owner) && Issued(issued, owner, addrs)
    ensures forall q | q in client.pending :: q in issued
  {
    forall q | q in client.pending ensures q in issued {
      var w :| 0 <= w < |holders| && holders[w] == Busy(client.channels[client.pending[q]].call)
                 && InFlight(ats[w], q, client.pending[q]);
      assert InCall(ats[w], holders[w].id, tags, issued, client, upf);
      assert tags[holders[w].id] == q;
    }
  }

  // ----- a call registers and unregisters -----

  lemma BoxesRegister(channels: seq<Channel>, sorted: multiset<(nat, Response)>, upf: set<U32>, q: U32, id: nat)
    requires Boxes(channels, sorted, upf)
    ensures Boxes(channels + [Channel(q, id, [])], sorted, upf)
  {
  }

  lemma CallsRegister(
    holders: seq<Holder>, ats: seq<At>, tags: map<nat, U32>, issued: map<U32, Quad>, client: Client, upf: set<U32>,
    w: nat, counter: U32, n: nat, owner: map<U32, nat>, phases: seq<Phase>, queue: seq<nat>, d: nat)
    requires Calls(holders, ats, tags, issued, client, upf) && Tags(counter, n, tags, owner)
      && Places(phases, queue, d, holders)
    requires w < |holders| && holders[w].Busy? && ats[w].Register?
    ensures var Register(q, data) := ats[w];
            Calls(holders, ats[w := Write(q, |client.channels|, data)], tags, issued,
              client.Register(q, holders[w].id), upf)
  {
    var Register(q, data) := ats[w];
    var at, after := Write(q, |client.channels|, data), client.Register(q, holders[w].id);
    assert InCall(ats[w], holders[w].id, tags, issued, client, upf);
    forall v | 0 <= v < |holders| && holders[v].Busy?
      ensures InCall(ats[w := at][v], holders[v].id, tags, issued, after, upf)
    {
      assert InCall(ats[v], holders[v].id, tags, issued, client, upf);
      if v != w {
        assert phases[holders[v].id] == Held(v) && phases[holders[w].id] == Held(w);
        assert holders[v].id in tags ==> tags[holders[v].id] != q;
      }
    }
  }

  lemma PendingRegister(holders: seq<Holder>, ats: seq<At>, client: Client, w: nat, q: U32, data: Datagram)
    requires Pending(holders, ats, client) && w < |holders| && holders[w].Busy? && ats[w].Register?
    ensures Pending(holders, ats[w := Write(q, |client.channels|, data)], client.Register(q, holders[w].id))
  {
    var at, after := Write(q, |client.channels|, data), client.Register(q, holders[w].id);
    forall r | r in after.pending
      ensures exists v :: 0 <= v < |holders| && holders[v] == Busy(after.channels[after.pending[r]].call)
                && InFlight(ats[w := at][v], r, after.pending[r])
    {
      if r == q {
        assert InFlight(ats[w := at][w], q, |client.channels|);
      } else {
        var v :| 0 <= v < |holders| && holders[v] == Busy(client.channels[client.pending[r]].call)
                   && InFlight(ats[v], r, client.pending[r]);
        assert InFlight(ats[w := at][v], r, after.pending[r]);
      }
    }
  }

  lemma CallsUnregister(
    holders: seq<Holder>, ats: seq<At>, tags: map<nat, U32>, issued: map<U32, Quad>, client: Client, upf: set<U32>,
    w: nat, at: At, counter: U32, n: nat, owner: map<U32, nat>, phases: seq<Phase>, queue: seq<nat>, d: nat)
    requires Calls(holders, ats, tags, issued, client, upf) && Tags(counter, n, tags, owner)
      && Places(phases, queue, d, holders)
    requires w < |holders| && holders[w].Busy? && ats[w].Unregister? && (at.Activate? || at.AddLatency?)
    ensures Calls(holders, ats[w := at], tags, issued, client.Unregister(ats[w].seqNum), upf)
  {
    var q := ats[w].seqNum;
    assert InCall(ats[w], holders[w].id, tags, issued, client, upf);
    forall v | 0 <= v < |holders| && holders[v].Busy?
      ensures InCall(ats[w := at][v], holders[v].id, tags, issued, client.Unregister(q), upf)
    {
      assert InCall(ats[v], holders[v].id, tags, issued, client, upf);
      if v != w {
        assert phases[holders[v].id] == Held(v) && phases[holders[w].id] == Held(w);
        assert holders[v].id in tags ==> tags[holders[v].id] != q;
      }
    }
  }

  lemma PendingUnregister(
    holders: seq<Holder>, ats: seq<At>, tags: map<nat, U32>, issued: map<U32, Quad>, client: Client, upf: set<U32>,
    w: nat, at: At)
    requires Calls(holders, ats, tags, issued, client, upf) && Pending(holders, ats, client)
    requires w < |holders| && holders[w].Busy? && ats[w].Unregister?
    ensures Pending(holders, ats[w := at], client.Unregister(ats[w].seqNum))
  {
    var q := ats[w].seqNum;
    var after := client.Unregister(q);
    forall r | r in after.pending
      ensures exists v :: 0 <= v < |holders| && holders[v] == Busy(after.channels[after.pending[r]].call)
                && InFlight(ats[w := at][v], r, after.pending[r])
    {
      var v :| 0 <= v < |holders| && holders[v] == Busy(client.channels[client.pending[r]].call)
                 && InFlight(ats[v], r, client.pending[r]);
      assert v != w;
      assert InFlight(ats[w := at][v], r, after.pending[r]);
    }
  }

  // ----- a channel's contents change -----

  /** Same registrations, same channels up to their contents. */
  ghost predicate SameOwners(c: Client, d: Client) {
    && d.pending == c.pending && d.seqCounter == c.seqCounter && |d.channels| == |c.channels|
    && (forall ch | 0 <= ch < |c.channels| ::
          d.channels[ch].tag == c.channels[ch].tag && d.channels[ch].call == c.channels[ch].call)
  }

  lemma CallsContents(
    holders: seq<Holder>, ats: seq<At>, tags: map<nat, U32>, issued: map<U32, Quad>, c: Client, d: Client,
    upf: set<U32>)
    requires Calls(holders, ats, tags, issued, c, upf) && SameOwners(c, d)
    ensures Calls(holders, ats, tags, issued, d, upf)
  {
    forall w | 0 <= w < |holders| && holders[w].Busy? ensures InCall(ats[w], holders[w].id, tags, issued, d, upf) {
      assert InCall(ats[w], holders[w].id, tags, issued, c, upf);
    }
  }

  lemma PendingContents(holders: seq<Holder>, ats: seq<At>, c: Client, d: Client)
    requires Pending(holders, ats, c) && SameOwners(c, d)
    ensures Pending(holders, ats, d)
  {
    forall q | q in d.pending
      ensures exists v ::
        0 <= v < |holders| && holders[v] == Busy(d.channels[d.pending[q]].call) && InFlight(ats[v], q, d.pending[q])
    {
      var v :| 0 <= v < |holders| && holders[v] == Busy(c.channels[c.pending[q]].call)
        && InFlight(ats[v], q, c.pending[q]);
    }
  }

  lemma BoxesTake(client: Client, sorted: multiset<(nat, Response)>, upf: set<U32>, ch: nat)
    requires Boxes(client.channels, sorted, upf) && ch < |client.channels|
    ensures Boxes(client.TakeReply(ch).channels, sorted, upf) && SameOwners(client, client.TakeReply(ch))
  {
  }

  lemma BoxesPut(client: Client, sorted: multiset<(nat, Response)>, upf: set<U32>, found: (nat, Response))
    requires Boxes(client.channels, sorted, upf) && found in sorted && found.0 < |client.channels|
    ensures Boxes(client.Put(found.0, found.1).channels, sorted - multiset{found}, upf)
    ensures SameOwners(client, client.Put(found.0, found.1))
  {
  }

  // ----- datagrams -----

  lemma AnswerDecodes(q: U32)
    ensures DecodedResponse(Answer(q)) == Ok(AnswerRead(q))
  {
    ResponseRoundTrip(ESTABLISHMENT_RESPONSE, q, ACCEPTED, []);
    assert Answer(q) + [] == Answer(q);
  }

  lemma BoxesLookup(client: Client, sorted: multiset<(nat, Response)>, upf: UpfServer.Table, p: Datagram)
    requires Boxes(client.channels, sorted, upf.Keys) && client.Valid() && IsAnswer(upf, p)
    requires client.Lookup(p).Some?
    ensures Boxes(client.channels, sorted + multiset{client.Lookup(p).value}, upf.Keys)
  {
    var q :| q in upf && p == Answer(q);
    AnswerDecodes(q);
  }

  lemma NetworkSend(
    issued: map<U32, Quad>, toUpf: set<Datagram>, upf: UpfServer.Table, replies: multiset<Datagram>,
    toSmf: set<Datagram>, q: U32)
    requires Network(issued, toUpf, upf, replies, toSmf) && q in issued
    ensures Network(issued, toUpf + {RequestBytes(ESTABLISHMENT_REQUEST, q, issued[q])}, upf, replies, toSmf)
  {
  }

  lemma NetworkReply(
    issued: map<U32, Quad>, toUpf: set<Datagram>, upf: UpfServer.Table, replies: multiset<Datagram>,
    toSmf: set<Datagram>, p: Datagram)
    requires Network(issued, toUpf, upf, replies, toSmf) && p in replies
    ensures Network(issued, toUpf, upf, replies - multiset{p}, toSmf)
    ensures Network(issued, toUpf, upf, replies - multiset{p}, toSmf + {p})
  {
  }

  /** The UPF handles a datagram that the SMF sent. */
  lemma NetworkDeliver(
    issued: map<U32, Quad>, toUpf: set<Datagram>, upf: UpfServer.Table, replies: multiset<Datagram>,
    toSmf: set<Datagram>, p: Datagram)
    requires Network(issued, toUpf, upf, replies, toSmf) && p in toUpf
    ensures var h := UpfServer.Handle(upf, p);
            h.reply.Some? && upf.Keys <= h.table.Keys
              && Network(issued, toUpf, h.table, replies + multiset{h.reply.value}, toSmf)
  {
    var q :| q in issued && p == RequestBytes(ESTABLISHMENT_REQUEST, q, issued[q]);
    UpfServer.HandleEstablishment(upf, q, issued[q]);
    var h := UpfServer.Handle(upf, p);
    assert IsAnswer(h.table, Answer(q));
    forall d | IsAnswer(upf, d) ensures IsAnswer(h.table, d) {
      var r :| r in upf && d == Answer(r);
      assert r in h.table;
    }
  }

  lemma UpfGrows(
    channels: seq<Channel>, sorted: multiset<(nat, Response)>, holders: seq<Holder>, ats: seq<At>, tags: map<nat, U32>,
    issued: map<U32, Quad>, client: Client, phases: seq<Phase>, upf: set<U32>, wider: set<U32>)
    requires upf <= wider
    requires Boxes(channels, sorted, upf) && Calls(holders, ats, tags, issued, client, upf)
      && Backed(phases, ats, tags, upf)
    ensures Boxes(channels, sorted, wider) && Calls(holders, ats, tags, issued, client, wider)
      && Backed(phases, ats, tags, wider)
  {
    forall w | 0 <= w < |holders|
      && holders[w].Busy? ensures InCall(ats[w], holders[w].id, tags, issued, client, wider) {
      assert InCall(ats[w], holders[w].id, tags, issued, client, upf);
    }
  }

  // ----- a session is written -----

  lemma SessionsWrite(
    requests: seq<Intake>, addrs: map<nat, U32>, phases: seq<Phase>, ats: seq<At>, repo: Repository.Table, w: nat,
    at: At,
    v: Repository.Session, counter: U64, owner: map<string, nat>, k: nat)
    requires Sessions(requests, addrs, phases, ats, repo) && Refs(counter, requests, owner)
    requires w < |ats| && k < |requests| && phases[k] == Held(w)
    requires forall j | 0 <= j < |phases| && phases[j] == Held(w) :: j == k
    requires Stands(repo[requests[k].ref := v], requests[k].ref, IpText(addrs, k), AtStanding(at))
    ensures Sessions(requests, addrs, phases, ats[w := at], repo[requests[k].ref := v])
  {
    hide Stands, AtStanding;
    var ref := requests[k].ref;
    forall j | 0 <= j < |requests|
      ensures Stands(repo[ref := v], requests[j].ref, IpText(addrs, j), StandingOf(phases[j], ats[w := at]))
    {
      if j != k {
        assert StandingOf(phases[j], ats[w := at]) == StandingOf(phases[j], ats);
        StandsElsewhere(repo, ref, v, requests[j].ref, IpText(addrs, j), StandingOf(phases[j], ats));
      }
    }
  }

  lemma StandsElsewhere(repo: Repository.Table, ref: string, v: Repository.Session, other: string, ip: string,
    st: Standing)
    requires Stands(repo, other, ip, st) && other != ref
    ensures Stands(repo[ref := v], other, ip, st)
  {
  }

  lemma StatusesWrite(
    repo: Repository.Table, ats: seq<At>, succeeded: nat, failed: nat, rejected: nat, unsaved: nat, w: nat, at: At,
    ref: string, ip: string, v: Repository.Session)
    requires Statuses(repo, ats, succeeded, failed, rejected, unsaved) && w < |ats|
    requires Stands(repo, ref, ip, AtStanding(ats[w])) && Stands(repo[ref := v], ref, ip, AtStanding(at))
    requires AwaitingMark(ats[w]) == AtStanding(at).Failed? && !AwaitingMark(at) && !AtStanding(ats[w]).Failed?
    ensures Statuses(repo[ref := v], ats[w := at], succeeded, failed, rejected, unsaved)
  {
    CountUpdate(ats, w, at, ActiveUnsettled);
    CountUpdate(ats, w, at, AwaitingMark);
    CountUpdate(ats, w, at, AtCreating);
    Repository.StatusCountUpdate(repo, ref, v, {Repository.ACTIVE});
    Repository.StatusCountUpdate(repo, ref, v, {Repository.FAILED});
    Repository.StatusCountUpdate(repo, ref, v, {Repository.CREATING});
  }

  lemma KnownWrite(repo: Repository.Table, owner: map<string, nat>, ref: string, v: Repository.Session)
    requires Known(repo, owner) && ref in owner && v.ref == ref
    ensures Known(repo[ref := v], owner)
  {
  }
}

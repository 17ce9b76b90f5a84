/** The UPF: a session table keyed by PFCP sequence number, updated by each datagram. */
module UpfServer {
  import opened Address
  import opened Bytes
  import opened Codec
  import opened Wrappers

  datatype Session = Session(seqNum: U32, pdnType: Byte, ip: Quad)
  type Table = map<U32, Session>
  datatype Handled = Handled(table: Table, reply: Option<Datagram>)

  /** What a decoded request does to the table: a modification changes an existing entry, everything
      else makes a new one. */
  function Absorb(t: Table, req: Request): Table {
    var s := req.header.sequenceNumber;
    if req.header.messageType == MODIFICATION_REQUEST && s in t
    then t[s := t[s].(ip := req.ip, pdnType := req.pdnType)]
    else t[s := Session(s, req.pdnType, req.ip)]
  }

  function ReplyType(messageType: Byte): Byte {
    if messageType == ESTABLISHMENT_REQUEST then ESTABLISHMENT_RESPONSE else MODIFICATION_RESPONSE
  }

  /** What one datagram does to the table, and the reply it earns. */
  function Handle(t: Table, data: Datagram): Handled {
    if |data| < 2 || data[1] !in {ESTABLISHMENT_REQUEST, MODIFICATION_REQUEST} then Handled(t, None)
    else match DecodedRequest(data)
      case Err(_) => Handled(t, None)
      case Ok(req) =>
        Handled(Absorb(t, req), Some(ResponseBytes(ReplyType(data[1]), req.header.sequenceNumber, ACCEPTED)))
  }

  lemma HandleCases(t: Table, data: Datagram)
    ensures |data| < 2 ==> Handle(t, data) == Handled(t, None)
    ensures |data| >= 2 && data[1] != 50 && data[1] != 52 ==> Handle(t, data) == Handled(t, None)
    ensures DecodedRequest(data).Err? ==> Handle(t, data) == Handled(t, None)
    ensures |data| >= 2 && (data[1] == 50 || data[1] == 52) && DecodedRequest(data).Ok? ==>
      var r := DecodedRequest(data).value;
      Handle(t, data) == Handled(Absorb(t, r),
        Some(ResponseBytes(if data[1] == 50 then 51 else 53, r.header.sequenceNumber, 1)))
  {
  }

  /** The table holds each session under its own number. */
  ghost predicate WellKept(t: Table) {
    forall k | k in t :: t[k].seqNum == k
  }

  /** What a datagram of either type leaves under the number it bears, byte by byte, and what it leaves
      alone; and which datagrams are answered, with what. */
  lemma HandleExactly(t: Table, data: Datagram)
    requires WellKept(t)
    ensures var good := |data| >= 13 && (data[1] == 50 || data[1] == 52) && data[0] == 0x20;
            var h := Handle(t, data);
            && WellKept(h.table) && (!good ==> h == Handled(t, None))
            && (good ==>
                  && h.table == t[SeqAt(data) := Session(SeqAt(data), data[8], [data[9], data[10], data[11], data[12]])]
                  && h.reply.Some? && var r := h.reply.value;
                     && |r| == 9 && r[0] == 0x20 && r[1] == data[1] + 1 && r[2] == 0 && r[3] == 1
                     && r[4..8] == data[4..8] && r[8] == 1)
  {
    HandleCases(t, data);
    RequestFields(data);
    if |data| >= 13 && (data[1] == 50 || data[1] == 52) && data[0] == 0x20 {
      var s := SeqAt(data);
      ResponseLayout(data[1] + 1, s, 1);
      var r := ResponseBytes(data[1] + 1, s, 1);
      WeighedBytes(data[4], data[5], data[6], data[7]);
      WeighedBytes(r[4], r[5], r[6], r[7]);
      assert r[4..8] == [r[4], r[5], r[6], r[7]] && data[4..8] == [data[4], data[5], data[6], data[7]];
    }
  }

  /** A datagram longer than the read buffer is handled as if it had been read whole. */
  lemma HandleSeen(t: Table, packet: Datagram)
    ensures Handle(t, Seen(packet)) == Handle(t, packet)
  {
    SeenSuffices(packet);
  }

  /** The table after a whole sequence of deliveries. */
  function Deliver(t: Table, packets: seq<Datagram>): Table
    decreases |packets|
  {
    if packets == [] then t else Deliver(Handle(t, packets[0]).table, packets[1..])
  }

  /** What one turn does to the table. */
  lemma TurnDelivers(t: Table, waiting: seq<Datagram>, turns: seq<Turn>, i: nat)
    requires i < |turns|
    ensures turns[i].Arrives? ==> Order(waiting, turns[i..]) == Order(waiting + [turns[i].packet], turns[i + 1..])
    ensures turns[i].Runs? && turns[i].i < |waiting| ==>
      Deliver(t, Order(waiting, turns[i..]))
      == Deliver(Handle(t, waiting[turns[i].i]).table, Order(Without(waiting, turns[i].i), turns[i + 1..]))
    ensures turns[i].Runs? && turns[i].i >= |waiting| ==> Order(waiting, turns[i..]) == Order(waiting, turns[i + 1..])
  {
    assert turns[i..][1..] == turns[i + 1..];
  }

  lemma NoTurns(t: Table, waiting: seq<Datagram>, turns: seq<Turn>)
    ensures Deliver(t, Order(waiting, turns[|turns|..])) == t
  {
  }

  // ----- confluence -----

  /** A datagram that the SMF sent while `issued` records the address of each sequence number. */
  ghost predicate IsIssued(issued: map<U32, Quad>, p: Datagram) {
    exists s :: s in issued && p == RequestBytes(ESTABLISHMENT_REQUEST, s, issued[s])
  }

  ghost function Installed(issued: map<U32, Quad>, packets: seq<Datagram>): Table {
    map s | s in issued && RequestBytes(ESTABLISHMENT_REQUEST, s, issued[s]) in packets
      :: Session(s, PDN_IPV4, issued[s])
  }

  lemma HandleEstablishment(t: Table, s: U32, ip: Quad)
    ensures Handle(t, RequestBytes(ESTABLISHMENT_REQUEST, s, ip))
         == Handled(t[s := Session(s, PDN_IPV4, ip)], Some(ResponseBytes(ESTABLISHMENT_RESPONSE, s, ACCEPTED)))
  {
    var p := RequestBytes(ESTABLISHMENT_REQUEST, s, ip);
    RequestRoundTrip(ESTABLISHMENT_REQUEST, s, ip, []);
    assert p + [] == p;
  }

  lemma RequestBytesInjective(s1: U32, ip1: Quad, s2: U32, ip2: Quad)
    requires RequestBytes(ESTABLISHMENT_REQUEST, s1, ip1) == RequestBytes(ESTABLISHMENT_REQUEST, s2, ip2)
    ensures s1 == s2 && ip1 == ip2
  {
    RequestRoundTrip(ESTABLISHMENT_REQUEST, s1, ip1, []);
    RequestRoundTrip(ESTABLISHMENT_REQUEST, s2, ip2, []);
  }

  lemma InstalledFirst(issued: map<U32, Quad>, s: U32, rest: seq<Datagram>)
    requires s in issued
    ensures Installed(issued, [RequestBytes(ESTABLISHMENT_REQUEST, s, issued[s])] + rest)
         == Installed(issued, rest)[s := Session(s, PDN_IPV4, issued[s])]
  {
    var p := RequestBytes(ESTABLISHMENT_REQUEST, s, issued[s]);
    forall k | k in issued && RequestBytes(ESTABLISHMENT_REQUEST, k, issued[k]) == p ensures k == s {
      RequestBytesInjective(k, issued[k], s, issued[s]);
    }
  }

  /** The table holds exactly the establishments that arrived at least once. */
  lemma {:induction false} DeliverInstalls(t: Table, issued: map<U32, Quad>, packets: seq<Datagram>)
    requires forall p | p in packets :: IsIssued(issued, p)
    ensures Deliver(t, packets) == t + Installed(issued, packets)
    decreases |packets|
  {
    if packets == [] {
      assert Installed(issued, packets) == map[];
    } else {
      var p, rest := packets[0], packets[1..];
      assert packets == [p] + rest && p in packets;
      var s :| s in issued && p == RequestBytes(ESTABLISHMENT_REQUEST, s, issued[s]);
      HandleEstablishment(t, s, issued[s]);
      InstalledFirst(issued, s, rest);
      DeliverInstalls(t[s := Session(s, PDN_IPV4, issued[s])], issued, rest);
      InstallThen(t, s, Session(s, PDN_IPV4, issued[s]), Installed(issued, rest));
    }
  }

  lemma InstallThen(t: Table, s: U32, v: Session, rest: Table)
    requires s in rest ==> rest[s] == v
    ensures t[s := v] + rest == t + rest[s := v]
  {
  }

  /** For the requests of one SMF, order and multiplicity of delivery do not matter: only the set
      of datagrams that arrived does. */
  lemma UpfConfluence(t: Table, issued: map<U32, Quad>, ps: seq<Datagram>, qs: seq<Datagram>)
    requires forall p | p in ps :: IsIssued(issued, p)
    requires forall p :: p in ps <==> p in qs
    ensures Deliver(t, ps) == Deliver(t, qs)
  {
    DeliverInstalls(t, issued, ps);
    DeliverInstalls(t, issued, qs);
    assert Installed(issued, ps) == Installed(issued, qs);
  }

  /** Without a single issuer the order can matter, and exactly then: two establishments commute on
      every table unless they share the sequence number and disagree on the session. */
  lemma EstablishmentsCommute(p: Datagram, q: Datagram)
    requires DecodedRequest(p).Ok? && DecodedRequest(q).Ok?
    requires p[1] == q[1] == ESTABLISHMENT_REQUEST
    ensures (forall t: Table :: Deliver(t, [p, q]) == Deliver(t, [q, p]))
       <==> (p[4..8] != q[4..8] || p[8..13] == q[8..13])
  {
    var a, b := DecodedRequest(p).value, DecodedRequest(q).value;
    var s, r := a.header.sequenceNumber, b.header.sequenceNumber;
    var sa, sb := Session(s, a.pdnType, a.ip), Session(r, b.pdnType, b.ip);
    U32BytesRoundTrip(p[4..8]);
    U32BytesRoundTrip(q[4..8]);
    assert p[8..13] == [p[8]] + p[9..13] && q[8..13] == [q[8]] + q[9..13];
    assert p[8..13] == q[8..13] <==> p[8] == q[8] && p[9..13] == q[9..13] by {
      if p[8..13] == q[8..13] {
        assert p[8..13][1..] == p[9..13] && q[8..13][1..] == q[9..13];
      }
    }
    forall t: Table
      ensures Deliver(t, [p, q]) == t[s := sa][r := sb] && Deliver(t, [q, p]) == t[r := sb][s := sa]
    {
      DeliverTwo(t, p, q);
      DeliverTwo(t, q, p);
    }
    if s == r && sa != sb {
      var empty: Table := map[];
      assert Deliver(empty, [p, q])[s] == sb && Deliver(empty, [q, p])[s] == sa;
    }
  }

  lemma DeliverTwo(t: Table, p: Datagram, q: Datagram)
    ensures Deliver(t, [p, q]) == Handle(Handle(t, p).table, q).table
  {
    assert [p, q][1..] == [q];
    assert [q][1..] == [];
    var t1 := Handle(t, p).table;
    assert Deliver(t1, [q]) == Deliver(Handle(t1, q).table, []);
  }

  // ----- the server on the heap -----

  /** A table that differs from another in one entry. */
  lemma OneEntry(t: Table, u: Table, s: U32, v: Session)
    requires u.Keys == t.Keys + {s} && u[s] == v
    requires forall k | k in t && k != s :: u[k] == t[k]
    ensures u == t[s := v]
  {
  }

  class UPFSession {
    var seqNum: U32
    var pdnType: Byte
    var ip: Slice

    constructor (seqNum: U32, pdnType: Byte, ip: Slice)
      ensures this.seqNum == seqNum && this.pdnType == pdnType && this.ip == ip
    {
      this.seqNum, this.pdnType, this.ip := seqNum, pdnType, ip;
    }

    ghost predicate Valid()
      reads this
    {
      ip.Valid() && ip.hi - ip.lo == 4
    }

    ghost function Model(): Session
      requires Valid()
      reads this, ip.base
    {
      Session(seqNum, pdnType, ip.Contents())
    }

    method Replace(pdnType: Byte, ip: Slice)
      requires ip.Valid() && ip.hi - ip.lo == 4
      modifies this
      ensures Valid() && seqNum == old(seqNum)
      ensures this.ip == ip && Model() == Session(old(seqNum), pdnType, ip.Contents())
    {
      this.ip := ip;
      this.pdnType := pdnType;
    }
  }

  class Server {
    var sessions: map<U32, UPFSession>
    var buf: array<Byte>
    ghost var Repr: set<object>  // the stored sessions and the datagrams their addresses lie in

    ghost predicate Valid()
      reads this, Repr
    {
      && buf.Length == READ_BUFFER
      && buf !in Repr && this !in Repr
      && (forall k | k in sessions ::
            && sessions[k] in Repr && sessions[k].ip.base in Repr
            && sessions[k].Valid() && sessions[k].seqNum == k)
    }

    /** The session table as a value, addresses read through the stored windows. */
    ghost function Model(): Table
      requires Valid()
      reads this, Repr
    {
      map k | k in sessions :: sessions[k].Model()
    }

    constructor ()
      ensures Valid() && Model() == map[]
      ensures fresh(buf) && fresh(Repr)
    {
      sessions := map[];
      buf := new Byte[READ_BUFFER];
      Repr := {};
    }

    /** `ReadFromUDP(buf)`: overwrites the shared buffer and cuts a longer datagram. No stored
        session sees the change. */
    method ReadFromUDP(packet: Datagram) returns (n: nat)
      requires Valid()
      modifies buf
      ensures Valid() && Model() == old(Model())
      ensures n <= buf.Length && buf[..n] == Seen(packet)
    {
      n := if |packet| <= READ_BUFFER then |packet| else READ_BUFFER;
      CopyInto(buf, 0, packet[..n]);
      assert buf[..n] == packet[..n];
      assert packet[..|packet|] == packet;
    }

    /** Puts a session under its own number. */
    method Insert(sess: UPFSession)
      requires Valid() && sess.Valid() && sess.ip.base != buf
      modifies this`sessions, this`Repr
      ensures Valid() && sessions == old(sessions)[sess.seqNum := sess] && Repr == old(Repr) + {sess, sess.ip.base}
      ensures Model() == old(Model())[sess.seqNum := sess.Model()]
    {
      hide UPFSession.Model, Slice.Contents;
      ghost var before: Table := Model();
      sessions := sessions[sess.seqNum := sess];
      Repr := Repr + {sess, sess.ip.base};
      OneEntry(before, Model(), sess.seqNum, sess.Model());
    }

    /** A new entry under the request's sequence number; its address is a window on the datagram. */
    method Install(req: PFCPSessionRequest)
      requires Valid() && req.Valid() && req.ip.base != buf
      modifies this`sessions, this`Repr
      ensures Valid() && req.header.sequenceNumber in sessions && fresh(sessions[req.header.sequenceNumber])
      ensures Repr == old(Repr) + {sessions[req.header.sequenceNumber], req.ip.base}
      ensures Model() == old(Model())[req.header.sequenceNumber :=
                Session(req.header.sequenceNumber, req.pdnType, req.ip.Contents())]
    {
      hide Slice.Contents;
      var sess := new UPFSession(req.header.sequenceNumber, req.pdnType, req.ip);
      Insert(sess);
    }

    /** Changes an existing entry in place. */
    method Update(req: PFCPSessionRequest)
      requires Valid() && req.Valid() && req.ip.base != buf && req !in Repr
      requires req.header.sequenceNumber in sessions
      modifies sessions[req.header.sequenceNumber], this`Repr
      ensures Valid() && Repr == old(Repr) + {req.ip.base}
      ensures Model() == old(Model())[req.header.sequenceNumber :=
                old(Model())[req.header.sequenceNumber].(ip := req.ip.Contents(), pdnType := req.pdnType)]
    {
      hide Slice.Contents;
      ghost var before: Table := Model();
      var s := req.header.sequenceNumber;
      var sess := sessions[s];
      assert forall k | k in sessions && sessions[k] == sess :: k == s;
      sess.Replace(req.pdnType, req.ip);
      Repr := Repr + {req.ip.base};
      assert Valid();
      assert sess.Model() == before[s].(ip := req.ip.Contents(), pdnType := req.pdnType);
      OneEntry(before, Model(), s, sess.Model());
    }

    method Store(req: PFCPSessionRequest)
      requires Valid() && req.Valid() && req.ip.base != buf && req !in Repr
      modifies this`sessions, this`Repr, Repr
      ensures Valid() && fresh(Repr - old(Repr) - {req.ip.base})
      ensures Model() == Absorb(old(Model()), old(req.Model()))
    {
      if req.header.messageType == 52 && req.header.sequenceNumber in sessions {
        Update(req);
      } else {
        Install(req);
      }
    }

    /** Stores first, then answers. */
    method HandlePacket(data: array<Byte>) returns (reply: array?<Byte>)
      requires Valid() && data != buf
      modifies this`sessions, this`Repr, Repr
      ensures Valid() && fresh(Repr - old(Repr) - {data})
      ensures Model() == Handle(old(Model()), old(data[..])).table
      ensures Handle(old(Model()), old(data[..])).reply == if reply == null then None else Some(reply[..])
    {
      hide Handle, DecodedRequest, ResponseBytes, Absorb, HeaderOf, U32Bytes;
      hide Server.Model, PFCPSessionRequest.Model, Slice.Contents;
      ghost var bytes, before := data[..], Model();
      HandleCases(before, bytes);
      if data.Length < 2 {
        return null;
      }
      var messageType := data[1];
      if messageType != 50 && messageType != 52 {
        return null;
      }
      var req, err := DecodeRequest(data);
      if req == null {
        return null;
      }
      var s := req.header.sequenceNumber;
      ghost var decoded := req.Model();
      assert DecodedRequest(bytes) == Ok(decoded);
      Store(req);
      assert Model() == Absorb(before, decoded);
      reply := EncodeResponse(if messageType == 50 then 51 else 53, s, 1);
    }

    /** One read of the listen loop: into the shared buffer, and out of it as a copy. No stored session sees
        it. */
    method ListenOnce(packet: Datagram) returns (data: array<Byte>)
      requires Valid()
      modifies buf
      ensures Valid() && Model() == old(Model())
      ensures fresh(data) && data[..] == Seen(packet)
    {
      var n := ReadFromUDP(packet);
      data := CopyOf(buf, n);
    }

    /** The listen loop and the goroutines it starts, in any interleaving. The shared buffer is overwritten
        while copies wait and sessions are stored, yet the table is the one the datagrams alone determine, in
        the order in which they are handled. */
    method ListenLoop(turns: seq<Turn>)
      requires Valid()
      modifies this`sessions, this`Repr, Repr, buf
      ensures Valid() && Model() == Deliver(old(Model()), Order([], turns))
    {
      hide Handle, Seen, Order, Deliver, DecodedRequest;
      var waiting: seq<array<Byte>> := [];
      ghost var packets: seq<Datagram> := [];
      for i := 0 to |turns|
        invariant Valid() && fresh(Repr - old(Repr)) && buf == old(buf)
        invariant |packets| == |waiting|
        invariant forall j | 0 <= j < |waiting| ::
          fresh(waiting[j]) && waiting[j] !in Repr && waiting[j][..] == Seen(packets[j])
        invariant forall j, k | 0 <= j < k < |waiting| :: waiting[j] != waiting[k]
        invariant Deliver(Model(), Order(packets, turns[i..])) == Deliver(old(Model()), Order([], turns))
      {
        TurnDelivers(Model(), packets, turns, i);
        match turns[i] {
          case Arrives(packet) =>
            var data := ListenOnce(packet);
            waiting, packets := waiting + [data], packets + [packet];
          case Runs(j) =>
            if j < |waiting| {
              HandleSeen(Model(), packets[j]);
              var reply := HandlePacket(waiting[j]);
              waiting, packets := Without(waiting, j), Without(packets, j);
            }
        }
      }
      NoTurns(Model(), packets, turns);
    }
  }
}

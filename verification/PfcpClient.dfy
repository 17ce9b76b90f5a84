/** The SMF's PFCP client: one UDP port shared by all calls, replies sorted by sequence number. */
module PfcpClient {
  import opened Address
  import opened Bytes
  import opened Codec
  import opened Wrappers

  // ----- the client as a value -----

  /** A reply channel with room for one response. `tag` and `call` record for whom it was made. */
  datatype Channel = Channel(tag: U32, call: nat, buf: seq<Response>)

  datatype Client = Client(seqCounter: U32, pending: map<U32, nat>, channels: seq<Channel>) {

    ghost predicate Valid() {
      forall s | s in pending :: pending[s] < |channels| && channels[pending[s]].tag == s
    }

    function TakeNumber(): Client {
      this.(seqCounter := Inc32(seqCounter))
    }

    function Register(s: U32, call: nat): Client {
      this.(pending := pending[s := |channels|], channels := channels + [Channel(s, call, [])])
    }

    function Unregister(s: U32): Client {
      this.(pending := pending - {s})
    }

    /** The first half of handling a reply: which channel it is for. */
    function Lookup(data: Datagram): Option<(nat, Response)> {
      match DecodedResponse(data)
      case Err(_) => None
      case Ok(res) =>
        if res.header.sequenceNumber in pending then Some((pending[res.header.sequenceNumber], res)) else None
    }

    /** The second half: put it there unless the channel is full. */
    function Put(ch: nat, res: Response): Client
      requires ch < |channels|
    {
      if channels[ch].buf == [] then this.(channels := channels[ch := channels[ch].(buf := [res])]) else this
    }

    function TakeReply(ch: nat): Client
      requires ch < |channels|
    {
      this.(channels := channels[ch := channels[ch].(buf := [])])
    }

    /** What each waiting call would find in its channel. */
    ghost function Mailboxes(): map<U32, seq<Response>>
      requires Valid()
    {
      map s | s in pending :: channels[pending[s]].buf
    }
  }

  /** One reply handled at once. */
  function Deliver(boxes: map<U32, seq<Response>>, data: Datagram): map<U32, seq<Response>> {
    match DecodedResponse(data)
    case Err(_) => boxes
    case Ok(res) =>
      var s := res.header.sequenceNumber;
      if s in boxes && boxes[s] == [] then boxes[s := [res]] else boxes
  }

  lemma DeliverSeen(boxes: map<U32, seq<Response>>, packet: Datagram)
    ensures Deliver(boxes, Seen(packet)) == Deliver(boxes, packet)
  {
    SeenSuffices(packet);
  }

  /** Looking up and putting without interruption is handling the reply at once. */
  lemma LookupThenPut(c: Client, data: Datagram)
    requires c.Valid()
    ensures c.Lookup(data).Some? ==>
      var (ch, res) := c.Lookup(data).value;
      ch < |c.channels| && c.Put(ch, res).Valid() && c.Put(ch, res).Mailboxes() == Deliver(c.Mailboxes(), data)
    ensures c.Lookup(data).None? ==> c.Mailboxes() == Deliver(c.Mailboxes(), data)
  {
  }

  function DeliverAll(boxes: map<U32, seq<Response>>, arrivals: seq<Datagram>): map<U32, seq<Response>>
    decreases |arrivals|
  {
    if arrivals == [] then boxes else DeliverAll(Deliver(boxes, arrivals[0]), arrivals[1..])
  }

  /** What one turn does to the boxes. */
  lemma TurnDelivers(boxes: map<U32, seq<Response>>, waiting: seq<Datagram>, turns: seq<Turn>, i: nat)
    requires i < |turns|
    ensures turns[i].Arrives? ==> Order(waiting, turns[i..]) == Order(waiting + [turns[i].packet], turns[i + 1..])
    ensures turns[i].Runs? && turns[i].i < |waiting| ==>
      DeliverAll(boxes, Order(waiting, turns[i..]))
      == DeliverAll(Deliver(boxes, waiting[turns[i].i]), Order(Without(waiting, turns[i].i), turns[i + 1..]))
    ensures turns[i].Runs? && turns[i].i >= |waiting| ==> Order(waiting, turns[i..]) == Order(waiting, turns[i + 1..])
  {
    assert turns[i..][1..] == turns[i + 1..];
  }

  lemma NoTurns(boxes: map<U32, seq<Response>>, waiting: seq<Datagram>, turns: seq<Turn>)
    ensures DeliverAll(boxes, Order(waiting, turns[|turns|..])) == boxes
  {
  }

  predicate IsReplyFor(data: Datagram, s: U32) {
    DecodedResponse(data).Ok? && DecodedResponse(data).value.header.sequenceNumber == s
  }

  /** The first reply to `s` among the arrivals. */
  function FirstReply(arrivals: seq<Datagram>, s: U32): seq<Response>
    decreases |arrivals|
  {
    if arrivals == [] then []
    else if IsReplyFor(arrivals[0], s) then [DecodedResponse(arrivals[0]).value]
    else FirstReply(arrivals[1..], s)
  }

  /** Every box ends up with what it held, or else with the first reply to its own number: late,
      duplicate and foreign replies change nothing. */
  lemma {:induction false} DeliverAllByNumber(boxes: map<U32, seq<Response>>, arrivals: seq<Datagram>)
    ensures DeliverAll(boxes, arrivals).Keys == boxes.Keys
    ensures forall s | s in boxes ::
      DeliverAll(boxes, arrivals)[s] == if boxes[s] != [] then boxes[s] else FirstReply(arrivals, s)
    decreases |arrivals|
  {
    if arrivals == [] {
    } else {
      DeliverAllByNumber(Deliver(boxes, arrivals[0]), arrivals[1..]);
    }
  }

  // ----- the client on the heap -----

  class ReplyChannel {
    ghost const tag: U32
    var buf: seq<Response>

    constructor (ghost tag: U32)
      ensures this.tag == tag && buf == []
    {
      this.tag := tag;
      buf := [];
    }
  }

  datatype CallError = NotEncoded | NotSent | Rejected | TimedOut

  /** What a waiting call makes of the first reply to its number, if any. */
  function OutcomeOf(first: seq<Response>, expired: bool): Result<Response, CallError> {
    if first == [] || expired then Err(TimedOut)
    else if first[0].cause == ACCEPTED then Ok(first[0])
    else Err(Rejected)
  }

  /** No cross-talk for one call: it succeeds exactly when some arrival bears its own number and the
      first such arrival accepts, and what it returns is that arrival. */
  lemma {:induction false} CallSucceedsOnOwnReply(arrivals: seq<Datagram>, s: U32)
    ensures OutcomeOf(FirstReply(arrivals, s), false).Ok? <==>
      exists i :: 0 <= i < |arrivals| && IsFirstReply(arrivals, s, i)
        && DecodedResponse(arrivals[i]).value.cause == ACCEPTED
    ensures forall i | 0 <= i < |arrivals| && IsFirstReply(arrivals, s, i) ::
      FirstReply(arrivals, s) == [DecodedResponse(arrivals[i]).value]
  {
    FirstReplyIsFirst(arrivals, s);
  }

  ghost predicate IsFirstReply(arrivals: seq<Datagram>, s: U32, i: nat) {
    i < |arrivals| && IsReplyFor(arrivals[i], s) && forall j | 0 <= j < i :: !IsReplyFor(arrivals[j], s)
  }

  lemma {:induction false} FirstReplyIsFirst(arrivals: seq<Datagram>, s: U32)
    ensures FirstReply(arrivals, s) == [] ==> forall j | 0 <= j < |arrivals| :: !IsReplyFor(arrivals[j], s)
    ensures FirstReply(arrivals, s) != [] ==>
      exists i :: 0 <= i < |arrivals| && IsFirstReply(arrivals, s, i)
        && FirstReply(arrivals, s) == [DecodedResponse(arrivals[i]).value]
    decreases |arrivals|
  {
    if arrivals == [] {
    } else if IsReplyFor(arrivals[0], s) {
      assert IsFirstReply(arrivals, s, 0);
    } else {
      var rest := arrivals[1..];
      FirstReplyIsFirst(rest, s);
      if FirstReply(rest, s) == [] {
        forall j | 0 <= j < |arrivals| ensures !IsReplyFor(arrivals[j], s) {
          if j > 0 {
            assert arrivals[j] == rest[j - 1];
          }
        }
      } else {
        var i :| 0 <= i < |rest| && IsFirstReply(rest, s, i) && FirstReply(rest, s) == [DecodedResponse(rest[i]).value];
        forall j | 0 <= j < i + 1 ensures !IsReplyFor(arrivals[j], s) {
          if j > 0 {
            assert arrivals[j] == rest[j - 1];
          }
        }
        assert arrivals[i + 1] == rest[i];
        assert IsFirstReply(arrivals, s, i + 1);
      }
    }
  }

  class PFCPClient {
    var seqCounter: U32
    var pending: map<U32, ReplyChannel>
    ghost var Repr: set<ReplyChannel>

    ghost predicate Valid()
      reads `pending, `Repr, Repr
    {
      forall s | s in pending :: pending[s] in Repr && pending[s].tag == s
    }

    ghost function Mailboxes(): map<U32, seq<Response>>
      requires Valid()
      reads `pending, `Repr, Repr
    {
      map s | s in pending :: pending[s].buf
    }

    constructor ()
      ensures Valid() && seqCounter == 0 && Mailboxes() == map[] && fresh(Repr)
    {
      seqCounter := 0;
      pending := map[];
      Repr := {};
    }

    method HandleResponse(data: array<Byte>)
      requires Valid()
      modifies Repr
      ensures Valid() && Mailboxes() == Deliver(old(Mailboxes()), data[..])
    {
      var res := DecodeResponse(data);
      if res.Ok? && res.value.header.sequenceNumber in pending {
        var ch := pending[res.value.header.sequenceNumber];
        if |ch.buf| < 1 {
          ch.buf := ch.buf + [res.value];
          assert ch.buf == [res.value];
        }
      }
    }

    /** One read of the receive loop: into the shared buffer, and out of it as a copy. */
    method ReceiveOnce(buf: array<Byte>, packet: Datagram) returns (data: array<Byte>)
      requires buf.Length == READ_BUFFER
      modifies buf
      ensures fresh(data) && data[..] == Seen(packet)
    {
      var n := if |packet| <= buf.Length then |packet| else buf.Length;
      CopyInto(buf, 0, packet[..n]);
      data := CopyOf(buf, n);
    }

    /** The receive loop and the goroutines it starts, in any interleaving, while a call waits. */
    method ReceiveLoop(buf: array<Byte>, turns: seq<Turn>)
      requires Valid() && buf.Length == READ_BUFFER
      modifies Repr, buf
      ensures Valid() && Mailboxes() == DeliverAll(old(Mailboxes()), Order([], turns))
    {
      hide Deliver, Seen, Order, DeliverAll;
      var waiting: seq<array<Byte>> := [];
      ghost var packets: seq<Datagram> := [];
      for i := 0 to |turns|
        invariant Valid() && |packets| == |waiting|
        invariant forall j | 0 <= j < |waiting| :: fresh(waiting[j]) && waiting[j][..] == Seen(packets[j])
        invariant DeliverAll(Mailboxes(), Order(packets, turns[i..])) == DeliverAll(old(Mailboxes()), Order([], turns))
      {
        TurnDelivers(Mailboxes(), packets, turns, i);
        match turns[i] {
          case Arrives(packet) =>
            var data := ReceiveOnce(buf, packet);
            waiting, packets := waiting + [data], packets + [packet];
          case Runs(j) =>
            if j < |waiting| {
              DeliverSeen(Mailboxes(), packets[j]);
              HandleResponse(waiting[j]);
              waiting, packets := Without(waiting, j), Without(packets, j);
            }
        }
      }
      NoTurns(Mailboxes(), packets, turns);
    }

    method Register(s: U32) returns (ch: ReplyChannel)
      requires Valid()
      modifies this`pending, this`Repr
      ensures Valid() && fresh(ch) && Repr == old(Repr) + {ch}
      ensures s in pending && pending[s] == ch && ch.buf == []
      ensures Mailboxes() == old(Mailboxes())[s := []]
    {
      ch := new ReplyChannel(s);
      pending := pending[s := ch];
      Repr := Repr + {ch};
    }

    method Unregister(s: U32)
      requires Valid()
      modifies this`pending
      ensures Valid() && Mailboxes() == old(Mailboxes()) - {s}
    {
      pending := pending - {s};
    }

    /** The wait of one call: datagrams arrive, then the call takes its reply or gives up, and its
        registration goes. */
    method Await(s: U32, ch: ReplyChannel, buf: array<Byte>, turns: seq<Turn>, expired: bool)
      returns (res: Result<Response, CallError>)
      requires Valid() && buf.Length == READ_BUFFER
      requires s in pending && pending[s] == ch && ch.buf == []
      modifies this`pending, Repr, buf
      ensures Valid() && Mailboxes() == DeliverAll(old(Mailboxes()), Order([], turns)) - {s}
      ensures res == OutcomeOf(FirstReply(Order([], turns), s), expired)
    {
      ghost var boxes := Mailboxes();
      ReceiveLoop(buf, turns);
      DeliverAllByNumber(boxes, Order([], turns));
      assert Mailboxes()[s] == ch.buf == FirstReply(Order([], turns), s);
      if |ch.buf| > 0 && !expired {
        var reply := ch.buf[0];
        res := if reply.cause != 1 then Err(Rejected) else Ok(reply);
      } else {
        res := Err(TimedOut);
      }
      Unregister(s);
    }

    /** Registration, write and wait for an encoded request. */
    method Exchange(s: U32, data: Datagram, written: bool, buf: array<Byte>, turns: seq<Turn>, expired: bool)
      returns (res: Result<Response, CallError>, sent: Option<Datagram>)
      requires Valid() && buf.Length == READ_BUFFER
      modifies this`pending, this`Repr, Repr, buf
      ensures Valid() && fresh(Repr - old(Repr))
      ensures !written ==> res == Err(NotSent) && sent == None && Mailboxes() == old(Mailboxes())[s := []] - {s}
      ensures written ==>
        && sent == Some(data)
        && Mailboxes() == DeliverAll(old(Mailboxes())[s := []], Order([], turns)) - {s}
        && res == OutcomeOf(FirstReply(Order([], turns), s), expired)
    {
      var ch := Register(s);
      if written {
        sent := Some(data);
        res := Await(s, ch, buf, turns, expired);
      } else {
        res, sent := Err(NotSent), None;
        Unregister(s);
      }
    }

    /** One call. The environment decides whether the write succeeds, which datagrams arrive while it
        waits, and whether the timer fires although a reply is there. */
    method SendSessionEstablishmentRequest(
      ip: string, v6: V6Reader, written: bool, buf: array<Byte>, turns: seq<Turn>, expired: bool)
      returns (res: Result<Response, CallError>, sent: Option<Datagram>)
      requires Valid() && buf.Length == READ_BUFFER
      modifies this`seqCounter, this`pending, this`Repr, Repr, buf
      ensures Valid() && fresh(Repr - old(Repr)) && seqCounter == (old(seqCounter) + 1) % 0x1_0000_0000
      ensures sent.Some? ==> |sent.value| == 13 && sent.value[1] == 50
      ensures ParseTo4(ip, v6).None? ==> res == Err(NotEncoded) && sent == None && Mailboxes() == old(Mailboxes())
      ensures ParseTo4(ip, v6).Some? && !written ==>
        res == Err(NotSent) && sent == None && Mailboxes() == old(Mailboxes())[seqCounter := []] - {seqCounter}
      ensures ParseTo4(ip, v6).Some? && written ==>
        && sent == Some(RequestBytes(ESTABLISHMENT_REQUEST, seqCounter, ParseTo4(ip, v6).value))
        && Mailboxes() == DeliverAll(old(Mailboxes())[seqCounter := []], Order([], turns)) - {seqCounter}
        && res == OutcomeOf(FirstReply(Order([], turns), seqCounter), expired)
    {
      seqCounter := (seqCounter + 1) % TWO_32;
      var data, err := EncodeRequest(50, seqCounter, ip, v6);
      if data == null {
        return Err(NotEncoded), None;
      }
      res, sent := Exchange(seqCounter, data[..], written, buf, turns, expired);
    }
  }
}

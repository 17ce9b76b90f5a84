/** The 13-byte request and 9-byte response datagrams between SMF and UPF. */
module Codec {
  import opened Address
  import opened Bytes
  import opened Wrappers

  type Datagram = seq<Byte>

  const READ_BUFFER: nat := 1024

  const FLAGS: Byte := 0x20
  const ESTABLISHMENT_REQUEST: Byte := 50
  const ESTABLISHMENT_RESPONSE: Byte := 51
  const MODIFICATION_REQUEST: Byte := 52
  const MODIFICATION_RESPONSE: Byte := 53
  const ACCEPTED: Byte := 1
  const PDN_IPV4: Byte := 1

  datatype Header = Header(versionAndFlags: Byte, messageType: Byte, length: U16, sequenceNumber: U32)
  datatype Request = Request(header: Header, pdnType: Byte, ip: Quad)
  datatype Response = Response(header: Header, cause: Byte)
  datatype CodecError = InvalidIPv4 | TooShort | BadFlags

  // ----- what the datagrams are -----

  function HeaderBytes(messageType: Byte, length: U16, seqNum: U32): (b: Datagram)
    ensures |b| == 8
  {
    [FLAGS, messageType] + U16Bytes(length) + U32Bytes(seqNum)
  }

  function RequestBytes(messageType: Byte, seqNum: U32, ip: Quad): (b: Datagram)
    ensures |b| == 13
  {
    HeaderBytes(messageType, 5, seqNum) + [PDN_IPV4] + ip
  }

  function ResponseBytes(messageType: Byte, seqNum: U32, cause: Byte): (b: Datagram)
    ensures |b| == 9
  {
    HeaderBytes(messageType, 1, seqNum) + [cause]
  }

  function Encoded(messageType: Byte, seqNum: U32, ip: string, v6: V6Reader): Result<Datagram, CodecError> {
    match ParseTo4(ip, v6)
    case Some(q) => Ok(RequestBytes(messageType, seqNum, q))
    case None => Err(InvalidIPv4)
  }

  function HeaderOf(data: Datagram): Header
    requires |data| >= 8
  {
    Header(data[0], data[1], BytesU16(data[2..4]), BytesU32(data[4..8]))
  }

  function DecodedRequest(data: Datagram): Result<Request, CodecError> {
    if |data| < 13 then Err(TooShort)
    else if data[0] != FLAGS then Err(BadFlags)
    else Ok(Request(HeaderOf(data), data[8], data[9..13]))
  }

  function DecodedResponse(data: Datagram): Result<Response, CodecError> {
    if |data| < 9 then Err(TooShort)
    else if data[0] != FLAGS then Err(BadFlags)
    else Ok(Response(HeaderOf(data), data[8]))
  }

  /** The part of a datagram that fits a read buffer. */
  function Seen(packet: Datagram): Datagram {
    if |packet| <= READ_BUFFER then packet else packet[..READ_BUFFER]
  }

  /** Cutting a datagram to the buffer does not change what it decodes to. */
  lemma SeenSuffices(packet: Datagram)
    ensures DecodedRequest(Seen(packet)) == DecodedRequest(packet)
    ensures DecodedResponse(Seen(packet)) == DecodedResponse(packet)
  {
    var cut := Seen(packet);
    if |packet| > READ_BUFFER {
      assert cut[2..4] == packet[2..4] && cut[4..8] == packet[4..8] && cut[9..13] == packet[9..13];
    }
  }

  // ----- the layout, byte by byte -----

  /** The sequence number a datagram bears, in big-endian order from byte 4. */
  function SeqAt(data: Datagram): U32
    requires |data| >= 8
  {
    Weigh(data[4], data[5], data[6], data[7])
  }

  lemma HeaderLayout(messageType: Byte, length: U16, seqNum: U32, payload: Datagram)
    ensures var b := HeaderBytes(messageType, length, seqNum) + payload;
            && b[0] == 0x20 && b[1] == messageType && b[2] as int * 0x100 + b[3] == length && SeqAt(b) == seqNum
            && b[8..] == payload
  {
    U32Weighs(seqNum);
    var b := HeaderBytes(messageType, length, seqNum) + payload;
    assert b[4..8] == U32Bytes(seqNum);
    assert b[4..8][0] == b[4] && b[4..8][1] == b[5] && b[4..8][2] == b[6] && b[4..8][3] == b[7];
    assert b[8..] == payload;
  }

  lemma PayloadLast(header: Datagram, pdnType: Byte, ip: Quad)
    requires |header| == 8
    ensures header + [pdnType] + ip == header + ([pdnType] + ip)
  {
  }

  /** 0x20, type, length 5, sequence number, PDN type 1, address. */
  lemma RequestLayout(messageType: Byte, seqNum: U32, ip: Quad)
    ensures var b := RequestBytes(messageType, seqNum, ip);
            && |b| == 13 && b[0] == 0x20 && b[1] == messageType && b[2] == 0 && b[3] == 5
            && b[4] as int * 0x100_0000 + b[5] as int * 0x1_0000 + b[6] as int * 0x100 + b[7] == seqNum
            && b[8] == 1 && b[9..13] == ip
  {
    hide HeaderBytes;
    var payload: Datagram := [PDN_IPV4] + ip;
    HeaderLayout(messageType, 5, seqNum, payload);
    var b := RequestBytes(messageType, seqNum, ip);
    PayloadLast(HeaderBytes(messageType, 5, seqNum), PDN_IPV4, ip);
    assert b[8] == payload[0] && b[9..13] == ip;
  }

  /** 0x20, type, length 1, sequence number, cause. */
  lemma ResponseLayout(messageType: Byte, seqNum: U32, cause: Byte)
    ensures var b := ResponseBytes(messageType, seqNum, cause);
            && |b| == 9 && b[0] == 0x20 && b[1] == messageType && b[2] == 0 && b[3] == 1
            && b[4] as int * 0x100_0000 + b[5] as int * 0x1_0000 + b[6] as int * 0x100 + b[7] == seqNum
            && b[8] == cause
  {
    HeaderLayout(messageType, 1, seqNum, [cause]);
  }

  lemma HeaderFields(data: Datagram)
    requires |data| >= 8
    ensures HeaderOf(data) ==
      Header(data[0], data[1], data[2] as int * 0x100 + data[3],
             data[4] as int * 0x100_0000 + data[5] as int * 0x1_0000 + data[6] as int * 0x100 + data[7])
  {
    assert data[4..8] == [data[4], data[5], data[6], data[7]];
    WeighedBytes(data[4], data[5], data[6], data[7]);
  }

  /** What is accepted as a request, why the rest is not, and what is read from where. */
  lemma RequestFields(data: Datagram)
    ensures DecodedRequest(data) == Err(TooShort) <==> |data| < 13
    ensures DecodedRequest(data) == Err(BadFlags) <==> |data| >= 13 && data[0] != 0x20
    ensures DecodedRequest(data).Ok? ==>
      var r := DecodedRequest(data).value;
      && r.header == Header(0x20, data[1], data[2] as int * 0x100 + data[3],
                            data[4] as int * 0x100_0000 + data[5] as int * 0x1_0000 + data[6] as int * 0x100 + data[7])
      && r.pdnType == data[8] && r.ip == [data[9], data[10], data[11], data[12]]
  {
    if |data| >= 13 {
      HeaderFields(data);
      assert data[9..13] == [data[9], data[10], data[11], data[12]];
    }
  }

  lemma ResponseFields(data: Datagram)
    ensures DecodedResponse(data) == Err(TooShort) <==> |data| < 9
    ensures DecodedResponse(data) == Err(BadFlags) <==> |data| >= 9 && data[0] != 0x20
    ensures DecodedResponse(data).Ok? ==>
      var r := DecodedResponse(data).value;
      && r.header == Header(0x20, data[1], data[2] as int * 0x100 + data[3],
                            data[4] as int * 0x100_0000 + data[5] as int * 0x1_0000 + data[6] as int * 0x100 + data[7])
      && r.cause == data[8]
  {
    if |data| >= 9 {
      HeaderFields(data);
    }
  }

  // ----- receive loops -----

  /** A receive loop starts a goroutine for each datagram, and these run in any order. A turn is the arrival
      of a datagram, or the run of the goroutine that is `i`th among those waiting, if there is one. */
  datatype Turn = Arrives(packet: Datagram) | Runs(i: nat)

  function Without<T>(xs: seq<T>, i: nat): seq<T>
    requires i < |xs|
  {
    xs[..i] + xs[i + 1..]
  }

  /** The datagrams in the order in which they are handled. */
  function Order(waiting: seq<Datagram>, turns: seq<Turn>): seq<Datagram>
    decreases |turns|
  {
    if turns == [] then []
    else match turns[0]
      case Arrives(packet) => Order(waiting + [packet], turns[1..])
      case Runs(i) =>
        if i < |waiting| then [waiting[i]] + Order(Without(waiting, i), turns[1..]) else Order(waiting, turns[1..])
  }

  function Arrivals(turns: seq<Turn>): multiset<Datagram>
    decreases |turns|
  {
    if turns == [] then multiset{}
    else (if turns[0].Arrives? then multiset{turns[0].packet} else multiset{}) + Arrivals(turns[1..])
  }

  /** Each handled datagram arrived, and none is handled more often than it arrived. */
  lemma {:induction false} OrderArrived(waiting: seq<Datagram>, turns: seq<Turn>)
    ensures multiset(Order(waiting, turns)) <= multiset(waiting) + Arrivals(turns)
    decreases |turns|
  {
    if turns == [] {
    } else if turns[0].Arrives? {
      OrderArrived(waiting + [turns[0].packet], turns[1..]);
    } else if turns[0].i < |waiting| {
      var i := turns[0].i;
      OrderArrived(Without(waiting, i), turns[1..]);
      assert waiting == waiting[..i] + [waiting[i]] + waiting[i + 1..];
    } else {
      OrderArrived(waiting, turns[1..]);
    }
  }

  function RunCount(turns: seq<Turn>): nat {
    if turns == [] then 0 else RunCount(turns[..|turns| - 1]) + if turns[|turns| - 1].Runs? then 1 else 0
  }

  /** Every turn that runs a goroutine finds it: more have arrived by then than have run. */
  ghost predicate Fits(turns: seq<Turn>) {
    forall j | 0 <= j < |turns| && turns[j].Runs? :: turns[j].i + 2 * RunCount(turns[..j]) < j
  }

  lemma RunCountFirst(turn: Turn, rest: seq<Turn>)
    ensures RunCount([turn] + rest) == RunCount(rest) + if turn.Runs? then 1 else 0
  {
    if rest == [] {
      assert ([turn] + rest)[..0] == [];
    } else {
      assert ([turn] + rest)[..|rest|] == [turn] + rest[..|rest| - 1];
      RunCountFirst(turn, rest[..|rest| - 1]);
    }
  }

  /** Of a schedule in which every run finds its goroutine, each run handles a datagram. */
  lemma {:induction false} OrderLength(waiting: seq<Datagram>, turns: seq<Turn>)
    requires forall j | 0 <= j < |turns| && turns[j].Runs? :: turns[j].i + 2 * RunCount(turns[..j]) < |waiting| + j
    ensures |Order(waiting, turns)| == RunCount(turns)
    decreases |turns|
  {
    if turns == [] {
    } else {
      var rest := turns[1..];
      assert turns == [turns[0]] + rest;
      RunCountFirst(turns[0], rest);
      assert RunCount(turns[..0]) == 0;
      var left := if turns[0].Arrives? then waiting + [turns[0].packet] else Without(waiting, turns[0].i);
      forall j | 0 <= j < |rest| && rest[j].Runs? ensures rest[j].i + 2 * RunCount(rest[..j]) < |left| + j {
        assert rest[j] == turns[j + 1] && turns[..j + 1] == [turns[0]] + rest[..j];
        RunCountFirst(turns[0], rest[..j]);
      }
      OrderLength(left, rest);
    }
  }

  lemma EveryRunHandles(turns: seq<Turn>)
    requires Fits(turns)
    ensures |Order([], turns)| == RunCount(turns)
  {
    OrderLength([], turns);
  }

  /** The schedule that handles each datagram before the next arrives. */
  function Sequential(packets: seq<Datagram>): seq<Turn> {
    if packets == [] then [] else [Arrives(packets[0]), Runs(0)] + Sequential(packets[1..])
  }

  lemma {:induction false} SequentialOrder(packets: seq<Datagram>)
    ensures Order([], Sequential(packets)) == packets
  {
    if packets == [] {
    } else {
      var p, rest := packets[0], Sequential(packets[1..]);
      var turns := [Arrives(p), Runs(0)] + rest;
      assert turns[1..] == [Runs(0)] + rest && turns[1..][1..] == rest;
      assert [] + [p] == [p] && Without([p], 0) == [];
      SequentialOrder(packets[1..]);
    }
  }

  /** The schedule that runs goroutine `i` next: the `i`th of the waiting ones is handled first. */
  lemma ChosenIsNext(packets: seq<Datagram>, i: nat, rest: seq<Turn>)
    requires i < |packets|
    ensures Order(packets, [Runs(i)] + rest) == [packets[i]] + Order(packets[..i] + packets[i + 1..], rest)
  {
    assert ([Runs(i)] + rest)[1..] == rest;
  }

  // ----- round trips -----

  lemma HeaderRoundTrip(messageType: Byte, length: U16, seqNum: U32, payload: Datagram)
    ensures HeaderOf(HeaderBytes(messageType, length, seqNum) + payload)
         == Header(FLAGS, messageType, length, seqNum)
  {
    var data := HeaderBytes(messageType, length, seqNum) + payload;
    assert data[2..4] == U16Bytes(length);
    assert data[4..8] == U32Bytes(seqNum);
    U32RoundTrip(seqNum);
  }

  /** Whatever is encoded decodes to the same type, sequence number and address, trailing bytes or not. */
  lemma RequestRoundTrip(messageType: Byte, seqNum: U32, ip: Quad, tail: Datagram)
    ensures DecodedRequest(RequestBytes(messageType, seqNum, ip) + tail)
         == Ok(Request(Header(FLAGS, messageType, 5, seqNum), PDN_IPV4, ip))
  {
    var data := RequestBytes(messageType, seqNum, ip) + tail;
    assert data == HeaderBytes(messageType, 5, seqNum) + ([PDN_IPV4] + ip + tail);
    HeaderRoundTrip(messageType, 5, seqNum, [PDN_IPV4] + ip + tail);
    assert data[9..13] == ip;
  }

  lemma ResponseRoundTrip(messageType: Byte, seqNum: U32, cause: Byte, tail: Datagram)
    ensures DecodedResponse(ResponseBytes(messageType, seqNum, cause) + tail)
         == Ok(Response(Header(FLAGS, messageType, 1, seqNum), cause))
  {
    var data := ResponseBytes(messageType, seqNum, cause) + tail;
    assert data == HeaderBytes(messageType, 1, seqNum) + ([cause] + tail);
    HeaderRoundTrip(messageType, 1, seqNum, [cause] + tail);
  }

  /** Encoding fails exactly on texts without an IPv4 reading; otherwise the text's four bytes come back. */
  lemma EncodedRoundTrip(messageType: Byte, seqNum: U32, ip: string, v6: V6Reader)
    ensures Encoded(messageType, seqNum, ip, v6).Ok? <==> ParseTo4(ip, v6).Some?
    ensures Encoded(messageType, seqNum, ip, v6).Ok? ==>
      DecodedRequest(Encoded(messageType, seqNum, ip, v6).value)
      == Ok(Request(Header(FLAGS, messageType, 5, seqNum), PDN_IPV4, ParseTo4(ip, v6).value))
  {
    if ParseTo4(ip, v6).Some? {
      var b := RequestBytes(messageType, seqNum, ParseTo4(ip, v6).value);
      assert b + [] == b;
      RequestRoundTrip(messageType, seqNum, ParseTo4(ip, v6).value, []);
    }
  }

  lemma HeaderRebuilt(data: Datagram)
    requires |data| >= 8
    ensures data[..8] == [data[0], data[1]] + U16Bytes(HeaderOf(data).length) + U32Bytes(HeaderOf(data).sequenceNumber)
  {
    assert U16Bytes(BytesU16(data[2..4])) == data[2..4];
    U32BytesRoundTrip(data[4..8]);
    assert data[..8] == [data[0], data[1]] + data[2..4] + data[4..8];
  }

  /** Decoding and encoding again, through the printed address, restores the datagram exactly when it
      was canonical. The other direction of the request round trip. */
  lemma RequestCanonical(data: Datagram, v6: V6Reader)
    ensures (DecodedRequest(data).Ok? &&
             var r := DecodedRequest(data).value;
             Encoded(r.header.messageType, r.header.sequenceNumber, Dotted(r.ip), v6) == Ok(data))
       <==> (|data| == 13 && data[0] == FLAGS && data[2..4] == [0, 5] && data[8] == PDN_IPV4)
  {
    if |data| >= 13 && data[0] == FLAGS {
      var r := DecodedRequest(data).value;
      DottedReadsBack(r.ip, v6);
      HeaderRebuilt(data);
      var b := RequestBytes(r.header.messageType, r.header.sequenceNumber, r.ip);
      assert b[2..4] == U16Bytes(5) == [0, 5];
      assert b[8] == PDN_IPV4;
      if |data| == 13 && data[2..4] == [0, 5] && data[8] == PDN_IPV4 {
        assert r.header.length == 5;
        assert data == data[..8] + [data[8]] + data[9..13];
      }
    }
  }

  lemma ResponseCanonical(data: Datagram)
    ensures (DecodedResponse(data).Ok? &&
             var r := DecodedResponse(data).value;
             ResponseBytes(r.header.messageType, r.header.sequenceNumber, r.cause) == data)
       <==> (|data| == 9 && data[0] == FLAGS && data[2..4] == [0, 1])
  {
    if |data| >= 9 && data[0] == FLAGS {
      var r := DecodedResponse(data).value;
      HeaderRebuilt(data);
      var b := ResponseBytes(r.header.messageType, r.header.sequenceNumber, r.cause);
      assert b[2..4] == U16Bytes(1) == [0, 1];
      if |data| == 9 && data[2..4] == [0, 1] {
        assert r.header.length == 1;
        assert data == data[..8] + [data[8]];
      }
    }
  }

  // ----- the encoders and decoders -----

  /** A Go slice: a window on an array that other slices may share. */
  datatype Slice = Slice(base: array<Byte>, lo: nat, hi: nat) {
    ghost predicate Valid() {
      lo <= hi <= base.Length
    }

    ghost function Contents(): (b: seq<Byte>)
      requires Valid()
      reads base
      ensures |b| == hi - lo
    {
      base[lo..hi]
    }
  }

  class PFCPSessionRequest {
    var header: Header
    var pdnType: Byte
    var ip: Slice

    constructor (header: Header, pdnType: Byte, ip: Slice)
      ensures this.header == header && this.pdnType == pdnType && this.ip == ip
    {
      this.header, this.pdnType, this.ip := header, pdnType, ip;
    }

    ghost predicate Valid()
      reads this
    {
      ip.Valid() && ip.hi - ip.lo == 4
    }

    /** The decoded message as a value. */
    ghost function Model(): (m: Request)
      requires Valid()
      reads this, ip.base
      ensures m.header == header
    {
      Request(header, pdnType, ip.Contents())
    }
  }

  method EncodeRequest(messageType: Byte, seqNum: U32, ip: string, v6: V6Reader)
    returns (buf: array?<Byte>, err: Option<CodecError>)
    ensures buf == null <==> err.Some?
    ensures buf != null ==> fresh(buf)
    ensures Encoded(messageType, seqNum, ip, v6) == if buf != null then Ok(buf[..]) else Err(err.value)
  {
    var parsed := ParseTo4(ip, v6);
    if parsed.None? {
      return null, Some(InvalidIPv4);
    }
    var b := new Byte[13];
    b[0] := 0x20;
    b[1] := messageType;
    PutUint16(b, 2, 5);
    PutUint32(b, 4, seqNum);
    b[8] := 1;
    CopyInto(b, 9, parsed.value);
    assert b[..] == RequestBytes(messageType, seqNum, parsed.value);
    return b, None;
  }

  /** The address of the decoded request is a window on the datagram itself, not a copy. */
  method DecodeRequest(data: array<Byte>) returns (req: PFCPSessionRequest?, err: Option<CodecError>)
    ensures req == null <==> err.Some?
    ensures req != null ==> fresh(req) && req.Valid() && req.ip == Slice(data, 9, 13)
    ensures DecodedRequest(data[..]) == if req != null then Ok(req.Model()) else Err(err.value)
  {
    if data.Length < 13 {
      return null, Some(TooShort);
    }
    if data[0] != 0x20 {
      return null, Some(BadFlags);
    }
    assert data[..][2..4] == data[2..4] && data[..][4..8] == data[4..8] && data[..][9..13] == data[9..13];
    var header := Header(data[0], data[1], BytesU16(data[2..4]), BytesU32(data[4..8]));
    req := new PFCPSessionRequest(header, data[8], Slice(data, 9, 13));
    err := None;
  }

  method EncodeResponse(messageType: Byte, seqNum: U32, cause: Byte) returns (buf: array<Byte>)
    ensures fresh(buf) && buf[..] == ResponseBytes(messageType, seqNum, cause)
  {
    buf := new Byte[9];
    buf[0] := 0x20;
    buf[1] := messageType;
    PutUint16(buf, 2, 1);
    PutUint32(buf, 4, seqNum);
    buf[8] := cause;
  }

  method DecodeResponse(data: array<Byte>) returns (res: Result<Response, CodecError>)
    ensures res == DecodedResponse(data[..])
  {
    if data.Length < 9 {
      return Err(TooShort);
    }
    if data[0] != 0x20 {
      return Err(BadFlags);
    }
    assert data[..][2..4] == data[2..4] && data[..][4..8] == data[4..8];
    return Ok(Response(Header(data[0], data[1], BytesU16(data[2..4]), BytesU32(data[4..8])), data[8]));
  }
}

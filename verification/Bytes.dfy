/** Machine integers of the source and their big-endian layout in byte buffers. */
module Bytes {

  const TWO_32: int := 0x1_0000_0000
  const TWO_64: int := 0x1_0000_0000_0000_0000

  type Byte = b: int | 0 <= b < 256
  type U16 = n: int | 0 <= n < 0x1_0000
  type U32 = n: int | 0 <= n < TWO_32
  type U64 = n: int | 0 <= n < TWO_64

  /** `atomic.AddUint32(&x, 1)` and `atomic.AddUint64(&x, d)`: wrap-around addition. */
  function Inc32(n: U32): U32 {
    (n + 1) % TWO_32
  }

  function Add64(n: U64, d: U64): U64 {
    (n + d) % TWO_64
  }

  lemma NextWraps(n: nat)
    ensures (n + 1) % TWO_64 == if n % TWO_64 == TWO_64 - 1 then 0 else n % TWO_64 + 1
  {
    var q, r := n / TWO_64, n % TWO_64;
    assert n + 1 == q * TWO_64 + (r + 1);
    if r == TWO_64 - 1 {
      assert n + 1 == (q + 1) * TWO_64;
    }
  }

  lemma WrapPart(a: nat, b: nat)
    ensures (a + b % TWO_64) % TWO_64 == (a + b) % TWO_64
  {
    var x, r := b / TWO_64, b % TWO_64;
    assert b == x * TWO_64 + r;
    WrapMultiple(a + r, x);
  }

  lemma {:induction false} WrapMultiple(a: nat, n: nat)
    ensures (a + n * TWO_64) % TWO_64 == a % TWO_64
  {
    if n == 0 {
    } else {
      WrapMultiple(a, n - 1);
      var b := a + (n - 1) * TWO_64;
      assert a + n * TWO_64 == b + TWO_64;
      assert (b + TWO_64) % TWO_64 == b % TWO_64;
    }
  }

  function U16Bytes(n: U16): seq<Byte> {
    [n / 0x100, n % 0x100]
  }

  function BytesU16(b: seq<Byte>): U16
    requires |b| == 2
  {
    b[0] as int * 0x100 + b[1]
  }

  /** Each entry is one `byte(val >> k)` of the source. */
  function U32Bytes(n: U32): (b: seq<Byte>)
    ensures |b| == 4
  {
    [n / 0x100_0000 % 0x100, n / 0x1_0000 % 0x100, n / 0x100 % 0x100, n % 0x100]
  }

  function BytesU32(b: seq<Byte>): U32
    requires |b| == 4
  {
    b[0] as int * 0x100_0000 + b[1] as int * 0x1_0000 + b[2] as int * 0x100 + b[3]
  }

  lemma U32RoundTrip(n: U32)
    ensures BytesU32(U32Bytes(n)) == n
  {
    assert n / 0x100 / 0x100 == n / 0x1_0000;
    assert n / 0x1_0000 / 0x100 == n / 0x100_0000;
    assert n / 0x100_0000 < 0x100;
  }

  lemma U32BytesRoundTrip(b: seq<Byte>)
    requires |b| == 4
    ensures U32Bytes(BytesU32(b)) == b
  {
    var n := BytesU32(b);
    assert n / 0x100 == b[0] as int * 0x1_0000 + b[1] as int * 0x100 + b[2];
    assert n / 0x1_0000 == b[0] as int * 0x100 + b[1];
    assert n / 0x100_0000 == b[0];
  }

  /** What four bytes in a row say, the first weighing most. */
  function Weigh(a: Byte, b: Byte, c: Byte, d: Byte): U32 {
    0x100_0000 * a + 0x1_0000 * b + 0x100 * c + d
  }

  lemma U32Weighs(n: U32)
    ensures Weigh(U32Bytes(n)[0], U32Bytes(n)[1], U32Bytes(n)[2], U32Bytes(n)[3]) == n
  {
    U32RoundTrip(n);
  }

  lemma WeighedBytes(a: Byte, b: Byte, c: Byte, d: Byte)
    ensures U32Bytes(Weigh(a, b, c, d)) == [a, b, c, d]
    ensures BytesU32([a, b, c, d]) == Weigh(a, b, c, d)
  {
    hide U32Bytes;
    BytesWeigh(a, b, c, d);
    U32BytesRoundTrip([a, b, c, d]);
  }

  lemma BytesWeigh(a: Byte, b: Byte, c: Byte, d: Byte)
    ensures BytesU32([a, b, c, d]) == Weigh(a, b, c, d)
  {
  }

  lemma U32BytesInjective(m: U32, n: U32)
    ensures U32Bytes(m) == U32Bytes(n) <==> m == n
  {
    U32RoundTrip(m);
    U32RoundTrip(n);
  }

  /** `binary.BigEndian.PutUint16(buf[off:off+2], n)`. */
  method PutUint16(buf: array<Byte>, off: nat, n: U16)
    requires off + 2 <= buf.Length
    modifies buf
    ensures buf[..] == old(buf[..off]) + U16Bytes(n) + old(buf[off + 2..])
  {
    buf[off] := n / 0x100;
    buf[off + 1] := n % 0x100;
  }

  /** `binary.BigEndian.PutUint32(buf[off:off+4], n)`. */
  method PutUint32(buf: array<Byte>, off: nat, n: U32)
    requires off + 4 <= buf.Length
    modifies buf
    ensures buf[..] == old(buf[..off]) + U32Bytes(n) + old(buf[off + 4..])
  {
    buf[off] := n / 0x100_0000 % 0x100;
    buf[off + 1] := n / 0x1_0000 % 0x100;
    buf[off + 2] := n / 0x100 % 0x100;
    buf[off + 3] := n % 0x100;
  }

  /** `copy(buf[off:], src)` with enough room, the loop the built-in stands for. */
  method CopyInto(buf: array<Byte>, off: nat, src: seq<Byte>)
    requires off + |src| <= buf.Length
    modifies buf
    ensures buf[..] == old(buf[..off]) + src + old(buf[off + |src|..])
  {
    for i := 0 to |src|
      invariant buf[..] == old(buf[..off]) + src[..i] + old(buf[off + i..])
    {
      buf[off + i] := src[i];
      assert src[..i + 1] == src[..i] + [src[i]];
    }
    assert src[..|src|] == src;
  }

  /** `data := make([]byte, n); copy(data, buf[:n])`. */
  method CopyOf(buf: array<Byte>, n: nat) returns (data: array<Byte>)
    requires n <= buf.Length
    ensures fresh(data) && data[..] == buf[..n]
  {
    data := new Byte[n];
    CopyInto(data, 0, buf[..n]);
  }
}

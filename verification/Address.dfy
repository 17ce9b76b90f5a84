/** IPv4 addresses as the SMF hands them out and as `net.ParseIP` reads them back. */
module Address {
  import opened Bytes
  import opened Decimal
  import opened Wrappers

  type Quad = q: seq<Byte> | |q| == 4 witness [0, 0, 0, 0]

  /** The IPv6 reader of Go's library, which is not part of this model: any function of the text
      that yields the four bytes of an IPv4-mapped address, or nothing. */
  type V6Reader = string -> Option<Quad>

  /** `net.IP.String()` of a four-byte address. */
  function Dotted(q: Quad): string {
    Print(q[0]) + "." + Print(q[1]) + "." + Print(q[2]) + "." + Print(q[3])
  }

  /** The text of the address a 32-bit value denotes. */
  function DottedU32(n: U32): string {
    Dotted(U32Bytes(n))
  }

  /** The pieces of `s` between the separators. */
  function Split(s: string, sep: char): (r: seq<string>)
    ensures r != []
  {
    if s == [] then [[]]
    else if s[0] == sep then [[]] + Split(s[1..], sep)
    else var r := Split(s[1..], sep); [[s[0]] + r[0]] + r[1..]
  }

  /** One field of a dotted quad: digits only, no leading zero, at most 255. */
  predicate IsOctet(f: string) {
    && f != []
    && (forall i | 0 <= i < |f| :: IsDigit(f[i]))
    && (|f| > 1 ==> f[0] != '0')
    && Value(f) < 256
  }

  function ParseIPv4(s: string): Option<Quad> {
    var f := Split(s, '.');
    if |f| == 4 && IsOctet(f[0]) && IsOctet(f[1]) && IsOctet(f[2]) && IsOctet(f[3])
    then Some([Value(f[0]), Value(f[1]), Value(f[2]), Value(f[3])])
    else None
  }

  datatype Family = IPv4 | IPv6 | Neither

  /** The first of '.', ':' and '%' decides how the text is read. */
  function FamilyOf(s: string): Family {
    if s == [] then Neither
    else if s[0] == '.' then IPv4
    else if s[0] == ':' then IPv6
    else if s[0] == '%' then Neither
    else FamilyOf(s[1..])
  }

  /** `net.ParseIP(s).To4()`, with None for nil. */
  function ParseTo4(s: string, v6: V6Reader): Option<Quad> {
    match FamilyOf(s)
    case IPv4 => ParseIPv4(s)
    case IPv6 => v6(s)
    case Neither => None
  }

  // ----- reading back what was printed -----

  lemma {:induction false} SplitFirst(a: string, b: string, sep: char)
    requires sep !in a
    ensures Split(a + [sep] + b, sep) == [a] + Split(b, sep)
  {
    var s := a + [sep] + b;
    if a == [] {
      assert s[1..] == b;
    } else {
      assert s[1..] == a[1..] + [sep] + b;
      SplitFirst(a[1..], b, sep);
      assert [a[0]] + a[1..] == a;
    }
  }

  lemma {:induction false} SplitNone(a: string, sep: char)
    requires sep !in a
    ensures Split(a, sep) == [a]
  {
    if a == [] {
    } else {
      SplitNone(a[1..], sep);
      assert [a[0]] + a[1..] == a;
    }
  }

  function Join(f: seq<string>, sep: char): string
    requires f != []
  {
    if |f| == 1 then f[0] else f[0] + [sep] + Join(f[1..], sep)
  }

  lemma JoinExtended(c: char, r: seq<string>, sep: char)
    requires r != []
    ensures Join([[c] + r[0]] + r[1..], sep) == [c] + Join(r, sep)
  {
    var e := [[c] + r[0]] + r[1..];
    assert e[1..] == r[1..];
    if |r| > 1 {
      assert [c] + (r[0] + [sep] + Join(r[1..], sep)) == ([c] + r[0]) + [sep] + Join(r[1..], sep);
    }
  }

  lemma {:induction false} JoinOfSplit(s: string, sep: char)
    ensures Join(Split(s, sep), sep) == s
  {
    if s == [] {
    } else {
      var r := Split(s[1..], sep);
      JoinOfSplit(s[1..], sep);
      assert s == [s[0]] + s[1..];
      if s[0] == sep {
        assert ([[]] + r)[1..] == r;
      } else {
        JoinExtended(s[0], r, sep);
      }
    }
  }

  lemma SplitDotted(q: Quad)
    ensures Split(Dotted(q), '.') == [Print(q[0]), Print(q[1]), Print(q[2]), Print(q[3])]
  {
    var a, b, c, d := Print(q[0]), Print(q[1]), Print(q[2]), Print(q[3]);
    assert Dotted(q) == a + ['.'] + (b + ['.'] + (c + ['.'] + d));
    assert !IsDigit('.');
    SplitFirst(a, b + ['.'] + (c + ['.'] + d), '.');
    SplitFirst(b, c + ['.'] + d, '.');
    SplitFirst(c, d, '.');
    SplitNone(d, '.');
  }

  lemma DottedIsIPv4(q: Quad)
    ensures ParseIPv4(Dotted(q)) == Some(q)
  {
    SplitDotted(q);
    forall i | 0 <= i < 4 ensures Value(Print(q[i])) == q[i] && IsOctet(Print(q[i])) {
      ValueOfPrint(q[i]);
    }
    assert q == [q[0], q[1], q[2], q[3]];
  }

  lemma IPv4IsDotted(s: string)
    requires ParseIPv4(s).Some?
    ensures s == Dotted(ParseIPv4(s).value)
  {
    var f := Split(s, '.');
    forall i | 0 <= i < 4 ensures Print(Value(f[i])) == f[i] {
      assert IsOctet(f[i]);
      PrintOfValue(f[i]);
    }
    JoinOfSplit(s, '.');
    assert f == [f[0], f[1], f[2], f[3]];
    JoinFour(f[0], f[1], f[2], f[3]);
  }

  /** The IPv4 reader accepts exactly the canonical texts, each for its own four bytes. */
  lemma ParseIPv4Exact(s: string, q: Quad)
    ensures ParseIPv4(s) == Some(q) <==> s == Dotted(q)
  {
    DottedIsIPv4(q);
    if ParseIPv4(s) == Some(q) {
      IPv4IsDotted(s);
    }
  }

  lemma JoinFour(a: string, b: string, c: string, d: string)
    ensures Join([a, b, c, d], '.') == a + "." + b + "." + c + "." + d
  {
    assert [a, b, c, d][1..] == [b, c, d];
    assert [b, c, d][1..] == [c, d];
    assert [c, d][1..] == [d];
    assert Join([c, d], '.') == c + "." + d;
    assert Join([b, c, d], '.') == b + "." + (c + "." + d);
  }

  lemma {:induction false} FamilyOfDigits(a: string, b: string)
    requires forall i | 0 <= i < |a| :: IsDigit(a[i])
    ensures FamilyOf(a + ['.'] + b) == IPv4
  {
    if a == [] {
    } else {
      assert (a + ['.'] + b)[1..] == a[1..] + ['.'] + b;
      FamilyOfDigits(a[1..], b);
    }
  }

  /** A printed address is read back as itself, whatever the IPv6 reader does. */
  lemma DottedReadsBack(q: Quad, v6: V6Reader)
    ensures ParseTo4(Dotted(q), v6) == Some(q)
  {
    var a := Print(q[0]);
    assert Dotted(q) == a + ['.'] + (Print(q[1]) + "." + Print(q[2]) + "." + Print(q[3]));
    FamilyOfDigits(a, Print(q[1]) + "." + Print(q[2]) + "." + Print(q[3]));
    ParseIPv4Exact(Dotted(q), q);
  }

  lemma DottedInjective(m: U32, n: U32)
    ensures DottedU32(m) == DottedU32(n) <==> m == n
  {
    if DottedU32(m) == DottedU32(n) {
      ParseIPv4Exact(DottedU32(m), U32Bytes(m));
      ParseIPv4Exact(DottedU32(n), U32Bytes(n));
      U32BytesInjective(m, n);
    }
  }

  lemma DottedQuad(a: Byte, b: Byte, c: Byte, d: Byte)
    ensures Dotted([a, b, c, d]) == Print(a) + "." + Print(b) + "." + Print(c) + "." + Print(d)
  {
  }

  /** The four numbers of a printed address weigh its 32-bit value, the first weighing most. */
  lemma DottedWeighs(a: Byte, b: Byte, c: Byte, d: Byte)
    ensures DottedU32(0x100_0000 * a + 0x1_0000 * b + 0x100 * c + d)
         == Print(a) + "." + Print(b) + "." + Print(c) + "." + Print(d)
  {
    hide Print, U32Bytes, Dotted;
    WeighedBytes(a, b, c, d);
    DottedQuad(a, b, c, d);
  }

  lemma DottedNotEmpty(q: Quad)
    ensures Dotted(q) != ""
  {
    assert |Dotted(q)| >= |Print(q[0])|;
  }
}

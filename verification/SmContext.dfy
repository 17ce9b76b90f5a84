/** Session management contexts: how the SMF names a request and what it queues for it. */
module SmContext {
  import opened Address
  import opened Bytes
  import opened Decimal
  import AmfHandler
  import Repository

  /** The request fields that travel with a job and into the stored session unchanged. */
  datatype Profile = Profile(
    gpsi: string, pduSessionId: int, dnn: string, sst: int, sd: string, servingNfId: string, anType: string)

  datatype Job = Job(ref: string, supi: string, ip: string, profile: Profile)

  /** `smctx-<time>-<counter>`. */
  function Ref(clock: int, counter: U64): string {
    "smctx-" + PrintInt(clock) + "-" + Print(counter)
  }

  /** The counter value of the `n`th request, counted from zero. */
  function Counter(n: nat): U64 {
    (n + 1) % TWO_64
  }

  lemma NoSeparator(n: nat)
    ensures '-' !in Print(n)
  {
    assert !IsDigit('-');
  }

  /** A reference determines its clock reading and its counter, negative readings included. */
  lemma RefInjective(t1: int, c1: U64, t2: int, c2: U64)
    ensures Ref(t1, c1) == Ref(t2, c2) <==> t1 == t2 && c1 == c2
  {
    if Ref(t1, c1) == Ref(t2, c2) {
      var a1, a2 := "smctx-" + PrintInt(t1), "smctx-" + PrintInt(t2);
      assert Ref(t1, c1) == a1 + ['-'] + Print(c1) && Ref(t2, c2) == a2 + ['-'] + Print(c2);
      NoSeparator(c1);
      NoSeparator(c2);
      SplitAtLast(a1, Print(c1), a2, Print(c2), '-');
      assert a1[6..] == PrintInt(t1) && a2[6..] == PrintInt(t2);
      PrintIntInjective(t1, t2);
      PrintInjective(c1, c2);
    }
  }

  /** How a reference reads: the prefix, the decimal clock reading, a dash, the decimal counter. */
  lemma RefReads(clock: int, counter: U64)
    ensures var s := Ref(clock, counter);
            var i := |s| - |Print(counter)| - 1;
            && s[..6] == "smctx-" && i >= 6 && s[i] == '-' && '-' !in s[i + 1..]
            && s[6..i] == (if clock < 0 then "-" + Print(-clock) else Print(clock)) && s[i + 1..] == Print(counter)
  {
    var s := Ref(clock, counter);
    var i := 6 + |PrintInt(clock)|;
    NoSeparator(counter);
    assert s[6..i] == PrintInt(clock) && s[i + 1..] == Print(counter);
  }

  lemma CounterEqual(i: nat, j: nat)
    ensures Counter(i) == Counter(j) <==> i % TWO_64 == j % TWO_64
  {
    NextWraps(i);
    NextWraps(j);
  }

  /** Two requests share a reference exactly when the clock read the same and their arrival numbers
      agree modulo 2^64; hence never among fewer than 2^64 requests, whatever the clock does. */
  lemma RefsDistinct(i: nat, j: nat, ti: int, tj: int)
    ensures Ref(ti, Counter(i)) == Ref(tj, Counter(j)) <==> ti == tj && i % TWO_64 == j % TWO_64
    ensures i < TWO_64 && j < TWO_64 && Ref(ti, Counter(i)) == Ref(tj, Counter(j)) ==> i == j
  {
    hide Counter, Ref;
    RefInjective(ti, Counter(i), tj, Counter(j));
    CounterEqual(i, j);
  }

  /** The record a worker saves first. */
  function NewSession(job: Job): Repository.Session {
    Repository.Session(
      job.ref, job.supi, job.profile.gpsi, job.profile.pduSessionId, job.profile.dnn, job.profile.sst, job.profile.sd,
      job.profile.servingNfId, job.profile.anType, Repository.CREATING, "", "", 0, 0)
  }

  // ----- callbacks -----

  function ActiveTransfer(ref: string, profile: Profile): AmfHandler.Transfer {
    AmfHandler.Transfer(
      profile.pduSessionId, profile.sst, profile.sd, profile.dnn, ref, "ACTIVE", "REQUEST_ACCEPTED", "")
  }

  /** The failure callback repeats what the stored session says. */
  function FailureTransfer(ref: string, session: Repository.Session, cause: string, message: string)
    : AmfHandler.Transfer
  {
    AmfHandler.Transfer(session.pduSessionId, session.sst, session.sd, session.dnn, ref, "FAILED", cause, message)
  }

  // ----- addresses -----

  const FIRST_ADDRESS: U32 := 0x0a0b1601

  /** The 32-bit value the `n`th allocation returns, counted from one. */
  function AddressAt(n: nat): U32 {
    (FIRST_ADDRESS + n) % TWO_32
  }

  /** How many allocations after the start a value was handed out, modulo 2^32. */
  function Offset(v: U32): U32 {
    (v - FIRST_ADDRESS) % TWO_32
  }

  lemma OffsetOfAddress(n: nat)
    ensures n < TWO_32 ==> Offset(AddressAt(n)) == n
    ensures AddressAt(n + 1) == Inc32(AddressAt(n))
  {
    if n < TWO_32 {
      if FIRST_ADDRESS + n < TWO_32 {
        assert AddressAt(n) == FIRST_ADDRESS + n;
      } else {
        assert AddressAt(n) == FIRST_ADDRESS + n - TWO_32;
      }
    }
  }

  /** The first addresses handed out: 10.11.22.2, 10.11.22.3, and so on to 10.11.22.255. */
  lemma FirstAddresses(n: nat)
    requires 0 < n < 255
    ensures DottedU32(AddressAt(n)) == "10.11.22." + Print(n + 1)
  {
    hide Print, DottedU32;
    assert AddressAt(n) == 0x100_0000 * 10 + 0x1_0000 * 11 + 0x100 * 22 + (n + 1);
    DottedWeighs(10, 11, 22, n + 1);
    PoolPrefix();
  }

  lemma PoolPrefix()
    ensures Print(10) == "10" && Print(11) == "11" && Print(22) == "22"
  {
    assert Print(1) == "1" && Print(2) == "2";
  }
}

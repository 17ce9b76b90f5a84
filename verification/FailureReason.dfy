/** Error texts of the establishment procedure, substring search, and the reason a text is filed under. */
module FailureReason {
  import opened Decimal

  // ----- substring search -----

  ghost predicate OccursAt(s: string, m: string, i: int) {
    0 <= i <= |s| - |m| && s[i..i + |m|] == m
  }

  ghost predicate Contains(s: string, m: string) {
    exists i :: OccursAt(s, m, i)
  }

  /** The least occurrence, or -1. */
  method IndexString(s: string, m: string) returns (i: int)
    ensures i == -1 ==> !Contains(s, m)
    ensures i != -1 ==> OccursAt(s, m, i) && forall j :: OccursAt(s, m, j) ==> i <= j
  {
    i := 0;
    while i <= |s| - |m|
      invariant 0 <= i
      invariant forall j :: OccursAt(s, m, j) ==> i <= j
    {
      if s[i..i + |m|] == m {
        assert OccursAt(s, m, i);
        return i;
      }
      i := i + 1;
    }
    return -1;
  }

  method ContainsString(s: string, m: string) returns (found: bool)
    ensures found <==> Contains(s, m)
  {
    if |s| < |m| {
      return false;
    }
    if s == m || |m| == 0 {
      assert OccursAt(s, m, 0);
      return true;
    }
    if |s| == 0 {
      return false;
    }
    var i := IndexString(s, m);
    return i >= 0;
  }

  // ----- concatenation -----

  /** No occurrence of `m` can begin in `p` and end in a text that follows it. */
  ghost predicate NoStraddle(p: string, m: string) {
    forall k :: 0 < k < |m| && k <= |p| ==> p[|p| - k..] != m[..k]
  }

  lemma ContainsConcat(p: string, q: string, m: string)
    requires NoStraddle(p, m) && m != ""
    ensures Contains(p + q, m) <==> Contains(p, m) || Contains(q, m)
  {
    var s := p + q;
    if Contains(p, m) {
      var i :| OccursAt(p, m, i);
      assert s[i..i + |m|] == p[i..i + |m|];
      assert OccursAt(s, m, i);
    }
    if Contains(q, m) {
      var i :| OccursAt(q, m, i);
      assert s[|p| + i..|p| + i + |m|] == q[i..i + |m|];
      assert OccursAt(s, m, |p| + i);
    }
    if Contains(s, m) {
      var i :| OccursAt(s, m, i);
      Straddling(p, q, m, i);
      if i + |m| <= |p| {
        assert p[i..i + |m|] == s[i..i + |m|];
        assert OccursAt(p, m, i);
      } else if i >= |p| {
        assert q[i - |p|..i - |p| + |m|] == s[i..i + |m|];
        assert OccursAt(q, m, i - |p|);
      } else {
        assert false;
      }
    }
  }

  lemma Straddling(p: string, q: string, m: string, i: int)
    requires OccursAt(p + q, m, i)
    ensures i < |p| < i + |m| ==> p[i..] == m[..|p| - i]
  {
    if i < |p| < i + |m| {
      assert p[i..] == (p + q)[i..i + |m|][..|p| - i];
    }
  }

  lemma NoStraddleByLast(p: string, m: string)
    requires p != "" ==> p[|p| - 1] !in m
    ensures NoStraddle(p, m)
  {
    forall k | 0 < k < |m| && k <= |p| ensures p[|p| - k..] != m[..k] {
      assert p[|p| - k..][k - 1] == p[|p| - 1] && m[..k][k - 1] == m[k - 1];
    }
  }

  lemma NoStraddleByFirst(p: string, m: string)
    requires m != "" && m[0] !in p
    ensures NoStraddle(p, m)
  {
    forall k | 0 < k < |m| && k <= |p| ensures p[|p| - k..] != m[..k] {
      assert p[|p| - k..][0] == p[|p| - k] && m[..k][0] == m[0];
    }
  }

  lemma OccursByChar(s: string, m: string, i: int)
    ensures OccursAt(s, m, i) ==> forall k | 0 <= k < |m| :: s[i + k] == m[k]
  {
    if OccursAt(s, m, i) {
      forall k | 0 <= k < |m| ensures s[i + k] == m[k] {
        assert s[i..i + |m|][k] == s[i + k];
      }
    }
  }

  lemma AbsentByChar(s: string, m: string, c: char)
    requires c in m && c !in s
    ensures !Contains(s, m)
  {
    forall i ensures !OccursAt(s, m, i) {
      OccursByChar(s, m, i);
    }
  }

  lemma OccursByPair(s: string, m: string, i: int, k: nat)
    requires k + 1 < |m|
    ensures OccursAt(s, m, i) ==> !NoPair(s, m[k], m[k + 1])
  {
    OccursByChar(s, m, i);
    if OccursAt(s, m, i) {
      var j := i + k;
      assert s[j] == m[k] && s[j + 1] == m[k + 1];
    }
  }

  ghost predicate NoPair(s: string, a: char, b: char) {
    forall i | 0 <= i < |s| - 1 :: s[i] == a ==> s[i + 1] != b
  }

  lemma AbsentByPair(s: string, m: string, k: nat)
    requires k + 1 < |m| && NoPair(s, m[k], m[k + 1])
    ensures !Contains(s, m)
  {
    forall i ensures !OccursAt(s, m, i) {
      OccursByPair(s, m, i, k);
    }
  }

  // ----- the errors of one establishment -----

  /** Where an establishment can fail; `inner` is the text of the wrapped error. */
  datatype StageError =
    | SaveFailed(inner: string)
    | UdmRequestFailed(inner: string)
    | UdmUnreachable(inner: string)
    | UdmNotFound
    | UdmStatus(code: nat)
    | UdmDecodeFailed(inner: string)
    | UdmMismatch
    | PfcpFailed(inner: string)
    | N1N2NotBuilt(inner: string)
    | N1N2Failed(inner: string)
    | AmfStatus(code: nat, status: string)

  function Text(e: StageError): string {
    match e
    case SaveFailed(inner) => "database error: " + inner
    case UdmRequestFailed(inner) => "UDM request creation failed: " + inner
    case UdmUnreachable(inner) => "UDM communication failed: " + inner
    case UdmNotFound => "UDM returned subscriber not found (404)"
    case UdmStatus(code) => "UDM returned unexpected status: " + Print(code)
    case UdmDecodeFailed(inner) => "UDM response decode failed: " + inner
    case UdmMismatch => "UDM validation failed: subscription mismatch"
    case PfcpFailed(inner) => "PFCP Establishment Request failed: " + inner
    case N1N2NotBuilt(inner) => inner
    case N1N2Failed(inner) => "N1N2 HTTP request failed: " + inner
    case AmfStatus(code, status) => "AMF responded with error: " + (Print(code) + (" " + status))
  }

  const PFCP_TIMEOUT := "PFCP_TIMEOUT"
  const N1N2_FAILED := "N1N2_FAILED"
  const DB_ERROR := "DB_ERROR"
  const E2E_FAILED := "E2E_ESTABLISHMENT_FAILED"

  ghost predicate PfcpMark(s: string) {
    Contains(s, "PFCP") || Contains(s, "timeout waiting for PFCP")
  }

  ghost predicate N1N2Mark(s: string) {
    Contains(s, "N1N2") || Contains(s, "AMF responded")
  }

  ghost predicate DbMark(s: string) {
    Contains(s, "database") || Contains(s, "db") || Contains(s, "scan")
  }

  ghost function ReasonOf(s: string): (r: string)
    ensures r in {PFCP_TIMEOUT, N1N2_FAILED, DB_ERROR, E2E_FAILED} && r != ""
  {
    if PfcpMark(s) then PFCP_TIMEOUT
    else if N1N2Mark(s) then N1N2_FAILED
    else if DbMark(s) then DB_ERROR
    else E2E_FAILED
  }

  /** Which texts are filed under which reason, in words. */
  lemma ReasonInWords(s: string)
    ensures ReasonOf(s) == "PFCP_TIMEOUT" <==> Contains(s, "PFCP")
    ensures ReasonOf(s) == "N1N2_FAILED" <==>
      !Contains(s, "PFCP") && (Contains(s, "N1N2") || Contains(s, "AMF responded"))
    ensures ReasonOf(s) == "DB_ERROR" <==>
      && !Contains(s, "PFCP") && !Contains(s, "N1N2") && !Contains(s, "AMF responded")
      && (Contains(s, "database") || Contains(s, "db") || Contains(s, "scan"))
    ensures ReasonOf(s) in {"PFCP_TIMEOUT", "N1N2_FAILED", "DB_ERROR", "E2E_ESTABLISHMENT_FAILED"}
  {
    hide Contains;
    PfcpMarkIsShort(s);
    assert PFCP_TIMEOUT[0] == 'P' && N1N2_FAILED[0] == 'N' && DB_ERROR[0] == 'D' && E2E_FAILED[0] == 'E';
  }

  /** The `switch` of the worker loop. */
  method Classify(errMsg: string) returns (reason: string)
    ensures reason == ReasonOf(errMsg)
  {
    reason := E2E_FAILED;
    var pfcp := ContainsString(errMsg, "PFCP");
    if !pfcp {
      pfcp := ContainsString(errMsg, "timeout waiting for PFCP");
    }
    if pfcp {
      return PFCP_TIMEOUT;
    }
    var n1n2 := ContainsString(errMsg, "N1N2");
    if !n1n2 {
      n1n2 := ContainsString(errMsg, "AMF responded");
    }
    if n1n2 {
      return N1N2_FAILED;
    }
    var db := ContainsString(errMsg, "database");
    if !db {
      db := ContainsString(errMsg, "db");
    }
    if !db {
      db := ContainsString(errMsg, "scan");
    }
    if db {
      return DB_ERROR;
    }
  }

  /** The longer PFCP marker contains the shorter one, so it decides nothing. */
  lemma PfcpMarkIsShort(s: string)
    ensures PfcpMark(s) <==> Contains(s, "PFCP")
  {
    if Contains(s, "timeout waiting for PFCP") {
      var i :| OccursAt(s, "timeout waiting for PFCP", i);
      var m := "timeout waiting for PFCP";
      assert m[20..24] == "PFCP";
      assert s[i + 20..i + 24] == s[i..i + |m|][20..24];
      assert OccursAt(s, "PFCP", i + 20);
    }
  }

  /** None of the texts the worker looks for. */
  ghost predicate Unmarked(s: string) {
    !Contains(s, "PFCP") && !N1N2Mark(s) && !DbMark(s)
  }

  /** A prefix without markers that none can start in leaves the reason to the rest of the text. */
  lemma NeutralPrefix(p: string, q: string)
    requires Unmarked(p)
    requires p != "" && p[|p| - 1] == ' ' && 'A' !in p
    ensures ReasonOf(p + q) == ReasonOf(q)
  {
    forall m | m in ["PFCP", "N1N2", "database", "db", "scan"] ensures NoStraddle(p, m) {
      NoStraddleByLast(p, m);
    }
    var ms := ["PFCP", "N1N2", "database", "db", "scan"];
    assert ms[0] == "PFCP" && ms[1] == "N1N2" && ms[2] == "database" && ms[3] == "db" && ms[4] == "scan";
    NoStraddleByFirst(p, "AMF responded");
    ContainsConcat(p, q, "PFCP");
    ContainsConcat(p, q, "N1N2");
    ContainsConcat(p, q, "AMF responded");
    ContainsConcat(p, q, "database");
    ContainsConcat(p, q, "db");
    ContainsConcat(p, q, "scan");
    PfcpMarkIsShort(p + q);
    PfcpMarkIsShort(q);
  }

  ghost predicate Plain(p: string) {
    forall i | 0 <= i < |p| :: p[i] != 'F' && p[i] != '1' && p[i] != 'A'
  }

  lemma UnmarkedText(p: string)
    requires Plain(p)
    requires !DbMark(p)
    ensures Unmarked(p)
    ensures ReasonOf(p) == E2E_FAILED
  {
    AbsentByChar(p, "PFCP", 'F');
    AbsentByChar(p, "N1N2", '1');
    AbsentByChar(p, "AMF responded", 'A');
    PfcpMarkIsShort(p);
  }

  /** None of "ab", "db" and "ca", one of which every database marker holds. */
  ghost predicate NoDbPair(p: string) {
    forall i | 0 <= i < |p| - 1 ::
      (p[i] == 'a' || p[i] == 'd' ==> p[i + 1] != 'b') && (p[i] == 'c' ==> p[i + 1] != 'a')
  }

  lemma NoDbMark(p: string)
    requires NoDbPair(p)
    ensures !DbMark(p)
  {
    AbsentByPair(p, "database", 3);
    AbsentByPair(p, "db", 0);
    AbsentByPair(p, "scan", 1);
  }

  lemma UnmarkedNumber(code: nat)
    ensures ReasonOf(Print(code)) == E2E_FAILED
    ensures !Contains(Print(code), "PFCP")
  {
    var s := Print(code);
    assert !IsDigit('F') && !IsDigit('N') && !IsDigit('A') && !IsDigit('d') && !IsDigit('s');
    AbsentByChar(s, "PFCP", 'F');
    AbsentByChar(s, "N1N2", 'N');
    AbsentByChar(s, "AMF responded", 'A');
    AbsentByChar(s, "database", 'd');
    AbsentByChar(s, "db", 'd');
    AbsentByChar(s, "scan", 's');
    PfcpMarkIsShort(s);
  }

  // ----- how each failure is filed, for every wrapped text -----

  lemma PfcpFailureReason(inner: string)
    ensures ReasonOf(Text(PfcpFailed(inner))) == PFCP_TIMEOUT
  {
    var s := Text(PfcpFailed(inner));
    assert s[0..4] == "PFCP";
    assert OccursAt(s, "PFCP", 0);
  }

  lemma N1N2FailureReason(inner: string)
    ensures ReasonOf(Text(N1N2Failed(inner))) == if Contains(inner, "PFCP") then PFCP_TIMEOUT else N1N2_FAILED
  {
    var p := "N1N2 HTTP request failed: ";
    assert (p + inner)[0..4] == "N1N2";
    assert OccursAt(p + inner, "N1N2", 0);
    NoStraddleByLast(p, "PFCP");
    AbsentByChar(p, "PFCP", 'F');
    ContainsConcat(p, inner, "PFCP");
    PfcpMarkIsShort(p + inner);
  }

  lemma AmfStatusReason(code: nat, status: string)
    ensures ReasonOf(Text(AmfStatus(code, status))) == if Contains(status, "PFCP") then PFCP_TIMEOUT else N1N2_FAILED
  {
    var p, q := "AMF responded with error: ", Print(code) + (" " + status);
    assert (p + q)[0..13] == "AMF responded";
    assert OccursAt(p + q, "AMF responded", 0);
    NoStraddleByLast(p, "PFCP");
    AbsentByChar(p, "PFCP", 'P');
    ContainsConcat(p, q, "PFCP");
    UnmarkedNumber(code);
    assert !IsDigit('P');
    NoStraddleByFirst(Print(code), "PFCP");
    ContainsConcat(Print(code), " " + status, "PFCP");
    NoStraddleByLast(" ", "PFCP");
    AbsentByChar(" ", "PFCP", 'P');
    ContainsConcat(" ", status, "PFCP");
    PfcpMarkIsShort(p + q);
  }

  lemma SaveFailureReason(inner: string)
    ensures ReasonOf(Text(SaveFailed(inner))) ==
      if Contains(inner, "PFCP") then PFCP_TIMEOUT else if N1N2Mark(inner) then N1N2_FAILED else DB_ERROR
  {
    var p := "database error: ";
    assert (p + inner)[0..8] == "database";
    assert OccursAt(p + inner, "database", 0);
    NoStraddleByLast(p, "PFCP");
    NoStraddleByLast(p, "N1N2");
    NoStraddleByFirst(p, "AMF responded");
    AbsentByChar(p, "PFCP", 'P');
    AbsentByChar(p, "N1N2", 'N');
    AbsentByChar(p, "AMF responded", 'A');
    ContainsConcat(p, inner, "PFCP");
    ContainsConcat(p, inner, "N1N2");
    ContainsConcat(p, inner, "AMF responded");
    PfcpMarkIsShort(p + inner);
  }

  lemma UdmRequestUnmarked()
    ensures !DbMark("UDM request creation failed: ")
  {
    NoDbMark("UDM request creation failed: ");
  }

  lemma UdmRequestReason(inner: string)
    ensures ReasonOf(Text(UdmRequestFailed(inner))) == ReasonOf(inner)
  {
    var p := "UDM request creation failed: ";
    UdmRequestUnmarked();
    UnmarkedText(p);
    NeutralPrefix(p, inner);
  }

  lemma UdmDecodeUnmarked()
    ensures !DbMark("UDM response decode failed: ")
  {
    NoDbMark("UDM response decode failed: ");
  }

  lemma UdmDecodeReason(inner: string)
    ensures ReasonOf(Text(UdmDecodeFailed(inner))) == ReasonOf(inner)
  {
    var p := "UDM response decode failed: ";
    UdmDecodeUnmarked();
    UnmarkedText(p);
    NeutralPrefix(p, inner);
  }

  lemma UdmUnreachableUnmarked()
    ensures !DbMark("UDM communication failed: ")
  {
    AbsentByChar("UDM communication failed: ", "database", 'b');
    AbsentByChar("UDM communication failed: ", "db", 'b');
    AbsentByChar("UDM communication failed: ", "scan", 's');
  }

  lemma UdmUnreachableReason(inner: string)
    ensures ReasonOf(Text(UdmUnreachable(inner))) == ReasonOf(inner)
  {
    var p := "UDM communication failed: ";
    UdmUnreachableUnmarked();
    UnmarkedText(p);
    NeutralPrefix(p, inner);
  }

  lemma UdmStatusUnmarked()
    ensures !DbMark("UDM returned unexpected status: ")
  {
    NoDbMark("UDM returned unexpected status: ");
  }

  lemma UdmStatusReason(code: nat)
    ensures ReasonOf(Text(UdmStatus(code))) == E2E_FAILED
  {
    var p := "UDM returned unexpected status: ";
    UdmStatusUnmarked();
    UnmarkedText(p);
    NeutralPrefix(p, Print(code));
    UnmarkedNumber(code);
  }

  lemma NoDbPairConcat(p: string, q: string)
    requires NoDbPair(p) && NoDbPair(q) && Plain(p) && Plain(q)
    requires p != "" && p[|p| - 1] == ' '
    ensures NoDbPair(p + q) && Plain(p + q)
  {
  }

  lemma NotFoundHead()
    ensures NoDbPair("UDM returned ") && Plain("UDM returned ")
  {
  }

  lemma NotFoundTail()
    ensures NoDbPair("subscriber not found (404)") && Plain("subscriber not found (404)")
  {
  }

  lemma UdmNotFoundReason()
    ensures ReasonOf(Text(UdmNotFound)) == E2E_FAILED
  {
    hide NoDbPair, Plain, ReasonOf;
    var p, q := "UDM returned ", "subscriber not found (404)";
    NotFoundHead();
    NotFoundTail();
    NoDbPairConcat(p, q);
    NoDbMark(p + q);
    UnmarkedText(p + q);
    assert Text(UdmNotFound) == p + q;
  }

  lemma MismatchHead()
    ensures NoDbPair("UDM validation failed: ") && Plain("UDM validation failed: ")
  {
  }

  lemma MismatchTail()
    ensures NoDbPair("subscription mismatch") && Plain("subscription mismatch")
  {
  }

  lemma UdmMismatchReason()
    ensures ReasonOf(Text(UdmMismatch)) == E2E_FAILED
  {
    hide NoDbPair, Plain, ReasonOf;
    var p, q := "UDM validation failed: ", "subscription mismatch";
    MismatchHead();
    MismatchTail();
    NoDbPairConcat(p, q);
    NoDbMark(p + q);
    UnmarkedText(p + q);
    assert Text(UdmMismatch) == p + q;
  }

  /** The reason each failure is meant to be filed under. */
  function StageReason(e: StageError): string {
    match e
    case SaveFailed(_) => DB_ERROR
    case PfcpFailed(_) => PFCP_TIMEOUT
    case N1N2NotBuilt(_) | N1N2Failed(_) | AmfStatus(_, _) => N1N2_FAILED
    case _ => E2E_FAILED
  }

  /** What the wrapped text must not hold for the failure to be filed under its own stage. */
  ghost predicate Misleading(e: StageError) {
    match e
    case SaveFailed(inner) => Contains(inner, "PFCP") || N1N2Mark(inner)
    case UdmRequestFailed(inner) => !Unmarked(inner)
    case UdmUnreachable(inner) => !Unmarked(inner)
    case UdmDecodeFailed(inner) => !Unmarked(inner)
    case N1N2NotBuilt(inner) => Contains(inner, "PFCP") || !N1N2Mark(inner)
    case N1N2Failed(inner) => Contains(inner, "PFCP")
    case AmfStatus(_, status) => Contains(status, "PFCP")
    case _ => false
  }

  /** A failure is filed under its own stage exactly when the text it wraps does not mislead. */
  lemma FiledUnderItsStage(e: StageError)
    ensures ReasonOf(Text(e)) == StageReason(e) <==> !Misleading(e)
  {
    match e
    case SaveFailed(inner) => SaveFailureReason(inner);
    case PfcpFailed(inner) => PfcpFailureReason(inner);
    case N1N2Failed(inner) => N1N2FailureReason(inner);
    case AmfStatus(code, status) => AmfStatusReason(code, status);
    case N1N2NotBuilt(inner) => PfcpMarkIsShort(inner);
    case UdmStatus(code) => UdmStatusReason(code);
    case UdmNotFound => UdmNotFoundReason();
    case UdmMismatch => UdmMismatchReason();
    case UdmRequestFailed(inner) => UdmRequestReason(inner); PfcpMarkIsShort(inner);
    case UdmUnreachable(inner) => UdmUnreachableReason(inner); PfcpMarkIsShort(inner);
    case UdmDecodeFailed(inner) => UdmDecodeReason(inner); PfcpMarkIsShort(inner);
  }
}

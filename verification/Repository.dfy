/** The session store: the table as a value, the counting queries over it, and the in-memory
    implementation that copies every record on its way in and out. */
module Repository {
  import opened Wrappers

  /** The status texts the code tells apart; OTHER stands for every further text. */
  datatype Status = ACTIVE | PENDING | CREATING | FAILED | OTHER(text: string)

  datatype Session = Session(
    ref: string, supi: string, gpsi: string, pduSessionId: int, dnn: string, sst: int, sd: string,
    servingNfId: string, anType: string, status: Status, ipAddress: string, failureReason: string,
    createdAt: int, updatedAt: int)

  type Table = map<string, Session>

  // ----- the writes -----

  function Save(t: Table, s: Session, now: int): Table {
    t[s.ref := s.(createdAt := now, updatedAt := now)]
  }

  function SetReason(t: Table, ref: string, status: Status, reason: string, now: int): Table {
    if ref in t then t[ref := t[ref].(status := status, failureReason := reason, updatedAt := now)] else t
  }

  function SetIP(t: Table, ref: string, status: Status, ip: string, now: int): Table {
    if ref in t then t[ref := t[ref].(status := status, ipAddress := ip, updatedAt := now)] else t
  }

  // ----- the counts -----

  ghost function WithStatus(t: Table, statuses: set<Status>): set<string> {
    set r | r in t && t[r].status in statuses
  }

  ghost function FailedFor(t: Table, reason: string): set<string> {
    set r | r in t && t[r].status == FAILED && t[r].failureReason == reason
  }

  /** The reasons the in-memory count reports: those of failed sessions, the empty one left out. */
  ghost function Reasons(t: Table): set<string> {
    set r | r in t && t[r].status == FAILED && t[r].failureReason != "" :: t[r].failureReason
  }

  ghost function ReasonCounts(t: Table): map<string, nat> {
    GroupSizes(t, Reasons(t))
  }

  ghost function Total(m: map<string, nat>): nat
    decreases |m|
  {
    if m == map[] then 0 else var k :| k in m; m[k] + Total(m - {k})
  }

  lemma {:induction false} TotalSplit(m: map<string, nat>, k: string)
    requires k in m
    ensures Total(m) == m[k] + Total(m - {k})
    decreases |m|
  {
    var j :| j in m && Total(m) == m[j] + Total(m - {j});
    if j == k {
    } else {
      TotalSplit(m - {j}, k);
      TotalSplit(m - {k}, j);
      assert (m - {j}) - {k} == (m - {k}) - {j};
    }
  }

  ghost function FailedAmong(t: Table, reasons: set<string>): set<string> {
    set r | r in t && t[r].status == FAILED && t[r].failureReason in reasons
  }

  ghost function GroupSizes(t: Table, reasons: set<string>): map<string, nat> {
    map q | q in reasons :: |FailedFor(t, q)|
  }

  /** A finite family of disjoint sets has as many elements as its sizes add up to. */
  lemma {:induction false} TotalOfGroups(t: Table, reasons: set<string>)
    ensures Total(GroupSizes(t, reasons)) == |FailedAmong(t, reasons)|
    decreases reasons
  {
    var m := GroupSizes(t, reasons);
    if reasons == {} {
      assert m == map[] && FailedAmong(t, reasons) == {};
    } else {
      var q :| q in reasons;
      var rest := reasons - {q};
      TotalOfGroups(t, rest);
      TotalSplit(m, q);
      assert m - {q} == GroupSizes(t, rest);
      assert FailedAmong(t, reasons) == FailedFor(t, q) + FailedAmong(t, rest);
      assert FailedFor(t, q) !! FailedAmong(t, rest);
    }
  }

  /** The breakdown by reason adds up to the failed sessions that have one; to all failed sessions
      exactly when none has an empty reason. */
  lemma ReasonCountsTotal(t: Table)
    ensures Total(ReasonCounts(t)) == |WithStatus(t, {FAILED}) - FailedFor(t, "")|
    ensures Total(ReasonCounts(t)) == |WithStatus(t, {FAILED})| <==> FailedFor(t, "") == {}
  {
    TotalOfGroups(t, Reasons(t));
    assert WithStatus(t, {FAILED}) - FailedFor(t, "") == FailedAmong(t, Reasons(t));
    assert FailedFor(t, "") <= WithStatus(t, {FAILED});
  }

  /** The three counts cover the table exactly when every status is one the code counts. */
  lemma StatusCountsCover(t: Table)
    ensures |WithStatus(t, {ACTIVE})| + |WithStatus(t, {PENDING, CREATING})| + |WithStatus(t, {FAILED})| == |t|
       <==> forall r | r in t :: t[r].status in {ACTIVE, PENDING, CREATING, FAILED}
  {
    var a, p, f := WithStatus(t, {ACTIVE}), WithStatus(t, {PENDING, CREATING}), WithStatus(t, {FAILED});
    assert a !! p && (a + p) !! f;
    assert |a + p + f| == |a| + |p| + |f|;
    assert a + p + f <= t.Keys;
    if |a| + |p| + |f| == |t| {
      SubsetFull(a + p + f, t.Keys);
    }
    if forall r | r in t :: t[r].status in {ACTIVE, PENDING, CREATING, FAILED} {
      assert a + p + f == t.Keys;
    }
  }

  lemma SubsetFull(a: set<string>, b: set<string>)
    requires a <= b && |a| == |b|
    ensures a == b
  {
    assert |b - a| == |b| - |a|;
  }

  /** How a single write moves one status count. */
  lemma StatusCountUpdate(t: Table, ref: string, s: Session, statuses: set<Status>)
    ensures |WithStatus(t[ref := s], statuses)|
         == |WithStatus(t, statuses)|
            - (if ref in t && t[ref].status in statuses then 1 else 0)
            + (if s.status in statuses then 1 else 0)
  {
    var before, after := WithStatus(t, statuses), WithStatus(t[ref := s], statuses);
    assert before - {ref} == after - {ref};
    assert |before - {ref}| == |before| - (if ref in before then 1 else 0);
    assert |after - {ref}| == |after| - (if ref in after then 1 else 0);
  }

  ghost predicate IsBroken(s: Session, reason: string) {
    s.status == FAILED && s.failureReason == reason
  }

  lemma FailedForAdd(t: Table, ref: string, s: Session, q: string)
    requires ref !in t
    ensures FailedFor(t[ref := s], q) == if IsBroken(s, q) then FailedFor(t, q) + {ref} else FailedFor(t, q)
    ensures |FailedFor(t[ref := s], q)| == |FailedFor(t, q)| + if IsBroken(s, q) then 1 else 0
  {
  }

  lemma ReasonsAdd(t: Table, ref: string, s: Session)
    requires ref !in t
    ensures Reasons(t[ref := s]) ==
      if s.status == FAILED && s.failureReason != "" then Reasons(t) + {s.failureReason} else Reasons(t)
  {
    var u := t[ref := s];
    assert ref in u && u[ref] == s;
    forall r | r in t ensures u[r] == t[r] {
    }
    forall q | q in Reasons(t) ensures q in Reasons(u) {
      var r :| r in t && t[r].status == FAILED && t[r].failureReason == q;
      assert u[r] == t[r];
    }
  }

  /** `counts[reason]++`. */
  function Bump(counts: map<string, nat>, reason: string): map<string, nat> {
    counts[reason := (if reason in counts then counts[reason] else 0) + 1]
  }

  lemma ReasonCountAt(t: Table, ref: string, s: Session, q: string)
    requires ref !in t && q in Reasons(t[ref := s])
    ensures ReasonCounts(t[ref := s])[q]
         == (if q in ReasonCounts(t) then ReasonCounts(t)[q] else 0) + if IsBroken(s, q) then 1 else 0
  {
    FailedForAdd(t, ref, s, q);
    NoReasonNoFailure(t, q);
    assert q != "";
  }

  lemma BumpByKeys(before: map<string, nat>, after: map<string, nat>, reason: string)
    requires after.Keys == before.Keys + {reason}
    requires forall q | q in after ::
      after[q] == (if q in before then before[q] else 0) + if q == reason then 1 else 0
    ensures after == Bump(before, reason)
  {
  }

  /** How one more session moves the breakdown. */
  lemma ReasonCountsAdd(t: Table, ref: string, s: Session)
    requires ref !in t
    ensures ReasonCounts(t[ref := s]) ==
      if s.status == FAILED && s.failureReason != "" then Bump(ReasonCounts(t), s.failureReason) else ReasonCounts(t)
  {
    ReasonsAdd(t, ref, s);
    forall q | q in ReasonCounts(t[ref := s])
      ensures ReasonCounts(t[ref := s])[q]
           == (if q in ReasonCounts(t) then ReasonCounts(t)[q] else 0) + if IsBroken(s, q) then 1 else 0
    {
      ReasonCountAt(t, ref, s, q);
    }
    if s.status == FAILED && s.failureReason != "" {
      BumpByKeys(ReasonCounts(t), ReasonCounts(t[ref := s]), s.failureReason);
    } else {
      SameByKeys(t, ref, s);
    }
  }

  lemma SameByKeys(t: Table, ref: string, s: Session)
    requires ref !in t && !(s.status == FAILED && s.failureReason != "")
    ensures ReasonCounts(t[ref := s]) == ReasonCounts(t)
  {
    ReasonsAdd(t, ref, s);
    forall q | q in Reasons(t) ensures |FailedFor(t[ref := s], q)| == |FailedFor(t, q)| {
      FailedForAdd(t, ref, s, q);
    }
  }

  lemma NoReasonNoFailure(t: Table, q: string)
    ensures q !in Reasons(t) && q != "" ==> |FailedFor(t, q)| == 0
  {
    if q !in Reasons(t) && q != "" {
      assert FailedFor(t, q) == {};
    }
  }

  // ----- the grouped form of the same queries -----

  /** A row as SQL sees it; the reason column may be null. */
  datatype Row = Row(status: Status, reason: Option<string>)

  type Rows = map<string, Row>

  function AsRows(t: Table): Rows {
    map r | r in t :: Row(t[r].status, Some(t[r].failureReason))
  }

  /** What `SELECT status, COUNT(*) … WHERE status IN (…) GROUP BY status` may return: one entry for
      each status that occurs, in any order. */
  ghost predicate IsStatusGrouping(rows: Rows, groups: seq<(Status, nat)>) {
    && (forall i, j | 0 <= i < j < |groups| :: groups[i].0 != groups[j].0)
    && (forall i | 0 <= i < |groups| :: !groups[i].0.OTHER? && groups[i].1 == |RowsWith(rows, {groups[i].0})|)
    && (forall r | r in rows && !rows[r].status.OTHER? ::
          exists i :: 0 <= i < |groups| && groups[i].0 == rows[r].status)
  }

  ghost function RowsWith(rows: Rows, statuses: set<Status>): set<string> {
    set r | r in rows && rows[r].status in statuses
  }

  /** The sum of the counts whose status is one of `statuses`. */
  ghost function GroupSum(groups: seq<(Status, nat)>, statuses: set<Status>): nat {
    if groups == [] then 0
    else
      var last := groups[|groups| - 1];
      GroupSum(groups[..|groups| - 1], statuses) + if last.0 in statuses then last.1 else 0
  }

  ghost function Keys(groups: seq<(Status, nat)>): set<Status> {
    set i | 0 <= i < |groups| :: groups[i].0
  }

  lemma {:induction false} GroupSumCounts(rows: Rows, groups: seq<(Status, nat)>, statuses: set<Status>)
    requires forall i, j | 0 <= i < j < |groups| :: groups[i].0 != groups[j].0
    requires forall i | 0 <= i < |groups| :: groups[i].1 == |RowsWith(rows, {groups[i].0})|
    ensures GroupSum(groups, statuses) == |RowsWith(rows, statuses * Keys(groups))|
  {
    if groups == [] {
      assert RowsWith(rows, statuses * Keys(groups)) == {};
    } else {
      var n := |groups| - 1;
      var front, g := groups[..n], groups[n].0;
      assert forall i | 0 <= i < n :: front[i] == groups[i];
      GroupSumCounts(rows, front, statuses);
      assert Keys(groups) == Keys(front) + {g};
      assert g !in Keys(front);
      RowsWithOneMore(rows, statuses, Keys(front), g);
    }
  }

  lemma RowsWithOneMore(rows: Rows, statuses: set<Status>, keys: set<Status>, g: Status)
    requires g !in keys
    ensures |RowsWith(rows, statuses * (keys + {g}))|
         == |RowsWith(rows, statuses * keys)| + if g in statuses then |RowsWith(rows, {g})| else 0
  {
    var before, added := RowsWith(rows, statuses * keys), RowsWith(rows, {g});
    if g in statuses {
      assert RowsWith(rows, statuses * (keys + {g})) == before + added;
      assert before !! added;
    } else {
      assert statuses * (keys + {g}) == statuses * keys;
    }
  }

  lemma GroupSumCovers(rows: Rows, groups: seq<(Status, nat)>, statuses: set<Status>)
    requires IsStatusGrouping(rows, groups)
    requires statuses <= {ACTIVE, PENDING, CREATING, FAILED}
    ensures GroupSum(groups, statuses) == |RowsWith(rows, statuses)|
  {
    GroupSumCounts(rows, groups, statuses);
    forall r | r in RowsWith(rows, statuses) ensures rows[r].status in Keys(groups) {
      assert !rows[r].status.OTHER?;
      var i :| 0 <= i < |groups| && groups[i].0 == rows[r].status;
    }
    assert RowsWith(rows, statuses * Keys(groups)) == RowsWith(rows, statuses);
  }

  /** Adds up the groups of a grouped status query: the same three counts as the one-pass scan. */
  method GroupedCountByStatus(ghost t: Table, groups: seq<(Status, nat)>)
    returns (active: nat, pending: nat, failed: nat)
    requires IsStatusGrouping(AsRows(t), groups)
    ensures active == |WithStatus(t, {ACTIVE})|
    ensures pending == |WithStatus(t, {PENDING, CREATING})|
    ensures failed == |WithStatus(t, {FAILED})|
  {
    active, pending, failed := 0, 0, 0;
    for i := 0 to |groups|
      invariant active == GroupSum(groups[..i], {ACTIVE})
      invariant pending == GroupSum(groups[..i], {PENDING, CREATING})
      invariant failed == GroupSum(groups[..i], {FAILED})
    {
      assert groups[..i + 1][..i] == groups[..i];
      var (status, count) := groups[i];
      match status {
        case ACTIVE => active := active + count;
        case PENDING | CREATING => pending := pending + count;
        case FAILED => failed := failed + count;
        case OTHER(_) =>
      }
    }
    assert groups[..|groups|] == groups;
    forall statuses | statuses <= {ACTIVE, PENDING, CREATING, FAILED}
      ensures GroupSum(groups, statuses) == |WithStatus(t, statuses)|
    {
      GroupSumCovers(AsRows(t), groups, statuses);
      assert RowsWith(AsRows(t), statuses) == WithStatus(t, statuses);
    }
  }

  function Coalesce(reason: Option<string>): string {
    match reason
    case Some(q) => q
    case None => "UNKNOWN"
  }

  ghost function FailedRows(rows: Rows, reason: Option<string>): set<string> {
    set r | r in rows && rows[r].status == FAILED && rows[r].reason == reason
  }

  /** The same for `WHERE status = 'FAILED' GROUP BY failure_reason`. */
  ghost predicate IsReasonGrouping(rows: Rows, groups: seq<(Option<string>, nat)>) {
    && (forall i, j | 0 <= i < j < |groups| :: groups[i].0 != groups[j].0)
    && (forall i | 0 <= i < |groups| ::
          FailedRows(rows, groups[i].0) != {} && groups[i].1 == |FailedRows(rows, groups[i].0)|)
    && (forall r | r in rows && rows[r].status == FAILED ::
          exists i :: 0 <= i < |groups| && groups[i].0 == rows[r].reason)
  }

  ghost function AsMap(groups: seq<(Option<string>, nat)>): map<string, nat> {
    if groups == [] then map[]
    else
      var last := groups[|groups| - 1];
      AsMap(groups[..|groups| - 1])[Coalesce(last.0) := last.1]
  }

  /** Copies the groups of a grouped reason query into a map; a later group with the same text wins. For a
      table without null reasons these are its failed sessions by reason; in general they add up to the
      failed rows unless a null reason and "UNKNOWN" meet. */
  method GroupedCountByFailureReason(ghost rows: Rows, groups: seq<(Option<string>, nat)>)
    returns (counts: map<string, nat>)
    requires IsReasonGrouping(rows, groups)
    ensures forall t: Table | AsRows(t) == rows :: counts == GroupedReasons(t)
    ensures Total(counts) == |RowsWith(rows, {FAILED})|
       <==> FailedRows(rows, None) == {} || FailedRows(rows, Some("UNKNOWN")) == {}
  {
    counts := map[];
    for i := 0 to |groups|
      invariant counts == AsMap(groups[..i])
    {
      assert groups[..i + 1][..i] == groups[..i];
      counts := counts[Coalesce(groups[i].0) := groups[i].1];
    }
    assert groups[..|groups|] == groups;
    GroupedReasonsTotal(rows, groups);
    forall t: Table | AsRows(t) == rows ensures counts == GroupedReasons(t) {
      GroupedReasonsReported(t, groups);
    }
  }

  /** Groups without nulls do not overwrite each other. */
  lemma {:induction false} AsMapHolds(groups: seq<(Option<string>, nat)>)
    requires forall i, j | 0 <= i < j < |groups| :: groups[i].0 != groups[j].0
    requires forall i | 0 <= i < |groups| :: groups[i].0.Some?
    ensures forall i | 0 <= i < |groups| ::
      groups[i].0.value in AsMap(groups) && AsMap(groups)[groups[i].0.value] == groups[i].1
    ensures forall q | q in AsMap(groups) :: exists i :: 0 <= i < |groups| && groups[i].0 == Some(q)
  {
    if groups == [] {
    } else {
      var n := |groups| - 1;
      var front := groups[..n];
      AsMapHolds(front);
      assert forall i | 0 <= i < n :: front[i] == groups[i];
      forall q | q in AsMap(groups) ensures exists i :: 0 <= i < |groups| && groups[i].0 == Some(q) {
        if Some(q) != groups[n].0 {
          var i :| 0 <= i < |front| && front[i].0 == Some(q);
          assert groups[i].0 == Some(q);
        }
      }
    }
  }

  /** What the grouped query reports for a table without null reasons. */
  ghost function GroupedReasons(t: Table): map<string, nat> {
    GroupSizes(t, set r | r in t && t[r].status == FAILED :: t[r].failureReason)
  }

  lemma GroupedReasonsReported(t: Table, groups: seq<(Option<string>, nat)>)
    requires IsReasonGrouping(AsRows(t), groups)
    ensures AsMap(groups) == GroupedReasons(t)
  {
    GroupsAreReasons(t, groups);
    AsMapHolds(groups);
    forall r | r in t && t[r].status == FAILED ensures t[r].failureReason in AsMap(groups) {
      assert AsRows(t)[r].status == FAILED;
      var i :| 0 <= i < |groups| && groups[i].0 == AsRows(t)[r].reason;
    }
  }

  lemma GroupsAreReasons(t: Table, groups: seq<(Option<string>, nat)>)
    requires IsReasonGrouping(AsRows(t), groups)
    ensures forall i | 0 <= i < |groups| ::
      groups[i].0.Some? && FailedFor(t, groups[i].0.value) != {} && groups[i].1 == |FailedFor(t, groups[i].0.value)|
  {
    forall i | 0 <= i < |groups|
      ensures groups[i].0.Some? && FailedRows(AsRows(t), groups[i].0) == FailedFor(t, groups[i].0.value)
    {
      var r :| r in FailedRows(AsRows(t), groups[i].0);
      assert AsRows(t)[r].reason == Some(t[r].failureReason);
    }
  }

  /** Only the in-memory query leaves the empty reason out, so the two agree exactly on tables where
      no failed session has it. */
  lemma GroupedReasonsAgree(t: Table)
    ensures GroupedReasons(t) == ReasonCounts(t) <==> FailedFor(t, "") == {}
  {
    if FailedFor(t, "") != {} {
      var r :| r in FailedFor(t, "");
      assert t[r].failureReason in GroupedReasons(t);
      assert "" !in ReasonCounts(t);
    } else {
      forall r | r in t && t[r].status == FAILED ensures t[r].failureReason != "" {
        assert r !in FailedFor(t, "");
      }
      assert GroupedReasons(t).Keys == Reasons(t);
    }
  }

  // ----- when the grouped reasons lose a group -----

  ghost function ReasonSum(groups: seq<(Option<string>, nat)>): nat {
    if groups == [] then 0 else ReasonSum(groups[..|groups| - 1]) + groups[|groups| - 1].1
  }

  ghost predicate HasGroup(groups: seq<(Option<string>, nat)>, reason: Option<string>) {
    exists i :: 0 <= i < |groups| && groups[i].0 == reason
  }

  lemma HasGroupLast(groups: seq<(Option<string>, nat)>, reason: Option<string>)
    requires groups != []
    ensures HasGroup(groups, reason) <==> HasGroup(groups[..|groups| - 1], reason) || groups[|groups| - 1].0 == reason
  {
    var front := groups[..|groups| - 1];
    if i :| 0 <= i < |front| && front[i].0 == reason {
      assert groups[i].0 == reason;
    }
  }

  lemma {:induction false} AsMapKeys(groups: seq<(Option<string>, nat)>, q: string)
    ensures q in AsMap(groups) <==> HasGroup(groups, Some(q)) || (q == "UNKNOWN" && HasGroup(groups, None))
  {
    if groups == [] {
    } else {
      AsMapKeys(groups[..|groups| - 1], q);
      HasGroupLast(groups, Some(q));
      HasGroupLast(groups, None);
    }
  }

  lemma TotalInsert(m: map<string, nat>, k: string, v: nat)
    ensures Total(m[k := v]) == Total(m) + v - if k in m then m[k] else 0
  {
    TotalSplit(m[k := v], k);
    assert m[k := v] - {k} == m - {k};
    if k in m {
      TotalSplit(m, k);
    } else {
      assert m - {k} == m;
    }
  }

  ghost predicate Distinct(groups: seq<(Option<string>, nat)>) {
    && (forall i, j | 0 <= i < j < |groups| :: groups[i].0 != groups[j].0)
    && (forall i | 0 <= i < |groups| :: groups[i].1 > 0)
  }

  lemma {:induction false} AsMapPositive(groups: seq<(Option<string>, nat)>)
    requires Distinct(groups)
    ensures forall q | q in AsMap(groups) :: AsMap(groups)[q] > 0
  {
    if groups == [] {
    } else {
      AsMapPositive(groups[..|groups| - 1]);
    }
  }

  lemma {:induction false} AsMapTotal(groups: seq<(Option<string>, nat)>)
    requires Distinct(groups)
    ensures Total(AsMap(groups)) <= ReasonSum(groups)
    ensures Total(AsMap(groups)) == ReasonSum(groups)
      <==> !(HasGroup(groups, None) && HasGroup(groups, Some("UNKNOWN")))
  {
    if groups == [] {
      assert Total(map[]) == 0;
    } else {
      var n := |groups| - 1;
      var front, last := groups[..n], groups[n];
      AsMapTotal(front);
      AsMapPositive(front);
      TotalInsert(AsMap(front), Coalesce(last.0), last.1);
      AsMapKeys(front, Coalesce(last.0));
      HasGroupLast(groups, None);
      HasGroupLast(groups, Some("UNKNOWN"));
      NotTwice(groups);
    }
  }

  lemma NotTwice(groups: seq<(Option<string>, nat)>)
    requires Distinct(groups) && groups != []
    ensures !HasGroup(groups[..|groups| - 1], groups[|groups| - 1].0)
  {
  }

  ghost function FailedRowsAmong(rows: Rows, reasons: set<Option<string>>): set<string> {
    set r | r in rows && rows[r].status == FAILED && rows[r].reason in reasons
  }

  lemma {:induction false} ReasonSumCounts(rows: Rows, groups: seq<(Option<string>, nat)>)
    requires forall i, j | 0 <= i < j < |groups| :: groups[i].0 != groups[j].0
    requires forall i | 0 <= i < |groups| :: groups[i].1 == |FailedRows(rows, groups[i].0)|
    ensures ReasonSum(groups) == |FailedRowsAmong(rows, set i | 0 <= i < |groups| :: groups[i].0)|
  {
    var keys := set i | 0 <= i < |groups| :: groups[i].0;
    if groups == [] {
      assert FailedRowsAmong(rows, keys) == {};
    } else {
      var n := |groups| - 1;
      var front, g := groups[..n], groups[n].0;
      var before := set i | 0 <= i < |front| :: front[i].0;
      ReasonSumCounts(rows, front);
      assert forall i | 0 <= i < n :: front[i] == groups[i];
      assert keys == before + {g} && g !in before;
      assert FailedRowsAmong(rows, keys) == FailedRowsAmong(rows, before) + FailedRows(rows, g);
      assert FailedRowsAmong(rows, before) !! FailedRows(rows, g);
    }
  }

  /** The grouped reasons add up to the failed rows exactly when no failed row without a reason meets one
      whose reason reads "UNKNOWN": these two groups share a key, and the second overwrites the first. */
  lemma GroupedReasonsTotal(rows: Rows, groups: seq<(Option<string>, nat)>)
    requires IsReasonGrouping(rows, groups)
    ensures Total(AsMap(groups)) == |RowsWith(rows, {FAILED})|
       <==> FailedRows(rows, None) == {} || FailedRows(rows, Some("UNKNOWN")) == {}
  {
    ReasonSumCounts(rows, groups);
    var keys := set i | 0 <= i < |groups| :: groups[i].0;
    forall r | r in rows && rows[r].status == FAILED ensures rows[r].reason in keys {
      var i :| 0 <= i < |groups| && groups[i].0 == rows[r].reason;
    }
    assert FailedRowsAmong(rows, keys) == RowsWith(rows, {FAILED});
    GroupExists(rows, groups, None);
    GroupExists(rows, groups, Some("UNKNOWN"));
    forall i | 0 <= i < |groups| ensures groups[i].1 > 0 {
      var r :| r in FailedRows(rows, groups[i].0);
      assert {r} <= FailedRows(rows, groups[i].0);
    }
    AsMapTotal(groups);
  }

  lemma GroupExists(rows: Rows, groups: seq<(Option<string>, nat)>, reason: Option<string>)
    requires IsReasonGrouping(rows, groups)
    ensures HasGroup(groups, reason) <==> FailedRows(rows, reason) != {}
  {
    if r :| r in FailedRows(rows, reason) {
      var i :| 0 <= i < |groups| && groups[i].0 == rows[r].reason;
    }
  }
}

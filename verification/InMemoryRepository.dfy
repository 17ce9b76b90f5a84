/** The in-memory repository: a map of private copies. */
module InMemoryRepository {
  import opened Repository

  /** A session record on the heap, updated in place. */
  class PDUSession {
    var data: Session

    constructor (data: Session)
      ensures this.data == data
    {
      this.data := data;
    }
  }

  class Store {
    var sessions: map<string, PDUSession>
    ghost var Repr: set<PDUSession>  // the private copies

    ghost predicate Valid()
      reads this, Repr
    {
      forall r | r in sessions :: sessions[r] in Repr && sessions[r].data.ref == r
    }

    ghost function Model(): Table
      requires Valid()
      reads this, Repr
    {
      map r | r in sessions :: sessions[r].data
    }

    constructor ()
      ensures Valid() && Model() == map[] && fresh(Repr)
    {
      sessions := map[];
      Repr := {};
    }

    /** Stamps the caller's record and stores a copy of it: the record itself stays outside, so
        later changes to it are not changes to the store. */
    method SaveSession(session: PDUSession, now: int)
      requires Valid() && session !in Repr
      modifies this`sessions, this`Repr, session
      ensures Valid() && session !in Repr && fresh(Repr - old(Repr))
      ensures session.data == old(session.data).(createdAt := now, updatedAt := now)
      ensures Model() == Save(old(Model()), old(session.data), now)
    {
      session.data := session.data.(createdAt := now, updatedAt := now);
      var copied := new PDUSession(session.data);
      sessions := sessions[session.data.ref := copied];
      Repr := Repr + {copied};
    }

    /** A fresh copy of the record, or null for an unknown reference. */
    method GetSession(ref: string) returns (session: PDUSession?)
      requires Valid()
      ensures session == null <==> ref !in Model()
      ensures session != null ==> fresh(session) && session.data == Model()[ref]
    {
      if ref !in sessions {
        return null;
      }
      session := new PDUSession(sessions[ref].data);
    }

    method UpdateSessionStatusWithReason(ref: string, status: Status, reason: string, now: int)
      returns (found: bool)
      requires Valid()
      modifies Repr
      ensures Valid() && found == (ref in old(Model()))
      ensures Model() == SetReason(old(Model()), ref, status, reason, now)
    {
      if ref !in sessions {
        return false;
      }
      var session := sessions[ref];
      session.data := session.data.(status := status, failureReason := reason, updatedAt := now);
      return true;
    }

    method UpdateSessionStatusAndIP(ref: string, status: Status, ip: string, now: int) returns (found: bool)
      requires Valid()
      modifies Repr
      ensures Valid() && found == (ref in old(Model()))
      ensures Model() == SetIP(old(Model()), ref, status, ip, now)
    {
      if ref !in sessions {
        return false;
      }
      var session := sessions[ref];
      session.data := session.data.(status := status, ipAddress := ip, updatedAt := now);
      return true;
    }

    /** Copies of all records, each once, in no particular order. */
    method GetAllSessions() returns (list: seq<PDUSession>, ghost refs: seq<string>)
      requires Valid()
      ensures |list| == |refs| == |Model()| && forall r | r in Model() :: r in refs
      ensures forall i | 0 <= i < |list| :: fresh(list[i]) && refs[i] in Model() && list[i].data == Model()[refs[i]]
    {
      list, refs := [], [];
      var todo := sessions.Keys;
      ghost var t: Table := Model();
      assert t.Keys == todo;
      while todo != {}
        invariant todo <= t.Keys && t == Model() && |list| == |refs| == |t| - |todo|
        invariant forall i | 0 <= i < |list| :: fresh(list[i]) && refs[i] in t && list[i].data == t[refs[i]]
        invariant forall r | r in t && r !in todo :: r in refs
        decreases todo
      {
        var ref :| ref in todo;
        var copied := new PDUSession(sessions[ref].data);
        list, refs := list + [copied], refs + [ref];
        todo := todo - {ref};
      }
    }

    method CountByStatus() returns (active: nat, pending: nat, failed: nat)
      requires Valid()
      ensures active == |WithStatus(Model(), {ACTIVE})|
      ensures pending == |WithStatus(Model(), {PENDING, CREATING})|
      ensures failed == |WithStatus(Model(), {FAILED})|
    {
      active, pending, failed := 0, 0, 0;
      var todo := sessions.Keys;
      ghost var t: Table := Model();
      assert t - todo == map[];
      while todo != {}
        invariant todo <= t.Keys && t == Model()
        invariant active == |WithStatus(t - todo, {ACTIVE})|
        invariant pending == |WithStatus(t - todo, {PENDING, CREATING})|
        invariant failed == |WithStatus(t - todo, {FAILED})|
        decreases todo
      {
        var ref :| ref in todo;
        assert t - (todo - {ref}) == (t - todo)[ref := t[ref]];
        StatusCountUpdate(t - todo, ref, t[ref], {ACTIVE});
        StatusCountUpdate(t - todo, ref, t[ref], {PENDING, CREATING});
        StatusCountUpdate(t - todo, ref, t[ref], {FAILED});
        match sessions[ref].data.status {
          case ACTIVE => active := active + 1;
          case PENDING | CREATING => pending := pending + 1;
          case FAILED => failed := failed + 1;
          case OTHER(_) =>
        }
        todo := todo - {ref};
      }
      assert t - todo == t;
    }

    method CountByFailureReason() returns (counts: map<string, nat>)
      requires Valid()
      ensures counts == ReasonCounts(Model())
    {
      counts := map[];
      var todo := sessions.Keys;
      ghost var t: Table := Model();
      assert t - todo == map[];
      while todo != {}
        invariant todo <= t.Keys && t == Model()
        invariant counts == ReasonCounts(t - todo)
        decreases todo
      {
        var ref :| ref in todo;
        assert t - (todo - {ref}) == (t - todo)[ref := t[ref]];
        ReasonCountsAdd(t - todo, ref, t[ref]);
        var s := sessions[ref].data;
        if s.status == FAILED && s.failureReason != "" {
          counts := Bump(counts, s.failureReason);
        }
        todo := todo - {ref};
      }
      assert t - todo == t;
    }
  }
}

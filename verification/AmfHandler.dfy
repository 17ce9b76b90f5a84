/** The AMF's side: which session reference it holds for each IMSI, and what its two handlers do to that. */
module AmfHandler {
  import opened Wrappers

  /** What the SMF sends with a callback. */
  datatype Transfer = Transfer(
    pduSessionId: int, sst: int, sd: string, dnn: string, ref: string, status: string, cause: string, message: string)

  /** How the SMF answered a CreateSMContext call: not at all, with a status other than 201, or with 201
      and a body that names a reference or cannot be read. */
  datatype Creation = Unanswered | Refused(code: nat) | Created(ref: Option<string>)

  datatype Answer = Answer(sessions: map<string, string>, code: nat, update: Option<(string, string)>)

  // ----- the handlers as functions -----

  /** A trigger for `supi`; None is a body that cannot be read. */
  function Trigger(sessions: map<string, string>, supi: Option<string>, creation: Creation): Answer {
    if supi.None? then Answer(sessions, 400, None)
    else match creation
      case Unanswered => Answer(sessions, 503, None)
      case Refused(code) => Answer(sessions, code, None)
      case Created(None) => Answer(sessions, 500, None)
      case Created(Some(ref)) => Answer(sessions[supi.value := ref], 201, None)
  }

  /** A callback for `imsi`. `update` is the reference and IMSI of the update call it leads to. */
  function Callback(sessions: map<string, string>, imsi: string, body: Option<Transfer>): Answer {
    if imsi == "" || body.None? then Answer(sessions, 400, None)
    else if body.value.status == "FAILED" then
      Answer(if body.value.ref != "" then sessions[imsi := body.value.ref] else sessions, 200, None)
    else if imsi !in sessions then Answer(sessions, 404, None)
    else Answer(sessions, 200, Some((sessions[imsi], imsi)))
  }

  // ----- any sequence of handler calls -----

  datatype Event =
    | Triggered(supi: Option<string>, creation: Creation)
    | CalledBack(imsi: string, body: Option<Transfer>)

  function React(sessions: map<string, string>, e: Event): Answer {
    match e
    case Triggered(supi, creation) => Trigger(sessions, supi, creation)
    case CalledBack(imsi, body) => Callback(sessions, imsi, body)
  }

  function After(events: seq<Event>): map<string, string> {
    if events == [] then map[] else React(After(events[..|events| - 1]), events[|events| - 1]).sessions
  }

  /** The event tells the AMF that `ref` is the session of `imsi`. */
  predicate Tells(e: Event, imsi: string, ref: string) {
    match e
    case Triggered(supi, creation) => supi == Some(imsi) && creation == Created(Some(ref))
    case CalledBack(i, body) =>
      i == imsi && imsi != "" && body.Some? && body.value.status == "FAILED" && body.value.ref == ref && ref != ""
  }

  /** The last of the events about `imsi` named `ref`. */
  ghost predicate LastTold(events: seq<Event>, imsi: string, ref: string) {
    exists i :: 0 <= i < |events| && Tells(events[i], imsi, ref)
                && forall j, other | i < j < |events| :: !Tells(events[j], imsi, other)
  }

  lemma ReactTells(sessions: map<string, string>, e: Event, imsi: string)
    ensures forall ref | Tells(e, imsi, ref) :: React(sessions, e).sessions == sessions[imsi := ref]
    ensures (forall ref :: !Tells(e, imsi, ref)) ==>
      (imsi in React(sessions, e).sessions <==> imsi in sessions)
      && (imsi in sessions ==> React(sessions, e).sessions[imsi] == sessions[imsi])
  {
    match e
    case Triggered(supi, creation) =>
      if supi == Some(imsi) && creation.Created? && creation.ref.Some? {
        assert Tells(e, imsi, creation.ref.value);
      }
    case CalledBack(i, body) =>
      if i == imsi && i != "" && body.Some? && body.value.status == "FAILED" && body.value.ref != "" {
        assert Tells(e, imsi, body.value.ref);
      }
  }

  /** After any sequence of triggers and callbacks the AMF holds, for each IMSI, the reference it was told
      last, and nothing for an IMSI it was told nothing about. */
  lemma {:induction false} LatestReferenceWins(events: seq<Event>, imsi: string, ref: string)
    ensures imsi in After(events) && After(events)[imsi] == ref <==> LastTold(events, imsi, ref)
  {
    if events == [] {
    } else {
      var n := |events| - 1;
      var front, e := events[..n], events[n];
      LatestReferenceWins(front, imsi, ref);
      ReactTells(After(front), e, imsi);
      if told :| Tells(e, imsi, told) {
        assert LastTold(events, imsi, ref) ==> told == ref by {
          if LastTold(events, imsi, ref) {
            var i :| 0 <= i < |events| && Tells(events[i], imsi, ref)
                     && forall j, other | i < j < |events| :: !Tells(events[j], imsi, other);
            assert i == n;
          }
        }
        if told == ref {
          assert Tells(events[n], imsi, ref);
        }
      } else {
        LastToldBefore(front, e, imsi, ref);
        assert events == front + [e];
      }
    }
  }

  lemma LastToldBefore(front: seq<Event>, e: Event, imsi: string, ref: string)
    requires forall r :: !Tells(e, imsi, r)
    ensures LastTold(front + [e], imsi, ref) <==> LastTold(front, imsi, ref)
  {
    var events := front + [e];
    if LastTold(front, imsi, ref) {
      var i :| 0 <= i < |front| && Tells(front[i], imsi, ref)
               && forall j, other | i < j < |front| :: !Tells(front[j], imsi, other);
      assert Tells(events[i], imsi, ref);
      forall j, other | i < j < |events| ensures !Tells(events[j], imsi, other) {
        if j < |front| {
          assert front[j] == events[j];
        }
      }
    }
    if LastTold(events, imsi, ref) {
      var i :| 0 <= i < |events| && Tells(events[i], imsi, ref)
               && forall j, other | i < j < |events| :: !Tells(events[j], imsi, other);
      assert i < |front| && front[i] == events[i];
      forall j, other | i < j < |front| ensures !Tells(front[j], imsi, other) {
        assert events[j] == front[j];
      }
    }
  }

  /** The update call of an accepted callback names the reference told last for the IMSI. */
  lemma ModifyNamesLatest(events: seq<Event>, imsi: string, body: Transfer)
    requires imsi != "" && body.status != "FAILED"
    ensures var a := Callback(After(events), imsi, Some(body));
            && (a.code == 200 <==> exists ref :: LastTold(events, imsi, ref))
            && (a.code != 200 ==> a.code == 404 && a.update == None)
            && (forall ref :: a.update == Some((ref, imsi)) <==> LastTold(events, imsi, ref))
  {
    forall ref ensures imsi in After(events) && After(events)[imsi] == ref <==> LastTold(events, imsi, ref) {
      LatestReferenceWins(events, imsi, ref);
    }
    if imsi in After(events) {
      assert LastTold(events, imsi, After(events)[imsi]);
    }
  }

  predicate Readable(imsi: string, body: Option<Transfer>) {
    imsi != "" && body.Some?
  }

  /** Every answer to a callback after any events: 400 and no effect without an IMSI or a readable body; for
      a failure 200 and no modify call, the reference it names being held from then on; otherwise no change
      of what is held, and a modify call with 200 exactly when the IMSI was told a reference. */
  lemma CallbackAnswers(events: seq<Event>, imsi: string, body: Option<Transfer>)
    ensures var held, a := After(events), Callback(After(events), imsi, body);
            && (!Readable(imsi, body) ==> a.code == 400 && a.update == None && a.sessions == held)
            && (Readable(imsi, body) && body.value.status == "FAILED" ==>
                  && a.code == 200 && a.update == None
                  && (body.value.ref == "" ==> a.sessions == held)
                  && (body.value.ref != "" ==>
                        && imsi in a.sessions && a.sessions[imsi] == body.value.ref
                        && a.sessions - {imsi} == held - {imsi}))
            && (Readable(imsi, body) && body.value.status != "FAILED" ==>
                  && a.sessions == held
                  && a.code == if exists ref :: LastTold(events, imsi, ref) then 200 else 404)
            && (a.update.Some? <==>
                  && Readable(imsi, body) && body.value.status != "FAILED"
                  && exists ref :: LastTold(events, imsi, ref))
            && (a.update.Some? ==> a.update.value.1 == imsi && LastTold(events, imsi, a.update.value.0))
  {
    if Readable(imsi, body) && body.value.status != "FAILED" {
      ModifyNamesLatest(events, imsi, body.value);
      var a := Callback(After(events), imsi, body);
      if ref :| LastTold(events, imsi, ref) {
        assert a.update == Some((ref, imsi));
      }
    }
  }

  /** Every answer to a trigger: a reference is stored, under the trigger's own subscriber and nobody else's,
      exactly when the SMF created a context and its reply can be read. */
  lemma TriggerAnswers(sessions: map<string, string>, supi: Option<string>, creation: Creation)
    ensures var a := Trigger(sessions, supi, creation);
            && a.update == None
            && (supi == None ==> a.code == 400)
            && (supi.Some? && creation == Unanswered ==> a.code == 503)
            && (supi.Some? && creation.Refused? ==> a.code == creation.code)
            && (supi.Some? && creation == Created(None) ==> a.code == 500)
            && (forall imsi, ref | supi == Some(imsi) && creation == Created(Some(ref)) ::
                  && a.code == 201 && imsi in a.sessions && a.sessions[imsi] == ref
                  && a.sessions - {imsi} == sessions - {imsi})
            && (!(supi.Some? && creation.Created? && creation.ref.Some?) ==> a.sessions == sessions)
  {
  }

  /** It is the callback's own reference exactly when that was told last: the map is keyed by IMSI alone,
      so after a second session of the same subscriber the callback of the first leads to an update of
      the second. */
  lemma ModifyNamesOwnSession(events: seq<Event>, imsi: string, body: Transfer)
    requires imsi != "" && body.status != "FAILED"
    ensures Callback(After(events), imsi, Some(body)).update == Some((body.ref, imsi))
      <==> LastTold(events, imsi, body.ref)
  {
    ModifyNamesLatest(events, imsi, body);
  }

  lemma ModifyOfAnotherSession(imsi: string, first: string, second: string, body: Transfer)
    requires imsi != "" && first != second && body.ref == first && body.status == "ACTIVE"
    ensures var events := [Triggered(Some(imsi), Created(Some(first))), Triggered(Some(imsi), Created(Some(second)))];
            var a := Callback(After(events), imsi, Some(body));
            a.code == 200 && a.update == Some((second, imsi))
  {
    var events := [Triggered(Some(imsi), Created(Some(first))), Triggered(Some(imsi), Created(Some(second)))];
    assert Tells(events[1], imsi, second);
    assert LastTold(events, imsi, second);
    LatestReferenceWins(events, imsi, second);
  }

  // ----- the handler on the heap -----

  class Handler {
    var sessions: map<string, string>

    constructor ()
      ensures sessions == map[]
    {
      sessions := map[];
    }

    /** `supi` is the subscriber of the trigger, its default included. */
    method TriggerEstablishment(supi: Option<string>, creation: Creation) returns (code: nat)
      modifies this
      ensures sessions == Trigger(old(sessions), supi, creation).sessions
      ensures code == Trigger(old(sessions), supi, creation).code
    {
      if supi.None? {
        return 400;
      }
      match creation {
        case Unanswered => return 503;
        case Refused(status) => return status;
        case Created(ref) =>
          if ref.None? {
            return 500;
          }
          sessions := sessions[supi.value := ref.value];
          return 201;
      }
    }

    method ReceiveN1N2Callback(imsi: string, body: Option<Transfer>)
      returns (code: nat, update: Option<(string, string)>)
      modifies this
      ensures Answer(sessions, code, update) == Callback(old(sessions), imsi, body)
    {
      if imsi == "" || body.None? {
        return 400, None;
      }
      var known := imsi in sessions;
      var ref := if known then sessions[imsi] else "";
      if body.value.status == "FAILED" {
        if body.value.ref != "" {
          ref := body.value.ref;
          sessions := sessions[imsi := ref];
        }
        return 200, None;
      }
      if !known {
        return 404, None;
      }
      return 200, Some((ref, imsi));
    }
  }
}

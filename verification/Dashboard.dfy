/** The dashboard hub: events go through one bounded queue to a set of subscribers, each behind its own
    bounded channel. First the hub, its publishers and its connections as a labelled transition system,
    then the hub on the heap. */
module Dashboard {
  import opened Wrappers

  const CLIENT_BUFFER: nat := 20
  const HUB_BUFFER: nat := 200

  type Message = string

  /** `message` offered without blocking to a channel that holds `buf`. */
  function Offered(buf: seq<Message>, message: Message): seq<Message> {
    if |buf| < CLIENT_BUFFER then buf + [message] else buf
  }

  /** An event offered without blocking to the hub's queue. */
  function Published(queue: seq<Message>, message: Message): seq<Message> {
    if |queue| < HUB_BUFFER then queue + [message] else queue
  }

  // ----- the state -----

  datatype Stage = Connecting | Streaming | Leaving | Gone

  /** How much an observer has seen: the events published, those of them that found room in the hub's queue,
      those that found it full, and the messages the hub took. */
  datatype Point = Point(published: nat, accepted: nat, dropped: nat, taken: nat)

  /** One run of ServeHTTP with its channel. The last four fields are an observer's: the points at which
      the connection was registered and unregistered, which of the hub's messages were put in its channel,
      and how many found it full. */
  datatype Conn = Conn(
    stage: Stage, buf: seq<Message>, closed: bool, received: seq<Message>,
    since: Point, until: Point, picked: seq<nat>, missed: nat)
  {
    /** What was ever put in the channel. */
    function Got(): seq<Message> {
      received + buf
    }

    function Offer(message: Message, position: nat): Conn {
      if |buf| < CLIENT_BUFFER
      then this.(buf := Offered(buf, message), picked := picked + [position])
      else this.(missed := missed + 1)
    }
  }

  /** The hub waits in its select, or is handing a message to the subscribers in `todo`. */
  datatype Mode = Ready | FanOut(message: Message, todo: set<nat>)

  /** `published`, `accepted`, `dropped` and `taken` are an observer's. `panicked` would record a send on a
      closed channel or a second close. */
  datatype State = State(
    mode: Mode, clients: set<nat>, queue: seq<Message>, conns: seq<Conn>, panicked: bool,
    published: seq<Message>, accepted: seq<Message>, dropped: nat, taken: seq<Message>)
  {
    function Here(): Point {
      Point(|published|, |accepted|, dropped, |taken|)
    }

    /** Where the connection's registration ends: at its unregistration, or not yet. */
    function End(conn: Conn): Point {
      if conn.stage == Gone then conn.until else Here()
    }

    function With(c: nat, conn: Conn): State
      requires c < |conns|
    {
      this.(conns := conns[c := conn])
    }

    predicate At(c: nat, stage: Stage) {
      c < |conns| && conns[c].stage == stage
    }
  }

  ghost predicate Init(s: State) {
    s == State(Ready, {}, [], [], false, [], [], 0, [])
  }

  // ----- the steps -----

  function Unconnected(): Conn {
    Conn(Connecting, [], false, [], Point(0, 0, 0, 0), Point(0, 0, 0, 0), [], 0)
  }

  ghost predicate Connect(s: State, t: State) {
    t == s.(conns := s.conns + [Unconnected()])
  }

  /** The connection's channel reaches the hub, which must be in its select. */
  ghost predicate Register(s: State, t: State, c: nat) {
    && s.mode == Ready && s.At(c, Connecting)
    && t == s.With(c, s.conns[c].(stage := Streaming, since := s.Here())).(clients := s.clients + {c})
  }

  ghost predicate Receive(s: State, t: State, c: nat) {
    && s.At(c, Streaming) && s.conns[c].buf != []
    && t == s.With(c, s.conns[c].(buf := s.conns[c].buf[1..], received := s.conns[c].received + [s.conns[c].buf[0]]))
  }

  /** The connection sees its channel closed. */
  ghost predicate SeeClosed(s: State, t: State, c: nat) {
    && s.At(c, Streaming) && s.conns[c].buf == [] && s.conns[c].closed
    && t == s.With(c, s.conns[c].(stage := Leaving))
  }

  /** The request is cancelled, or its writer cannot stream. */
  ghost predicate Leave(s: State, t: State, c: nat) {
    && s.At(c, Streaming)
    && t == s.With(c, s.conns[c].(stage := Leaving))
  }

  /** The deferred unregistration reaches the hub; a registered channel is closed. */
  ghost predicate Unregister(s: State, t: State, c: nat) {
    && s.mode == Ready && s.At(c, Leaving)
    && var conn := s.conns[c].(stage := Gone, until := s.Here());
       t == if c in s.clients
            then s.With(c, conn.(closed := true)).(clients := s.clients - {c}, panicked := s.panicked
              || s.conns[c].closed)
            else s.With(c, conn)
  }

  ghost predicate Publish(s: State, t: State, message: Message) {
    t == s.(queue := Published(s.queue, message), published := s.published + [message],
            accepted := if |s.queue| < HUB_BUFFER then s.accepted + [message] else s.accepted,
            dropped := if |s.queue| < HUB_BUFFER then s.dropped else s.dropped + 1)
  }

  ghost predicate Take(s: State, t: State) {
    && s.mode == Ready && s.queue != []
    && t == s.(mode := FanOut(s.queue[0], s.clients), queue := s.queue[1..], taken := s.taken + [s.queue[0]])
  }

  ghost predicate Offer(s: State, t: State, c: nat) {
    && s.mode.FanOut? && c in s.mode.todo && c < |s.conns| && s.taken != []
    && t == s.With(c, s.conns[c].Offer(s.mode.message, |s.taken| - 1)).(
              mode := s.mode.(todo := s.mode.todo - {c}), panicked := s.panicked || s.conns[c].closed)
  }

  ghost predicate FanOutDone(s: State, t: State) {
    s.mode.FanOut? && s.mode.todo == {} && t == s.(mode := Ready)
  }

  datatype Label =
    | LConnect
    | LRegister(c: nat)
    | LReceive(c: nat)
    | LSeeClosed(c: nat)
    | LLeave(c: nat)
    | LUnregister(c: nat)
    | LPublish(message: Message)
    | LTake
    | LOffer(c: nat)
    | LFanOutDone

  ghost predicate Step(s: State, l: Label, t: State) {
    match l
    case LConnect => Connect(s, t)
    case LRegister(c) => Register(s, t, c)
    case LReceive(c) => Receive(s, t, c)
    case LSeeClosed(c) => SeeClosed(s, t, c)
    case LLeave(c) => Leave(s, t, c)
    case LUnregister(c) => Unregister(s, t, c)
    case LPublish(message) => Publish(s, t, message)
    case LTake => Take(s, t)
    case LOffer(c) => Offer(s, t, c)
    case LFanOutDone => FanOutDone(s, t)
  }

  ghost predicate Run(states: seq<State>, labels: seq<Label>) {
    && |states| == |labels| + 1
    && forall i | 0 <= i < |labels| :: Step(states[i], labels[i], states[i + 1])
  }

  ghost predicate Reachable(s: State) {
    exists states, labels :: Run(states, labels) && Init(states[0]) && states[|labels|] == s
  }

  // ----- the invariant -----

  /** `xs` are the entries of `all` at the rising positions `picked`, all of them in [lo, hi). */
  ghost predicate PickedFrom(xs: seq<Message>, picked: seq<nat>, all: seq<Message>, lo: nat, hi: nat) {
    && lo <= hi <= |all| && |xs| == |picked|
    && (forall i | 0 <= i < |picked| :: lo <= picked[i] < hi && xs[i] == all[picked[i]])
    && (forall i, j | 0 <= i < j < |picked| :: picked[i] < picked[j])
  }

  /** Up to which message of the hub's the connection has been served. */
  function Served(conn: Conn, taken: nat, waiting: bool): int {
    if conn.stage == Gone then conn.until.taken else if waiting then taken - 1 else taken
  }

  ghost predicate ConnInv(conn: Conn, taken: seq<Message>, waiting: bool) {
    && (conn.closed <==> conn.stage == Gone)
    && |conn.buf| <= CLIENT_BUFFER
    && if conn.stage == Connecting then conn.Got() == [] && conn.picked == [] && conn.missed == 0
       else
         && 0 <= Served(conn, |taken|, waiting)
         && PickedFrom(conn.Got(), conn.picked, taken, conn.since.taken, Served(conn, |taken|, waiting))
         && |conn.picked| + conn.missed == Served(conn, |taken|, waiting) - conn.since.taken
  }

  ghost predicate Waiting(mode: Mode, c: nat) {
    mode.FanOut? && c in mode.todo
  }

  ghost predicate Inv(s: State) {
    && !s.panicked
    && (forall c :: c in s.clients <==> (s.At(c, Streaming) || s.At(c, Leaving)))
    && (s.mode.FanOut? ==> s.mode.todo <= s.clients && s.taken != [] && s.taken[|s.taken| - 1] == s.mode.message)
    && s.accepted == s.taken + s.queue && |s.queue| <= HUB_BUFFER
    && (forall c | 0 <= c < |s.conns| :: ConnInv(s.conns[c], s.taken, Waiting(s.mode, c)))
  }

  /** Taking one more message leaves what was served before as it was. */
  lemma TakeKeepsConn(conn: Conn, taken: seq<Message>, message: Message, waiting: bool)
    requires ConnInv(conn, taken, false) && (waiting <==> conn.stage == Streaming || conn.stage == Leaving)
    ensures ConnInv(conn, taken + [message], waiting)
  {
  }

  lemma OfferKeepsConn(conn: Conn, taken: seq<Message>)
    requires ConnInv(conn, taken, true) && (conn.stage == Streaming || conn.stage == Leaving) && taken != []
    ensures ConnInv(conn.Offer(taken[|taken| - 1], |taken| - 1), taken, false)
  {
    var after := conn.Offer(taken[|taken| - 1], |taken| - 1);
    if |conn.buf| < CLIENT_BUFFER {
      assert after.Got() == conn.Got() + [taken[|taken| - 1]];
    }
  }

  lemma ReceiveKeepsConn(conn: Conn, taken: seq<Message>, waiting: bool)
    requires ConnInv(conn, taken, waiting) && conn.stage == Streaming && conn.buf != []
    ensures ConnInv(conn.(buf := conn.buf[1..], received := conn.received + [conn.buf[0]]), taken, waiting)
  {
    assert (conn.received + [conn.buf[0]]) + conn.buf[1..] == conn.Got();
  }

  lemma HubStepKeeps(s: State, l: Label, t: State)
    requires Inv(s) && Step(s, l, t) && (l.LTake? || l.LOffer? || l.LFanOutDone? || l.LPublish?)
    ensures Inv(t)
  {
    hide ConnInv;
    match l
    case LTake =>
      forall c | 0 <= c < |t.conns| ensures ConnInv(t.conns[c], t.taken, Waiting(t.mode, c)) {
        TakeKeepsConn(s.conns[c], s.taken, s.queue[0], c in s.clients);
      }
      assert s.queue == [s.queue[0]] + s.queue[1..];
    case LOffer(c) => OfferKeeps(s, t, c);
    case _ =>
  }

  lemma OfferKeeps(s: State, t: State, c: nat)
    requires Inv(s) && Offer(s, t, c)
    ensures Inv(t)
  {
    hide ConnInv;
    assert ConnInv(s.conns[c], s.taken, Waiting(s.mode, c));
    OfferKeepsConn(s.conns[c], s.taken);
    NotGone(s.conns[c], s.taken, true);
    forall b | 0 <= b < |t.conns| ensures ConnInv(t.conns[b], t.taken, Waiting(t.mode, b)) {
      assert ConnInv(s.conns[b], s.taken, Waiting(s.mode, b));
    }
  }

  lemma NotGone(conn: Conn, taken: seq<Message>, waiting: bool)
    requires ConnInv(conn, taken, waiting)
    ensures conn.closed <==> conn.stage == Gone
  {
  }

  lemma OneConnKeeps(s: State, l: Label, t: State)
    requires Inv(s) && Step(s, l, t) && !(l.LTake? || l.LOffer? || l.LFanOutDone? || l.LPublish?)
    ensures Inv(t)
  {
    hide ConnInv;
    OthersKept(s, l, t);
    if l.LConnect? {
      NewConn(s.taken);
    } else {
      OneConnMoves(s, l, t);
      NotGone(s.conns[l.c], s.taken, Waiting(s.mode, l.c));
    }
  }

  lemma NewConn(taken: seq<Message>)
    ensures ConnInv(Unconnected(), taken, false)
  {
  }

  lemma OneConnMoves(s: State, l: Label, t: State)
    requires Inv(s) && Step(s, l, t) && !(l.LTake? || l.LOffer? || l.LFanOutDone? || l.LPublish? || l.LConnect?)
    ensures l.c < |t.conns| && ConnInv(t.conns[l.c], t.taken, Waiting(t.mode, l.c))
  {
    assert ConnInv(s.conns[l.c], s.taken, Waiting(s.mode, l.c));
    if l.LReceive? {
      ReceiveKeepsConn(s.conns[l.c], s.taken, Waiting(s.mode, l.c));
    }
  }

  lemma OthersKept(s: State, l: Label, t: State)
    requires Inv(s) && Step(s, l, t) && !(l.LTake? || l.LOffer? || l.LFanOutDone? || l.LPublish?)
    ensures t.taken == s.taken && t.mode == s.mode
    ensures forall c | 0 <= c < |s.conns| && !(l.LConnect? || l.c == c) ::
      c < |t.conns| && ConnInv(t.conns[c], t.taken, Waiting(t.mode, c))
  {
    hide ConnInv;
  }

  lemma {:induction false} RunInv(states: seq<State>, labels: seq<Label>, i: nat)
    requires Run(states, labels) && Init(states[0]) && i <= |labels|
    ensures Inv(states[i])
  {
    hide Step;
    if i == 0 {
    } else {
      hide Inv;
      RunInv(states, labels, i - 1);
      var l := labels[i - 1];
      if l.LTake? || l.LOffer? || l.LFanOutDone? || l.LPublish? {
        HubStepKeeps(states[i - 1], l, states[i]);
      } else {
        OneConnKeeps(states[i - 1], l, states[i]);
      }
    }
  }

  lemma ReachableInv(s: State)
    requires Reachable(s)
    ensures Inv(s)
  {
    hide Inv, Init;
    var states, labels :| Run(states, labels) && Init(states[0]) && states[|labels|] == s;
    RunInv(states, labels, |labels|);
  }

  // ----- what every run guarantees -----

  /** No channel is sent to after it is closed or closed twice, and a channel is closed exactly when its
      connection is gone; so no streaming connection ever sees its channel closed. */
  lemma ChannelsAreSafe(s: State, c: nat)
    requires Reachable(s) && c < |s.conns|
    ensures !s.panicked
    ensures s.conns[c].closed <==> s.conns[c].stage == Gone
    ensures c in s.clients <==> s.conns[c].stage in {Streaming, Leaving}
    ensures forall t :: !SeeClosed(s, t, c)
  {
    ReachableInv(s);
    assert ConnInv(s.conns[c], s.taken, Waiting(s.mode, c));
  }

  /** No accepted event is lost or reordered in the hub's queue. */
  lemma HubIsFirstInFirstOut(s: State)
    requires Reachable(s)
    ensures s.accepted == s.taken + s.queue
  {
    ReachableInv(s);
  }

  /** What a connection was given is an order-preserving selection, without repetition, of the messages the
      hub took while the connection was registered; and every message left out found the channel full. */
  lemma ReceivedIsSelection(s: State, c: nat)
    requires Reachable(s) && c < |s.conns| && s.conns[c].stage != Connecting
    ensures var conn := s.conns[c];
            var hi := Served(conn, |s.taken|, Waiting(s.mode, c));
            && 0 <= hi && PickedFrom(conn.received + conn.buf, conn.picked, s.taken, conn.since.taken, hi)
            && conn.missed == hi - conn.since.taken - |conn.picked|
  {
    ReachableInv(s);
    assert ConnInv(s.conns[c], s.taken, Waiting(s.mode, c));
  }

  lemma {:induction false} NoGaps(picked: seq<nat>, lo: nat, hi: nat, i: nat)
    requires lo + |picked| == hi && i < |picked|
    requires forall i | 0 <= i < |picked| :: lo <= picked[i] < hi
    requires forall i, j | 0 <= i < j < |picked| :: picked[i] < picked[j]
    ensures picked[i] >= lo + i
  {
    if i == 0 {
    } else {
      NoGaps(picked, lo, hi, i - 1);
    }
  }

  lemma {:induction false} NoRoom(picked: seq<nat>, lo: nat, hi: nat, i: nat)
    requires lo + |picked| == hi && i < |picked|
    requires forall i | 0 <= i < |picked| :: lo <= picked[i] < hi
    requires forall i, j | 0 <= i < j < |picked| :: picked[i] < picked[j]
    ensures picked[i] <= lo + i
    decreases |picked| - i
  {
    if i + 1 == |picked| {
    } else {
      NoRoom(picked, lo, hi, i + 1);
    }
  }

  /** A connection misses nothing exactly when it was given every message served since it registered. */
  lemma CompleteUnlessFull(s: State, c: nat)
    requires Reachable(s) && c < |s.conns| && s.conns[c].stage != Connecting
    ensures var conn := s.conns[c];
            var hi := Served(conn, |s.taken|, Waiting(s.mode, c));
            && conn.since.taken <= hi <= |s.taken|
            && (conn.missed == 0 <==> conn.received + conn.buf == s.taken[conn.since.taken..hi])
  {
    ReceivedIsSelection(s, c);
    var conn := s.conns[c];
    var hi := Served(conn, |s.taken|, Waiting(s.mode, c));
    if conn.missed == 0 {
      forall i | 0 <= i < |conn.picked| ensures conn.Got()[i] == s.taken[conn.since.taken..hi][i] {
        NoGaps(conn.picked, conn.since.taken, hi, i);
        NoRoom(conn.picked, conn.since.taken, hi, i);
      }
      assert conn.Got() == s.taken[conn.since.taken..hi];
    }
  }

  /** At most 200 events wait in the hub's queue and 20 messages in a channel. */
  lemma BuffersAreBounded(s: State, c: nat)
    requires Reachable(s) && c < |s.conns|
    ensures |s.queue| <= 200 && |s.conns[c].buf| <= 20
  {
    ReachableInv(s);
    assert ConnInv(s.conns[c], s.taken, Waiting(s.mode, c));
  }

  /** And nothing is dropped before they are full: a step that drops an event finds 200 waiting, one by which a
      connection misses a message finds 20 there. */
  lemma DropsOnlyWhenFull(s: State, l: Label, t: State, c: nat)
    requires Reachable(s) && Step(s, l, t) && c < |s.conns|
    ensures t.dropped != s.dropped ==> |s.queue| == 200
    ensures c < |t.conns| && (t.conns[c].missed != s.conns[c].missed ==> |s.conns[c].buf| == 20)
  {
    BuffersAreBounded(s, c);
    hide Reachable;
  }

  // ----- nothing lost on the way to the hub -----

  /** Between two points the published events are the accepted ones, unless one found the queue full. */
  ghost predicate Between(s: State, a: Point, b: Point) {
    && a.published <= b.published <= |s.published| && a.accepted <= b.accepted <= |s.accepted|
    && a.taken <= a.accepted && b.taken <= b.accepted && a.dropped <= b.dropped
    && b.published - a.published == (b.accepted - a.accepted) + (b.dropped - a.dropped)
    && (a.dropped == b.dropped ==> s.published[a.published..b.published] == s.accepted[a.accepted..b.accepted])
  }

  ghost predicate Points(s: State) {
    && |s.accepted| >= |s.taken|
    && (forall c | 0 <= c < |s.conns| && s.conns[c].stage != Connecting ::
      Between(s, s.conns[c].since, s.End(s.conns[c])))
  }

  /** Publishing adds to both sides, or counts a drop. */
  lemma PublishBetween(s: State, t: State, message: Message, a: Point)
    requires Publish(s, t, message) && Between(s, a, s.Here())
    ensures Between(t, a, t.Here())
  {
    assert t.published[a.published..|t.published|] == s.published[a.published..|s.published|] + [message];
    if |s.queue| < HUB_BUFFER {
      assert t.accepted[a.accepted..|t.accepted|] == s.accepted[a.accepted..|s.accepted|] + [message];
    }
  }

  lemma PublishBefore(s: State, t: State, message: Message, a: Point, b: Point)
    requires Publish(s, t, message) && Between(s, a, b)
    ensures Between(t, a, b)
  {
    assert t.published[a.published..b.published] == s.published[a.published..b.published];
    assert t.accepted[a.accepted..b.accepted] == s.accepted[a.accepted..b.accepted];
  }

  lemma PublishPoints(s: State, t: State, message: Message)
    requires Points(s) && Publish(s, t, message)
    ensures Points(t)
  {
    hide Between;
    forall c | 0 <= c < |t.conns| && t.conns[c].stage != Connecting
      ensures Between(t, t.conns[c].since, t.End(t.conns[c]))
    {
      if s.conns[c].stage == Gone {
        PublishBefore(s, t, message, s.conns[c].since, s.conns[c].until);
      } else {
        PublishBetween(s, t, message, s.conns[c].since);
      }
    }
  }

  lemma BetweenLater(s: State, t: State, a: Point, b: Point, c: Point)
    requires Between(s, a, b) && t.published == s.published && t.accepted == s.accepted
    requires c == b || (c == b.(taken := b.taken + 1) && c.taken <= c.accepted)
    ensures Between(t, a, c)
  {
  }

  lemma BetweenHere(s: State)
    requires |s.taken| <= |s.accepted|
    ensures Between(s, s.Here(), s.Here())
  {
  }

  lemma OtherPoints(s: State, l: Label, t: State)
    requires Inv(s) && Points(s) && Step(s, l, t) && !l.LPublish?
    ensures Points(t)
  {
    hide Between, ConnInv;
    BetweenHere(s);
    forall c | 0 <= c < |t.conns| && t.conns[c].stage != Connecting
      ensures Between(t, t.conns[c].since, t.End(t.conns[c]))
    {
      if s.conns[c].stage == Connecting {
        BetweenLater(s, t, s.Here(), s.Here(), s.Here());
      } else {
        BetweenLater(s, t, s.conns[c].since, s.End(s.conns[c]), t.End(t.conns[c]));
      }
    }
  }

  lemma {:induction false} RunPoints(states: seq<State>, labels: seq<Label>, i: nat)
    requires Run(states, labels) && Init(states[0]) && i <= |labels|
    ensures Points(states[i])
  {
    hide Step, Inv, Points;
    if i == 0 {
      InitPoints(states[0]);
    } else {
      RunPoints(states, labels, i - 1);
      RunInv(states, labels, i - 1);
      PointsStep(states[i - 1], labels[i - 1], states[i]);
    }
  }

  lemma InitPoints(s: State)
    requires Init(s)
    ensures Points(s)
  {
  }

  lemma PointsStep(s: State, l: Label, t: State)
    requires Inv(s) && Points(s) && Step(s, l, t)
    ensures Points(t)
  {
    hide Inv, Points, Publish;
    if l.LPublish? {
      PublishPoints(s, t, l.message);
    } else {
      OtherPoints(s, l, t);
    }
  }

  lemma ReachablePoints(s: State)
    requires Reachable(s)
    ensures Points(s)
  {
    hide Points, Init, Step;
    var states, labels :| Run(states, labels) && Init(states[0]) && states[|labels|] == s;
    RunPoints(states, labels, |labels|);
  }

  /** A connection gets every event published while it is registered, after those the hub already had in
      its queue and but for those it has yet to hand out, exactly when no publish since its registration
      found the hub's queue full and no message found its channel full. */
  lemma EveryPublishedEventArrives(s: State, c: nat)
    requires Reachable(s) && c < |s.conns| && s.conns[c].stage != Connecting
    ensures var conn, end := s.conns[c], s.End(s.conns[c]);
            var hi := Served(conn, |s.taken|, Waiting(s.mode, c));
            && conn.since.taken <= conn.since.accepted <= end.accepted <= |s.accepted|
            && conn.since.taken <= hi <= end.accepted && conn.since.published <= end.published <= |s.published|
            && (conn.received + conn.buf + s.accepted[hi..end.accepted]
                == s.accepted[conn.since.taken..conn.since.accepted] + s.published[conn.since.published..end.published]
                <==> conn.missed == 0 && end.dropped == conn.since.dropped)
  {
    hide Reachable, ConnInv, Inv;
    ReachablePoints(s);
    HubIsFirstInFirstOut(s);
    CompleteUnlessFull(s, c);
    ReceivedIsSelection(s, c);
    var conn, end := s.conns[c], s.End(s.conns[c]);
    assert Between(s, conn.since, end);
    var hi := Served(conn, |s.taken|, Waiting(s.mode, c));
    assert hi <= end.taken;
    assert s.taken[conn.since.taken..hi] == s.accepted[conn.since.taken..hi];
    LossesShow(conn.Got(), s.accepted, s.published, conn.since.taken, hi, conn.since.accepted, end.accepted,
      conn.since.published, end.published, conn.missed, end.dropped - conn.since.dropped);
  }

  /** Losses show in the number of messages, whatever the messages say. */
  lemma LossesShow(
    got: seq<Message>, accepted: seq<Message>, published: seq<Message>, lo: nat, hi: nat, mid: nat, end: nat,
    from: nat, to: nat, missed: nat, dropped: nat)
    requires lo <= hi <= end <= |accepted| && lo <= mid <= end && from <= to <= |published|
    requires |got| + missed == hi - lo && (missed == 0 ==> got == accepted[lo..hi])
    requires to - from == end - mid + dropped && (dropped == 0 ==> published[from..to] == accepted[mid..end])
    ensures got + accepted[hi..end] == accepted[lo..mid] + published[from..to] <==> missed == 0 && dropped == 0
  {
    assert |got + accepted[hi..end]| == end - lo - missed;
    assert |accepted[lo..mid] + published[from..to]| == end - lo + dropped;
    assert accepted[lo..hi] + accepted[hi..end] == accepted[lo..end] == accepted[lo..mid] + accepted[mid..end];
  }

  /** The hub never blocks while handing out a message: it can always take its next step, and each step
      brings it nearer to its select. */
  lemma FanOutAdvances(s: State) returns (l: Label, t: State)
    requires Reachable(s) && s.mode.FanOut?
    ensures Step(s, l, t)
    ensures t.mode == Ready || (t.mode.FanOut? && |t.mode.todo| < |s.mode.todo|)
  {
    ReachableInv(s);
    if s.mode.todo == {} {
      l, t := LFanOutDone, s.(mode := Ready);
    } else {
      var c :| c in s.mode.todo;
      assert s.At(c, Streaming) || s.At(c, Leaving);
      l := LOffer(c);
      t := s.With(c, s.conns[c].Offer(s.mode.message, |s.taken| - 1)).(
             mode := s.mode.(todo := s.mode.todo - {c}), panicked := s.panicked || s.conns[c].closed);
    }
  }

  // ----- the hub on the heap -----

  /** A subscriber's channel. Go panics where the preconditions fail. */
  class ClientChannel {
    var buf: seq<Message>
    var closed: bool

    constructor ()
      ensures buf == [] && !closed
    {
      buf, closed := [], false;
    }

    method TrySend(message: Message)
      requires !closed
      modifies this`buf
      ensures buf == Offered(old(buf), message)
    {
      if |buf| < CLIENT_BUFFER {
        buf := buf + [message];
      }
    }

    method Close()
      requires !closed
      modifies this`closed
      ensures closed
    {
      closed := true;
    }
  }

  class DashboardHub {
    var clients: map<ClientChannel, bool>
    var broadcast: seq<Message>

    ghost predicate Valid()
      reads this, clients.Keys
    {
      (forall client | client in clients :: !client.closed) && |broadcast| <= HUB_BUFFER
    }

    constructor ()
      ensures Valid() && clients == map[] && broadcast == []
    {
      clients, broadcast := map[], [];
    }

    method HandleRegister(client: ClientChannel)
      requires Valid() && !client.closed
      modifies this`clients
      ensures Valid() && clients == old(clients)[client := true]
    {
      clients := clients[client := true];
    }

    /** Closes the channel only if it is still registered, so a second call changes nothing. */
    method HandleUnregister(client: ClientChannel)
      requires Valid()
      modifies this`clients, client`closed
      ensures Valid() && clients == old(clients) - {client}
      ensures client.closed <==> old(client.closed) || client in old(clients)
    {
      if client in clients {
        clients := clients - {client};
        client.Close();
      }
    }

    /** Hands the oldest event to every subscriber with room. */
    method HandleBroadcast()
      requires Valid() && broadcast != []
      modifies this`broadcast, clients.Keys`buf
      ensures Valid() && broadcast == old(broadcast[1..])
      ensures forall client | client in clients :: client.buf == Offered(old(client.buf), old(broadcast[0]))
    {
      var message := broadcast[0];
      broadcast := broadcast[1..];
      var todo := clients.Keys;
      while todo != {}
        invariant todo <= clients.Keys && broadcast == old(broadcast[1..])
        invariant forall client | client in clients && client !in todo ::
          client.buf == Offered(old(client.buf), message)
        invariant forall client | client in todo :: client.buf == old(client.buf)
        decreases todo
      {
        var client :| client in todo;
        client.TrySend(message);
        todo := todo - {client};
      }
    }

    /** `payload` is the encoded event, or None when it cannot be encoded. */
    method BroadcastEvent(eventType: string, payload: Option<string>)
      requires Valid()
      modifies this`broadcast
      ensures Valid()
      ensures broadcast == match payload
                           case None => old(broadcast)
                           case Some(p) => Published(old(broadcast), "event: " + eventType + "\ndata: " + p + "\n\n")
    {
      if payload.None? {
        return;
      }
      var sseData := "event: " + eventType + "\ndata: " + payload.value + "\n\n";
      if |broadcast| < HUB_BUFFER {
        broadcast := broadcast + [sseData];
      }
    }
  }
}

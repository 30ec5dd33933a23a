/** The two semaphores of one Yamux session: a stream permit lives as long as its stream, an open permit only while
    the stream is being opened. Callers wait for permits or try for them, interleave at every step, and may be dropped
    at any await. */
module YamuxPermits {
  import opened Basics

  const MAX_CONCURRENT_OPENS := 16

  /** Waiting callers go through the `Await` stages, non-blocking ones through the `Trying` stages. A `Permitted` caller
      has both permits and has still to look whether the session was closed meanwhile. */
  datatype Stage =
    | AwaitStream
    | AwaitOpen
    | TryingStream
    | TryingOpen
    | Permitted
    | Opening
    | Negotiating
    | Live
    | Refused

  predicate HoldsStream(s: Stage) {
    s.AwaitOpen? || s.TryingOpen? || s.Permitted? || s.Opening? || s.Negotiating? || s.Live?
  }

  predicate HoldsOpen(s: Stage) {
    s.Permitted? || s.Opening?
  }

  datatype World = World(limit: nat, streamFree: nat, openFree: nat, closed: bool, callers: map<nat, Stage>)

  datatype Event =
    | Connect(caller: nat)
    | TakeStream(caller: nat)
    | TakeOpen(caller: nat)
    | TryConnect(caller: nat)
    | TryStream(caller: nat)
    | TryOpen(caller: nat)
    | Check(caller: nat)
    | OpenEnds(caller: nat, ok: bool)
    | Negotiated(caller: nat, ok: bool)
    | Leave(caller: nat)
    | Close

  function Clamp(limit: nat): nat {
    if limit < 1 then 1 else if limit > MAX_CONCURRENT_OPENS then MAX_CONCURRENT_OPENS else limit
  }

  predicate HasCapacity(w: World) {
    !w.closed && w.streamFree > 0 && w.openFree > 0
  }

  /** The caller is gone and its permits are back. */
  function Gone(w: World, t: nat): World
    requires t in w.callers
  {
    var s := w.callers[t];
    w.(callers := w.callers - {t},
       streamFree := if HoldsStream(s) then w.streamFree + 1 else w.streamFree,
       openFree := if HoldsOpen(s) then w.openFree + 1 else w.openFree)
  }

  function Go(w: World, t: nat, s: Stage): World {
    w.(callers := w.callers[t := s])
  }

  predicate At(w: World, t: nat, s: Stage) {
    t in w.callers && w.callers[t] == s
  }

  ghost predicate Steps(w: World, e: Event, w': World) {
    match e
    case Connect(t) => t !in w.callers && !w.closed && w' == Go(w, t, AwaitStream)
    case TakeStream(t) =>
      At(w, t, AwaitStream) && w.streamFree > 0 && w' == Go(w, t, AwaitOpen).(streamFree := w.streamFree - 1)
    case TakeOpen(t) =>
      At(w, t, AwaitOpen) && w.openFree > 0 && w' == Go(w, t, Permitted).(openFree := w.openFree - 1)
    case TryConnect(t) => t !in w.callers && !w.closed && w' == Go(w, t, TryingStream)
    case TryStream(t) =>
      && At(w, t, TryingStream)
      && w' == if w.streamFree > 0 then Go(w, t, TryingOpen).(streamFree := w.streamFree - 1) else Go(w, t, Refused)
    case TryOpen(t) =>
      // Refused the second permit, the caller drops the first.
      && At(w, t, TryingOpen)
      && w' == if w.openFree > 0 then Go(w, t, Permitted).(openFree := w.openFree - 1)
               else Go(w, t, Refused).(streamFree := w.streamFree + 1)
    case Check(t) => At(w, t, Permitted) && w' == if w.closed then Gone(w, t) else Go(w, t, Opening)
    case OpenEnds(t, ok) =>
      && At(w, t, Opening)
      && w' == if ok then Go(w, t, Negotiating).(openFree := w.openFree + 1) else Gone(w, t).(closed := true)
    case Negotiated(t, ok) => At(w, t, Negotiating) && w' == if ok then Go(w, t, Live) else Gone(w, t)
    case Leave(t) => t in w.callers && w' == Gone(w, t)
    case Close => w' == w.(closed := true)
  }

  ghost predicate Continues(v: World, events: Trace<Event>, w: World) {
    match events
    case Start => w == v
    case Then(front, last) => exists u :: Continues(v, front, u) && Steps(u, last, w)
  }

  function Init(limit: nat): World {
    World(limit, limit, Clamp(limit), false, map[])
  }

  ghost predicate Reaches(limit: nat, events: Trace<Event>, w: World) {
    Continues(Init(limit), events, w)
  }

  // ----- Conservation -----

  function Streaming(callers: map<nat, Stage>): set<nat> {
    set t | t in callers && HoldsStream(callers[t])
  }

  function Openers(callers: map<nat, Stage>): set<nat> {
    set t | t in callers && HoldsOpen(callers[t])
  }

  /** No permit is ever lost or made up. */
  ghost predicate Conserved(w: World) {
    && w.streamFree + |Streaming(w.callers)| == w.limit
    && w.openFree + |Openers(w.callers)| == Clamp(w.limit)
  }

  lemma WithOne(s: set<nat>, t: nat)
    ensures |s| == |s - {t}| + if t in s then 1 else 0
  {
    if t in s {
      assert s == s - {t} + {t};
    } else {
      assert s == s - {t};
    }
  }

  lemma MoveCounts(callers: map<nat, Stage>, t: nat, s: Stage)
    ensures |Streaming(callers[t := s])| == |Streaming(callers) - {t}| + if HoldsStream(s) then 1 else 0
    ensures |Openers(callers[t := s])| == |Openers(callers) - {t}| + if HoldsOpen(s) then 1 else 0
  {
    var after := callers[t := s];
    assert Streaming(after) - {t} == Streaming(callers) - {t} && Openers(after) - {t} == Openers(callers) - {t};
    assert t in Streaming(after) <==> HoldsStream(s);
    assert t in Openers(after) <==> HoldsOpen(s);
    WithOne(Streaming(after), t);
    WithOne(Openers(after), t);
  }

  lemma LeaveCounts(callers: map<nat, Stage>, t: nat)
    ensures |Streaming(callers - {t})| == |Streaming(callers) - {t}|
    ensures |Openers(callers - {t})| == |Openers(callers) - {t}|
  {
    assert Streaming(callers - {t}) == Streaming(callers) - {t};
    assert Openers(callers - {t}) == Openers(callers) - {t};
  }

  lemma HeldCounts(callers: map<nat, Stage>, t: nat)
    ensures |Streaming(callers)| == |Streaming(callers) - {t}| + if t in callers && HoldsStream(callers[t]) then 1 else 0
    ensures |Openers(callers)| == |Openers(callers) - {t}| + if t in callers && HoldsOpen(callers[t]) then 1 else 0
  {
    WithOne(Streaming(callers), t);
    WithOne(Openers(callers), t);
  }

  function StreamsOf(w: World, t: nat): nat {
    if t in w.callers && HoldsStream(w.callers[t]) then 1 else 0
  }

  function OpensOf(w: World, t: nat): nat {
    if t in w.callers && HoldsOpen(w.callers[t]) then 1 else 0
  }

  /** A step moves one caller, and what that caller holds it took from the semaphores. */
  ghost predicate Moves(w: World, t: nat, w': World) {
    && w'.limit == w.limit
    && w'.callers == (if t in w'.callers then w.callers[t := w'.callers[t]] else w.callers - {t})
    && w'.streamFree + StreamsOf(w', t) == w.streamFree + StreamsOf(w, t)
    && w'.openFree + OpensOf(w', t) == w.openFree + OpensOf(w, t)
  }

  lemma StepMoves(w: World, e: Event, w': World)
    requires !e.Close? && Steps(w, e, w')
    ensures Moves(w, e.caller, w')
  {
  }

  lemma MoveConserves(w: World, t: nat, w': World)
    requires Conserved(w) && Moves(w, t, w')
    ensures Conserved(w')
  {
    HeldCounts(w.callers, t);
    if t in w'.callers {
      MoveCounts(w.callers, t, w'.callers[t]);
    } else {
      LeaveCounts(w.callers, t);
    }
  }

  lemma StepConserves(w: World, e: Event, w': World)
    requires Conserved(w) && Steps(w, e, w')
    ensures Conserved(w') && w'.limit == w.limit
  {
    if !e.Close? {
      StepMoves(w, e, w');
      MoveConserves(w, e.caller, w');
    }
  }

  /** On every path of every run, waiting or not, half-way refusals and cancellations included, free plus held permits
      of both semaphores are constant. */
  lemma {:induction false} RunConserves(limit: nat, events: Trace<Event>, w: World)
    requires Reaches(limit, events, w)
    ensures Conserved(w) && w.limit == limit
  {
    match events
    case Start =>
      assert Streaming(w.callers) == {} && Openers(w.callers) == {};
    case Then(front, last) =>
      var v :| Continues(Init(limit), front, v) && Steps(v, last, w);
      RunConserves(limit, front, v);
      StepConserves(v, last, w);
  }

  /** In every run, with callers cancelled anywhere: at most `limit` streams are open or being opened, at most 16 and
      never more than `limit` are being opened at once, and when all callers are gone every permit is back. */
  lemma PermitsBoundStreams(limit: nat, events: Trace<Event>, w: World)
    requires Reaches(limit, events, w)
    ensures |Streaming(w.callers)| <= limit
    ensures |Openers(w.callers)| <= limit && |Openers(w.callers)| <= MAX_CONCURRENT_OPENS
    ensures w.callers == map[] ==> w.streamFree == limit && w.openFree == Clamp(limit)
  {
    RunConserves(limit, events, w);
    var rest := Streaming(w.callers) - Openers(w.callers);
    assert Streaming(w.callers) == Openers(w.callers) + rest;
  }

  // ----- Progress -----

  predicate Ready(w: World, t: nat) {
    && t in w.callers
    && match w.callers[t]
       case AwaitStream => w.streamFree > 0
       case AwaitOpen => w.openFree > 0
       case Refused => false
       case _ => true
  }

  /** Waiting never turns into a cycle: while some caller has not been refused, one can take its permit or is past all
      waiting, unless the session was configured for no streams at all and nobody is merely trying. */
  lemma NoCyclicWait(limit: nat, events: Trace<Event>, w: World, t: nat)
    requires Reaches(limit, events, w) && t in w.callers && !w.callers[t].Refused?
    ensures (exists u :: Ready(w, u)) <==> limit > 0 || exists u :: At(w, u, TryingStream)
  {
    RunConserves(limit, events, w);
    if u :| At(w, u, TryingStream) {
      assert Ready(w, u);
    } else if limit == 0 {
      assert Streaming(w.callers) == {};
      forall u | u in w.callers ensures !Ready(w, u) {
        assert u !in Streaming(w.callers) && !At(w, u, TryingStream);
      }
    } else if Streaming(w.callers) == {} {
      assert t !in Streaming(w.callers) && !At(w, t, TryingStream);
      assert Ready(w, t);
    } else {
      var h :| h in Streaming(w.callers);
      if w.callers[h].AwaitOpen? && w.openFree == 0 {
        var o :| o in Openers(w.callers);
        assert Ready(w, o);
      } else {
        assert Ready(w, h);
      }
    }
  }

  // ----- Non-blocking connects -----

  /** A non-blocking connect never waits: whatever the others do, its next step can be taken, and it is refused exactly
      when at that moment every stream permit, or every open permit, is held. */
  lemma TryNeverWaits(limit: nat, events: Trace<Event>, w: World, t: nat) returns (w': World)
    requires Reaches(limit, events, w) && (At(w, t, TryingStream) || At(w, t, TryingOpen))
    ensures At(w, t, TryingStream) ==> Steps(w, TryStream(t), w') && (At(w', t, Refused) <==> |Streaming(w.callers)| == limit)
    ensures At(w, t, TryingOpen) ==> Steps(w, TryOpen(t), w') && (At(w', t, Refused) <==> |Openers(w.callers)| == Clamp(limit))
  {
    RunConserves(limit, events, w);
    if At(w, t, TryingStream) {
      w' := if w.streamFree > 0 then Go(w, t, TryingOpen).(streamFree := w.streamFree - 1) else Go(w, t, Refused);
    } else {
      w' := if w.openFree > 0 then Go(w, t, Permitted).(openFree := w.openFree - 1)
            else Go(w, t, Refused).(streamFree := w.streamFree + 1);
    }
  }

  function StreamGrabs(events: Trace<Event>): nat {
    match events
    case Start => 0
    case Then(front, last) => StreamGrabs(front) + if last.TakeStream? || last.TryStream? then 1 else 0
  }

  function OpenGrabs(events: Trace<Event>): nat {
    match events
    case Start => 0
    case Then(front, last) => OpenGrabs(front) + if last.TakeOpen? || last.TryOpen? then 1 else 0
  }

  lemma {:induction false} FreeLasts(v: World, events: Trace<Event>, w: World)
    requires Continues(v, events, w)
    ensures w.streamFree + StreamGrabs(events) >= v.streamFree
    ensures w.openFree + OpenGrabs(events) >= v.openFree
  {
    match events
    case Start =>
    case Then(front, last) =>
      var u :| Continues(v, front, u) && Steps(u, last, w);
      FreeLasts(v, front, u);
  }

  /** What announced capacity is worth when others interleave: with `a` stream and `b` open permits free at some point,
      a caller still trying later is not refused while fewer than `a` attempts on the one semaphore and fewer than `b`
      on the other have come in between. */
  lemma TryIsOvertakenOnly(v: World, events: Trace<Event>, w: World, t: nat, e: Event, w': World)
    requires Continues(v, events, w) && Steps(w, e, w')
    ensures e == TryStream(t) && StreamGrabs(events) < v.streamFree ==> At(w', t, TryingOpen)
    ensures e == TryOpen(t) && OpenGrabs(events) < v.openFree ==> At(w', t, Permitted)
  {
    FreeLasts(v, events, w);
  }

  /** Undisturbed, a non-blocking connect gets both permits exactly when capacity is announced, that is, when the session
      is open and neither bound is reached. */
  lemma TryMatchesCapacity(limit: nat, events: Trace<Event>, w: World, t: nat)
    requires Reaches(limit, events, w) && t !in w.callers
    ensures (exists w1, w2, w3 ::
               && Steps(w, TryConnect(t), w1) && Steps(w1, TryStream(t), w2) && Steps(w2, TryOpen(t), w3)
               && At(w3, t, Permitted))
       <==> HasCapacity(w)
    ensures HasCapacity(w) <==> !w.closed && |Streaming(w.callers)| < limit && |Openers(w.callers)| < Clamp(limit)
  {
    RunConserves(limit, events, w);
    if HasCapacity(w) {
      var w1 := Go(w, t, TryingStream);
      var w2 := Go(w1, t, TryingOpen).(streamFree := w.streamFree - 1);
      var w3 := Go(w2, t, Permitted).(openFree := w.openFree - 1);
      assert Steps(w, TryConnect(t), w1) && Steps(w1, TryStream(t), w2) && Steps(w2, TryOpen(t), w3);
    }
  }

  /** Announced capacity is no promise: two callers see the one permit of a session for one stream, and the second to
      try is refused. */
  lemma AnnouncedThenRefused() returns (events: Trace<Event>, w: World)
    ensures HasCapacity(Init(1)) && Continues(Init(1), events, w) && At(w, 1, Refused)
  {
    var w1 := Go(Init(1), 0, TryingStream);
    var w2 := Go(w1, 1, TryingStream);
    var w3 := Go(w2, 0, TryingOpen).(streamFree := 0);
    w := Go(w3, 1, Refused);
    var e1 := Then(Start, TryConnect(0));
    var e2 := Then(e1, TryConnect(1));
    var e3 := Then(e2, TryStream(0));
    events := Then(e3, TryStream(1));
    assert Continues(Init(1), Start, Init(1)) && Steps(Init(1), TryConnect(0), w1);
    assert Continues(Init(1), e1, w1) && Steps(w1, TryConnect(1), w2);
    assert Continues(Init(1), e2, w2) && Steps(w2, TryStream(0), w3);
    assert Continues(Init(1), e3, w3) && Steps(w3, TryStream(1), w);
  }

  // ----- What the state is, from the events alone -----

  /** A caller's last own event. */
  function LastOf(events: Trace<Event>, t: nat): Option<Event> {
    match events
    case Start => None
    case Then(front, last) => if !last.Close? && last.caller == t then Some(last) else LastOf(front, t)
  }

  /** The session was closed, or opening a stream on it failed. */
  ghost predicate HasClosed(events: Trace<Event>) {
    events.Then? && (events.last.Close? || (events.last.OpenEnds? && !events.last.ok) || HasClosed(events.before))
  }

  ghost predicate Told(w: World, t: nat, last: Option<Event>) {
    && (At(w, t, AwaitStream) <==> last == Some(Connect(t)))
    && (At(w, t, AwaitOpen) <==> last == Some(TakeStream(t)))
    && (At(w, t, TryingStream) <==> last == Some(TryConnect(t)))
    && (At(w, t, TryingOpen) ==> last == Some(TryStream(t)))
    && (At(w, t, Permitted) ==> last == Some(TakeOpen(t)) || last == Some(TryOpen(t)))
    && (At(w, t, Refused) ==> last == Some(TryStream(t)) || last == Some(TryOpen(t)))
    && (At(w, t, Opening) <==> last == Some(Check(t)) && t in w.callers)
    && (At(w, t, Negotiating) <==> last == Some(OpenEnds(t, true)))
    && (At(w, t, Live) <==> last == Some(Negotiated(t, true)))
    && (last == None || last == Some(Leave(t)) || last == Some(OpenEnds(t, false)) || last == Some(Negotiated(t, false)) ==>
          t !in w.callers)
  }

  lemma StepTold(v: World, e: Event, w: World, t: nat, last: Option<Event>)
    requires Told(v, t, last) && Steps(v, e, w)
    ensures Told(w, t, if !e.Close? && e.caller == t then Some(e) else last)
  {
  }

  /** In every run, how far a caller is follows from its own last event: it has a live stream if and only if its last
      event is a negotiation that succeeded, and one that left, failed to open or failed to negotiate holds nothing. The
      session is closed if and only if it was closed or an open failed on it. */
  lemma {:induction false} RunIsTold(limit: nat, events: Trace<Event>, w: World, t: nat)
    requires Reaches(limit, events, w)
    ensures Told(w, t, LastOf(events, t))
    ensures w.closed <==> HasClosed(events)
  {
    match events
    case Start =>
    case Then(front, last) =>
      var v :| Continues(Init(limit), front, v) && Steps(v, last, w);
      RunIsTold(limit, front, v, t);
      StepTold(v, last, w, t, LastOf(front, t));
  }

  /** A caller that has its permits goes on to open a stream if and only if the session has not been closed; otherwise it
      is gone and both permits are free again. */
  lemma ClosedIsSeenAgain(limit: nat, events: Trace<Event>, w: World, t: nat, w': World)
    requires Reaches(limit, events, w) && Steps(w, Check(t), w')
    ensures At(w', t, Opening) <==> !HasClosed(events)
    ensures HasClosed(events) ==>
              t !in w'.callers && w'.streamFree == w.streamFree + 1 && w'.openFree == w.openFree + 1
  {
    RunIsTold(limit, events, w, t);
  }

  /** The callers whose last event is that their stream was opened, or negotiated. */
  ghost function WithStream(events: Trace<Event>, callers: map<nat, Stage>): set<nat> {
    set t | t in callers && LastOf(events, t) in {Some(OpenEnds(t, true)), Some(Negotiated(t, true))}
  }

  /** The callers that passed the check and have not come back from opening. */
  ghost function BeingOpened(events: Trace<Event>, callers: map<nat, Stage>): set<nat> {
    set t | t in callers && LastOf(events, t) == Some(Check(t))
  }

  /** The bounds in terms of what the callers did: at most `limit` of them have a stream, and at most `limit` and at most
      16 are opening one. */
  lemma EventsBoundStreams(limit: nat, events: Trace<Event>, w: World)
    requires Reaches(limit, events, w)
    ensures |WithStream(events, w.callers) + BeingOpened(events, w.callers)| <= limit
    ensures |BeingOpened(events, w.callers)| <= 16
  {
    forall t | t in w.callers
      ensures t in WithStream(events, w.callers) || t in BeingOpened(events, w.callers) ==> t in Streaming(w.callers)
      ensures t in BeingOpened(events, w.callers) ==> t in Openers(w.callers)
    {
      RunIsTold(limit, events, w, t);
    }
    PermitsBoundStreams(limit, events, w);
    SubsetCardinality(WithStream(events, w.callers) + BeingOpened(events, w.callers), Streaming(w.callers));
    SubsetCardinality(BeingOpened(events, w.callers), Openers(w.callers));
  }
}

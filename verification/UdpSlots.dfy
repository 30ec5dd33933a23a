/** The Android agent's pool of native UDP sessions: each slot keeps at most one session behind its own lock, and
    in automatic mode a slot that times out is handed over to TCP/Yamux. Callers interleave at every await and may
    be cancelled there. */
module UdpSlots {
  import opened Basics

  datatype Connection = Connection(slot: nat, closed: bool, timedOut: bool)

  datatype Slot = Slot(holder: Option<nat>, current: Option<nat>)

  datatype Outcome = Native(id: nat) | Yamux | Failed

  /** Where a caller stands. Checking and dialing callers hold the slot's lock; the two flags of a session are
      separate reads, and it may close in between. */
  datatype Caller =
    | Wanting(slot: nat, attempt: nat)
    | Checking(slot: nat, attempt: nat)
    | Dialing(slot: nat, attempt: nat)
    | Opening(slot: nat, attempt: nat, id: nat)
    | Removing(slot: nat, id: nat)
    | FallingBack(slot: nat)
    | Done(outcome: Outcome)

  datatype World = World(
    auto: bool, slots: seq<Slot>, fallback: seq<bool>, connections: map<nat, Connection>, callers: map<nat, Caller>,
    nextId: nat, nextIndex: nat, timeouts: set<nat>)

  datatype Dial = Connected | TimedOut | Refused

  datatype Event =
    | Arrive(caller: nat)
    | Lock(caller: nat, late: bool)
    | Check(caller: nat)
    | DialEnds(caller: nat, dial: Dial)
    | OpenEnds(caller: nat, ok: bool)
    | Remove(caller: nat)
    | FallBack(caller: nat)
    | Cancel(caller: nat)
    | Closes(id: nat, timedOut: bool)

  function Go(w: World, t: nat, c: Caller): World {
    w.(callers := w.callers[t := c])
  }

  /** A timeout reported to a caller: in automatic mode it goes on to switch its slot over. */
  function TimeOut(w: World, t: nat, s: nat): World {
    Go(w.(timeouts := w.timeouts + {s}), t, if w.auto then FallingBack(s) else Done(Failed))
  }

  function Current(w: World, s: nat): Option<nat>
    requires s < |w.slots|
  {
    w.slots[s].current
  }

  predicate Closed(w: World, id: nat) {
    id in w.connections && w.connections[id].closed
  }

  predicate Live(w: World, id: nat) {
    id in w.connections && !w.connections[id].closed
  }

  predicate Late(w: World, id: nat) {
    id in w.connections && w.connections[id].timedOut
  }

  predicate Stands(w: World, t: nat) {
    t in w.callers && (w.callers[t].Done? || w.callers[t].slot < |w.slots|)
  }

  function SetSlot(w: World, s: nat, holder: Option<nat>, current: Option<nat>): World
    requires s < |w.slots|
  {
    w.(slots := w.slots[s := Slot(holder, current)])
  }

  ghost predicate Arrives(w: World, t: nat, w': World) {
    && t !in w.callers && w.slots != []
    && var s := w.nextIndex % |w.slots|;
       var w1 := w.(nextIndex := (w.nextIndex + 1) % U64_SIZE);
       w' == if w.auto && s < |w.fallback| && w.fallback[s] then Go(w1, t, Done(Yamux)) else Go(w1, t, Wanting(s, 0))
  }

  /** `late` says whether the slot's session was found to have timed out. */
  ghost predicate Locks(w: World, t: nat, late: bool, w': World) {
    && Stands(w, t) && w.callers[t].Wanting? && w.slots[w.callers[t].slot].holder.None?
    && var Wanting(s, a) := w.callers[t];
       && (late <==> Current(w, s).Some? && Late(w, Current(w, s).value))
       && w' == if w.auto && late then TimeOut(w, t, s)
             else Go(SetSlot(w, s, Some(t), Current(w, s)), t, Checking(s, a))
  }

  ghost predicate Checks(w: World, t: nat, w': World) {
    && Stands(w, t) && w.callers[t].Checking?
    && var Checking(s, a) := w.callers[t];
       w' == if Current(w, s).None? || Closed(w, Current(w, s).value) then Go(w, t, Dialing(s, a))
             else Go(SetSlot(w, s, None, Current(w, s)), t, Opening(s, a, Current(w, s).value))
  }

  ghost predicate Dials(w: World, t: nat, dial: Dial, w': World) {
    && Stands(w, t) && w.callers[t].Dialing?
    && var Dialing(s, a) := w.callers[t];
       w' == match dial
             case Connected =>
               Go(SetSlot(w, s, None, Some(w.nextId)).(
                    nextId := w.nextId + 1, connections := w.connections[w.nextId := Connection(s, false, false)]),
                  t, Opening(s, a, w.nextId))
             case TimedOut => TimeOut(SetSlot(w, s, None, Current(w, s)), t, s)
             case Refused => Go(SetSlot(w, s, None, Current(w, s)), t, Done(Failed))
  }

  ghost predicate Opens(w: World, t: nat, ok: bool, w': World) {
    && Stands(w, t) && w.callers[t].Opening?
    && var Opening(s, a, id) := w.callers[t];
       w' == if ok then Go(w, t, Done(Native(id)))
             else if a == 0 && Closed(w, id) then Go(w, t, Removing(s, id))
             else Go(w, t, Done(Failed))
  }

  ghost predicate Removes(w: World, t: nat, w': World) {
    && Stands(w, t) && w.callers[t].Removing? && w.slots[w.callers[t].slot].holder.None?
    && var Removing(s, id) := w.callers[t];
       w' == Go(if Current(w, s) == Some(id) then SetSlot(w, s, None, None) else w, t, Wanting(s, 1))
  }

  ghost predicate FallsBack(w: World, t: nat, w': World) {
    && Stands(w, t) && w.callers[t].FallingBack? && w.callers[t].slot < |w.fallback|
    && w' == Go(w.(fallback := w.fallback[w.callers[t].slot := true]), t, Done(Yamux))
  }

  ghost predicate Cancels(w: World, t: nat, w': World) {
    && Stands(w, t) && !w.callers[t].Done?
    && var c := w.callers[t];
       var w1 := w.(callers := w.callers - {t});
       w' == if c.Checking? || c.Dialing? then SetSlot(w1, c.slot, None, Current(w, c.slot)) else w1
  }

  ghost predicate Shuts(w: World, id: nat, timedOut: bool, w': World) {
    && id in w.connections
    && var c := w.connections[id];
       w' == w.(connections := w.connections[id := Connection(c.slot, true, c.timedOut || timedOut)])
  }

  ghost predicate Steps(w: World, e: Event, w': World) {
    match e
    case Arrive(t) => Arrives(w, t, w')
    case Lock(t, late) => Locks(w, t, late, w')
    case Check(t) => Checks(w, t, w')
    case DialEnds(t, dial) => Dials(w, t, dial, w')
    case OpenEnds(t, ok) => Opens(w, t, ok, w')
    case Remove(t) => Removes(w, t, w')
    case FallBack(t) => FallsBack(w, t, w')
    case Cancel(t) => Cancels(w, t, w')
    case Closes(id, timedOut) => Shuts(w, id, timedOut, w')
  }

  ghost predicate Continues(v: World, events: Trace<Event>, w: World) {
    match events
    case Start => w == v
    case Then(front, last) => exists u :: Continues(v, front, u) && Steps(u, last, w)
  }

  function Init(auto: bool, n: nat): World {
    World(auto, seq(n, i => Slot(None, None)), seq(n, i => false), map[], map[], 0, 0, {})
  }

  // ----- The invariant, part by part -----

  /** A slot's lock is held by a caller that checks or dials for it. */
  ghost predicate HolderOk(slot: Slot, callers: map<nat, Caller>, s: nat) {
    match slot.holder
    case None => true
    case Some(t) => t in callers && (callers[t].Checking? || callers[t].Dialing?) && callers[t].slot == s
  }

  ghost predicate CallerOk(w: World, t: nat) {
    t in w.callers && match w.callers[t]
    case Wanting(s, a) => s < |w.slots| && a <= 1
    case Checking(s, a) => s < |w.slots| && a <= 1 && w.slots[s].holder == Some(t)
    case Dialing(s, a) => s < |w.slots| && a <= 1 && (Current(w, s).Some? ==> Closed(w, Current(w, s).value))
                           && w.slots[s].holder == Some(t)
    case Opening(s, a, id) => s < |w.slots| && a <= 1 && id in w.connections && w.connections[id].slot == s
    case Removing(s, id) => s < |w.slots| && Closed(w, id)
    case FallingBack(s) => s < |w.slots| && w.auto && s in w.timeouts
    case Done(Native(id)) => id in w.connections
    case Done(Yamux) => w.auto
    case Done(Failed) => true
  }

  ghost predicate ConnectionOk(w: World, id: nat) {
    && id < w.nextId && w.connections.Keys >= {id} && w.connections[id].slot < |w.slots|
    && (w.connections[id].closed || Current(w, w.connections[id].slot) == Some(id))
  }

  ghost predicate CurrentOk(w: World, s: nat)
    requires s < |w.slots|
  {
    Current(w, s).Some? ==> Current(w, s).value in w.connections && w.connections[Current(w, s).value].slot == s
  }

  ghost predicate FallbackOk(w: World) {
    && |w.fallback| == |w.slots|
    && forall s :: 0 <= s < |w.fallback| && w.fallback[s] ==> w.auto && s in w.timeouts
  }

  ghost predicate Inv(w: World) {
    && (forall s :: 0 <= s < |w.slots| ==> HolderOk(w.slots[s], w.callers, s))
    && (forall t :: t in w.callers ==> CallerOk(w, t))
    && (forall id :: id in w.connections ==> ConnectionOk(w, id))
    && (forall s :: 0 <= s < |w.slots| ==> CurrentOk(w, s))
    && FallbackOk(w)
  }

  /** What a step may rely on about the caller that takes it, and about the next session id. */
  ghost predicate ActorOk(w: World, e: Event) {
    w.nextId !in w.connections && (!e.Closes? && e.caller in w.callers ==> CallerOk(w, e.caller))
  }

  lemma InvGivesActor(w: World, e: Event)
    requires Inv(w)
    ensures ActorOk(w, e)
  {
    assert w.nextId in w.connections ==> ConnectionOk(w, w.nextId);
  }

  /** The slot's holder and session are as they should be. */
  ghost predicate SlotOk(w: World, s: nat) {
    s < |w.slots| && HolderOk(w.slots[s], w.callers, s) && CurrentOk(w, s)
  }

  lemma LockKeepsSlot(w: World, t: nat, late: bool, w': World, s: nat)
    requires Locks(w, t, late, w') && SlotOk(w, s)
    ensures SlotOk(w', s)
  {
  }

  lemma CheckKeepsSlot(w: World, t: nat, w': World, s: nat)
    requires Checks(w, t, w') && CallerOk(w, t) && SlotOk(w, s)
    ensures SlotOk(w', s)
  {
  }

  lemma DialKeepsSlot(w: World, t: nat, dial: Dial, w': World, s: nat)
    requires Dials(w, t, dial, w') && CallerOk(w, t) && SlotOk(w, s) && w.nextId !in w.connections
    ensures SlotOk(w', s)
  {
  }

  lemma CancelKeepsSlot(w: World, t: nat, w': World, s: nat)
    requires Cancels(w, t, w') && CallerOk(w, t) && SlotOk(w, s)
    ensures SlotOk(w', s)
  {
  }

  lemma StepKeepsSlot(w: World, e: Event, w': World, s: nat)
    requires ActorOk(w, e) && Steps(w, e, w') && SlotOk(w, s)
    ensures SlotOk(w', s)
  {
    match e
    case Lock(t, late) => LockKeepsSlot(w, t, late, w', s);
    case Check(t) => CheckKeepsSlot(w, t, w', s);
    case DialEnds(t, dial) => DialKeepsSlot(w, t, dial, w', s);
    case Cancel(t) => CancelKeepsSlot(w, t, w', s);
    case _ =>
  }

  lemma StepKeepsActor(w: World, e: Event, w': World)
    requires ActorOk(w, e) && !e.Closes? && Steps(w, e, w') && e.caller in w'.callers
    requires forall s :: 0 <= s < |w.slots| ==> CurrentOk(w, s)
    ensures CallerOk(w', e.caller)
  {
    if e.caller in w.callers && w.callers[e.caller].Checking? {
      assert CurrentOk(w, w.callers[e.caller].slot);
    }
  }

  ghost predicate Grows(a: map<nat, Connection>, b: map<nat, Connection>) {
    forall id :: id in a ==> id in b && b[id].slot == a[id].slot && (a[id].closed ==> b[id].closed)
  }

  /** What a step leaves alone for a caller it is not about. */
  ghost predicate Undisturbed(w: World, w': World, t: nat) {
    && |w'.slots| == |w.slots| && w'.auto == w.auto && w.timeouts <= w'.timeouts
    && Grows(w.connections, w'.connections)
    && (t in w.callers && (w.callers[t].Checking? || w.callers[t].Dialing?) && w.callers[t].slot < |w.slots| ==>
          w'.slots[w.callers[t].slot] == w.slots[w.callers[t].slot])
  }

  lemma ConnectionsGrow(w: World, e: Event, w': World)
    requires w.nextId !in w.connections && Steps(w, e, w')
    ensures Grows(w.connections, w'.connections)
  {
  }

  lemma StepDisturbsNoOther(w: World, e: Event, w': World, t: nat)
    requires ActorOk(w, e) && Steps(w, e, w') && (e.Closes? || e.caller != t) && CallerOk(w, t)
    ensures Undisturbed(w, w', t)
  {
    ConnectionsGrow(w, e, w');
  }

  lemma StepKeepsOther(w: World, w': World, t: nat)
    requires CallerOk(w, t) && Undisturbed(w, w', t) && t in w'.callers && w'.callers[t] == w.callers[t]
    ensures CallerOk(w', t)
  {
  }

  lemma StepKeepsConnection(w: World, e: Event, w': World, id: nat)
    requires ActorOk(w, e) && Steps(w, e, w') && id in w'.connections && (id in w.connections ==> ConnectionOk(w, id))
    ensures ConnectionOk(w', id)
  {
  }

  lemma StepKeepsFallback(w: World, e: Event, w': World)
    requires ActorOk(w, e) && FallbackOk(w) && Steps(w, e, w')
    ensures FallbackOk(w') && |w'.slots| == |w.slots|
  {
  }

  lemma StepKeepsCaller(w: World, e: Event, w': World, t: nat)
    requires Inv(w) && Steps(w, e, w') && t in w'.callers
    ensures CallerOk(w', t)
  {
    InvGivesActor(w, e);
    if e.Closes? || e.caller != t {
      assert t in w.callers && w'.callers[t] == w.callers[t];
      StepDisturbsNoOther(w, e, w', t);
      StepKeepsOther(w, w', t);
    } else {
      StepKeepsActor(w, e, w');
    }
  }

  lemma StepKeepsInv(w: World, e: Event, w': World)
    requires Inv(w) && Steps(w, e, w')
    ensures Inv(w')
  {
    InvGivesActor(w, e);
    StepKeepsFallback(w, e, w');
    forall s | 0 <= s < |w'.slots| ensures HolderOk(w'.slots[s], w'.callers, s) && CurrentOk(w', s) {
      assert SlotOk(w, s);
      StepKeepsSlot(w, e, w', s);
    }
    forall t | t in w'.callers ensures CallerOk(w', t) { StepKeepsCaller(w, e, w', t); }
    forall id | id in w'.connections ensures ConnectionOk(w', id) { StepKeepsConnection(w, e, w', id); }
  }

  lemma {:induction false} RunKeepsInv(v: World, events: Trace<Event>, w: World)
    requires Inv(v) && Continues(v, events, w)
    ensures Inv(w)
  {
    match events
    case Start =>
    case Then(front, last) =>
      var u :| Continues(v, front, u) && Steps(u, last, w);
      RunKeepsInv(v, front, u);
      StepKeepsInv(u, last, w);
  }

  /** In every run: a session that still works is the one its slot offers, so none is lost, and no slot ever has
      two of them; a slot is only switched over after a timeout of its own, and only in automatic mode. */
  lemma OneLiveSessionPerSlot(auto: bool, n: nat, events: Trace<Event>, w: World)
    requires Continues(Init(auto, n), events, w)
    ensures |w.slots| == |w.fallback|
    ensures forall id :: Live(w, id) ==>
              w.connections[id].slot < |w.slots| && Current(w, w.connections[id].slot) == Some(id)
    ensures forall i, j :: Live(w, i) && Live(w, j) && i != j ==> w.connections[i].slot != w.connections[j].slot
    ensures forall s :: 0 <= s < |w.fallback| && w.fallback[s] ==> w.auto && s in w.timeouts
    ensures forall t :: t in w.callers && w.callers[t] == Done(Yamux) ==> w.auto
  {
    RunKeepsInv(Init(auto, n), events, w);
    forall id | Live(w, id)
      ensures w.connections[id].slot < |w.slots| && Current(w, w.connections[id].slot) == Some(id)
    {
      assert ConnectionOk(w, id);
    }
    forall t | t in w.callers && w.callers[t] == Done(Yamux) ensures w.auto {
      assert CallerOk(w, t);
    }
  }

  /** A flag only ever goes up, by a caller that saw a timeout of that very slot; a caller that finds it up goes to
      Yamux without touching slots or sessions. */
  lemma FallbackIsSticky(auto: bool, n: nat, events: Trace<Event>, w: World, e: Event, w': World, s: nat)
    requires Continues(Init(auto, n), events, w) && Steps(w, e, w') && s < |w.fallback|
    ensures s < |w'.fallback| && (w.fallback[s] ==> w'.fallback[s])
    ensures w'.fallback[s] != w.fallback[s] ==>
              && e.FallBack? && w.callers[e.caller] == FallingBack(s) && s in w.timeouts
              && forall r :: 0 <= r < |w.fallback| && r != s ==> w'.fallback[r] == w.fallback[r]
    ensures e.Arrive? && w.nextIndex % |w.slots| == s && w.fallback[s] ==>
              w'.callers[e.caller] == Done(Yamux) && w'.slots == w.slots && w'.connections == w.connections
  {
    assert ActorOk(w, e) && (w.fallback[s] ==> w.auto) by {
      RunKeepsInv(Init(auto, n), events, w);
      InvGivesActor(w, e);
    }
    FlagStep(w, e, w', s);
    if e.Arrive? && w.nextIndex % |w.slots| == s && w.fallback[s] {
      FlaggedArrival(w, e.caller, w', s);
    }
  }

  lemma FlaggedArrival(w: World, t: nat, w': World, s: nat)
    requires Arrives(w, t, w') && w.auto && s < |w.fallback| && w.fallback[s] && w.nextIndex % |w.slots| == s
    ensures w'.callers[t] == Done(Yamux) && w'.slots == w.slots && w'.connections == w.connections
  {
  }

  lemma FlagStep(w: World, e: Event, w': World, s: nat)
    requires Steps(w, e, w') && ActorOk(w, e) && s < |w.fallback|
    ensures s < |w'.fallback| && (w.fallback[s] ==> w'.fallback[s])
    ensures w'.fallback[s] != w.fallback[s] ==>
              && e.FallBack? && w.callers[e.caller] == FallingBack(s) && s in w.timeouts
              && forall r :: 0 <= r < |w.fallback| && r != s ==> w'.fallback[r] == w.fallback[r]
  {
  }

  /** A held lock is never stuck: its holder waits for no other lock, and whether its check or its dial comes next,
      or it is cancelled, the lock is free after at most two of its steps. */
  lemma HeldLockIsReleased(auto: bool, n: nat, events: Trace<Event>, w: World, s: nat, dial: Dial)
    requires Continues(Init(auto, n), events, w) && s < |w.slots| && w.slots[s].holder.Some?
    ensures var t := w.slots[s].holder.value;
            exists e, w' ::
              && e in {Check(t), DialEnds(t, dial)} && Steps(w, e, w') && s < |w'.slots|
              && (w'.slots[s].holder.None? || (w'.callers[t].Dialing? && e.Check?))
    ensures exists w' :: Steps(w, Cancel(w.slots[s].holder.value), w') && s < |w'.slots| && w'.slots[s].holder.None?
              && Current(w', s) == Current(w, s)
  {
    RunKeepsInv(Init(auto, n), events, w);
    var t := w.slots[s].holder.value;
    assert HolderOk(w.slots[s], w.callers, s);
    Proceeds(w, t, s, dial);
    var w2 := w.(callers := w.callers - {t}, slots := w.slots[s := Slot(None, Current(w, s))]);
    assert Steps(w, Cancel(t), w2);
  }

  lemma Proceeds(w: World, t: nat, s: nat, dial: Dial)
    requires s < |w.slots| && t in w.callers && (w.callers[t].Checking? || w.callers[t].Dialing?) && w.callers[t].slot == s
    ensures exists e, w' ::
              && e in {Check(t), DialEnds(t, dial)} && Steps(w, e, w') && s < |w'.slots| && t in w'.callers
              && (w'.slots[s].holder.None? || (w'.callers[t].Dialing? && e.Check?))
  {
    var a := w.callers[t].attempt;
    if w.callers[t].Checking? {
      var w' := if Current(w, s).None? || Closed(w, Current(w, s).value) then Go(w, t, Dialing(s, a))
                else Go(SetSlot(w, s, None, Current(w, s)), t, Opening(s, a, Current(w, s).value));
      assert Steps(w, Check(t), w');
    } else {
      var w' :=
        match dial
        case Connected =>
          Go(SetSlot(w, s, None, Some(w.nextId)).(
               nextId := w.nextId + 1, connections := w.connections[w.nextId := Connection(s, false, false)]),
             t, Opening(s, a, w.nextId))
        case TimedOut => TimeOut(SetSlot(w, s, None, Current(w, s)), t, s)
        case Refused => Go(SetSlot(w, s, None, Current(w, s)), t, Done(Failed));
      assert Steps(w, DialEnds(t, dial), w');
    }
  }

  // ----- After a slot has fallen back -----

  datatype Token = Token(caller: nat, attempt: nat)

  /** The attempts a caller may still dial at slot `s`. */
  function Left(c: Caller, s: nat): set<nat> {
    match c
    case Wanting(s', a) => if s' == s then (if a == 0 then {0, 1} else {1}) else {}
    case Checking(s', a) => if s' == s then (if a == 0 then {0, 1} else {1}) else {}
    case Dialing(s', a) => if s' == s then (if a == 0 then {0, 1} else {1}) else {}
    case Opening(s', a, _) => if s' == s && a == 0 then {1} else {}
    case Removing(s', _) => if s' == s then {1} else {}
    case _ => {}
  }

  ghost function Tokens(w: World, s: nat): set<Token> {
    set t, a | t in w.callers && a in Left(w.callers[t], s) :: Token(t, a)
  }

  function Of(w: World, s: nat): set<nat> {
    set id | id in w.connections && w.connections[id].slot == s
  }

  predicate Connects(w: World, e: Event, s: nat) {
    e.DialEnds? && e.dial.Connected? && e.caller in w.callers && w.callers[e.caller].Dialing? && w.callers[e.caller].slot == s
  }

  lemma LeftShrinks(w: World, e: Event, w': World, s: nat, t: nat)
    requires ActorOk(w, e) && Steps(w, e, w') && s < |w.slots| == |w.fallback| && w.fallback[s] && w.auto && t in w'.callers
    ensures Left(w'.callers[t], s) != {} ==> t in w.callers && Left(w'.callers[t], s) <= Left(w.callers[t], s)
    ensures Connects(w, e, s) && e.caller == t ==> w.callers[t].attempt !in Left(w'.callers[t], s)
  {
  }

  lemma TokensShrink(w: World, e: Event, w': World, s: nat)
    requires Inv(w) && Steps(w, e, w') && s < |w.slots| && w.fallback[s]
    ensures Tokens(w', s) <= Tokens(w, s)
    ensures Connects(w, e, s) ==> Token(e.caller, w.callers[e.caller].attempt) in Tokens(w, s) - Tokens(w', s)
  {
    InvGivesActor(w, e);
    forall token | token in Tokens(w', s) ensures token in Tokens(w, s) {
      LeftShrinks(w, e, w', s, token.caller);
    }
    if Connects(w, e, s) {
      assert CallerOk(w, e.caller);
      assert w.callers[e.caller].attempt in Left(w.callers[e.caller], s);
      LeftShrinks(w, e, w', s, e.caller);
    }
  }

  lemma OfGrows(w: World, e: Event, w': World, s: nat)
    requires w.nextId !in w.connections && Steps(w, e, w')
    ensures |Of(w', s)| == |Of(w, s)| + if Connects(w, e, s) then 1 else 0
  {
    if Connects(w, e, s) {
      assert w'.connections == w.connections[w.nextId := Connection(s, false, false)];
      assert Of(w', s) == Of(w, s) + {w.nextId};
    } else {
      if e.Closes? {
        assert w'.connections.Keys == w.connections.Keys;
      } else {
        assert w'.connections == w.connections || (e.DialEnds? && e.dial.Connected? && w.callers[e.caller].slot != s);
      }
      assert Of(w', s) == Of(w, s);
    }
  }

  lemma FallbackIsKept(w: World, e: Event, w': World, s: nat)
    requires Steps(w, e, w') && |w.fallback| == |w.slots| && s < |w.slots| && w.fallback[s]
    ensures |w'.fallback| == |w'.slots| && s < |w'.slots| && w'.fallback[s]
  {
  }

  lemma StepSpendsTokens(w: World, e: Event, w': World, s: nat)
    requires Inv(w) && Steps(w, e, w') && s < |w.slots| && w.fallback[s]
    ensures |Of(w', s)| + |Tokens(w', s)| <= |Of(w, s)| + |Tokens(w, s)|
  {
    TokensShrink(w, e, w', s);
    assert w.nextId in w.connections ==> ConnectionOk(w, w.nextId);
    OfGrows(w, e, w', s);
    if Connects(w, e, s) {
      SubsetCardinality(Tokens(w', s), Tokens(w, s) - {Token(e.caller, w.callers[e.caller].attempt)});
    } else {
      SubsetCardinality(Tokens(w', s), Tokens(w, s));
    }
  }

  lemma {:induction false} DialsAreBudgeted(v: World, events: Trace<Event>, w: World, s: nat)
    requires Inv(v) && s < |v.slots| && v.fallback[s] && Continues(v, events, w)
    ensures s < |w.slots| && |w.fallback| == |w.slots| && w.fallback[s]
    ensures |Of(w, s)| + |Tokens(w, s)| <= |Of(v, s)| + |Tokens(v, s)|
  {
    match events
    case Start =>
    case Then(front, last) =>
      var u :| Continues(v, front, u) && Steps(u, last, w);
      RunKeepsInv(v, front, u);
      DialsAreBudgeted(v, front, u, s);
      StepSpendsTokens(u, last, w, s);
      FallbackIsKept(u, last, w, s);
  }

  /** Once a slot has fallen back, new callers leave it alone: the native sessions still made there are at most
      the dials its callers in flight have left, two each. */
  lemma FallbackStopsDialing(auto: bool, n: nat, before: Trace<Event>, v: World, after: Trace<Event>, w: World, s: nat)
    requires Continues(Init(auto, n), before, v) && Continues(v, after, w)
    requires s < |v.slots| && s < |v.fallback| && v.fallback[s]
    ensures s < |w.fallback| && w.fallback[s]
    ensures |Of(w, s)| <= |Of(v, s)| + |Tokens(v, s)|
  {
    RunKeepsInv(Init(auto, n), before, v);
    DialsAreBudgeted(v, after, w, s);
  }

  // ----- What the outcomes mean, told from the events -----

  /** The latest event that is about the caller. */
  function LastOf(events: Trace<Event>, t: nat): Option<Event> {
    match events
    case Start => None
    case Then(front, last) => if !last.Closes? && last.caller == t then Some(last) else LastOf(front, t)
  }

  /** The caller was told of a timeout: its dial ended in one, or it found its slot's session timed out. */
  predicate SawTimeout(e: Event, auto: bool) {
    (e.DialEnds? && e.dial.TimedOut?) || (e.Lock? && e.late && auto)
  }

  /** Where a caller stands, against the last thing that happened to it. */
  predicate Told(auto: bool, last: Option<Event>, c: Caller) {
    && (c.FallingBack? <==> last.Some? && SawTimeout(last.value, auto) && auto)
    && (c.Done? && c.outcome.Native? <==> last.Some? && last.value.OpenEnds? && last.value.ok)
    && (c == Done(Failed) ==> last.Some? && (last.value.DialEnds? || (last.value.OpenEnds? && !last.value.ok)))
    && (last.Some? && SawTimeout(last.value, auto) && !auto ==> c == Done(Failed))
    && (last.Some? && last.value.DialEnds? && last.value.dial.Refused? ==> c == Done(Failed))
    && (last.Some? && last.value.FallBack? ==> c == Done(Yamux))
    && (c == Done(Yamux) ==> last.Some? && (last.value.FallBack? || last.value.Arrive?))
  }

  lemma ActorIsTold(w: World, e: Event, w': World)
    requires Steps(w, e, w') && !e.Closes? && e.caller in w'.callers
    ensures Told(w.auto, Some(e), w'.callers[e.caller]) && w'.auto == w.auto
  {
  }

  lemma OthersStand(w: World, e: Event, w': World, t: nat)
    requires Steps(w, e, w') && (e.Closes? || e.caller != t) && t in w'.callers
    ensures t in w.callers && w'.callers[t] == w.callers[t] && w'.auto == w.auto
  {
  }

  lemma {:induction false} RunIsTold(auto: bool, n: nat, events: Trace<Event>, w: World, t: nat)
    requires Continues(Init(auto, n), events, w)
    ensures w.auto == auto && (t in w.callers ==> Told(auto, LastOf(events, t), w.callers[t]))
  {
    match events
    case Start =>
    case Then(front, last) =>
      var v :| Continues(Init(auto, n), front, v) && Steps(v, last, w);
      RunIsTold(auto, n, front, v, t);
      KeepsMode(v, last, w);
      if t in w.callers {
        if last.Closes? || last.caller != t {
          OthersStand(v, last, w, t);
        } else {
          ActorIsTold(v, last, w);
        }
      }
  }

  lemma KeepsMode(w: World, e: Event, w': World)
    requires Steps(w, e, w')
    ensures w'.auto == w.auto
  {
  }

  /** A caller stays with the slot it was given. */
  lemma StaysWithSlot(w: World, e: Event, w': World, t: nat)
    requires Steps(w, e, w') && t in w.callers && t in w'.callers && !w'.callers[t].Done?
    ensures !w.callers[t].Done? && w'.callers[t].slot == w.callers[t].slot
  {
  }

  /** In every run, a caller told of a timeout in automatic mode has not failed: it is about to hand its slot over, the
      only thing left for it to do, unless it is cancelled, and doing so raises its slot's flag and sends it to Yamux.
      Outside automatic mode it has failed, and no flag is ever raised. */
  lemma TimeoutFallsBack(auto: bool, n: nat, events: Trace<Event>, w: World, t: nat)
    requires Continues(Init(auto, n), events, w) && t in w.callers
    requires LastOf(events, t).Some? && SawTimeout(LastOf(events, t).value, auto)
    ensures auto ==>
              && w.callers[t].FallingBack? && w.callers[t].slot < |w.fallback|
              && (exists w' :: Steps(w, FallBack(t), w') && w'.fallback == w.fallback[w.callers[t].slot := true]
                               && t in w'.callers && w'.callers[t] == Done(Yamux))
              && (forall e, w' :: Steps(w, e, w') && !e.Closes? && e.caller == t ==> e == FallBack(t) || e == Cancel(t))
    ensures !auto ==> w.callers[t] == Done(Failed) && forall s :: 0 <= s < |w.fallback| ==> !w.fallback[s]
  {
    RunIsTold(auto, n, events, w, t);
    RunKeepsInv(Init(auto, n), events, w);
    assert CallerOk(w, t);
    if auto {
      var s := w.callers[t].slot;
      var w' := Go(w.(fallback := w.fallback[s := true]), t, Done(Yamux));
      assert Steps(w, FallBack(t), w');
    }
  }

  /** In every run a caller has a native stream if and only if its session let it open one, is sent to Yamux only by a
      flag found up or raised by itself, and fails only after a refused or failed dial or opening. */
  lemma OutcomesMean(auto: bool, n: nat, events: Trace<Event>, w: World, t: nat)
    requires Continues(Init(auto, n), events, w) && t in w.callers
    ensures LastOf(events, t).Some?
    ensures var e := LastOf(events, t).value;
            && (w.callers[t].Done? && w.callers[t].outcome.Native? <==> e == OpenEnds(t, true))
            && (e == FallBack(t) ==> w.callers[t] == Done(Yamux))
            && (w.callers[t] == Done(Yamux) ==> e == FallBack(t) || e == Arrive(t))
            && (w.callers[t] == Done(Failed) ==> e.DialEnds? || e == OpenEnds(t, false))
            && (w.callers[t] == Done(Failed) && auto ==> e == DialEnds(t, Refused) || e == OpenEnds(t, false))
  {
    RunIsTold(auto, n, events, w, t);
    AboutSome(auto, n, events, w, t);
    ToldMeans(auto, LastOf(events, t).value, w.callers[t], t);
  }

  /** What a caller has been told, read the other way. */
  lemma ToldMeans(auto: bool, e: Event, c: Caller, t: nat)
    requires Told(auto, Some(e), c) && !e.Closes? && e.caller == t && (e.DialEnds? && e.dial.Connected? ==> c.Opening?)
    ensures c.Done? && c.outcome.Native? <==> e == OpenEnds(t, true)
    ensures e == FallBack(t) ==> c == Done(Yamux)
    ensures c == Done(Yamux) ==> e == FallBack(t) || e == Arrive(t)
    ensures c == Done(Failed) ==> e.DialEnds? || e == OpenEnds(t, false)
    ensures c == Done(Failed) && auto ==> e == DialEnds(t, Refused) || e == OpenEnds(t, false)
  {
  }

  lemma {:induction false} AboutSome(auto: bool, n: nat, events: Trace<Event>, w: World, t: nat)
    requires Continues(Init(auto, n), events, w) && t in w.callers
    ensures LastOf(events, t).Some? && !LastOf(events, t).value.Closes? && LastOf(events, t).value.caller == t
    ensures LastOf(events, t).value.DialEnds? && LastOf(events, t).value.dial.Connected? ==> w.callers[t].Opening?
  {
    match events
    case Start =>
    case Then(front, last) =>
      var v :| Continues(Init(auto, n), front, v) && Steps(v, last, w);
      if last.Closes? || last.caller != t {
        OthersStand(v, last, w, t);
        AboutSome(auto, n, front, v, t);
      }
  }

  /** Whether the caller has already been back to its slot since it arrived. */
  predicate Retried(events: Trace<Event>, t: nat) {
    match events
    case Start => false
    case Then(front, last) =>
      if last.Closes? || last.caller != t then Retried(front, t)
      else if last.Arrive? then false
      else last.Remove? || Retried(front, t)
  }

  predicate AttemptTold(retried: bool, c: Caller) {
    (c.Wanting? || c.Checking? || c.Dialing? || c.Opening? ==> c.attempt == if retried then 1 else 0)
    && (c.Removing? ==> !retried)
  }

  lemma ActorCountsAttempts(w: World, e: Event, w': World, retried: bool)
    requires Steps(w, e, w') && !e.Closes? && !e.Arrive? && e.caller in w.callers && e.caller in w'.callers
    requires AttemptTold(retried, w.callers[e.caller])
    ensures AttemptTold(e.Remove? || retried, w'.callers[e.caller])
  {
  }

  lemma {:induction false} RunCountsAttempts(auto: bool, n: nat, events: Trace<Event>, w: World, t: nat)
    requires Continues(Init(auto, n), events, w) && t in w.callers
    ensures AttemptTold(Retried(events, t), w.callers[t])
  {
    match events
    case Start =>
    case Then(front, last) =>
      var v :| Continues(Init(auto, n), front, v) && Steps(v, last, w);
      if last.Closes? || last.caller != t {
        OthersStand(v, last, w, t);
        RunCountsAttempts(auto, n, front, v, t);
      } else if !last.Arrive? {
        StoodBefore(v, last, w, t);
        RunCountsAttempts(auto, n, front, v, t);
        ActorCountsAttempts(v, last, w, Retried(front, t));
      }
  }

  lemma StoodBefore(w: World, e: Event, w': World, t: nat)
    requires Steps(w, e, w') && !e.Closes? && !e.Arrive? && e.caller == t
    ensures t in w.callers
  {
  }

  /** In every run a slot's session is replaced when, and only when, none of its sessions works any more; and a caller
      whose session failed it goes back to its slot if and only if that session has closed and it has not been back
      before. */
  lemma RebuildsAndRetriesIff(auto: bool, n: nat, events: Trace<Event>, w: World, t: nat, e: Event, w': World)
    requires Continues(Init(auto, n), events, w) && Steps(w, e, w') && t in w.callers && t in w'.callers
    ensures e == Check(t) ==>
              (w'.callers[t].Dialing? <==> forall id :: Live(w, id) ==> w.connections[id].slot != w.callers[t].slot)
    ensures e == OpenEnds(t, false) ==>
              (w'.callers[t].Removing? <==> !Retried(events, t) && Closed(w, w.callers[t].id))
  {
    RunKeepsInv(Init(auto, n), events, w);
    RunCountsAttempts(auto, n, events, w, t);
    assert CallerOk(w, t);
    if e == Check(t) {
      CheckFindsLive(w, t);
    }
  }

  lemma CheckFindsLive(w: World, t: nat)
    requires Inv(w) && t in w.callers && w.callers[t].Checking? && w.callers[t].slot < |w.slots|
    ensures var s := w.callers[t].slot;
            (Current(w, s).None? || Closed(w, Current(w, s).value)) <==> forall id :: Live(w, id) ==> w.connections[id].slot != s
  {
    var s := w.callers[t].slot;
    assert CurrentOk(w, s);
    forall id | Live(w, id) && w.connections[id].slot == s ensures Current(w, s) == Some(id) {
      assert ConnectionOk(w, id);
    }
    if Current(w, s).Some? && !Closed(w, Current(w, s).value) {
      assert Live(w, Current(w, s).value);
    }
  }

  // ----- Turns -----

  function Arrivals(events: Trace<Event>): nat {
    match events
    case Start => 0
    case Then(front, last) => Arrivals(front) + if last.Arrive? then 1 else 0
  }

  lemma StepCounts(w: World, e: Event, w': World)
    requires Steps(w, e, w')
    ensures w'.nextIndex == if e.Arrive? then (w.nextIndex + 1) % U64_SIZE else w.nextIndex
    ensures |w'.slots| == |w.slots| && |w'.fallback| == |w.fallback|
  {
  }

  /** The shared 64-bit count after `k` arrivals. */
  function Count(k: nat): nat {
    k % U64_SIZE
  }

  lemma OneMoreCounted(k: nat)
    ensures Count(k + 1) == (Count(k) + 1) % U64_SIZE
  {
  }

  lemma {:induction false} RunCountsArrivals(auto: bool, n: nat, events: Trace<Event>, w: World)
    requires Continues(Init(auto, n), events, w)
    ensures w.nextIndex == Count(Arrivals(events)) && |w.slots| == |w.fallback| == n && w.auto == auto
  {
    match events
    case Start =>
    case Then(front, last) =>
      var v :| Continues(Init(auto, n), front, v) && Steps(v, last, w);
      RunCountsArrivals(auto, n, front, v);
      StepCounts(v, last, w);
      OneMoreCounted(Arrivals(front));
      KeepsMode(v, last, w);
  }

  lemma ArrivesAtTurn(w: World, t: nat, w': World)
    requires Arrives(w, t, w') && |w.fallback| == |w.slots|
    ensures |w.slots| > 0 && t in w'.callers
    ensures var s := w.nextIndex % |w.slots|;
            w'.callers[t] == if w.auto && w.fallback[s] then Done(Yamux) else Wanting(s, 0)
  {
  }

  /** Callers take the slots in turn: in every run the caller that arrives after `k` others is given slot `k` mod `n`, by a
      64-bit count, and is sent to Yamux at once if and only if that slot has fallen back in automatic mode. */
  lemma SlotsTakeTurns(auto: bool, n: nat, events: Trace<Event>, w: World, t: nat, w': World)
    requires Continues(Init(auto, n), events, w) && Steps(w, Arrive(t), w')
    ensures n > 0 && |w.fallback| == n && t in w'.callers
    ensures var s := Count(Arrivals(events)) % n;
            w'.callers[t] == if auto && w.fallback[s] then Done(Yamux) else Wanting(s, 0)
  {
    RunCountsArrivals(auto, n, events, w);
    ArrivesAtTurn(w, t, w');
  }

  /** A caller whose session failed it takes that session out of its slot, and leaves there what another has put in its
      place. */
  lemma RemovesItsOwn(w: World, t: nat, w': World)
    requires Steps(w, Remove(t), w')
    ensures var s, id := w.callers[t].slot, w.callers[t].id;
            && |w'.slots| == |w.slots| && Current(w', s) != Some(id) && w'.connections == w.connections
            && forall r :: 0 <= r < |w.slots| && Current(w, r) != Some(id) ==> Current(w', r) == Current(w, r)
  {
  }
}

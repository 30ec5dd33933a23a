/** The physical egress of direct connections: one interface per address family, refreshed after failures by a
    probe that runs under a lock and at most once per cooldown. */
module DirectEgress {
  import opened Basics

  /** In milliseconds, like every time here. */
  const COOLDOWN: nat := 2000

  type Interface = nat

  datatype Family = Ipv4 | Ipv6

  /** The detected route to the proxy: the family of its local address, whether that lies in the TUN, and the
      interface. */
  datatype Route = Route(family: Family, inTun: bool, interface: Option<Interface>)

  datatype Bindings = Bindings(ipv4: Option<Interface>, ipv6: Option<Interface>)

  /** What the proxy sessions were last told to bind to. */
  datatype State = State(direct: Bindings, proxy: Option<Interface>)

  function Of(b: Bindings, f: Family): Option<Interface> {
    if f.Ipv6? then b.ipv6 else b.ipv4
  }

  function Bind(b: Bindings, f: Family, i: Option<Interface>): Bindings {
    if f.Ipv6? then b.(ipv6 := i) else b.(ipv4 := i)
  }

  function Filter(usable: Interface -> bool, i: Option<Interface>): Option<Interface> {
    if i.Some? && usable(i.value) then i else None
  }

  function RefreshDefault(usable: Interface -> bool, s: State, f: Family, default: Option<Interface>): State {
    if Filter(usable, default).Some? then s.(direct := Bind(s.direct, f, default)) else s
  }

  function Refreshed(usable: Interface -> bool, s: State, f: Family, route: Option<Route>, default: Option<Interface>): State {
    if route.None? || route.value.inTun || Filter(usable, route.value.interface).None? then
      RefreshDefault(usable, s, f, default)
    else
      var s' := s.(proxy := route.value.interface);
      if route.value.family != f then RefreshDefault(usable, s', f, default)
      else s'.(direct := Bind(s'.direct, f, route.value.interface))
  }

  class TunDirectEgress {
    var ipv4: Option<Interface>
    var ipv6: Option<Interface>
    var proxy: Option<Interface>

    function View(): State
      reads this
    {
      State(Bindings(ipv4, ipv6), proxy)
    }

    constructor (usable: Interface -> bool, given: Option<Interface>, default4: Option<Interface>, default6: Option<Interface>)
      ensures Usable(usable, View())
      ensures given.Some? && usable(given.value) ==> ipv4.Some? && ipv6.Some?
      ensures default4.Some? && usable(default4.value) ==> ipv4 == default4
      ensures default6.Some? && usable(default6.value) ==> ipv6 == default6
      ensures proxy == None
    {
      var fallback := Filter(usable, given);
      ipv4 := if Filter(usable, default4).Some? then default4 else fallback;
      ipv6 := if Filter(usable, default6).Some? then default6 else fallback;
      proxy := None;
    }

    method BindInterface(f: Family) returns (i: Option<Interface>)
      ensures i == Of(View().direct, f)
    {
      if f.Ipv6? {
        i := ipv6;
      } else {
        i := ipv4;
      }
    }

    method UpdateBindInterface(f: Family, i: Option<Interface>)
      modifies this`ipv4, this`ipv6
      ensures View() == old(View()).(direct := Bind(old(View()).direct, f, i))
    {
      if f.Ipv6? {
        ipv6 := i;
      } else {
        ipv4 := i;
      }
    }

    method RefreshDefaultRouteInterface(usable: Interface -> bool, f: Family, default: Option<Interface>)
      returns (i: Option<Interface>)
      modifies this`ipv4, this`ipv6
      ensures View() == RefreshDefault(usable, old(View()), f, default)
      ensures i == Of(View().direct, f)
    {
      var found := Filter(usable, default);
      if found.Some? {
        UpdateBindInterface(f, found);
        i := found;
      } else {
        i := BindInterface(f);
      }
    }

    /** The probe itself; what it returns is what later callers are given too. */
    method RefreshLocked(usable: Interface -> bool, f: Family, route: Option<Route>, default: Option<Interface>)
      returns (i: Option<Interface>)
      modifies this
      ensures View() == Refreshed(usable, old(View()), f, route, default)
      ensures i == Of(View().direct, f)
    {
      if route.None? {
        i := RefreshDefaultRouteInterface(usable, f, default);
        return;
      }
      if route.value.inTun {
        i := RefreshDefaultRouteInterface(usable, f, default);
        return;
      }
      var found := Filter(usable, route.value.interface);
      if found.None? {
        i := RefreshDefaultRouteInterface(usable, f, default);
        return;
      }
      proxy := found;
      if route.value.family.Ipv6? != f.Ipv6? {
        i := RefreshDefaultRouteInterface(usable, f, default);
        return;
      }
      UpdateBindInterface(f, found);
      i := found;
    }
  }

  ghost predicate Usable(usable: Interface -> bool, s: State) {
    && (s.direct.ipv4.Some? ==> usable(s.direct.ipv4.value))
    && (s.direct.ipv6.Some? ==> usable(s.direct.ipv6.value))
    && (s.proxy.Some? ==> usable(s.proxy.value))
  }

  /** A route to bind to: of the right family, outside the TUN, on a usable interface. */
  predicate Suitable(usable: Interface -> bool, f: Family, route: Option<Route>) {
    route.Some? && route.value.family == f && !route.value.inTun && Filter(usable, route.value.interface).Some?
  }

  /** A probe only ever stores usable interfaces, never forgets one, and leaves the other family alone. It prefers a
      suitable route, then the default route, then what was there; the proxy sessions
      are told of every usable route outside the TUN, of whichever family, and of nothing else. */
  lemma RefreshKeepsBindings(usable: Interface -> bool, s: State, f: Family, g: Family, route: Option<Route>, default: Option<Interface>)
    requires Usable(usable, s)
    ensures var s' := Refreshed(usable, s, f, route, default);
            && Usable(usable, s')
            && (Of(s.direct, g).Some? ==> Of(s'.direct, g).Some?)
            && (g != f ==> Of(s'.direct, g) == Of(s.direct, g))
            && Of(s'.direct, f) == (if Suitable(usable, f, route) then route.value.interface
                                    else if Filter(usable, default).Some? then default else Of(s.direct, f))
            && s'.proxy == (if route.Some? && !route.value.inTun && route.value.interface.Some? && usable(route.value.interface.value)
                            then route.value.interface else s.proxy)
  {
  }

  // ----- Callers, clock and lock -----

  /** A probing caller knows its place in the log. */
  datatype Caller = Waiting(family: Family) | Probing(family: Family, serial: nat)

  datatype End = Running | Completed(at: nat) | Cancelled(at: nat)

  datatype Probe = Probe(family: Family, from: nat, end: End)

  /** `log` has every probe that was started, oldest first. */
  datatype World = World(
    now: nat, state: State, last4: Option<nat>, last6: Option<nat>, holder: Option<nat>, callers: map<nat, Caller>,
    log: seq<Probe>)

  datatype Event =
    | Tick(elapsed: nat)
    | Fail(caller: nat, family: Family)
    | Lock(caller: nat)
    | ProbeEnds(caller: nat, route: Option<Route>, default: Option<Interface>)
    | Cancel(caller: nat)

  function Last(w: World, f: Family): Option<nat> {
    if f.Ipv6? then w.last6 else w.last4
  }

  predicate Recently(w: World, f: Family) {
    Last(w, f).Some? && w.now < Last(w, f).value + COOLDOWN
  }

  function Marked(w: World, f: Family): World {
    if f.Ipv6? then w.(last6 := Some(w.now)) else w.(last4 := Some(w.now))
  }

  function Ended(log: seq<Probe>, k: nat, end: End): seq<Probe> {
    if k < |log| then log[k := log[k].(end := end)] else log
  }

  ghost predicate Locks(w: World, t: nat, w': World) {
    && t in w.callers && w.callers[t].Waiting? && w.holder.None?
    && var f, serial: nat := w.callers[t].family, |w.log|;
       w' == if Recently(w, f) then w.(callers := w.callers - {t})
             else w.(holder := Some(t), callers := w.callers[t := Probing(f, serial)], log := w.log + [Probe(f, w.now, Running)])
  }

  ghost predicate Finishes(usable: Interface -> bool, w: World, t: nat, route: Option<Route>, default: Option<Interface>, w': World) {
    && t in w.callers && w.callers[t].Probing?
    && var Probing(f, serial) := w.callers[t];
       w' == Marked(w, f).(state := Refreshed(usable, w.state, f, route, default), holder := None,
                           callers := w.callers - {t}, log := Ended(w.log, serial, Completed(w.now)))
  }

  ghost predicate Cancels(w: World, t: nat, w': World) {
    && t in w.callers
    && w' == if w.callers[t].Probing? then
               w.(callers := w.callers - {t}, holder := None, log := Ended(w.log, w.callers[t].serial, Cancelled(w.now)))
             else w.(callers := w.callers - {t})
  }

  ghost predicate Steps(usable: Interface -> bool, w: World, e: Event, w': World) {
    match e
    case Tick(elapsed) => w' == w.(now := w.now + elapsed)
    case Fail(t, f) =>
      t !in w.callers && w' == if Recently(w, f) then w else w.(callers := w.callers[t := Waiting(f)])
    case Lock(t) => Locks(w, t, w')
    case ProbeEnds(t, route, default) => Finishes(usable, w, t, route, default, w')
    case Cancel(t) => Cancels(w, t, w')
  }

  ghost predicate Reaches(usable: Interface -> bool, init: State, events: Trace<Event>, w: World) {
    match events
    case Start => w == World(w.now, init, None, None, None, map[], [])
    case Then(front, last) => exists v :: Reaches(usable, init, front, v) && Steps(usable, v, last, w)
  }

  /** The later probe began after the earlier had ended, and a cooldown after if that completed for its own family. */
  predicate Apart(p: Probe, q: Probe) {
    && !p.end.Running? && p.from <= p.end.at <= q.from
    && (p.end.Completed? && p.family == q.family ==> p.end.at + COOLDOWN <= q.from)
  }

  predicate TooClose(p: Probe, q: Probe) {
    p.family == q.family && q.from < p.from + COOLDOWN
  }

  ghost predicate Spaced(log: seq<Probe>) {
    forall i, j :: 0 <= i < j < |log| ==> Apart(log[i], log[j])
  }

  /** Times lie in the past, and the cooldown of a family counts from no earlier than any of its completed probes. */
  predicate Counted(p: Probe, w: World) {
    && p.from <= w.now && (!p.end.Running? ==> p.from <= p.end.at <= w.now)
    && (p.end.Completed? ==> Last(w, p.family).Some? && p.end.at <= Last(w, p.family).value)
  }

  /** The cooldown of a family counts from one of its completed probes. */
  ghost predicate Grounded(w: World, f: Family) {
    Last(w, f).Some? ==>
      exists i :: 0 <= i < |w.log| && w.log[i].family == f && w.log[i].end == Completed(Last(w, f).value)
  }

  ghost predicate LogOk(w: World) {
    && Spaced(w.log) && (forall i :: 0 <= i < |w.log| ==> Counted(w.log[i], w))
    && Grounded(w, Ipv4) && Grounded(w, Ipv6)
  }

  /** The lock's holder runs the last probe; without a holder none is running. */
  ghost predicate LockOk(w: World) {
    && (forall t :: t in w.callers && w.callers[t].Probing? ==> w.holder == Some(t))
    && (w.holder.Some? ==>
          && w.holder.value in w.callers && w.callers[w.holder.value].Probing? && w.log != []
          && w.callers[w.holder.value].serial == |w.log| - 1
          && w.log[|w.log| - 1].family == w.callers[w.holder.value].family && w.log[|w.log| - 1].end.Running?)
    && (w.holder.None? ==> forall i :: 0 <= i < |w.log| ==> !w.log[i].end.Running?)
  }

  ghost predicate Inv(usable: Interface -> bool, w: World) {
    LogOk(w) && LockOk(w) && Usable(usable, w.state)
  }

  lemma SpacedStarts(log: seq<Probe>, p: Probe)
    requires Spaced(log) && forall i :: 0 <= i < |log| ==> Apart(log[i], p)
    ensures Spaced(log + [p])
  {
  }

  lemma SpacedEnds(log: seq<Probe>, end: End)
    requires Spaced(log) && log != []
    ensures Spaced(Ended(log, |log| - 1, end))
  {
    var log' := Ended(log, |log| - 1, end);
    forall i, j | 0 <= i < j < |log'| ensures Apart(log'[i], log'[j]) {
      assert Apart(log[i], log[j]);
    }
  }

  lemma LockKeepsInv(usable: Interface -> bool, w: World, t: nat, w': World)
    requires Inv(usable, w) && Locks(w, t, w')
    ensures Inv(usable, w')
  {
    var f := w.callers[t].family;
    if !Recently(w, f) {
      var p := Probe(f, w.now, Running);
      forall i | 0 <= i < |w.log| ensures Apart(w.log[i], p) {
        assert Counted(w.log[i], w);
      }
      SpacedStarts(w.log, p);
      forall i | 0 <= i < |w'.log| ensures Counted(w'.log[i], w') {
        assert i < |w.log| ==> Counted(w.log[i], w);
      }
      StartKeepsGround(w, p, w', Ipv4);
      StartKeepsGround(w, p, w', Ipv6);
    }
  }

  lemma StartKeepsGround(w: World, p: Probe, w': World, f: Family)
    requires Grounded(w, f) && w'.log == w.log + [p] && Last(w', f) == Last(w, f)
    ensures Grounded(w', f)
  {
    if Last(w, f).Some? {
      var i :| 0 <= i < |w.log| && w.log[i].family == f && w.log[i].end == Completed(Last(w, f).value);
      assert w'.log[i] == w.log[i];
    }
  }

  /** Ending the last probe, which is running, leaves all others as they were. */
  lemma EndKeepsLog(w: World, end: End, w': World)
    requires LogOk(w) && w.log != [] && w.log[|w.log| - 1].end.Running?
    requires !end.Running? && end.at == w.now == w'.now && w'.log == Ended(w.log, |w.log| - 1, end)
    requires var f := w.log[|w.log| - 1].family;
             forall g :: Last(w', g) == if g == f && end.Completed? then Some(w.now) else Last(w, g)
    requires (w.last4.Some? ==> w.last4.value <= w.now) && (w.last6.Some? ==> w.last6.value <= w.now)
    ensures LogOk(w')
  {
    var n := |w.log| - 1;
    SpacedEnds(w.log, end);
    forall i | 0 <= i < |w'.log| ensures Counted(w'.log[i], w') {
      assert Counted(w.log[i], w);
    }
    EndKeepsGround(w, end, w', Ipv4);
    EndKeepsGround(w, end, w', Ipv6);
  }

  lemma EndKeepsGround(w: World, end: End, w': World, f: Family)
    requires Grounded(w, f) && w.log != [] && w.log[|w.log| - 1].end.Running?
    requires !end.Running? && end.at == w.now && w'.log == Ended(w.log, |w.log| - 1, end)
    requires Last(w', f) == if f == w.log[|w.log| - 1].family && end.Completed? then Some(w.now) else Last(w, f)
    ensures Grounded(w', f)
  {
    var n := |w.log| - 1;
    if f == w.log[n].family && end.Completed? {
      assert w'.log[n].end == Completed(w.now);
    } else if Last(w, f).Some? {
      var i :| 0 <= i < |w.log| && w.log[i].family == f && w.log[i].end == Completed(Last(w, f).value);
      assert w'.log[i] == w.log[i];
    }
  }

  /** The cooldown never counts from the future. */
  lemma LastIsPast(usable: Interface -> bool, w: World, f: Family)
    requires Inv(usable, w) && Last(w, f).Some?
    ensures Last(w, f).value <= w.now
  {
    assert Grounded(w, f);
    var i :| 0 <= i < |w.log| && w.log[i].family == f && w.log[i].end == Completed(Last(w, f).value);
    assert Counted(w.log[i], w);
  }

  lemma FinishKeepsInv(usable: Interface -> bool, w: World, t: nat, route: Option<Route>, default: Option<Interface>, w': World)
    requires Inv(usable, w) && Finishes(usable, w, t, route, default, w')
    ensures Inv(usable, w')
  {
    if w.last4.Some? { LastIsPast(usable, w, Ipv4); }
    if w.last6.Some? { LastIsPast(usable, w, Ipv6); }
    EndKeepsLog(w, Completed(w.now), w');
    RefreshKeepsBindings(usable, w.state, w.callers[t].family, Ipv4, route, default);
    NoneRuns(w, Completed(w.now), w');
  }

  /** Once the last probe has ended none is running. */
  lemma NoneRuns(w: World, end: End, w': World)
    requires Spaced(w.log) && w.log != [] && !end.Running? && w'.log == Ended(w.log, |w.log| - 1, end)
    ensures forall i :: 0 <= i < |w'.log| ==> !w'.log[i].end.Running?
  {
    forall i | 0 <= i < |w'.log| ensures !w'.log[i].end.Running? {
      if i < |w.log| - 1 {
        assert Apart(w.log[i], w.log[|w.log| - 1]);
      }
    }
  }

  lemma CancelKeepsInv(usable: Interface -> bool, w: World, t: nat, w': World)
    requires Inv(usable, w) && Cancels(w, t, w')
    ensures Inv(usable, w')
  {
    if w.callers[t].Probing? {
      if w.last4.Some? { LastIsPast(usable, w, Ipv4); }
      if w.last6.Some? { LastIsPast(usable, w, Ipv6); }
      EndKeepsLog(w, Cancelled(w.now), w');
      NoneRuns(w, Cancelled(w.now), w');
    } else {
      SameLogKeepsInv(usable, w, w');
    }
  }

  lemma SameLogKeepsInv(usable: Interface -> bool, w: World, w': World)
    requires LogOk(w) && w'.log == w.log && w'.last4 == w.last4 && w'.last6 == w.last6 && w.now <= w'.now
    ensures LogOk(w')
  {
    forall i | 0 <= i < |w'.log| ensures Counted(w'.log[i], w') {
      assert Counted(w.log[i], w);
    }
    assert Grounded(w, Ipv4) && Grounded(w, Ipv6);
  }

  lemma {:induction false} RunKeepsInv(usable: Interface -> bool, init: State, events: Trace<Event>, w: World)
    requires Reaches(usable, init, events, w) && Usable(usable, init)
    ensures Inv(usable, w)
  {
    match events
    case Start =>
    case Then(front, last) =>
      var v :| Reaches(usable, init, front, v) && Steps(usable, v, last, w);
      RunKeepsInv(usable, init, front, v);
      match last
      case Lock(t) => LockKeepsInv(usable, v, t, w);
      case ProbeEnds(t, route, default) => FinishKeepsInv(usable, v, t, route, default, w);
      case Cancel(t) => CancelKeepsInv(usable, v, t, w);
      case _ => SameLogKeepsInv(usable, v, w);
  }

  /** In every run, however many connections fail at once and whichever are cancelled, over all probes ever started:
      none begins before the one before it has ended; one begins a whole cooldown after every completed probe of its
      family; so two starts of one family are closer than a cooldown only if the earlier was cancelled. Only usable
      interfaces are ever bound. */
  lemma ProbesAreSpaced(usable: Interface -> bool, init: State, events: Trace<Event>, w: World)
    requires Reaches(usable, init, events, w) && Usable(usable, init)
    ensures forall i, j :: 0 <= i < j < |w.log| ==> Apart(w.log[i], w.log[j])
    ensures forall i, j :: 0 <= i < j < |w.log| && TooClose(w.log[i], w.log[j]) ==> w.log[i].end.Cancelled?
    ensures Usable(usable, w.state)
  {
    RunKeepsInv(usable, init, events, w);
    forall i, j | 0 <= i < j < |w.log| && TooClose(w.log[i], w.log[j])
      ensures w.log[i].end.Cancelled?
    {
      assert Apart(w.log[i], w.log[j]);
    }
  }

  /** In every run, a caller that gets the lock probes if and only if every completed probe of its family ended at
      least a cooldown ago; probes that were cancelled do not hold it back. */
  lemma ProbesUnlessOneCompleted(usable: Interface -> bool, init: State, events: Trace<Event>, w: World, t: nat, w': World)
    requires Reaches(usable, init, events, w) && Usable(usable, init) && Steps(usable, w, Lock(t), w')
    ensures |w'.log| > |w.log| <==>
              forall i :: 0 <= i < |w.log| && w.log[i].family == w.callers[t].family && w.log[i].end.Completed? ==>
                w.log[i].end.at + 2000 <= w.now
  {
    RunKeepsInv(usable, init, events, w);
    var f := w.callers[t].family;
    assert Grounded(w, f);
    forall i | 0 <= i < |w.log| && w.log[i].family == f && w.log[i].end.Completed?
      ensures Last(w, f).Some? && w.log[i].end.at <= Last(w, f).value
    {
      assert Counted(w.log[i], w);
    }
  }

  lemma {:induction false} BindingIsNeverLost(usable: Interface -> bool, init: State, events: Trace<Event>, w: World, f: Family)
    requires Reaches(usable, init, events, w) && Usable(usable, init) && Of(init.direct, f).Some?
    ensures Of(w.state.direct, f).Some?
  {
    match events
    case Start =>
    case Then(front, last) =>
      var v :| Reaches(usable, init, front, v) && Steps(usable, v, last, w);
      RunKeepsInv(usable, init, front, v);
      BindingIsNeverLost(usable, init, front, v, f);
      if last.ProbeEnds? {
        RefreshKeepsBindings(usable, v.state, v.callers[last.caller].family, f, last.route, last.default);
      }
  }

  lemma Extend(usable: Interface -> bool, init: State, events: Trace<Event>, v: World, e: Event, w: World)
    requires Reaches(usable, init, events, v) && Steps(usable, v, e, w)
    ensures Reaches(usable, init, Then(events, e), w)
  {
  }

  function Caught(init: State, now: nat, holder: Option<nat>, callers: map<nat, Caller>, log: seq<Probe>): World {
    World(now, init, None, None, holder, callers, log)
  }

  lemma TwoFail(usable: Interface -> bool, init: State, f: Family, now: nat)
    ensures Reaches(usable, init, Then(Then(Start, Fail(0, f)), Fail(1, f)),
                    Caught(init, now, None, map[0 := Waiting(f), 1 := Waiting(f)], []))
  {
    var w0 := Caught(init, now, None, map[], []);
    var w1 := Caught(init, now, None, map[0 := Waiting(f)], []);
    assert Reaches(usable, init, Start, w0);
    assert Steps(usable, w0, Fail(0, f), w1);
    Extend(usable, init, Start, w0, Fail(0, f), w1);
    var w2 := Caught(init, now, None, map[0 := Waiting(f), 1 := Waiting(f)], []);
    assert w1.callers[1 := Waiting(f)] == w2.callers;
    Extend(usable, init, Then(Start, Fail(0, f)), w1, Fail(1, f), w2);
  }

  lemma FirstProbes(usable: Interface -> bool, init: State, f: Family, now: nat)
    ensures Reaches(usable, init, Then(Then(Then(Start, Fail(0, f)), Fail(1, f)), Lock(0)),
                    Caught(init, now, Some(0), map[0 := Probing(f, 0), 1 := Waiting(f)], [Probe(f, now, Running)]))
  {
    TwoFail(usable, init, f, now);
    var w2 := Caught(init, now, None, map[0 := Waiting(f), 1 := Waiting(f)], []);
    var w3 := Caught(init, now, Some(0), map[0 := Probing(f, 0), 1 := Waiting(f)], [Probe(f, now, Running)]);
    assert w2.callers[0 := Probing(f, 0)] == w3.callers;
    assert Locks(w2, 0, w3);
    Extend(usable, init, Then(Then(Start, Fail(0, f)), Fail(1, f)), w2, Lock(0), w3);
  }

  lemma ProberIsCancelled(usable: Interface -> bool, init: State, f: Family, now: nat) returns (events: Trace<Event>, w: World)
    ensures Reaches(usable, init, events, w)
    ensures w == Caught(init, now, None, map[1 := Waiting(f)], [Probe(f, now, Cancelled(now))])
  {
    FirstProbes(usable, init, f, now);
    events := Then(Then(Then(Start, Fail(0, f)), Fail(1, f)), Lock(0));
    var v := Caught(init, now, Some(0), map[0 := Probing(f, 0), 1 := Waiting(f)], [Probe(f, now, Running)]);
    w := Caught(init, now, None, map[1 := Waiting(f)], [Probe(f, now, Cancelled(now))]);
    assert v.callers - {0} == w.callers;
    assert Ended(v.log, 0, Cancelled(now)) == w.log;
    assert Cancels(v, 0, w);
    Extend(usable, init, events, v, Cancel(0), w);
    events := Then(events, Cancel(0));
  }

  /** "A family is not probed twice within a cooldown" is false: two connections fail, the first prober is cancelled,
      and the second probes at the same instant. */
  lemma CancelledProbeIsRepeated(usable: Interface -> bool, init: State, f: Family, now: nat) returns (events: Trace<Event>, w: World)
    ensures Reaches(usable, init, events, w)
    ensures w.log == [Probe(f, now, Cancelled(now)), Probe(f, now, Running)]
  {
    var v;
    events, v := ProberIsCancelled(usable, init, f, now);
    w := v.(holder := Some(1), callers := map[1 := Probing(f, 1)], log := v.log + [Probe(f, now, Running)]);
    assert v.callers[1 := Probing(f, 1)] == w.callers;
    assert Locks(v, 1, w);
    Extend(usable, init, events, v, Lock(1), w);
    events := Then(events, Lock(1));
  }
}

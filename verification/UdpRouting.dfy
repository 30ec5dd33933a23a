/** Where a TUN datagram goes: DNS proxy, dropped, an existing direct session, blocked QUIC, the proxy relay or a new
    direct session, and what the session's own handler then decides again for itself. */
module UdpRouting {
  import opened Basics
  import opened Cidr
  import opened DirectAccess

  const DNS_PORT: u16 := 53
  const QUIC_PORT: u16 := 443

  datatype QuicPolicy = Allow | Block

  datatype Endpoint = Endpoint(ip: IpAddr, port: u16)

  datatype Packet = Packet(source: Endpoint, target: Endpoint, isDnsQuery: bool)

  datatype Settings = Settings(proxyDns: bool, proxyUdp: bool, quic: QuicPolicy, networks: TunNetworks, checker: Checker)

  datatype Route = Direct | Proxy | Blocked

  datatype Action = ToDns | Dropped | ToSession | Routed(route: Route)

  function ClassifyUdpRoute(port: u16, quic: QuicPolicy, proxyUdp: bool, directMatch: bool): Route {
    if port == QUIC_PORT then
      if quic.Block? then Blocked else if directMatch then Direct else Proxy
    else if !proxyUdp || directMatch then Direct
    else Proxy
  }

  predicate ShouldStartUdpRelay(proxyUdp: bool, quic: QuicPolicy) {
    proxyUdp || !quic.Block?
  }

  predicate ShouldConsultUdpDomainCache(proxyUdp: bool, port: u16) {
    proxyUdp || port == QUIC_PORT
  }

  /** Some cached domain of the target is direct. */
  predicate CacheHit(lib: Library, c: Checker, cached: seq<string>) {
    exists i :: 0 <= i < |cached| && IsDirectDomain(lib, c, cached[i])
  }

  predicate Discarded(n: TunNetworks, source: Endpoint, target: Endpoint)
    requires NetworksOk(n)
  {
    || IsIpv4Broadcast(n, target.ip)
    || (ContainsIp(n, source.ip) && ContainsIp(n, target.ip))
    || ContainsIp(n, target.ip)
  }

  predicate DirectMatch(lib: Library, s: Settings, target: Endpoint, cached: seq<string>) {
    || IsDirect(lib, s.checker, Ip(target.ip))
    || (ShouldConsultUdpDomainCache(s.proxyUdp, target.port)
        && HasDomainDirectRules(s.checker) && CacheHit(lib, s.checker, cached))
  }

  /** The dispatcher, per datagram. */
  function Dispatch(lib: Library, s: Settings, p: Packet, hasSession: bool, cached: seq<string>): Action
    requires NetworksOk(s.networks)
  {
    if s.proxyDns && p.target.port == DNS_PORT && p.isDnsQuery then ToDns
    else if Discarded(s.networks, p.source, p.target) then Dropped
    else if hasSession then ToSession
    else Routed(ClassifyUdpRoute(p.target.port, s.quic, s.proxyUdp, DirectMatch(lib, s, p.target, cached)))
  }

  predicate IsDns(s: Settings, p: Packet) {
    s.proxyDns && p.target.port == 53 && p.isDnsQuery
  }

  /** The handler of a session just made, which looks everything up again. */
  function Handle(lib: Library, s: Settings, source: Endpoint, target: Endpoint, cached: seq<string>): Action
    requires NetworksOk(s.networks)
  {
    var forceDirect := !s.proxyUdp;
    if Discarded(s.networks, source, target) then Dropped
    else
      var direct := forceDirect || IsDirect(lib, s.checker, Ip(target.ip))
        || (HasDomainDirectRules(s.checker) && CacheHit(lib, s.checker, cached));
      if target.port == QUIC_PORT && s.quic.Block? then Routed(Blocked)
      else if direct then Routed(Direct)
      else Routed(Proxy)
  }

  /** The intent: QUIC is blocked when told so; a datagram goes direct when its address or one of its cached names
      is direct, or when it is not QUIC and UDP is not to be proxied; otherwise it is proxied. */
  function Intended(lib: Library, s: Settings, target: Endpoint, cached: seq<string>): Route {
    if target.port == QUIC_PORT && s.quic.Block? then Blocked
    else if IsDirect(lib, s.checker, Ip(target.ip)) || CacheHit(lib, s.checker, cached)
            || (!s.proxyUdp && target.port != QUIC_PORT) then Direct
    else Proxy
  }

  lemma NoHitWithoutDomainRules(lib: Library, c: Checker, cached: seq<string>)
    requires !HasDomainDirectRules(c) && !c.mode.DirectAll?
    ensures !CacheHit(lib, c, cached)
  {
    if CacheHit(lib, c, cached) {
      var i :| 0 <= i < |cached| && IsDirectDomain(lib, c, cached[i]);
      NoDomainRulesNoDirectDomain(lib, c, cached[i]);
    }
  }

  /** Neither shortcut changes where a datagram goes. */
  lemma ShortcutsChangeNothing(lib: Library, s: Settings, p: Packet, cached: seq<string>)
    requires NetworksOk(s.networks) && Dispatch(lib, s, p, false, cached).Routed?
    ensures Dispatch(lib, s, p, false, cached) == Routed(Intended(lib, s, p.target, cached))
  {
    if !HasDomainDirectRules(s.checker) && !s.checker.mode.DirectAll? {
      NoHitWithoutDomainRules(lib, s.checker, cached);
    }
  }

  /** What each outcome means: queries go to the DNS proxy when DNS is proxied, whatever their address; of the rest,
      datagrams for the TUN's own networks or their broadcast are dropped, wherever they come from; of the rest, those of a
      session go to it; and only the others are routed, as intended. */
  lemma DispatchMeans(lib: Library, s: Settings, p: Packet, hasSession: bool, cached: seq<string>)
    requires NetworksOk(s.networks)
    ensures var a := Dispatch(lib, s, p, hasSession, cached);
            var own := ContainsIp(s.networks, p.target.ip) || IsIpv4Broadcast(s.networks, p.target.ip);
            && (a == ToDns <==> IsDns(s, p))
            && (a == Dropped <==> !IsDns(s, p) && own)
            && (a == ToSession <==> !IsDns(s, p) && !own && hasSession)
            && (a.Routed? <==> !IsDns(s, p) && !own && !hasSession)
            && (a.Routed? ==> a.route == Intended(lib, s, p.target, cached))
  {
    if Dispatch(lib, s, p, hasSession, cached).Routed? {
      ShortcutsChangeNothing(lib, s, p, cached);
    }
  }

  /** A session's handler takes the route the dispatcher made it for, unless it hung on a cached name that the
      cache no longer gives. */
  lemma HandlerAgreesIff(lib: Library, s: Settings, p: Packet, earlier: seq<string>, now: seq<string>)
    requires NetworksOk(s.networks) && Dispatch(lib, s, p, false, earlier) == Routed(Direct)
    ensures Handle(lib, s, p.source, p.target, now) in {Routed(Direct), Routed(Proxy)}
    ensures Handle(lib, s, p.source, p.target, now) == Routed(Direct) <==>
              !s.proxyUdp || IsDirect(lib, s.checker, Ip(p.target.ip)) || CacheHit(lib, s.checker, now)
  {
    if !HasDomainDirectRules(s.checker) && !s.checker.mode.DirectAll? {
      NoHitWithoutDomainRules(lib, s.checker, now);
    }
  }

  /** A cached name can be lost between the two looks, and then the flow made for direct traffic is proxied. */
  lemma ExpiredNameIsProxied(lib: Library, s: Settings, p: Packet, earlier: seq<string>)
    requires NetworksOk(s.networks) && Dispatch(lib, s, p, false, earlier) == Routed(Direct)
    requires s.proxyUdp && !IsDirect(lib, s.checker, Ip(p.target.ip))
    ensures CacheHit(lib, s.checker, earlier) && Handle(lib, s, p.source, p.target, []) == Routed(Proxy)
  {
  }

  lemma ProxyHasRelay(lib: Library, s: Settings, p: Packet, hasSession: bool, cached: seq<string>)
    requires NetworksOk(s.networks)
    ensures Dispatch(lib, s, p, hasSession, cached) == Routed(Proxy) ==> ShouldStartUdpRelay(s.proxyUdp, s.quic)
    ensures ShouldStartUdpRelay(s.proxyUdp, s.quic) <==> exists port, hit :: ClassifyUdpRoute(port, s.quic, s.proxyUdp, hit).Proxy?
  {
    if s.proxyUdp {
      assert ClassifyUdpRoute(0, s.quic, s.proxyUdp, false).Proxy?;
    } else if !s.quic.Block? {
      assert ClassifyUdpRoute(QUIC_PORT, s.quic, s.proxyUdp, false).Proxy?;
    }
  }

  /** In rules mode, an address no IP rule names and whose cached names are all force-proxied is never matched as
      direct. */
  lemma ForceProxiedStaysProxied(lib: Library, s: Settings, target: Endpoint, cached: seq<string>)
    requires Lawful(lib) && s.checker.mode.Rules? && !AnyIp(s.checker.rules, target.ip)
    requires forall i :: 0 <= i < |cached| ==> ForceProxy(Normalize(lib, cached[i]))
    ensures Intended(lib, s, target, cached) == Direct <==> !s.proxyUdp && target.port != QUIC_PORT
  {
    forall i | 0 <= i < |cached| ensures !IsDirectDomain(lib, s.checker, cached[i]) {
      ForceProxiedIsNeverDirect(lib, s.checker, cached[i]);
    }
  }

  // ----- Whole runs of the dispatcher and its sessions -----

  datatype Key = Key(source: Endpoint, target: Endpoint)

  /** A session's handler looks once where its datagrams go, then sends on what is queued. */
  datatype Session = Session(queued: nat, route: Option<Action>)

  datatype Event =
    | Arrives(packet: Packet, cached: seq<string>, full: bool)
    | Handles(key: Key, cached: seq<string>)
    | SendsOn(key: Key)
    | SessionEnds(key: Key)

  /** What has left: directly, through the shared relay, and through a session's own proxy stream. */
  datatype World = World(sessions: map<Key, Session>, direct: seq<Key>, relayed: seq<Key>, streamed: seq<Key>)

  /** The dispatcher queues for a session, starts one, hands to the relay, or drops. */
  function Acted(w: World, p: Packet, a: Action, full: bool): World {
    var key := Key(p.source, p.target);
    match a
    case ToSession =>
      if full || key !in w.sessions then w
      else w.(sessions := w.sessions[key := w.sessions[key].(queued := w.sessions[key].queued + 1)])
    case Routed(Direct) => w.(sessions := w.sessions[key := Session(1, None)])
    case Routed(Proxy) => w.(relayed := w.relayed + [key])
    case _ => w
  }

  function Sent(w: World, key: Key): World
    requires key in w.sessions
  {
    var x := w.sessions[key];
    if x.queued == 0 then w
    else
      var w' := w.(sessions := w.sessions[key := x.(queued := x.queued - 1)]);
      match x.route
      case Some(Routed(Direct)) => w'.(direct := w.direct + [key])
      case Some(Routed(Proxy)) => w'.(streamed := w.streamed + [key])
      case Some(_) => w'
      case None => w
  }

  function Step(lib: Library, s: Settings, w: World, e: Event): World
    requires NetworksOk(s.networks)
  {
    match e
    case Arrives(p, cached, full) =>
      Acted(w, p, Dispatch(lib, s, p, Key(p.source, p.target) in w.sessions, cached), full)
    case Handles(key, cached) =>
      if key in w.sessions && w.sessions[key].route.None? then
        w.(sessions := w.sessions[key := w.sessions[key].(route := Some(Handle(lib, s, key.source, key.target, cached)))])
      else w
    case SendsOn(key) => if key in w.sessions then Sent(w, key) else w
    case SessionEnds(key) => w.(sessions := w.sessions - {key})
  }

  function Run(lib: Library, s: Settings, events: Trace<Event>): World
    requires NetworksOk(s.networks)
  {
    match events
    case Start => World(map[], [], [], [])
    case Then(front, last) => Step(lib, s, Run(lib, s, front), last)
  }

  class UdpDispatcher {
    var sessions: set<Key>

    constructor ()
      ensures sessions == {}
    {
      sessions := {};
    }

    /** One datagram: the checks in the dispatch loop's order. */
    method Arrive(lib: Library, s: Settings, p: Packet, cached: seq<string>) returns (action: Action)
      requires NetworksOk(s.networks)
      modifies this
      ensures action == Dispatch(lib, s, p, Key(p.source, p.target) in old(sessions), cached)
      ensures sessions == old(sessions) + if action == Routed(Direct) then {Key(p.source, p.target)} else {}
    {
      if s.proxyDns && p.target.port == DNS_PORT && p.isDnsQuery {
        return ToDns;
      }
      if IsIpv4Broadcast(s.networks, p.target.ip) {
        return Dropped;
      }
      if ContainsIp(s.networks, p.source.ip) && ContainsIp(s.networks, p.target.ip) {
        return Dropped;
      }
      if ContainsIp(s.networks, p.target.ip) {
        return Dropped;
      }
      var key := Key(p.source, p.target);
      if key in sessions {
        return ToSession;
      }
      var directMatch := IsDirect(lib, s.checker, Ip(p.target.ip));
      if !directMatch && ShouldConsultUdpDomainCache(s.proxyUdp, p.target.port) {
        if HasDomainDirectRules(s.checker) && CacheHit(lib, s.checker, cached) {
          directMatch := true;
        }
      }
      action := Routed(ClassifyUdpRoute(p.target.port, s.quic, s.proxyUdp, directMatch));
      if action == Routed(Direct) {
        sessions := sessions + {key};
      }
    }

    method SessionEnds(key: Key)
      modifies this
      ensures sessions == old(sessions) - {key}
    {
      sessions := sessions - {key};
    }
  }

  ghost predicate MayLeave(s: Settings, target: Endpoint)
    requires NetworksOk(s.networks)
  {
    && !ContainsIp(s.networks, target.ip) && !IsIpv4Broadcast(s.networks, target.ip)
    && (target.port == QUIC_PORT ==> s.quic.Allow?)
  }

  /** A handler proxies only where UDP is proxied and the address alone is not direct. */
  predicate MayStream(lib: Library, s: Settings, target: Endpoint) {
    s.proxyUdp && !IsDirect(lib, s.checker, Ip(target.ip))
  }

  ghost predicate SessionOk(lib: Library, s: Settings, key: Key, x: Session)
    requires NetworksOk(s.networks)
  {
    && MayLeave(s, key.target)
    && (x.route.Some? ==>
          x.route.value == Routed(Direct) || (x.route.value == Routed(Proxy) && MayStream(lib, s, key.target)))
  }

  ghost predicate AllMayLeave(lib: Library, s: Settings, w: World)
    requires NetworksOk(s.networks)
  {
    && (forall k :: k in w.sessions ==> SessionOk(lib, s, k, w.sessions[k]))
    && (forall k :: k in w.direct || k in w.relayed || k in w.streamed ==> MayLeave(s, k.target))
    && (forall k :: k in w.streamed ==> MayStream(lib, s, k.target))
    && (w.relayed != [] ==> ShouldStartUdpRelay(s.proxyUdp, s.quic))
  }

  lemma DispatchedMayLeave(lib: Library, s: Settings, p: Packet, hasSession: bool, cached: seq<string>)
    requires NetworksOk(s.networks)
    ensures Dispatch(lib, s, p, hasSession, cached) in {Routed(Direct), Routed(Proxy)} ==> MayLeave(s, p.target)
    ensures Dispatch(lib, s, p, hasSession, cached) == Routed(Proxy) ==> ShouldStartUdpRelay(s.proxyUdp, s.quic)
  {
  }

  lemma ActedMayLeave(lib: Library, s: Settings, w: World, p: Packet, a: Action, full: bool)
    requires NetworksOk(s.networks) && AllMayLeave(lib, s, w)
    requires a in {Routed(Direct), Routed(Proxy)} ==> MayLeave(s, p.target)
    requires a == Routed(Proxy) ==> ShouldStartUdpRelay(s.proxyUdp, s.quic)
    ensures AllMayLeave(lib, s, Acted(w, p, a, full))
  {
  }

  /** What may leave is never dropped or blocked by its own handler. */
  lemma HandledMayLeave(lib: Library, s: Settings, key: Key, cached: seq<string>)
    requires NetworksOk(s.networks) && MayLeave(s, key.target)
    ensures SessionOk(lib, s, key, Session(0, Some(Handle(lib, s, key.source, key.target, cached))))
  {
  }

  lemma SentMayLeave(lib: Library, s: Settings, w: World, key: Key)
    requires NetworksOk(s.networks) && AllMayLeave(lib, s, w) && key in w.sessions
    ensures AllMayLeave(lib, s, Sent(w, key))
  {
    assert SessionOk(lib, s, key, w.sessions[key]);
  }

  /** In every run of the dispatcher and of the sessions it starts, nothing addressed to the TUN's own networks or their
      broadcast leaves, by the relay, a session or a session's own proxy stream, and with QUIC blocked no UDP/443 leaves
      at all. No handler drops or blocks what it was started for, and it proxies only where UDP is proxied and the
      address alone is not direct. Nothing is relayed without a relay. */
  lemma {:induction false} OnlyAllowedLeaves(lib: Library, s: Settings, events: Trace<Event>)
    requires NetworksOk(s.networks)
    ensures AllMayLeave(lib, s, Run(lib, s, events))
  {
    match events
    case Start =>
    case Then(front, last) =>
      OnlyAllowedLeaves(lib, s, front);
      var w := Run(lib, s, front);
      match last
      case Arrives(p, cached, full) =>
        var hasSession := Key(p.source, p.target) in w.sessions;
        DispatchedMayLeave(lib, s, p, hasSession, cached);
        ActedMayLeave(lib, s, w, p, Dispatch(lib, s, p, hasSession, cached), full);
      case Handles(key, cached) =>
        if key in w.sessions {
          assert SessionOk(lib, s, key, w.sessions[key]);
          HandledMayLeave(lib, s, key, cached);
        }
      case SendsOn(key) =>
        if key in w.sessions {
          SentMayLeave(lib, s, w, key);
        }
      case SessionEnds(_) =>
  }

  // ----- Nothing is made up, and nothing is lost but where a datagram is dropped -----

  /** The event is the arrival of a datagram of the flow. */
  predicate IsOf(e: Event, key: Key) {
    e.Arrives? && Key(e.packet.source, e.packet.target) == key
  }

  function Arrivals(events: Trace<Event>, key: Key): nat {
    match events
    case Start => 0
    case Then(front, last) => Arrivals(front, key) + if IsOf(last, key) then 1 else 0
  }

  function Queued(sessions: map<Key, Session>, key: Key): nat {
    if key in sessions then sessions[key].queued else 0
  }

  /** How often the flow's datagrams are among those sent. */
  function Times(sent: seq<Key>, key: Key): nat {
    multiset(sent)[key]
  }

  lemma OneMoreTime(sent: seq<Key>, k: Key, key: Key)
    ensures Times(sent + [k], key) == Times(sent, key) + if k == key then 1 else 0
  {
  }

  function Left(w: World, key: Key): nat {
    Times(w.direct, key) + Times(w.relayed, key) + Times(w.streamed, key)
  }

  /** A flow's datagrams that have left, by any way, or wait in its session. */
  function Accounted(w: World, key: Key): nat {
    Left(w, key) + Queued(w.sessions, key)
  }

  /** The event drops no datagram of the flow: it meets no full queue, is no query for the DNS proxy, and does not end the
      flow's session. */
  predicate DropsNone(s: Settings, e: Event, key: Key) {
    (IsOf(e, key) ==> !e.full && !IsDns(s, e.packet)) && e != SessionEnds(key)
  }

  predicate NoneDropped(s: Settings, events: Trace<Event>, key: Key) {
    match events
    case Start => true
    case Then(front, last) => NoneDropped(s, front, key) && DropsNone(s, last, key)
  }

  lemma ActedAccounts(w: World, p: Packet, a: Action, full: bool, key: Key)
    requires a == Routed(Direct) ==> Key(p.source, p.target) !in w.sessions
    ensures var more := Accounted(Acted(w, p, a, full), key) - Accounted(w, key);
            && 0 <= more <= 1 && (more == 1 ==> Key(p.source, p.target) == key)
            && (Key(p.source, p.target) == key && !full && (a == ToSession ==> key in w.sessions)
                && a in {ToSession, Routed(Direct), Routed(Proxy)} ==>
                more == 1)
  {
    OneMoreTime(w.relayed, Key(p.source, p.target), key);
  }

  predicate PassesOn(route: Option<Action>) {
    route.Some? ==> route.value == Routed(Direct) || route.value == Routed(Proxy)
  }

  lemma SentQueued(w: World, from: Key, key: Key)
    requires from in w.sessions
    ensures var x := w.sessions[from];
            Queued(Sent(w, from).sessions, key) + (if from == key && x.queued > 0 && x.route.Some? then 1 else 0)
            == Queued(w.sessions, key)
  {
  }

  lemma SentLeft(w: World, from: Key, key: Key)
    requires from in w.sessions
    ensures var x := w.sessions[from];
            Left(Sent(w, from), key) == Left(w, key)
              + if from == key && x.queued > 0 && x.route.Some? && PassesOn(x.route) then 1 else 0
  {
    OneMoreTime(w.direct, from, key);
    OneMoreTime(w.streamed, from, key);
  }

  lemma SentAccounts(w: World, from: Key, key: Key)
    requires from in w.sessions
    ensures Accounted(Sent(w, from), key) <= Accounted(w, key)
    ensures PassesOn(w.sessions[from].route) ==> Accounted(Sent(w, from), key) == Accounted(w, key)
  {
    SentQueued(w, from, key);
    SentLeft(w, from, key);
  }

  lemma ArrivalAccounts(lib: Library, s: Settings, w: World, p: Packet, cached: seq<string>, full: bool, key: Key)
    requires NetworksOk(s.networks)
    ensures var more := Accounted(Step(lib, s, w, Arrives(p, cached, full)), key) - Accounted(w, key);
            && more <= (if Key(p.source, p.target) == key then 1 else 0)
            && (MayLeave(s, key.target) && DropsNone(s, Arrives(p, cached, full), key) ==>
                  more == if Key(p.source, p.target) == key then 1 else 0)
  {
    var hasSession := Key(p.source, p.target) in w.sessions;
    DispatchMeans(lib, s, p, hasSession, cached);
    ActedAccounts(w, p, Dispatch(lib, s, p, hasSession, cached), full, key);
  }

  /** An event adds no more than what it brings, and all it brings unless it drops it. */
  ghost predicate Adds(w: World, w': World, key: Key, arrives: bool, all: bool) {
    var more := Accounted(w', key) - Accounted(w, key);
    more <= (if arrives then 1 else 0) && (all ==> more == if arrives then 1 else 0)
  }

  lemma StepAccounts(lib: Library, s: Settings, w: World, e: Event, key: Key)
    requires NetworksOk(s.networks) && AllMayLeave(lib, s, w)
    ensures Adds(w, Step(lib, s, w, e), key, IsOf(e, key), MayLeave(s, key.target) && DropsNone(s, e, key))
  {
    match e
    case Arrives(p, cached, full) => ArrivalAccounts(lib, s, w, p, cached, full, key);
    case Handles(_, _) =>
    case SendsOn(from) =>
      if from in w.sessions {
        assert SessionOk(lib, s, from, w.sessions[from]);
        SentAccounts(w, from, key);
      }
    case SessionEnds(_) =>
  }

  lemma NothingForbidden(lib: Library, s: Settings, w: World, key: Key)
    requires NetworksOk(s.networks) && AllMayLeave(lib, s, w) && !MayLeave(s, key.target)
    ensures Accounted(w, key) == 0
  {
    assert key !in w.direct && key !in w.relayed && key !in w.streamed;
    assert key in w.sessions ==> SessionOk(lib, s, key, w.sessions[key]);
  }

  /** In every run and for every flow: what has left directly, by the relay or by a session's stream, together with what
      waits in its session, never exceeds what arrived, and is exactly what arrived if the flow may leave and nothing in
      the run dropped a datagram of it. Of a flow that may not leave, nothing has left and nothing waits. */
  lemma {:induction false} DatagramsAreConserved(lib: Library, s: Settings, events: Trace<Event>, key: Key)
    requires NetworksOk(s.networks)
    ensures Accounted(Run(lib, s, events), key) <= Arrivals(events, key)
    ensures MayLeave(s, key.target) && NoneDropped(s, events, key) ==>
              Accounted(Run(lib, s, events), key) == Arrivals(events, key)
    ensures !MayLeave(s, key.target) ==> Accounted(Run(lib, s, events), key) == 0
  {
    match events
    case Start =>
    case Then(front, last) =>
      var w, w' := Run(lib, s, front), Run(lib, s, events);
      DatagramsAreConserved(lib, s, front, key);
      assert AllMayLeave(lib, s, w) by { OnlyAllowedLeaves(lib, s, front); }
      assert Adds(w, w', key, IsOf(last, key), MayLeave(s, key.target) && DropsNone(s, last, key)) by {
        StepAccounts(lib, s, w, last, key);
      }
      if !MayLeave(s, key.target) {
        OnlyAllowedLeaves(lib, s, events);
        NothingForbidden(lib, s, w', key);
      }
  }
}

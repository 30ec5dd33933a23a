/** The native UDP client session: streams put commands on one bounded queue, a driver turns them into
    session messages, and the proxy may send anything at any time. */
module UdpSession {
  import opened Basics

  datatype Address = Address(text: bytes, port: u16)

  datatype Command = Register | OpenData(address: Address, data: bytes) | Data(data: bytes) | Close

  datatype Queued = Queued(flow: u64, command: Command)

  datatype Message =
    | OpenDataMsg(flow: u64, address: Address, data: bytes)
    | DataMsg(flow: u64, data: bytes)
    | CloseMsg(flow: u64)
    | Ping(token: u64)
    | Pong(token: u64)

  /** What the proxy may say. */
  datatype Incoming =
    | ConnectResponse(flow: u64, success: bool)
    | ProxyData(flow: u64)
    | ProxyClose(flow: u64)
    | ProxyPing(token: u64)
    | Ignored

  /** How a stream's inbound queue takes a datagram. */
  datatype Inbound = Accepted | Full | Gone

  // ----- The driver -----

  function OnCommand(streams: set<u64>, q: Queued): (set<u64>, Option<Message>) {
    match q.command
    case Register => (streams + {q.flow}, None)
    case OpenData(a, d) => (streams, if q.flow in streams then Some(OpenDataMsg(q.flow, a, d)) else None)
    case Data(d) => (streams, if q.flow in streams then Some(DataMsg(q.flow, d)) else None)
    case Close => (streams - {q.flow}, Some(CloseMsg(q.flow)))
  }

  function OnIncoming(streams: set<u64>, m: Incoming, inbound: Inbound): (set<u64>, Option<Message>) {
    match m
    case ConnectResponse(f, success) => (if success then streams else streams - {f}, None)
    case ProxyData(f) => (if inbound.Gone? then streams - {f} else streams, None)
    case ProxyClose(f) => (streams - {f}, None)
    case ProxyPing(token) => (streams, Some(Pong(token)))
    case Ignored => (streams, None)
  }

  /** What the proxy can do to a registration: end one it names, by refusing, closing or finding the stream gone. It can
      never make one, nor touch another. */
  lemma ProxyOnlyDeregisters(streams: set<u64>, m: Incoming, inbound: Inbound, f: u64)
    ensures f in OnIncoming(streams, m, inbound).0 <==>
              && f in streams
              && !(m == ConnectResponse(f, false) || m == ProxyClose(f) || (m == ProxyData(f) && inbound.Gone?))
    ensures OnIncoming(streams, m, inbound).1 == if m.ProxyPing? then Some(Pong(m.token)) else None
  {
  }

  class SessionDriver {
    var streams: set<u64>
    var pingToken: u64

    constructor ()
      ensures streams == {} && pingToken == 0
    {
      streams, pingToken := {}, 0;
    }

    method HandleCommand(q: Queued) returns (message: Option<Message>)
      modifies this`streams
      ensures (streams, message) == OnCommand(old(streams), q)
    {
      message := None;
      match q.command
      case Register =>
        streams := streams + {q.flow};
      case OpenData(address, data) =>
        if q.flow in streams {
          message := Some(OpenDataMsg(q.flow, address, data));
        }
      case Data(data) =>
        if q.flow in streams {
          message := Some(DataMsg(q.flow, data));
        }
      case Close =>
        streams := streams - {q.flow};
        message := Some(CloseMsg(q.flow));
    }

    method HandleIncoming(m: Incoming, inbound: Inbound) returns (message: Option<Message>)
      modifies this`streams
      ensures (streams, message) == OnIncoming(old(streams), m, inbound)
    {
      message := None;
      match m
      case ConnectResponse(flow, success) =>
        if !success {
          streams := streams - {flow};
        }
      case ProxyData(flow) =>
        if flow in streams {
          if inbound.Gone? {
            streams := streams - {flow};
          }
        } else {
          assert streams - {flow} == streams;
        }
      case ProxyClose(flow) =>
        streams := streams - {flow};
      case ProxyPing(token) =>
        message := Some(Pong(token));
      case Ignored =>
    }

    method HandleTick() returns (message: Message)
      modifies this`pingToken
      ensures message == Ping(old(pingToken)) && pingToken == (old(pingToken) + 1) % U64_SIZE
    {
      message := Ping(pingToken);
      pingToken := (pingToken + 1) % U64_SIZE;
    }
  }

  // ----- The writing side of one stream -----

  datatype Client = Client(open: Option<Address>, closeSent: bool)

  /** Whether the command queue has room, is full, or is gone. */
  datatype Slot = Free | Busy | Lost

  datatype Poll = Wrote(count: nat) | Pending | NotConnected

  function OnWrite(c: Client, data: bytes, slot: Slot): (Client, Option<Command>) {
    if data == [] || !slot.Free? then (c, None)
    else
      (c.(open := None),
       match c.open case Some(a) => Some(OpenData(a, data)) case None => Some(Data(data)))
  }

  function OnShutdown(c: Client, slot: Slot): (Client, Option<Command>) {
    if c.closeSent || slot.Busy? then (c, None)
    else (c.(closeSent := true), if slot.Free? then Some(Close) else None)
  }

  function OnDrop(c: Client, slot: Slot): Option<Command> {
    if !c.closeSent && slot.Free? then Some(Close) else None
  }

  class StreamWriter {
    var openAddress: Option<Address>
    var closeSent: bool

    function View(): Client
      reads this
    {
      Client(openAddress, closeSent)
    }

    constructor (address: Address)
      ensures View() == Client(Some(address), false)
    {
      openAddress, closeSent := Some(address), false;
    }

    /** All of the datagram is accepted or none of it. */
    method PollWrite(data: bytes, slot: Slot) returns (command: Option<Command>, poll: Poll)
      modifies this
      ensures (View(), command) == OnWrite(old(View()), data, slot)
      ensures poll == if data == [] || slot.Free? then Wrote(|data|) else if slot.Busy? then Pending else NotConnected
    {
      if data == [] {
        return None, Wrote(0);
      }
      match slot {
        case Free =>
          match openAddress {
            case Some(address) => command := Some(OpenData(address, data));
            case None => command := Some(Data(data));
          }
          openAddress := None;
          poll := Wrote(|data|);
        case Lost =>
          command, poll := None, NotConnected;
        case Busy =>
          command, poll := None, Pending;
      }
    }

    /** Dropping the stream announces its end, if the queue has room. */
    method Drop(slot: Slot) returns (command: Option<Command>)
      ensures command == OnDrop(View(), slot)
    {
      if closeSent {
        return None;
      }
      command := if slot.Free? then Some(Close) else None;
    }

    method PollShutdown(slot: Slot) returns (command: Option<Command>)
      modifies this
      ensures (View(), command) == OnShutdown(old(View()), slot)
    {
      if closeSent {
        return None;
      }
      match slot {
        case Free =>
          command := Some(Close);
          closeSent := true;
        case Lost =>
          command := None;
          closeSent := true;
        case Busy =>
          command := None;
      }
    }
  }

  // ----- The whole session -----

  /** All commands ever queued for a flow, how many the driver has taken, and how many of those it took
      while the flow was registered. */
  datatype Flow = Flow(commands: seq<Command>, taken: nat, served: nat)

  /** The draws from the id counter: how many were made, how many callers have seen the session open and not drawn
      yet, whether it was closed for want of ids, and how many such callers there were at that moment. */
  datatype Draws = Draws(fetched: nat, passed: nat, closed: bool, late: Option<nat>)

  datatype World = World(
    first: u64, draws: Draws, connecting: set<u64>, clients: map<u64, Client>, flows: map<u64, Flow>,
    queue: seq<Queued>, streams: set<u64>, emitted: seq<Message>, running: bool)

  datatype Event =
    | Check
    | Fetch
    | Connect(flow: u64, address: Address, sent: bool)
    | Write(flow: u64, data: bytes, slot: Slot)
    | Shutdown(flow: u64, slot: Slot)
    | DropStream(flow: u64, slot: Slot)
    | Take(delivered: bool)
    | Hear(message: Incoming, inbound: Inbound, delivered: bool)
    | Tick(timedOut: bool, delivered: bool, token: u64)

  /** The `n`-th id that the atomic counter hands out. */
  function FlowId(first: u64, n: nat): u64 {
    (first + n) % U64_SIZE
  }

  function Enqueue(w: World, flow: u64, command: Option<Command>): World
    requires flow in w.flows
  {
    match command
    case None => w
    case Some(c) =>
      var f := w.flows[flow];
      w.(queue := w.queue + [Queued(flow, c)], flows := w.flows[flow := f.(commands := f.commands + [c])])
  }

  /** The driver moves on to `next`, sending its message; when it cannot, it stops where it was. */
  function Drive(w: World, next: World, message: Option<Message>, delivered: bool): World {
    match message
    case None => next
    case Some(m) => if delivered then next.(emitted := w.emitted + [m]) else w.(running := false)
  }

  function TakeOne(f: Flow, registered: bool): Flow {
    Flow(f.commands, f.taken + 1, if registered then f.taken + 1 else f.served)
  }

  /** A caller finds the session open; from here to its draw nothing holds it back. */
  ghost predicate Checks(w: World, w': World) {
    w.running && !w.draws.closed && w' == w.(draws := w.draws.(passed := w.draws.passed + 1))
  }

  /** The last id is never issued: drawing it closes the session instead. */
  function Draw(first: u64, d: Draws): Draws
    requires d.passed > 0
  {
    if FlowId(first, d.fetched) == U64_MAX then
      Draws(d.fetched + 1, d.passed - 1, true, if d.late.Some? then d.late else Some(d.passed - 1))
    else d.(fetched := d.fetched + 1, passed := d.passed - 1)
  }

  ghost predicate Fetches(w: World, w': World) {
    && w.draws.passed > 0
    && var id := FlowId(w.first, w.draws.fetched);
       w' == w.(draws := Draw(w.first, w.draws), connecting := if id == U64_MAX then w.connecting else w.connecting + {id})
  }

  ghost predicate Connects(w: World, flow: u64, address: Address, sent: bool, w': World) {
    && flow in w.connecting && (sent ==> w.running)
    && w' == if sent then
               w.(connecting := w.connecting - {flow}, clients := w.clients[flow := Client(Some(address), false)],
                  queue := w.queue + [Queued(flow, Register)], flows := w.flows[flow := Flow([Register], 0, 0)])
             else w.(connecting := w.connecting - {flow})
  }

  ghost predicate Usable(w: World, flow: u64, slot: Slot) {
    flow in w.clients && flow in w.flows && (slot.Free? ==> w.running)
  }

  ghost predicate Writes(w: World, flow: u64, data: bytes, slot: Slot, w': World) {
    && Usable(w, flow, slot)
    && var (c, command) := OnWrite(w.clients[flow], data, slot);
       w' == Enqueue(w, flow, command).(clients := w.clients[flow := c])
  }

  ghost predicate Shuts(w: World, flow: u64, slot: Slot, w': World) {
    && Usable(w, flow, slot)
    && var (c, command) := OnShutdown(w.clients[flow], slot);
       w' == Enqueue(w, flow, command).(clients := w.clients[flow := c])
  }

  ghost predicate Drops(w: World, flow: u64, slot: Slot, w': World) {
    && Usable(w, flow, slot)
    && w' == Enqueue(w, flow, OnDrop(w.clients[flow], slot)).(clients := w.clients - {flow})
  }

  ghost predicate Takes(w: World, delivered: bool, w': World) {
    && w.running && w.queue != [] && w.queue[0].flow in w.flows
    && var q := w.queue[0];
       var (streams, message) := OnCommand(w.streams, q);
       w' == Drive(w, w.(queue := w.queue[1..], streams := streams,
                         flows := w.flows[q.flow := TakeOne(w.flows[q.flow], q.flow in streams)]),
                   message, delivered)
  }

  ghost predicate Hears(w: World, m: Incoming, inbound: Inbound, delivered: bool, w': World) {
    && w.running
    && var (streams, message) := OnIncoming(w.streams, m, inbound);
       w' == Drive(w, w.(streams := streams), message, delivered)
  }

  ghost predicate Ticks(w: World, timedOut: bool, delivered: bool, token: u64, w': World) {
    w.running && w' == if timedOut then w.(running := false) else Drive(w, w, Some(Ping(token)), delivered)
  }

  ghost predicate Steps(w: World, e: Event, w': World) {
    match e
    case Check => Checks(w, w')
    case Fetch => Fetches(w, w')
    case Connect(flow, address, sent) => Connects(w, flow, address, sent, w')
    case Write(flow, data, slot) => Writes(w, flow, data, slot, w')
    case Shutdown(flow, slot) => Shuts(w, flow, slot, w')
    case DropStream(flow, slot) => Drops(w, flow, slot, w')
    case Take(delivered) => Takes(w, delivered, w')
    case Hear(m, inbound, delivered) => Hears(w, m, inbound, delivered, w')
    case Tick(timedOut, delivered, token) => Ticks(w, timedOut, delivered, token, w')
  }

  ghost predicate Continues(v: World, events: Trace<Event>, w: World) {
    match events
    case Start => w == v
    case Then(front, last) => exists u :: Continues(v, front, u) && Steps(u, last, w)
  }

  function Init(first: u64): World {
    World(first, Draws(0, 0, false, None), {}, map[], map[], [], {}, [], true)
  }

  /** The counter starts at a random nonzero id. */
  ghost predicate Reaches(first: u64, events: Trace<Event>, w: World) {
    1 <= first && Continues(Init(first), events, w)
  }

  // ----- One flow at a time -----

  function Queue(queue: seq<Queued>, f: u64): seq<Command> {
    if queue == [] then []
    else Queue(queue[..|queue| - 1], f) + (if queue[|queue| - 1].flow == f then [queue[|queue| - 1].command] else [])
  }

  predicate Concerns(m: Message, f: u64) {
    (m.OpenDataMsg? || m.DataMsg? || m.CloseMsg?) && m.flow == f
  }

  function Emitted(messages: seq<Message>, f: u64): seq<Message> {
    if messages == [] then []
    else Emitted(messages[..|messages| - 1], f) + (if Concerns(messages[|messages| - 1], f) then [messages[|messages| - 1]] else [])
  }

  /** What taking `c` from the queue makes the driver say about the flow. */
  function Said(f: u64, c: Command, registered: bool): seq<Message> {
    match c
    case Register => []
    case OpenData(a, d) => if registered then [OpenDataMsg(f, a, d)] else []
    case Data(d) => if registered then [DataMsg(f, d)] else []
    case Close => [CloseMsg(f)]
  }

  /** The messages that commands turn into while their flow is registered; Close is accounted for apart. */
  function Served(commands: seq<Command>, f: u64): seq<Message> {
    if commands == [] then []
    else
      Served(commands[..|commands| - 1], f)
      + (if commands[|commands| - 1].Close? then [] else Said(f, commands[|commands| - 1], true))
  }

  /** How far a flow's commands have got: registration first, one OpenData before any Data, at most one Close. */
  datatype Phase = Unregistered | Going(wasOpened: bool, closed: bool) | Wrong

  function After(p: Phase, c: Command): Phase {
    match p
    case Unregistered => if c.Register? then Going(false, false) else Wrong
    case Wrong => Wrong
    case Going(o, closed) =>
      match c
      case Register => Wrong
      case OpenData(_, _) => if o then Wrong else Going(true, closed)
      case Data(_) => if o then p else Wrong
      case Close => if closed then Wrong else Going(o, true)
  }

  function PhaseOf(commands: seq<Command>): Phase {
    if commands == [] then Unregistered else After(PhaseOf(commands[..|commands| - 1]), commands[|commands| - 1])
  }

  predicate CommandsOk(commands: seq<Command>) {
    PhaseOf(commands).Going?
  }

  predicate ClientOk(commands: seq<Command>, c: Client) {
    && PhaseOf(commands).Going? && (PhaseOf(commands).wasOpened <==> c.open.None?)
    && (PhaseOf(commands).closed ==> c.closeSent)
  }

  /** What was said about a flow: the commands served while it was registered, then Close if that was taken. */
  ghost predicate Ledger(f: u64, x: Flow, queued: seq<Command>, registered: bool, emitted: seq<Message>) {
    && x.served <= x.taken <= |x.commands|
    && queued == x.commands[x.taken..]
    && Close !in x.commands[..x.served]
    && (registered ==> x.served == x.taken >= 1)
    && emitted == Served(x.commands[..x.served], f) + (if Close in x.commands[..x.taken] then [CloseMsg(f)] else [])
  }

  ghost predicate FlowOk(f: u64, x: Flow, queued: seq<Command>, registered: bool, emitted: seq<Message>) {
    CommandsOk(x.commands) && Ledger(f, x, queued, registered, emitted)
  }

  ghost predicate ViewOk(w: World, f: u64) {
    if f in w.flows then
      && FlowOk(f, w.flows[f], Queue(w.queue, f), f in w.streams, Emitted(w.emitted, f))
      && (f in w.clients ==> ClientOk(w.flows[f].commands, w.clients[f]))
    else f !in w.streams && f !in w.clients && Queue(w.queue, f) == [] && Emitted(w.emitted, f) == []
  }

  ghost predicate Drawn(w: World, f: u64) {
    exists n: nat :: n < w.draws.fetched && f == FlowId(w.first, n)
  }

  /** Until the last id is drawn the counter has not wrapped; afterwards only the callers that were already past the
      check can draw. */
  predicate DrawsOk(first: u64, d: Draws) {
    match d.late
    case None => d.fetched <= U64_MAX - first
    case Some(late) => d.closed && d.fetched >= U64_SIZE - first && d.fetched + d.passed == U64_SIZE - first + late
  }

  /** When the last id was drawn, more callers than `first` were between the check and their draw. */
  predicate Raced(w: World) {
    w.draws.late.Some? && w.draws.late.value > w.first
  }

  ghost predicate Inv(w: World) {
    && (forall f: u64 :: ViewOk(w, f))
    && (forall f: u64 :: f in w.flows || f in w.connecting ==> Drawn(w, f))
    && (forall f: u64 :: f in w.flows ==> f !in w.connecting)
    && DrawsOk(w.first, w.draws)
  }

  // ----- Each step, seen by one flow -----

  lemma {:induction false} QueueAppend(queue: seq<Queued>, q: Queued, f: u64)
    ensures Queue(queue + [q], f) == Queue(queue, f) + (if q.flow == f then [q.command] else [])
  {
    assert (queue + [q])[..|queue|] == queue;
  }

  lemma {:induction false} QueuePop(queue: seq<Queued>, f: u64)
    requires queue != []
    ensures Queue(queue, f) == (if queue[0].flow == f then [queue[0].command] else []) + Queue(queue[1..], f)
  {
    var n := |queue| - 1;
    if n > 0 {
      QueuePop(queue[..n], f);
      assert queue[1..][..n - 1] == queue[..n][1..];
    }
  }

  lemma EmittedAppend(messages: seq<Message>, m: Message, f: u64)
    ensures Emitted(messages + [m], f) == Emitted(messages, f) + (if Concerns(m, f) then [m] else [])
  {
    assert (messages + [m])[..|messages|] == messages;
  }

  lemma ServedAppend(commands: seq<Command>, c: Command, f: u64)
    ensures Served(commands + [c], f) == Served(commands, f) + (if c.Close? then [] else Said(f, c, true))
  {
    assert (commands + [c])[..|commands|] == commands;
  }

  lemma PhaseAppend(commands: seq<Command>, c: Command)
    ensures PhaseOf(commands + [c]) == After(PhaseOf(commands), c)
  {
    assert (commands + [c])[..|commands|] == commands;
  }

  lemma WriteKeepsClient(commands: seq<Command>, c: Client, data: bytes, slot: Slot)
    requires ClientOk(commands, c) && data != [] && slot.Free?
    ensures OnWrite(c, data, slot).1.Some?
    ensures ClientOk(commands + [OnWrite(c, data, slot).1.value], OnWrite(c, data, slot).0)
  {
    PhaseAppend(commands, OnWrite(c, data, slot).1.value);
  }

  lemma CloseKeepsClient(commands: seq<Command>, c: Client)
    requires ClientOk(commands, c) && !c.closeSent
    ensures ClientOk(commands + [Close], c.(closeSent := true))
  {
    PhaseAppend(commands, Close);
  }

  lemma EnqueueKeepsFlow(f: u64, x: Flow, queued: seq<Command>, registered: bool, emitted: seq<Message>, c: Command)
    requires FlowOk(f, x, queued, registered, emitted) && CommandsOk(x.commands + [c])
    ensures FlowOk(f, x.(commands := x.commands + [c]), queued + [c], registered, emitted)
  {
    var all := x.commands + [c];
    assert all[..x.served] == x.commands[..x.served];
    assert all[..x.taken] == x.commands[..x.taken];
    assert all[x.taken..] == x.commands[x.taken..] + [c];
  }

  /** Every beginning of a good history is good. */
  lemma {:induction false} PhaseOfPrefix(commands: seq<Command>, n: nat)
    requires CommandsOk(commands) && 0 < n <= |commands|
    ensures CommandsOk(commands[..n])
    decreases |commands|
  {
    if n < |commands| {
      var front := commands[..|commands| - 1];
      PhaseOfPrefix(front, n);
      assert front[..n] == commands[..n];
    } else {
      assert commands[..n] == commands;
    }
  }

  /** The phase knows whether a flow was closed. */
  lemma {:induction false} ClosedPhase(commands: seq<Command>)
    requires CommandsOk(commands)
    ensures PhaseOf(commands).closed <==> Close in commands
  {
    var n := |commands| - 1;
    var front := commands[..n];
    assert commands == front + [commands[n]];
    if n > 0 {
      ClosedPhase(front);
    }
  }

  lemma RegisteredOnceClosedOnce(commands: seq<Command>, i: nat)
    requires CommandsOk(commands) && i < |commands|
    ensures commands[i].Register? ==> i == 0
    ensures commands[i].Close? ==> Close !in commands[..i]
  {
    PhaseOfPrefix(commands, i + 1);
    assert commands[..i + 1] == commands[..i] + [commands[i]];
    PhaseAppend(commands[..i], commands[i]);
    if i > 0 {
      PhaseOfPrefix(commands, i);
      ClosedPhase(commands[..i]);
    }
  }

  lemma TakeServed(f: u64, x: Flow, queued: seq<Command>, emitted: seq<Message>)
    requires Ledger(f, x, queued, true, emitted) && queued != [] && (queued[0].OpenData? || queued[0].Data?)
    ensures Ledger(f, TakeOne(x, true), queued[1..], true, emitted + Said(f, queued[0], true))
  {
    var before, after := x.commands[..x.taken], x.commands[..x.taken + 1];
    assert after == before + [queued[0]];
    ServedAppend(before, queued[0], f);
  }

  lemma TakeUnserved(f: u64, x: Flow, queued: seq<Command>, registered: bool, emitted: seq<Message>)
    requires Ledger(f, x, queued, registered, emitted) && queued != [] && !queued[0].Register?
    requires if queued[0].Close? then Close !in x.commands[..x.taken] else !registered
    ensures Ledger(f, TakeOne(x, false), queued[1..], false, emitted + Said(f, queued[0], registered))
  {
    var before, after := x.commands[..x.taken], x.commands[..x.taken + 1];
    assert after == before + [queued[0]];
    assert emitted + [] == emitted;
  }

  lemma TakeRegister(f: u64, x: Flow, queued: seq<Command>, registered: bool, emitted: seq<Message>)
    requires Ledger(f, x, queued, registered, emitted) && queued != [] && queued[0].Register? && x.taken == 0
    ensures Ledger(f, TakeOne(x, true), queued[1..], true, emitted)
  {
    assert x.commands[..1] == [] + [queued[0]];
    ServedAppend([], queued[0], f);
  }

  lemma TakeKeepsFlow(f: u64, x: Flow, queued: seq<Command>, registered: bool, registered': bool, emitted: seq<Message>)
    requires FlowOk(f, x, queued, registered, emitted) && queued != []
    requires registered' == (queued[0].Register? || (registered && !queued[0].Close?))
    ensures FlowOk(f, TakeOne(x, registered'), queued[1..], registered', emitted + Said(f, queued[0], registered))
  {
    RegisteredOnceClosedOnce(x.commands, x.taken);
    if queued[0].Register? {
      TakeRegister(f, x, queued, registered, emitted);
    } else if registered' {
      TakeServed(f, x, queued, emitted);
    } else {
      TakeUnserved(f, x, queued, registered, emitted);
    }
  }

  lemma EnqueueKeepsView(w: World, f: u64, c: Command, w': World)
    requires ViewOk(w, f) && f in w.flows && CommandsOk(w.flows[f].commands + [c])
    requires w'.flows == Enqueue(w, f, Some(c)).flows && w'.queue == Enqueue(w, f, Some(c)).queue
    requires w'.streams == w.streams && w'.emitted == w.emitted
    requires f in w'.clients ==> ClientOk(w.flows[f].commands + [c], w'.clients[f])
    ensures ViewOk(w', f)
  {
    QueueAppend(w.queue, Queued(f, c), f);
    EnqueueKeepsFlow(f, w.flows[f], Queue(w.queue, f), f in w.streams, Emitted(w.emitted, f), c);
  }

  ghost predicate SameFor(w: World, w': World, f: u64) {
    && (f in w.flows <==> f in w'.flows) && (f in w.flows ==> w'.flows[f] == w.flows[f])
    && (f in w.clients <==> f in w'.clients) && (f in w.clients ==> w'.clients[f] == w.clients[f])
    && (f in w'.streams ==> f in w.streams)
    && Queue(w'.queue, f) == Queue(w.queue, f) && Emitted(w'.emitted, f) == Emitted(w.emitted, f)
  }

  lemma EnqueueElsewhere(w: World, g: u64, command: Option<Command>, f: u64)
    requires g in w.flows && g != f
    ensures SameFor(w, Enqueue(w, g, command), f)
  {
    if command.Some? {
      QueueAppend(w.queue, Queued(g, command.value), f);
    }
  }

  lemma OtherStreamsSeeNothing(w: World, e: Event, w': World, f: u64)
    requires e.Connect? || e.Write? || e.Shutdown? || e.DropStream?
    requires Steps(w, e, w') && e.flow != f
    ensures SameFor(w, w', f)
  {
    match e
    case Connect(g, _, sent) =>
      QueueAppend(w.queue, Queued(g, Register), f);
    case Write(g, data, slot) =>
      EnqueueElsewhere(w, g, OnWrite(w.clients[g], data, slot).1, f);
    case Shutdown(g, slot) =>
      EnqueueElsewhere(w, g, OnShutdown(w.clients[g], slot).1, f);
    case DropStream(g, slot) =>
      EnqueueElsewhere(w, g, OnDrop(w.clients[g], slot), f);
  }

  lemma OtherCommandsSeeNothing(w: World, delivered: bool, w': World, f: u64)
    requires Takes(w, delivered, w') && w.queue[0].flow != f
    ensures SameFor(w, w', f)
  {
    QueuePop(w.queue, f);
    var message := OnCommand(w.streams, w.queue[0]).1;
    if message.Some? {
      EmittedAppend(w.emitted, message.value, f);
    }
  }

  lemma EmitElsewhere(emitted: seq<Message>, m: Message, f: u64)
    requires !Concerns(m, f)
    ensures Emitted(emitted + [m], f) == Emitted(emitted, f)
  {
    EmittedAppend(emitted, m, f);
  }

  lemma HearTouchesNoOutput(w: World, m: Incoming, inbound: Inbound, delivered: bool, w': World, f: u64)
    requires Hears(w, m, inbound, delivered, w')
    ensures SameFor(w, w', f)
  {
    if m.ProxyPing? {
      EmitElsewhere(w.emitted, Pong(m.token), f);
    }
  }

  lemma OthersSeeNothing(w: World, e: Event, w': World, f: u64)
    requires e.Check? || e.Fetch? || e.Hear? || e.Tick?
    requires Steps(w, e, w')
    ensures SameFor(w, w', f)
  {
    match e
    case Hear(m, inbound, delivered) =>
      HearTouchesNoOutput(w, m, inbound, delivered, w', f);
    case Tick(_, _, token) =>
      EmitElsewhere(w.emitted, Ping(token), f);
    case _ =>
  }

  lemma SameKeepsView(w: World, w': World, f: u64)
    requires ViewOk(w, f) && SameFor(w, w', f)
    ensures ViewOk(w', f)
  {
  }

  lemma SaidAppends(emitted: seq<Message>, streams: set<u64>, q: Queued)
    ensures var message := OnCommand(streams, q).1;
            Emitted(if message.Some? then emitted + [message.value] else emitted, q.flow)
            == Emitted(emitted, q.flow) + Said(q.flow, q.command, q.flow in streams)
  {
    var message := OnCommand(streams, q).1;
    if message.Some? {
      EmittedAppend(emitted, message.value, q.flow);
    } else {
      assert Emitted(emitted, q.flow) + [] == Emitted(emitted, q.flow);
    }
  }

  /** A command taken, as its flow sees it. */
  ghost predicate Took(w: World, w': World, q: Queued) {
    var f := q.flow;
    && f in w.flows && f in w'.flows && w'.clients == w.clients
    && w'.flows[f] == TakeOne(w.flows[f], f in w'.streams)
    && (f in w'.streams) == (q.command.Register? || (f in w.streams && !q.command.Close?))
    && Queue(w.queue, f) == [q.command] + Queue(w'.queue, f)
    && Emitted(w'.emitted, f) == Emitted(w.emitted, f) + Said(f, q.command, f in w.streams)
  }

  lemma TakeTakes(w: World, delivered: bool, w': World)
    requires Takes(w, delivered, w') && (OnCommand(w.streams, w.queue[0]).1.Some? ==> delivered)
    ensures Took(w, w', w.queue[0])
  {
    QueuePop(w.queue, w.queue[0].flow);
    SaidAppends(w.emitted, w.streams, w.queue[0]);
  }

  lemma TookKeepsView(w: World, w': World, q: Queued)
    requires Took(w, w', q) && ViewOk(w, q.flow)
    ensures ViewOk(w', q.flow)
  {
    var f := q.flow;
    assert Queue(w.queue, f)[1..] == Queue(w'.queue, f);
    TakeKeepsFlow(f, w.flows[f], Queue(w.queue, f), f in w.streams, f in w'.streams, Emitted(w.emitted, f));
  }

  lemma TakeKeepsView(w: World, delivered: bool, w': World)
    requires Takes(w, delivered, w') && ViewOk(w, w.queue[0].flow)
    ensures ViewOk(w', w.queue[0].flow)
  {
    if OnCommand(w.streams, w.queue[0]).1.Some? && !delivered {
      assert w' == w.(running := false);
    } else {
      TakeTakes(w, delivered, w');
      TookKeepsView(w, w', w.queue[0]);
    }
  }

  lemma WriteKeepsView(w: World, f: u64, data: bytes, slot: Slot, w': World)
    requires Steps(w, Write(f, data, slot), w') && ViewOk(w, f)
    ensures ViewOk(w', f)
  {
    if data != [] && slot.Free? {
      WriteKeepsClient(w.flows[f].commands, w.clients[f], data, slot);
      EnqueueKeepsView(w, f, OnWrite(w.clients[f], data, slot).1.value, w');
    }
  }

  lemma CloseKeepsView(w: World, e: Event, f: u64, w': World)
    requires e.Shutdown? || e.DropStream?
    requires Steps(w, e, w') && e.flow == f && ViewOk(w, f)
    ensures ViewOk(w', f)
  {
    if !w.clients[f].closeSent && e.slot.Free? {
      CloseKeepsClient(w.flows[f].commands, w.clients[f]);
      EnqueueKeepsView(w, f, Close, w');
    }
  }

  lemma ConnectKeepsView(w: World, e: Event, w': World)
    requires e.Connect? && Steps(w, e, w') && ViewOk(w, e.flow) && e.flow !in w.flows
    ensures ViewOk(w', e.flow)
  {
    QueueAppend(w.queue, Queued(e.flow, Register), e.flow);
  }

  lemma StepKeepsView(w: World, e: Event, w': World, f: u64)
    requires Steps(w, e, w') && ViewOk(w, f) && (e.Connect? ==> e.flow !in w.flows)
    ensures ViewOk(w', f)
  {
    if e.Connect? && e.flow == f {
      ConnectKeepsView(w, e, w');
    } else if e.Write? && e.flow == f {
      WriteKeepsView(w, f, e.data, e.slot, w');
    } else if (e.Shutdown? || e.DropStream?) && e.flow == f {
      CloseKeepsView(w, e, f, w');
    } else if e.Take? && w.queue[0].flow == f {
      TakeKeepsView(w, e.delivered, w');
    } else {
      if e.Take? {
        OtherCommandsSeeNothing(w, e.delivered, w', f);
      } else if e.Check? || e.Fetch? || e.Hear? || e.Tick? {
        OthersSeeNothing(w, e, w', f);
      } else {
        OtherStreamsSeeNothing(w, e, w', f);
      }
      SameKeepsView(w, w', f);
    }
  }

  // ----- Flow ids -----

  ghost predicate Distinct(first: u64, n: nat) {
    forall i: nat, j: nat :: i < j < n ==> FlowId(first, i) != FlowId(first, j)
  }

  lemma IdsDiffer(first: u64, i: nat, j: nat)
    requires i < j < i + U64_SIZE
    ensures FlowId(first, i) != FlowId(first, j)
  {
  }

  /** The counter wraps: ids are unique exactly up to 2^64 draws. */
  lemma DistinctDraws(first: u64, n: nat)
    ensures Distinct(first, n) <==> n <= U64_SIZE
  {
    if n <= U64_SIZE {
      forall i: nat, j: nat | i < j < n ensures FlowId(first, i) != FlowId(first, j) {
        IdsDiffer(first, i, j);
      }
    } else {
      assert FlowId(first, 0) == FlowId(first, U64_SIZE);
    }
  }

  lemma DrawKeepsDraws(first: u64, d: Draws)
    requires DrawsOk(first, d) && d.passed > 0
    ensures DrawsOk(first, Draw(first, d))
  {
    if d.late.None? {
      assert FlowId(first, d.fetched) == first + d.fetched;
    }
  }

  lemma StepKeepsDraws(w: World, e: Event, w': World)
    requires DrawsOk(w.first, w.draws) && Steps(w, e, w')
    ensures w'.first == w.first && DrawsOk(w'.first, w'.draws) && w.draws.fetched <= w'.draws.fetched
    ensures w.draws.late.Some? ==> w'.draws.late == w.draws.late
  {
    if e.Fetch? {
      DrawKeepsDraws(w.first, w.draws);
    }
  }

  lemma {:induction false} RunKeepsDraws(v: World, events: Trace<Event>, w: World)
    requires DrawsOk(v.first, v.draws) && Continues(v, events, w)
    ensures w.first == v.first && DrawsOk(w.first, w.draws)
    ensures v.draws.late.Some? ==> w.draws.late == v.draws.late
  {
    match events
    case Start =>
    case Then(front, last) =>
      var u :| Continues(v, front, u) && Steps(u, last, w);
      RunKeepsDraws(v, front, u);
      StepKeepsDraws(u, last, w);
  }

  lemma UnracedDraws(w: World)
    requires DrawsOk(w.first, w.draws) && !Raced(w)
    ensures w.draws.fetched <= U64_SIZE
  {
  }

  function Fetchings(n: nat): Trace<Event> {
    if n == 0 then Start else Then(Fetchings(n - 1), Fetch)
  }

  /** Everyone past the check may go on to draw, closed or not. */
  lemma {:induction false} AllDraw(w: World, n: nat) returns (v: World)
    requires n <= w.draws.passed
    ensures Continues(w, Fetchings(n), v) && v.first == w.first
    ensures v.draws.fetched == w.draws.fetched + n && v.draws.passed == w.draws.passed - n
  {
    if n == 0 {
      v := w;
    } else {
      var u := AllDraw(w, n - 1);
      var id := FlowId(u.first, u.draws.fetched);
      v := u.(draws := Draw(u.first, u.draws), connecting := if id == U64_MAX then u.connecting else u.connecting + {id});
      assert Steps(u, Fetch, v);
    }
  }

  function Checkings(n: nat): Trace<Event> {
    if n == 0 then Start else Then(Checkings(n - 1), Check)
  }

  lemma {:induction false} AllCheck(first: u64, n: nat) returns (v: World)
    ensures Continues(Init(first), Checkings(n), v) && v == Init(first).(draws := Draws(0, n, false, None))
  {
    v := Init(first).(draws := Draws(0, n, false, None));
    if n > 0 {
      var u := AllCheck(first, n - 1);
      assert Steps(u, Check, v);
    }
  }

  lemma {:induction false} Joins(v: World, a: Trace<Event>, u: World, b: Trace<Event>, w: World)
    requires Continues(v, a, u) && Continues(u, b, w)
    ensures Continues(v, Join(a, b), w)
  {
    match b
    case Start =>
    case Then(front, last) =>
      var x :| Continues(u, front, x) && Steps(x, last, w);
      Joins(v, a, u, front, x);
  }

  ghost predicate RepeatsId(first: u64, w: World) {
    exists v, more :: Continues(w, more, v) && !Distinct(first, v.draws.fetched)
  }

  /** In every run the ids drawn are pairwise distinct unless more callers than `first` had seen the session open and not
      drawn yet when the last id was drawn; and in that case, and no other once the last id is drawn, the run has a
      continuation in which an id is drawn twice. */
  lemma FlowIdsDistinct(first: u64, events: Trace<Event>, w: World)
    requires Reaches(first, events, w)
    ensures !Raced(w) ==> Distinct(first, w.draws.fetched)
    ensures w.draws.late.Some? ==> (RepeatsId(first, w) <==> Raced(w))
  {
    RunKeepsDraws(Init(first), events, w);
    DistinctDraws(first, w.draws.fetched);
    if Raced(w) {
      var v := AllDraw(w, w.draws.passed);
      DistinctDraws(first, v.draws.fetched);
      assert Continues(w, Fetchings(w.draws.passed), v);
    } else if w.draws.late.Some? && RepeatsId(first, w) {
      var v, more :| Continues(w, more, v) && !Distinct(first, v.draws.fetched);
      RunKeepsDraws(w, more, v);
      DistinctDraws(first, v.draws.fetched);
      assert false;
    }
  }

  /** "No id is drawn twice" is false: more than 2^64 callers can see the session open before the first of them draws. */
  lemma IdsCanRepeat(first: u64) returns (events: Trace<Event>, w: World)
    requires 1 <= first
    ensures Reaches(first, events, w) && !Distinct(first, w.draws.fetched) && Raced(w)
  {
    var n: nat := U64_SIZE + 1;
    var v := AllCheck(first, n);
    w := AllDraw(v, n);
    events := Join(Checkings(n), Fetchings(n));
    Joins(Init(first), Checkings(n), v, Fetchings(n), w);
    DistinctDraws(first, w.draws.fetched);
    FlowIdsDistinct(first, events, w);
  }

  lemma StepKeepsIds(w: World, e: Event, w': World)
    requires Inv(w) && Steps(w, e, w') && !Raced(w')
    ensures DrawsOk(w'.first, w'.draws)
    ensures forall f: u64 :: f in w'.flows || f in w'.connecting ==> Drawn(w', f)
    ensures forall f: u64 :: f in w'.flows ==> f !in w'.connecting
  {
    StepKeepsDraws(w, e, w');
    UnracedDraws(w');
    var id := FlowId(w.first, w.draws.fetched);
    forall f: u64 | f in w'.flows || f in w'.connecting
      ensures Drawn(w', f)
    {
      if f in w.flows || f in w.connecting {
        var n: nat :| n < w.draws.fetched && f == FlowId(w.first, n);
        assert n < w'.draws.fetched;
      } else {
        assert f == id;
      }
    }
    if e.Fetch? && id in w.flows {
      var n: nat :| n < w.draws.fetched && id == FlowId(w.first, n);
      IdsDiffer(w.first, n, w.draws.fetched);
      assert false;
    }
  }

  lemma EarlierUnraced(first: u64, front: Trace<Event>, v: World, last: Event, w: World)
    requires Reaches(first, front, v) && Steps(v, last, w) && !Raced(w)
    ensures !Raced(v)
  {
    RunKeepsDraws(Init(first), front, v);
    StepKeepsDraws(v, last, w);
  }

  lemma {:induction false} RunKeepsInv(first: u64, events: Trace<Event>, w: World)
    requires Reaches(first, events, w) && !Raced(w)
    ensures Inv(w)
  {
    match events
    case Start =>
    case Then(front, last) =>
      var v :| Continues(Init(first), front, v) && Steps(v, last, w);
      EarlierUnraced(first, front, v, last, w);
      RunKeepsInv(first, front, v);
      StepKeepsIds(v, last, w);
      forall f: u64 ensures ViewOk(w, f) {
        StepKeepsView(v, last, w, f);
      }
  }

  // ----- What the proxy hears -----

  /** The datagrams that the stream's writes handed over, in order. */
  function Accepted(events: Trace<Event>, f: u64): seq<bytes> {
    match events
    case Start => []
    case Then(front, last) =>
      Accepted(front, f) + (if last.Write? && last.flow == f && last.data != [] && last.slot.Free? then [last.data] else [])
  }

  /** Where the stream was asked to connect to. */
  function Target(events: Trace<Event>, f: u64): Option<Address> {
    match events
    case Start => None
    case Then(front, last) =>
      if last.Connect? && last.flow == f && last.sent then Some(last.address) else Target(front, f)
  }

  function Carried(c: Command): seq<bytes> {
    if c.OpenData? then [c.data] else if c.Data? then [c.data] else []
  }

  function Queuing(commands: seq<Command>): seq<bytes> {
    if commands == [] then [] else Carried(commands[0]) + Queuing(commands[1..])
  }

  function Payloads(messages: seq<Message>): seq<bytes> {
    if messages == [] then []
    else
      Payloads(messages[..|messages| - 1])
      + (match messages[|messages| - 1] case OpenDataMsg(_, _, d) => [d] case DataMsg(_, d) => [d] case _ => [])
  }

  /** OpenData may only come first, Data needs it, and Close ends the flow. */
  ghost predicate WellShaped(messages: seq<Message>) {
    && (forall i :: 0 <= i < |messages| && messages[i].OpenDataMsg? ==> i == 0)
    && (forall i :: 0 <= i < |messages| && messages[i].DataMsg? ==> messages[0].OpenDataMsg?)
    && (forall i :: 0 <= i < |messages| && messages[i].CloseMsg? ==> i == |messages| - 1)
  }

  lemma Associates(a: seq<bytes>, b: seq<bytes>, c: seq<bytes>)
    ensures a + (b + c) == a + b + c
  {
  }

  lemma {:induction false} QueuingAppend(a: seq<Command>, b: seq<Command>)
    ensures Queuing(a + b) == Queuing(a) + Queuing(b)
  {
    if a == [] {
      assert a + b == b;
    } else {
      var rest, all := a[1..], a + b;
      QueuingAppend(rest, b);
      assert all[0] == a[0] && all[1..] == rest + b;
      Associates(Carried(a[0]), Queuing(rest), Queuing(b));
    }
  }

  lemma {:induction false} ServedPayloads(commands: seq<Command>, f: u64)
    ensures Payloads(Served(commands, f)) == Queuing(commands)
  {
    if commands != [] {
      var n := |commands| - 1;
      var front, last := commands[..n], commands[n];
      assert commands == front + [last];
      ServedPayloads(front, f);
      QueuedOne(front, last);
      if last.OpenData? || last.Data? {
        PayloadAppend(Served(front, f), Said(f, last, true)[0]);
        assert Served(commands, f) == Served(front, f) + [Said(f, last, true)[0]];
      } else {
        assert Served(commands, f) == Served(front, f);
      }
    }
  }

  lemma PayloadAppend(messages: seq<Message>, m: Message)
    ensures Payloads(messages + [m])
         == Payloads(messages) + (if m.OpenDataMsg? then [m.data] else if m.DataMsg? then [m.data] else [])
  {
    assert (messages + [m])[..|messages|] == messages;
  }

  /** Registration, OpenData, and then Data only. */
  ghost predicate Opening(commands: seq<Command>) {
    && (|commands| > 0 ==> commands[0].Register?)
    && (|commands| > 1 ==> commands[1].OpenData?)
    && (forall i :: 1 < i < |commands| ==> commands[i].Data?)
  }

  lemma {:induction false} OpeningPhase(commands: seq<Command>)
    requires CommandsOk(commands) && !PhaseOf(commands).closed
    ensures Opening(commands) && (PhaseOf(commands).wasOpened <==> |commands| > 1)
  {
    var n := |commands| - 1;
    if n > 0 {
      OpeningPhase(commands[..n]);
    }
  }

  lemma BeforeClose(commands: seq<Command>, n: nat)
    requires CommandsOk(commands) && n <= |commands| && Close !in commands[..n]
    ensures Opening(commands[..n])
  {
    if n > 0 {
      PhaseOfPrefix(commands, n);
      ClosedPhase(commands[..n]);
      OpeningPhase(commands[..n]);
    }
  }

  lemma {:induction false} ServedShape(commands: seq<Command>, f: u64)
    requires Opening(commands)
    ensures |Served(commands, f)| == if |commands| > 1 then |commands| - 1 else 0
    ensures |commands| > 1 ==> Served(commands, f)[0] == OpenDataMsg(f, commands[1].address, commands[1].data)
    ensures forall i :: 0 < i < |Served(commands, f)| ==> Served(commands, f)[i].DataMsg?
  {
    if |commands| > 0 {
      var n := |commands| - 1;
      ServedShape(commands[..n], f);
      assert Served(commands, f) == Served(commands[..n], f) + Said(f, commands[n], true);
    }
  }

  ghost predicate Opens(commands: seq<Command>, target: Option<Address>) {
    forall i :: 0 <= i < |commands| && commands[i].OpenData? ==> target == Some(commands[i].address)
  }

  ghost predicate FaithfulCommands(commands: seq<Command>, accepted: seq<bytes>, target: Option<Address>) {
    Queuing(commands) == accepted && Opens(commands, target)
  }

  /** The recorded commands are the stream's own writes, opened towards its own target. */
  ghost predicate Faithful(w: World, accepted: seq<bytes>, target: Option<Address>, f: u64) {
    if f in w.flows then
      && FaithfulCommands(w.flows[f].commands, accepted, target)
      && (f in w.clients && w.clients[f].open.Some? ==> w.clients[f].open == target)
    else f !in w.clients && accepted == []
  }

  lemma QueuedOne(commands: seq<Command>, c: Command)
    ensures Queuing(commands + [c]) == Queuing(commands) + Carried(c)
  {
    QueuingAppend(commands, [c]);
    assert Queuing([c]) == Carried(c) + Queuing([]);
  }

  lemma FaithfulWrite(commands: seq<Command>, c: Client, data: bytes, accepted: seq<bytes>, target: Option<Address>)
    requires FaithfulCommands(commands, accepted, target) && data != []
    requires c.open.Some? ==> c.open == target
    ensures OnWrite(c, data, Free).1.Some?
    ensures FaithfulCommands(commands + [OnWrite(c, data, Free).1.value], accepted + [data], target)
  {
    QueuedOne(commands, OnWrite(c, data, Free).1.value);
  }

  lemma FaithfulClose(commands: seq<Command>, accepted: seq<bytes>, target: Option<Address>)
    requires FaithfulCommands(commands, accepted, target)
    ensures FaithfulCommands(commands + [Close], accepted, target)
  {
    QueuedOne(commands, Close);
    assert Queuing(commands) + [] == Queuing(commands);
  }

  lemma WriteIsFaithful(v: World, e: Event, w: World, accepted: seq<bytes>, target: Option<Address>)
    requires e.Write? && Steps(v, e, w) && Faithful(v, accepted, target, e.flow)
    ensures Faithful(w, accepted + (if e.data != [] && e.slot.Free? then [e.data] else []), target, e.flow)
  {
    if e.data != [] && e.slot.Free? {
      FaithfulWrite(v.flows[e.flow].commands, v.clients[e.flow], e.data, accepted, target);
    } else {
      assert accepted + [] == accepted;
    }
  }

  lemma CloseIsFaithful(v: World, e: Event, w: World, accepted: seq<bytes>, target: Option<Address>)
    requires e.Shutdown? || e.DropStream?
    requires Steps(v, e, w) && Faithful(v, accepted, target, e.flow)
    ensures Faithful(w, accepted, target, e.flow)
  {
    FaithfulClose(v.flows[e.flow].commands, accepted, target);
  }

  ghost predicate SameCommands(v: World, w: World, f: u64) {
    && (f in v.flows <==> f in w.flows) && (f in v.flows ==> w.flows[f].commands == v.flows[f].commands)
    && (f in v.clients <==> f in w.clients) && (f in v.clients ==> w.clients[f] == v.clients[f])
  }

  lemma StepKeepsFaithful(v: World, front: Trace<Event>, e: Event, w: World, f: u64)
    requires Steps(v, e, w) && Faithful(v, Accepted(front, f), Target(front, f), f)
    requires e.Connect? ==> e.flow !in v.flows
    ensures Faithful(w, Accepted(Then(front, e), f), Target(Then(front, e), f), f)
  {
    if e.Write? && e.flow == f {
      WriteIsFaithful(v, e, w, Accepted(front, f), Target(front, f));
    } else if (e.Shutdown? || e.DropStream?) && e.flow == f {
      CloseIsFaithful(v, e, w, Accepted(front, f), Target(front, f));
    } else if !(e.Connect? && e.flow == f && e.sent) {
      assert SameCommands(v, w, f);
    }
  }

  lemma {:induction false} RunIsFaithful(first: u64, events: Trace<Event>, w: World, f: u64)
    requires Reaches(first, events, w) && !Raced(w)
    ensures Faithful(w, Accepted(events, f), Target(events, f), f)
  {
    match events
    case Start =>
    case Then(front, last) =>
      var v :| Continues(Init(first), front, v) && Steps(v, last, w);
      EarlierUnraced(first, front, v, last, w);
      RunKeepsInv(first, front, v);
      RunIsFaithful(first, front, v, f);
      StepKeepsFaithful(v, front, last, w, f);
  }

  lemma ClosePayloads(messages: seq<Message>, f: u64)
    ensures Payloads(messages + [CloseMsg(f)]) == Payloads(messages)
  {
    PayloadAppend(messages, CloseMsg(f));
  }

  lemma LedgerIsWellShaped(f: u64, x: Flow, queued: seq<Command>, registered: bool, emitted: seq<Message>)
    requires FlowOk(f, x, queued, registered, emitted)
    ensures WellShaped(emitted)
    ensures emitted != [] && emitted[0].OpenDataMsg? ==>
              |x.commands| > 1 && x.commands[1].OpenData? && x.commands[1].address == emitted[0].address
  {
    BeforeClose(x.commands, x.served);
    ServedShape(x.commands[..x.served], f);
  }

  lemma ServedConserves(f: u64, commands: seq<Command>, n: nat)
    requires n <= |commands|
    ensures Payloads(Served(commands[..n], f)) + Queuing(commands[n..]) == Queuing(commands)
  {
    var taken, rest := commands[..n], commands[n..];
    assert taken + rest == commands;
    assert Queuing(commands) == Queuing(taken) + Queuing(rest) by { QueuingAppend(taken, rest); }
    assert Payloads(Served(taken, f)) == Queuing(taken) by { ServedPayloads(taken, f); }
  }

  lemma LedgerConserves(f: u64, x: Flow, queued: seq<Command>, registered: bool, emitted: seq<Message>)
    requires Ledger(f, x, queued, registered, emitted)
    ensures Payloads(emitted) <= Queuing(x.commands)
    ensures registered ==> Payloads(emitted) + Queuing(queued) == Queuing(x.commands)
  {
    var served := Served(x.commands[..x.served], f);
    ServedConserves(f, x.commands, x.served);
    ClosePayloads(served, f);
    assert emitted == served || emitted == served + [CloseMsg(f)];
  }

  /** In every run of the session, whatever the proxy says and whichever queue is full, what is emitted for a
      flow is an optional OpenData-Data* exchange and at most one final Close; it opens the flow's own target;
      and its payloads are the stream's datagrams, in order, with none missing while the flow is registered. */
  lemma SpeaksInOrder(first: u64, events: Trace<Event>, w: World, f: u64)
    requires Reaches(first, events, w) && !Raced(w)
    ensures WellShaped(Emitted(w.emitted, f))
    ensures forall m :: m in Emitted(w.emitted, f) && m.OpenDataMsg? ==> Target(events, f) == Some(m.address)
    ensures Payloads(Emitted(w.emitted, f)) <= Accepted(events, f)
    ensures f in w.streams ==>
              Payloads(Emitted(w.emitted, f)) + Queuing(Queue(w.queue, f)) == Accepted(events, f)
  {
    RunKeepsInv(first, events, w);
    RunIsFaithful(first, events, w, f);
    assert ViewOk(w, f);
    if f in w.flows {
      LedgerIsWellShaped(f, w.flows[f], Queue(w.queue, f), f in w.streams, Emitted(w.emitted, f));
      LedgerConserves(f, w.flows[f], Queue(w.queue, f), f in w.streams, Emitted(w.emitted, f));
    }
  }

  // ----- After a flow is removed -----

  /** The driver registered the flow once and has since forgotten it. */
  predicate Removed(w: World, f: u64) {
    f in w.flows && w.flows[f].taken >= 1 && f !in w.streams
  }

  ghost predicate Later(x: Flow, y: Flow) {
    x.commands <= y.commands && x.taken <= y.taken && y.served == x.served
  }

  lemma StepKeepsRemoved(v: World, e: Event, w: World, f: u64)
    requires Inv(v) && Steps(v, e, w) && Removed(v, f)
    ensures Removed(w, f) && Later(v.flows[f], w.flows[f])
  {
    assert ViewOk(v, f);
    if e.Take? && v.queue[0].flow == f {
      QueuePop(v.queue, f);
      assert v.flows[f].commands[v.flows[f].taken] == v.queue[0].command;
      RegisteredOnceClosedOnce(v.flows[f].commands, v.flows[f].taken);
    }
  }

  lemma {:induction false} RemovedForever(v: World, events: Trace<Event>, w: World, f: u64)
    requires Inv(v) && Removed(v, f) && Continues(v, events, w) && !Raced(w)
    ensures Inv(w) && Removed(w, f) && Later(v.flows[f], w.flows[f])
  {
    match events
    case Start =>
    case Then(front, last) =>
      var u :| Continues(v, front, u) && Steps(u, last, w);
      RunKeepsDraws(v, front, u);
      StepKeepsDraws(u, last, w);
      RemovedForever(v, front, u, f);
      StepKeepsRemoved(u, last, w, f);
      StepKeepsIds(u, last, w);
      forall g: u64 ensures ViewOk(w, g) {
        StepKeepsView(u, last, w, g);
      }
  }

  lemma ClosedInPart(commands: seq<Command>, a: nat, b: nat)
    requires CommandsOk(commands) && a <= b <= |commands|
    ensures Close in commands[..b] <==> Close in commands[..a] || Close in commands[a..b]
    ensures !(Close in commands[..a] && Close in commands[a..b])
  {
    assert commands[..b] == commands[..a] + commands[a..b];
    if Close in commands[a..b] {
      var i :| a <= i < b && commands[i].Close?;
      RegisteredOnceClosedOnce(commands, i);
      assert commands[..i][..a] == commands[..a];
    }
  }

  lemma RemovedLedgers(f: u64, x: Flow, y: Flow, queued: seq<Command>, queued': seq<Command>,
                       emitted: seq<Message>, emitted': seq<Message>)
    requires Ledger(f, x, queued, false, emitted) && FlowOk(f, y, queued', false, emitted') && Later(x, y)
    ensures emitted' == emitted + if Close in y.commands[x.taken..y.taken] then [CloseMsg(f)] else []
  {
    assert y.commands[..x.served] == x.commands[..x.served];
    assert y.commands[..x.taken] == x.commands[..x.taken];
    ClosedInPart(y.commands, x.taken, y.taken);
  }

  /** Once a flow is removed, by either side, nothing more is said about it, except its Close exactly when the
      driver has still to take one that the stream queued. */
  lemma OnlyCloseFollowsRemoval(first: u64, before: Trace<Event>, v: World, after: Trace<Event>, w: World, f: u64)
    requires Reaches(first, before, v) && Removed(v, f) && Continues(v, after, w) && !Raced(w)
    ensures Removed(w, f) && v.flows[f].taken <= w.flows[f].taken <= |w.flows[f].commands|
    ensures Emitted(w.emitted, f)
         == Emitted(v.emitted, f)
          + if Close in w.flows[f].commands[v.flows[f].taken..w.flows[f].taken] then [CloseMsg(f)] else []
  {
    RunKeepsDraws(Init(first), before, v);
    RunKeepsDraws(v, after, w);
    RunKeepsInv(first, before, v);
    RemovedForever(v, after, w, f);
    assert ViewOk(v, f) && ViewOk(w, f);
    RemovedLedgers(f, v.flows[f], w.flows[f], Queue(v.queue, f), Queue(w.queue, f),
                   Emitted(v.emitted, f), Emitted(w.emitted, f));
  }

  lemma Extend(v: World, events: Trace<Event>, u: World, e: Event, w: World)
    requires Continues(v, events, u) && Steps(u, e, w)
    ensures Continues(v, Then(events, e), w)
  {
  }

  function Connected(first: u64, a: Address, taken: nat, queue: seq<Queued>, streams: set<u64>): World {
    World(first, Draws(1, 0, false, None), {}, map[first := Client(Some(a), false)], map[first := Flow([Register], taken, taken)], queue, streams, [], true)
  }

  lemma StreamConnects(first: u64, a: Address)
    requires 1 <= first < U64_MAX
    ensures Reaches(first, Then(Then(Then(Start, Check), Fetch), Connect(first, a, true)),
                    Connected(first, a, 0, [Queued(first, Register)], {}))
  {
    var init := Init(first);
    var w0 := init.(draws := Draws(0, 1, false, None));
    Extend(init, Start, init, Check, w0);
    var w1 := init.(draws := Draws(1, 0, false, None), connecting := {first});
    assert Fetches(w0, w1);
    Extend(init, Then(Start, Check), w0, Fetch, w1);
    var w2 := Connected(first, a, 0, [Queued(first, Register)], {});
    assert w1.connecting - {first} == {};
    assert Connects(w1, first, a, true, w2);
    Extend(init, Then(Then(Start, Check), Fetch), w1, Connect(first, a, true), w2);
  }

  lemma ProxyCloses(first: u64, a: Address) returns (before: Trace<Event>)
    requires 1 <= first < U64_MAX
    ensures Reaches(first, before, Connected(first, a, 1, [], {}))
  {
    StreamConnects(first, a);
    var init := Init(first);
    before := Then(Then(Then(Start, Check), Fetch), Connect(first, a, true));
    var w2 := Connected(first, a, 0, [Queued(first, Register)], {});
    var w3 := Connected(first, a, 1, [], {first});
    assert Takes(w2, true, w3);
    Extend(init, before, w2, Take(true), w3);
    before := Then(before, Take(true));
    var v := Connected(first, a, 1, [], {});
    assert w3.streams - {first} == {};
    Extend(init, before, w3, Hear(ProxyClose(first), Inbound.Accepted, true), v);
    before := Then(before, Hear(ProxyClose(first), Inbound.Accepted, true));
  }

  /** A removed flow whose stream then shuts down is still announced as closed. */
  lemma ShutdownIsAnnounced(v: World, f: u64) returns (after: Trace<Event>, w: World)
    requires Removed(v, f) && f in v.clients && !v.clients[f].closeSent && v.queue == [] && v.running
    ensures Continues(v, after, w) && w.emitted == v.emitted + [CloseMsg(f)]
  {
    var x := v.flows[f];
    var u := Enqueue(v, f, Some(Close)).(clients := v.clients[f := v.clients[f].(closeSent := true)]);
    Extend(v, Start, v, Shutdown(f, Free), u);
    assert u.queue == [Queued(f, Close)];
    w := u.(queue := [], streams := u.streams - {f}, flows := u.flows[f := TakeOne(u.flows[f], false)],
            emitted := v.emitted + [CloseMsg(f)]);
    Extend(v, Then(Start, Shutdown(f, Free)), u, Take(true), w);
    after := Then(Then(Start, Shutdown(f, Free)), Take(true));
  }

  /** "Nothing follows the proxy's own Close" is false: the stream's shutdown is still announced. */
  lemma CloseFollowsProxyClose(first: u64, a: Address)
    returns (before: Trace<Event>, v: World, after: Trace<Event>, w: World)
    requires 1 <= first < U64_MAX
    ensures Reaches(first, before, v) && Removed(v, first) && v.emitted == []
    ensures Continues(v, after, w) && w.emitted == [CloseMsg(first)]
  {
    before := ProxyCloses(first, a);
    v := Connected(first, a, 1, [], {});
    after, w := ShutdownIsAnnounced(v, first);
  }

  // ----- A stream that ends is announced -----

  ghost predicate QueueKnown(w: World) {
    forall i :: 0 <= i < |w.queue| ==> w.queue[i].flow in w.flows
  }

  lemma {:induction false} InQueue(queue: seq<Queued>, i: nat)
    requires i < |queue|
    ensures Queue(queue, queue[i].flow) != []
  {
    var n := |queue| - 1;
    if i < n {
      InQueue(queue[..n], i);
    }
  }

  lemma InvKnowsQueue(w: World)
    requires Inv(w)
    ensures QueueKnown(w)
  {
    forall i | 0 <= i < |w.queue| ensures w.queue[i].flow in w.flows {
      InQueue(w.queue, i);
      assert ViewOk(w, w.queue[i].flow);
    }
  }

  predicate OnlyTakes(events: Trace<Event>) {
    events.Then? ==> events.last.Take? && OnlyTakes(events.before)
  }

  /** The driver takes one command after another. */
  lemma {:induction false} TakeSome(u: World, n: nat) returns (events: Trace<Event>, w: World)
    requires u.running && n <= |u.queue| && QueueKnown(u)
    ensures Continues(u, events, w) && w.running && w.queue == u.queue[n..] && w.flows.Keys == u.flows.Keys
    ensures OnlyTakes(events) && w.draws == u.draws && w.first == u.first
  {
    if n == 0 {
      events, w := Start, u;
    } else {
      var front, v := TakeSome(u, n - 1);
      var q := v.queue[0];
      assert q == u.queue[n - 1];
      var (streams, message) := OnCommand(v.streams, q);
      w := Drive(v, v.(queue := v.queue[1..], streams := streams,
                       flows := v.flows[q.flow := TakeOne(v.flows[q.flow], q.flow in streams)]), message, true);
      assert Takes(v, true, w);
      Extend(u, front, v, Take(true), w);
      events := Then(front, Take(true));
    }
  }

  lemma OnlyLast(queue: seq<Queued>)
    requires queue != []
    ensures queue[|queue| - 1..] == [queue[|queue| - 1]]
  {
  }

  lemma CloseIsTaken(v: World, f: u64) returns (w: World)
    requires v.running && v.queue == [Queued(f, Close)] && f in v.flows
    ensures Steps(v, Take(true), w) && w.queue == [] && f !in w.streams && w.emitted == v.emitted + [CloseMsg(f)]
  {
    w := v.(queue := [], streams := v.streams - {f}, flows := v.flows[f := TakeOne(v.flows[f], false)],
            emitted := v.emitted + [CloseMsg(f)]);
    assert v.queue[1..] == [];
    assert Takes(v, true, w);
  }

  /** Whatever is queued before it, a stream's Close reaches the proxy once the driver has taken what is queued, and the
      flow is then registered no more. */
  lemma QueuedCloseIsSent(u: World, f: u64) returns (events: Trace<Event>, w: World)
    requires u.running && QueueKnown(u) && u.queue != [] && u.queue[|u.queue| - 1] == Queued(f, Close)
    ensures Continues(u, events, w) && w.queue == [] && f !in w.streams
    ensures w.emitted != [] && w.emitted[|w.emitted| - 1] == CloseMsg(f)
  {
    var n := |u.queue| - 1;
    var front, v := TakeSome(u, n);
    assert v.queue == [Queued(f, Close)] by { OnlyLast(u.queue); }
    w := CloseIsTaken(v, f);
    events := Then(front, Take(true));
    assert Continues(u, events, w) by { Extend(u, front, v, Take(true), w); }
  }

  /** In every run, a stream that was not closed and is shut down or dropped while the queue has room is announced: when the
      driver has taken what is queued, the last thing it has said is the flow's Close, and the flow is not registered. */
  lemma EndIsAnnounced(first: u64, before: Trace<Event>, v: World, f: u64, e: Event) returns (u: World, after: Trace<Event>, w: World)
    requires Reaches(first, before, v) && !Raced(v) && v.running && f in v.clients && !v.clients[f].closeSent
    requires e == Shutdown(f, Free) || e == DropStream(f, Free)
    ensures Steps(v, e, u) && (e.DropStream? ==> f !in u.clients)
    ensures Continues(u, after, w) && w.queue == [] && f !in w.streams
    ensures w.emitted != [] && w.emitted[|w.emitted| - 1] == CloseMsg(f)
  {
    RunKeepsInv(first, before, v);
    assert ViewOk(v, f);
    InvKnowsQueue(v);
    u := if e.DropStream? then Enqueue(v, f, Some(Close)).(clients := v.clients - {f})
         else Enqueue(v, f, Some(Close)).(clients := v.clients[f := v.clients[f].(closeSent := true)]);
    assert u.queue == v.queue + [Queued(f, Close)];
    assert QueueKnown(u);
    after, w := QueuedCloseIsSent(u, f);
  }

  // ----- What was written is heard -----

  /** The event ends the flow: its stream shuts it down or is dropped, or the proxy takes it off. */
  predicate Ends(e: Event, f: u64) {
    || ((e.Shutdown? || e.DropStream?) && e.flow == f)
    || (e.Hear? && f !in OnIncoming({f}, e.message, e.inbound).0)
  }

  predicate NeverEnds(events: Trace<Event>, f: u64) {
    events.Then? ==> !Ends(events.last, f) && NeverEnds(events.before, f)
  }

  /** The flow was not closed and is registered as soon as its registration is taken. */
  ghost predicate Calm(w: World, f: u64) {
    f in w.flows ==> Close !in w.flows[f].commands && (w.flows[f].taken > 0 ==> f in w.streams)
  }

  lemma StaysRegistered(streams: set<u64>, q: Queued)
    requires q.command.Register? || (q.flow in streams && !q.command.Close?)
    ensures q.flow in OnCommand(streams, q).0
  {
  }

  lemma FirstRegisters(commands: seq<Command>)
    requires CommandsOk(commands)
    ensures commands != [] && commands[0].Register?
  {
    PhaseOfPrefix(commands, 1);
    assert commands[..1] == [] + [commands[0]];
    PhaseAppend([], commands[0]);
  }

  lemma TakeStaysCalm(v: World, delivered: bool, w: World, f: u64)
    requires ViewOk(v, f) && Takes(v, delivered, w) && Calm(v, f)
    ensures Calm(w, f)
  {
    var q := v.queue[0];
    if q.flow == f {
      var x := v.flows[f];
      assert x.taken < |x.commands| && x.commands[x.taken] == q.command by { QueuePop(v.queue, f); }
      FirstRegisters(x.commands);
      StaysRegistered(v.streams, q);
    }
  }

  lemma StepStaysCalm(v: World, e: Event, w: World, f: u64)
    requires ViewOk(v, f) && Steps(v, e, w) && Calm(v, f) && !Ends(e, f)
    ensures Calm(w, f)
  {
    if e.Take? {
      TakeStaysCalm(v, e.delivered, w, f);
    } else if e.Hear? {
      ProxyOnlyDeregisters({f}, e.message, e.inbound, f);
      ProxyOnlyDeregisters(v.streams, e.message, e.inbound, f);
    }
  }

  lemma {:induction false} RunStaysCalm(first: u64, events: Trace<Event>, w: World, f: u64)
    requires Reaches(first, events, w) && !Raced(w) && NeverEnds(events, f)
    ensures Calm(w, f)
  {
    match events
    case Start =>
    case Then(front, last) =>
      var v :| Continues(Init(first), front, v) && Steps(v, last, w);
      EarlierUnraced(first, front, v, last, w);
      RunKeepsInv(first, front, v);
      RunStaysCalm(first, front, v, f);
      assert ViewOk(v, f);
      StepStaysCalm(v, last, w, f);
  }

  lemma {:induction false} TakesChangeNothing(before: Trace<Event>, after: Trace<Event>, f: u64)
    requires OnlyTakes(after)
    ensures Accepted(Join(before, after), f) == Accepted(before, f)
    ensures NeverEnds(before, f) ==> NeverEnds(Join(before, after), f)
  {
    match after
    case Start =>
    case Then(front, last) => TakesChangeNothing(before, front, f);
  }

  lemma DrainedIsRegistered(w: World, f: u64)
    requires ViewOk(w, f) && Calm(w, f) && f in w.flows && w.queue == []
    ensures f in w.streams
  {
    var x := w.flows[f];
    assert x.commands != [];
    assert x.taken == |x.commands|;
  }

  /** In every run, a stream that neither side has ended loses nothing: once the driver has taken what is queued, the
      proxy has been told exactly the datagrams that the stream's writes handed over, in order. */
  lemma WritesReachProxy(first: u64, before: Trace<Event>, v: World, f: u64) returns (after: Trace<Event>, w: World)
    requires Reaches(first, before, v) && !Raced(v) && v.running && f in v.clients && NeverEnds(before, f)
    ensures OnlyTakes(after) && Continues(v, after, w) && f in w.streams
    ensures Payloads(Emitted(w.emitted, f)) == Accepted(before, f)
  {
    RunKeepsInv(first, before, v);
    assert ViewOk(v, f);
    InvKnowsQueue(v);
    after, w := TakeSome(v, |v.queue|);
    var events := Join(before, after);
    Joins(Init(first), before, v, after, w);
    TakesChangeNothing(before, after, f);
    RunKeepsInv(first, events, w);
    assert ViewOk(w, f);
    RunStaysCalm(first, events, w, f);
    DrainedIsRegistered(w, f);
    SpeaksInOrder(first, events, w, f);
    assert Payloads(Emitted(w.emitted, f)) + [] == Payloads(Emitted(w.emitted, f));
  }

  // ----- When a stream counts as closed -----

  /** Since it last connected, the stream was shut down at a moment when the queue was not merely full. */
  predicate HasShut(events: Trace<Event>, f: u64) {
    match events
    case Start => false
    case Then(front, last) => match Settles(last, f) case Some(shut) => shut case None => HasShut(front, f)
  }

  /** The event settles whether the stream is closed. */
  function Settles(e: Event, f: u64): Option<bool> {
    if e.Connect? && e.flow == f && e.sent then Some(false)
    else if e.Shutdown? && e.flow == f && !e.slot.Busy? then Some(true)
    else None
  }

  lemma StepSettles(v: World, e: Event, w: World, f: u64)
    requires Steps(v, e, w) && f in w.clients
    ensures match Settles(e, f)
            case Some(shut) => w.clients[f].closeSent == shut
            case None => f in v.clients && w.clients[f].closeSent == v.clients[f].closeSent
  {
  }

  /** In every run a stream is marked closed if and only if it was shut down with room in the queue or with the queue gone:
      a shutdown that met a full queue is still to be done. */
  lemma {:induction false} ClosedIffShut(first: u64, events: Trace<Event>, w: World, f: u64)
    requires Reaches(first, events, w) && f in w.clients
    ensures w.clients[f].closeSent <==> HasShut(events, f)
  {
    match events
    case Start =>
    case Then(front, last) =>
      var v :| Continues(Init(first), front, v) && Steps(v, last, w);
      StepSettles(v, last, w, f);
      if Settles(last, f).None? {
        ClosedIffShut(first, front, v, f);
      }
  }
}

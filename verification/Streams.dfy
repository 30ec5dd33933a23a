/** The two stream adapters that callers read and write: `ClientStream` turns protocol packets into a byte
    stream, `UdpClientStream` hands out whole datagrams. */
module Streams {
  import opened Basics

  // ----- ClientStream: a byte stream over packets -----

  /** What the framed reader yields; an empty inbox means nothing has arrived yet. */
  datatype Item = Data(payload: bytes, isEnd: bool) | NotData | Broken | Ended

  datatype Poll = Ready(data: bytes) | Failed | Waiting

  datatype Reader = Reader(readBuf: bytes, readPos: nat, inbox: seq<Item>)

  predicate ReaderOk(s: Reader) {
    s.readPos <= |s.readBuf|
  }

  function Min(a: nat, b: nat): nat {
    if a < b then a else b
  }

  /** The bytes the peer has sent in these packets. */
  function Payloads(items: seq<Item>): bytes {
    if items == [] then []
    else (if items[0].Data? then items[0].payload else []) + Payloads(items[1..])
  }

  /** Every byte not yet handed to the caller. */
  function Unread(s: Reader): bytes
    requires ReaderOk(s)
  {
    s.readBuf[s.readPos..] + Payloads(s.inbox)
  }

  /** Packets that a read passes over in silence. */
  predicate Skipped(item: Item) {
    item.NotData? || (item.Data? && item.payload == [] && !item.isEnd)
  }

  /** One read with room for `room` bytes, starting from an empty buffer. */
  function ReadNext(inbox: seq<Item>, room: nat): (Reader, Poll) {
    if inbox == [] then (Reader([], 0, []), Waiting)
    else
      var rest := inbox[1..];
      if Skipped(inbox[0]) then ReadNext(rest, room)
      else
        match inbox[0]
        case Broken => (Reader([], 0, rest), Failed)
        case Data(payload, _) =>
          var n := Min(|payload|, room);
          (Reader(payload, n, rest), Ready(payload[..n]))
        case _ => (Reader([], 0, rest), Ready([]))
  }

  function Read(s: Reader, room: nat): (Reader, Poll)
    requires ReaderOk(s)
  {
    if room == 0 then (s, Ready([]))
    else if s.readPos < |s.readBuf| then
      var n := Min(|s.readBuf| - s.readPos, room);
      (s.(readPos := s.readPos + n), Ready(s.readBuf[s.readPos..s.readPos + n]))
    else ReadNext(s.inbox, room)
  }

  function Taken(p: Poll): bytes {
    if p.Ready? then p.data else []
  }

  class ClientStream {
    var readBuf: bytes
    var readPos: nat
    var inbox: seq<Item>

    function View(): Reader
      reads this
    {
      Reader(readBuf, readPos, inbox)
    }

    constructor (inbox: seq<Item>)
      ensures View() == Reader([], 0, inbox)
    {
      this.readBuf, this.readPos, this.inbox := [], 0, inbox;
    }

    method PollRead(room: nat) returns (r: Poll)
      requires ReaderOk(View())
      modifies this
      ensures (View(), r) == Read(old(View()), room) && ReaderOk(View())
    {
      if room == 0 {
        return Ready([]);
      }
      if readPos < |readBuf| {
        var n := Min(|readBuf| - readPos, room);
        r := Ready(readBuf[readPos..readPos + n]);
        readPos := readPos + n;
        return;
      }
      readBuf, readPos := [], 0;
      while inbox != []
        invariant readBuf == [] && readPos == 0
        invariant ReadNext(inbox, room) == ReadNext(old(inbox), room)
        decreases |inbox|
      {
        var item := inbox[0];
        inbox := inbox[1..];
        match item
        case Data(payload, isEnd) =>
          if isEnd && payload == [] {
            return Ready([]);
          }
          if payload == [] {
            continue;
          }
          readBuf := payload;
          var n := Min(|readBuf|, room);
          readPos := n;
          return Ready(readBuf[..n]);
        case NotData =>
          continue;
        case Broken =>
          return Failed;
        case Ended =>
          return Ready([]);
      }
      return Waiting;
    }
  }

  lemma {:induction false} ReadNextConserves(inbox: seq<Item>, room: nat)
    requires room > 0
    ensures var (s, p) := ReadNext(inbox, room);
            && ReaderOk(s) && Taken(p) + Unread(s) == Payloads(inbox)
            && |Taken(p)| <= room
            && (p == Ready([]) ==>
                  exists i :: 0 <= i < |inbox| && (inbox[i] == Data([], true) || inbox[i] == Ended)
                              && forall j :: 0 <= j < i ==> Skipped(inbox[j]))
  {
    if inbox != [] && Skipped(inbox[0]) {
      ReadNextConserves(inbox[1..], room);
      var (s, p) := ReadNext(inbox[1..], room);
      if p == Ready([]) {
        var rest := inbox[1..];
        var i :| 0 <= i < |rest| && (rest[i] == Data([], true) || rest[i] == Ended) && forall j :: 0 <= j < i ==> Skipped(rest[j]);
        assert inbox[i + 1] == rest[i];
        assert forall j :: 0 < j < i + 1 ==> inbox[j] == rest[j - 1];
      }
    }
  }

  /** A read takes bytes off the front of what is unread, and nothing else; it returns nothing to a caller
      with room only at an empty end packet or at the reader's end. */
  lemma ReadConserves(s: Reader, room: nat)
    requires ReaderOk(s)
    ensures var (s', p) := Read(s, room);
            && ReaderOk(s') && Taken(p) + Unread(s') == Unread(s) && |Taken(p)| <= room
            && (room > 0 && p == Ready([]) ==>
                  s.readPos == |s.readBuf| &&
                  exists i :: 0 <= i < |s.inbox| && (s.inbox[i] == Data([], true) || s.inbox[i] == Ended)
                              && forall j :: 0 <= j < i ==> Skipped(s.inbox[j]))
            && (room > 0 && s.readPos < |s.readBuf| ==> p.Ready? && p.data != [])
  {
    if room > 0 && s.readPos == |s.readBuf| {
      ReadNextConserves(s.inbox, room);
    }
  }

  /** The bytes delivered by a run of reads of these sizes. */
  function Delivered(s: Reader, rooms: seq<nat>): bytes
    requires ReaderOk(s)
    decreases |rooms|
  {
    if rooms == [] then []
    else
      ReadConserves(s, rooms[0]);
      var (s', p) := Read(s, rooms[0]);
      Taken(p) + Delivered(s', rooms[1..])
  }

  /** Whatever the read sizes, what has been delivered is a prefix of the packets' payloads. */
  lemma {:induction false} DeliveredIsPrefix(s: Reader, rooms: seq<nat>)
    requires ReaderOk(s)
    ensures Delivered(s, rooms) <= Unread(s)
    decreases |rooms|
  {
    if rooms != [] {
      ReadConserves(s, rooms[0]);
      DeliveredIsPrefix(Read(s, rooms[0]).0, rooms[1..]);
    }
  }

  lemma {:induction false} ReadNextProgress(inbox: seq<Item>, room: nat)
    requires room > 0 && inbox != []
    ensures var s := ReadNext(inbox, room).0;
            ReaderOk(s) && |Unread(s)| + |s.inbox| < |Payloads(inbox)| + |inbox|
  {
    ReadNextConserves(inbox, room);
    if Skipped(inbox[0]) && |inbox| > 1 {
      ReadNextProgress(inbox[1..], room);
    }
  }

  /** Until everything is read, a read with room takes a byte or passes a packet. */
  lemma ReadProgress(s: Reader, room: nat)
    requires ReaderOk(s) && room > 0 && Unread(s) != []
    ensures var s' := Read(s, room).0;
            ReaderOk(s') && |Unread(s')| + |s'.inbox| < |Unread(s)| + |s.inbox|
  {
    ReadConserves(s, room);
    if s.readPos == |s.readBuf| {
      assert Unread(s) == Payloads(s.inbox);
      ReadNextProgress(s.inbox, room);
    }
  }

  /** Enough reads deliver everything: whatever their sizes, as many as there are bytes and packets left will do. */
  lemma {:induction false} EnoughReadsDeliverAll(s: Reader, rooms: seq<nat>)
    requires ReaderOk(s) && |rooms| >= |Unread(s)| + |s.inbox| && forall i :: 0 <= i < |rooms| ==> rooms[i] > 0
    ensures Delivered(s, rooms) == Unread(s)
    decreases |rooms|
  {
    if Unread(s) == [] {
      DeliveredIsPrefix(s, rooms);
    } else {
      ReadProgress(s, rooms[0]);
      ReadConserves(s, rooms[0]);
      EnoughReadsDeliverAll(Read(s, rooms[0]).0, rooms[1..]);
    }
  }

  /** A caller that reads on with buffers of these sizes. */
  method ReadOn(stream: ClientStream, rooms: seq<nat>) returns (got: bytes)
    requires ReaderOk(stream.View())
    modifies stream
    ensures ReaderOk(stream.View()) && got == Delivered(old(stream.View()), rooms)
  {
    got := [];
    ghost var all := Delivered(stream.View(), rooms);
    for i := 0 to |rooms|
      invariant ReaderOk(stream.View()) && got + Delivered(stream.View(), rooms[i..]) == all
    {
      ghost var s := stream.View();
      var r := stream.PollRead(rooms[i]);
      DeliveredFirst(s, rooms[i..]);
      assert rooms[i..][1..] == rooms[i + 1..];
      if r.Ready? {
        got := got + r.data;
      }
    }
  }

  lemma DeliveredFirst(s: Reader, rooms: seq<nat>)
    requires ReaderOk(s) && rooms != []
    ensures ReaderOk(Read(s, rooms[0]).0)
    ensures Delivered(s, rooms) == Taken(Read(s, rooms[0]).1) + Delivered(Read(s, rooms[0]).0, rooms[1..])
  {
    ReadConserves(s, rooms[0]);
  }

  // ----- ClientStream: the writing side -----

  datatype Writer = Writer(sent: seq<Item>, endSent: bool)

  /** One call on the writing side; `ready` says whether the framed writer takes a packet now. */
  datatype Call = Write(data: bytes, ready: bool) | Shutdown(ready: bool)

  function Called(w: Writer, c: Call): Writer {
    match c
    case Write(data, ready) => if data == [] || !ready then w else w.(sent := w.sent + [Data(data, false)])
    case Shutdown(ready) =>
      if w.endSent || !ready then w else Writer(w.sent + [Data([], true)], true)
  }

  /** The writing side of the stream. */
  class ClientWriter {
    var sent: seq<Item>
    var endSent: bool

    function View(): Writer
      reads this
    {
      Writer(sent, endSent)
    }

    constructor ()
      ensures View() == Writer([], false)
    {
      sent, endSent := [], false;
    }

    method PollWrite(data: bytes, ready: bool) returns (taken: Option<nat>)
      modifies this
      ensures View() == Called(old(View()), Write(data, ready))
      ensures taken == if data == [] || ready then Some(|data|) else None
    {
      if data == [] {
        return Some(0);
      }
      if !ready {
        return None;
      }
      sent := sent + [Data(data, false)];
      taken := Some(|data|);
    }

    method PollShutdown(ready: bool) returns (ended: bool)
      modifies this
      ensures View() == Called(old(View()), Shutdown(ready)) && ended == endSent
    {
      if !endSent {
        if !ready {
          return false;
        }
        sent := sent + [Data([], true)];
        endSent := true;
      }
      ended := true;
    }
  }

  function Calls(calls: Trace<Call>): Writer {
    match calls case Start => Writer([], false) case Then(front, c) => Called(Calls(front), c)
  }

  function Accepted(calls: Trace<Call>): bytes {
    match calls
    case Start => []
    case Then(front, Write(data, true)) => Accepted(front) + data
    case Then(front, _) => Accepted(front)
  }

  lemma {:induction false} PayloadsAppend(a: seq<Item>, b: seq<Item>)
    ensures Payloads(a + b) == Payloads(a) + Payloads(b)
  {
    if a == [] {
      assert [] + b == b;
    } else {
      PayloadsAppend(a[1..], b);
      assert (a + b)[1..] == a[1..] + b;
    }
  }

  function EndPackets(items: seq<Item>): nat {
    if items == [] then 0 else EndPackets(items[..|items| - 1]) + (if items[|items| - 1].Data? && items[|items| - 1].isEnd then 1 else 0)
  }

  predicate ShutDown(calls: Trace<Call>) {
    calls.Then? && (calls.last == Shutdown(true) || ShutDown(calls.before))
  }

  lemma OneMoreSent(items: seq<Item>, data: bytes, isEnd: bool)
    ensures Payloads(items + [Data(data, isEnd)]) == Payloads(items) + data
    ensures EndPackets(items + [Data(data, isEnd)]) == EndPackets(items) + if isEnd then 1 else 0
  {
    var d := Data(data, isEnd);
    PayloadsAppend(items, [d]);
    assert [d][1..] == [];
    assert (items + [d])[..|items|] == items;
  }

  /** Whatever the order of writes and shutdowns: the packets carry exactly the accepted bytes, and there is exactly one
      end packet if the stream was ever shut down with the writer ready, and none otherwise. */
  lemma {:induction false} WritesAreCarried(calls: Trace<Call>)
    ensures Payloads(Calls(calls).sent) == Accepted(calls)
    ensures EndPackets(Calls(calls).sent) == if ShutDown(calls) then 1 else 0
    ensures Calls(calls).endSent <==> ShutDown(calls)
  {
    match calls
    case Start =>
    case Then(front, c) =>
      WritesAreCarried(front);
      var w := Calls(front);
      match c
      case Write(data, ready) =>
        if data != [] && ready {
          OneMoreSent(w.sent, data, false);
        }
      case Shutdown(ready) =>
        if ready && !w.endSent {
          OneMoreSent(w.sent, [], true);
        }
  }

  /** Two adapters back to back: reads of any sizes see a prefix of the accepted writes, and enough of them see all. */
  lemma BytesCrossIntact(calls: Trace<Call>, rooms: seq<nat>)
    ensures Delivered(Reader([], 0, Calls(calls).sent), rooms) <= Accepted(calls)
    ensures |rooms| >= |Accepted(calls)| + |Calls(calls).sent| && (forall i :: 0 <= i < |rooms| ==> rooms[i] > 0) ==>
              Delivered(Reader([], 0, Calls(calls).sent), rooms) == Accepted(calls)
  {
    var s := Reader([], 0, Calls(calls).sent);
    WritesAreCarried(calls);
    assert Unread(s) == Accepted(calls);
    DeliveredIsPrefix(s, rooms);
    if |rooms| >= |Accepted(calls)| + |Calls(calls).sent| && forall i :: 0 <= i < |rooms| ==> rooms[i] > 0 {
      EnoughReadsDeliverAll(s, rooms);
    }
  }

  // ----- UdpClientStream: whole datagrams -----

  datatype Datagrams = Datagrams(readBuf: bytes, readPos: nat, inbox: seq<bytes>, closed: bool)

  datatype DatagramPoll = Received(data: bytes) | TooShort | NotYet

  /** A datagram is either untouched or used up: it is never split. */
  predicate Whole(s: Datagrams) {
    s.readPos == 0 || s.readPos == |s.readBuf|
  }

  function NonEmpty(inbox: seq<bytes>): seq<bytes> {
    if inbox == [] then [] else (if inbox[0] == [] then [] else [inbox[0]]) + NonEmpty(inbox[1..])
  }

  /** The datagrams not yet delivered, in order. */
  function Left(s: Datagrams): seq<bytes>
    requires Whole(s)
  {
    (if s.readPos < |s.readBuf| then [s.readBuf] else []) + NonEmpty(s.inbox)
  }

  class UdpClientStream {
    var readBuf: bytes
    var readPos: nat
    var inbox: seq<bytes>
    var closed: bool

    function View(): Datagrams
      reads this
    {
      Datagrams(readBuf, readPos, inbox, closed)
    }

    constructor (inbox: seq<bytes>, closed: bool)
      ensures View() == Datagrams([], 0, inbox, closed)
    {
      this.readBuf, this.readPos, this.inbox, this.closed := [], 0, inbox, closed;
    }

    /** Delivers the next non-empty datagram whole, or refuses a short buffer and keeps the datagram. */
    method PollRead(room: nat) returns (r: DatagramPoll)
      requires Whole(View())
      modifies this`readBuf, this`readPos, this`inbox
      ensures Whole(View())
      ensures room == 0 ==> r == Received([]) && View() == old(View())
      ensures room > 0 && Left(old(View())) == [] ==>
                r == (if closed then Received([]) else NotYet) && Left(View()) == []
      ensures room > 0 && Left(old(View())) != [] && |Left(old(View()))[0]| <= room ==>
                r == Received(Left(old(View()))[0]) && Left(View()) == Left(old(View()))[1..]
      ensures room > 0 && Left(old(View())) != [] && |Left(old(View()))[0]| > room ==>
                r == TooShort && Left(View()) == Left(old(View()))
    {
      if room == 0 {
        return Received([]);
      }
      if readPos < |readBuf| {
        if room < |readBuf| - readPos {
          return TooShort;
        }
        r := Received(readBuf[readPos..]);
        readPos := |readBuf|;
        return;
      }
      readBuf, readPos := [], 0;
      while inbox != []
        invariant readBuf == [] && readPos == 0 && NonEmpty(inbox) == Left(old(View()))
        decreases |inbox|
      {
        var data := inbox[0];
        inbox := inbox[1..];
        if data == [] {
          continue;
        }
        readBuf := data;
        if room < |readBuf| {
          return TooShort;
        }
        readPos := |readBuf|;
        return Received(readBuf);
      }
      return if closed then Received([]) else NotYet;
    }
  }

  /** The datagrams delivered by reads of these sizes, following the contract of `PollRead`. */
  function DatagramsDelivered(left: seq<bytes>, rooms: seq<nat>): seq<bytes> {
    if rooms == [] || left == [] then []
    else if rooms[0] == 0 || |left[0]| > rooms[0] then DatagramsDelivered(left, rooms[1..])
    else [left[0]] + DatagramsDelivered(left[1..], rooms[1..])
  }

  /** Reads of any sizes deliver an initial part of the datagrams, whole and in order. */
  lemma {:induction false} DatagramsArePrefix(left: seq<bytes>, rooms: seq<nat>)
    ensures DatagramsDelivered(left, rooms) <= left
  {
    if rooms != [] && left != [] {
      if rooms[0] == 0 || |left[0]| > rooms[0] {
        DatagramsArePrefix(left, rooms[1..]);
      } else {
        DatagramsArePrefix(left[1..], rooms[1..]);
      }
    }
  }

  /** Each of the reads is large enough for its datagram. */
  ghost predicate Enough(big: seq<nat>, left: seq<bytes>) {
    |big| == |left| && forall i :: 0 <= i < |left| ==> big[i] >= |left[i]| && big[i] > 0
  }

  lemma {:induction false} EnoughTakeAll(left: seq<bytes>, big: seq<nat>)
    requires Enough(big, left)
    ensures DatagramsDelivered(left, big) == left
  {
    if left != [] {
      EnoughTakeAll(left[1..], big[1..]);
    }
  }

  /** Refused reads lose nothing: after any reads at all, one large enough read for each datagram not delivered
      yet completes the delivery. */
  lemma {:induction false} DatagramsInOrder(left: seq<bytes>, rooms: seq<nat>, big: seq<nat>)
    requires |DatagramsDelivered(left, rooms)| <= |left|
    requires Enough(big, left[|DatagramsDelivered(left, rooms)|..])
    ensures DatagramsDelivered(left, rooms + big) == left
    decreases |rooms|
  {
    if rooms == [] {
      assert rooms + big == big && left[0..] == left;
      EnoughTakeAll(left, big);
    } else if left != [] {
      var later := rooms[1..];
      assert (rooms + big)[1..] == later + big;
      if rooms[0] == 0 || |left[0]| > rooms[0] {
        DatagramsInOrder(left, later, big);
      } else {
        var n := |DatagramsDelivered(left[1..], later)|;
        assert left[1..][n..] == left[n + 1..];
        DatagramsInOrder(left[1..], later, big);
      }
    }
  }

  lemma {:induction false} NonEmptyIs(inbox: seq<bytes>)
    ensures forall d :: d in NonEmpty(inbox) ==> d != []
  {
    if inbox != [] {
      NonEmptyIs(inbox[1..]);
    }
  }

  lemma LeftIsNonEmpty(s: Datagrams)
    requires Whole(s)
    ensures Left(s) != [] ==> Left(s)[0] != []
  {
    NonEmptyIs(s.inbox);
    if s.readPos == |s.readBuf| && NonEmpty(s.inbox) != [] {
      assert NonEmpty(s.inbox)[0] in NonEmpty(s.inbox);
    }
  }

  /** A caller that receives on with buffers of these sizes gets exactly the datagrams that they can take. */
  method ReceiveOn(stream: UdpClientStream, rooms: seq<nat>) returns (got: seq<bytes>)
    requires Whole(stream.View())
    modifies stream
    ensures Whole(stream.View()) && got == DatagramsDelivered(Left(old(stream.View())), rooms)
  {
    got := [];
    ghost var all := DatagramsDelivered(Left(stream.View()), rooms);
    for i := 0 to |rooms|
      invariant Whole(stream.View()) && got + DatagramsDelivered(Left(stream.View()), rooms[i..]) == all
    {
      ghost var left := Left(stream.View());
      LeftIsNonEmpty(stream.View());
      var r := stream.PollRead(rooms[i]);
      assert rooms[i..][1..] == rooms[i + 1..];
      if r.Received? && r.data != [] {
        got := got + [r.data];
      }
    }
  }
}

/** One direction of an encrypted UDP session, end to end: messages are cut into fragments, sealed under
    consecutive sequence numbers, carried by a network that may lose, repeat, reorder and inject
    datagrams, then opened, checked against the replay window and put together again. */
module UdpTransport {
  import opened Basics
  import opened BigEndian
  import opened UdpHeaders
  import opened Reassembly
  import opened ReplayProtection

  /** AES-256-GCM under one session key: nonce, additional data, text. */
  datatype Aead = Aead(seal: (bytes, bytes, bytes) -> bytes, open: (bytes, bytes, bytes) -> Option<bytes>)

  /** What both ends agree on after authentication. */
  datatype Session = Session(aead: Aead, id: bytes, noncePrefix: bytes, config: Config)

  ghost predicate SessionOk(x: Session) {
    && |x.id| == 16 && |x.noncePrefix| == 4 && x.config.maxEntries > 0
    && forall nonce, aad, plain ::
         && x.aead.open(nonce, aad, x.aead.seal(nonce, aad, plain)) == Some(plain)
         && |x.aead.seal(nonce, aad, plain)| == |plain| + TAG_LEN
  }

  // ----- Cutting a message -----

  /** The pieces of at most 1289 bytes that a message is sent in; an empty message is one empty piece. */
  function Cut(plaintext: bytes): (slices: seq<bytes>)
    ensures |slices| >= 1
    ensures |plaintext| <= |slices| * MAX_FRAGMENT
    ensures plaintext != [] ==> (|slices| - 1) * MAX_FRAGMENT < |plaintext|
    ensures forall i :: 0 <= i < |slices| ==> |slices[i]| <= MAX_FRAGMENT && |slices[i]| <= |plaintext|
    ensures plaintext != [] ==> forall i :: 0 <= i < |slices| ==> slices[i] != []
  {
    if |plaintext| <= MAX_FRAGMENT then [plaintext]
    else [plaintext[..MAX_FRAGMENT]] + Cut(plaintext[MAX_FRAGMENT..])
  }

  /** A message as the sender keeps it in mind: its text, its pieces and its first sequence number. */
  datatype Sent = Sent(plaintext: bytes, slices: seq<bytes>, base: nat)

  predicate Sealable(m: Sent) {
    && 1 <= |m.slices| <= MAX_FRAGMENTS && |m.plaintext| <= MAX_MESSAGE && m.base + |m.slices| <= U64_SIZE
    && |m.plaintext| <= |m.slices| * MAX_FRAGMENT
    && (m.plaintext == [] ==> |m.slices| == 1) && (m.plaintext != [] ==> |m.slices| <= |m.plaintext|)
  }

  function FragmentHeader(session: bytes, id: u64, m: Sent, i: nat): (h: Header)
    requires Sealable(m) && i < |m.slices|
  {
    Header(MAGIC, VERSION, Encrypted, session, m.base + i, id, i, |m.slices|, |m.plaintext|)
  }

  lemma FragmentHeaderOk(session: bytes, id: u64, m: Sent, i: nat)
    requires Sealable(m) && i < |m.slices|
    ensures Validate(FragmentHeader(session, id, m, i)).None?
  {
  }

  function Nonce(prefix: bytes, sequence: u64): bytes {
    prefix + ToBE(sequence, U64_WIDTH)
  }

  function Datagram(x: Session, id: u64, m: Sent, i: nat): bytes
    requires Sealable(m) && i < |m.slices|
  {
    var aad := Layout(FragmentHeader(x.id, id, m, i));
    aad + x.aead.seal(Nonce(x.noncePrefix, m.base + i), aad, m.slices[i])
  }

  // ----- The sending half -----

  datatype Sender = Sender(nextSequence: u64, sequenceExhausted: bool, nextMessage: u64, messageExhausted: bool)

  /** First sequence number that has not been used yet; 2^64 when all have. */
  function Horizon(s: Sender): nat {
    if s.sequenceExhausted then U64_SIZE else s.nextSequence
  }

  function NextSent(s: Sender, plaintext: bytes): Sent {
    Sent(plaintext, Cut(plaintext), s.nextSequence)
  }

  function SealError(s: Sender, m: Sent): Option<Error> {
    if s.messageExhausted then Some(MessageIdExhausted)
    else if |m.plaintext| > MAX_MESSAGE then Some(MessageTooLarge)
    else if s.sequenceExhausted || m.base + |m.slices| > U64_SIZE then Some(SequenceExhausted)
    else None
  }

  function AfterSeal(s: Sender, m: Sent): Sender
    requires SealError(s, m).None? && m.base == s.nextSequence && |m.slices| >= 1
  {
    var last := m.base + |m.slices| - 1;
    Sender(
      if last == U64_MAX then s.nextSequence else last + 1, last == U64_MAX,
      if s.nextMessage == U64_MAX then s.nextMessage else s.nextMessage + 1, s.nextMessage == U64_MAX)
  }

  lemma {:induction false} CutAt(plaintext: bytes, i: nat)
    requires i < |Cut(plaintext)|
    ensures i * MAX_FRAGMENT <= |plaintext|
    ensures Cut(plaintext)[i] ==
            plaintext[i * MAX_FRAGMENT..if (i + 1) * MAX_FRAGMENT <= |plaintext| then (i + 1) * MAX_FRAGMENT else |plaintext|]
  {
    if i > 0 {
      var rest := plaintext[MAX_FRAGMENT..];
      CutAt(rest, i - 1);
      CutRest(plaintext);
      var lo := (i - 1) * MAX_FRAGMENT;
      SliceOfRest(plaintext, MAX_FRAGMENT, lo, if i * MAX_FRAGMENT <= |rest| then i * MAX_FRAGMENT else |rest|);
    }
  }

  lemma CutRest(plaintext: bytes)
    requires |Cut(plaintext)| > 1
    ensures |plaintext| > MAX_FRAGMENT && Cut(plaintext)[1..] == Cut(plaintext[MAX_FRAGMENT..])
  {
  }

  lemma SliceOfRest(s: bytes, n: nat, lo: nat, hi: nat)
    requires n + lo <= n + hi <= |s|
    ensures s[n..][lo..hi] == s[n + lo..n + hi]
  {
  }

  class UdpSender {
    const session: Session
    var state: Sender

    constructor (session: Session)
      ensures this.session == session && state == Sender(0, false, 0, false)
    {
      this.session := session;
      state := Sender(0, false, 0, false);
    }

    /** Seals every fragment of one message under its own sequence number, or fails and changes nothing. */
    method EncodeMessage(plaintext: bytes) returns (r: Result<seq<bytes>, Error>)
      requires SessionOk(session)
      modifies this
      ensures var m := NextSent(old(state), plaintext);
              match r
              case Err(e) => SealError(old(state), m) == Some(e) && state == old(state)
              case Ok(datagrams) =>
                && SealError(old(state), m).None? && state == AfterSeal(old(state), m)
                && Sealable(m) && |datagrams| == |m.slices|
                && forall i :: 0 <= i < |datagrams| ==>
                     datagrams[i] == Datagram(session, old(state).nextMessage, m, i) && |datagrams[i]| <= MAX_DATAGRAM
    {
      if state.messageExhausted {
        return Err(MessageIdExhausted);
      }
      if |plaintext| > MAX_MESSAGE {
        return Err(MessageTooLarge);
      }
      var count := if |plaintext| == 0 then 1 else (|plaintext| + MAX_FRAGMENT - 1) / MAX_FRAGMENT;
      ghost var m := NextSent(state, plaintext);
      assert count == |m.slices|;
      if state.sequenceExhausted {
        return Err(SequenceExhausted);
      }
      var last := state.nextSequence + count - 1;
      if last > U64_MAX {
        return Err(SequenceExhausted);
      }
      var datagrams := [];
      for i := 0 to count
        invariant state == old(state) && |datagrams| == i
        invariant forall k :: 0 <= k < i ==>
                    datagrams[k] == Datagram(session, state.nextMessage, m, k) && |datagrams[k]| <= MAX_DATAGRAM
      {
        CutAt(plaintext, i);
        var start := i * MAX_FRAGMENT;
        var end := if start + MAX_FRAGMENT <= |plaintext| then start + MAX_FRAGMENT else |plaintext|;
        var datagram := SealFragment(i, count, plaintext, plaintext[start..end], m);
        datagrams := datagrams + [datagram];
      }
      if last == U64_MAX {
        state := state.(sequenceExhausted := true);
      } else {
        state := state.(nextSequence := last + 1);
      }
      if state.nextMessage == U64_MAX {
        state := state.(messageExhausted := true);
      } else {
        state := state.(nextMessage := state.nextMessage + 1);
      }
      r := Ok(datagrams);
    }

    method SealFragment(i: nat, count: nat, plaintext: bytes, fragment: bytes, ghost m: Sent) returns (d: bytes)
      requires SessionOk(session) && Sealable(m) && i < |m.slices| == count && m.base == state.nextSequence
      requires m.plaintext == plaintext && m.slices[i] == fragment && |fragment| <= MAX_FRAGMENT
      ensures d == Datagram(session, state.nextMessage, m, i) && |d| <= MAX_DATAGRAM
    {
      var sequence := state.nextSequence + i;
      var header := Header(MAGIC, VERSION, Encrypted, session.id, sequence, state.nextMessage, i, count, |plaintext|);
      LayoutFields(header, []);
      var aad := Layout(header);
      d := aad + session.aead.seal(Nonce(session.noncePrefix, sequence), aad, fragment);
    }
  }

  // ----- The receiving half -----

  /** Parse, replay check, authenticate, size checks, in that order. */
  ghost function OpenDatagram(x: Session, accepted: set<int>, d: bytes): Result<Fragment, Error> {
    if |d| > MAX_DATAGRAM then Err(DatagramTooLarge)
    else if |d| < HEADER_LEN + TAG_LEN then Err(DatagramTooShort)
    else
      match Decode(d)
      case Err(e) => Err(e)
      case Ok(h) =>
        if !h.kind.Encrypted? then Err(UnexpectedPacketKind)
        else if h.session != x.id then Err(WrongSession)
        else if !Fresh(accepted, h.sequence) then Err(ReplayRejected)
        else
          match x.aead.open(Nonce(x.noncePrefix, h.sequence), d[..HEADER_LEN], d[HEADER_LEN..])
          case None => Err(AuthenticationFailed)
          case Some(plain) =>
            if |plain| > MAX_FRAGMENT then Err(InvalidHeader)
            else if h.total != 0 && plain == [] then Err(InvalidHeader)
            else Ok(Fragment(h, plain))
  }

  // ----- Whole runs -----

  /** `log[m]` is the message sealed under message id `m`. */
  datatype World = World(
    sender: Sender, log: seq<Sent>, accepted: set<int>, table: State, delivered: seq<(u64, bytes)>)

  datatype Event = Send(plaintext: bytes) | Receive(datagram: bytes, now: nat)

  ghost predicate Sends(w: World, plaintext: bytes, w': World) {
    var m := NextSent(w.sender, plaintext);
    if SealError(w.sender, m).Some? then w' == w
    else w' == w.(sender := AfterSeal(w.sender, m), log := w.log + [m])
  }

  /** What the caller has been handed after one more push. */
  function Handed(delivered: seq<(u64, bytes)>, f: Fragment, r: Outcome): seq<(u64, bytes)> {
    if r.Ok? && r.value.Some? then delivered + [(f.header.message, r.value.value)] else delivered
  }

  ghost predicate Receives(x: Session, w: World, d: bytes, now: nat, w': World) {
    match OpenDatagram(x, w.accepted, d)
    case Err(_) => w' == w
    case Ok(f) =>
      exists r ::
        && Pushed(x.config, w.table, f, now, w'.table, r)
        && w' == World(w.sender, w.log, w.accepted + {f.header.sequence}, w'.table, Handed(w.delivered, f, r))
  }

  /** Header bytes and text of one fragment that was really sealed. */
  ghost predicate Genuine(x: Session, log: seq<Sent>, id: nat, i: nat, aad: bytes, plain: bytes) {
    && id < |log| && id < U64_SIZE && Sealable(log[id]) && i < |log[id].slices|
    && aad == Layout(FragmentHeader(x.id, id, log[id], i))
    && plain == log[id].slices[i]
  }

  /** Ideal authentication: what opens under the session key was sealed by the peer. */
  ghost predicate Unforged(x: Session, log: seq<Sent>, d: bytes) {
    |d| >= HEADER_LEN ==>
      forall sequence: u64, plain ::
        x.aead.open(Nonce(x.noncePrefix, sequence), d[..HEADER_LEN], d[HEADER_LEN..]) == Some(plain) ==>
          exists id: nat, i: nat :: Genuine(x, log, id, i, d[..HEADER_LEN], plain)
  }

  ghost predicate Steps(x: Session, w: World, e: Event, w': World) {
    match e
    case Send(p) => Sends(w, p, w')
    case Receive(d, now) => Unforged(x, w.log, d) && Receives(x, w, d, now, w')
  }

  const INITIAL := World(Sender(0, false, 0, false), [], {}, State(map[], 0), [])

  /** Some run with these events ends in `w`. */
  ghost predicate Reaches(x: Session, events: Trace<Event>, w: World) {
    match events
    case Start => w == INITIAL
    case Then(front, last) => exists v :: Reaches(x, front, v) && Steps(x, v, last, w)
  }

  // ----- Cutting loses nothing -----

  function Flatten(slices: seq<bytes>): bytes {
    if slices == [] then [] else Flatten(slices[..|slices| - 1]) + slices[|slices| - 1]
  }

  lemma {:induction false} FlattenFront(first: bytes, rest: seq<bytes>)
    ensures Flatten([first] + rest) == first + Flatten(rest)
  {
    var all := [first] + rest;
    if rest == [] {
      assert all[..0] == [];
    } else {
      FlattenFront(first, rest[..|rest| - 1]);
      assert all[..|all| - 1] == [first] + rest[..|rest| - 1];
    }
  }

  /** Cutting and joining again is the identity. */
  lemma {:induction false} FlattenCut(plaintext: bytes)
    ensures Flatten(Cut(plaintext)) == plaintext
  {
    if |plaintext| <= MAX_FRAGMENT {
      assert Cut(plaintext)[..0] == [];
    } else {
      FlattenCut(plaintext[MAX_FRAGMENT..]);
      FlattenFront(plaintext[..MAX_FRAGMENT], Cut(plaintext[MAX_FRAGMENT..]));
    }
  }

  lemma {:induction false} AllSome(fragments: seq<Option<bytes>>)
    ensures CountSome(fragments) <= |fragments|
    ensures CountSome(fragments) == |fragments| ==> forall i :: 0 <= i < |fragments| ==> fragments[i].Some?
  {
    if fragments != [] {
      AllSome(fragments[..|fragments| - 1]);
    }
  }

  /** Once every slot holds its piece, joining the slots joins the pieces. */
  lemma {:induction false} FullSlotsJoin(fragments: seq<Option<bytes>>, slices: seq<bytes>)
    requires |fragments| == |slices|
    requires forall i :: 0 <= i < |fragments| ==> fragments[i] == Some(slices[i])
    ensures Joined(fragments) == Flatten(slices)
  {
    if fragments != [] {
      FullSlotsJoin(fragments[..|fragments| - 1], slices[..|slices| - 1]);
    }
  }

  // ----- The invariant -----

  /** Every piece is small enough, and only an empty message has an empty one: what the receiver asks of a fragment. */
  ghost predicate Openable(m: Sent) {
    forall i :: 0 <= i < |m.slices| ==> |m.slices[i]| <= MAX_FRAGMENT && (m.plaintext != [] ==> m.slices[i] != [])
  }

  lemma CutIsOpenable(m: Sent)
    requires m.slices == Cut(m.plaintext)
    ensures Openable(m)
  {
  }

  ghost predicate SenderOk(s: Sender, log: seq<Sent>) {
    && |log| == (if s.messageExhausted then U64_SIZE else s.nextMessage)
    && (forall k :: 0 <= k < |log| ==> Sealable(log[k]) && Flatten(log[k].slices) == log[k].plaintext)
    && (forall k :: 0 <= k < |log| ==> Openable(log[k]))
    && (forall k :: 0 <= k < |log| ==> log[k].base + |log[k].slices| <= Horizon(s))
    && (forall j, k :: 0 <= j < k < |log| ==> log[j].base + |log[j].slices| <= log[k].base)
  }

  predicate Accepted(m: Sent, accepted: set<int>, i: nat) {
    m.base + i in accepted
  }

  ghost predicate SlotsOk(e: Entry, m: Sent, accepted: set<int>) {
    && e.count == |e.fragments| == |m.slices| && e.count >= 2 && e.total == |m.plaintext|
    && forall i :: 0 <= i < e.count && e.fragments[i].Some? ==>
         e.fragments[i].value == m.slices[i] && Accepted(m, accepted, i)
  }

  ghost predicate EntriesOk(x: Session, log: seq<Sent>, accepted: set<int>, entries: map<Key, Entry>) {
    forall k :: k in entries ==> k.0 == x.id && k.1 < |log| && SlotsOk(entries[k], log[k.1], accepted)
  }

  ghost predicate AllAccepted(m: Sent, accepted: set<int>) {
    forall i :: 0 <= i < |m.slices| ==> Accepted(m, accepted, i)
  }

  ghost predicate DeliveredOk(x: Session, log: seq<Sent>, accepted: set<int>, entries: map<Key, Entry>, delivered: seq<(u64, bytes)>) {
    && (forall k :: 0 <= k < |delivered| ==>
          && delivered[k].0 < |log| && delivered[k].1 == log[delivered[k].0].plaintext
          && AllAccepted(log[delivered[k].0], accepted) && (x.id, delivered[k].0) !in entries)
    && (forall j, k :: 0 <= j < k < |delivered| ==> delivered[j].0 != delivered[k].0)
  }

  ghost predicate Inv(x: Session, w: World) {
    && SenderOk(w.sender, w.log)
    && StateOk(x.config, w.table)
    && EntriesOk(x, w.log, w.accepted, w.table.entries)
    && DeliveredOk(x, w.log, w.accepted, w.table.entries, w.delivered)
  }

  lemma SendKeepsSender(s: Sender, log: seq<Sent>, m: Sent)
    requires SenderOk(s, log) && m == NextSent(s, m.plaintext) && SealError(s, m).None?
    ensures SenderOk(AfterSeal(s, m), log + [m])
  {
    FlattenCut(m.plaintext);
    CutIsOpenable(m);
    LogOk(s, log, m);
  }

  lemma LogOk(s: Sender, log: seq<Sent>, m: Sent)
    requires SenderOk(s, log) && SealError(s, m).None? && m.base == s.nextSequence
    requires Sealable(m) && Flatten(m.slices) == m.plaintext && Openable(m)
    ensures SenderOk(AfterSeal(s, m), log + [m])
  {
    var more := log + [m];
    forall k | 0 <= k < |more| ensures Sealable(more[k]) && Flatten(more[k].slices) == more[k].plaintext && Openable(more[k]) {
      assert k < |log| ==> more[k] == log[k];
    }
  }

  lemma LogGrows(x: Session, log: seq<Sent>, m: Sent, accepted: set<int>, entries: map<Key, Entry>, delivered: seq<(u64, bytes)>)
    requires EntriesOk(x, log, accepted, entries) && DeliveredOk(x, log, accepted, entries, delivered)
    ensures EntriesOk(x, log + [m], accepted, entries) && DeliveredOk(x, log + [m], accepted, entries, delivered)
  {
  }

  lemma SendKeepsInv(x: Session, w: World, plaintext: bytes, w': World)
    requires Inv(x, w) && Sends(w, plaintext, w')
    ensures Inv(x, w')
  {
    var m := NextSent(w.sender, plaintext);
    if SealError(w.sender, m).None? {
      SendKeepsSender(w.sender, w.log, m);
      LogGrows(x, w.log, m, w.accepted, w.table.entries, w.delivered);
    }
  }

  /** A genuine fragment, as the receiver sees it. */
  ghost predicate FragmentOf(x: Session, log: seq<Sent>, f: Fragment) {
    var id := f.header.message;
    && id < |log| && Sealable(log[id]) && f.header.index < |log[id].slices|
    && f.header == FragmentHeader(x.id, id, log[id], f.header.index)
    && f.payload == log[id].slices[f.header.index]
  }

  /** What authenticates is a piece of the message whose id the header carries. */
  lemma OpenedIsGenuine(x: Session, log: seq<Sent>, accepted: set<int>, d: bytes)
    requires SessionOk(x) && Unforged(x, log, d) && OpenDatagram(x, accepted, d).Ok?
    ensures Fresh(accepted, OpenDatagram(x, accepted, d).value.header.sequence)
    ensures FragmentOf(x, log, OpenDatagram(x, accepted, d).value)
  {
    var f := OpenDatagram(x, accepted, d).value;
    var id: nat, i: nat :| Genuine(x, log, id, i, d[..HEADER_LEN], f.payload);
    var h := FragmentHeader(x.id, id, log[id], i);
    FragmentHeaderOk(x.id, id, log[id], i);
    HeaderRoundTrip(h, d[HEADER_LEN..]);
    assert d == d[..HEADER_LEN] + d[HEADER_LEN..];
  }

  ghost predicate PushResult(x: Session, log: seq<Sent>, accepted: set<int>, f: Fragment, s': State, r: Outcome)
    requires f.header.message < |log|
  {
    && EntriesOk(x, log, accepted, s'.entries)
    && (r.Ok? && r.value.Some? ==>
          && r.value.value == Flatten(log[f.header.message].slices)
          && AllAccepted(log[f.header.message], accepted) && KeyOf(f) !in s'.entries)
  }

  lemma FilledSlots(e: Entry, m: Sent, accepted: set<int>, index: nat, payload: bytes, now: nat)
    requires SlotsOk(e, m, accepted) && index < e.count && payload == m.slices[index] && Accepted(m, accepted, index)
    ensures SlotsOk(WithFragment(e, index, payload, now), m, accepted)
  {
  }

  lemma FullEntry(e: Entry, m: Sent, accepted: set<int>)
    requires SlotsOk(e, m, accepted) && CountSome(e.fragments) == e.count
    ensures Joined(e.fragments) == Flatten(m.slices) && AllAccepted(m, accepted)
  {
    AllSome(e.fragments);
    FullSlotsJoin(e.fragments, m.slices);
  }

  lemma CompletedEntries(x: Session, log: seq<Sent>, accepted: set<int>, s: State, f: Fragment, now: nat, s': State, r: Outcome)
    requires FragmentOf(x, log, f) && EntriesOk(x, log, accepted, s.entries) && f.header.sequence in accepted
    requires StateOk(x.config, s) && Completed(s, f, now, s', r) && s.entries[KeyOf(f)].fragments[f.header.index] == None
    ensures PushResult(x, log, accepted, f, s', r)
    ensures forall k :: k in s'.entries ==> k in s.entries
  {
    var e, m := s.entries[KeyOf(f)], log[f.header.message];
    FillSlot(e.fragments, f.header.index, f.payload);
    var e' := WithFragment(e, f.header.index, f.payload, now);
    assert Accepted(m, accepted, f.header.index);
    FilledSlots(e, m, accepted, f.header.index, f.payload, now);
    if e'.receivedCount == e'.count {
      FullEntry(e', m, accepted);
    }
  }

  lemma StoredEntries(x: Session, log: seq<Sent>, accepted: set<int>, s: State, f: Fragment, now: nat, s': State, r: Outcome)
    requires FragmentOf(x, log, f) && EntriesOk(x, log, accepted, s.entries) && f.header.sequence in accepted
    requires StateOk(x.config, s) && Stored(x.config, s, f, now, s', r)
    ensures PushResult(x, log, accepted, f, s', r)
    ensures forall k :: k in s'.entries ==> k in s.entries
  {
    var key := KeyOf(f);
    if exists s2 :: Evicted(x.config, s, key, |f.payload|, s2) && Completed(s2, f, now, s', r) {
      if s.entries[key].fragments[f.header.index].None? {
        var s2 :| Evicted(x.config, s, key, |f.payload|, s2) && Completed(s2, f, now, s', r);
        EvictedOk(x.config, s, key, |f.payload|, s2);
        CompletedEntries(x, log, accepted, s2, f, now, s', r);
      }
    }
  }

  lemma InsertedEntries(x: Session, log: seq<Sent>, accepted: set<int>, s: State, f: Fragment, now: nat)
    requires FragmentOf(x, log, f) && EntriesOk(x, log, accepted, s.entries) && f.header.count >= 2
    ensures EntriesOk(x, log, accepted, Inserted(s, f, now).entries)
    ensures Inserted(s, f, now).entries.Keys == s.entries.Keys + {KeyOf(f)}
  {
    var m := log[f.header.message];
    var e := Inserted(s, f, now).entries[KeyOf(f)];
    assert e.count == |m.slices| && e.total == |m.plaintext|;
    assert forall i :: 0 <= i < e.count ==> e.fragments[i] == None;
    assert SlotsOk(e, m, accepted);
  }

  lemma FirstFragment(x: Session, log: seq<Sent>, accepted: set<int>, s: State, f: Fragment, now: nat, s': State, r: Outcome)
    requires FragmentOf(x, log, f) && EntriesOk(x, log, accepted, s.entries) && f.header.sequence in accepted
    requires StateOk(x.config, s) && KeyOf(f) !in s.entries && |s.entries| < x.config.maxEntries && f.header.count >= 2
    requires Stored(x.config, Inserted(s, f, now), f, now, s', r)
    ensures PushResult(x, log, accepted, f, s', r)
    ensures forall k :: k in s'.entries ==> k in s.entries || k == KeyOf(f)
  {
    var s1 := Inserted(s, f, now);
    InsertedOk(x.config, s, f, now);
    InsertedEntries(x, log, accepted, s, f, now);
    StoredEntries(x, log, accepted, s1, f, now, s', r);
  }

  lemma RoomIsMade(x: Session, log: seq<Sent>, accepted: set<int>, s: State, k: Key)
    requires StateOk(x.config, s) && EntriesOk(x, log, accepted, s.entries) && k in s.entries
    requires |s.entries| == x.config.maxEntries
    ensures StateOk(x.config, Remove(s, k)) && EntriesOk(x, log, accepted, Remove(s, k).entries)
    ensures |Remove(s, k).entries| < x.config.maxEntries && Remove(s, k).entries.Keys <= s.entries.Keys
  {
    RemoveOk(x.config, s, k);
    assert Remove(s, k).entries.Keys == s.entries.Keys - {k};
  }

  /** A fragment of a message that has no entry yet. */
  lemma MissingEntry(x: Session, log: seq<Sent>, accepted: set<int>, s: State, f: Fragment, now: nat, s': State, r: Outcome)
    requires x.config.maxEntries > 0 && FragmentOf(x, log, f) && EntriesOk(x, log, accepted, s.entries)
    requires f.header.sequence in accepted && f.header.count >= 2
    requires StateOk(x.config, s) && KeyOf(f) !in s.entries
    requires if |s.entries| >= x.config.maxEntries then
               exists k :: Oldest(s, None, k) && Stored(x.config, Inserted(Remove(s, k), f, now), f, now, s', r)
             else Stored(x.config, Inserted(s, f, now), f, now, s', r)
    ensures PushResult(x, log, accepted, f, s', r)
    ensures forall k :: k in s'.entries ==> k in s.entries || k == KeyOf(f)
  {
    if |s.entries| >= x.config.maxEntries {
      var k :| Oldest(s, None, k) && Stored(x.config, Inserted(Remove(s, k), f, now), f, now, s', r);
      RoomIsMade(x, log, accepted, s, k);
      FirstFragment(x, log, accepted, Remove(s, k), f, now, s', r);
    } else {
      FirstFragment(x, log, accepted, s, f, now, s', r);
    }
  }

  lemma SingleFragment(x: Session, log: seq<Sent>, accepted: set<int>, f: Fragment)
    requires FragmentOf(x, log, f) && f.header.sequence in accepted && f.header.count == 1
    ensures f.payload == Flatten(log[f.header.message].slices) && AllAccepted(log[f.header.message], accepted)
  {
    var m := log[f.header.message];
    assert Accepted(m, accepted, 0);
    assert m.slices[..0] == [];
  }

  /** Pushing a genuine fragment keeps only genuine pieces, and completes only whole messages. */
  lemma PushedEntries(x: Session, log: seq<Sent>, accepted: set<int>, s: State, f: Fragment, now: nat, s': State, r: Outcome)
    requires x.config.maxEntries > 0 && FragmentOf(x, log, f) && EntriesOk(x, log, accepted, s.entries)
    requires f.header.sequence in accepted
    requires StateOk(x.config, s) && Pushed(x.config, s, f, now, s', r)
    ensures PushResult(x, log, accepted, f, s', r)
    ensures forall k :: k in s'.entries ==> k in s.entries || k == KeyOf(f)
  {
    if ValidateFragment(f).None? {
      if f.header.count == 1 {
        SingleFragment(x, log, accepted, f);
      } else {
        var s1 := Cleanup(x.config, s, now);
        CleanupOk(x.config, s, now);
        if KeyOf(f) in s1.entries {
          StoredEntries(x, log, accepted, s1, f, now, s', r);
        } else if |f.payload| <= x.config.maxBytes {
          MissingEntry(x, log, accepted, s1, f, now, s', r);
        }
      }
    }
  }

  lemma AcceptedGrowsEntries(x: Session, log: seq<Sent>, accepted: set<int>, entries: map<Key, Entry>, sequence: int)
    requires EntriesOk(x, log, accepted, entries)
    ensures EntriesOk(x, log, accepted + {sequence}, entries)
  {
    assert forall m, i: nat :: Accepted(m, accepted, i) ==> Accepted(m, accepted + {sequence}, i);
  }

  lemma AllAcceptedGrows(m: Sent, accepted: set<int>, sequence: int)
    requires AllAccepted(m, accepted)
    ensures AllAccepted(m, accepted + {sequence})
  {
    forall i | 0 <= i < |m.slices| ensures Accepted(m, accepted + {sequence}, i) {
      assert Accepted(m, accepted, i);
    }
  }

  /** Messages handed up earlier stay as they were. */
  lemma DeliveredStays(x: Session, log: seq<Sent>, accepted: set<int>, before: map<Key, Entry>, after: map<Key, Entry>,
                       delivered: seq<(u64, bytes)>, f: Fragment)
    requires DeliveredOk(x, log, accepted, before, delivered)
    requires forall k :: 0 <= k < |delivered| ==> delivered[k].0 != f.header.message
    requires forall k :: k in after ==> k in before || k == KeyOf(f)
    ensures DeliveredOk(x, log, accepted + {f.header.sequence}, after, delivered)
  {
    forall k | 0 <= k < |delivered| ensures AllAccepted(log[delivered[k].0], accepted + {f.header.sequence}) {
      AllAcceptedGrows(log[delivered[k].0], accepted, f.header.sequence);
    }
  }

  lemma HandedKeepsDelivered(x: Session, log: seq<Sent>, accepted: set<int>, delivered: seq<(u64, bytes)>, f: Fragment,
                             table: State, r: Outcome)
    requires FragmentOf(x, log, f) && DeliveredOk(x, log, accepted, table.entries, delivered)
    requires forall k :: 0 <= k < |delivered| ==> delivered[k].0 != f.header.message
    requires PushResult(x, log, accepted, f, table, r)
    requires Flatten(log[f.header.message].slices) == log[f.header.message].plaintext
    ensures DeliveredOk(x, log, accepted, table.entries, Handed(delivered, f, r))
  {
  }

  lemma PushKeepsInv(x: Session, w: World, f: Fragment, now: nat, table: State, r: Outcome)
    requires x.config.maxEntries > 0 && Inv(x, w) && FragmentOf(x, w.log, f) && f.header.sequence !in w.accepted
    requires Pushed(x.config, w.table, f, now, table, r)
    ensures Inv(x, World(w.sender, w.log, w.accepted + {f.header.sequence}, table, Handed(w.delivered, f, r)))
  {
    FreshIsUndelivered(x, w.log, w.accepted, w.table.entries, w.delivered, f);
    AcceptedGrowsEntries(x, w.log, w.accepted, w.table.entries, f.header.sequence);
    PushedEntries(x, w.log, w.accepted + {f.header.sequence}, w.table, f, now, table, r);
    PushKeepsBookkeeping(x.config, w.table, f, now, table, r);
    DeliveredStays(x, w.log, w.accepted, w.table.entries, table.entries, w.delivered, f);
    HandedKeepsDelivered(x, w.log, w.accepted + {f.header.sequence}, w.delivered, f, table, r);
  }

  lemma ReceiveKeepsInv(x: Session, w: World, d: bytes, now: nat, w': World)
    requires SessionOk(x) && Inv(x, w) && Unforged(x, w.log, d) && Receives(x, w, d, now, w')
    ensures Inv(x, w')
  {
    var result := OpenDatagram(x, w.accepted, d);
    if result.Ok? {
      OpenedIsGenuine(x, w.log, w.accepted, d);
      var f := result.value;
      var r :| && Pushed(x.config, w.table, f, now, w'.table, r)
               && w' == World(w.sender, w.log, w.accepted + {f.header.sequence}, w'.table, Handed(w.delivered, f, r));
      PushKeepsInv(x, w, f, now, w'.table, r);
    }
  }

  /** A message already handed up has no fragment left that the replay window would let through. */
  lemma FreshIsUndelivered(x: Session, log: seq<Sent>, accepted: set<int>, entries: map<Key, Entry>, delivered: seq<(u64, bytes)>, f: Fragment)
    requires DeliveredOk(x, log, accepted, entries, delivered) && FragmentOf(x, log, f) && f.header.sequence !in accepted
    ensures forall k :: 0 <= k < |delivered| ==> delivered[k].0 != f.header.message
  {
    assert !Accepted(log[f.header.message], accepted, f.header.index);
    assert !AllAccepted(log[f.header.message], accepted);
  }

  lemma {:induction false} RunKeepsInv(x: Session, events: Trace<Event>, w: World)
    requires SessionOk(x) && Reaches(x, events, w)
    ensures Inv(x, w)
  {
    match events
    case Start =>
    case Then(front, last) =>
      var v :| Reaches(x, front, v) && Steps(x, v, last, w);
      RunKeepsInv(x, front, v);
      match last
      case Send(p) => SendKeepsInv(x, v, p, w);
      case Receive(d, now) => ReceiveKeepsInv(x, v, d, now, w);
  }

  /** Every message handed up, in any run over any network, is byte for byte the message that was sent
      under its id, no message is handed up twice, and the reassembly limits hold. */
  lemma DeliversIntactAndAtMostOnce(x: Session, events: Trace<Event>, w: World)
    requires SessionOk(x) && Reaches(x, events, w)
    ensures forall k :: 0 <= k < |w.delivered| ==>
              w.delivered[k].0 < |w.log| && w.delivered[k].1 == w.log[w.delivered[k].0].plaintext
    ensures forall j, k :: 0 <= j < k < |w.delivered| ==> w.delivered[j].0 != w.delivered[k].0
    ensures StateOk(x.config, w.table)
  {
    RunKeepsInv(x, events, w);
  }

  /** `at` names a fragment of the session: a message id and a piece of that message. */
  predicate IsFragment(log: seq<Sent>, at: (nat, nat)) {
    at.0 < |log| && at.1 < |log[at.0].slices|
  }

  function SequenceOf(log: seq<Sent>, at: (nat, nat)): int
    requires IsFragment(log, at)
  {
    log[at.0].base + at.1
  }

  lemma SequencesDiffer(s: Sender, log: seq<Sent>, a: (nat, nat), b: (nat, nat))
    requires SenderOk(s, log) && a != b && IsFragment(log, a) && IsFragment(log, b)
    ensures 0 <= SequenceOf(log, a) < U64_SIZE && SequenceOf(log, a) != SequenceOf(log, b)
  {
    assert Sealable(log[a.0]) && Sealable(log[b.0]);
    if a.0 < b.0 {
      assert log[a.0].base + |log[a.0].slices| <= log[b.0].base;
    } else if b.0 < a.0 {
      assert log[b.0].base + |log[b.0].slices| <= log[a.0].base;
    }
  }

  /** The datagram is a header and the cipher's output for that nonce, with the header authenticated. */
  ghost predicate SealedUnder(x: Session, d: bytes, nonce: bytes, text: bytes) {
    |d| >= HEADER_LEN && d[HEADER_LEN..] == x.aead.seal(nonce, d[..HEADER_LEN], text)
  }

  lemma DatagramIsSealed(x: Session, id: u64, m: Sent, i: nat)
    requires SessionOk(x) && Sealable(m) && i < |m.slices|
    ensures SealedUnder(x, Datagram(x, id, m, i), Nonce(x.noncePrefix, m.base + i), m.slices[i])
    ensures Datagram(x, id, m, i)[..HEADER_LEN] == Layout(FragmentHeader(x.id, id, m, i))
  {
    LayoutFields(FragmentHeader(x.id, id, m, i), []);
  }

  /** What the sender seals, the receiver opens: a datagram whose sequence number is fresh yields exactly its fragment. */
  lemma OpensWhatWasSealed(x: Session, accepted: set<int>, id: u64, m: Sent, i: nat)
    requires SessionOk(x) && Sealable(m) && Openable(m) && i < |m.slices| && Fresh(accepted, m.base + i)
    ensures OpenDatagram(x, accepted, Datagram(x, id, m, i)) == Ok(Fragment(FragmentHeader(x.id, id, m, i), m.slices[i]))
  {
    var h, d := FragmentHeader(x.id, id, m, i), Datagram(x, id, m, i);
    FragmentHeaderOk(x.id, id, m, i);
    DatagramIsSealed(x, id, m, i);
    HeaderRoundTrip(h, d[HEADER_LEN..]);
    assert d == Layout(h) + d[HEADER_LEN..];
  }

  lemma RefusesReplay(x: Session, accepted: set<int>, id: u64, m: Sent, i: nat)
    requires SessionOk(x) && Sealable(m) && Openable(m) && i < |m.slices| && !Fresh(accepted, m.base + i)
    ensures OpenDatagram(x, accepted, Datagram(x, id, m, i)) == Err(ReplayRejected)
  {
    var h, d := FragmentHeader(x.id, id, m, i), Datagram(x, id, m, i);
    FragmentHeaderOk(x.id, id, m, i);
    DatagramIsSealed(x, id, m, i);
    HeaderRoundTrip(h, d[HEADER_LEN..]);
    assert d == Layout(h) + d[HEADER_LEN..];
  }

  /** What the invariant says about one fragment. */
  lemma FragmentIsSealable(x: Session, events: Trace<Event>, w: World, at: (nat, nat))
    requires SessionOk(x) && Reaches(x, events, w) && IsFragment(w.log, at)
    ensures at.0 < U64_SIZE && Sealable(w.log[at.0]) && Openable(w.log[at.0])
  {
    RunKeepsInv(x, events, w);
  }

  /** The datagram is opened to its fragment if its sequence number is fresh, and refused as a replay if not. */
  ghost predicate OpensIffFresh(x: Session, accepted: set<int>, id: nat, m: Sent, i: nat) {
    && id < U64_SIZE && Sealable(m) && i < |m.slices|
    && OpenDatagram(x, accepted, Datagram(x, id, m, i))
       == if Fresh(accepted, m.base + i) then Ok(Fragment(FragmentHeader(x.id, id, m, i), m.slices[i])) else Err(ReplayRejected)
  }

  lemma SealableOpensIffFresh(x: Session, accepted: set<int>, id: nat, m: Sent, i: nat)
    requires SessionOk(x) && id < U64_SIZE && Sealable(m) && Openable(m) && i < |m.slices|
    ensures OpensIffFresh(x, accepted, id, m, i)
  {
    if Fresh(accepted, m.base + i) {
      OpensWhatWasSealed(x, accepted, id, m, i);
    } else {
      RefusesReplay(x, accepted, id, m, i);
    }
  }

  /** In every run, every datagram of every message sent is opened to its fragment, unless its sequence number was
      accepted before or has fallen out of the window; then it is refused as a replay. */
  lemma GenuineIsOpenedIffFresh(x: Session, events: Trace<Event>, w: World, at: (nat, nat))
    requires SessionOk(x) && Reaches(x, events, w) && IsFragment(w.log, at)
    ensures OpensIffFresh(x, w.accepted, at.0, w.log[at.0], at.1)
  {
    FragmentIsSealable(x, events, w, at);
    SealableOpensIffFresh(x, w.accepted, at.0, w.log[at.0], at.1);
  }

  lemma RunSequencesDiffer(x: Session, events: Trace<Event>, w: World, a: (nat, nat), b: (nat, nat))
    requires SessionOk(x) && Reaches(x, events, w) && a != b && IsFragment(w.log, a) && IsFragment(w.log, b)
    ensures 0 <= SequenceOf(w.log, a) < U64_SIZE && 0 <= SequenceOf(w.log, b) < U64_SIZE
    ensures SequenceOf(w.log, a) != SequenceOf(w.log, b)
  {
    RunKeepsInv(x, events, w);
    SequencesDiffer(w.sender, w.log, a, b);
    SequencesDiffer(w.sender, w.log, b, a);
  }

  /** The datagram of that piece of the message is the cipher's output under `nonce`, behind its own header. */
  ghost predicate PieceSealedUnder(x: Session, id: nat, m: Sent, i: nat, nonce: bytes) {
    && id < U64_SIZE && Sealable(m) && i < |m.slices| && |nonce| == 12
    && SealedUnder(x, Datagram(x, id, m, i), nonce, m.slices[i])
  }

  lemma PieceNonce(x: Session, id: nat, m: Sent, i: nat)
    requires SessionOk(x) && id < U64_SIZE && Sealable(m) && i < |m.slices|
    ensures PieceSealedUnder(x, id, m, i, Nonce(x.noncePrefix, m.base + i))
  {
    DatagramIsSealed(x, id, m, i);
  }

  lemma TwoNonces(x: Session, id: nat, m: Sent, i: nat, id': nat, m': Sent, i': nat) returns (nonce: bytes, nonce': bytes)
    requires SessionOk(x) && id < U64_SIZE && Sealable(m) && i < |m.slices|
    requires id' < U64_SIZE && Sealable(m') && i' < |m'.slices| && m.base + i != m'.base + i'
    ensures PieceSealedUnder(x, id, m, i, nonce) && PieceSealedUnder(x, id', m', i', nonce') && nonce != nonce'
  {
    nonce, nonce' := Nonce(x.noncePrefix, m.base + i), Nonce(x.noncePrefix, m'.base + i');
    PieceNonce(x, id, m, i);
    PieceNonce(x, id', m', i');
    NonceInjective(x.noncePrefix, m.base + i, m'.base + i');
  }

  /** In every run no two datagrams of the session are sealed under the same nonce, up to and including the last
      sequence number. */
  lemma NoncesNeverRepeat(x: Session, events: Trace<Event>, w: World, a: (nat, nat), b: (nat, nat)) returns (na: bytes, nb: bytes)
    requires SessionOk(x) && Reaches(x, events, w)
    requires a != b && IsFragment(w.log, a) && IsFragment(w.log, b)
    ensures PieceSealedUnder(x, a.0, w.log[a.0], a.1, na) && PieceSealedUnder(x, b.0, w.log[b.0], b.1, nb) && na != nb
  {
    FragmentIsSealable(x, events, w, a);
    FragmentIsSealable(x, events, w, b);
    RunSequencesDiffer(x, events, w, a, b);
    na, nb := TwoNonces(x, a.0, w.log[a.0], a.1, b.0, w.log[b.0], b.1);
  }

  lemma NonceInjective(prefix: bytes, a: u64, b: u64)
    requires a != b
    ensures Nonce(prefix, a) != Nonce(prefix, b)
  {
    Widths();
    FromToBE(a, U64_WIDTH);
    FromToBE(b, U64_WIDTH);
    assert Nonce(prefix, a)[|prefix|..] == ToBE(a, U64_WIDTH) && Nonce(prefix, b)[|prefix|..] == ToBE(b, U64_WIDTH);
  }

  // ----- What uses up a sequence number -----

  /** A datagram with this header was received. */
  ghost predicate Arrived(events: Trace<Event>, header: bytes) {
    && events.Then?
    && ((events.last.Receive? && header <= events.last.datagram) || Arrived(events.before, header))
  }

  ghost predicate UsedBy(x: Session, log: seq<Sent>, events: Trace<Event>, sequence: int, id: nat, i: nat) {
    && id < |log| && id < U64_SIZE && i < |log[id].slices| && Sealable(log[id]) && log[id].base + i == sequence
    && Arrived(events, Layout(FragmentHeader(x.id, id, log[id], i)))
  }

  ghost predicate Used(x: Session, log: seq<Sent>, events: Trace<Event>, sequence: int) {
    exists id: nat, i: nat :: UsedBy(x, log, events, sequence, id, i)
  }

  lemma StaysUsed(x: Session, log: seq<Sent>, events: Trace<Event>, sequence: int, log': seq<Sent>, e: Event)
    requires Used(x, log, events, sequence) && log <= log'
    ensures Used(x, log', Then(events, e), sequence)
  {
    var id: nat, i: nat :| UsedBy(x, log, events, sequence, id, i);
    assert log'[id] == log[id];
    assert UsedBy(x, log', Then(events, e), sequence, id, i);
  }

  lemma OpenedIsUsed(x: Session, log: seq<Sent>, accepted: set<int>, events: Trace<Event>, d: bytes, now: nat)
    requires SessionOk(x) && Unforged(x, log, d) && OpenDatagram(x, accepted, d).Ok?
    ensures Used(x, log, Then(events, Receive(d, now)), OpenDatagram(x, accepted, d).value.header.sequence)
  {
    var f := OpenDatagram(x, accepted, d).value;
    OpenedIsGenuine(x, log, accepted, d);
    DecodedHeaderIsItsEncoding(d);
    assert UsedBy(x, log, Then(events, Receive(d, now)), f.header.sequence, f.header.message, f.header.index);
  }

  lemma StepUses(x: Session, v: World, events: Trace<Event>, e: Event, w: World, sequence: int)
    requires SessionOk(x) && Steps(x, v, e, w) && sequence in w.accepted
    requires sequence in v.accepted ==> Used(x, v.log, events, sequence)
    ensures Used(x, w.log, Then(events, e), sequence)
  {
    if sequence in v.accepted {
      StaysUsed(x, v.log, events, sequence, w.log, e);
    } else {
      OpenedIsUsed(x, v.log, v.accepted, events, e.datagram, e.now);
    }
  }

  /** In every run a sequence number is used up only by its own fragment: it is taken as seen only after a datagram with
      the header of the fragment sealed under it has been received. No other datagram, however made, can close the window
      for what is still on its way. */
  lemma {:induction false} OnlyItsOwnFragmentUsesANumber(x: Session, events: Trace<Event>, w: World, sequence: int)
    requires SessionOk(x) && Reaches(x, events, w) && sequence in w.accepted
    ensures Used(x, w.log, events, sequence)
  {
    match events
    case Start =>
    case Then(front, last) =>
      var v :| Reaches(x, front, v) && Steps(x, v, last, w);
      if sequence in v.accepted {
        OnlyItsOwnFragmentUsesANumber(x, front, v, sequence);
      }
      StepUses(x, v, front, last, w, sequence);
  }
}

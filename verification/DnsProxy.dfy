/** The TUN DNS proxy: many clients' queries share one upstream connection. Each forwarded query gets an
    upstream id of its own, and the reply that carries it is given back with the original id.
    Times are milliseconds. */
module DnsProxy {
  import opened Basics
  import opened DnsCache
  import opened Text

  const PENDING_TTL := 10_000
  const ID_COUNT: int := U16_SIZE

  datatype Request = Request(client: SocketAddr, target: SocketAddr, packet: bytes)

  datatype Pending = Pending(
    client: SocketAddr, target: SocketAddr, originalId: u16, query: string, recordType: string, expiresAt: nat)

  /** The DNS message parsers; an unparsable response has status "INVALID" and no answers. */
  datatype Parsers = Parsers(query: bytes -> Option<(string, string)>, response: bytes -> Summary)

  datatype Table = Table(pending: map<u16, Pending>, nextId: u16)

  // ----- Upstream ids -----

  function Slot(start: u16, k: nat): u16 {
    (start + k) % ID_COUNT
  }

  /** `id` is the first id, cyclically from `start`, that no outstanding request holds. */
  ghost predicate FirstFree(pending: map<u16, Pending>, start: u16, id: u16) {
    exists k: nat :: k < ID_COUNT && id == Slot(start, k) && FreeAfter(pending, start, k)
  }

  ghost predicate FreeAfter(pending: map<u16, Pending>, start: u16, k: nat) {
    Slot(start, k) !in pending && forall j: nat :: j < k ==> Slot(start, j) in pending
  }

  lemma AllSlotsTaken(pending: map<u16, Pending>, start: u16)
    requires forall j: nat :: j < ID_COUNT ==> Slot(start, j) in pending
    ensures |pending| == ID_COUNT
  {
    forall x | 0 <= x < ID_COUNT ensures x in pending.Keys {
      var j := if x >= start then x - start else x - start + ID_COUNT;
      assert Slot(start, j) == x;
    }
    GapIffSmaller(pending.Keys, 0, ID_COUNT);
  }

  lemma FreeSlotLeaves(pending: map<u16, Pending>, id: u16)
    requires id !in pending
    ensures |pending| < ID_COUNT
  {
    GapIffSmaller(pending.Keys, 0, ID_COUNT);
    assert id !in pending.Keys;
  }

  function Unexpired(pending: map<u16, Pending>, now: nat): map<u16, Pending> {
    map id | id in pending && pending[id].expiresAt > now :: pending[id]
  }

  /** What a request asks for; one that does not parse is filed under a placeholder. */
  function Question(p: Parsers, r: Request): (string, string) {
    match p.query(r.packet) case Some(q) => q case None => ("<unknown>", "UNKNOWN")
  }

  function PendingFor(p: Parsers, r: Request, now: nat): Pending
    requires |r.packet| >= 2
  {
    var (query, recordType) := Question(p, r);
    Pending(r.client, r.target, DnsId(r.packet).value, query, recordType, now + PENDING_TTL)
  }

  /** What is forwarded: the query under its upstream id. */
  datatype Sent = Nothing | Sent(id: u16, packet: bytes)

  ghost predicate Forwards(p: Parsers, t: Table, r: Request, now: nat, written: bool, t': Table, sent: Sent) {
    if |r.packet| < 2 then t' == t && sent == Nothing
    else
      var live := Unexpired(t.pending, now);
      if |live| >= ID_COUNT then t' == Table(live, t.nextId) && sent == Nothing
      else
        exists id: u16 ::
          && FirstFree(live, t.nextId, id)
          && t' == Table(if written then live[id := PendingFor(p, r, now)] else live, Slot(id, 1))
          && sent == Sent(id, WriteDnsId(r.packet, id))
  }

  datatype Reply = Reply(packet: bytes, from: SocketAddr, to: SocketAddr)

  /** The request that a response answers is whatever is outstanding under its id. */
  function Matched(t: Table, response: bytes): Option<u16> {
    match DnsId(response)
    case Some(id) => if id in t.pending then Some(id) else None
    case None => None
  }

  function ReplyTo(q: Pending, response: bytes): Reply
    requires |response| >= 2
  {
    Reply(WriteDnsId(response, q.originalId), q.target, q.client)
  }

  class DnsForwarder {
    const parsers: Parsers
    var pending: map<u16, Pending>
    var nextId: u16

    function View(): Table
      reads this
    {
      Table(pending, nextId)
    }

    constructor (parsers: Parsers)
      ensures this.parsers == parsers && View() == Table(map[], 0)
    {
      this.parsers := parsers;
      pending, nextId := map[], 0;
    }

    /** Succeeds exactly while an id is free; a failed search leaves the counter where it was. */
    method AllocateDnsId() returns (id: Option<u16>)
      modifies this`nextId
      ensures id.Some? <==> |pending| < ID_COUNT
      ensures id.None? ==> nextId == old(nextId)
      ensures id.Some? ==> FirstFree(pending, old(nextId), id.value) && nextId == Slot(id.value, 1)
    {
      ghost var start := nextId;
      for k := 0 to ID_COUNT
        invariant nextId == Slot(start, k)
        invariant forall j: nat :: j < k ==> Slot(start, j) in pending
      {
        var candidate := nextId;
        nextId := (nextId + 1) % U16_SIZE;
        if candidate !in pending {
          assert FreeAfter(pending, start, k);
          FreeSlotLeaves(pending, candidate);
          return Some(candidate);
        }
      }
      AllSlotsTaken(pending, start);
      return None;
    }

    method CleanupPendingDns(now: nat)
      modifies this`pending
      ensures pending == Unexpired(old(pending), now)
    {
      var expired := set id | id in pending && pending[id].expiresAt <= now;
      ghost var all := pending;
      var todo := expired;
      while todo != {}
        invariant todo <= expired && expired <= all.Keys
        invariant forall id :: id in pending <==> id in all && (id in todo || id !in expired)
        invariant forall id :: id in pending ==> pending[id] == all[id]
        decreases |todo|
      {
        var id :| id in todo;
        todo := todo - {id};
        pending := pending - {id};
      }
      assert pending.Keys == Unexpired(all, now).Keys;
    }

    /** `written` says whether the upstream connection took the packet. */
    method SendDnsRequest(r: Request, now: nat, written: bool) returns (sent: Sent)
      modifies this
      ensures Forwards(parsers, old(View()), r, now, written, View(), sent)
    {
      if |r.packet| < 2 {
        return Nothing;
      }
      CleanupPendingDns(now);
      var id := AllocateDnsId();
      if id.None? {
        return Nothing;
      }
      var live := pending;
      pending := pending[id.value := PendingFor(parsers, r, now)];
      if !written {
        pending := pending - {id.value};
        assert pending == live;
      }
      sent := Sent(id.value, WriteDnsId(r.packet, id.value));
    }

    /** Takes the matching request off the table and restores its id; anything else is dropped. */
    method HandleDnsResponse(response: bytes) returns (reply: Option<Reply>)
      modifies this`pending
      ensures match Matched(old(View()), response)
              case None => reply == None && pending == old(pending)
              case Some(id) =>
                && pending == old(pending) - {id}
                && |response| >= 2 && reply == Some(ReplyTo(old(pending)[id], response))
    {
      if |response| < 2 {
        return None;
      }
      var id := DnsId(response).value;
      if id !in pending {
        return None;
      }
      reply := Some(ReplyTo(pending[id], response));
      pending := pending - {id};
    }
  }

  // ----- Whole runs of the proxy -----

  /** One query sent on: the packet that went out, its id, how many ids the rotating counter had passed, when it was sent,
      whether the connection took it, and on which connection. */
  datatype Forwarded = Forwarded(
    request: Request, packet: bytes, upstreamId: u16, position: nat, at: nat, written: bool, connection: nat)

  datatype Output =
    | FromCache(request: Request, now: nat, reply: Reply)
    | FromUpstream(serial: nat, response: bytes, now: nat, reply: Reply)

  /** `owner[id]` is the serial number of the query outstanding under `id`; `cacheLog` is everything that
      happened to the response cache. */
  datatype World = World(
    table: Table, entries: Entries, cacheLog: Trace<Event>,
    forwarded: seq<Forwarded>, owner: map<u16, nat>, ticks: nat, outputs: seq<Output>, connection: nat)

  datatype Action =
    | Ask(request: Request, now: nat, written: bool)
    | Hear(response: bytes, now: nat)
    | Tick(now: nat)
    | Reconnect

  function AskKey(p: Parsers, r: Request): Option<Key> {
    match p.query(r.packet)
    case Some(q) => if |r.packet| >= 2 then Some(CacheKey(q.0, q.1)) else None
    case None => None
  }

  ghost predicate CacheAnswers(w: World, r: Request, key: Key, now: nat, w': World) {
    && (forall k :: k in w.entries ==> |w.entries[k].packet| >= 2) && |r.packet| >= 2
    && Lookup(w.entries, key, DnsId(r.packet).value, now).Some?
    && var reply := Reply(Lookup(w.entries, key, DnsId(r.packet).value, now).value, r.target, r.client);
       w' == w.(entries := Live(w.entries, now), cacheLog := Then(w.cacheLog, Expire(now)),
                outputs := w.outputs + [FromCache(r, now, reply)])
  }

  /** The owners that are left when the table becomes `t`. */
  function Owners(owner: map<u16, nat>, t: Table): map<u16, nat> {
    map id | id in owner && id in t.pending :: owner[id]
  }

  function AfterForward(w: World, r: Request, now: nat, written: bool, t: Table, sent: Sent): World {
    var owner := Owners(w.owner, t);
    match sent
    case Nothing => w.(table := t, owner := owner)
    case Sent(id, packet) =>
      var position := w.ticks + (id - w.table.nextId) % ID_COUNT;
      var serial: nat := |w.forwarded|;
      w.(table := t, ticks := position + 1, forwarded := w.forwarded + [Forwarded(r, packet, id, position, now, written, w.connection)],
         owner := if written then owner[id := serial] else owner)
  }

  ghost predicate ForwardsOne(p: Parsers, w: World, r: Request, now: nat, written: bool, w': World) {
    exists t, sent :: Forwards(p, w.table, r, now, written, t, sent) && w' == AfterForward(w, r, now, written, t, sent)
  }

  ghost predicate Asks(p: Parsers, w: World, r: Request, now: nat, written: bool, w': World) {
    match AskKey(p, r)
    case None => ForwardsOne(p, w, r, now, written, w')
    case Some(key) =>
      || CacheAnswers(w, r, key, now, w')
      || (&& (key !in w.entries || w.entries[key].expiresAt <= now)
          && ForwardsOne(p, w.(entries := Live(w.entries, now), cacheLog := Then(w.cacheLog, Expire(now))),
                         r, now, written, w'))
  }

  ghost predicate Hears(p: Parsers, w: World, response: bytes, now: nat, w': World) {
    match Matched(w.table, response)
    case None => w' == w
    case Some(id) =>
      && id in w.table.pending && id in w.owner && |response| >= 2
      && var q := w.table.pending[id];
         var key := CacheKey(q.query, q.recordType);
         && Inserts(w.entries, key, p.response(response), response, now, w'.entries)
         && w' == w.(table := w.table.(pending := w.table.pending - {id}), entries := w'.entries,
                     cacheLog := Then(w.cacheLog, Insert(key, p.response(response), response, now)), owner := w.owner - {id},
                     outputs := w.outputs + [FromUpstream(w.owner[id], response, now, ReplyTo(q, response))])
  }

  ghost predicate Steps(p: Parsers, w: World, a: Action, w': World) {
    match a
    case Ask(r, now, written) => Asks(p, w, r, now, written, w')
    case Hear(response, now) => Hears(p, w, response, now, w')
    case Tick(now) =>
      var live := Unexpired(w.table.pending, now);
      w' == w.(table := Table(live, w.table.nextId), owner := Owners(w.owner, Table(live, w.table.nextId)))
    case Reconnect => w' == w.(table := Table(map[], w.table.nextId), owner := map[], connection := w.connection + 1)
  }

  ghost predicate Reaches(p: Parsers, actions: Trace<Action>, w: World) {
    match actions
    case Start => w == World(Table(map[], 0), map[], Start, [], map[], 0, [], 0)
    case Then(front, last) => exists v :: Reaches(p, front, v) && Steps(p, v, last, w)
  }

  // ----- What every reachable state satisfies -----

  predicate Fits(p: Parsers, q: Pending, f: Forwarded) {
    && |f.request.packet| >= 2 && q.client == f.request.client && q.target == f.request.target
    && DnsId(f.request.packet) == Some(q.originalId) && (q.query, q.recordType) == Question(p, f.request)
    && q.expiresAt == f.at + PENDING_TTL && f.written
  }

  /** Outstanding requests are forwarded, unanswered queries, each under its own id. */
  ghost predicate TableOk(p: Parsers, w: World) {
    && w.owner.Keys == w.table.pending.Keys
    && forall id :: id in w.owner ==> OwnerOk(p, w.forwarded, w.outputs, id, w.table.pending[id], w.owner[id])
  }

  /** Query `k` is the last one forwarded under `id`, is unanswered, and is what the table says. */
  ghost predicate OwnerOk(p: Parsers, forwarded: seq<Forwarded>, outputs: seq<Output>, id: u16, q: Pending, k: nat) {
    && k < |forwarded| && forwarded[k].upstreamId == id && Fits(p, q, forwarded[k])
    && (forall later :: k < later < |forwarded| ==> forwarded[later].upstreamId != id)
    && Unanswered(outputs, k)
  }

  ghost predicate Unanswered(outputs: seq<Output>, k: nat) {
    forall i :: 0 <= i < |outputs| && outputs[i].FromUpstream? ==> outputs[i].serial != k
  }

  /** The counter has passed `ticks` ids in all, and ids are handed out in that order. */
  ghost predicate RotationOk(w: World) {
    && w.table.nextId == w.ticks % ID_COUNT
    && (forall k :: 0 <= k < |w.forwarded| ==>
          w.forwarded[k].position < w.ticks && w.forwarded[k].upstreamId == w.forwarded[k].position % ID_COUNT)
    && (forall j, k :: 0 <= j < k < |w.forwarded| ==> w.forwarded[j].position < w.forwarded[k].position)
  }

  ghost predicate OutputOk(forwarded: seq<Forwarded>, o: Output) {
    match o
    case FromUpstream(k, response, _, reply) =>
      && k < |forwarded| && |forwarded[k].request.packet| >= 2 && |response| >= 2
      && DnsId(response) == Some(forwarded[k].upstreamId)
      && reply == Reply(WriteDnsId(response, DnsId(forwarded[k].request.packet).value),
                        forwarded[k].request.target, forwarded[k].request.client)
    case FromCache(r, now, reply) => reply.from == r.target && reply.to == r.client && |r.packet| >= 2
  }

  /** The cache key of the request that an upstream response answered. */
  function AnswerKey(p: Parsers, r: Request): Key {
    CacheKey(Question(p, r).0, Question(p, r).1)
  }

  /** This output brought a cacheable response for `key` from upstream. */
  predicate Brought(p: Parsers, forwarded: seq<Forwarded>, o: Output, key: Key) {
    && o.FromUpstream? && o.serial < |forwarded| && AnswerKey(p, forwarded[o.serial].request) == key
    && Cacheable(p.response(o.response))
  }

  /** The last of the first `n` outputs that brought a cacheable response for `key`. */
  function LastBrought(p: Parsers, forwarded: seq<Forwarded>, outputs: seq<Output>, n: nat, key: Key): (j: Option<nat>)
    requires n <= |outputs|
    ensures j.Some? ==> j.value < n && Brought(p, forwarded, outputs[j.value], key)
    ensures forall k :: (if j.Some? then j.value < k else 0 <= k) && k < n ==> !Brought(p, forwarded, outputs[k], key)
  {
    if n == 0 then None
    else if Brought(p, forwarded, outputs[n - 1], key) then Some(n - 1)
    else LastBrought(p, forwarded, outputs, n - 1, key)
  }

  /** `o` repeats, for its own asker, an upstream answer that is still within its lifetime. */
  predicate Repeats(p: Parsers, o: Output, from: Output)
    requires o.FromCache? && from.FromUpstream? && Cacheable(p.response(from.response))
  {
    && |o.request.packet| >= 2 && DnsId(o.reply.packet) == DnsId(o.request.packet)
    && o.now < from.now + Lifetime(p.response(from.response))
    && |o.reply.packet| == |from.response| >= 2 && o.reply.packet[2..] == from.response[2..]
  }

  /** A cached answer repeats the last cacheable upstream answer that came before it to the same question. */
  ghost predicate HitOk(p: Parsers, forwarded: seq<Forwarded>, outputs: seq<Output>, i: nat)
    requires i < |outputs|
  {
    outputs[i].FromCache? ==>
      && AskKey(p, outputs[i].request).Some?
      && var j := LastBrought(p, forwarded, outputs, i, AskKey(p, outputs[i].request).value);
         j.Some? && Repeats(p, outputs[i], outputs[j.value])
  }

  ghost predicate HitsOk(p: Parsers, w: World) {
    forall i :: 0 <= i < |w.outputs| ==> HitOk(p, w.forwarded, w.outputs, i)
  }

  function Stored(p: Parsers, outputs: seq<Output>, j: Option<nat>, key: Key): Option<Event>
    requires j.Some? ==> j.value < |outputs| && outputs[j.value].FromUpstream?
  {
    match j
    case None => None
    case Some(k) => Some(Insert(key, p.response(outputs[k].response), outputs[k].response, outputs[k].now))
  }

  /** What the cache has seen is what this run brought. */
  ghost predicate LogOk(p: Parsers, forwarded: seq<Forwarded>, outputs: seq<Output>, log: Trace<Event>) {
    forall key ::
      LastCacheable(log, key) == Stored(p, outputs, LastBrought(p, forwarded, outputs, |outputs|, key), key)
  }

  ghost predicate CacheOk(p: Parsers, w: World) {
    DnsCache.Reaches(w.cacheLog, w.entries) && LogOk(p, w.forwarded, w.outputs, w.cacheLog) && HitsOk(p, w)
  }

  ghost predicate OutputsOk(w: World) {
    && (forall i :: 0 <= i < |w.outputs| ==> OutputOk(w.forwarded, w.outputs[i]))
    && (forall i, j :: 0 <= i < j < |w.outputs| && w.outputs[i].FromUpstream? && w.outputs[j].FromUpstream? ==>
          w.outputs[i].serial != w.outputs[j].serial)
  }

  ghost predicate Inv(p: Parsers, w: World) {
    TableOk(p, w) && RotationOk(w) && OutputsOk(w) && CacheOk(p, w)
  }

  lemma ExpireKeepsCache(p: Parsers, w: World, now: nat)
    requires CacheOk(p, w)
    ensures CacheOk(p, w.(entries := Live(w.entries, now), cacheLog := Then(w.cacheLog, Expire(now))))
  {
    assert DnsCache.Steps(w.entries, Expire(now), Live(w.entries, now));
  }

  // Growing the logs changes nothing about what was brought before.

  lemma {:induction false} BroughtBefore(p: Parsers, forwarded: seq<Forwarded>, outputs: seq<Output>, o: Output, n: nat, key: Key)
    requires n <= |outputs|
    ensures LastBrought(p, forwarded, outputs + [o], n, key) == LastBrought(p, forwarded, outputs, n, key)
  {
    if n > 0 {
      BroughtBefore(p, forwarded, outputs, o, n - 1, key);
    }
  }

  lemma {:induction false} BroughtWhatever(p: Parsers, forwarded: seq<Forwarded>, f: Forwarded, outputs: seq<Output>, n: nat, key: Key)
    requires n <= |outputs| && forall i :: 0 <= i < |outputs| ==> OutputOk(forwarded, outputs[i])
    ensures LastBrought(p, forwarded + [f], outputs, n, key) == LastBrought(p, forwarded, outputs, n, key)
  {
    if n > 0 {
      BroughtWhatever(p, forwarded, f, outputs, n - 1, key);
      assert OutputOk(forwarded, outputs[n - 1]);
    }
  }

  lemma HitsStay(p: Parsers, forwarded: seq<Forwarded>, outputs: seq<Output>, o: Output, i: nat)
    requires i < |outputs| && HitOk(p, forwarded, outputs, i)
    ensures HitOk(p, forwarded, outputs + [o], i)
  {
    if outputs[i].FromCache? {
      BroughtBefore(p, forwarded, outputs, o, i, AskKey(p, outputs[i].request).value);
    }
  }

  lemma OutputKeepsHits(p: Parsers, w: World, o: Output, w': World)
    requires HitsOk(p, w) && w'.forwarded == w.forwarded && w'.outputs == w.outputs + [o]
    requires HitOk(p, w.forwarded, w.outputs + [o], |w.outputs|)
    ensures HitsOk(p, w')
  {
    forall i | 0 <= i < |w'.outputs| ensures HitOk(p, w'.forwarded, w'.outputs, i) {
      if i < |w.outputs| {
        HitsStay(p, w.forwarded, w.outputs, o, i);
      }
    }
  }

  lemma ForwardKeepsCache(p: Parsers, w: World, f: Forwarded, w': World)
    requires OutputsOk(w) && CacheOk(p, w)
    requires w'.forwarded == w.forwarded + [f] && w'.outputs == w.outputs
    requires w'.cacheLog == w.cacheLog && w'.entries == w.entries
    ensures CacheOk(p, w')
  {
    forall key ensures LastBrought(p, w'.forwarded, w'.outputs, |w'.outputs|, key)
                    == LastBrought(p, w.forwarded, w.outputs, |w.outputs|, key) {
      BroughtWhatever(p, w.forwarded, f, w.outputs, |w.outputs|, key);
    }
    forall i | 0 <= i < |w'.outputs| ensures HitOk(p, w'.forwarded, w'.outputs, i) {
      assert HitOk(p, w.forwarded, w.outputs, i);
      if w.outputs[i].FromCache? {
        BroughtWhatever(p, w.forwarded, f, w.outputs, i, AskKey(p, w.outputs[i].request).value);
      }
    }
  }

  /** An answer from the cache leaves the record of what was brought as it was. */
  lemma CacheOutputKeepsLog(p: Parsers, forwarded: seq<Forwarded>, outputs: seq<Output>, o: Output, log: Trace<Event>, now: nat)
    requires LogOk(p, forwarded, outputs, log) && o.FromCache?
    ensures LogOk(p, forwarded, outputs + [o], Then(log, Expire(now)))
  {
    forall key ensures LastCacheable(Then(log, Expire(now)), key)
                    == Stored(p, outputs + [o], LastBrought(p, forwarded, outputs + [o], |outputs| + 1, key), key) {
      BroughtBefore(p, forwarded, outputs, o, |outputs|, key);
    }
  }

  /** An upstream answer and the cache's insertion of it agree. */
  lemma AnswerKeepsLog(p: Parsers, forwarded: seq<Forwarded>, outputs: seq<Output>, o: Output, log: Trace<Event>, key: Key)
    requires LogOk(p, forwarded, outputs, log) && o.FromUpstream? && o.serial < |forwarded|
    requires AnswerKey(p, forwarded[o.serial].request) == key
    ensures LogOk(p, forwarded, outputs + [o], Then(log, Insert(key, p.response(o.response), o.response, o.now)))
  {
    var e := Insert(key, p.response(o.response), o.response, o.now);
    forall k ensures LastCacheable(Then(log, e), k)
                  == Stored(p, outputs + [o], LastBrought(p, forwarded, outputs + [o], |outputs| + 1, k), k) {
      AnswerKeepsKey(p, forwarded, outputs, o, log, key, k);
    }
  }

  lemma AnswerKeepsKey(p: Parsers, forwarded: seq<Forwarded>, outputs: seq<Output>, o: Output, log: Trace<Event>, key: Key, k: Key)
    requires LastCacheable(log, k) == Stored(p, outputs, LastBrought(p, forwarded, outputs, |outputs|, k), k)
    requires o.FromUpstream? && o.serial < |forwarded| && AnswerKey(p, forwarded[o.serial].request) == key
    ensures LastCacheable(Then(log, Insert(key, p.response(o.response), o.response, o.now)), k)
         == Stored(p, outputs + [o], LastBrought(p, forwarded, outputs + [o], |outputs| + 1, k), k)
  {
    BroughtBefore(p, forwarded, outputs, o, |outputs|, k);
  }

  /** What the lookup finds is the last cacheable answer of this run to the same question. */
  lemma HitRepeats(p: Parsers, w: World, r: Request, key: Key, now: nat, o: Output)
    requires CacheOk(p, w) && AskKey(p, r) == Some(key) && |r.packet| >= 2 && o.FromCache? && o.request == r && o.now == now
    requires forall k :: k in w.entries ==> |w.entries[k].packet| >= 2
    requires Lookup(w.entries, key, DnsId(r.packet).value, now) == Some(o.reply.packet)
    ensures HitOk(p, w.forwarded, w.outputs + [o], |w.outputs|)
  {
    HitIsLastCacheable(w.cacheLog, w.entries, key, DnsId(r.packet).value, now);
    BroughtBefore(p, w.forwarded, w.outputs, o, |w.outputs|, key);
  }

  lemma CacheOutputKeepsOwner(p: Parsers, forwarded: seq<Forwarded>, outputs: seq<Output>, o: Output, id: u16, q: Pending, k: nat)
    requires OwnerOk(p, forwarded, outputs, id, q, k) && o.FromCache?
    ensures OwnerOk(p, forwarded, outputs + [o], id, q, k)
  {
  }

  lemma CacheOutputKeepsTable(p: Parsers, w: World, o: Output, w': World)
    requires TableOk(p, w) && OutputsOk(w) && OutputOk(w.forwarded, o) && o.FromCache?
    requires w'.table == w.table && w'.owner == w.owner && w'.forwarded == w.forwarded && w'.outputs == w.outputs + [o]
    ensures TableOk(p, w') && OutputsOk(w')
  {
    forall id | id in w'.owner ensures OwnerOk(p, w'.forwarded, w'.outputs, id, w'.table.pending[id], w'.owner[id]) {
      CacheOutputKeepsOwner(p, w.forwarded, w.outputs, o, id, w.table.pending[id], w.owner[id]);
    }
  }

  lemma CacheAnswerKeepsInv(p: Parsers, w: World, r: Request, key: Key, now: nat, w': World)
    requires Inv(p, w) && AskKey(p, r) == Some(key) && CacheAnswers(w, r, key, now, w')
    ensures Inv(p, w')
  {
    var reply := Reply(Lookup(w.entries, key, DnsId(r.packet).value, now).value, r.target, r.client);
    var o := FromCache(r, now, reply);
    assert DnsCache.Steps(w.entries, Expire(now), Live(w.entries, now));
    HitRepeats(p, w, r, key, now, o);
    OutputKeepsHits(p, w, o, w');
    CacheOutputKeepsLog(p, w.forwarded, w.outputs, o, w.cacheLog, now);
    CacheOutputKeepsTable(p, w, o, w');
  }

  lemma PositionOf(start: u16, ticks: nat, id: u16)
    requires start == ticks % ID_COUNT
    ensures (ticks + (id - start) % ID_COUNT) % ID_COUNT == id
    ensures Slot(id, 1) == (ticks + (id - start) % ID_COUNT + 1) % ID_COUNT
  {
    var d := (id - start) % ID_COUNT;
    assert d == if id >= start then id - start else id - start + ID_COUNT;
    var q := ticks / ID_COUNT;
    assert ticks + d == ID_COUNT * q + start + d;
    if id >= start {
      assert (ticks + d) % ID_COUNT == id;
    } else {
      assert ticks + d == ID_COUNT * (q + 1) + id;
      assert (ticks + d) % ID_COUNT == id;
    }
  }

  /** What forwarding does to the table, request by request. */
  ghost predicate TableChange(p: Parsers, old_: Table, r: Request, now: nat, written: bool, new_: Table, sent: Sent) {
    && (forall id :: id in new_.pending && !(written && sent.Sent? && id == sent.id) ==>
          id in old_.pending && new_.pending[id] == old_.pending[id])
    && (sent.Nothing? ==> new_.nextId == old_.nextId)
    && (sent.Sent? ==> |r.packet| >= 2 && new_.nextId == Slot(sent.id, 1))
    && (sent.Sent? && !written ==> sent.id !in new_.pending)
    && (sent.Sent? && written ==> sent.id in new_.pending && Fits(p, new_.pending[sent.id], Forwarded(r, sent.packet, sent.id, 0, now, true, 0)))
  }

  lemma ForwardChanges(p: Parsers, t: Table, r: Request, now: nat, written: bool, t': Table, sent: Sent)
    requires Forwards(p, t, r, now, written, t', sent)
    ensures TableChange(p, t, r, now, written, t', sent)
  {
  }

  lemma ForwardKeepsRotation(p: Parsers, w: World, r: Request, now: nat, written: bool, t: Table, sent: Sent)
    requires RotationOk(w) && TableChange(p, w.table, r, now, written, t, sent)
    ensures RotationOk(AfterForward(w, r, now, written, t, sent))
  {
    if sent.Sent? {
      PositionOf(w.table.nextId, w.ticks, sent.id);
    }
  }

  lemma OwnersAfter(p: Parsers, old_: Table, owner: map<u16, nat>, r: Request, now: nat, written: bool, new_: Table, sent: Sent,
                    serial: nat, owner': map<u16, nat>)
    requires owner.Keys == old_.pending.Keys && TableChange(p, old_, r, now, written, new_, sent) && sent.Sent?
    requires owner' == if written then Owners(owner, new_)[sent.id := serial] else Owners(owner, new_)
    ensures owner'.Keys == new_.pending.Keys
    ensures sent.id in owner' ==> owner'[sent.id] == serial && written
    ensures forall id :: id in owner' && id != sent.id ==>
              id in owner && owner'[id] == owner[id] && new_.pending[id] == old_.pending[id]
  {
  }

  lemma ForwardKeepsTable(p: Parsers, w: World, r: Request, now: nat, written: bool, t: Table, sent: Sent)
    requires TableOk(p, w) && OutputsOk(w) && TableChange(p, w.table, r, now, written, t, sent)
    ensures TableOk(p, AfterForward(w, r, now, written, t, sent))
  {
    var w' := AfterForward(w, r, now, written, t, sent);
    if sent.Sent? {
      var f := w'.forwarded[|w.forwarded|];
      OwnersAfter(p, w.table, w.owner, r, now, written, t, sent, |w.forwarded|, w'.owner);
      ForwardedTable(p, w, f, t, w'.owner, w');
    } else {
      DroppedTable(p, w, t, w');
    }
  }

  lemma DroppedTable(p: Parsers, w: World, t: Table, w': World)
    requires TableOk(p, w) && w' == w.(table := t, owner := Owners(w.owner, t))
    requires forall id :: id in t.pending ==> id in w.table.pending && t.pending[id] == w.table.pending[id]
    ensures TableOk(p, w')
  {
    assert w'.owner.Keys == t.pending.Keys;
  }

  lemma ForwardedTable(p: Parsers, w: World, f: Forwarded, t: Table, owner: map<u16, nat>, w': World)
    requires w'.table == t && w'.owner == owner && w'.outputs == w.outputs && w'.forwarded == w.forwarded + [f]
    requires TableOk(p, w) && OutputsOk(w) && owner.Keys == t.pending.Keys
    requires f.upstreamId in owner ==> owner[f.upstreamId] == |w.forwarded| && Fits(p, t.pending[f.upstreamId], f)
    requires forall id :: id in owner && id != f.upstreamId ==>
               id in w.owner && owner[id] == w.owner[id] && t.pending[id] == w.table.pending[id]
    ensures TableOk(p, w')
  {
    forall id | id in owner ensures OwnerOk(p, w'.forwarded, w'.outputs, id, t.pending[id], owner[id]) {
      if id == f.upstreamId {
        NewOwner(p, w.forwarded, w.outputs, f, t.pending[id]);
      } else {
        KeptOwner(p, w.forwarded, w.outputs, f, id, t.pending[id], w.owner[id]);
      }
    }
  }

  lemma NewOwner(p: Parsers, forwarded: seq<Forwarded>, outputs: seq<Output>, f: Forwarded, q: Pending)
    requires Fits(p, q, f) && forall i :: 0 <= i < |outputs| ==> OutputOk(forwarded, outputs[i])
    ensures OwnerOk(p, forwarded + [f], outputs, f.upstreamId, q, |forwarded|)
  {
  }

  lemma KeptOwner(p: Parsers, forwarded: seq<Forwarded>, outputs: seq<Output>, f: Forwarded, id: u16, q: Pending, k: nat)
    requires OwnerOk(p, forwarded, outputs, id, q, k) && f.upstreamId != id
    ensures OwnerOk(p, forwarded + [f], outputs, id, q, k)
  {
  }

  lemma ForwardKeepsOutputs(w: World, f: Forwarded, o: Output)
    requires OutputOk(w.forwarded, o)
    ensures OutputOk(w.forwarded + [f], o)
  {
  }

  lemma ForwardKeepsInv(p: Parsers, w: World, r: Request, now: nat, written: bool, w': World)
    requires Inv(p, w) && ForwardsOne(p, w, r, now, written, w')
    ensures Inv(p, w')
  {
    var t, sent :| Forwards(p, w.table, r, now, written, t, sent) && w' == AfterForward(w, r, now, written, t, sent);
    ForwardChanges(p, w.table, r, now, written, t, sent);
    ForwardKeepsRotation(p, w, r, now, written, t, sent);
    ForwardKeepsTable(p, w, r, now, written, t, sent);
    if sent.Sent? {
      ForwardKeepsCache(p, w, w'.forwarded[|w.forwarded|], w');
      forall i | 0 <= i < |w.outputs| ensures OutputOk(w'.forwarded, w'.outputs[i]) {
        ForwardKeepsOutputs(w, w'.forwarded[|w.forwarded|], w.outputs[i]);
      }
    }
  }

  lemma AnswerKeepsOutputs(p: Parsers, w: World, id: u16, response: bytes, now: nat)
    requires TableOk(p, w) && OutputsOk(w) && Matched(w.table, response) == Some(id)
    ensures |response| >= 2 && id in w.owner
    ensures OutputsOk(w.(outputs := w.outputs + [FromUpstream(w.owner[id], response, now, ReplyTo(w.table.pending[id], response))]))
  {
    var o := FromUpstream(w.owner[id], response, now, ReplyTo(w.table.pending[id], response));
    assert OutputOk(w.forwarded, o);
  }

  lemma AnswerKeepsOwner(p: Parsers, forwarded: seq<Forwarded>, outputs: seq<Output>, o: Output, id: u16, q: Pending, k: nat)
    requires OwnerOk(p, forwarded, outputs, id, q, k) && o.FromUpstream? && o.serial != k
    ensures OwnerOk(p, forwarded, outputs + [o], id, q, k)
  {
  }

  lemma AnswerKeepsTable(p: Parsers, w: World, id: u16, o: Output, w': World)
    requires TableOk(p, w) && id in w.owner && o.FromUpstream? && o.serial == w.owner[id]
    requires w'.table.pending == w.table.pending - {id} && w'.owner == w.owner - {id}
    requires w'.forwarded == w.forwarded && w'.outputs == w.outputs + [o]
    ensures TableOk(p, w')
  {
    assert OwnerOk(p, w.forwarded, w.outputs, id, w.table.pending[id], w.owner[id]);
    forall j | j in w'.owner ensures OwnerOk(p, w'.forwarded, w'.outputs, j, w'.table.pending[j], w'.owner[j]) {
      assert OwnerOk(p, w.forwarded, w.outputs, j, w.table.pending[j], w.owner[j]);
      AnswerKeepsOwner(p, w.forwarded, w.outputs, o, j, w.table.pending[j], w.owner[j]);
    }
  }

  lemma HearKeepsInv(p: Parsers, w: World, response: bytes, now: nat, w': World)
    requires Inv(p, w) && Hears(p, w, response, now, w')
    ensures Inv(p, w')
  {
    match Matched(w.table, response)
    case None =>
    case Some(id) =>
      var q := w.table.pending[id];
      var key := CacheKey(q.query, q.recordType);
      var o := FromUpstream(w.owner[id], response, now, ReplyTo(q, response));
      assert OwnerOk(p, w.forwarded, w.outputs, id, q, w.owner[id]);
      assert DnsCache.Steps(w.entries, Insert(key, p.response(response), response, now), w'.entries);
      AnswerKeepsOutputs(p, w, id, response, now);
      AnswerKeepsTable(p, w, id, o, w');
      AnswerKeepsLog(p, w.forwarded, w.outputs, o, w.cacheLog, key);
      OutputKeepsHits(p, w, o, w');
  }

  /** Losing outstanding requests, by expiry or by a new connection, changes nothing else. */
  lemma DropKeepsInv(p: Parsers, w: World, t: Table, w': World)
    requires Inv(p, w) && t.nextId == w.table.nextId && w' == w.(table := t, owner := Owners(w.owner, t), connection := w'.connection)
    requires forall id :: id in t.pending ==> id in w.table.pending && t.pending[id] == w.table.pending[id]
    ensures Inv(p, w')
  {
  }

  lemma AskKeepsInv(p: Parsers, w: World, r: Request, now: nat, written: bool, w': World)
    requires Inv(p, w) && Asks(p, w, r, now, written, w')
    ensures Inv(p, w')
  {
    match AskKey(p, r)
    case None => ForwardKeepsInv(p, w, r, now, written, w');
    case Some(key) =>
      if CacheAnswers(w, r, key, now, w') {
        CacheAnswerKeepsInv(p, w, r, key, now, w');
      } else {
        ExpireKeepsCache(p, w, now);
        ForwardKeepsInv(p, w.(entries := Live(w.entries, now), cacheLog := Then(w.cacheLog, Expire(now))),
                        r, now, written, w');
      }
  }

  lemma {:induction false} RunKeepsInv(p: Parsers, actions: Trace<Action>, w: World)
    requires Reaches(p, actions, w)
    ensures Inv(p, w)
  {
    match actions
    case Start =>
    case Then(front, last) =>
      var v :| Reaches(p, front, v) && Steps(p, v, last, w);
      RunKeepsInv(p, front, v);
      match last
      case Ask(r, now, written) => AskKeepsInv(p, v, r, now, written, w);
      case Hear(response, now) => HearKeepsInv(p, v, response, now, w);
      case Tick(now) => DropKeepsInv(p, v, Table(Unexpired(v.table.pending, now), v.table.nextId), w);
      case Reconnect => DropKeepsInv(p, v, Table(map[], v.table.nextId), w);
  }

  predicate Occurs(actions: Trace<Action>, a: Action) {
    actions.Then? && (actions.last == a || Occurs(actions.before, a))
  }

  ghost predicate Asked(actions: Trace<Action>, r: Request) {
    exists now, written :: Occurs(actions, Ask(r, now, written))
  }

  ghost predicate AskedAt(actions: Trace<Action>, r: Request, now: nat) {
    exists written :: Occurs(actions, Ask(r, now, written))
  }

  ghost predicate Happened(actions: Trace<Action>, o: Output) {
    match o
    case FromUpstream(_, response, now, _) => Occurs(actions, Hear(response, now))
    case FromCache(r, now, _) => AskedAt(actions, r, now)
  }

  lemma HappenedBefore(front: Trace<Action>, last: Action, o: Output)
    requires Happened(front, o)
    ensures Happened(Then(front, last), o)
  {
    if o.FromCache? {
      var written :| Occurs(front, Ask(o.request, o.now, written));
      assert Occurs(Then(front, last), Ask(o.request, o.now, written));
    }
  }

  lemma AskedBefore(front: Trace<Action>, last: Action, r: Request)
    requires Asked(front, r)
    ensures Asked(Then(front, last), r)
  {
    var now, written :| Occurs(front, Ask(r, now, written));
    assert Occurs(Then(front, last), Ask(r, now, written));
  }

  ghost predicate AllHappened(actions: Trace<Action>, outputs: seq<Output>) {
    forall i :: 0 <= i < |outputs| ==> Happened(actions, outputs[i])
  }

  ghost predicate AllAsked(actions: Trace<Action>, forwarded: seq<Forwarded>) {
    forall k :: 0 <= k < |forwarded| ==> Asked(actions, forwarded[k].request)
  }

  /** `b` is `a` with at most one more element. */
  predicate Longer<T(==)>(a: seq<T>, b: seq<T>) {
    b == a || (|b| == |a| + 1 && b[..|a|] == a)
  }

  /** A step puts out, or forwards, at most one thing, and that is what its action was about. */
  lemma StepIsAbout(p: Parsers, v: World, a: Action, w: World, front: Trace<Action>)
    requires Steps(p, v, a, w)
    ensures Longer(v.outputs, w.outputs)
    ensures w.outputs == v.outputs || Happened(Then(front, a), w.outputs[|v.outputs|])
    ensures Longer(v.forwarded, w.forwarded)
    ensures w.forwarded == v.forwarded || Asked(Then(front, a), w.forwarded[|v.forwarded|].request)
  {
    assert Occurs(Then(front, a), a);
    if a.Ask? {
      assert Asked(Then(front, a), a.request) && AskedAt(Then(front, a), a.request, a.now);
    }
  }

  lemma MoreHappened(front: Trace<Action>, last: Action, before: seq<Output>, after: seq<Output>)
    requires AllHappened(front, before) && Longer(before, after)
    requires after == before || Happened(Then(front, last), after[|before|])
    ensures AllHappened(Then(front, last), after)
  {
    forall i | 0 <= i < |after| ensures Happened(Then(front, last), after[i]) {
      if i < |before| {
        assert after[i] == before[i];
        HappenedBefore(front, last, before[i]);
      }
    }
  }

  lemma MoreAsked(front: Trace<Action>, last: Action, before: seq<Forwarded>, after: seq<Forwarded>)
    requires AllAsked(front, before) && Longer(before, after)
    requires after == before || Asked(Then(front, last), after[|before|].request)
    ensures AllAsked(Then(front, last), after)
  {
    forall k | 0 <= k < |after| ensures Asked(Then(front, last), after[k].request) {
      if k < |before| {
        assert after[k] == before[k];
        AskedBefore(front, last, before[k].request);
      }
    }
  }

  /** Outputs and forwarded queries are about actions of this run. */
  lemma {:induction false} RunHappened(p: Parsers, actions: Trace<Action>, w: World)
    requires Reaches(p, actions, w)
    ensures AllHappened(actions, w.outputs) && AllAsked(actions, w.forwarded)
  {
    match actions
    case Start =>
    case Then(front, last) =>
      var v :| Reaches(p, front, v) && Steps(p, v, last, w);
      RunHappened(p, front, v);
      StepIsAbout(p, v, last, w, front);
      MoreHappened(front, last, v.outputs, w.outputs);
      MoreAsked(front, last, v.forwarded, w.forwarded);
  }

  /** What went upstream is the query under its own id. */
  ghost predicate PacketOk(f: Forwarded) {
    && |f.request.packet| >= 2 && |f.packet| == |f.request.packet|
    && DnsId(f.packet) == Some(f.upstreamId) && f.packet[2..] == f.request.packet[2..]
  }

  lemma ForwardedPacket(p: Parsers, w: World, r: Request, now: nat, written: bool, w': World)
    requires ForwardsOne(p, w, r, now, written, w')
    ensures w'.forwarded != w.forwarded ==> w'.forwarded != [] && PacketOk(w'.forwarded[|w'.forwarded| - 1])
  {
    var t, sent :| Forwards(p, w.table, r, now, written, t, sent) && w' == AfterForward(w, r, now, written, t, sent);
    if sent.Sent? {
      WrittenId(r.packet, sent.id, 0);
    }
  }

  lemma StepKeepsPackets(p: Parsers, v: World, a: Action, w: World)
    requires Steps(p, v, a, w) && forall k :: 0 <= k < |v.forwarded| ==> PacketOk(v.forwarded[k])
    ensures forall k :: 0 <= k < |w.forwarded| ==> PacketOk(w.forwarded[k])
  {
    StepIsAbout(p, v, a, w, Start);
    if w.forwarded != v.forwarded {
      match AskKey(p, a.request)
      case None => ForwardedPacket(p, v, a.request, a.now, a.written, w);
      case Some(_) =>
        ForwardedPacket(p, v.(entries := Live(v.entries, a.now), cacheLog := Then(v.cacheLog, Expire(a.now))),
                        a.request, a.now, a.written, w);
      forall k | 0 <= k < |w.forwarded| ensures PacketOk(w.forwarded[k]) {
        if k < |v.forwarded| {
          assert w.forwarded[k] == v.forwarded[k];
        }
      }
    }
  }

  /** In every run, what is sent upstream is a query that was asked, with its id replaced by the upstream id and every
      other byte unchanged. */
  lemma {:induction false} QueriesGoOut(p: Parsers, actions: Trace<Action>, w: World)
    requires Reaches(p, actions, w)
    ensures forall k :: 0 <= k < |w.forwarded| ==> PacketOk(w.forwarded[k]) && Asked(actions, w.forwarded[k].request)
  {
    match actions
    case Start =>
    case Then(front, last) =>
      var v :| Reaches(p, front, v) && Steps(p, v, last, w);
      QueriesGoOut(p, front, v);
      StepKeepsPackets(p, v, last, w);
      RunHappened(p, actions, w);
  }

  /** In every run, an answer goes to the client that asked, from the server it asked, under the id it
      used, with every other byte as the upstream sent it; and no query is answered twice. */
  lemma AnswersGoHome(p: Parsers, actions: Trace<Action>, w: World, i: nat)
    requires Reaches(p, actions, w) && i < |w.outputs| && w.outputs[i].FromUpstream?
    ensures var o := w.outputs[i];
            && Occurs(actions, Hear(o.response, o.now)) && o.serial < |w.forwarded| && |o.response| >= 2
            && var f := w.forwarded[o.serial];
               && Asked(actions, f.request) && DnsId(o.response) == Some(f.upstreamId)
               && o.reply.to == f.request.client && o.reply.from == f.request.target
               && DnsId(o.reply.packet) == DnsId(f.request.packet)
               && |o.reply.packet| == |o.response| && o.reply.packet[2..] == o.response[2..]
    ensures forall j :: 0 <= j < |w.outputs| && j != i && w.outputs[j].FromUpstream? ==>
              w.outputs[j].serial != w.outputs[i].serial
  {
    RunKeepsInv(p, actions, w);
    RunHappened(p, actions, w);
    assert OutputOk(w.forwarded, w.outputs[i]) && Happened(actions, w.outputs[i]);
    var o := w.outputs[i];
    WrittenId(o.response, DnsId(w.forwarded[o.serial].request.packet).value, 0);
  }

  /** Two requests ask the same: for the same name, spaces, trailing dots and case apart, and the same type, case apart. */
  ghost predicate SameQuestion(p: Parsers, r: Request, r': Request) {
    && SameName(Question(p, r).0, Question(p, r').0) && SameIgnoringCase(Question(p, r).1, Question(p, r').1)
  }

  lemma SameKeyIff(p: Parsers, r: Request, r': Request)
    requires AskKey(p, r).Some?
    ensures AskKey(p, r).value == AnswerKey(p, r') <==> SameQuestion(p, r, r')
  {
    KeyMeans(Question(p, r).0, Question(p, r).1, Question(p, r').0, Question(p, r').1);
  }

  /** This output is an upstream answer to the same question, and a successful one that may be kept at all. */
  ghost predicate Answered(p: Parsers, forwarded: seq<Forwarded>, o: Output, r: Request) {
    && o.FromUpstream? && o.serial < |forwarded| && SameQuestion(p, r, forwarded[o.serial].request)
    && var s := p.response(o.response);
       s.status == "NOERROR" && s.answers != [] && s.minTtl.Some? && s.minTtl.value > 0
  }

  lemma AnsweredIff(p: Parsers, forwarded: seq<Forwarded>, o: Output, r: Request)
    requires AskKey(p, r).Some?
    ensures Answered(p, forwarded, o, r) <==> Brought(p, forwarded, o, AskKey(p, r).value)
  {
    if o.FromUpstream? && o.serial < |forwarded| {
      SameKeyIff(p, r, forwarded[o.serial].request);
    }
  }

  /** The answer is younger than its records allow and than five minutes. */
  predicate Young(p: Parsers, from: Output, now: nat)
    requires from.FromUpstream?
  {
    p.response(from.response).minTtl.Some? && now < from.now + 1000 * p.response(from.response).minTtl.value && now < from.now + 300_000
  }

  /** In every run, a cached answer goes to the client that asked, under its id, and repeats an upstream answer that
      this run gave earlier to the same question: the last successful one before it, still within its lifetime. */
  lemma CachedAnswersAreCurrent(p: Parsers, actions: Trace<Action>, w: World, i: nat) returns (j: nat)
    requires Reaches(p, actions, w) && i < |w.outputs| && w.outputs[i].FromCache?
    ensures var o := w.outputs[i];
            && AskedAt(actions, o.request, o.now) && p.query(o.request.packet).Some?
            && o.reply.to == o.request.client && o.reply.from == o.request.target
            && |o.request.packet| >= 2 && DnsId(o.reply.packet) == DnsId(o.request.packet)
            && j < i && Answered(p, w.forwarded, w.outputs[j], o.request) && Young(p, w.outputs[j], o.now)
            && Occurs(actions, Hear(w.outputs[j].response, w.outputs[j].now))
            && Asked(actions, w.forwarded[w.outputs[j].serial].request)
            && |o.reply.packet| == |w.outputs[j].response| >= 2 && o.reply.packet[2..] == w.outputs[j].response[2..]
            && forall k :: j < k < i ==> !Answered(p, w.forwarded, w.outputs[k], o.request)
  {
    RunKeepsInv(p, actions, w);
    RunHappened(p, actions, w);
    var o := w.outputs[i];
    assert OutputOk(w.forwarded, o) && Happened(actions, o) && HitOk(p, w.forwarded, w.outputs, i);
    j := LastBrought(p, w.forwarded, w.outputs, i, AskKey(p, o.request).value).value;
    assert Happened(actions, w.outputs[j]);
    AnsweredIff(p, w.forwarded, w.outputs[j], o.request);
    forall k | j < k < i ensures !Answered(p, w.forwarded, w.outputs[k], o.request) {
      AnsweredIff(p, w.forwarded, w.outputs[k], o.request);
    }
    CacheableMeans(p.response(w.outputs[j].response), if o.now >= w.outputs[j].now then o.now - w.outputs[j].now else 0);
  }

  // ----- How long a request stays outstanding -----

  function Clock(actions: Trace<Action>): nat {
    match actions
    case Start => 0
    case Then(front, last) => if last.Reconnect? then Clock(front) else last.now
  }

  predicate Timed(actions: Trace<Action>) {
    match actions
    case Start => true
    case Then(front, last) => Timed(front) && (last.Reconnect? || Clock(front) <= last.now)
  }

  /** Query `k` was taken by the present connection, has no answer, and is younger than ten seconds. */
  ghost predicate Awaited(w: World, k: nat, now: nat) {
    && k < |w.forwarded| && w.forwarded[k].written && w.forwarded[k].connection == w.connection
    && Unanswered(w.outputs, k) && now < w.forwarded[k].at + 10_000
  }

  predicate Outstanding(w: World, k: nat)
    requires k < |w.forwarded|
  {
    w.forwarded[k].upstreamId in w.owner && w.owner[w.forwarded[k].upstreamId] == k
  }

  ghost predicate Waits(w: World, k: nat, now: nat) {
    Awaited(w, k, now) ==> Outstanding(w, k)
  }

  lemma ForwardKeepsPending(p: Parsers, t: Table, r: Request, now: nat, written: bool, t': Table, sent: Sent, id: u16)
    requires Forwards(p, t, r, now, written, t', sent) && id in t.pending && t.pending[id].expiresAt > now
    ensures id in t'.pending && (sent.Sent? ==> sent.id != id)
  {
    assert id in Unexpired(t.pending, now);
  }

  lemma AfterForwardWaits(w: World, r: Request, now: nat, written: bool, t: Table, sent: Sent, k: nat)
    requires sent.Sent? && written ==> sent.id in t.pending
    requires k < |w.forwarded| && Outstanding(w, k) ==>
               w.forwarded[k].upstreamId in t.pending && (sent.Sent? ==> sent.id != w.forwarded[k].upstreamId)
    requires Waits(w, k, now)
    ensures Waits(AfterForward(w, r, now, written, t, sent), k, now)
  {
    var w' := AfterForward(w, r, now, written, t, sent);
    if k < |w.forwarded| {
      assert w'.forwarded[k] == w.forwarded[k];
    }
  }

  lemma ForwardKeepsWaiting(p: Parsers, w: World, r: Request, now: nat, written: bool, w': World, k: nat)
    requires TableOk(p, w) && ForwardsOne(p, w, r, now, written, w') && Waits(w, k, now)
    ensures Waits(w', k, now)
  {
    var t, sent :| Forwards(p, w.table, r, now, written, t, sent) && w' == AfterForward(w, r, now, written, t, sent);
    ForwardChanges(p, w.table, r, now, written, t, sent);
    if k < |w.forwarded| && Awaited(w, k, now) {
      var id := w.forwarded[k].upstreamId;
      assert OwnerOk(p, w.forwarded, w.outputs, id, w.table.pending[id], w.owner[id]);
      ForwardKeepsPending(p, w.table, r, now, written, t, sent, id);
      AfterForwardWaits(w, r, now, written, t, sent, k);
    } else {
      NewlyWaits(w, r, now, written, t, sent, k);
    }
  }

  lemma NewlyWaits(w: World, r: Request, now: nat, written: bool, t: Table, sent: Sent, k: nat)
    requires !Awaited(w, k, now)
    ensures Waits(AfterForward(w, r, now, written, t, sent), k, now)
  {
    var w' := AfterForward(w, r, now, written, t, sent);
    if k < |w.forwarded| {
      assert w'.forwarded[k] == w.forwarded[k];
    }
  }

  lemma HearKeepsWaiting(p: Parsers, w: World, response: bytes, now: nat, w': World, k: nat)
    requires Hears(p, w, response, now, w') && Waits(w, k, now)
    ensures Waits(w', k, now)
  {
    if Awaited(w', k, now) {
      match Matched(w.table, response)
      case None =>
      case Some(id) =>
        var o := w'.outputs[|w.outputs|];
        assert w'.outputs[..|w.outputs|] == w.outputs;
        assert Unanswered(w.outputs, k);
        assert o.serial != k;
    }
  }

  lemma TickKeepsWaiting(p: Parsers, w: World, now: nat, w': World, k: nat)
    requires TableOk(p, w) && Steps(p, w, Tick(now), w') && Waits(w, k, now)
    ensures Waits(w', k, now)
  {
    if Awaited(w', k, now) {
      var id := w.forwarded[k].upstreamId;
      assert OwnerOk(p, w.forwarded, w.outputs, id, w.table.pending[id], w.owner[id]);
    }
  }

  lemma CacheAnswerKeepsWaiting(w: World, r: Request, key: Key, now: nat, w': World, k: nat)
    requires CacheAnswers(w, r, key, now, w') && Waits(w, k, now)
    ensures Waits(w', k, now)
  {
    if Awaited(w', k, now) {
      assert w'.outputs[..|w.outputs|] == w.outputs;
      assert Unanswered(w.outputs, k);
    }
  }

  lemma StepKeepsWaiting(p: Parsers, v: World, a: Action, w: World, k: nat)
    requires TableOk(p, v) && Steps(p, v, a, w) && !a.Reconnect? && Waits(v, k, a.now)
    ensures Waits(w, k, a.now)
  {
    match a
    case Hear(response, now) => HearKeepsWaiting(p, v, response, now, w, k);
    case Tick(now) => TickKeepsWaiting(p, v, now, w, k);
    case Ask(r, now, written) =>
      match AskKey(p, r)
      case None => ForwardKeepsWaiting(p, v, r, now, written, w, k);
      case Some(key) =>
        if CacheAnswers(v, r, key, now, w) {
          CacheAnswerKeepsWaiting(v, r, key, now, w, k);
        } else {
          ForwardKeepsWaiting(p, v.(entries := Live(v.entries, now), cacheLog := Then(v.cacheLog, Expire(now))),
                              r, now, written, w, k);
        }
  }

  lemma ForwardsOnConnection(p: Parsers, v: World, a: Action, w: World)
    requires Steps(p, v, a, w)
    ensures v.connection <= w.connection && Longer(v.forwarded, w.forwarded)
    ensures w.forwarded == v.forwarded || w.forwarded[|v.forwarded|].connection == v.connection
  {
  }

  lemma StepCountsConnection(p: Parsers, v: World, a: Action, w: World, k: nat)
    requires Steps(p, v, a, w) && k < |w.forwarded| && (k < |v.forwarded| ==> v.forwarded[k].connection <= v.connection)
    ensures w.forwarded[k].connection <= w.connection
  {
    ForwardsOnConnection(p, v, a, w);
    if k < |v.forwarded| {
      KeptForwarded(v.forwarded, w.forwarded, k);
    } else {
      assert k == |v.forwarded|;
    }
  }

  lemma {:induction false} ConnectionsCount(p: Parsers, actions: Trace<Action>, w: World, k: nat)
    requires Reaches(p, actions, w) && k < |w.forwarded|
    ensures w.forwarded[k].connection <= w.connection
  {
    match actions
    case Start =>
    case Then(front, last) =>
      var v :| Reaches(p, front, v) && Steps(p, v, last, w);
      if k < |v.forwarded| {
        ConnectionsCount(p, front, v, k);
      }
      StepCountsConnection(p, v, last, w, k);
  }

  lemma KeptForwarded(before: seq<Forwarded>, after: seq<Forwarded>, k: nat)
    requires Longer(before, after) && k < |before|
    ensures k < |after| && after[k] == before[k]
  {
    if after != before {
      assert after[..|before|][k] == before[k];
    }
  }

  lemma {:induction false} RunWaits(p: Parsers, actions: Trace<Action>, w: World, k: nat, now: nat)
    requires Reaches(p, actions, w) && Timed(actions) && Clock(actions) <= now
    ensures Waits(w, k, now)
  {
    match actions
    case Start =>
    case Then(front, last) =>
      var v :| Reaches(p, front, v) && Steps(p, v, last, w);
      RunKeepsInv(p, front, v);
      if last.Reconnect? {
        if k < |v.forwarded| {
          ConnectionsCount(p, front, v, k);
        }
      } else {
        RunWaits(p, front, v, k, last.now);
        StepKeepsWaiting(p, v, last, w, k);
      }
  }

  /** The reply is passed on, once, as the answer to request `k`, which is then no longer outstanding. */
  ghost predicate Credited(w: World, response: bytes, now: nat, w': World, k: nat)
    requires k < |w.forwarded|
  {
    && |w'.outputs| == |w.outputs| + 1 && w'.outputs[..|w.outputs|] == w.outputs
    && var o := w'.outputs[|w.outputs|];
       && o.FromUpstream? && o.serial == k && o.response == response && o.now == now
       && o.reply.to == w.forwarded[k].request.client && o.reply.from == w.forwarded[k].request.target
       && w.forwarded[k].upstreamId !in w'.owner
  }

  lemma HearCredits(p: Parsers, w: World, response: bytes, now: nat, w': World, k: nat)
    requires TableOk(p, w) && k < |w.forwarded| && Outstanding(w, k) && Steps(p, w, Hear(response, now), w')
    requires Matched(w.table, response) == Some(w.forwarded[k].upstreamId)
    ensures Credited(w, response, now, w', k)
  {
    var id := w.forwarded[k].upstreamId;
    assert OwnerOk(p, w.forwarded, w.outputs, id, w.table.pending[id], w.owner[id]);
  }

  /** A request that the cache does not answer is sent on, once, if and only if it has an id of its own and fewer than 65536
      requests are outstanding that have not expired. */
  lemma AskIsSentOn(p: Parsers, w: World, r: Request, now: nat, written: bool, w': World)
    requires Steps(p, w, Ask(r, now, written), w') && w'.outputs == w.outputs
    ensures var room := |r.packet| >= 2 && |Unexpired(w.table.pending, now)| < 65536;
            && |w'.forwarded| == |w.forwarded| + (if room then 1 else 0) && w'.forwarded[..|w.forwarded|] == w.forwarded
            && (room ==> var f := w'.forwarded[|w.forwarded|]; f.request == r && f.at == now && f.written == written)
  {
  }

  /** In every run, a request that the connection took is outstanding, and a reply that carries its id is passed on as
      its answer, for ten seconds, unless it was answered or the connection was replaced; and a cleanup after that time drops it. */
  lemma OutstandingForTenSeconds(p: Parsers, actions: Trace<Action>, w: World, k: nat, now: nat, response: bytes)
    requires Reaches(p, actions, w) && Timed(actions) && Clock(actions) <= now
    requires Awaited(w, k, now) && DnsId(response) == Some(w.forwarded[k].upstreamId)
    ensures Outstanding(w, k) && Matched(w.table, response) == Some(w.forwarded[k].upstreamId)
    ensures forall t, w' :: Steps(p, w, Hear(response, t), w') ==> Credited(w, response, t, w', k)
    ensures forall t, w' :: Steps(p, w, Tick(t), w') && w.forwarded[k].at + 10_000 <= t ==>
              forall id :: id in w'.owner ==> w'.owner[id] != k
  {
    RunKeepsInv(p, actions, w);
    RunWaits(p, actions, w, k, now);
    forall t, w' | Steps(p, w, Hear(response, t), w') ensures Credited(w, response, t, w', k) {
      HearCredits(p, w, response, t, w', k);
    }
    forall t, w' | Steps(p, w, Tick(t), w') && w.forwarded[k].at + 10_000 <= t
      ensures forall id :: id in w'.owner ==> w'.owner[id] != k
    {
      forall id | id in w'.owner ensures w'.owner[id] != k {
        assert OwnerOk(p, w.forwarded, w.outputs, id, w.table.pending[id], w.owner[id]);
      }
    }
  }

  /** A new connection starts with nothing outstanding: no reply on it is credited to a request of an earlier one. */
  lemma ReconnectForgets(p: Parsers, w: World, w': World, response: bytes)
    requires Steps(p, w, Reconnect, w')
    ensures Matched(w'.table, response) == None && w'.forwarded == w.forwarded && forall k :: 0 <= k < |w.forwarded| ==> !Outstanding(w', k)
  {
  }

  // ----- When the cache answers -----

  function BroughtKeys(p: Parsers, forwarded: seq<Forwarded>, outputs: seq<Output>): set<Key> {
    set i | 0 <= i < |outputs| && outputs[i].FromUpstream? && outputs[i].serial < |forwarded|
      :: AnswerKey(p, forwarded[outputs[i].serial].request)
  }

  lemma {:induction false} RunIsTimed(p: Parsers, actions: Trace<Action>, w: World)
    requires Reaches(p, actions, w) && Timed(actions)
    ensures DnsCache.Timed(w.cacheLog) && DnsCache.Clock(w.cacheLog) <= Clock(actions)
  {
    match actions
    case Start =>
    case Then(front, last) =>
      var v :| Reaches(p, front, v) && Steps(p, v, last, w);
      RunIsTimed(p, front, v);
      StepIsTimed(p, v, last, w);
  }

  lemma StepIsTimed(p: Parsers, v: World, a: Action, w: World)
    requires Steps(p, v, a, w)
    ensures w.cacheLog == v.cacheLog
         || (!a.Reconnect? && w.cacheLog.Then? && w.cacheLog.before == v.cacheLog && w.cacheLog.last.now == a.now)
  {
  }

  lemma FewKeys(p: Parsers, w: World)
    requires LogOk(p, w.forwarded, w.outputs, w.cacheLog) && |BroughtKeys(p, w.forwarded, w.outputs)| < MAX_ENTRIES
    ensures |KeysOf(w.cacheLog)| < MAX_ENTRIES
  {
    forall key | key in KeysOf(w.cacheLog) ensures key in BroughtKeys(p, w.forwarded, w.outputs) {
      KeysAreCacheable(w.cacheLog, key);
      var j := LastBrought(p, w.forwarded, w.outputs, |w.outputs|, key);
      assert j.Some?;
      assert Brought(p, w.forwarded, w.outputs[j.value], key);
    }
    SubsetCardinality(KeysOf(w.cacheLog), BroughtKeys(p, w.forwarded, w.outputs));
  }

  /** The last successful answer to the request's question is within its lifetime. */
  ghost predicate LastIsYoung(p: Parsers, forwarded: seq<Forwarded>, outputs: seq<Output>, r: Request, now: nat) {
    exists j :: 0 <= j < |outputs| && Answered(p, forwarded, outputs[j], r) && Young(p, outputs[j], now)
      && forall k :: j < k < |outputs| ==> !Answered(p, forwarded, outputs[k], r)
  }

  predicate Alive(from: Option<Event>, now: nat) {
    from.Some? && from.value.Insert? && Cacheable(from.value.summary) && now < from.value.now + Lifetime(from.value.summary)
  }

  /** The last cacheable response in the cache's log is the last successful answer among the outputs. */
  lemma LastAnswer(p: Parsers, w: World, r: Request, now: nat)
    requires LogOk(p, w.forwarded, w.outputs, w.cacheLog) && AskKey(p, r).Some?
    ensures Alive(LastCacheable(w.cacheLog, AskKey(p, r).value), now) <==> LastIsYoung(p, w.forwarded, w.outputs, r, now)
  {
    var key := AskKey(p, r).value;
    var last := LastBrought(p, w.forwarded, w.outputs, |w.outputs|, key);
    forall k | 0 <= k < |w.outputs| ensures Answered(p, w.forwarded, w.outputs[k], r) <==> Brought(p, w.forwarded, w.outputs[k], key) {
      AnsweredIff(p, w.forwarded, w.outputs[k], r);
    }
    if last.Some? {
      var o := w.outputs[last.value];
      CacheableMeans(p.response(o.response), if now >= o.now then now - o.now else 0);
    }
  }

  /** A request is answered at once exactly when the cache has a live entry for it. */
  lemma AskHits(p: Parsers, w: World, r: Request, now: nat, written: bool, w': World)
    requires Asks(p, w, r, now, written, w')
    ensures (|w'.outputs| > |w.outputs|) <==>
              AskKey(p, r).Some? && AskKey(p, r).value in w.entries && now < w.entries[AskKey(p, r).value].expiresAt
    ensures |w'.outputs| > |w.outputs| ==> w'.forwarded == w.forwarded && w'.outputs[|w.outputs|].FromCache?
  {
  }

  /** In every run, while fewer than 4096 different questions have been answered, a request is answered from the cache,
      and not sent on, if and only if its question parses and the last successful answer to it is within its lifetime. */
  lemma AnsweredFromCacheIff(p: Parsers, actions: Trace<Action>, w: World, r: Request, now: nat, written: bool, w': World)
    requires Reaches(p, actions, w) && Timed(actions) && Clock(actions) <= now && Steps(p, w, Ask(r, now, written), w')
    requires |BroughtKeys(p, w.forwarded, w.outputs)| < MAX_ENTRIES
    ensures (|w'.outputs| > |w.outputs|) <==> AskKey(p, r).Some? && LastIsYoung(p, w.forwarded, w.outputs, r, now)
    ensures |w'.outputs| > |w.outputs| ==> w'.forwarded == w.forwarded && w'.outputs[|w.outputs|].FromCache?
  {
    AskHits(p, w, r, now, written, w');
    if AskKey(p, r).Some? {
      EntryIffAlive(p, actions, w, AskKey(p, r).value, now);
      assert LogOk(p, w.forwarded, w.outputs, w.cacheLog) by { RunKeepsInv(p, actions, w); }
      LastAnswer(p, w, r, now);
    }
  }

  lemma EntryIffAlive(p: Parsers, actions: Trace<Action>, w: World, key: Key, now: nat)
    requires Reaches(p, actions, w) && Timed(actions) && Clock(actions) <= now
    requires |BroughtKeys(p, w.forwarded, w.outputs)| < MAX_ENTRIES
    ensures (key in w.entries && now < w.entries[key].expiresAt) <==> Alive(LastCacheable(w.cacheLog, key), now)
  {
    RunKeepsInv(p, actions, w);
    RunIsTimed(p, actions, w);
    FewKeys(p, w);
    HitIff(w.cacheLog, w.entries, key, 0, now);
  }

  /** Two queries share an upstream id only if the counter has passed every other id between them. */
  lemma IdsRotate(p: Parsers, actions: Trace<Action>, w: World, j: nat, k: nat)
    requires Reaches(p, actions, w) && j < k < |w.forwarded|
    requires w.forwarded[j].upstreamId == w.forwarded[k].upstreamId
    ensures w.forwarded[k].position - w.forwarded[j].position >= ID_COUNT
  {
    RunKeepsInv(p, actions, w);
    SameSlotFarApart(w.forwarded[j].position, w.forwarded[k].position);
  }

  lemma SameSlotFarApart(a: nat, b: nat)
    requires a < b && a % ID_COUNT == b % ID_COUNT
    ensures b - a >= ID_COUNT
  {
    assert b - a == ID_COUNT * (b / ID_COUNT - a / ID_COUNT);
  }

  /** Only the id ties a reply to a query. A reply meant for query `k` is credited to `k` while `k` is
      outstanding; after that it is dropped, or goes to a query a full rotation younger. */
  lemma ReplyCreditedToWhom(p: Parsers, actions: Trace<Action>, w: World, k: nat, response: bytes)
    requires Reaches(p, actions, w) && k < |w.forwarded| && DnsId(response) == Some(w.forwarded[k].upstreamId)
    ensures w.owner.Keys == w.table.pending.Keys
    ensures match Matched(w.table, response)
            case None => forall id :: id in w.owner ==> w.owner[id] != k
            case Some(id) =>
              && id in w.owner && w.owner[id] < |w.forwarded|
              && ((exists i :: i in w.owner && w.owner[i] == k) ==> w.owner[id] == k)
              && (w.owner[id] == k || w.forwarded[w.owner[id]].position - w.forwarded[k].position >= ID_COUNT)
  {
    RunKeepsInv(p, actions, w);
    match Matched(w.table, response)
    case None =>
    case Some(id) =>
      if w.owner[id] != k {
        SameSlotFarApart(w.forwarded[k].position, w.forwarded[w.owner[id]].position);
      }
  }
}

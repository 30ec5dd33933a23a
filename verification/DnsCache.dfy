/** The DNS proxy's response cache: at most 4096 responses, each kept no longer than its own records'
    smallest TTL nor than five minutes. Times are milliseconds. */
module DnsCache {
  import opened Basics
  import opened Text

  const MAX_ENTRIES := 4096
  const MAX_TTL := 300_000

  /** The transaction id: the first two bytes of a message (section 4.1.1 of RFC 1035). */
  function DnsId(packet: bytes): Option<u16> {
    if |packet| < 2 then None else Some(packet[0] as int * 256 + packet[1] as int)
  }

  function WriteDnsId(packet: bytes, id: u16): bytes
    requires |packet| >= 2
  {
    [id / 256, id % 256] + packet[2..]
  }

  /** Writing an id changes nothing but the id, and the last id written is the one read. */
  lemma WrittenId(packet: bytes, id: u16, other: u16)
    requires |packet| >= 2
    ensures DnsId(WriteDnsId(packet, id)) == Some(id)
    ensures |WriteDnsId(packet, id)| == |packet| && WriteDnsId(packet, id)[2..] == packet[2..]
    ensures WriteDnsId(WriteDnsId(packet, other), id) == WriteDnsId(packet, id)
    ensures DnsId(packet) == Some(id) ==> WriteDnsId(packet, id) == packet
  {
    if DnsId(packet) == Some(id) {
      assert packet == [packet[0], packet[1]] + packet[2..];
    }
  }

  datatype Key = Key(query: string, recordType: string)

  datatype Cached = Cached(packet: bytes, expiresAt: nat)

  /** What the response parser extracts; TTLs are seconds. */
  datatype Summary = Summary(status: string, answers: seq<string>, minTtl: Option<u32>)

  function CacheKey(query: string, recordType: string): Key {
    Key(NormalizeDomain(query), AsciiUpper(recordType))
  }

  predicate Cacheable(s: Summary) {
    s.status == "NOERROR" && s.answers != [] && s.minTtl.Some? && s.minTtl.value != 0
  }

  function Lifetime(s: Summary): nat
    requires Cacheable(s)
  {
    var ttl := s.minTtl.value * 1000;
    if ttl < MAX_TTL then ttl else MAX_TTL
  }

  type Entries = map<Key, Cached>

  function Live(entries: Entries, now: nat): Entries {
    map k | k in entries && entries[k].expiresAt > now :: entries[k]
  }

  ghost predicate Soonest(entries: Entries, k: Key) {
    k in entries && forall j :: j in entries ==> entries[k].expiresAt <= entries[j].expiresAt
  }

  /** A cacheable response goes in; when the cache is full, an entry that would expire soonest goes out. */
  ghost predicate Inserts(entries: Entries, key: Key, s: Summary, response: bytes, now: nat, entries': Entries)
    requires |response| >= 2
  {
    if !Cacheable(s) then entries' == entries
    else
      Adds(Live(entries, now), key, Cached(WriteDnsId(response, 0), now + Lifetime(s)), entries')
  }

  ghost predicate Adds(live: Entries, key: Key, added: Cached, entries': Entries) {
    if |live| >= MAX_ENTRIES then exists out :: Soonest(live, out) && entries' == (live - {out})[key := added]
    else entries' == live[key := added]
  }

  function Lookup(entries: Entries, key: Key, id: u16, now: nat): Option<bytes>
    requires forall k :: k in entries ==> |entries[k].packet| >= 2
  {
    if key in entries && entries[key].expiresAt > now then Some(WriteDnsId(entries[key].packet, id)) else None
  }

  class DnsResponseCache {
    var entries: Entries

    ghost predicate Valid()
      reads this
    {
      |entries| <= MAX_ENTRIES && forall k :: k in entries ==> |entries[k].packet| >= 2
    }

    constructor ()
      ensures Valid() && entries == map[]
    {
      entries := map[];
    }

    method CleanupExpired(now: nat)
      requires Valid()
      modifies this
      ensures Valid() && entries == Live(old(entries), now)
    {
      var todo := entries.Keys;
      ghost var all := entries;
      while todo != {}
        invariant todo <= entries.Keys
        invariant forall k :: k in entries <==> k in all && (k in todo || all[k].expiresAt > now)
        invariant forall k :: k in entries ==> entries[k] == all[k]
        invariant |entries| <= |all|
        decreases |todo|
      {
        var k :| k in todo;
        todo := todo - {k};
        if entries[k].expiresAt <= now {
          entries := entries - {k};
        }
      }
      assert entries == Live(all, now);
    }

    /** Removes an entry with the soonest expiry. */
    method EvictOne()
      requires Valid()
      modifies this
      ensures Valid()
      ensures old(entries) == map[] ==> entries == map[]
      ensures old(entries) != map[] ==> exists out :: Soonest(old(entries), out) && entries == old(entries) - {out}
    {
      var out: Option<Key> := None;
      var todo := entries.Keys;
      while todo != {}
        invariant todo <= entries.Keys && entries == old(entries)
        invariant out.Some? ==> out.value in entries
        invariant forall j :: j in entries && j !in todo ==>
                    out.Some? && entries[out.value].expiresAt <= entries[j].expiresAt
        decreases |todo|
      {
        var k :| k in todo;
        todo := todo - {k};
        if out.None? || entries[k].expiresAt < entries[out.value].expiresAt {
          out := Some(k);
        }
      }
      if out.Some? {
        assert Soonest(old(entries), out.value);
        entries := entries - {out.value};
        assert |entries.Keys| == |old(entries).Keys| - 1;
      } else {
        assert forall k :: k !in entries;
      }
    }

    method Insert(query: string, recordType: string, summary: Summary, response: bytes, now: nat)
      requires Valid() && |response| >= 2
      modifies this
      ensures Valid() && Inserts(old(entries), CacheKey(query, recordType), summary, response, now, entries)
    {
      if summary.status != "NOERROR" || summary.answers == [] {
        return;
      }
      if summary.minTtl.None? || summary.minTtl.value == 0 {
        return;
      }
      CleanupExpired(now);
      var packet := WriteDnsId(response, 0);
      var ttl := summary.minTtl.value * 1000;
      Add(CacheKey(query, recordType), Cached(packet, now + if ttl < MAX_TTL then ttl else MAX_TTL));
    }

    method Add(key: Key, added: Cached)
      requires Valid() && |added.packet| >= 2
      modifies this
      ensures Valid() && Adds(old(entries), key, added, entries)
    {
      if |entries| >= MAX_ENTRIES {
        EvictOne();
        ghost var out :| Soonest(old(entries), out) && entries == old(entries) - {out};
        assert |entries.Keys| == |old(entries).Keys| - 1;
      }
      ghost var room := entries;
      entries := entries[key := added];
      assert entries.Keys == room.Keys + {key};
    }

    method Get(query: string, recordType: string, id: u16, now: nat) returns (hit: Option<bytes>)
      requires Valid()
      modifies this
      ensures Valid() && entries == Live(old(entries), now)
      ensures hit == Lookup(old(entries), CacheKey(query, recordType), id, now)
    {
      CleanupExpired(now);
      var key := CacheKey(query, recordType);
      if key !in entries {
        return None;
      }
      hit := Some(WriteDnsId(entries[key].packet, id));
    }
  }

  // ----- Whole runs against the history of responses -----

  datatype Event =
    | Insert(key: Key, summary: Summary, response: bytes, now: nat)
    | Expire(now: nat)

  /** The last cacheable response received for a key, as the event that brought it. */
  function LastCacheable(events: Trace<Event>, key: Key): Option<Event> {
    match events
    case Start => None
    case Then(front, last) =>
      if last.Insert? && last.key == key && Cacheable(last.summary) then Some(last) else LastCacheable(front, key)
  }

  ghost predicate Reaches(events: Trace<Event>, entries: Entries) {
    match events
    case Start => entries == map[]
    case Then(front, last) => exists before :: Reaches(front, before) && Steps(before, last, entries)
  }

  ghost predicate Steps(before: Entries, e: Event, entries: Entries) {
    match e
    case Insert(key, s, response, now) => |response| >= 2 && Inserts(before, key, s, response, now, entries)
    case Expire(now) => entries == Live(before, now)
  }

  ghost predicate EntryIsLast(events: Trace<Event>, key: Key, e: Cached) {
    match LastCacheable(events, key)
    case None => false
    case Some(from) =>
      && from.Insert? && Cacheable(from.summary) && |from.response| >= 2
      && e == Cached(WriteDnsId(from.response, 0), from.now + Lifetime(from.summary))
  }

  lemma InsertFollowsHistory(front: Trace<Event>, before: Entries, last: Event, entries: Entries)
    requires last.Insert? && |last.response| >= 2 && |before| <= MAX_ENTRIES
    requires forall k :: k in before ==> EntryIsLast(front, k, before[k])
    requires Inserts(before, last.key, last.summary, last.response, last.now, entries)
    ensures |entries| <= MAX_ENTRIES
    ensures forall k :: k in entries ==> EntryIsLast(Then(front, last), k, entries[k])
  {
    if Cacheable(last.summary) {
      LiveIsSmaller(before, last.now);
      AddedEntries(Live(before, last.now), last.key,
                   Cached(WriteDnsId(last.response, 0), last.now + Lifetime(last.summary)), entries);
    }
  }

  lemma LiveIsSmaller(entries: Entries, now: nat)
    ensures |Live(entries, now)| <= |entries|
  {
    var live := Live(entries, now);
    assert live.Keys <= entries.Keys;
    SubsetCardinality(live.Keys, entries.Keys);
  }

  lemma AddedEntries(live: Entries, key: Key, added: Cached, entries: Entries)
    requires |live| <= MAX_ENTRIES && Adds(live, key, added, entries)
    ensures |entries| <= MAX_ENTRIES && key in entries && entries[key] == added
    ensures forall k :: k in entries && k != key ==> k in live && entries[k] == live[k]
  {
    if |live| >= MAX_ENTRIES {
      var out :| Soonest(live, out) && entries == (live - {out})[key := added];
      assert (live - {out}).Keys == live.Keys - {out};
      assert entries.Keys == (live.Keys - {out}) + {key};
    } else {
      assert entries.Keys == live.Keys + {key};
    }
  }

  /** Every entry of every reachable cache is the last cacheable response of its key, and the cache
      never holds more than 4096. */
  lemma {:induction false} CacheFollowsHistory(events: Trace<Event>, entries: Entries)
    requires Reaches(events, entries)
    ensures |entries| <= MAX_ENTRIES
    ensures forall k :: k in entries ==> EntryIsLast(events, k, entries[k])
  {
    match events
    case Start =>
    case Then(front, last) =>
      var before :| Reaches(front, before) && Steps(before, last, entries);
      CacheFollowsHistory(front, before);
      if last.Insert? {
        InsertFollowsHistory(front, before, last, entries);
      } else {
        LiveIsSmaller(before, last.now);
      }
  }

  /** A hit is the last cacheable response of the asked key, still within its lifetime, with the asker's
      id in front and every other byte unchanged. */
  lemma HitIsLastCacheable(events: Trace<Event>, entries: Entries, key: Key, id: u16, now: nat)
    requires Reaches(events, entries)
    ensures forall k :: k in entries ==> |entries[k].packet| >= 2
    ensures Lookup(entries, key, id, now).Some? ==>
              && LastCacheable(events, key).Some?
              && var from, hit := LastCacheable(events, key).value, Lookup(entries, key, id, now).value;
                 && from.Insert? && Cacheable(from.summary) && now < from.now + Lifetime(from.summary)
                 && |hit| == |from.response| >= 2 && hit[2..] == from.response[2..] && DnsId(hit) == Some(id)
  {
    CacheFollowsHistory(events, entries);
    if Lookup(entries, key, id, now).Some? {
      var from := LastCacheable(events, key).value;
      WrittenId(from.response, id, 0);
      WrittenId(from.response, 0, 0);
    }
  }

  /** What is cached and for how long: successful answers only, for their smallest TTL and no longer than five minutes. */
  lemma CacheableMeans(s: Summary, t: nat)
    ensures Cacheable(s) <==> s.status == "NOERROR" && s.answers != [] && exists ttl: nat :: s.minTtl == Some(ttl) && ttl > 0
    ensures Cacheable(s) ==> (t < Lifetime(s) <==> t < 1000 * s.minTtl.value && t < 5 * 60 * 1000)
  {
    if Cacheable(s) {
      assert s.minTtl == Some(s.minTtl.value);
    }
  }

  /** Two questions share a cache entry if and only if they ask for the same name, spaces, trailing dots and ASCII case
      apart, and for the same type, case apart. */
  lemma KeyMeans(query: string, recordType: string, query': string, recordType': string)
    ensures CacheKey(query, recordType) == CacheKey(query', recordType') <==>
              SameName(query, query') && SameIgnoringCase(recordType, recordType')
  {
    NormalizeMeans(query, query');
    UpperMeans(recordType, recordType');
  }

  // ----- Nothing cacheable is forgotten early -----

  function Clock(events: Trace<Event>): nat {
    match events case Start => 0 case Then(_, last) => last.now
  }

  predicate Timed(events: Trace<Event>) {
    match events case Start => true case Then(front, last) => Timed(front) && Clock(front) <= last.now
  }

  /** The keys for which a cacheable response ever came. */
  function KeysOf(events: Trace<Event>): set<Key> {
    match events
    case Start => {}
    case Then(front, last) => if last.Insert? && Cacheable(last.summary) then KeysOf(front) + {last.key} else KeysOf(front)
  }

  lemma {:induction false} KeysAreCacheable(events: Trace<Event>, key: Key)
    ensures key in KeysOf(events) <==> LastCacheable(events, key).Some?
    ensures LastCacheable(events, key).Some? ==> LastCacheable(events, key).value.Insert? && Cacheable(LastCacheable(events, key).value.summary)
  {
    if events.Then? {
      KeysAreCacheable(events.before, key);
    }
  }

  /** A key whose last cacheable response is within its lifetime is there. */
  ghost predicate Complete(events: Trace<Event>, entries: Entries, key: Key, now: nat) {
    match LastCacheable(events, key)
    case None => true
    case Some(from) => from.Insert? && Cacheable(from.summary) && (now < from.now + Lifetime(from.summary) ==> key in entries)
  }

  lemma InsertKeepsComplete(front: Trace<Event>, before: Entries, last: Event, entries: Entries, key: Key)
    requires last.Insert? && |last.response| >= 2 && Inserts(before, last.key, last.summary, last.response, last.now, entries)
    requires Reaches(front, before) && Complete(front, before, key, last.now)
    requires |Live(before, last.now)| < MAX_ENTRIES
    ensures Complete(Then(front, last), entries, key, last.now)
  {
    CacheFollowsHistory(front, before);
    assert key in before ==> EntryIsLast(front, key, before[key]);
  }

  lemma FewLive(front: Trace<Event>, before: Entries, now: nat)
    requires Reaches(front, before) && |KeysOf(front)| < MAX_ENTRIES
    ensures |Live(before, now)| < MAX_ENTRIES
  {
    CacheFollowsHistory(front, before);
    forall k | k in Live(before, now).Keys ensures k in KeysOf(front) {
      assert EntryIsLast(front, k, before[k]);
      KeysAreCacheable(front, k);
    }
    SubsetCardinality(Live(before, now).Keys, KeysOf(front));
  }

  lemma ExpireKeepsComplete(front: Trace<Event>, before: Entries, now: nat, key: Key)
    requires Reaches(front, before) && Complete(front, before, key, now)
    ensures Complete(Then(front, Expire(now)), Live(before, now), key, now)
  {
    CacheFollowsHistory(front, before);
    assert key in before ==> EntryIsLast(front, key, before[key]);
  }

  lemma {:induction false} RunIsComplete(events: Trace<Event>, entries: Entries, key: Key, now: nat)
    requires Reaches(events, entries) && Timed(events) && Clock(events) <= now && |KeysOf(events)| < MAX_ENTRIES
    ensures Complete(events, entries, key, now)
  {
    match events
    case Start =>
    case Then(front, last) =>
      var before :| Reaches(front, before) && Steps(before, last, entries);
      SubsetCardinality(KeysOf(front), KeysOf(events));
      RunIsComplete(front, before, key, last.now);
      if last.Insert? {
        FewLive(front, before, last.now);
        InsertKeepsComplete(front, before, last, entries, key);
      } else {
        ExpireKeepsComplete(front, before, last.now, key);
      }
  }

  /** While fewer than 4096 different questions have been answered, a question is answered from the cache if and only if
      its last cacheable response is within its lifetime. */
  lemma HitIff(events: Trace<Event>, entries: Entries, key: Key, id: u16, now: nat)
    requires Reaches(events, entries) && Timed(events) && Clock(events) <= now && |KeysOf(events)| < MAX_ENTRIES
    ensures forall k :: k in entries ==> |entries[k].packet| >= 2
    ensures LastCacheable(events, key).Some? ==> LastCacheable(events, key).value.Insert? && Cacheable(LastCacheable(events, key).value.summary)
    ensures Lookup(entries, key, id, now).Some? <==>
              && LastCacheable(events, key).Some?
              && now < LastCacheable(events, key).value.now + Lifetime(LastCacheable(events, key).value.summary)
  {
    HitIsLastCacheable(events, entries, key, id, now);
    CacheFollowsHistory(events, entries);
    RunIsComplete(events, entries, key, now);
    KeysAreCacheable(events, key);
    assert key in entries ==> EntryIsLast(events, key, entries[key]);
  }
}

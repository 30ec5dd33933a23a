/** The bounded fragment accumulator of one encrypted UDP session. */
module Reassembly {
  import opened Basics
  import opened UdpHeaders

  datatype Config = Config(maxEntries: nat, maxBytes: nat, timeout: nat)

  type Key = (bytes, u64)

  datatype Fragment = Fragment(header: Header, payload: bytes)

  datatype Entry = Entry(
    count: nat, total: nat, fragments: seq<Option<bytes>>, receivedCount: nat, receivedBytes: nat, updatedAt: nat)

  datatype State = State(entries: map<Key, Entry>, totalBytes: nat)

  type Outcome = Result<Option<bytes>, Error>

  function KeyOf(f: Fragment): Key {
    (f.header.session, f.header.message)
  }

  function ValidateFragment(f: Fragment): Option<Error> {
    var invalid := Validate(f.header);
    if invalid.Some? then invalid
    else if |f.payload| > MAX_FRAGMENT then Some(InvalidHeader)
    else if f.header.total > MAX_MESSAGE then Some(MessageTooLarge)
    else if |f.payload| > f.header.total then Some(InvalidHeader)
    else if f.header.count > MAX_FRAGMENTS then Some(TooManyFragments)
    else if f.header.total != 0 && f.payload == [] then Some(InvalidHeader)
    else None
  }

  // ----- What an entry holds -----

  function CountSome(fragments: seq<Option<bytes>>): nat {
    if fragments == [] then 0
    else CountSome(fragments[..|fragments| - 1]) + (if fragments[|fragments| - 1].Some? then 1 else 0)
  }

  /** The fragments received so far, joined in index order. */
  function Joined(fragments: seq<Option<bytes>>): bytes {
    if fragments == [] then []
    else
      Joined(fragments[..|fragments| - 1])
      + (match fragments[|fragments| - 1] case Some(b) => b case None => [])
  }

  predicate EntryOk(e: Entry) {
    && |e.fragments| == e.count
    && e.receivedCount == CountSome(e.fragments)
    && e.receivedBytes == |Joined(e.fragments)|
    && e.receivedBytes <= e.total
  }

  ghost function Pick(m: map<Key, Entry>): (k: Key)
    requires m != map[]
    ensures k in m
  {
    var k :| k in m;
    k
  }

  ghost function SumBytes(m: map<Key, Entry>): nat
    decreases |m|
  {
    if m == map[] then 0 else m[Pick(m)].receivedBytes + SumBytes(m - {Pick(m)})
  }

  lemma {:induction false} SumRemove(m: map<Key, Entry>, k: Key)
    requires k in m
    ensures SumBytes(m) == m[k].receivedBytes + SumBytes(m - {k})
    decreases |m|
  {
    var p := Pick(m);
    if p != k {
      SumRemove(m - {p}, k);
      SumRemove(m - {k}, p);
      assert m - {p} - {k} == m - {k} - {p};
    }
  }

  lemma SumUpdate(m: map<Key, Entry>, k: Key, e: Entry)
    ensures SumBytes(m[k := e]) == e.receivedBytes + SumBytes(m - {k})
  {
    SumRemove(m[k := e], k);
    assert m[k := e] - {k} == m - {k};
  }

  /** The bookkeeping of every reachable state: counters agree with contents and limits hold. */
  ghost predicate StateOk(c: Config, s: State) {
    && (forall k :: k in s.entries ==> EntryOk(s.entries[k]))
    && s.totalBytes == SumBytes(s.entries)
    && s.totalBytes <= c.maxBytes
    && |s.entries| <= c.maxEntries
  }

  // ----- One push, as a relation: ties between equally old entries are broken arbitrarily -----

  predicate Expired(c: Config, e: Entry, now: nat) {
    (if now >= e.updatedAt then now - e.updatedAt else 0) >= c.timeout
  }

  ghost function Cleanup(c: Config, s: State, now: nat): State {
    var kept := map k | k in s.entries && !Expired(c, s.entries[k], now) :: s.entries[k];
    State(kept, SumBytes(kept))
  }

  ghost predicate Oldest(s: State, except: Option<Key>, k: Key) {
    && k in s.entries && Some(k) != except
    && forall j :: j in s.entries && Some(j) != except ==> s.entries[k].updatedAt <= s.entries[j].updatedAt
  }

  ghost function Remove(s: State, k: Key): State
    requires k in s.entries
  {
    State(s.entries - {k}, SumBytes(s.entries - {k}))
  }

  function Inserted(s: State, f: Fragment, now: nat): State {
    State(
      s.entries[KeyOf(f) := Entry(f.header.count, f.header.total, seq(f.header.count, _ => None), 0, 0, now)],
      s.totalBytes)
  }

  /** Oldest entries other than `key` go, one at a time, until `need` more bytes fit. */
  ghost predicate Evicted(c: Config, s: State, key: Key, need: nat, s': State)
    decreases |s.entries|
  {
    if s.totalBytes + need <= c.maxBytes then s' == s
    else exists k :: Oldest(s, Some(key), k) && Evicted(c, Remove(s, k), key, need, s')
  }

  function WithFragment(e: Entry, index: nat, payload: bytes, now: nat): Entry
    requires index < |e.fragments|
  {
    e.(fragments := e.fragments[index := Some(payload)], receivedCount := e.receivedCount + 1,
       receivedBytes := e.receivedBytes + |payload|, updatedAt := now)
  }

  ghost predicate Completed(s: State, f: Fragment, now: nat, s': State, r: Outcome) {
    var key := KeyOf(f);
    && key in s.entries && f.header.index < |s.entries[key].fragments|
    && var e := WithFragment(s.entries[key], f.header.index, f.payload, now);
    if e.receivedCount != e.count then
      s' == State(s.entries[key := e], s.totalBytes + |f.payload|) && r == Ok(None)
    else
      && s' == Remove(s, key)
      && r == if e.receivedBytes != e.total then Err(InvalidHeader) else Ok(Some(Joined(e.fragments)))
  }

  ghost predicate Stored(c: Config, s: State, f: Fragment, now: nat, s': State, r: Outcome) {
    var key := KeyOf(f);
    && key in s.entries
    && var e := s.entries[key];
    if e.count != f.header.count || e.total != f.header.total then s' == s && r == Err(ConflictingFragment)
    else
      && f.header.index < |e.fragments|
      && if e.fragments[f.header.index].Some? then
           s' == s && r == if e.fragments[f.header.index].value == f.payload then Ok(None) else Err(ConflictingFragment)
         else if e.receivedBytes + |f.payload| > e.total then s' == s && r == Err(InvalidHeader)
         else if e.receivedBytes + |f.payload| > c.maxBytes then s' == s && r == Err(ReassemblyLimit)
         else exists s2 :: Evicted(c, s, key, |f.payload|, s2) && Completed(s2, f, now, s', r)
  }

  ghost predicate Pushed(c: Config, s: State, f: Fragment, now: nat, s': State, r: Outcome) {
    var invalid := ValidateFragment(f);
    if invalid.Some? then s' == s && r == Err(invalid.value)
    else if f.header.count == 1 then
      s' == s && r == if |f.payload| != f.header.total then Err(InvalidHeader) else Ok(Some(f.payload))
    else
      var s1 := Cleanup(c, s, now);
      if KeyOf(f) in s1.entries then Stored(c, s1, f, now, s', r)
      else if |f.payload| > c.maxBytes then s' == s1 && r == Err(ReassemblyLimit)
      else if |s1.entries| >= c.maxEntries then
        exists k :: Oldest(s1, None, k) && Stored(c, Inserted(Remove(s1, k), f, now), f, now, s', r)
      else Stored(c, Inserted(s1, f, now), f, now, s', r)
  }

  // ----- Every push keeps the bookkeeping -----

  lemma {:induction false} EmptySlots(n: nat)
    ensures CountSome(seq(n, _ => None)) == 0 && Joined(seq(n, _ => None)) == []
  {
    if n > 0 {
      EmptySlots(n - 1);
      var slots: seq<Option<bytes>> := seq(n, _ => None);
      assert slots[..n - 1] == seq(n - 1, _ => None);
    }
  }

  lemma {:induction false} FillSlot(fragments: seq<Option<bytes>>, i: nat, payload: bytes)
    requires i < |fragments| && fragments[i] == None
    ensures CountSome(fragments[i := Some(payload)]) == CountSome(fragments) + 1
    ensures |Joined(fragments[i := Some(payload)])| == |Joined(fragments)| + |payload|
  {
    var n := |fragments| - 1;
    var filled := fragments[i := Some(payload)];
    if i == n {
      assert filled[..n] == fragments[..n];
    } else {
      FillSlot(fragments[..n], i, payload);
      assert filled[..n] == fragments[..n][i := Some(payload)];
    }
  }

  lemma {:induction false} SumOfPart(m: map<Key, Entry>, part: map<Key, Entry>)
    requires forall k :: k in part ==> k in m && part[k] == m[k]
    ensures SumBytes(part) <= SumBytes(m) && |part| <= |m|
    decreases |m|
  {
    if m == map[] {
      assert part == map[];
    } else {
      var p := Pick(m);
      SumOfPart(m - {p}, part - {p});
      if p in part {
        SumRemove(part, p);
      } else {
        assert part - {p} == part;
      }
    }
  }

  lemma CleanupOk(c: Config, s: State, now: nat)
    requires StateOk(c, s)
    ensures StateOk(c, Cleanup(c, s, now))
  {
    SumOfPart(s.entries, Cleanup(c, s, now).entries);
  }

  lemma RemoveOk(c: Config, s: State, k: Key)
    requires StateOk(c, s) && k in s.entries
    ensures StateOk(c, Remove(s, k))
    ensures Remove(s, k).totalBytes == s.totalBytes - s.entries[k].receivedBytes
  {
    SumOfPart(s.entries, Remove(s, k).entries);
    SumRemove(s.entries, k);
  }

  lemma {:induction false} EvictedOk(c: Config, s: State, key: Key, need: nat, s': State)
    requires StateOk(c, s) && Evicted(c, s, key, need, s') && key in s.entries
    ensures StateOk(c, s') && s'.totalBytes + need <= c.maxBytes
    ensures key in s'.entries && s'.entries[key] == s.entries[key]
    ensures forall j :: j in s'.entries ==> j in s.entries && s'.entries[j] == s.entries[j]
    decreases |s.entries|
  {
    if s.totalBytes + need > c.maxBytes {
      var k :| Oldest(s, Some(key), k) && Evicted(c, Remove(s, k), key, need, s');
      RemoveOk(c, s, k);
      EvictedOk(c, Remove(s, k), key, need, s');
    }
  }

  lemma CompletedOk(c: Config, s: State, f: Fragment, now: nat, s': State, r: Outcome)
    requires StateOk(c, s) && Completed(s, f, now, s', r) && s.totalBytes + |f.payload| <= c.maxBytes
    requires s.entries[KeyOf(f)].fragments[f.header.index] == None
    requires s.entries[KeyOf(f)].receivedBytes + |f.payload| <= s.entries[KeyOf(f)].total
    ensures StateOk(c, s')
  {
    var key := KeyOf(f);
    var e := WithFragment(s.entries[key], f.header.index, f.payload, now);
    FillSlot(s.entries[key].fragments, f.header.index, f.payload);
    RemoveOk(c, s, key);
    SumUpdate(s.entries, key, e);
    assert s.entries[key := e].Keys == s.entries.Keys;
  }

  lemma StoredOk(c: Config, s: State, f: Fragment, now: nat, s': State, r: Outcome)
    requires StateOk(c, s) && Stored(c, s, f, now, s', r)
    ensures StateOk(c, s')
  {
    var key := KeyOf(f);
    var e := s.entries[key];
    if s' != s {
      if exists s2 :: Evicted(c, s, key, |f.payload|, s2) && Completed(s2, f, now, s', r) {
        var s2 :| Evicted(c, s, key, |f.payload|, s2) && Completed(s2, f, now, s', r);
        EvictedOk(c, s, key, |f.payload|, s2);
        CompletedOk(c, s2, f, now, s', r);
      }
    }
  }

  lemma InsertedOk(c: Config, s: State, f: Fragment, now: nat)
    requires StateOk(c, s) && KeyOf(f) !in s.entries && |s.entries| < c.maxEntries
    ensures StateOk(c, Inserted(s, f, now))
  {
    var key := KeyOf(f);
    var grown := Inserted(s, f, now);
    EmptySlots(f.header.count);
    SumUpdate(s.entries, key, grown.entries[key]);
    assert s.entries - {key} == s.entries;
    assert grown.entries.Keys == s.entries.Keys + {key};
  }

  /** Whatever fragment arrives, at whatever time: the byte counter is the sum of what is buffered,
      every entry's counters match its slots, and neither limit is exceeded. */
  lemma PushKeepsBookkeeping(c: Config, s: State, f: Fragment, now: nat, s': State, r: Outcome)
    requires c.maxEntries > 0 && StateOk(c, s) && Pushed(c, s, f, now, s', r)
    ensures StateOk(c, s')
  {
    if ValidateFragment(f).None? && f.header.count != 1 {
      var s1 := Cleanup(c, s, now);
      CleanupOk(c, s, now);
      if KeyOf(f) in s1.entries {
        StoredOk(c, s1, f, now, s', r);
      } else if |f.payload| <= c.maxBytes {
        if |s1.entries| >= c.maxEntries {
          var k :| Oldest(s1, None, k) && Stored(c, Inserted(Remove(s1, k), f, now), f, now, s', r);
          RemoveOk(c, s1, k);
          assert Remove(s1, k).entries.Keys == s1.entries.Keys - {k};
          InsertedOk(c, Remove(s1, k), f, now);
          StoredOk(c, Inserted(Remove(s1, k), f, now), f, now, s', r);
        } else {
          InsertedOk(c, s1, f, now);
          StoredOk(c, Inserted(s1, f, now), f, now, s', r);
        }
      }
    }
  }

  // ----- The accumulator itself -----

  class FragmentReassembler {
    const config: Config
    var entries: map<Key, Entry>
    var totalBytes: nat

    function View(): State
      reads this
    {
      State(entries, totalBytes)
    }

    ghost predicate Valid()
      reads this
    {
      config.maxEntries > 0 && StateOk(config, View())
    }

    constructor (config: Config)
      requires config.maxEntries > 0
      ensures Valid() && View() == State(map[], 0) && this.config == config
    {
      this.config := config;
      entries := map[];
      totalBytes := 0;
    }

    /** Drops every expired entry and gives its bytes back. */
    method CleanupExpired(now: nat) returns (removed: nat)
      requires Valid()
      modifies this
      ensures Valid() && View() == Cleanup(config, old(View()), now)
      ensures removed == |old(entries)| - |entries|
    {
      var before := entries;
      var todo := entries.Keys;
      var removedBytes := 0;
      ghost var all := entries;
      while todo != {}
        invariant todo <= entries.Keys && before == all && totalBytes == SumBytes(all)
        invariant forall k :: k in entries <==> k in all && (k in todo || !Expired(config, all[k], now))
        invariant forall k :: k in entries ==> entries[k] == all[k]
        invariant SumBytes(entries) + removedBytes == SumBytes(all)
        decreases |todo|
      {
        var k :| k in todo;
        todo := todo - {k};
        if Expired(config, entries[k], now) {
          SumRemove(entries, k);
          removedBytes := removedBytes + entries[k].receivedBytes;
          entries := entries - {k};
        }
      }
      totalBytes := totalBytes - removedBytes;
      SumOfPart(all, entries);
      removed := |before| - |entries|;
      assert entries == Cleanup(config, old(View()), now).entries;
      CleanupOk(config, old(View()), now);
    }

    /** Removes a least recently updated entry other than `except`, if there is one. */
    method EvictOldestExcept(except: Option<Key>) returns (evicted: Option<Key>)
      requires Valid()
      modifies this
      ensures Valid()
      ensures evicted.None? ==> View() == old(View()) && forall k :: k in entries ==> Some(k) == except
      ensures evicted.Some? ==> Oldest(old(View()), except, evicted.value)
      ensures evicted.Some? ==> View() == Remove(old(View()), evicted.value)
    {
      evicted := None;
      var todo := entries.Keys;
      while todo != {}
        invariant todo <= entries.Keys && View() == old(View())
        invariant evicted.Some? ==> evicted.value in entries && evicted != except
        invariant forall j :: j in entries && j !in todo && Some(j) != except ==>
                    evicted.Some? && entries[evicted.value].updatedAt <= entries[j].updatedAt
        decreases |todo|
      {
        var k :| k in todo;
        todo := todo - {k};
        if Some(k) != except && (evicted.None? || entries[k].updatedAt < entries[evicted.value].updatedAt) {
          evicted := Some(k);
        }
      }
      if evicted.Some? {
        RemoveOk(config, View(), evicted.value);
        totalBytes := totalBytes - entries[evicted.value].receivedBytes;
        entries := entries - {evicted.value};
      }
    }

    /** One decrypted fragment; the "inconsistent state" errors never occur. */
    method Push(f: Fragment, now: nat) returns (r: Outcome)
      requires Valid()
      modifies this
      ensures Valid() && Pushed(config, old(View()), f, now, View(), r)
      ensures r != Err(InconsistentState)
    {
      var invalid := ValidateFragment(f);
      if invalid.Some? {
        return Err(invalid.value);
      }
      if f.header.count == 1 {
        if |f.payload| != f.header.total {
          return Err(InvalidHeader);
        }
        return Ok(Some(f.payload));
      }
      var _ := CleanupExpired(now);
      ghost var s1 := View();
      var key := KeyOf(f);
      if key !in entries {
        if |f.payload| > config.maxBytes {
          return Err(ReassemblyLimit);
        }
        ghost var full := |entries| >= config.maxEntries;
        ghost var gone := key;
        if |entries| >= config.maxEntries {
          assert entries.Keys != {};
          var evicted := EvictOldestExcept(None);
          gone := evicted.value;
          assert entries.Keys == s1.entries.Keys - {gone};
        }
        ghost var room := View();
        InsertedOk(config, room, f, now);
        entries := entries[key := Entry(f.header.count, f.header.total, seq(f.header.count, _ => None), 0, 0, now)];
        assert View() == Inserted(room, f, now);
        r := Store(f, now);
        assert full ==> Oldest(s1, None, gone) && room == Remove(s1, gone);
      } else {
        r := Store(f, now);
      }
    }

    /** Evicts until `need` more bytes fit; the message being completed always stays. */
    method MakeRoom(key: Key, need: nat)
      requires Valid() && key in entries && entries[key].receivedBytes + need <= config.maxBytes
      modifies this
      ensures Valid() && Evicted(config, old(View()), key, need, View())
    {
      ghost var s0, e := View(), entries[key];
      while totalBytes + need > config.maxBytes
        invariant Valid() && key in entries && entries[key] == e
        invariant forall s' :: Evicted(config, View(), key, need, s') ==> Evicted(config, s0, key, need, s')
        decreases |entries|
      {
        ghost var s := View();
        var evicted := EvictOldestExcept(Some(key));
        if evicted.None? {
          OnlyEntry(s, key);
          assert false;
        }
        assert entries.Keys == s.entries.Keys - {evicted.value};
        assert forall s' :: Evicted(config, View(), key, need, s') ==>
            Oldest(s, Some(key), evicted.value) && Evicted(config, s, key, need, s');
      }
    }

    method Store(f: Fragment, now: nat) returns (r: Outcome)
      requires Valid() && KeyOf(f) in entries && ValidateFragment(f).None?
      modifies this
      ensures Valid() && Stored(config, old(View()), f, now, View(), r)
      ensures r != Err(InconsistentState)
    {
      var key, index := KeyOf(f), f.header.index;
      var e := entries[key];
      if e.count != f.header.count || e.total != f.header.total {
        return Err(ConflictingFragment);
      }
      if e.fragments[index].Some? {
        return if e.fragments[index].value == f.payload then Ok(None) else Err(ConflictingFragment);
      }
      if e.receivedBytes + |f.payload| > e.total {
        return Err(InvalidHeader);
      }
      if e.receivedBytes + |f.payload| > config.maxBytes {
        return Err(ReassemblyLimit);
      }
      MakeRoom(key, |f.payload|);
      EvictedOk(config, old(View()), key, |f.payload|, View());
      ghost var s2 := View();
      r := Complete(f, now);
      assert Evicted(config, old(View()), key, |f.payload|, s2) && Completed(s2, f, now, View(), r);
    }

    method Complete(f: Fragment, now: nat) returns (r: Outcome)
      requires Valid() && KeyOf(f) in entries && f.header.index < |entries[KeyOf(f)].fragments|
      requires entries[KeyOf(f)].fragments[f.header.index].None? && totalBytes + |f.payload| <= config.maxBytes
      requires entries[KeyOf(f)].receivedBytes + |f.payload| <= entries[KeyOf(f)].total
      modifies this
      ensures Valid() && Completed(old(View()), f, now, View(), r)
      ensures r != Err(InconsistentState)
    {
      var key := KeyOf(f);
      ghost var s := View();
      var e := WithFragment(entries[key], f.header.index, f.payload, now);
      SumRemove(entries, key);
      totalBytes := totalBytes + |f.payload|;
      if e.receivedCount != e.count {
        entries := entries[key := e];
        r := Ok(None);
      } else {
        entries := entries - {key};
        totalBytes := totalBytes - e.receivedBytes;
        r := if e.receivedBytes != e.total then Err(InvalidHeader) else Ok(Some(Joined(e.fragments)));
      }
      assert Completed(s, f, now, View(), r);
      CompletedOk(config, s, f, now, View(), r);
    }
  }

  /** A reassembler exists exactly for configurations with positive limits. */
  method NewReassembler(config: Config) returns (r: Option<FragmentReassembler>)
    ensures r.Some? <==> config.maxEntries > 0 && config.maxBytes > 0 && config.timeout > 0
    ensures r.Some? ==> fresh(r.value) && r.value.config == config && r.value.Valid() && r.value.View() == State(map[], 0)
  {
    if config.maxEntries == 0 {
      return None;
    }
    if config.maxBytes == 0 {
      return None;
    }
    if config.timeout == 0 {
      return None;
    }
    var reassembler := new FragmentReassembler(config);
    r := Some(reassembler);
  }

  /** With nothing else to evict, all buffered bytes belong to the current message. */
  lemma OnlyEntry(s: State, key: Key)
    requires key in s.entries && s.totalBytes == SumBytes(s.entries)
    requires forall k :: k in s.entries ==> k == key
    ensures s.totalBytes == s.entries[key].receivedBytes
  {
    SumRemove(s.entries, key);
    assert s.entries - {key} == map[];
  }

  // ----- What a push answers -----

  /** The fragment belongs to a message of several fragments and is well formed. */
  predicate IsPart(f: Fragment) {
    ValidateFragment(f).None? && f.header.count > 1
  }

  /** A further fragment of a message in progress conflicts if and only if it declares another size or number, or brings
      other bytes for a place already filled. A repeated one is welcome and changes nothing, a conflicting one changes
      nothing either: neither makes the message any younger. */
  lemma ConflictsAndRepeats(c: Config, s: State, f: Fragment, now: nat, s': State, r: Outcome)
    requires c.timeout > 0 && StateOk(c, s) && Pushed(c, s, f, now, s', r) && IsPart(f)
    requires KeyOf(f) in s.entries && now < s.entries[KeyOf(f)].updatedAt + c.timeout
    ensures var e := s.entries[KeyOf(f)];
            var same := e.count == f.header.count && e.total == f.header.total;
            var held := if same then e.fragments[f.header.index] else None;
            && (r == Err(ConflictingFragment) <==> !same || (held.Some? && held.value != f.payload))
            && (held == Some(f.payload) ==> r == Ok(None))
            && (!same || held.Some? ==> s' == Cleanup(c, s, now))
  {
    assert EntryOk(s.entries[KeyOf(f)]);
    assert !Expired(c, s.entries[KeyOf(f)], now);
  }

  lemma CompletedLength(s: State, f: Fragment, now: nat, s': State, r: Outcome)
    requires Completed(s, f, now, s', r) && EntryOk(s.entries[KeyOf(f)]) && s.entries[KeyOf(f)].fragments[f.header.index].None?
    ensures r.Ok? && r.value.Some? ==> |r.value.value| == s.entries[KeyOf(f)].total
  {
    FillSlot(s.entries[KeyOf(f)].fragments, f.header.index, f.payload);
  }

  lemma StoredLength(c: Config, s: State, f: Fragment, now: nat, s': State, r: Outcome)
    requires Stored(c, s, f, now, s', r) && EntryOk(s.entries[KeyOf(f)])
    ensures r.Ok? && r.value.Some? ==> |r.value.value| == f.header.total
  {
    var key := KeyOf(f);
    if r.Ok? && r.value.Some? {
      var s2 :| Evicted(c, s, key, |f.payload|, s2) && Completed(s2, f, now, s', r);
      EvictedKeeps(c, s, key, |f.payload|, s2);
      CompletedLength(s2, f, now, s', r);
    }
  }

  lemma {:induction false} EvictedKeeps(c: Config, s: State, key: Key, need: nat, s': State)
    requires Evicted(c, s, key, need, s') && key in s.entries
    ensures key in s'.entries && s'.entries[key] == s.entries[key]
    decreases |s.entries|
  {
    if s.totalBytes + need > c.maxBytes {
      var k :| Oldest(s, Some(key), k) && Evicted(c, Remove(s, k), key, need, s');
      EvictedKeeps(c, Remove(s, k), key, need, s');
    }
  }

  lemma InsertedEntryOk(s: State, f: Fragment, now: nat)
    ensures EntryOk(Inserted(s, f, now).entries[KeyOf(f)])
  {
    EmptySlots(f.header.count);
  }

  /** Whatever fragments come, forged ones included, what is handed up is as long as its fragments declared. */
  lemma HandedUpAsDeclared(c: Config, s: State, f: Fragment, now: nat, s': State, r: Outcome)
    requires StateOk(c, s) && Pushed(c, s, f, now, s', r)
    ensures r.Ok? && r.value.Some? ==> |r.value.value| == f.header.total <= MAX_MESSAGE
  {
    if IsPart(f) {
      var s1 := Cleanup(c, s, now);
      if KeyOf(f) in s1.entries {
        assert EntryOk(s1.entries[KeyOf(f)]);
        StoredLength(c, s1, f, now, s', r);
      } else if |f.payload| <= c.maxBytes {
        var s2 := s1;
        if |s1.entries| >= c.maxEntries {
          var k :| Oldest(s1, None, k) && Stored(c, Inserted(Remove(s1, k), f, now), f, now, s', r);
          s2 := Remove(s1, k);
        }
        InsertedEntryOk(s2, f, now);
        StoredLength(c, Inserted(s2, f, now), f, now, s', r);
      }
    }
  }

  lemma StoredFirst(c: Config, s: State, f: Fragment, now: nat, s': State, r: Outcome)
    requires Stored(c, Inserted(s, f, now), f, now, s', r) && IsPart(f)
    ensures !(r.Ok? && r.value.Some?)
    ensures KeyOf(f) in s'.entries ==> s'.entries[KeyOf(f)].receivedCount <= 1
    ensures forall k :: k in s'.entries && k != KeyOf(f) ==> k in s.entries
  {
    var t, key := Inserted(s, f, now), KeyOf(f);
    if exists s2 :: Evicted(c, t, key, |f.payload|, s2) && Completed(s2, f, now, s', r) {
      var s2 :| Evicted(c, t, key, |f.payload|, s2) && Completed(s2, f, now, s', r);
      EvictedKeeps(c, t, key, |f.payload|, s2);
      EvictedFrom(c, t, key, |f.payload|, s2);
    }
  }

  lemma {:induction false} EvictedFrom(c: Config, s: State, key: Key, need: nat, s': State)
    requires Evicted(c, s, key, need, s')
    ensures s'.entries.Keys <= s.entries.Keys
    decreases |s.entries|
  {
    if s.totalBytes + need > c.maxBytes {
      var k :| Oldest(s, Some(key), k) && Evicted(c, Remove(s, k), key, need, s');
      EvictedFrom(c, Remove(s, k), key, need, s');
    }
  }

  lemma StoredFrom(c: Config, s: State, f: Fragment, now: nat, s': State, r: Outcome)
    requires Stored(c, s, f, now, s', r)
    ensures s'.entries.Keys <= s.entries.Keys
  {
    var key := KeyOf(f);
    if exists s2 :: Evicted(c, s, key, |f.payload|, s2) && Completed(s2, f, now, s', r) {
      var s2 :| Evicted(c, s, key, |f.payload|, s2) && Completed(s2, f, now, s', r);
      EvictedFrom(c, s, key, |f.payload|, s2);
    }
  }

  /** Pieces not followed by another within the timeout are never used: the next fragment of any message drops them, and
      one of the same message starts it afresh. */
  lemma StalePiecesAreDropped(c: Config, s: State, f: Fragment, now: nat, s': State, r: Outcome, k: Key)
    requires Pushed(c, s, f, now, s', r) && IsPart(f)
    requires k in s.entries && s.entries[k].updatedAt + c.timeout <= now
    ensures k != KeyOf(f) ==> k !in s'.entries
    ensures k == KeyOf(f) ==> !(r.Ok? && r.value.Some?) && (k in s'.entries ==> s'.entries[k].receivedCount <= 1)
  {
    var s1 := Cleanup(c, s, now);
    assert k !in s1.entries;
    if KeyOf(f) in s1.entries {
      StoredFrom(c, s1, f, now, s', r);
    } else if |f.payload| <= c.maxBytes {
      if |s1.entries| >= c.maxEntries {
        var oldest :| Oldest(s1, None, oldest) && Stored(c, Inserted(Remove(s1, oldest), f, now), f, now, s', r);
        StoredFirst(c, Remove(s1, oldest), f, now, s', r);
      } else {
        StoredFirst(c, s1, f, now, s', r);
      }
    }
  }
}

/** When a message in reassembly survives: bounds on the traffic around it, in time, entries and bytes, under which its
    entry is neither expired nor evicted, so that its fragments add up to it in any order. */
module UdpSurvival {
  import opened Basics
  import opened UdpHeaders
  import opened Reassembly
  import opened UdpTransport
  import opened UdpDelivery
  import opened ReplayProtection

  // ----- A push without pressure -----

  /** Nothing but the fragment's own entry changes, and no more is buffered than it brings. */
  ghost predicate Gentle(s: State, f: Fragment, now: nat, s': State) {
    && s'.entries.Keys <= s.entries.Keys + {KeyOf(f)} && s'.totalBytes <= s.totalBytes + |f.payload|
    && (forall k :: k in s.entries && k != KeyOf(f) ==> k in s'.entries && s'.entries[k] == s.entries[k])
    && (KeyOf(f) in s'.entries && KeyOf(f) in s.entries && s'.entries[KeyOf(f)] != s.entries[KeyOf(f)] ==>
          s'.entries[KeyOf(f)].updatedAt == now)
  }

  lemma CompletedGently(c: Config, s: State, f: Fragment, now: nat, s': State, r: Outcome)
    requires StateOk(c, s) && Completed(s, f, now, s', r)
    ensures Gentle(s, f, now, s')
  {
    RemoveOk(c, s, KeyOf(f));
  }

  lemma StoredGently(c: Config, s: State, f: Fragment, now: nat, s': State, r: Outcome)
    requires StateOk(c, s) && Stored(c, s, f, now, s', r) && s.totalBytes + |f.payload| <= c.maxBytes
    ensures Gentle(s, f, now, s')
  {
    if s2 :| Evicted(c, s, KeyOf(f), |f.payload|, s2) && Completed(s2, f, now, s', r) {
      assert s2 == s;
      CompletedGently(c, s, f, now, s', r);
    }
  }

  lemma CleanupIsSmaller(c: Config, s: State, now: nat)
    requires StateOk(c, s)
    ensures Cleanup(c, s, now).totalBytes <= s.totalBytes && Cleanup(c, s, now).entries.Keys <= s.entries.Keys
  {
    SumOfPart(s.entries, Cleanup(c, s, now).entries);
  }

  /** A push within the limits: keys, bytes, and the entries of other messages that have not expired. */
  ghost predicate Spares(c: Config, s: State, f: Fragment, now: nat, s': State) {
    && s'.entries.Keys <= s.entries.Keys + {KeyOf(f)} && s'.totalBytes <= s.totalBytes + |f.payload|
    && forall k :: k in s.entries && k != KeyOf(f) && !Expired(c, s.entries[k], now) ==>
         k in s'.entries && s'.entries[k] == s.entries[k]
  }

  lemma FirstStoredGently(c: Config, s: State, f: Fragment, now: nat, s': State, r: Outcome)
    requires StateOk(c, s) && KeyOf(f) !in s.entries && |s.entries| < c.maxEntries
    requires Stored(c, Inserted(s, f, now), f, now, s', r) && s.totalBytes + |f.payload| <= c.maxBytes
    ensures s'.entries.Keys <= s.entries.Keys + {KeyOf(f)} && s'.totalBytes <= s.totalBytes + |f.payload|
    ensures forall k :: k in s.entries ==> k in s'.entries && s'.entries[k] == s.entries[k]
    ensures KeyOf(f) in s'.entries ==> s'.entries[KeyOf(f)].updatedAt == now
  {
    InsertedOk(c, s, f, now);
    StoredGently(c, Inserted(s, f, now), f, now, s', r);
  }

  lemma PushSpares(c: Config, s: State, f: Fragment, now: nat, s': State, r: Outcome)
    requires StateOk(c, s) && Pushed(c, s, f, now, s', r) && s.totalBytes + |f.payload| <= c.maxBytes
    requires |s.entries.Keys + {KeyOf(f)}| <= c.maxEntries
    ensures Spares(c, s, f, now, s')
  {
    if ValidateFragment(f).None? && f.header.count != 1 {
      var s1 := Cleanup(c, s, now);
      CleanupOk(c, s, now);
      CleanupIsSmaller(c, s, now);
      if KeyOf(f) in s1.entries {
        StoredGently(c, s1, f, now, s', r);
      } else {
        Fewer(s1.entries.Keys, KeyOf(f), s.entries.Keys);
        FirstStoredGently(c, s1, f, now, s', r);
      }
    }
  }

  lemma Fewer(a: set<Key>, k: Key, b: set<Key>)
    requires a <= b && k !in a
    ensures |a| < |b + {k}|
  {
    SubsetCardinality(a + {k}, b + {k});
  }

  /** A piece of the message that was stored has set its entry's time. */
  lemma PushTouches(c: Config, s: State, f: Fragment, now: nat, s': State, r: Outcome)
    requires StateOk(c, s) && Pushed(c, s, f, now, s', r) && s.totalBytes + |f.payload| <= c.maxBytes
    requires |s.entries.Keys + {KeyOf(f)}| <= c.maxEntries && KeyOf(f) in s'.entries
    requires KeyOf(f) in s.entries ==> s'.entries[KeyOf(f)] != s.entries[KeyOf(f)]
    ensures s'.entries[KeyOf(f)].updatedAt == now
  {
    var s1 := Cleanup(c, s, now);
    CleanupOk(c, s, now);
    CleanupIsSmaller(c, s, now);
    if KeyOf(f) in s1.entries {
      StoredGently(c, s1, f, now, s', r);
    } else {
      Fewer(s1.entries.Keys, KeyOf(f), s.entries.Keys);
      FirstStoredGently(c, s1, f, now, s', r);
    }
  }

  // ----- Any traffic within the bounds -----

  /** The arrivals were pushed, with nothing said about what became of the message's entry. */
  ghost predicate Ran(c: Config, s0: State, session: bytes, id: u64, m: Sent, arrivals: Trace<Arrival>, s: State, r: Outcome)
    requires Sealable(m)
  {
    match arrivals
    case Start => s == s0 && r == Ok(None)
    case Then(front, Own(k, now)) =>
      && k < |m.slices| && k !in Got(front)
      && exists v, q :: Ran(c, s0, session, id, m, front, v, q) && Pushed(c, v, Piece(session, id, m, k), now, s, r)
    case Then(front, Other(f, now)) =>
      && KeyOf(f) != (session, id)
      && exists v, q :: Ran(c, s0, session, id, m, front, v, q) && Pushed(c, v, f, now, s, r)
  }

  /** All the bytes that arrive. */
  function Bytes(m: Sent, arrivals: Trace<Arrival>): nat {
    match arrivals
    case Start => 0
    case Then(front, Own(k, _)) => Bytes(m, front) + if k < |m.slices| then |m.slices[k]| else 0
    case Then(front, Other(f, _)) => Bytes(m, front) + |f.payload|
  }

  /** All the messages they belong to. */
  function Keys(key: Key, arrivals: Trace<Arrival>): set<Key> {
    match arrivals
    case Start => {key}
    case Then(front, Own(_, _)) => Keys(key, front)
    case Then(front, Other(f, _)) => Keys(key, front) + {KeyOf(f)}
  }

  /** What is buffered and what arrives fits into the limits together. */
  predicate Light(c: Config, s0: State, key: Key, m: Sent, arrivals: Trace<Arrival>) {
    s0.totalBytes + Bytes(m, arrivals) <= c.maxBytes && |s0.entries.Keys + Keys(key, arrivals)| <= c.maxEntries
  }

  function LastOwn(arrivals: Trace<Arrival>): Option<nat> {
    match arrivals
    case Start => None
    case Then(_, Own(_, now)) => Some(now)
    case Then(front, Other(_, _)) => LastOwn(front)
  }

  /** Nothing arrives a whole timeout or more after the message's latest piece. */
  predicate Prompt(c: Config, arrivals: Trace<Arrival>) {
    match arrivals
    case Start => true
    case Then(front, last) => Prompt(c, front) && (LastOwn(front).Some? ==> last.now < LastOwn(front).value + c.timeout)
  }

  lemma LightBefore(c: Config, s0: State, key: Key, m: Sent, front: Trace<Arrival>, last: Arrival)
    requires Light(c, s0, key, m, Then(front, last))
    ensures Light(c, s0, key, m, front)
  {
    SubsetCardinality(s0.entries.Keys + Keys(key, front), s0.entries.Keys + Keys(key, Then(front, last)));
  }

  lemma {:induction false} OwnKey(key: Key, arrivals: Trace<Arrival>)
    ensures key in Keys(key, arrivals)
  {
    if arrivals.Then? {
      OwnKey(key, arrivals.before);
    }
  }

  /** What is in the table is known. */
  ghost predicate Bounded(c: Config, s0: State, key: Key, m: Sent, arrivals: Trace<Arrival>, s: State) {
    && StateOk(c, s)
    && s.entries.Keys <= s0.entries.Keys + Keys(key, arrivals) && s.totalBytes <= s0.totalBytes + Bytes(m, arrivals)
  }

  /** The message's entry is there, as young as its latest piece. */
  ghost predicate Young(key: Key, m: Sent, arrivals: Trace<Arrival>, s: State) {
    && Holds(s, key, m, Got(arrivals))
    && (Got(arrivals) != {} ==> LastOwn(arrivals) == Some(s.entries[key].updatedAt))
  }

  ghost predicate Alive(c: Config, s0: State, session: bytes, id: u64, m: Sent, arrivals: Trace<Arrival>, s: State) {
    Bounded(c, s0, (session, id), m, arrivals, s) && Young((session, id), m, arrivals, s)
  }

  lemma RoomFor(c: Config, s0: State, key: Key, m: Sent, front: Trace<Arrival>, last: Arrival, s: State, f: Fragment)
    requires Light(c, s0, key, m, Then(front, last)) && s.entries.Keys <= s0.entries.Keys + Keys(key, front)
    requires KeyOf(f) in Keys(key, Then(front, last))
    ensures |s.entries.Keys + {KeyOf(f)}| <= c.maxEntries
  {
    SubsetCardinality(s.entries.Keys + {KeyOf(f)}, s0.entries.Keys + Keys(key, Then(front, last)));
  }

  /** A push within the bounds leaves the table within them and spares every other unexpired entry. */
  lemma PushKeepsBounded(c: Config, s0: State, key: Key, m: Sent, front: Trace<Arrival>, last: Arrival, v: State, f: Fragment, s: State, r: Outcome)
    requires Bounded(c, s0, key, m, front, v) && Light(c, s0, key, m, Then(front, last)) && c.maxEntries > 0
    requires Pushed(c, v, f, last.now, s, r) && KeyOf(f) in Keys(key, Then(front, last))
    requires Bytes(m, Then(front, last)) == Bytes(m, front) + |f.payload|
    ensures Bounded(c, s0, key, m, Then(front, last), s) && Spares(c, v, f, last.now, s)
    ensures |v.entries.Keys + {KeyOf(f)}| <= c.maxEntries && v.totalBytes + |f.payload| <= c.maxBytes
  {
    RoomFor(c, s0, key, m, front, last, v, f);
    PushSpares(c, v, f, last.now, s, r);
    PushKeepsBookkeeping(c, v, f, last.now, s, r);
  }

  lemma OwnKeepsYoung(c: Config, session: bytes, id: u64, m: Sent, front: Trace<Arrival>, k: nat, now: nat, v: State, s: State, r: Outcome)
    requires Message(m) && k < |m.slices| && k !in Got(front) && |m.plaintext| <= c.maxBytes && c.maxEntries > 0 && c.timeout > 0
    requires StateOk(c, v) && Young((session, id), m, front, v) && Pushed(c, v, Piece(session, id, m, k), now, s, r)
    requires |v.entries.Keys + {(session, id)}| <= c.maxEntries && v.totalBytes + |m.slices[k]| <= c.maxBytes
    requires Prompt(c, Then(front, Own(k, now))) && |Got(front) + {k}| < |m.slices|
    ensures Young((session, id), m, Then(front, Own(k, now)), s)
  {
    var key, f := (session, id), Piece(session, id, m, k);
    OwnStep(c, v, session, id, m, Got(front), k, now, s, r);
    assert s.entries[key].fragments[k] == Some(m.slices[k]);
    if key in v.entries {
      assert v.entries[key].fragments[k] == None;
    }
    PushTouches(c, v, f, now, s, r);
  }

  lemma OwnKeepsAlive(c: Config, s0: State, session: bytes, id: u64, m: Sent, front: Trace<Arrival>, k: nat, now: nat, v: State, s: State, r: Outcome)
    requires Message(m) && k < |m.slices| && k !in Got(front) && |m.plaintext| <= c.maxBytes && c.maxEntries > 0 && c.timeout > 0
    requires Alive(c, s0, session, id, m, front, v) && Pushed(c, v, Piece(session, id, m, k), now, s, r)
    requires Light(c, s0, (session, id), m, Then(front, Own(k, now))) && Prompt(c, Then(front, Own(k, now)))
    requires |Got(front) + {k}| < |m.slices|
    ensures Alive(c, s0, session, id, m, Then(front, Own(k, now)), s)
  {
    OwnKey((session, id), front);
    PushKeepsBounded(c, s0, (session, id), m, front, Own(k, now), v, Piece(session, id, m, k), s, r);
    OwnKeepsYoung(c, session, id, m, front, k, now, v, s, r);
  }

  lemma OtherKeepsYoung(c: Config, key: Key, m: Sent, front: Trace<Arrival>, f: Fragment, now: nat, v: State, s: State)
    requires Young(key, m, front, v) && KeyOf(f) != key && Spares(c, v, f, now, s) && c.timeout > 0
    requires Prompt(c, Then(front, Other(f, now)))
    ensures Young(key, m, Then(front, Other(f, now)), s) && (Got(front) != {} ==> key in s.entries)
  {
    if Got(front) != {} {
      assert !Expired(c, v.entries[key], now);
    }
  }

  lemma OtherKeepsAlive(c: Config, s0: State, session: bytes, id: u64, m: Sent, front: Trace<Arrival>, f: Fragment, now: nat, v: State, s: State, r: Outcome)
    requires Sealable(m) && KeyOf(f) != (session, id) && c.maxEntries > 0 && c.timeout > 0
    requires Alive(c, s0, session, id, m, front, v) && Pushed(c, v, f, now, s, r)
    requires Light(c, s0, (session, id), m, Then(front, Other(f, now))) && Prompt(c, Then(front, Other(f, now)))
    ensures Alive(c, s0, session, id, m, Then(front, Other(f, now)), s) && (Got(front) != {} ==> (session, id) in s.entries)
  {
    PushKeepsBounded(c, s0, (session, id), m, front, Other(f, now), v, f, s, r);
    OtherKeepsYoung(c, (session, id), m, front, f, now, v, s);
  }

  lemma {:induction false} SurvivesWithinBounds(
      c: Config, s0: State, session: bytes, id: u64, m: Sent, arrivals: Trace<Arrival>, s: State, r: Outcome)
    requires Message(m) && |m.plaintext| <= c.maxBytes && c.maxEntries > 0 && c.timeout > 0
    requires StateOk(c, s0) && (session, id) !in s0.entries && Ran(c, s0, session, id, m, arrivals, s, r)
    requires Light(c, s0, (session, id), m, arrivals) && Prompt(c, arrivals) && |Got(arrivals)| < |m.slices|
    ensures Alive(c, s0, session, id, m, arrivals, s) && Fed(c, s0, session, id, m, arrivals, s, r)
  {
    match arrivals
    case Start =>
    case Then(front, Own(k, now)) =>
      var v, q :| Ran(c, s0, session, id, m, front, v, q) && Pushed(c, v, Piece(session, id, m, k), now, s, r);
      LightBefore(c, s0, (session, id), m, front, Own(k, now));
      FewerGot(Got(front), k);
      SurvivesWithinBounds(c, s0, session, id, m, front, v, q);
      NotExpired(c, s0, session, id, m, front, Own(k, now), v);
      OwnKeepsAlive(c, s0, session, id, m, front, k, now, v, s, r);
    case Then(front, Other(f, now)) =>
      var v, q :| Ran(c, s0, session, id, m, front, v, q) && Pushed(c, v, f, now, s, r);
      LightBefore(c, s0, (session, id), m, front, Other(f, now));
      SurvivesWithinBounds(c, s0, session, id, m, front, v, q);
      OtherKeepsAlive(c, s0, session, id, m, front, f, now, v, s, r);
  }

  lemma FewerGot(got: set<nat>, k: nat)
    requires k !in got
    ensures |got| < |got + {k}|
  {
  }

  lemma NotExpired(c: Config, s0: State, session: bytes, id: u64, m: Sent, front: Trace<Arrival>, last: Arrival, v: State)
    requires Alive(c, s0, session, id, m, front, v) && Prompt(c, Then(front, last)) && c.timeout > 0
    ensures Got(front) != {} ==> (session, id) in v.entries && !Expired(c, v.entries[(session, id)], last.now)
  {
  }

  /** Delivery without a word about entries: if what is buffered and all that arrives fits into the limits, and nothing
      arrives a whole timeout after the message's latest piece, then its pieces, in any order and among any other
      traffic, yield nothing until the last and then exactly the message. */
  lemma DeliversWithinBounds(
      c: Config, s0: State, session: bytes, id: u64, m: Sent, arrivals: Trace<Arrival>, s: State, r: Outcome)
    requires Message(m) && c.maxEntries > 0 && c.timeout > 0 && StateOk(c, s0) && (session, id) !in s0.entries
    requires Ran(c, s0, session, id, m, arrivals, s, r) && arrivals.Then? && arrivals.last.Own?
    requires |m.plaintext| <= c.maxBytes && Light(c, s0, (session, id), m, arrivals) && Prompt(c, arrivals)
    ensures r == if |Got(arrivals)| == |m.slices| then Ok(Some(m.plaintext)) else Ok(None)
  {
    var front, k, now := arrivals.before, arrivals.last.index, arrivals.last.now;
    var v, q :| Ran(c, s0, session, id, m, front, v, q) && Pushed(c, v, Piece(session, id, m, k), now, s, r);
    RanBelow(c, s0, session, id, m, arrivals, s, r);
    FewerGot(Got(front), k);
    LightBefore(c, s0, (session, id), m, front, arrivals.last);
    SurvivesWithinBounds(c, s0, session, id, m, front, v, q);
    NotExpired(c, s0, session, id, m, front, arrivals.last, v);
    assert Fed(c, s0, session, id, m, arrivals, s, r);
    DeliversInAnyOrder(c, s0, session, id, m, arrivals, s, r);
  }

  lemma {:induction false} RanBelow(c: Config, s0: State, session: bytes, id: u64, m: Sent, arrivals: Trace<Arrival>, s: State, r: Outcome)
    requires Sealable(m) && Ran(c, s0, session, id, m, arrivals, s, r)
    ensures (forall k :: k in Got(arrivals) ==> k < |m.slices|) && |Got(arrivals)| <= |m.slices|
  {
    match arrivals
    case Start =>
    case Then(front, Own(k, now)) =>
      var v, q :| Ran(c, s0, session, id, m, front, v, q) && Pushed(c, v, Piece(session, id, m, k), now, s, r);
      RanBelow(c, s0, session, id, m, front, v, q);
      RangeOfNats(Got(arrivals), |m.slices|);
    case Then(front, Other(f, now)) =>
      var v, q :| Ran(c, s0, session, id, m, front, v, q) && Pushed(c, v, f, now, s, r);
      RanBelow(c, s0, session, id, m, front, v, q);
  }

  // ----- Who is evicted -----

  /** No entry left, other than that of the arriving fragment, is older than `gone`. */
  ghost predicate OldestOf(s: State, s': State, own: Key, gone: Key) {
    gone in s.entries ==>
      forall k :: k in s'.entries && k != own && k in s.entries ==> s.entries[gone].updatedAt <= s.entries[k].updatedAt
  }

  lemma {:induction false} EvictsOldest(c: Config, s: State, own: Key, need: nat, s': State, gone: Key)
    requires StateOk(c, s) && own in s.entries && Evicted(c, s, own, need, s') && gone in s.entries && gone !in s'.entries
    ensures OldestOf(s, s', own, gone)
    decreases |s.entries|
  {
    var k :| Oldest(s, Some(own), k) && Evicted(c, Remove(s, k), own, need, s');
    RemoveOk(c, s, k);
    EvictedOk(c, Remove(s, k), own, need, s');
    if k != gone {
      EvictsOldest(c, Remove(s, k), own, need, s', gone);
    }
  }

  lemma StoreEvictsOldest(c: Config, s: State, f: Fragment, now: nat, s': State, r: Outcome, gone: Key)
    requires StateOk(c, s) && Stored(c, s, f, now, s', r) && gone in s.entries && gone != KeyOf(f) && gone !in s'.entries
    ensures OldestOf(s, s', KeyOf(f), gone)
  {
    var own := KeyOf(f);
    var s2 :| Evicted(c, s, own, |f.payload|, s2) && Completed(s2, f, now, s', r);
    EvictedOk(c, s, own, |f.payload|, s2);
    EvictsOldest(c, s, own, |f.payload|, s2, gone);
  }

  /** Eviction is by age: whatever the reason, entries or bytes, a message in progress that has not expired is dropped for
      another's fragment only if no message kept, other than that one, was updated before it. */
  lemma PushEvictsOldest(c: Config, s: State, f: Fragment, now: nat, s': State, r: Outcome, gone: Key)
    requires c.maxEntries > 0 && StateOk(c, s) && Pushed(c, s, f, now, s', r)
    requires gone in s.entries && !Expired(c, s.entries[gone], now) && gone != KeyOf(f) && gone !in s'.entries
    ensures OldestOf(s, s', KeyOf(f), gone)
  {
    var s1 := Cleanup(c, s, now);
    CleanupOk(c, s, now);
    if KeyOf(f) in s1.entries {
      StoreEvictsOldest(c, s1, f, now, s', r, gone);
      KeptAre(c, s1, f, now, s', r);
    } else {
      FirstEvictsOldest(c, s1, f, now, s', r, gone);
    }
  }

  lemma InsertedEvictsOldest(c: Config, s: State, f: Fragment, now: nat, s': State, r: Outcome, gone: Key)
    requires StateOk(c, s) && KeyOf(f) !in s.entries && |s.entries| < c.maxEntries
    requires Stored(c, Inserted(s, f, now), f, now, s', r)
    ensures gone in s.entries && gone !in s'.entries ==> OldestOf(s, s', KeyOf(f), gone)
    ensures forall k :: k in s'.entries && k != KeyOf(f) ==> k in s.entries && s'.entries[k] == s.entries[k]
  {
    var grown := Inserted(s, f, now);
    InsertedOk(c, s, f, now);
    KeptAre(c, grown, f, now, s', r);
    if gone in s.entries && gone !in s'.entries {
      StoreEvictsOldest(c, grown, f, now, s', r, gone);
    }
  }

  lemma FirstEvictsOldest(c: Config, s: State, f: Fragment, now: nat, s': State, r: Outcome, gone: Key)
    requires c.maxEntries > 0 && StateOk(c, s) && KeyOf(f) !in s.entries && |f.payload| <= c.maxBytes
    requires if |s.entries| >= c.maxEntries then
               exists k :: Oldest(s, None, k) && Stored(c, Inserted(Remove(s, k), f, now), f, now, s', r)
             else Stored(c, Inserted(s, f, now), f, now, s', r)
    requires gone in s.entries && gone !in s'.entries
    ensures OldestOf(s, s', KeyOf(f), gone)
    ensures forall k :: k in s'.entries && k != KeyOf(f) ==> k in s.entries && s'.entries[k] == s.entries[k]
  {
    if |s.entries| >= c.maxEntries {
      var k :| Oldest(s, None, k) && Stored(c, Inserted(Remove(s, k), f, now), f, now, s', r);
      RemoveOk(c, s, k);
      assert Remove(s, k).entries.Keys == s.entries.Keys - {k};
      InsertedEvictsOldest(c, Remove(s, k), f, now, s', r, gone);
    } else {
      InsertedEvictsOldest(c, s, f, now, s', r, gone);
    }
  }

  /** What is left of the others is as it was. */
  lemma KeptAre(c: Config, s: State, f: Fragment, now: nat, s': State, r: Outcome)
    requires StateOk(c, s) && Stored(c, s, f, now, s', r)
    ensures forall k :: k in s'.entries && k != KeyOf(f) ==> k in s.entries && s'.entries[k] == s.entries[k]
  {
    forall k | k in s'.entries && k != KeyOf(f) ensures k in s.entries && s'.entries[k] == s.entries[k] {
      StoreElsewhere(c, s, f, now, s', r, k);
    }
  }

  // ----- From the sender's datagrams to the message -----

  /** The datagrams of message `id` are received, in that order. */
  ghost predicate Takes(x: Session, w0: World, id: nat, arrivals: Trace<Arrival>, w: World)
    requires id < |w0.log| && id < U64_SIZE && Sealable(w0.log[id])
  {
    match arrivals
    case Start => w == w0
    case Then(front, Own(k, now)) =>
      && k < |w0.log[id].slices| && k !in Got(front)
      && exists v :: Takes(x, w0, id, front, v) && Receives(x, v, Datagram(x, id, w0.log[id], k), now, w)
    case Then(_, Other(_, _)) => false
  }

  /** None of the message's sequence numbers was accepted, and none has fallen out of the window. */
  ghost predicate AllFresh(m: Sent, accepted: set<int>) {
    forall k: nat :: k < |m.slices| ==> FreshPiece(m, accepted, k)
  }

  ghost predicate FreshPiece(m: Sent, accepted: set<int>, k: nat) {
    Fresh(accepted, m.base + k)
  }

  function Sequences(m: Sent, got: set<nat>): set<int> {
    set k | k in got :: m.base + k
  }

  /** Accepting pieces of one message leaves the others fresh: they lie well within the window of each other. */
  lemma StaysFresh(m: Sent, accepted: set<int>, got: set<nat>, k: nat)
    requires Sealable(m) && AllFresh(m, accepted) && k < |m.slices| && k !in got && forall j :: j in got ==> j < |m.slices|
    ensures Fresh(accepted + Sequences(m, got), m.base + k)
  {
    assert FreshPiece(m, accepted, k);
    forall a | a in Sequences(m, got) ensures a != m.base + k && a - (m.base + k) < WINDOW {
      var j :| j in got && a == m.base + j;
    }
  }

  /** What the receiver has after some of the datagrams. */
  ghost predicate Received(w0: World, id: nat, arrivals: Trace<Arrival>, w: World)
    requires id < |w0.log| && id < U64_SIZE
  {
    var m := w0.log[id];
    && w.log == w0.log && w.accepted == w0.accepted + Sequences(m, Got(arrivals))
    && (forall j :: j in Got(arrivals) ==> j < |m.slices|)
    && w.delivered == w0.delivered + if |Got(arrivals)| == |m.slices| then [(id, m.plaintext)] else []
  }

  lemma MoreSequences(m: Sent, got: set<nat>, k: nat)
    ensures Sequences(m, got + {k}) == Sequences(m, got) + {m.base + k}
  {
  }

  lemma TakesFragment(x: Session, v: World, d: bytes, f: Fragment, now: nat, w: World) returns (r: Outcome)
    requires OpenDatagram(x, v.accepted, d) == Ok(f) && Receives(x, v, d, now, w)
    ensures Pushed(x.config, v.table, f, now, w.table, r) && w.delivered == Handed(v.delivered, f, r)
    ensures w.log == v.log && w.accepted == v.accepted + {f.header.sequence}
  {
    r :| && Pushed(x.config, v.table, f, now, w.table, r)
         && w == World(v.sender, v.log, v.accepted + {f.header.sequence}, w.table, Handed(v.delivered, f, r));
  }

  /** One datagram: it opens to its piece, which is pushed. */
  lemma ReceivesPiece(x: Session, w0: World, id: nat, front: Trace<Arrival>, k: nat, now: nat, v: World, w: World) returns (r: Outcome)
    requires SessionOk(x) && id < |w0.log| && id < U64_SIZE && Sealable(w0.log[id]) && Openable(w0.log[id])
    requires AllFresh(w0.log[id], w0.accepted) && k < |w0.log[id].slices| && k !in Got(front)
    requires v.log == w0.log && v.accepted == w0.accepted + Sequences(w0.log[id], Got(front))
    requires forall j :: j in Got(front) ==> j < |w0.log[id].slices|
    requires Receives(x, v, Datagram(x, id, w0.log[id], k), now, w)
    ensures Pushed(x.config, v.table, Piece(x.id, id, w0.log[id], k), now, w.table, r)
    ensures w.delivered == Handed(v.delivered, Piece(x.id, id, w0.log[id], k), r)
    ensures w.log == v.log && w.accepted == v.accepted + {w0.log[id].base + k}
  {
    var m := w0.log[id];
    StaysFresh(m, w0.accepted, Got(front), k);
    OpensWhatWasSealed(x, v.accepted, id, m, k);
    r := TakesFragment(x, v, Datagram(x, id, m, k), Piece(x.id, id, m, k), now, w);
  }

  /** What one push of a piece of the message returns, within the bounds. */
  lemma PieceReturns(c: Config, s0: State, session: bytes, id: u64, m: Sent, front: Trace<Arrival>, k: nat, now: nat, v: State, q: Outcome, s: State, r: Outcome)
    requires Message(m) && c.maxEntries > 0 && c.timeout > 0 && StateOk(c, s0) && (session, id) !in s0.entries
    requires |m.plaintext| <= c.maxBytes && k < |m.slices| && k !in Got(front)
    requires Ran(c, s0, session, id, m, front, v, q) && Pushed(c, v, Piece(session, id, m, k), now, s, r)
    requires Light(c, s0, (session, id), m, Then(front, Own(k, now))) && Prompt(c, Then(front, Own(k, now)))
    ensures Ran(c, s0, session, id, m, Then(front, Own(k, now)), s, r) && |Got(front)| < |m.slices|
    ensures r == if |Got(front) + {k}| == |m.slices| then Ok(Some(m.plaintext)) else Ok(None)
  {
    assert Ran(c, s0, session, id, m, Then(front, Own(k, now)), s, r);
    RanBelow(c, s0, session, id, m, Then(front, Own(k, now)), s, r);
    FewerGot(Got(front), k);
    DeliversWithinBounds(c, s0, session, id, m, Then(front, Own(k, now)), s, r);
  }

  /** Where the message's datagrams are taken from: its pieces are fresh, and nothing of it is buffered. */
  ghost predicate Untouched(x: Session, w0: World, id: nat) {
    && id < |w0.log| && id < U64_SIZE && Message(w0.log[id]) && Openable(w0.log[id]) && StateOk(x.config, w0.table)
    && AllFresh(w0.log[id], w0.accepted) && (x.id, id) !in w0.table.entries
    && |w0.log[id].plaintext| <= x.config.maxBytes && x.config.timeout > 0
  }

  lemma HandsUp(delivered: seq<(u64, bytes)>, id: u64, m: Sent, got: set<nat>, k: nat, before: seq<(u64, bytes)>, f: Fragment, r: Outcome)
    requires before == delivered + (if |got| == |m.slices| then [(id, m.plaintext)] else []) && |got| < |m.slices|
    requires r == (if |got + {k}| == |m.slices| then Ok(Some(m.plaintext)) else Ok(None)) && f.header.message == id
    ensures Handed(before, f, r) == delivered + if |got + {k}| == |m.slices| then [(id, m.plaintext)] else []
  {
    assert before == delivered;
  }

  /** What one more datagram does, piece by piece of `Received`. */
  lemma ReceivedOneMore(x: Session, w0: World, id: nat, front: Trace<Arrival>, k: nat, now: nat, v: World, w: World, q: Outcome, r: Outcome)
    requires SessionOk(x) && Untouched(x, w0, id) && k < |w0.log[id].slices| && k !in Got(front)
    requires Light(x.config, w0.table, (x.id, id), w0.log[id], Then(front, Own(k, now))) && Prompt(x.config, Then(front, Own(k, now)))
    requires v.delivered == w0.delivered + if |Got(front)| == |w0.log[id].slices| then [(id, w0.log[id].plaintext)] else []
    requires Ran(x.config, w0.table, x.id, id, w0.log[id], front, v.table, q)
    requires Pushed(x.config, v.table, Piece(x.id, id, w0.log[id], k), now, w.table, r)
    ensures Ran(x.config, w0.table, x.id, id, w0.log[id], Then(front, Own(k, now)), w.table, r)
    ensures Handed(v.delivered, Piece(x.id, id, w0.log[id], k), r)
         == w0.delivered + if |Got(front) + {k}| == |w0.log[id].slices| then [(id, w0.log[id].plaintext)] else []
  {
    var m := w0.log[id];
    PieceReturns(x.config, w0.table, x.id, id, m, front, k, now, v.table, q, w.table, r);
    HandsUp(w0.delivered, id, m, Got(front), k, v.delivered, Piece(x.id, id, m, k), r);
  }

  lemma ReceivedStep(w0: World, id: nat, front: Trace<Arrival>, k: nat, now: nat, v: World, w: World)
    requires id < |w0.log| && id < U64_SIZE && k < |w0.log[id].slices|
    requires Received(w0, id, front, v) && w.log == v.log && w.accepted == v.accepted + {w0.log[id].base + k}
    requires w.delivered == w0.delivered + if |Got(front) + {k}| == |w0.log[id].slices| then [(id, w0.log[id].plaintext)] else []
    ensures Received(w0, id, Then(front, Own(k, now)), w)
  {
    MoreSequences(w0.log[id], Got(front), k);
  }

  lemma ReceivedOne(x: Session, w0: World, id: nat, front: Trace<Arrival>, k: nat, now: nat, v: World, w: World, q: Outcome) returns (r: Outcome)
    requires SessionOk(x) && Untouched(x, w0, id) && k < |w0.log[id].slices| && k !in Got(front)
    requires Light(x.config, w0.table, (x.id, id), w0.log[id], Then(front, Own(k, now))) && Prompt(x.config, Then(front, Own(k, now)))
    requires Received(w0, id, front, v) && Ran(x.config, w0.table, x.id, id, w0.log[id], front, v.table, q)
    requires Receives(x, v, Datagram(x, id, w0.log[id], k), now, w)
    ensures Received(w0, id, Then(front, Own(k, now)), w)
    ensures Ran(x.config, w0.table, x.id, id, w0.log[id], Then(front, Own(k, now)), w.table, r)
  {
    r := ReceivesPiece(x, w0, id, front, k, now, v, w);
    ReceivedOneMore(x, w0, id, front, k, now, v, w, q, r);
    ReceivedStep(w0, id, front, k, now, v, w);
  }

  lemma {:induction false} ReceivedAfter(x: Session, w0: World, id: nat, arrivals: Trace<Arrival>, w: World) returns (r: Outcome)
    requires SessionOk(x) && Untouched(x, w0, id)
    requires Light(x.config, w0.table, (x.id, id), w0.log[id], arrivals) && Prompt(x.config, arrivals)
    requires Takes(x, w0, id, arrivals, w)
    ensures Received(w0, id, arrivals, w) && Ran(x.config, w0.table, x.id, id, w0.log[id], arrivals, w.table, r)
  {
    match arrivals
    case Start =>
      assert Sequences(w0.log[id], {}) == {};
      r := Ok(None);
    case Then(front, Own(k, now)) =>
      var v :| Takes(x, w0, id, front, v) && Receives(x, v, Datagram(x, id, w0.log[id], k), now, w);
      LightBefore(x.config, w0.table, (x.id, id), w0.log[id], front, Own(k, now));
      var q := ReceivedAfter(x, w0, id, front, v);
      r := ReceivedOne(x, w0, id, front, k, now, v, w, q);
  }

  /** End to end: from any reachable state of a session, the datagrams of a message sent, received each once in any order
      within the bounds, hand up nothing until the last and then exactly the message. */
  lemma MessageGetsThrough(x: Session, events: Trace<Event>, w0: World, id: nat, arrivals: Trace<Arrival>, w: World)
    requires SessionOk(x) && x.config.timeout > 0 && Reaches(x, events, w0)
    requires id < |w0.log| && id < U64_SIZE && Message(w0.log[id])
    requires AllFresh(w0.log[id], w0.accepted) && (x.id, id) !in w0.table.entries && |w0.log[id].plaintext| <= x.config.maxBytes
    requires Light(x.config, w0.table, (x.id, id), w0.log[id], arrivals) && Prompt(x.config, arrivals)
    requires Takes(x, w0, id, arrivals, w)
    ensures w.delivered == w0.delivered + if |Got(arrivals)| == |w0.log[id].slices| then [(id, w0.log[id].plaintext)] else []
  {
    UdpTransport.RunKeepsInv(x, events, w0);
    var _ := ReceivedAfter(x, w0, id, arrivals, w);
  }

  lemma SinglePushed(c: Config, s: State, session: bytes, id: u64, m: Sent, now: nat, s': State, r: Outcome)
    requires Sealable(m) && m.slices == [m.plaintext] && Openable(m) && Pushed(c, s, Piece(session, id, m, 0), now, s', r)
    ensures s' == s && r == Ok(Some(m.plaintext))
  {
    FragmentHeaderOk(session, id, m, 0);
  }

  lemma SingleReceived(x: Session, w0: World, id: nat, m: Sent, now: nat, w: World)
    requires SessionOk(x) && id < U64_SIZE && Sealable(m) && m.slices == [m.plaintext] && Openable(m)
    requires Fresh(w0.accepted, m.base) && Receives(x, w0, Datagram(x, id, m, 0), now, w)
    ensures w.delivered == w0.delivered + [(id, m.plaintext)] && w.table == w0.table
  {
    OpensWhatWasSealed(x, w0.accepted, id, m, 0);
    var r := TakesFragment(x, w0, Datagram(x, id, m, 0), Piece(x.id, id, m, 0), now, w);
    SinglePushed(x.config, w0.table, x.id, id, m, now, w.table, r);
  }

  lemma OneSlice(m: Sent)
    requires |m.slices| == 1 && Flatten(m.slices) == m.plaintext
    ensures m.slices == [m.plaintext]
  {
    assert m.slices[..|m.slices| - 1] == [];
    assert [] + m.slices[0] == m.slices[0];
    assert m.slices == [m.slices[0]];
  }

  /** A message of one fragment is handed up by its one datagram, whatever is buffered. */
  lemma SingleGetsThrough(x: Session, events: Trace<Event>, w0: World, id: nat, now: nat, w: World)
    requires SessionOk(x) && Reaches(x, events, w0) && id < |w0.log| && id < U64_SIZE && |w0.log[id].slices| == 1
    requires Sealable(w0.log[id]) && Fresh(w0.accepted, w0.log[id].base)
    requires Receives(x, w0, Datagram(x, id, w0.log[id], 0), now, w)
    ensures w.delivered == w0.delivered + [(id, w0.log[id].plaintext)] && w.table == w0.table
  {
    UdpTransport.RunKeepsInv(x, events, w0);
    OneSlice(w0.log[id]);
    SingleReceived(x, w0, id, w0.log[id], now, w);
  }
}

/** The other half of reassembly: a message whose fragments all arrive is handed up, in whatever order
    they arrive and whatever else arrives in between, as long as its entry neither expires nor is evicted. */
module UdpDelivery {
  import opened Basics
  import opened UdpHeaders
  import opened Reassembly
  import opened UdpTransport

  ghost predicate Message(m: Sent) {
    Sealable(m) && m.slices == Cut(m.plaintext) && |m.slices| >= 2
  }

  function Piece(session: bytes, id: u64, m: Sent, k: nat): Fragment
    requires Sealable(m) && k < |m.slices|
  {
    Fragment(FragmentHeader(session, id, m, k), m.slices[k])
  }

  /** The table holds exactly the pieces `got` of the message. */
  ghost predicate Holds(s: State, key: Key, m: Sent, got: set<nat>) {
    if got == {} then key !in s.entries
    else key in s.entries && EntryHolds(s.entries[key], m, got)
  }

  ghost predicate EntryHolds(e: Entry, m: Sent, got: set<nat>) {
    && e.count == |e.fragments| == |m.slices| && e.total == |m.plaintext| && e.receivedCount == |got|
    && forall i :: 0 <= i < e.count ==> e.fragments[i] == if i in got then Some(m.slices[i]) else None
  }

  lemma {:induction false} PartialJoin(fragments: seq<Option<bytes>>, slices: seq<bytes>)
    requires |fragments| == |slices|
    requires forall i :: 0 <= i < |slices| ==> fragments[i] == None || fragments[i] == Some(slices[i])
    ensures |Joined(fragments)| <= |Flatten(slices)|
  {
    if slices != [] {
      PartialJoin(fragments[..|slices| - 1], slices[..|slices| - 1]);
    }
  }

  /** The entry after one more piece: its byte count stays within the message, and it is full exactly
      when it joins to the message. */
  lemma AddPiece(e: Entry, m: Sent, got: set<nat>, k: nat, now: nat)
    requires Sealable(m) && Flatten(m.slices) == m.plaintext
    requires k < |m.slices| && k !in got && EntryOk(e) && EntryHolds(e, m, got)
    ensures EntryHolds(WithFragment(e, k, m.slices[k], now), m, got + {k})
    ensures e.receivedBytes + |m.slices[k]| <= e.total
    ensures |got| + 1 == |m.slices| ==>
              && Joined(WithFragment(e, k, m.slices[k], now).fragments) == m.plaintext
              && e.receivedBytes + |m.slices[k]| == e.total
  {
    var e' := WithFragment(e, k, m.slices[k], now);
    FillSlot(e.fragments, k, m.slices[k]);
    PartialJoin(e'.fragments, m.slices);
    if |got| + 1 == |m.slices| {
      AllSome(e'.fragments);
      FullSlotsJoin(e'.fragments, m.slices);
    }
  }

  lemma CompletePiece(c: Config, s: State, session: bytes, id: u64, m: Sent, got: set<nat>, k: nat, now: nat, s': State, r: Outcome)
    requires Sealable(m) && Flatten(m.slices) == m.plaintext && k < |m.slices| && k !in got
    requires StateOk(c, s) && (session, id) in s.entries && EntryHolds(s.entries[(session, id)], m, got)
    requires Completed(s, Piece(session, id, m, k), now, s', r)
    ensures |got| + 1 < |m.slices| ==> r == Ok(None) && Holds(s', (session, id), m, got + {k})
    ensures |got| + 1 == |m.slices| ==> r == Ok(Some(m.plaintext))
  {
    AddPiece(s.entries[(session, id)], m, got, k, now);
  }

  lemma StorePiece(c: Config, s: State, session: bytes, id: u64, m: Sent, got: set<nat>, k: nat, now: nat, s': State, r: Outcome)
    requires Sealable(m) && Flatten(m.slices) == m.plaintext && k < |m.slices| && k !in got && |m.plaintext| <= c.maxBytes
    requires StateOk(c, s) && (session, id) in s.entries && EntryHolds(s.entries[(session, id)], m, got)
    requires Stored(c, s, Piece(session, id, m, k), now, s', r)
    ensures |got| + 1 < |m.slices| ==> r == Ok(None) && Holds(s', (session, id), m, got + {k})
    ensures |got| + 1 == |m.slices| ==> r == Ok(Some(m.plaintext))
  {
    var key, f := (session, id), Piece(session, id, m, k);
    AddPiece(s.entries[key], m, got, k, now);
    var s2 :| Evicted(c, s, key, |f.payload|, s2) && Completed(s2, f, now, s', r);
    EvictedOk(c, s, key, |f.payload|, s2);
    CompletePiece(c, s2, session, id, m, got, k, now, s', r);
  }

  lemma FirstPiece(c: Config, s: State, session: bytes, id: u64, m: Sent, k: nat, now: nat, s': State, r: Outcome)
    requires Sealable(m) && Flatten(m.slices) == m.plaintext && |m.slices| >= 2 && k < |m.slices| && |m.plaintext| <= c.maxBytes
    requires StateOk(c, s) && (session, id) !in s.entries && |s.entries| < c.maxEntries
    requires Stored(c, Inserted(s, Piece(session, id, m, k), now), Piece(session, id, m, k), now, s', r)
    ensures r == Ok(None) && Holds(s', (session, id), m, {k})
  {
    var f := Piece(session, id, m, k);
    InsertedOk(c, s, f, now);
    StorePiece(c, Inserted(s, f, now), session, id, m, {}, k, now, s', r);
    assert {} + {k} == {k};
  }

  lemma PieceOk(session: bytes, id: u64, m: Sent, k: nat)
    requires Message(m) && k < |m.slices|
    ensures ValidateFragment(Piece(session, id, m, k)).None?
  {
    FragmentHeaderOk(session, id, m, k);
  }

  /** One of the message's own pieces: it is stored, and the last one completes the message. */
  lemma OwnPiece(c: Config, s: State, session: bytes, id: u64, m: Sent, got: set<nat>, k: nat, now: nat, s': State, r: Outcome)
    requires Message(m) && k < |m.slices| && k !in got && |m.plaintext| <= c.maxBytes && c.maxEntries > 0
    requires StateOk(c, s) && Holds(s, (session, id), m, got)
    requires got != {} ==> !Expired(c, s.entries[(session, id)], now)
    requires Pushed(c, s, Piece(session, id, m, k), now, s', r)
    ensures |got| + 1 < |m.slices| ==> r == Ok(None) && Holds(s', (session, id), m, got + {k})
    ensures |got| + 1 == |m.slices| ==> r == Ok(Some(m.plaintext))
  {
    PieceOk(session, id, m, k);
    FlattenCut(m.plaintext);
    var f := Piece(session, id, m, k);
    var s1 := Cleanup(c, s, now);
    CleanupOk(c, s, now);
    if got != {} {
      StorePiece(c, s1, session, id, m, got, k, now, s', r);
    } else {
      assert {} + {k} == {k};
      if |s1.entries| >= c.maxEntries {
        var j :| Oldest(s1, None, j) && Stored(c, Inserted(Remove(s1, j), f, now), f, now, s', r);
        RemoveOk(c, s1, j);
        assert Remove(s1, j).entries.Keys == s1.entries.Keys - {j};
        FirstPiece(c, Remove(s1, j), session, id, m, k, now, s', r);
      } else {
        FirstPiece(c, s1, session, id, m, k, now, s', r);
      }
    }
  }

  lemma StoreElsewhere(c: Config, s: State, f: Fragment, now: nat, s': State, r: Outcome, key: Key)
    requires StateOk(c, s) && Stored(c, s, f, now, s', r) && KeyOf(f) != key
    ensures key in s'.entries ==> key in s.entries && s'.entries[key] == s.entries[key]
  {
    var own := KeyOf(f);
    if exists s2 :: Evicted(c, s, own, |f.payload|, s2) && Completed(s2, f, now, s', r) {
      var s2 :| Evicted(c, s, own, |f.payload|, s2) && Completed(s2, f, now, s', r);
      EvictedOk(c, s, own, |f.payload|, s2);
    }
  }

  /** A fragment of another message cannot touch what is held of this one, other than by evicting it. */
  lemma OtherPiece(c: Config, s: State, f: Fragment, now: nat, s': State, r: Outcome, key: Key)
    requires c.maxEntries > 0 && StateOk(c, s) && Pushed(c, s, f, now, s', r) && KeyOf(f) != key
    ensures key in s'.entries ==> key in s.entries && s'.entries[key] == s.entries[key]
  {
    if ValidateFragment(f).None? && f.header.count != 1 {
      var s1 := Cleanup(c, s, now);
      CleanupOk(c, s, now);
      if KeyOf(f) in s1.entries {
        StoreElsewhere(c, s1, f, now, s', r, key);
      } else if |f.payload| <= c.maxBytes {
        if |s1.entries| >= c.maxEntries {
          var k :| Oldest(s1, None, k) && Stored(c, Inserted(Remove(s1, k), f, now), f, now, s', r);
          RemoveOk(c, s1, k);
          assert Remove(s1, k).entries.Keys == s1.entries.Keys - {k};
          InsertedOk(c, Remove(s1, k), f, now);
          StoreElsewhere(c, Inserted(Remove(s1, k), f, now), f, now, s', r, key);
        } else {
          InsertedOk(c, s1, f, now);
          StoreElsewhere(c, Inserted(s1, f, now), f, now, s', r, key);
        }
      }
    }
  }

  // ----- Any order -----

  datatype Arrival = Own(index: nat, now: nat) | Other(fragment: Fragment, now: nat)

  function Got(arrivals: Trace<Arrival>): set<nat> {
    match arrivals
    case Start => {}
    case Then(front, Own(k, _)) => Got(front) + {k}
    case Then(front, Other(_, _)) => Got(front)
  }

  /** Feeding the arrivals to a table that has nothing of the message yet ends in `s` with outcome `r`:
      own pieces come once each, and the entry is still there, unexpired, when the next one comes. */
  ghost predicate Fed(c: Config, s0: State, session: bytes, id: u64, m: Sent, arrivals: Trace<Arrival>, s: State, r: Outcome)
    requires Sealable(m)
  {
    match arrivals
    case Start => s == s0 && r == Ok(None)
    case Then(front, Own(k, now)) =>
      && k < |m.slices| && k !in Got(front)
      && exists v, q ::
           && Fed(c, s0, session, id, m, front, v, q)
           && Pushed(c, v, Piece(session, id, m, k), now, s, r)
           && (Got(front) != {} ==> (session, id) in v.entries && !Expired(c, v.entries[(session, id)], now))
    case Then(front, Other(f, now)) =>
      && KeyOf(f) != (session, id)
      && exists v, q ::
           && Fed(c, s0, session, id, m, front, v, q)
           && Pushed(c, v, f, now, s, r)
           && (Got(front) != {} ==> (session, id) in s.entries)
  }

  lemma {:induction false} GotBelow(c: Config, s0: State, session: bytes, id: u64, m: Sent, arrivals: Trace<Arrival>, s: State, r: Outcome)
    requires Sealable(m) && Fed(c, s0, session, id, m, arrivals, s, r)
    ensures forall k :: k in Got(arrivals) ==> k < |m.slices|
    ensures |Got(arrivals)| <= |m.slices|
  {
    match arrivals
    case Start =>
    case Then(front, Own(k, now)) =>
      var v, q :| && Fed(c, s0, session, id, m, front, v, q)
                  && Pushed(c, v, Piece(session, id, m, k), now, s, r)
                  && (Got(front) != {} ==> (session, id) in v.entries && !Expired(c, v.entries[(session, id)], now));
      GotBelow(c, s0, session, id, m, front, v, q);
      RangeOfNats(Got(arrivals), |m.slices|);
    case Then(front, Other(f, now)) =>
      var v, q :| && Fed(c, s0, session, id, m, front, v, q)
                  && Pushed(c, v, f, now, s, r)
                  && (Got(front) != {} ==> (session, id) in s.entries);
      GotBelow(c, s0, session, id, m, front, v, q);
  }

  lemma RangeOfNats(got: set<nat>, n: nat)
    requires forall k :: k in got ==> k < n
    ensures |got| <= n
  {
    RangeCardinality(got, 0, n);
  }

  lemma OwnStep(c: Config, s: State, session: bytes, id: u64, m: Sent, got: set<nat>, k: nat, now: nat, s': State, r: Outcome)
    requires Message(m) && k < |m.slices| && k !in got && |m.plaintext| <= c.maxBytes && c.maxEntries > 0
    requires StateOk(c, s) && Holds(s, (session, id), m, got) && |got + {k}| < |m.slices|
    requires got != {} ==> !Expired(c, s.entries[(session, id)], now)
    requires Pushed(c, s, Piece(session, id, m, k), now, s', r)
    ensures StateOk(c, s') && Holds(s', (session, id), m, got + {k}) && r == Ok(None)
  {
    PushKeepsBookkeeping(c, s, Piece(session, id, m, k), now, s', r);
    OwnPiece(c, s, session, id, m, got, k, now, s', r);
  }

  lemma OtherStep(c: Config, s: State, f: Fragment, now: nat, s': State, r: Outcome, key: Key, m: Sent, got: set<nat>)
    requires c.maxEntries > 0 && StateOk(c, s) && Pushed(c, s, f, now, s', r) && KeyOf(f) != key
    requires Holds(s, key, m, got) && (got != {} ==> key in s'.entries)
    ensures StateOk(c, s') && Holds(s', key, m, got)
  {
    PushKeepsBookkeeping(c, s, f, now, s', r);
    OtherPiece(c, s, f, now, s', r, key);
  }

  lemma {:induction false} FedHolds(c: Config, s0: State, session: bytes, id: u64, m: Sent, arrivals: Trace<Arrival>, s: State, r: Outcome)
    requires Message(m) && |m.plaintext| <= c.maxBytes && c.maxEntries > 0
    requires StateOk(c, s0) && (session, id) !in s0.entries
    requires Fed(c, s0, session, id, m, arrivals, s, r) && |Got(arrivals)| < |m.slices|
    ensures StateOk(c, s) && Holds(s, (session, id), m, Got(arrivals))
    ensures arrivals.Then? && arrivals.last.Own? ==> r == Ok(None)
  {
    match arrivals
    case Start =>
    case Then(front, Own(k, now)) =>
      var v, q :| && Fed(c, s0, session, id, m, front, v, q)
                  && Pushed(c, v, Piece(session, id, m, k), now, s, r)
                  && (Got(front) != {} ==> (session, id) in v.entries && !Expired(c, v.entries[(session, id)], now));
      FedHolds(c, s0, session, id, m, front, v, q);
      OwnStep(c, v, session, id, m, Got(front), k, now, s, r);
    case Then(front, Other(f, now)) =>
      var v, q :| && Fed(c, s0, session, id, m, front, v, q)
                  && Pushed(c, v, f, now, s, r)
                  && (Got(front) != {} ==> (session, id) in s.entries);
      FedHolds(c, s0, session, id, m, front, v, q);
      OtherStep(c, v, f, now, s, r, (session, id), m, Got(front));
  }

  /** Every order works: no piece but the last produces anything, and the last produces the message. */
  lemma DeliversInAnyOrder(c: Config, s0: State, session: bytes, id: u64, m: Sent, arrivals: Trace<Arrival>, s: State, r: Outcome)
    requires Message(m) && |m.plaintext| <= c.maxBytes && c.maxEntries > 0
    requires StateOk(c, s0) && (session, id) !in s0.entries
    requires Fed(c, s0, session, id, m, arrivals, s, r) && arrivals.Then? && arrivals.last.Own?
    ensures r == if |Got(arrivals)| == |m.slices| then Ok(Some(m.plaintext)) else Ok(None)
  {
    GotBelow(c, s0, session, id, m, arrivals, s, r);
    if |Got(arrivals)| < |m.slices| {
      FedHolds(c, s0, session, id, m, arrivals, s, r);
    } else {
      var front, k, now := arrivals.before, arrivals.last.index, arrivals.last.now;
      var v, q :| && Fed(c, s0, session, id, m, front, v, q)
                  && Pushed(c, v, Piece(session, id, m, k), now, s, r)
                  && (Got(front) != {} ==> (session, id) in v.entries && !Expired(c, v.entries[(session, id)], now));
      assert Got(arrivals) == Got(front) + {k};
      FedHolds(c, s0, session, id, m, front, v, q);
      OwnPiece(c, v, session, id, m, Got(front), k, now, s, r);
    }
  }
}

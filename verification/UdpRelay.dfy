/** The flow tables of the shared UDP relay: a flow key is given a 64-bit id, ids come from a rotating
    counter that skips 0 and every id in use, and flows not seen for five minutes are dropped.
    Times are milliseconds. */
module UdpRelay {
  import opened Basics

  const FLOW_TTL := 300_000

  /** The ids 1 to 2^64 - 1. */
  const ID_COUNT: int := U64_MAX

  datatype Relay<K> = Relay(flowIds: map<K, u64>, flows: map<u64, K>, lastSeen: map<u64, nat>, nextId: u64)

  /** The two directions are inverse, the last-seen table covers exactly the live ids, and 0 is not one. */
  ghost predicate Consistent<K>(s: Relay<K>) {
    && 1 <= s.nextId
    && s.flows.Keys == s.lastSeen.Keys
    && (forall k :: k in s.flowIds ==> s.flowIds[k] in s.flows && s.flows[s.flowIds[k]] == k)
    && (forall id :: id in s.flows ==> 1 <= id && s.flows[id] in s.flowIds && s.flowIds[s.flows[id]] == id)
  }

  // ----- The rotation -----

  function NextId(id: u64): u64 {
    var wrapped := (id + 1) % U64_SIZE;
    if wrapped < 1 then 1 else wrapped
  }

  /** The `k`-th id probed when the counter stands at `start`. */
  function Probe(start: u64, k: nat): u64
    requires 1 <= start
  {
    (start - 1 + k) % ID_COUNT + 1
  }

  lemma ProbeStep(start: u64, k: nat)
    requires 1 <= start
    ensures 1 <= Probe(start, k) && NextId(Probe(start, k)) == Probe(start, k + 1)
  {
    var x := (start - 1 + k) % ID_COUNT;
    assert (start - 1 + k) == ID_COUNT * ((start - 1 + k) / ID_COUNT) + x;
    if x + 1 == ID_COUNT {
      assert start - 1 + k + 1 == ID_COUNT * ((start - 1 + k) / ID_COUNT + 1);
      assert (start - 1 + k + 1) % ID_COUNT == 0;
    } else {
      assert (start - 1 + k + 1) % ID_COUNT == x + 1;
    }
  }

  /** How many probes it takes to come to `id`. */
  function Distance(start: u64, id: u64): nat
    requires 1 <= start && 1 <= id
  {
    if id >= start then id - start else id - start + ID_COUNT
  }

  lemma ProbeReaches(start: u64, id: u64)
    requires 1 <= start && 1 <= id
    ensures Distance(start, id) < ID_COUNT && Probe(start, Distance(start, id)) == id
  {
  }

  /** `id` is the first id from the counter on that is not in use; the counter then stands behind it. */
  ghost predicate FirstFree<K>(flows: map<u64, K>, start: u64, id: u64, next: u64)
    requires 1 <= start
  {
    exists k: nat ::
      && id == Probe(start, k) && next == NextId(id) && id !in flows
      && forall j: nat :: j < k ==> Probe(start, j) in flows
  }

  /** Some id is free exactly while fewer than 2^64 - 1 flows are live. */
  lemma FreeIdExists<K>(flows: map<u64, K>)
    requires 0 !in flows
    ensures (exists id: u64 :: 1 <= id && id !in flows) <==> |flows| < ID_COUNT
  {
    GapIffSmaller(flows.Keys, 1, U64_SIZE);
    assert |flows.Keys| == |flows|;
    if id :| 1 <= id < U64_SIZE && id !in flows.Keys {
      var free: u64 := id;
      assert free !in flows;
    }
  }

  /** With every id taken the search would never end: no probe finds a free id. */
  lemma ExhaustedSearchNeverEnds<K>(flows: map<u64, K>, start: u64, k: nat)
    requires 1 <= start && 0 !in flows && |flows| >= ID_COUNT
    ensures Probe(start, k) in flows
  {
    FreeIdExists(flows);
    ProbeStep(start, k);
  }

  // ----- One use of a flow, one sweep -----

  ghost predicate Uses<K>(s: Relay<K>, key: K, now: nat, s': Relay<K>, id: u64)
    requires 1 <= s.nextId
  {
    if key in s.flowIds then
      id == s.flowIds[key] && s' == s.(lastSeen := s.lastSeen[id := now])
    else
      && FirstFree(s.flows, s.nextId, id, s'.nextId)
      && s' == Relay(s.flowIds[key := id], s.flows[id := key], s.lastSeen[id := now], s'.nextId)
  }

  predicate Stale<K>(s: Relay<K>, id: u64, now: nat)
    requires id in s.lastSeen
  {
    s.lastSeen[id] + FLOW_TTL <= now
  }

  /** The tables without the flows of some ids. */
  function Without<K>(s: Relay<K>, gone: set<u64>): Relay<K> {
    Relay(
      map k | k in s.flowIds && s.flowIds[k] !in gone :: s.flowIds[k],
      s.flows - gone, s.lastSeen - gone, s.nextId)
  }

  function Sweep<K>(s: Relay<K>, now: nat): Relay<K> {
    Without(s, set id | id in s.lastSeen && Stale(s, id, now))
  }

  lemma WithoutNone<K>(s: Relay<K>)
    ensures Without(s, {}) == s
  {
    assert Without(s, {}).flowIds == s.flowIds;
  }

  lemma WithoutOneMore<K>(s: Relay<K>, gone: set<u64>, id: u64)
    requires Consistent(s) && id in s.flows && id !in gone
    ensures var w := Without(s, gone);
            && id in w.lastSeen && id in w.flows
            && Without(s, gone + {id}) == Relay(w.flowIds - {w.flows[id]}, w.flows - {id}, w.lastSeen - {id}, w.nextId)
  {
    var w, w' := Without(s, gone), Without(s, gone + {id});
    assert w'.flows == w.flows - {id};
    assert w'.lastSeen == w.lastSeen - {id};
    forall k | k in s.flowIds ensures s.flowIds[k] == id <==> k == s.flows[id] {
    }
    assert w'.flowIds == w.flowIds - {s.flows[id]};
  }

  lemma UseKeepsConsistent<K>(s: Relay<K>, key: K, now: nat, s': Relay<K>, id: u64)
    requires Consistent(s) && Uses(s, key, now, s', id)
    ensures Consistent(s') && s'.flowIds[key] == id && s'.flows[id] == key && s'.lastSeen[id] == now
  {
    if key !in s.flowIds {
      var k: nat :| && id == Probe(s.nextId, k) && s'.nextId == NextId(id) && id !in s.flows
                    && forall j: nat :: j < k ==> Probe(s.nextId, j) in s.flows;
      ProbeStep(s.nextId, k);
    }
  }

  lemma SweepKeepsConsistent<K>(s: Relay<K>, now: nat)
    requires Consistent(s)
    ensures Consistent(Sweep(s, now))
  {
  }

  class UdpRelayState<K(==)> {
    var flowIds: map<K, u64>
    var flows: map<u64, K>
    var lastSeen: map<u64, nat>
    var nextFlowId: u64

    function View(): Relay<K>
      reads this
    {
      Relay(flowIds, flows, lastSeen, nextFlowId)
    }

    constructor ()
      ensures View() == Relay(map[], map[], map[], 1) && Consistent(View())
    {
      flowIds, flows, lastSeen, nextFlowId := map[], map[], map[], 1;
    }

    /** The id of a flow, allocated on first use. */
    method FlowId(key: K, now: nat) returns (id: u64)
      requires Consistent(View()) && (key in flowIds || |flows| < ID_COUNT)
      modifies this
      ensures Uses(old(View()), key, now, View(), id) && Consistent(View())
    {
      if key in flowIds {
        id := flowIds[key];
        lastSeen := lastSeen[id := now];
      } else {
        id := NextAvailableFlowId();
        flowIds := flowIds[key := id];
        flows := flows[id := key];
        lastSeen := lastSeen[id := now];
      }
      UseKeepsConsistent(old(View()), key, now, View(), id);
    }

    /** Probes ids in rotation until one is free; ends because one of the 2^64 - 1 ids is. */
    method NextAvailableFlowId() returns (id: u64)
      requires Consistent(View()) && |flows| < ID_COUNT
      modifies this`nextFlowId
      ensures FirstFree(flows, old(nextFlowId), id, nextFlowId)
    {
      FreeIdExists(flows);
      ghost var free: u64 :| 1 <= free && free !in flows;
      ghost var start, k := nextFlowId, 0;
      ProbeReaches(start, free);
      while true
        invariant 1 <= start && nextFlowId == Probe(start, k) && k <= Distance(start, free)
        invariant forall j: nat :: j < k ==> Probe(start, j) in flows
        decreases Distance(start, free) - k
      {
        id := nextFlowId;
        ProbeStep(start, k);
        nextFlowId := NextId(nextFlowId);
        if id !in flows {
          return;
        }
        k := k + 1;
      }
    }

    /** Drops every flow that has not been seen for five minutes, from all three tables. */
    method CleanupExpired(now: nat)
      requires Consistent(View())
      modifies this
      ensures View() == Sweep(old(View()), now) && Consistent(View())
    {
      ghost var s := View();
      var expired := set id | id in lastSeen && lastSeen[id] + FLOW_TTL <= now;
      var todo := expired;
      WithoutNone(s);
      assert expired - todo == {};
      while todo != {}
        invariant todo <= expired <= s.flows.Keys && View() == Without(s, expired - todo)
        decreases |todo|
      {
        var id :| id in todo;
        WithoutOneMore(s, expired - todo, id);
        assert expired - todo + {id} == expired - (todo - {id});
        todo := todo - {id};
        Remove(id);
      }
      assert expired - todo == (set id | id in s.lastSeen && Stale(s, id, now));
      SweepKeepsConsistent(s, now);
    }

    method Remove(id: u64)
      modifies this
      ensures var w := old(View());
              View() == Relay(if id in w.flows then w.flowIds - {w.flows[id]} else w.flowIds,
                              w.flows - {id}, w.lastSeen - {id}, w.nextId)
    {
      lastSeen := lastSeen - {id};
      if id in flows {
        var key := flows[id];
        flows := flows - {id};
        flowIds := flowIds - {key};
      } else {
        assert flows - {id} == flows;
      }
    }

    /** Where a reply goes: the flow that holds the id, if any. */
    method Flow(id: u64) returns (flow: Option<K>)
      requires Consistent(View())
      ensures flow.Some? <==> exists k :: k in flowIds && flowIds[k] == id
      ensures flow.Some? ==> flow.value in flowIds && flowIds[flow.value] == id
    {
      if id in flows {
        assert flows[id] in flowIds;
        return Some(flows[id]);
      }
      return None;
    }
  }

  // ----- Whole runs -----

  datatype Event<K> = Use(key: K, now: nat) | Cleanup(now: nat)

  ghost predicate Steps<K>(s: Relay<K>, e: Event<K>, s': Relay<K>) {
    && 1 <= s.nextId
    && match e
       case Use(key, now) => exists id :: Uses(s, key, now, s', id)
       case Cleanup(now) => s' == Sweep(s, now)
  }

  ghost predicate Reaches<K(!new)>(s0: Relay<K>, events: Trace<Event<K>>, s: Relay<K>) {
    match events
    case Start => s == s0
    case Then(front, last) => exists v :: Reaches(s0, front, v) && Steps(v, last, s)
  }

  lemma {:induction false} RunKeepsConsistent<K(!new)>(s0: Relay<K>, events: Trace<Event<K>>, s: Relay<K>)
    requires Consistent(s0) && Reaches(s0, events, s)
    ensures Consistent(s)
  {
    match events
    case Start =>
    case Then(front, last) =>
      var v :| Reaches(s0, front, v) && Steps(v, last, s);
      RunKeepsConsistent(s0, front, v);
      match last
      case Use(key, now) =>
        var id :| Uses(v, key, now, s, id);
        UseKeepsConsistent(v, key, now, s, id);
      case Cleanup(now) => SweepKeepsConsistent(v, now);
  }

  predicate Within<K>(events: Trace<Event<K>>, from: nat, to: nat) {
    match events
    case Start => true
    case Then(front, last) => Within(front, from, to) && from <= last.now < to
  }

  /** A flow seen at `t` keeps its id through everything that happens before `t` + 5 min, and no other
      flow has that id meanwhile. */
  lemma {:induction false} SeenFlowKeepsItsId<K(!new)>(s0: Relay<K>, events: Trace<Event<K>>, s: Relay<K>, key: K, id: u64, t: nat)
    requires Consistent(s0) && key in s0.flowIds && s0.flowIds[key] == id && t <= s0.lastSeen[id]
    requires Reaches(s0, events, s) && Within(events, t, t + FLOW_TTL)
    ensures Consistent(s) && key in s.flowIds && s.flowIds[key] == id && t <= s.lastSeen[id]
    ensures forall other :: other in s.flowIds && other != key ==> s.flowIds[other] != id
  {
    match events
    case Start =>
    case Then(front, last) =>
      var v :| Reaches(s0, front, v) && Steps(v, last, s);
      SeenFlowKeepsItsId(s0, front, v, key, id, t);
      match last
      case Use(k, now) =>
        var used :| Uses(v, k, now, s, used);
        UseKeepsConsistent(v, k, now, s, used);
      case Cleanup(now) => SweepKeepsConsistent(v, now);
  }

  // ----- What the tables hold, from the events alone -----

  /** When the key was last used, unless a cleanup at least five minutes later has come since. */
  function LastUse<K(==)>(events: Trace<Event<K>>, key: K): Option<nat> {
    match events
    case Start => None
    case Then(front, Use(k, now)) => if k == key then Some(now) else LastUse(front, key)
    case Then(front, Cleanup(now)) =>
      var seen := LastUse(front, key);
      if seen.Some? && seen.value + 5 * 60 * 1000 <= now then None else seen
  }

  /** The key has an id exactly if it is in use, and its id was last seen at its last use. */
  ghost predicate Remembers<K>(s: Relay<K>, key: K, seen: Option<nat>)
    requires Consistent(s)
  {
    && (key in s.flowIds <==> seen.Some?)
    && (seen.Some? ==> s.lastSeen[s.flowIds[key]] == seen.value)
  }

  lemma UseRemembers<K>(s: Relay<K>, key: K, now: nat, s': Relay<K>, id: u64, other: K, seen: Option<nat>)
    requires Consistent(s) && Uses(s, key, now, s', id) && Consistent(s') && Remembers(s, other, seen)
    ensures Remembers(s', other, if key == other then Some(now) else seen)
  {
    UseKeepsConsistent(s, key, now, s', id);
    if key !in s.flowIds && other != key && other in s.flowIds {
      assert s.flowIds[other] in s.flows;
    }
  }

  /** In every run from the start, a flow has an id if and only if no cleanup has come five minutes or more after its last
      use, and a flow without one gets one, the first free, when it is used. */
  lemma {:induction false} FlowsAreTheRecentlyUsed<K(!new)>(events: Trace<Event<K>>, s: Relay<K>, key: K)
    requires Reaches(Relay(map[], map[], map[], 1), events, s)
    ensures Consistent(s) && Remembers(s, key, LastUse(events, key))
  {
    var s0 := Relay(map[], map[], map[], 1);
    RunKeepsConsistent(s0, events, s);
    match events
    case Start =>
    case Then(front, last) =>
      var v :| Reaches(s0, front, v) && Steps(v, last, s);
      FlowsAreTheRecentlyUsed(front, v, key);
      match last
      case Use(k, now) =>
        var id :| Uses(v, k, now, s, id);
        UseRemembers(v, k, now, s, id, key, LastUse(front, key));
      case Cleanup(now) =>
  }
}

/** The Android agent's pool of Yamux sessions: pruning, round-robin choice, the refill protocol that several callers
    run at once, and the retry loop around it. */
module YamuxPool {
  import opened Basics

  // ----- The list of sessions -----

  /** The sessions not in `gone`, in order. */
  function Keep(sessions: seq<nat>, gone: set<nat>): seq<nat> {
    if sessions == [] then []
    else Keep(sessions[..|sessions| - 1], gone)
         + (if sessions[|sessions| - 1] in gone then [] else [sessions[|sessions| - 1]])
  }

  function Drop(sessions: seq<nat>, gone: set<nat>): seq<nat> {
    if sessions == [] then []
    else Drop(sessions[..|sessions| - 1], gone)
         + (if sessions[|sessions| - 1] in gone then [sessions[|sessions| - 1]] else [])
  }

  ghost predicate NoDuplicates(s: seq<nat>) {
    forall i, j :: 0 <= i < j < |s| ==> s[i] != s[j]
  }

  lemma {:induction false} KeepMembers(sessions: seq<nat>, gone: set<nat>)
    ensures forall x :: x in Keep(sessions, gone) <==> x in sessions && x !in gone
    ensures |Keep(sessions, gone)| <= |sessions|
  {
    if sessions != [] {
      var n := |sessions| - 1;
      KeepMembers(sessions[..n], gone);
      assert sessions == sessions[..n] + [sessions[n]];
    }
  }

  lemma {:induction false} DropMembers(sessions: seq<nat>, gone: set<nat>)
    ensures forall x :: x in Drop(sessions, gone) <==> x in sessions && x in gone
    ensures |Keep(sessions, gone)| + |Drop(sessions, gone)| == |sessions|
  {
    if sessions != [] {
      var n := |sessions| - 1;
      DropMembers(sessions[..n], gone);
      assert sessions == sessions[..n] + [sessions[n]];
    }
  }

  lemma {:induction false} KeepDistinct(sessions: seq<nat>, gone: set<nat>)
    requires NoDuplicates(sessions)
    ensures NoDuplicates(Keep(sessions, gone))
  {
    if sessions != [] {
      var n := |sessions| - 1;
      KeepDistinct(sessions[..n], gone);
      KeepMembers(sessions[..n], gone);
      assert sessions[n] !in sessions[..n];
    }
  }

  class SessionList {
    var sessions: seq<nat>
    var nextIndex: u64

    constructor ()
      ensures sessions == [] && nextIndex == 0
    {
      sessions, nextIndex := [], 0;
    }

    /** Removes closed sessions one at a time, in place. */
    method PruneClosed(closed: set<nat>) returns (removed: seq<nat>)
      modifies this`sessions
      ensures sessions == Keep(old(sessions), closed) && removed == Drop(old(sessions), closed)
    {
      removed := [];
      var index := 0;
      ghost var all := sessions;
      ghost var seen := 0;
      while index < |sessions|
        invariant 0 <= index <= |sessions| && 0 <= seen <= |all|
        invariant sessions[..index] == Keep(all[..seen], closed) && sessions[index..] == all[seen..]
        invariant removed == Drop(all[..seen], closed)
        decreases |sessions| - index
      {
        assert sessions[index] == sessions[index..][0] == all[seen];
        assert sessions[index + 1..] == sessions[index..][1..] == all[seen..][1..] == all[seen + 1..];
        assert all[..seen + 1] == all[..seen] + [all[seen]];
        KeepAppend(all[..seen], all[seen], closed);
        DropAppend(all[..seen], all[seen], closed);
        if sessions[index] in closed {
          removed := removed + [sessions[index]];
          ghost var kept, rest := sessions[..index], sessions[index + 1..];
          sessions := sessions[..index] + sessions[index + 1..];
          assert sessions[..index] == kept && sessions[index..] == rest;
        } else {
          assert sessions[..index + 1] == sessions[..index] + [sessions[index]];
          index := index + 1;
        }
        seen := seen + 1;
      }
      assert all[..seen] == all;
      assert sessions[..index] == sessions;
    }

    /** The first session in `wanted`, going round from where the last search began plus one. */
    method Next(wanted: set<nat>) returns (found: Option<nat>)
      modifies this`nextIndex
      ensures found.None? <==> forall x :: x in sessions ==> x !in wanted
      ensures found.Some? ==> Nearest(sessions, old(nextIndex) % |sessions|, found.value, wanted)
      ensures nextIndex == if sessions == [] then old(nextIndex) else (old(nextIndex) + 1) % U64_SIZE
    {
      if |sessions| == 0 {
        return None;
      }
      var start := nextIndex % |sessions|;
      nextIndex := (nextIndex + 1) % U64_SIZE;
      for offset := 0 to |sessions|
        invariant forall j: nat :: j < offset ==> Round(sessions, start, j) !in wanted
        invariant nextIndex == (old(nextIndex) + 1) % U64_SIZE
      {
        var index := (start + offset) % |sessions|;
        SmallMod(start + offset, |sessions|);
        assert sessions[index] == Round(sessions, start, offset);
        if sessions[index] in wanted {
          return Some(sessions[index]);
        }
      }
      found := None;
      forall x | x in sessions ensures x !in wanted {
        var i :| 0 <= i < |sessions| && sessions[i] == x;
        assert x == Round(sessions, start, if i >= start then i - start else i + |sessions| - start);
      }
    }

    method Remove(id: nat) returns (removed: Option<nat>)
      modifies this`sessions
      ensures removed == if id in old(sessions) then Some(id) else None
      ensures |sessions| == |old(sessions)| - if removed.Some? then 1 else 0
      ensures NoDuplicates(old(sessions)) ==> sessions == Keep(old(sessions), {id})
    {
      var index := 0;
      while index < |sessions| && sessions[index] != id
        invariant 0 <= index <= |sessions| && id !in sessions[..index]
      {
        index := index + 1;
      }
      if index == |sessions| {
        assert sessions[..index] == sessions;
        KeepAll(sessions, {id});
        return None;
      }
      if NoDuplicates(sessions) {
        WithoutOne(sessions, index);
      }
      removed := Some(sessions[index]);
      sessions := sessions[..index] + sessions[index + 1..];
    }
  }

  function Round(sessions: seq<nat>, start: nat, k: nat): nat
    requires start < |sessions| && k < |sessions|
  {
    sessions[if start + k < |sessions| then start + k else start + k - |sessions|]
  }

  /** `x` is the first wanted session when going once round from `start`. */
  ghost predicate Nearest(sessions: seq<nat>, start: nat, x: nat, wanted: set<nat>)
    requires start < |sessions|
  {
    exists k: nat :: k < |sessions| && x == Round(sessions, start, k) && x in wanted
      && forall j: nat :: j < k ==> Round(sessions, start, j) !in wanted
  }

  lemma SmallMod(x: nat, n: nat)
    requires x < 2 * n
    ensures x % n == if x < n then x else x - n
  {
  }

  lemma {:induction false} WithoutOne(all: seq<nat>, i: nat)
    requires i < |all| && NoDuplicates(all)
    ensures all[..i] + all[i + 1..] == Keep(all, {all[i]})
  {
    var n := |all| - 1;
    var front := all[..n];
    if i == n {
      KeepAll(front, {all[i]});
    } else {
      WithoutOne(front, i);
      assert front[..i] == all[..i] && all[i + 1..] == front[i + 1..] + [all[n]];
    }
  }

  lemma {:induction false} KeepAll(sessions: seq<nat>, gone: set<nat>)
    requires forall x :: x in sessions ==> x !in gone
    ensures Keep(sessions, gone) == sessions
  {
    if sessions != [] {
      KeepAll(sessions[..|sessions| - 1], gone);
    }
  }

  lemma KeepAppend(a: seq<nat>, x: nat, gone: set<nat>)
    ensures Keep(a + [x], gone) == Keep(a, gone) + (if x in gone then [] else [x])
  {
    assert (a + [x])[..|a|] == a;
  }

  lemma DropAppend(a: seq<nat>, x: nat, gone: set<nat>)
    ensures Drop(a + [x], gone) == Drop(a, gone) + (if x in gone then [x] else [])
  {
    assert (a + [x])[..|a|] == a;
  }

  // ----- Several callers at once -----

  /** Which call of the refill a caller is in: the one that ensures a first session, the one after finding no session
      with room, or the one after a session turned out full. */
  datatype Where = AtStart | NoneFree | AtCapacity

  /** `Exhausted` is giving up after too many attempts; `Failed` stands for every error passed on at once. */
  datatype Result = Opened | TargetRefused | Exhausted | Failed

  /** Where a caller stands in its loop. Counting and filling callers hold the refill lock. */
  datatype Stage =
    | Pruning
    | Entering(from: Where, target: nat)
    | Sizing(from: Where, target: nat)
    | Waiting(from: Where, target: nat)
    | Counting(from: Where, target: nat)
    | Filling(from: Where, target: nat, pending: set<nat>, won: nat)
    | Choosing
    | Growing(from: Where)
    | Measuring(from: Where)
    | FallingBack
    | Connecting(id: nat)
    | Removing(id: nat)
    | Done(result: Result)

  /** A call to open a stream, with the attempts it has counted, the sessions it has put into the pool and the trips
      round its loop it has begun. */
  datatype Call = Call(stage: Stage, attempts: nat, created: nat, iterations: nat)

  /** `pushed` remembers every session that entered the pool and the caller that put it there, `begun` every caller,
      `aborted` whether a refill ever found the pool full. */
  datatype World = World(
    max: nat, sessions: seq<nat>, closed: set<nat>, refill: Option<nat>, callers: map<nat, Call>, nextId: nat,
    pushed: map<nat, nat>, begun: set<nat>, aborted: bool)

  datatype Outcome = Accepted | Full | Refused | Broken

  /** `stopping` says that the agent was found to be shutting down; `free` are the sessions found to have room. */
  datatype Event =
    | Begin(caller: nat)
    | PruneFirst(caller: nat)
    | Enter(caller: nat, stopping: bool)
    | CheckSize(caller: nat)
    | LockRefill(caller: nat)
    | Count(caller: nat)
    | Join(caller: nat, id: nat, connected: bool)
    | Finish(caller: nat)
    | Choose(caller: nat, free: set<nat>, found: Option<nat>)
    | Grow(caller: nat, stopping: bool)
    | Measure(caller: nat)
    | FallBack(caller: nat, found: Option<nat>)
    | Connect(caller: nat, id: nat, outcome: Outcome)
    | Remove(caller: nat)
    | Cancel(caller: nat)
    | Dies(id: nat)

  function Most(max: nat): nat {
    if max < 3 then 3 else max
  }

  function Ids(from: nat, count: nat): set<nat> {
    if count == 0 then {} else Ids(from, count - 1) + {from + count - 1}
  }

  function Min(a: nat, b: nat): nat {
    if a < b then a else b
  }

  /** The next trip round the loop. */
  function Again(c: Call): Call {
    c.(stage := Pruning, iterations := c.iterations + 1)
  }

  /** One more attempt is used up; the last one ends the call. */
  function Attempted(max: nat, c: Call): Call {
    var c' := c.(attempts := c.attempts + 1);
    if c'.attempts >= Most(max) then c'.(stage := Done(Exhausted)) else Again(c')
  }

  /** A refill has returned `won` new sessions. */
  function Returned(max: nat, c: Call, from: Where, won: nat): Call {
    match from
    case AtStart => c.(stage := Choosing)
    case NoneFree => if won > 0 then Again(c) else c.(stage := FallingBack)
    case AtCapacity => if won > 0 then Again(c) else Attempted(max, c)
  }

  function Set(w: World, t: nat, c: Call): World {
    w.(callers := w.callers[t := c])
  }

  function Release(w: World, t: nat): World {
    w.(refill := if w.refill == Some(t) then None else w.refill)
  }

  predicate At(w: World, t: nat) {
    t in w.callers
  }

  // The steps, in the order of the loop.

  ghost predicate Begins(w: World, t: nat, w': World) {
    t !in w.begun && w' == Set(w, t, Call(Pruning, 0, 0, 1)).(begun := w.begun + {t})
  }

  ghost predicate PrunesFirst(w: World, t: nat, w': World) {
    && At(w, t) && w.callers[t].stage.Pruning?
    && w' == Set(w, t, w.callers[t].(stage := Entering(AtStart, Min(1, w.max)))).(sessions := Keep(w.sessions, w.closed))
  }

  /** A refill that has nothing to do returns at once; otherwise it prunes. */
  ghost predicate Enters(w: World, t: nat, stopping: bool, w': World) {
    && At(w, t) && w.callers[t].stage.Entering?
    && var c := w.callers[t];
       w' == if stopping || c.stage.target == 0 then Set(w, t, Returned(w.max, c, c.stage.from, 0))
             else Set(w, t, c.(stage := Sizing(c.stage.from, c.stage.target))).(sessions := Keep(w.sessions, w.closed))
  }

  ghost predicate ChecksSize(w: World, t: nat, w': World) {
    && At(w, t) && w.callers[t].stage.Sizing?
    && var c := w.callers[t];
       w' == if |w.sessions| >= c.stage.target then Set(w, t, Returned(w.max, c, c.stage.from, 0))
             else Set(w, t, c.(stage := Waiting(c.stage.from, c.stage.target)))
  }

  ghost predicate LocksRefill(w: World, t: nat, w': World) {
    && At(w, t) && w.callers[t].stage.Waiting? && w.refill.None?
    && var c := w.callers[t];
       w' == Set(w, t, c.(stage := Counting(c.stage.from, c.stage.target))).(refill := Some(t))
  }

  ghost predicate Counts(w: World, t: nat, w': World) {
    && At(w, t) && w.callers[t].stage.Counting?
    && var c, n := w.callers[t], |w.sessions|;
       w' == if n >= c.stage.target then Release(Set(w, t, Returned(w.max, c, c.stage.from, 0)), t)
             else
               var missing := c.stage.target - n;
               Set(w, t, c.(stage := Filling(c.stage.from, c.stage.target, Ids(w.nextId, missing), 0)))
               .(nextId := w.nextId + missing)
  }

  /** A connection attempt ends. A refill that finds the pool already full would drop the rest. */
  ghost predicate Joins(w: World, t: nat, id: nat, connected: bool, w': World) {
    && At(w, t) && w.callers[t].stage.Filling? && id in w.callers[t].stage.pending
    && var c := w.callers[t];
       var Filling(from, target, pending, won) := c.stage;
       w' == if !connected then Set(w, t, c.(stage := Filling(from, target, pending - {id}, won)))
             else if |w.sessions| >= target then Set(w, t, c.(stage := Filling(from, target, {}, won))).(aborted := true)
             else
               Set(w, t, c.(stage := Filling(from, target, pending - {id}, won + 1), created := c.created + 1))
               .(sessions := w.sessions + [id], pushed := w.pushed[id := t])
  }

  ghost predicate Finishes(w: World, t: nat, w': World) {
    && At(w, t) && w.callers[t].stage.Filling? && w.callers[t].stage.pending == {}
    && var c := w.callers[t];
       w' == Release(Set(w, t, if c.stage.won == 0 && w.sessions == [] then c.(stage := Done(Failed))
                               else Returned(w.max, c, c.stage.from, c.stage.won)), t)
  }

  ghost predicate Chooses(w: World, t: nat, free: set<nat>, found: Option<nat>, w': World) {
    && At(w, t) && w.callers[t].stage.Choosing?
    && (found.None? <==> forall x :: x in w.sessions ==> x !in free)
    && (found.Some? ==> found.value in w.sessions && found.value in free)
    && w' == Set(w, t, w.callers[t].(stage := if found.Some? then Connecting(found.value) else Growing(NoneFree)))
  }

  ghost predicate Grows(w: World, t: nat, stopping: bool, w': World) {
    && At(w, t) && w.callers[t].stage.Growing?
    && var c := w.callers[t];
       w' == if stopping || w.max == 0 then Set(w, t, Returned(w.max, c, c.stage.from, 0))
             else Set(w, t, c.(stage := Measuring(c.stage.from))).(sessions := Keep(w.sessions, w.closed))
  }

  ghost predicate Measures(w: World, t: nat, w': World) {
    && At(w, t) && w.callers[t].stage.Measuring?
    && var c, n := w.callers[t], |w.sessions|;
       w' == if n >= w.max then Set(w, t, Returned(w.max, c, c.stage.from, 0))
             else Set(w, t, c.(stage := Entering(c.stage.from, Min(n + 1, w.max))))
  }

  ghost predicate FallsBack(w: World, t: nat, found: Option<nat>, w': World) {
    && At(w, t) && w.callers[t].stage.FallingBack?
    && (found.None? <==> forall x :: x in w.sessions ==> x in w.closed)
    && (found.Some? ==> found.value in w.sessions && found.value !in w.closed)
    && w' == Set(w, t, w.callers[t].(stage := if found.Some? then Connecting(found.value) else Done(Failed)))
  }

  ghost predicate Connects(w: World, t: nat, id: nat, outcome: Outcome, w': World) {
    && At(w, t) && w.callers[t].stage == Connecting(id)
    && var c := w.callers[t];
       w' == Set(w, t, c.(stage := match outcome
                                   case Accepted => Done(Opened)
                                   case Full => Growing(AtCapacity)
                                   case Refused => Done(TargetRefused)
                                   case Broken => Removing(id)))
  }

  ghost predicate Removes(w: World, t: nat, w': World) {
    && At(w, t) && w.callers[t].stage.Removing?
    && var c := w.callers[t];
       var id := c.stage.id;
       w' == Set(w, t, Attempted(w.max, c)).(
               sessions := Keep(w.sessions, {id}), closed := if id in w.sessions then w.closed + {id} else w.closed)
  }

  ghost predicate Cancels(w: World, t: nat, w': World) {
    At(w, t) && w' == Release(w, t).(callers := w.callers - {t})
  }

  ghost predicate Steps(w: World, e: Event, w': World) {
    match e
    case Begin(t) => Begins(w, t, w')
    case PruneFirst(t) => PrunesFirst(w, t, w')
    case Enter(t, stopping) => Enters(w, t, stopping, w')
    case CheckSize(t) => ChecksSize(w, t, w')
    case LockRefill(t) => LocksRefill(w, t, w')
    case Count(t) => Counts(w, t, w')
    case Join(t, id, connected) => Joins(w, t, id, connected, w')
    case Finish(t) => Finishes(w, t, w')
    case Choose(t, free, found) => Chooses(w, t, free, found, w')
    case Grow(t, stopping) => Grows(w, t, stopping, w')
    case Measure(t) => Measures(w, t, w')
    case FallBack(t, found) => FallsBack(w, t, found, w')
    case Connect(t, id, outcome) => Connects(w, t, id, outcome, w')
    case Remove(t) => Removes(w, t, w')
    case Cancel(t) => Cancels(w, t, w')
    case Dies(id) => w' == w.(closed := w.closed + {id})
  }

  ghost predicate Reaches(max: nat, events: Trace<Event>, w: World) {
    match events
    case Start => w == World(max, [], {}, None, map[], 0, map[], {}, false)
    case Then(front, last) => exists v :: Reaches(max, front, v) && Steps(v, last, w)
  }

  // ----- The invariant -----

  predicate Holding(s: Stage) {
    s.Counting? || s.Filling?
  }

  predicate TargetOk(s: Stage, max: nat) {
    s.Entering? || s.Sizing? || s.Waiting? || s.Counting? || s.Filling? ==> s.target <= max
  }

  /** New sessions of a refill that the trip it belongs to has not been charged for. */
  function Uncharged(s: Stage): nat {
    if s.Filling? && !s.from.AtStart? then s.won else 0
  }

  /** Every trip but the running one was paid for by an attempt or a new session. */
  predicate Accounted(max: nat, c: Call) {
    && Uncharged(c.stage) <= c.created
    && if c.stage == Done(Exhausted) then c.attempts == Most(max) && c.iterations <= c.attempts + c.created
       else c.attempts < Most(max) && c.iterations + Uncharged(c.stage) <= c.attempts + c.created + 1
  }

  /** The sessions that a caller put into the pool. */
  function By(pushed: map<nat, nat>, t: nat): set<nat> {
    set id | id in pushed && pushed[id] == t
  }

  /** A refill never has more sessions under way than its target leaves room for. */
  ghost predicate RoomOk(w: World, s: Stage) {
    s.Filling? ==>
      && |w.sessions| + |s.pending| <= s.target
      && forall id :: id in s.pending ==> id < w.nextId && id !in w.pushed
  }

  ghost predicate CallerOk(w: World, t: nat) {
    && t in w.callers && t in w.begun
    && var c := w.callers[t];
       && TargetOk(c.stage, w.max) && Accounted(w.max, c) && (Holding(c.stage) ==> w.refill == Some(t))
       && RoomOk(w, c.stage) && c.created == |By(w.pushed, t)|
  }

  ghost predicate PoolOk(w: World) {
    && |w.sessions| <= w.max && NoDuplicates(w.sessions) && !w.aborted
    && (forall id :: id in w.sessions ==> id in w.pushed)
    && (forall id :: id in w.pushed ==> id < w.nextId && w.pushed[id] in w.begun && (id in w.sessions || id in w.closed))
    && (w.refill.Some? ==> w.refill.value in w.callers && Holding(w.callers[w.refill.value].stage))
  }

  ghost predicate Inv(w: World) {
    PoolOk(w) && forall t :: t in w.callers ==> CallerOk(w, t)
  }

  // ----- Accounting, call by call -----

  lemma ReturnedIsAccounted(max: nat, c: Call, from: Where, won: nat)
    requires Accounted(max, c) && !c.stage.Done? && (won > 0 && !from.AtStart? ==> Uncharged(c.stage) > 0)
    ensures Accounted(max, Returned(max, c, from, won)) && !Holding(Returned(max, c, from, won).stage)
    ensures TargetOk(Returned(max, c, from, won).stage, max) && Returned(max, c, from, won).created == c.created
  {
  }

  lemma AttemptedIsAccounted(max: nat, c: Call)
    requires Accounted(max, c) && !c.stage.Done?
    ensures Accounted(max, Attempted(max, c)) && !Holding(Attempted(max, c).stage)
    ensures Attempted(max, c).created == c.created
  {
  }

  lemma {:induction false} IdsCount(from: nat, count: nat)
    ensures |Ids(from, count)| == count
    ensures forall i :: i in Ids(from, count) ==> from <= i < from + count
  {
    if count > 0 {
      IdsCount(from, count - 1);
    }
  }

  lemma ByGrows(pushed: map<nat, nat>, id: nat, u: nat, t: nat)
    requires id !in pushed
    ensures |By(pushed[id := u], t)| == |By(pushed, t)| + if t == u then 1 else 0
  {
    var after := By(pushed[id := u], t);
    if t == u {
      assert after == By(pushed, t) + {id};
    } else {
      assert after == By(pushed, t);
    }
  }

  // ----- What a step does to the pool -----

  /** Sessions only leave, and only closed ones. */
  ghost predicate Shrinks(w: World, w': World) {
    && w'.max == w.max && w'.pushed == w.pushed && w'.aborted == w.aborted
    && w.nextId <= w'.nextId && w.begun <= w'.begun && w.closed <= w'.closed
    && |w'.sessions| <= |w.sessions| && NoDuplicates(w'.sessions)
    && (forall id :: id in w'.sessions ==> id in w.sessions)
    && (forall id :: id in w.sessions && id !in w'.sessions ==> id in w'.closed)
  }

  lemma PruneShrinks(w: World, e: Event, w': World)
    requires e.PruneFirst? || e.Enter? || e.Grow?
    requires NoDuplicates(w.sessions) && Steps(w, e, w')
    ensures Shrinks(w, w')
  {
    KeptOpen(w);
  }

  lemma RemoveShrinks(w: World, t: nat, w': World)
    requires NoDuplicates(w.sessions) && Removes(w, t, w')
    ensures Shrinks(w, w')
  {
    KeepMembers(w.sessions, {w.callers[t].stage.id});
    KeepDistinct(w.sessions, {w.callers[t].stage.id});
  }

  lemma StepShrinks(w: World, e: Event, w': World)
    requires NoDuplicates(w.sessions) && Steps(w, e, w') && !e.Join?
    ensures Shrinks(w, w')
  {
    if e.Remove? {
      RemoveShrinks(w, e.caller, w');
    } else if e.PruneFirst? || e.Enter? || e.Grow? {
      PruneShrinks(w, e, w');
    } else {
      assert w'.sessions == w.sessions && w.closed <= w'.closed;
    }
  }

  lemma KeptOpen(w: World)
    requires NoDuplicates(w.sessions)
    ensures |Keep(w.sessions, w.closed)| <= |w.sessions| && NoDuplicates(Keep(w.sessions, w.closed))
    ensures forall id :: id in Keep(w.sessions, w.closed) <==> id in w.sessions && id !in w.closed
  {
    KeepMembers(w.sessions, w.closed);
    KeepDistinct(w.sessions, w.closed);
  }

  ghost predicate HolderOk(w: World) {
    w.refill.Some? ==> w.refill.value in w.callers && Holding(w.callers[w.refill.value].stage)
  }

  lemma ShrinkKeepsPool(w: World, w': World)
    requires PoolOk(w) && Shrinks(w, w') && HolderOk(w')
    ensures PoolOk(w')
  {
  }

  /** The refill that joins holds the lock and left room for what it has under way, so the pool is never full then. */
  lemma JoinKeepsPool(w: World, t: nat, id: nat, connected: bool, w': World)
    requires PoolOk(w) && CallerOk(w, t) && Joins(w, t, id, connected, w')
    ensures PoolOk(w') && w'.refill == w.refill && !w'.aborted
    ensures connected ==> w'.sessions == w.sessions + [id] && id !in w.pushed
  {
    var s := w.callers[t].stage;
    assert |s.pending| > 0;
  }

  // ----- Callers -----

  /** What a step leaves alone for a caller it is not about. */
  ghost predicate Undisturbed(w: World, w': World, t: nat) {
    && t in w.callers && t in w'.callers && w'.callers[t] == w.callers[t]
    && w'.max == w.max && w.begun <= w'.begun && w.nextId <= w'.nextId && |By(w'.pushed, t)| == |By(w.pushed, t)|
    && (w.refill == Some(t) ==> w'.refill == Some(t) && |w'.sessions| <= |w.sessions| && w'.pushed == w.pushed)
  }

  lemma UndisturbedIsOk(w: World, w': World, t: nat)
    requires CallerOk(w, t) && Undisturbed(w, w', t)
    ensures CallerOk(w', t)
  {
  }

  predicate About(e: Event, t: nat) {
    !e.Dies? && e.caller == t
  }

  lemma OthersUndisturbed(w: World, e: Event, w': World, t: nat)
    requires NoDuplicates(w.sessions) && Steps(w, e, w') && !e.Join? && !About(e, t) && t in w.callers
    requires w.refill == Some(t) ==> Holding(w.callers[t].stage)
    requires !e.Dies? && e.caller in w.callers && Holding(w.callers[e.caller].stage) ==> w.refill == Some(e.caller)
    ensures Undisturbed(w, w', t)
  {
    StepShrinks(w, e, w');
  }

  lemma JoinDisturbsNone(w: World, u: nat, id: nat, connected: bool, w': World, t: nat)
    requires PoolOk(w) && CallerOk(w, u) && Joins(w, u, id, connected, w') && t != u && t in w.callers
    ensures Undisturbed(w, w', t)
  {
    JoinKeepsPool(w, u, id, connected, w');
    if connected {
      ByGrows(w.pushed, id, u, t);
    }
  }

  /** The new state of a call: paid for, with a possible target, and with the sessions it had. */
  ghost predicate StaysAccounted(w: World, w': World, t: nat) {
    && t in w.callers && t in w'.callers && w'.max == w.max
    && Accounted(w.max, w'.callers[t]) && TargetOk(w'.callers[t].stage, w.max)
    && w'.callers[t].created == w.callers[t].created
  }

  lemma PlainKeepsAccount(w: World, e: Event, w': World)
    requires e.PruneFirst? || e.LockRefill? || e.Choose? || e.FallBack? || e.Connect?
    requires Steps(w, e, w') && CallerOk(w, e.caller)
    ensures StaysAccounted(w, w', e.caller)
  {
  }

  lemma RefillKeepsAccount(w: World, e: Event, w': World)
    requires e.Enter? || e.CheckSize? || e.Count? || e.Grow? || e.Measure?
    requires Steps(w, e, w') && CallerOk(w, e.caller)
    ensures StaysAccounted(w, w', e.caller)
  {
    var c := w.callers[e.caller];
    ReturnedIsAccounted(w.max, c, c.stage.from, 0);
  }

  lemma EndKeepsAccount(w: World, e: Event, w': World)
    requires e.Finish? || e.Remove?
    requires Steps(w, e, w') && CallerOk(w, e.caller)
    ensures StaysAccounted(w, w', e.caller)
  {
    var c := w.callers[e.caller];
    if e.Finish? {
      ReturnedIsAccounted(w.max, c, c.stage.from, c.stage.won);
    } else {
      AttemptedIsAccounted(w.max, c);
    }
  }

  lemma ActorKeepsAccount(w: World, e: Event, w': World)
    requires Steps(w, e, w') && !e.Join? && !e.Dies? && !e.Begin? && e.caller in w'.callers && CallerOk(w, e.caller)
    ensures StaysAccounted(w, w', e.caller)
  {
    if e.Finish? || e.Remove? {
      EndKeepsAccount(w, e, w');
    } else if e.Enter? || e.CheckSize? || e.Count? || e.Grow? || e.Measure? {
      RefillKeepsAccount(w, e, w');
    } else if !e.Cancel? {
      PlainKeepsAccount(w, e, w');
    }
  }

  lemma CountMakesRoom(w: World, t: nat, w': World)
    requires PoolOk(w) && CallerOk(w, t) && Counts(w, t, w')
    ensures RoomOk(w', w'.callers[t].stage)
  {
    if |w.sessions| < w.callers[t].stage.target {
      IdsCount(w.nextId, w.callers[t].stage.target - |w.sessions|);
    } else {
      ReturnedIsAccounted(w.max, w.callers[t], w.callers[t].stage.from, 0);
    }
  }

  /** Only a caller that has just taken the lock, or kept it, is left holding. */
  lemma ActorKeepsLock(w: World, e: Event, w': World)
    requires Steps(w, e, w') && !e.Join? && !e.Dies? && !e.Begin? && e.caller in w'.callers && CallerOk(w, e.caller)
    requires HolderOk(w) && (w.refill == Some(e.caller) ==> Holding(w.callers[e.caller].stage))
    ensures Holding(w'.callers[e.caller].stage) <==> w'.refill == Some(e.caller)
    ensures w'.callers[e.caller].stage.Filling? ==> e.Count?
  {
    var c := w.callers[e.caller];
    match e
    case Remove(_) => AttemptedIsAccounted(w.max, c);
    case Enter(_, _) => ReturnedIsAccounted(w.max, c, c.stage.from, 0);
    case CheckSize(_) => ReturnedIsAccounted(w.max, c, c.stage.from, 0);
    case Count(_) => ReturnedIsAccounted(w.max, c, c.stage.from, 0);
    case Grow(_, _) => ReturnedIsAccounted(w.max, c, c.stage.from, 0);
    case Measure(_) => ReturnedIsAccounted(w.max, c, c.stage.from, 0);
    case Finish(_) => ReturnedIsAccounted(w.max, c, c.stage.from, c.stage.won);
    case _ =>
  }

  lemma ActorIsOk(w: World, e: Event, w': World)
    requires Inv(w) && Steps(w, e, w') && !e.Join? && !e.Dies? && !e.Begin? && e.caller in w'.callers
    ensures CallerOk(w', e.caller)
  {
    assert CallerOk(w, e.caller);
    StepShrinks(w, e, w');
    ActorKeepsAccount(w, e, w');
    ActorKeepsLock(w, e, w');
    if e.Count? {
      CountMakesRoom(w, e.caller, w');
    }
  }

  lemma BeginnerIsOk(w: World, t: nat, w': World)
    requires PoolOk(w) && Begins(w, t, w')
    ensures CallerOk(w', t)
  {
    assert By(w.pushed, t) == {};
  }

  lemma JoinerIsOk(w: World, t: nat, id: nat, connected: bool, w': World)
    requires PoolOk(w) && CallerOk(w, t) && Joins(w, t, id, connected, w')
    ensures CallerOk(w', t)
  {
    JoinKeepsPool(w, t, id, connected, w');
    if connected {
      ByGrows(w.pushed, id, t, t);
    }
  }

  lemma StepKeepsHolder(w: World, e: Event, w': World)
    requires Inv(w) && Steps(w, e, w') && !e.Join?
    ensures HolderOk(w')
  {
    if !e.Dies? && !e.Begin? {
      assert CallerOk(w, e.caller);
      if e.caller in w'.callers {
        ActorKeepsLock(w, e, w');
      }
    }
  }

  lemma StepKeepsActor(w: World, e: Event, w': World)
    requires Inv(w) && !e.Dies? && Steps(w, e, w') && e.caller in w'.callers
    ensures CallerOk(w', e.caller)
  {
    match e
    case Begin(t) => BeginnerIsOk(w, t, w');
    case Join(t, id, connected) => JoinerIsOk(w, t, id, connected, w');
    case _ => ActorIsOk(w, e, w');
  }

  lemma StepKeepsOther(w: World, e: Event, w': World, t: nat)
    requires Inv(w) && Steps(w, e, w') && t in w.callers && !About(e, t)
    ensures CallerOk(w', t)
  {
    assert CallerOk(w, t);
    if !e.Dies? && e.caller in w.callers {
      assert CallerOk(w, e.caller);
    }
    if e.Join? {
      JoinDisturbsNone(w, e.caller, e.id, e.connected, w', t);
    } else {
      OthersUndisturbed(w, e, w', t);
    }
    UndisturbedIsOk(w, w', t);
  }

  lemma StepKeepsCaller(w: World, e: Event, w': World, t: nat)
    requires Inv(w) && Steps(w, e, w') && t in w'.callers
    ensures CallerOk(w', t)
  {
    if About(e, t) {
      StepKeepsActor(w, e, w');
    } else {
      StepKeepsOther(w, e, w', t);
    }
  }

  lemma StepKeepsPool(w: World, e: Event, w': World)
    requires Inv(w) && Steps(w, e, w')
    ensures PoolOk(w') && w'.max == w.max
  {
    if e.Join? {
      assert CallerOk(w, e.caller);
      JoinKeepsPool(w, e.caller, e.id, e.connected, w');
    } else {
      StepShrinks(w, e, w');
      StepKeepsHolder(w, e, w');
      ShrinkKeepsPool(w, w');
    }
  }

  lemma {:induction false} RunKeepsInv(max: nat, events: Trace<Event>, w: World)
    requires Reaches(max, events, w)
    ensures Inv(w) && w.max == max
  {
    match events
    case Start =>
    case Then(front, last) =>
      var v :| Reaches(max, front, v) && Steps(v, last, w);
      RunKeepsInv(max, front, v);
      StepKeepsPool(v, last, w);
      forall t | t in w.callers ensures CallerOk(w, t) {
        StepKeepsCaller(v, last, w, t);
      }
  }

  /** However calls interleave, are cancelled, or see sessions die: the pool stays within its size, no session is in it
      twice, a refill never finds the pool already full, and every session that entered is still there unless it is
      closed. */
  lemma PoolStaysBounded(max: nat, events: Trace<Event>, w: World)
    requires Reaches(max, events, w)
    ensures |w.sessions| <= max && NoDuplicates(w.sessions)
    ensures !w.aborted
    ensures forall id :: id in w.pushed && id !in w.closed ==> id in w.sessions
  {
    RunKeepsInv(max, events, w);
  }

  /** In every run and for every call in it: its trips round the loop are at most the sessions it has itself put into the
      pool plus max(3, maximum), and it gives up for want of capacity or of working sessions after exactly that many
      attempts. */
  lemma TripsAreBounded(max: nat, events: Trace<Event>, w: World, t: nat)
    requires Reaches(max, events, w) && t in w.callers
    ensures var c := w.callers[t];
            && c.iterations <= |By(w.pushed, t)| + Most(max)
            && c.attempts <= Most(max) && (c.attempts == Most(max) <==> c.stage == Done(Exhausted))
  {
    RunKeepsInv(max, events, w);
    assert CallerOk(w, t);
  }

  // ----- What the outcomes mean, told from the events -----

  predicate Occurs(events: Trace<Event>, e: Event) {
    events.Then? && (events.last == e || Occurs(events.before, e))
  }

  /** How the caller's latest attempt to open its stream on a session ended. */
  function LastConnect(events: Trace<Event>, t: nat): Option<Outcome> {
    match events
    case Start => None
    case Then(front, last) => if last.Connect? && last.caller == t then Some(last.outcome) else LastConnect(front, t)
  }

  /** How many of its attempts found a session full or broken. */
  function Failures(events: Trace<Event>, t: nat): nat {
    match events
    case Start => 0
    case Then(front, last) =>
      Failures(front, t) + if last.Connect? && last.caller == t && (last.outcome.Full? || last.outcome.Broken?) then 1 else 0
  }

  ghost predicate FoundBroken(events: Trace<Event>, id: nat) {
    exists t :: Occurs(events, Connect(t, id, Broken))
  }

  predicate AfterFull(s: Stage) {
    (s.Entering? || s.Sizing? || s.Waiting? || s.Counting? || s.Filling? || s.Growing? || s.Measuring?) && s.from.AtCapacity?
  }

  /** A call's stage against its own attempts: `last` is how the latest ended, `failures` how many failed. */
  ghost predicate Told(last: Option<Outcome>, failures: nat, c: Call) {
    && (c.stage == Done(Opened) <==> last == Some(Accepted))
    && (c.stage == Done(TargetRefused) <==> last == Some(Refused))
    && (c.stage.Removing? ==> last == Some(Broken)) && (AfterFull(c.stage) ==> last == Some(Full))
    && (c.stage == Done(Exhausted) ==> last == Some(Full) || last == Some(Broken))
    && c.attempts + (if c.stage.Removing? || AfterFull(c.stage) then 1 else 0) <= failures
  }

  lemma ReturnedIsTold(max: nat, last: Option<Outcome>, failures: nat, c: Call, won: nat)
    requires Told(last, failures, c) && (c.stage.Entering? || c.stage.Sizing? || c.stage.Counting? || c.stage.Filling? || c.stage.Growing? || c.stage.Measuring?)
    ensures Told(last, failures, Returned(max, c, c.stage.from, won))
  {
  }

  /** Steps other than connecting keep a call's stage in line with its last attempt. */
  lemma ActorStaysTold(w: World, e: Event, w': World, last: Option<Outcome>, failures: nat)
    requires Steps(w, e, w') && !e.Dies? && !e.Begin? && !e.Connect? && e.caller in w.callers && e.caller in w'.callers
    requires Told(last, failures, w.callers[e.caller])
    ensures Told(last, failures, w'.callers[e.caller])
  {
    var c := w.callers[e.caller];
    if e.Enter? || e.CheckSize? || e.Count? || e.Grow? || e.Measure? {
      ReturnedIsTold(w.max, last, failures, c, 0);
    } else if e.Finish? {
      ReturnedIsTold(w.max, last, failures, c, c.stage.won);
    }
  }

  ghost predicate CallTold(events: Trace<Event>, w: World, t: nat) {
    if t in w.callers then Told(LastConnect(events, t), Failures(events, t), w.callers[t])
    else t !in w.begun ==> LastConnect(events, t) == None
  }

  lemma StepKeepsTold(v: World, front: Trace<Event>, e: Event, w: World, t: nat)
    requires Steps(v, e, w) && CallTold(front, v, t) && (t in v.callers ==> t in v.begun)
    ensures CallTold(Then(front, e), w, t)
  {
    if About(e, t) && !e.Begin? && !e.Connect? && t in w.callers {
      ActorStaysTold(v, e, w, LastConnect(front, t), Failures(front, t));
    }
  }

  /** Who put a session into the pool. */
  ghost predicate PushTold(events: Trace<Event>, w: World, id: nat) {
    forall t :: (id in w.pushed && w.pushed[id] == t) <==> Occurs(events, Join(t, id, true))
  }

  /** Why a session is closed, or about to be removed. */
  ghost predicate CloseTold(events: Trace<Event>, w: World, id: nat) {
    && (id in w.closed ==> Occurs(events, Dies(id)) || FoundBroken(events, id))
    && (forall t :: t in w.callers && w.callers[t].stage == Removing(id) ==> FoundBroken(events, id))
  }

  lemma BrokenStays(front: Trace<Event>, e: Event, id: nat)
    requires FoundBroken(front, id)
    ensures FoundBroken(Then(front, e), id)
  {
    var t :| Occurs(front, Connect(t, id, Broken));
    assert Occurs(Then(front, e), Connect(t, id, Broken));
  }

  lemma JoinIsTold(v: World, front: Trace<Event>, e: Event, w: World, id: nat)
    requires Inv(v) && e.Join? && Steps(v, e, w) && PushTold(front, v, id)
    ensures PushTold(Then(front, e), w, id)
  {
    assert CallerOk(v, e.caller);
    JoinKeepsPool(v, e.caller, e.id, e.connected, w);
  }

  lemma StepKeepsPushTold(v: World, front: Trace<Event>, e: Event, w: World, id: nat)
    requires Inv(v) && Steps(v, e, w) && PushTold(front, v, id)
    ensures PushTold(Then(front, e), w, id)
  {
    if e.Join? {
      JoinIsTold(v, front, e, w, id);
    } else {
      StepShrinks(v, e, w);
      forall t ensures Occurs(Then(front, e), Join(t, id, true)) <==> Occurs(front, Join(t, id, true)) {
      }
    }
  }

  /** A stage of removing a session comes only from finding it broken. */
  lemma RemovingComesFrom(v: World, e: Event, w: World, t: nat)
    requires Steps(v, e, w) && t in w.callers && w.callers[t].stage.Removing?
    ensures (t in v.callers && v.callers[t] == w.callers[t]) || e == Connect(t, w.callers[t].stage.id, Broken)
  {
  }

  lemma StepKeepsCloseTold(v: World, front: Trace<Event>, e: Event, w: World, id: nat)
    requires Steps(v, e, w) && CloseTold(front, v, id)
    ensures CloseTold(Then(front, e), w, id)
  {
    if FoundBroken(front, id) {
      BrokenStays(front, e, id);
    }
    forall t | t in w.callers && w.callers[t].stage == Removing(id) ensures FoundBroken(Then(front, e), id) {
      RemovingComesFrom(v, e, w, t);
      if e == Connect(t, id, Broken) {
        assert Occurs(Then(front, e), e);
      }
    }
  }

  lemma {:induction false} RunIsTold(max: nat, events: Trace<Event>, w: World)
    requires Reaches(max, events, w)
    ensures forall t :: CallTold(events, w, t)
    ensures forall id :: PushTold(events, w, id) && CloseTold(events, w, id)
  {
    match events
    case Start =>
    case Then(front, last) =>
      var v :| Reaches(max, front, v) && Steps(v, last, w);
      RunIsTold(max, front, v);
      RunKeepsInv(max, front, v);
      forall t ensures CallTold(events, w, t) {
        assert t in v.callers ==> CallerOk(v, t);
        StepKeepsTold(v, front, last, w, t);
      }
      forall id ensures PushTold(events, w, id) && CloseTold(events, w, id) {
        assert PushTold(front, v, id) && CloseTold(front, v, id);
        StepKeepsPushTold(v, front, last, w, id);
        StepKeepsCloseTold(v, front, last, w, id);
      }
  }

  /** What a call reports is what its last attempt met: it has its stream if and only if that was accepted, and reports
      the target's refusal if and only if that was refused. It gives up only after a full or broken session, and then
      max(3, maximum) of its attempts or more have failed. */
  lemma OutcomesMean(max: nat, events: Trace<Event>, w: World, t: nat)
    requires Reaches(max, events, w) && t in w.callers
    ensures w.callers[t].stage == Done(Opened) <==> LastConnect(events, t) == Some(Accepted)
    ensures w.callers[t].stage == Done(TargetRefused) <==> LastConnect(events, t) == Some(Refused)
    ensures w.callers[t].stage == Done(Exhausted) ==>
              && (LastConnect(events, t) == Some(Full) || LastConnect(events, t) == Some(Broken))
              && Failures(events, t) >= Most(max)
  {
    RunIsTold(max, events, w);
    assert CallTold(events, w, t);
    TripsAreBounded(max, events, w, t);
  }

  /** The pool holds what was connected, and loses nothing that works: the sessions that ever entered are exactly those
      whose connection succeeded, and one that did not die is closed, or gone from the pool, only if a stream could not
      be opened on it because it was broken. */
  lemma WorkingSessionsStay(max: nat, events: Trace<Event>, w: World, id: nat)
    requires Reaches(max, events, w)
    ensures id in w.pushed <==> exists t :: Occurs(events, Join(t, id, true))
    ensures id in w.closed || (id in w.pushed && id !in w.sessions) ==> Occurs(events, Dies(id)) || FoundBroken(events, id)
  {
    RunIsTold(max, events, w);
    RunKeepsInv(max, events, w);
    assert PushTold(events, w, id) && CloseTold(events, w, id);
    if id in w.pushed {
      assert Occurs(events, Join(w.pushed[id], id, true));
    }
  }

  /** What the caller's latest search of the pool found. */
  function LastPick(events: Trace<Event>, t: nat): Option<Option<nat>> {
    match events
    case Start => None
    case Then(front, last) =>
      if (last.Choose? || last.FallBack?) && last.caller == t then Some(last.found) else LastPick(front, t)
  }

  predicate AfterNone(s: Stage) {
    || s.FallingBack?
    || ((s.Entering? || s.Sizing? || s.Waiting? || s.Counting? || s.Filling? || s.Growing? || s.Measuring?) && s.from.NoneFree?)
  }

  /** A caller connects to what it found, and enlarges the pool on its way there only if it found nothing. */
  ghost predicate Picked(pick: Option<Option<nat>>, s: Stage) {
    && (s.Connecting? || s.Removing? ==> pick == Some(Some(s.id)))
    && (AfterNone(s) ==> pick == Some(None))
  }

  lemma ReturnedStaysPicked(max: nat, pick: Option<Option<nat>>, c: Call, won: nat)
    requires Picked(pick, c.stage) && (c.stage.Entering? || c.stage.Sizing? || c.stage.Counting? || c.stage.Filling? || c.stage.Growing? || c.stage.Measuring?)
    ensures Picked(pick, Returned(max, c, c.stage.from, won).stage)
  {
  }

  lemma RefillStaysPicked(w: World, e: Event, w': World, pick: Option<Option<nat>>)
    requires Steps(w, e, w') && (e.Enter? || e.CheckSize? || e.Count? || e.Grow? || e.Measure? || e.Finish?)
    requires e.caller in w.callers && e.caller in w'.callers && Picked(pick, w.callers[e.caller].stage)
    ensures Picked(pick, w'.callers[e.caller].stage)
  {
    var c := w.callers[e.caller];
    ReturnedStaysPicked(w.max, pick, c, if e.Finish? then c.stage.won else 0);
  }

  lemma ActorStaysPicked(w: World, e: Event, w': World, pick: Option<Option<nat>>)
    requires Steps(w, e, w') && !e.Dies? && !e.Begin? && !e.Choose? && !e.FallBack? && e.caller in w.callers && e.caller in w'.callers
    requires Picked(pick, w.callers[e.caller].stage)
    ensures Picked(pick, w'.callers[e.caller].stage)
  {
    if e.Enter? || e.CheckSize? || e.Count? || e.Grow? || e.Measure? || e.Finish? {
      RefillStaysPicked(w, e, w', pick);
    }
  }

  lemma StepKeepsPicked(v: World, front: Trace<Event>, e: Event, w: World, t: nat)
    requires Steps(v, e, w) && t in w.callers && (t in v.callers ==> Picked(LastPick(front, t), v.callers[t].stage))
    ensures Picked(LastPick(Then(front, e), t), w.callers[t].stage)
  {
    if About(e, t) && !e.Begin? && !e.Choose? && !e.FallBack? {
      ActorStaysPicked(v, e, w, LastPick(front, t));
    }
  }

  lemma {:induction false} RunIsPicked(max: nat, events: Trace<Event>, w: World, t: nat)
    requires Reaches(max, events, w) && t in w.callers
    ensures Picked(LastPick(events, t), w.callers[t].stage)
  {
    match events
    case Start =>
    case Then(front, last) =>
      var v :| Reaches(max, front, v) && Steps(v, last, w);
      if t in v.callers {
        RunIsPicked(max, front, v, t);
      }
      StepKeepsPicked(v, front, last, w, t);
  }

  /** In every run a caller opens its stream on the session its latest search found, and before a refill for want of room
      that search found none: a session with room is used before a new one is made. */
  lemma UsesWhatItFound(max: nat, events: Trace<Event>, w: World, t: nat, e: Event, w': World)
    requires Reaches(max, events, w) && t in w.callers && Steps(w, e, w') && About(e, t)
    ensures e.Connect? ==> LastPick(events, t) == Some(Some(e.id))
    ensures e.Join? ==> w.callers[t].stage.from.AtStart? || LastPick(events, t) == Some(None) || LastConnect(events, t) == Some(Full)
  {
    RunIsPicked(max, events, w, t);
    RunIsTold(max, events, w);
    assert CallTold(events, w, t);
  }

  lemma FailsWhenNoneOpen(w: World, t: nat, e: Event, w': World)
    requires t in w.callers && Steps(w, e, w') && About(e, t) && t in w'.callers
    requires w'.callers[t].stage == Done(Failed) && w.callers[t].stage != Done(Failed)
    ensures forall x :: x in w.sessions ==> x in w.closed
  {
  }

  lemma RemovesOne(w: World, t: nat, w': World)
    requires Removes(w, t, w')
    ensures forall x :: x in w'.sessions <==> x in w.sessions && x != w.callers[t].stage.id
  {
    KeepMembers(w.sessions, {w.callers[t].stage.id});
  }

  /** In every run, what a call does to the pool: it removes exactly the session it found broken, and fails without having
      been turned away only when no session in the pool is open. */
  lemma RemovesTheBroken(max: nat, events: Trace<Event>, w: World, t: nat, e: Event, w': World)
    requires Reaches(max, events, w) && t in w.callers && Steps(w, e, w') && About(e, t)
    ensures e.Remove? ==>
              && LastConnect(events, t) == Some(Broken) && LastPick(events, t).Some? && LastPick(events, t).value.Some?
              && forall x :: x in w'.sessions <==> x in w.sessions && x != LastPick(events, t).value.value
    ensures t in w'.callers && w'.callers[t].stage == Done(Failed) && w.callers[t].stage != Done(Failed) ==>
              forall x :: x in w.sessions ==> x in w.closed
  {
    if e.Remove? {
      assert CallTold(events, w, t) by { RunIsTold(max, events, w); }
      RunIsPicked(max, events, w, t);
      RemovesOne(w, t, w');
    } else if t in w'.callers && w'.callers[t].stage == Done(Failed) && w.callers[t].stage != Done(Failed) {
      FailsWhenNoneOpen(w, t, e, w');
    }
  }

  /** Every trip begins by pruning, and so does every refill that has something to do: exactly the closed sessions go. */
  lemma PrunesTheClosed(w: World, e: Event, w': World)
    requires Steps(w, e, w')
    requires e.PruneFirst? || (e.Enter? && !e.stopping && w.callers[e.caller].stage.target > 0) || (e.Grow? && !e.stopping && w.max > 0)
    ensures forall x :: x in w'.sessions <==> x in w.sessions && x !in w.closed
  {
    KeepMembers(w.sessions, w.closed);
  }
}

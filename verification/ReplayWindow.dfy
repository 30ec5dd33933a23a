/** The sliding replay window of the encrypted UDP transport: 4096 remembered sequence numbers kept as
    64 words of 64 bits, shifted towards "older" whenever a larger sequence number is committed. */
module ReplayProtection {
  import opened Basics
  import opened Bits

  const WORD_BITS := 64
  const WORD_COUNT := 64
  const WINDOW := 4096

  /** What the window decides, said about the whole history: `seq` was never accepted before, and no
      accepted number is a full window ahead of it. */
  ghost predicate Fresh(accepted: set<int>, sequence: int) {
    && sequence !in accepted
    && forall a :: a in accepted ==> a - sequence < WINDOW
  }

  /** A natural that fits in one 64-bit word. */
  ghost predicate Word(w: nat) {
    forall b: nat :: b >= WORD_BITS ==> !Bit(w, b)
  }

  predicate WindowBit(words: seq<nat>, distance: nat)
    requires |words| == WORD_COUNT && distance < WINDOW
  {
    Bit(words[distance / WORD_BITS], distance % WORD_BITS)
  }

  /** Bit `b` of word `j` after shifting the first `done` source words by `ws` words and `bs` bits. */
  ghost predicate ShiftedBit(words: seq<nat>, done: nat, ws: nat, bs: nat, j: nat, b: nat)
    requires |words| == WORD_COUNT && done <= WORD_COUNT && j < WORD_COUNT && bs < WORD_BITS
  {
    || (0 <= j - ws < done && bs <= b < WORD_BITS && Bit(words[j - ws], b - bs))
    || (0 <= j - ws - 1 < done && b < bs && Bit(words[j - ws - 1], b + WORD_BITS - bs))
  }

  ghost predicate ShiftedBy(words: seq<nat>, done: nat, ws: nat, bs: nat, shifted: seq<nat>)
    requires |words| == WORD_COUNT == |shifted| && done <= WORD_COUNT && bs < WORD_BITS
  {
    forall j, b: nat :: 0 <= j < WORD_COUNT ==> (Bit(shifted[j], b) <==> ShiftedBit(words, done, ws, bs, j, b))
  }

  class ReplayWindow {
    var highest: Option<u64>
    var seen: array<nat>
    ghost var accepted: set<int>

    /** The 64 words are exactly the accepted numbers of the last 4096, indexed by their distance
        from the highest one. */
    ghost predicate Valid()
      reads this, seen
    {
      && seen.Length == WORD_COUNT
      && (forall j :: 0 <= j < WORD_COUNT ==> Word(seen[j]))
      && (highest.None? ==> accepted == {})
      && (highest.Some? ==> highest.value in accepted)
      && (forall a :: a in accepted ==> highest.Some? && 0 <= a <= highest.value)
      && (forall d :: 0 <= d < WINDOW ==>
            (WindowBit(seen[..], d) <==> highest.Some? && highest.value - d in accepted))
    }

    constructor ()
      ensures Valid() && accepted == {} && fresh(seen)
    {
      highest := None;
      seen := new nat[WORD_COUNT](_ => 0);
      accepted := {};
      new;
      forall b: nat ensures !Bit(0, b) { BitOfZero(b); }
    }

    method MayAccept(sequence: u64) returns (ok: bool)
      requires Valid()
      ensures ok <==> Fresh(accepted, sequence)
    {
      if highest.None? || sequence > highest.value {
        return true;
      }
      var distance := highest.value - sequence;
      if distance >= WINDOW {
        return false;
      }
      ok := !Bit(seen[distance / WORD_BITS], distance % WORD_BITS);
      assert WindowBit(seen[..], distance) == !ok;
      assert highest.value - distance == sequence;
    }

    method SetBit(distance: nat)
      requires seen.Length == WORD_COUNT && distance < WINDOW
      requires forall j :: 0 <= j < WORD_COUNT ==> Word(seen[j])
      modifies seen
      ensures forall j :: 0 <= j < WORD_COUNT ==> Word(seen[j])
      ensures forall d :: 0 <= d < WINDOW ==>
                (WindowBit(seen[..], d) <==> d == distance || WindowBit(old(seen[..]), d))
    {
      var word, bit := distance / WORD_BITS, distance % WORD_BITS;
      var flag := Shl(1, bit);
      forall b: nat ensures Bit(flag, b) == (b == bit) {
        BitShl(1, bit, b);
        if b > bit { BitOfZero(b - bit - 1); }
      }
      forall b: nat ensures Bit(Or(seen[word], flag), b) == (Bit(seen[word], b) || b == bit) {
        BitOr(seen[word], flag, b);
      }
      seen[word] := Or(seen[word], flag);
      assert forall d :: 0 <= d < WINDOW && d / WORD_BITS == word && d % WORD_BITS == bit ==> d == distance;
    }

    /** Moves every remembered number `distance` places towards "older". */
    method ShiftOlder(distance: nat)
      requires seen.Length == WORD_COUNT && distance < WINDOW
      requires forall j :: 0 <= j < WORD_COUNT ==> Word(seen[j])
      modifies this`seen
      ensures fresh(seen) && seen.Length == WORD_COUNT
      ensures forall j :: 0 <= j < WORD_COUNT ==> Word(seen[j])
      ensures forall d :: 0 <= d < WINDOW ==>
                (WindowBit(seen[..], d) <==> d >= distance && WindowBit(old(seen[..]), d - distance))
    {
      var ws, bs := distance / WORD_BITS, distance % WORD_BITS;
      var shifted := new nat[WORD_COUNT](_ => 0);
      ghost var words := seen[..];
      var source := 0;
      forall b: nat ensures !Bit(0, b) { BitOfZero(b); }
      while source < WORD_COUNT
        invariant 0 <= source <= WORD_COUNT
        invariant seen == old(seen) && seen[..] == words
        invariant ShiftedBy(words, source, ws, bs, shifted[..])
      {
        var value, destination := seen[source], source + ws;
        if destination >= WORD_COUNT {
          break;
        }
        ghost var before := shifted[..];
        var low, high := Low(Shl(value, bs), WORD_BITS), Shr(value, WORD_BITS - bs);
        shifted[destination] := Or(shifted[destination], low);
        if bs != 0 && destination + 1 < WORD_COUNT {
          shifted[destination + 1] := Or(shifted[destination + 1], high);
        }
        ShiftedOneMore(words, source, ws, bs, before, shifted[..]);
        source := source + 1;
      }
      forall d | 0 <= d < WINDOW
        ensures WindowBit(shifted[..], d) <==> d >= distance && WindowBit(words, d - distance)
      {
        ShiftedWindow(words, shifted[..], source, distance, d);
      }
      seen := shifted;
    }

    /** Accepts exactly the fresh numbers and remembers them. */
    method Commit(sequence: u64) returns (ok: bool)
      requires Valid()
      modifies this, seen
      ensures Valid() && (seen == old(seen) || fresh(seen))
      ensures ok <==> Fresh(old(accepted), sequence)
      ensures accepted == if ok then old(accepted) + {sequence} else old(accepted)
    {
      ok := MayAccept(sequence);
      if !ok {
        return;
      }
      match highest {
        case None =>
          highest := Some(sequence);
          SetBit(0);
        case Some(top) =>
          if sequence > top {
            var advance := sequence - top;
            if advance >= WINDOW {
              forall b: nat ensures !Bit(0, b) { BitOfZero(b); }
              forall j | 0 <= j < seen.Length { seen[j] := 0; }
            } else {
              ShiftOlder(advance);
            }
            highest := Some(sequence);
            SetBit(0);
          } else {
            SetBit(top - sequence);
          }
      }
      accepted := accepted + {sequence};
    }
  }

  /** Spreading one more source word over its two destinations. */
  lemma ShiftedOneMore(words: seq<nat>, source: nat, ws: nat, bs: nat, before: seq<nat>, after: seq<nat>)
    requires |words| == |before| == |after| == WORD_COUNT && bs < WORD_BITS && source + ws < WORD_COUNT
    requires Word(words[source]) && ShiftedBy(words, source, ws, bs, before)
    requires var to, low, high := source + ws, Low(Shl(words[source], bs), WORD_BITS), Shr(words[source], WORD_BITS - bs);
             && after[to] == Or(before[to], low)
             && (to + 1 < WORD_COUNT ==> after[to + 1] == if bs != 0 then Or(before[to + 1], high) else before[to + 1])
             && forall j :: 0 <= j < WORD_COUNT && j != to && j != to + 1 ==> after[j] == before[j]
    ensures ShiftedBy(words, source + 1, ws, bs, after)
  {
    var to := source + ws;
    ShiftedWords(words[source], bs, before[to], if to + 1 < WORD_COUNT then before[to + 1] else 0);
    forall j, b: nat | 0 <= j < WORD_COUNT
      ensures Bit(after[j], b) <==> ShiftedBit(words, source + 1, ws, bs, j, b)
    {
      assert Bit(before[j], b) <==> ShiftedBit(words, source, ws, bs, j, b);
    }
  }

  /** Shifting words and bits is shifting the window. */
  lemma ShiftedWindow(words: seq<nat>, shifted: seq<nat>, done: nat, distance: nat, d: nat)
    requires |words| == |shifted| == WORD_COUNT && distance < WINDOW && d < WINDOW && done <= WORD_COUNT
    requires done + distance / WORD_BITS >= WORD_COUNT
    requires ShiftedBy(words, done, distance / WORD_BITS, distance % WORD_BITS, shifted)
    ensures WindowBit(shifted, d) <==> d >= distance && WindowBit(words, d - distance)
  {
    var ws, bs := distance / WORD_BITS, distance % WORD_BITS;
    var j, b := d / WORD_BITS, d % WORD_BITS;
    assert Bit(shifted[j], b) <==> ShiftedBit(words, done, ws, bs, j, b);
    if d >= distance {
      var e := d - distance;
      assert e == if b >= bs then WORD_BITS * (j - ws) + (b - bs) else WORD_BITS * (j - ws - 1) + (b + WORD_BITS - bs);
    }
  }

  /** The two words that one source word is spread over, bit by bit. */
  lemma ShiftedWords(value: nat, bs: nat, low: nat, high: nat)
    requires Word(value) && bs < WORD_BITS
    ensures forall b: nat ::
              Bit(Or(low, Low(Shl(value, bs), WORD_BITS)), b) <==>
              Bit(low, b) || (bs <= b < WORD_BITS && Bit(value, b - bs))
    ensures forall b: nat ::
              Bit(Or(high, Shr(value, WORD_BITS - bs)), b) <==>
              Bit(high, b) || (b < bs && Bit(value, b + WORD_BITS - bs))
  {
    forall b: nat
      ensures Bit(Or(low, Low(Shl(value, bs), WORD_BITS)), b) <==>
              Bit(low, b) || (bs <= b < WORD_BITS && Bit(value, b - bs))
    {
      BitOr(low, Low(Shl(value, bs), WORD_BITS), b);
      BitLow(Shl(value, bs), WORD_BITS, b);
      BitShl(value, bs, b);
    }
    forall b: nat
      ensures Bit(Or(high, Shr(value, WORD_BITS - bs)), b) <==>
              Bit(high, b) || (b < bs && Bit(value, b + WORD_BITS - bs))
    {
      BitOr(high, Shr(value, WORD_BITS - bs), b);
      BitShr(value, WORD_BITS - bs, b);
    }
  }

  /** The numbers accepted over a whole run, computed from the history alone. */
  ghost function AcceptedBy(run: seq<u64>): set<int> {
    if run == [] then {}
    else
      var before := AcceptedBy(run[..|run| - 1]);
      var last := run[|run| - 1];
      if Fresh(before, last) then before + {last} else before
  }

  /** Feeds a whole run of authenticated sequence numbers to a new window. */
  method CommitAll(run: seq<u64>) returns (verdicts: seq<bool>)
    ensures |verdicts| == |run|
    ensures forall i :: 0 <= i < |run| ==> (verdicts[i] <==> Fresh(AcceptedBy(run[..i]), run[i]))
  {
    var window := new ReplayWindow();
    verdicts := [];
    for i := 0 to |run|
      invariant window.Valid() && fresh(window) && fresh(window.seen)
      invariant window.accepted == AcceptedBy(run[..i])
      invariant |verdicts| == i
      invariant forall k :: 0 <= k < i ==> (verdicts[k] <==> Fresh(AcceptedBy(run[..k]), run[k]))
    {
      var ok := window.Commit(run[i]);
      assert run[..i + 1][..i] == run[..i];
      verdicts := verdicts + [ok];
    }
  }

  lemma {:induction false} AcceptedGrows(run: seq<u64>, i: nat, j: nat)
    requires i <= j <= |run|
    ensures AcceptedBy(run[..i]) <= AcceptedBy(run[..j])
    decreases j
  {
    if i < j {
      AcceptedGrows(run, i, j - 1);
      assert run[..j][..j - 1] == run[..j - 1];
    }
  }

  /** No sequence number is accepted twice in one run, however the two occurrences are spaced. */
  lemma AcceptedAtMostOnce(run: seq<u64>, i: nat, j: nat)
    requires i < j < |run|
    requires Fresh(AcceptedBy(run[..i]), run[i]) && Fresh(AcceptedBy(run[..j]), run[j])
    ensures run[i] != run[j]
  {
    assert run[..i + 1][..i] == run[..i];
    assert run[i] in AcceptedBy(run[..i + 1]);
    AcceptedGrows(run, i + 1, j);
  }
}

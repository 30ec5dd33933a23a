/** Types shared by every module: optional values, results, bytes and the machine-integer bounds
    of `u16`, `u32` and `u64`. */
module Basics {

  datatype Option<+T> = None | Some(value: T)

  datatype Result<+T, +E> = Ok(value: T) | Err(error: E)

  /** The events of one run, oldest first. */
  datatype Trace<+E> = Start | Then(before: Trace<E>, last: E)

  /** One run followed by another. */
  function Join<E>(a: Trace<E>, b: Trace<E>): Trace<E> {
    match b
    case Start => a
    case Then(front, last) => Then(Join(a, front), last)
  }

  type byte = b: int | 0 <= b < 256

  type bytes = seq<byte>

  const U16_SIZE: int := 0x1_0000
  const U32_SIZE: int := 0x1_0000_0000
  const U64_SIZE: int := 0x1_0000_0000_0000_0000
  const U64_MAX: int := 0xffff_ffff_ffff_ffff

  type u16 = x: int | 0 <= x < U16_SIZE
  type u32 = x: int | 0 <= x < U32_SIZE
  type u64 = x: int | 0 <= x < U64_SIZE

  datatype SocketAddr = SocketAddr(host: bytes, port: u16)

  /** A finite set whose members all lie in `lo..hi` has at most `hi - lo` members. */
  lemma {:induction false} RangeCardinality(s: set<int>, lo: int, hi: int)
    requires lo <= hi
    requires forall x :: x in s ==> lo <= x < hi
    ensures |s| <= hi - lo
    decreases hi - lo
  {
    if lo == hi {
      assert forall x :: x !in s;
      assert s == {};
    } else if hi - 1 in s {
      RangeCardinality(s - {hi - 1}, lo, hi - 1);
    } else {
      RangeCardinality(s, lo, hi - 1);
    }
  }

  /** A finite set that covers `lo..hi` has at least `hi - lo` members. */
  lemma {:induction false} CoverCardinality(s: set<int>, lo: int, hi: int)
    requires lo <= hi
    requires forall x :: lo <= x < hi ==> x in s
    ensures |s| >= hi - lo
    decreases hi - lo
  {
    if lo < hi {
      CoverCardinality(s - {hi - 1}, lo, hi - 1);
    }
  }

  /** A set inside `lo..hi` leaves a number of that range out exactly when it is smaller than the range. */
  lemma GapIffSmaller(s: set<int>, lo: int, hi: int)
    requires lo <= hi
    requires forall x :: x in s ==> lo <= x < hi
    ensures |s| <= hi - lo
    ensures (forall x :: lo <= x < hi ==> x in s) <==> |s| == hi - lo
  {
    RangeCardinality(s, lo, hi);
    if forall x :: lo <= x < hi ==> x in s {
      CoverCardinality(s, lo, hi);
    } else {
      var x :| lo <= x < hi && x !in s;
      RangeCardinality(s + {x}, lo, hi);
    }
  }

  lemma SubsetCardinality<T>(a: set<T>, b: set<T>)
    requires a <= b
    ensures |a| <= |b|
  {
    assert b == a + (b - a);
  }
}

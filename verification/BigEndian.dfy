/** Big-endian integers of a fixed width, as every wire format of the protocol uses them. */
module BigEndian {
  import opened Basics

  const U16_WIDTH: nat := 2
  const U32_WIDTH: nat := 4
  const U64_WIDTH: nat := 8

  function Pow256(w: nat): (r: nat)
    ensures r >= 1
  {
    if w == 0 then 1 else 256 * Pow256(w - 1)
  }

  /** The last `w` big-endian digits of `n`. */
  function ToBE(n: nat, w: nat): (b: bytes)
    ensures |b| == w
  {
    if w == 0 then [] else ToBE(n / 256, w - 1) + [n % 256]
  }

  function FromBE(b: bytes): nat {
    if b == [] then 0 else 256 * FromBE(b[..|b| - 1]) + b[|b| - 1]
  }

  lemma {:induction false} FromToBE(n: nat, w: nat)
    requires n < Pow256(w)
    ensures FromBE(ToBE(n, w)) == n
  {
    if w > 0 {
      FromToBE(n / 256, w - 1);
      assert ToBE(n, w)[..w - 1] == ToBE(n / 256, w - 1);
    }
  }

  lemma {:induction false} ToFromBE(b: bytes)
    ensures FromBE(b) < Pow256(|b|)
    ensures ToBE(FromBE(b), |b|) == b
  {
    if b != [] {
      ToFromBE(b[..|b| - 1]);
      assert FromBE(b) / 256 == FromBE(b[..|b| - 1]);
    }
  }

  /** The first byte is the most significant. */
  lemma {:induction false} MostSignificantFirst(first: byte, rest: bytes)
    ensures FromBE([first] + rest) == (first as int) * Pow256(|rest|) + FromBE(rest)
  {
    var all := [first] + rest;
    if rest == [] {
      assert all[..0] == [];
    } else {
      var n := |rest| - 1;
      var front, p := rest[..n], Pow256(n);
      MostSignificantFirst(first, front);
      assert all[..n + 1] == [first] + front;
      assert 256 * ((first as int) * p) == (first as int) * (256 * p);
    }
  }

  lemma FourBytes(a: byte, b: byte, c: byte, d: byte)
    ensures FromBE([a, b, c, d]) == 0x100_0000 * (a as int) + 0x1_0000 * (b as int) + 0x100 * (c as int) + (d as int)
  {
    assert [a, b, c, d][..3] == [a, b, c] && [a, b, c][..2] == [a, b] && [a, b][..1] == [a] && [a][..0] == [];
    assert FromBE([a]) == a && FromBE([a, b]) == 256 * FromBE([a]) + b;
    assert FromBE([a, b, c]) == 256 * FromBE([a, b]) + c;
  }

  lemma Widths()
    ensures Pow256(1) == 256 && Pow256(2) == U16_SIZE && Pow256(4) == U32_SIZE && Pow256(8) == U64_SIZE
  {
    assert Pow256(3) == 0x100_0000;
    assert Pow256(5) == 0x100 * Pow256(4);
    assert Pow256(7) == 0x1_0000 * Pow256(5);
  }
}

/** Wrapping of the session key by the raw private-key operation with PKCS#1 v1.5 type 1 padding, and its
    unwrapping with the public key. Modular exponentiation is known by its inverse law. */
module RsaWrap {
  import opened Basics
  import opened BigEndian

  /** A modulus of `size` bytes and the two exponentiations below it. */
  datatype Key = Key(size: nat, modulus: nat, private: nat -> nat, public: nat -> nat)

  ghost predicate Lawful(key: Key) {
    && key.size >= 11 && Pow256(key.size - 1) <= key.modulus < Pow256(key.size)
    && forall m: nat :: m < key.modulus ==> key.private(m) < key.modulus && key.public(key.private(m)) == m
  }

  /** Big-endian digits without leading zeros; zero is one digit. */
  function Digits(n: nat): (b: bytes)
    ensures b != [] && (n > 0 ==> b[0] > 0)
  {
    if n < 256 then [n] else Digits(n / 256) + [n % 256]
  }

  function Fill(b: byte, n: nat): (r: bytes)
    ensures |r| == n && forall i :: 0 <= i < n ==> r[i] == b
  {
    seq(n, i => b)
  }

  function Pad(size: nat, data: bytes): (r: bytes)
    requires |data| + 11 <= size
    ensures |r| == size && r[0] == 0 && r[1] == 1 && r[size - |data|..] == data
    ensures forall i :: 2 <= i < size - |data| ==> r[i] == if i == size - |data| - 1 then 0 else 255
  {
    [0, 1] + Fill(255, size - |data| - 3) + [0] + data
  }

  method EncryptWithPrivateKey(key: Key, data: bytes) returns (r: Option<bytes>)
    requires Lawful(key)
    ensures r.Some? <==> |data| + 11 <= key.size
    ensures r.Some? ==> |r.value| == key.size && FromBE(r.value) == key.private(FromBE(Pad(key.size, data)))
  {
    if |data| > key.size - 11 {
      return None;
    }
    PaddedBelowModulus(key, data);
    var c := key.private(FromBE(Pad(key.size, data)));
    var digits := Digits(c);
    FromDigits(c);
    DigitsFit(c, key.size);
    LeadingZeros(key.size - |digits|, digits);
    r := Some(Fill(0, key.size - |digits|) + digits);
  }

  /** `data` is what follows the first zero byte after the two leading ones. */
  ghost predicate Unpads(m: bytes, data: bytes) {
    && |m| >= 11 && data != []
    && exists i :: 2 <= i < |m| && m[i] == 0 && (forall j :: 2 <= j < i ==> m[j] != 0) && data == m[i + 1..]
  }

  method DecryptWithPublicKey(key: Key, wrapped: bytes) returns (r: Option<bytes>)
    ensures forall data :: r == Some(data) <==> Unpads(Digits(key.public(FromBE(wrapped))), data)
  {
    var m := Digits(key.public(FromBE(wrapped)));
    if |m| < 11 {
      return None;
    }
    var start := None;
    var i := 2;
    while i < |m|
      invariant 2 <= i <= |m| && forall j :: 2 <= j < i ==> m[j] != 0
    {
      if m[i] == 0 {
        start := Some(i + 1);
        break;
      }
      i := i + 1;
    }
    if start.Some? && start.value < |m| {
      return Some(m[start.value..]);
    }
    r := None;
  }

  // ----- Numbers and digits -----

  lemma {:induction false} FromDigits(n: nat)
    ensures FromBE(Digits(n)) == n
  {
    if n < 256 {
      assert Digits(n)[..0] == [];
    } else {
      FromDigits(n / 256);
      var b := Digits(n);
      assert b[..|b| - 1] == Digits(n / 256);
    }
  }

  lemma {:induction false} DigitsOf(b: bytes)
    requires b != [] && b[0] > 0
    ensures Digits(FromBE(b)) == b && FromBE(b) > 0
  {
    var n := |b| - 1;
    if n == 0 {
      assert b[..0] == [];
    } else {
      DigitsOf(b[..n]);
      assert FromBE(b) / 256 == FromBE(b[..n]);
    }
  }

  lemma {:induction false} LeadingZeros(n: nat, b: bytes)
    ensures FromBE(Fill(0, n) + b) == FromBE(b)
  {
    if b != [] {
      var all := Fill(0, n) + b;
      LeadingZeros(n, b[..|b| - 1]);
      assert all[..|all| - 1] == Fill(0, n) + b[..|b| - 1];
    } else if n > 0 {
      LeadingZeros(n - 1, b);
      assert (Fill(0, n) + b)[..n - 1] == Fill(0, n - 1) + b;
    } else {
      assert Fill(0, n) + b == [];
    }
  }

  lemma {:induction false} DigitsFit(n: nat, size: nat)
    requires n < Pow256(size) && size > 0
    ensures |Digits(n)| <= size
  {
    if n >= 256 {
      assert size > 1;
      DigitsFit(n / 256, size - 1);
    }
  }

  /** The digits of the padded block are the block without its leading zero. */
  lemma PaddedDigits(size: nat, data: bytes)
    requires |data| + 11 <= size
    ensures Digits(FromBE(Pad(size, data))) == Pad(size, data)[1..]
    ensures FromBE(Pad(size, data)) == FromBE(Pad(size, data)[1..])
  {
    var p := Pad(size, data);
    DigitsOf(p[1..]);
    LeadingZeros(1, p[1..]);
    assert Fill(0, 1) + p[1..] == p;
  }

  lemma PaddedBelowModulus(key: Key, data: bytes)
    requires Lawful(key) && |data| + 11 <= key.size
    ensures FromBE(Pad(key.size, data)) < key.modulus
  {
    PaddedDigits(key.size, data);
    ToFromBE(Pad(key.size, data)[1..]);
  }

  /** After the leading one, only padding precedes the separator. */
  lemma UnpadsPadded(size: nat, data: bytes, got: bytes)
    requires |data| + 11 <= size
    ensures Unpads(Pad(size, data)[1..], got) <==> data != [] && got == data
  {
    var m := Pad(size, data)[1..];
    var zero := size - |data| - 2;
    assert m[zero] == 0 && m[zero + 1..] == data;
    assert forall j :: 2 <= j < zero ==> m[j] == 255;
  }

  /** Whatever the wrapped bytes are, unwrapping returns the data that was wrapped, and it does so if and only if
      that data is not empty; empty data wraps but never unwraps. */
  lemma WrapRoundTrip(key: Key, data: bytes, wrapped: bytes, got: bytes)
    requires Lawful(key) && |data| + 11 <= key.size
    requires FromBE(wrapped) == key.private(FromBE(Pad(key.size, data)))
    ensures Unpads(Digits(key.public(FromBE(wrapped))), got) <==> data != [] && got == data
  {
    PaddedBelowModulus(key, data);
    PaddedDigits(key.size, data);
    UnpadsPadded(key.size, data, got);
  }

  method WrapAndUnwrap(key: Key, data: bytes) returns (r: Option<bytes>)
    requires Lawful(key)
    ensures r == if 1 <= |data| && |data| + 11 <= key.size then Some(data) else None
  {
    var wrapped := EncryptWithPrivateKey(key, data);
    if wrapped.None? {
      return None;
    }
    r := DecryptWithPublicKey(key, wrapped.value);
    WrapRoundTrip(key, data, wrapped.value, data);
    if r.Some? {
      WrapRoundTrip(key, data, wrapped.value, r.value);
    }
  }
}

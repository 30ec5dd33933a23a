/** CIDR arithmetic of the TUN handler: mask tests for both address families, the broadcast test, and the
    choice of a peer address inside the TUN's own network. */
module Cidr {
  import opened Basics
  import opened Bits

  const V4_BITS := 32
  const V6_BITS := 128

  datatype IpAddr = V4(v4: nat) | V6(v6: nat)

  /** All ones shifted left by the host part, in a `width`-bit word. */
  function Mask(prefix: nat, width: nat): nat
    requires prefix <= width
  {
    if prefix == 0 then 0 else Low(Shl(Ones(width), width - prefix), width)
  }

  predicate InCidr(ip: nat, network: nat, prefix: nat, width: nat)
    requires prefix <= width
  {
    And(ip, Mask(prefix, width)) == And(network, Mask(prefix, width))
  }

  /** What the test is for: the two addresses agree on their first `prefix` bits. */
  ghost predicate LeadingBitsAgree(x: nat, y: nat, prefix: nat, width: nat)
    requires prefix <= width
  {
    forall i: nat :: width - prefix <= i < width ==> Bit(x, i) == Bit(y, i)
  }

  lemma MaskBits(prefix: nat, width: nat, i: nat)
    requires prefix <= width
    ensures Bit(Mask(prefix, width), i) == (width - prefix <= i < width)
  {
    if prefix == 0 {
      BitOfZero(i);
    } else {
      BitLow(Shl(Ones(width), width - prefix), width, i);
      BitShl(Ones(width), width - prefix, i);
      if i >= width - prefix { BitOnes(width, i - (width - prefix)); }
    }
  }

  /** The mask test is exactly agreement on the leading bits, for every prefix from 0 to full length. */
  lemma CidrIsLeadingBits(x: nat, y: nat, prefix: nat, width: nat)
    requires prefix <= width
    ensures InCidr(x, y, prefix, width) <==> LeadingBitsAgree(x, y, prefix, width)
  {
    var mask := Mask(prefix, width);
    forall i: nat
      ensures Bit(And(x, mask), i) == (Bit(x, i) && width - prefix <= i < width)
      ensures Bit(And(y, mask), i) == (Bit(y, i) && width - prefix <= i < width)
    {
      MaskBits(prefix, width, i);
      BitAnd(x, mask, i);
      BitAnd(y, mask, i);
    }
    if InCidr(x, y, prefix, width) {
      forall i: nat | width - prefix <= i < width ensures Bit(x, i) == Bit(y, i) {
        assert Bit(And(x, mask), i) == Bit(And(y, mask), i);
      }
    }
    if LeadingBitsAgree(x, y, prefix, width) {
      Extensional(And(x, mask), And(y, mask));
    }
  }

  // ----- The TUN's own networks -----

  datatype TunNetworks = TunNetworks(ipv4: nat, ipv4Prefix: nat, ipv6: Option<(nat, nat)>)

  predicate NetworksOk(n: TunNetworks) {
    && n.ipv4 < Pow2(V4_BITS) && n.ipv4Prefix <= V4_BITS
    && (n.ipv6.Some? ==> n.ipv6.value.0 < Pow2(V6_BITS) && n.ipv6.value.1 <= V6_BITS)
  }

  predicate ContainsIp(n: TunNetworks, ip: IpAddr)
    requires NetworksOk(n)
  {
    match ip
    case V4(x) => InCidr(x, n.ipv4, n.ipv4Prefix, V4_BITS)
    case V6(x) => n.ipv6.Some? && InCidr(x, n.ipv6.value.0, n.ipv6.value.1, V6_BITS)
  }

  predicate IsIpv4Broadcast(n: TunNetworks, ip: IpAddr)
    requires NetworksOk(n)
  {
    match ip
    case V6(_) => false
    case V4(x) =>
      n.ipv4Prefix < 31 && x == Broadcast(n.ipv4, n.ipv4Prefix, V4_BITS)
  }

  /** Networks contain exactly the addresses of their family that share the leading bits. */
  lemma ContainsIsLeadingBits(n: TunNetworks, ip: IpAddr)
    requires NetworksOk(n)
    ensures ContainsIp(n, ip) <==>
            match ip
            case V4(x) => LeadingBitsAgree(x, n.ipv4, n.ipv4Prefix, V4_BITS)
            case V6(x) => n.ipv6.Some? && LeadingBitsAgree(x, n.ipv6.value.0, n.ipv6.value.1, V6_BITS)
  {
    match ip
    case V4(x) => CidrIsLeadingBits(x, n.ipv4, n.ipv4Prefix, V4_BITS);
    case V6(x) => if n.ipv6.Some? { CidrIsLeadingBits(x, n.ipv6.value.0, n.ipv6.value.1, V6_BITS); }
  }

  // ----- The host part as a number -----

  lemma {:induction false} ShlIsTimesPow2(a: nat, h: nat, j: nat)
    requires j < Pow2(h)
    ensures Shr(Shl(a, h) + j, h) == a
  {
    if h > 0 {
      assert (Shl(a, h) + j) / 2 == Shl(a, h - 1) + j / 2;
      ShlIsTimesPow2(a, h - 1, j / 2);
    }
  }

  lemma {:induction false} OrIntoHostPart(a: nat, h: nat)
    ensures Or(Shl(a, h), Ones(h)) == Shl(a, h) + Ones(h)
  {
    if h == 0 {
      OrZero(a);
    } else {
      OrIntoHostPart(a, h - 1);
      OrStep(Shl(a, h - 1), Ones(h - 1));
    }
  }

  lemma OrStep(s: nat, o: nat)
    ensures Or(2 * s, 2 * o + 1) == 2 * Or(s, o) + 1
  {
    HalfOf(s, 2 * s);
    HalfOf(o, 2 * o + 1);
  }

  lemma {:induction false} OrZero(x: nat)
    ensures Or(x, 0) == x
  {
    if x > 0 { OrZero(x / 2); }
  }

  /** Masking clears the host part. */
  lemma MaskClearsHost(x: nat, prefix: nat, width: nat)
    requires prefix <= width && x < Pow2(width)
    ensures And(x, Mask(prefix, width)) == Shl(Shr(x, width - prefix), width - prefix)
    ensures Not(Mask(prefix, width), width) == Ones(width - prefix)
  {
    var mask, h := Mask(prefix, width), width - prefix;
    forall i: nat
      ensures Bit(And(x, mask), i) == Bit(Shl(Shr(x, h), h), i)
      ensures Bit(Not(mask, width), i) == Bit(Ones(h), i)
    {
      MaskBits(prefix, width, i);
      BitAnd(x, mask, i);
      BitShl(Shr(x, h), h, i);
      if i >= h { BitShr(x, h, i - h); }
      if i >= width { HighBitsZero(x, width, i); }
      BitNot(mask, width, i);
      BitOnes(h, i);
    }
    Extensional(And(x, mask), Shl(Shr(x, h), h));
    Extensional(Not(mask, width), Ones(h));
  }

  lemma {:induction false} NetworkFits(x: nat, h: nat, width: nat)
    requires h <= width && x < Pow2(width)
    ensures Shl(Shr(x, h), h) <= x && Shl(Shr(x, h), h) + Pow2(h) <= Pow2(width)
  {
    if h > 0 { NetworkFits(x / 2, h - 1, width - 1); }
  }

  /** The broadcast address is the last of the network. */
  lemma BroadcastIsLast(x: nat, prefix: nat, width: nat)
    requires prefix <= width && x < Pow2(width)
    ensures Or(And(x, Mask(prefix, width)), Not(Mask(prefix, width), width))
            == And(x, Mask(prefix, width)) + Pow2(width - prefix) - 1
  {
    var h := width - prefix;
    MaskClearsHost(x, prefix, width);
    OrIntoHostPart(Shr(x, h), h);
    OnesIsPow2(h);
  }

  /** The network of `x`: addresses `network + j` lie in it, and the last of them is the broadcast. */
  lemma HostPart(x: nat, prefix: nat, width: nat, j: nat)
    requires prefix <= width && x < Pow2(width) && j < Pow2(width - prefix)
    ensures And(x, Mask(prefix, width)) + j < Pow2(width)
    ensures InCidr(And(x, Mask(prefix, width)) + j, x, prefix, width)
    ensures Or(And(x, Mask(prefix, width)), Not(Mask(prefix, width), width))
            == And(x, Mask(prefix, width)) + Pow2(width - prefix) - 1
  {
    var h := width - prefix;
    MaskClearsHost(x, prefix, width);
    NetworkFits(x, h, width);
    ShlIsTimesPow2(Shr(x, h), h, j);
    MaskClearsHost(Shl(Shr(x, h), h) + j, prefix, width);
    BroadcastIsLast(x, prefix, width);
  }

  /** The network address is the lowest address of its network. */
  lemma NetworkIsLowest(x: nat, y: nat, prefix: nat, width: nat)
    requires prefix <= width && x < Pow2(width) && InCidr(x, y, prefix, width)
    ensures And(y, Mask(prefix, width)) <= x
  {
    MaskClearsHost(x, prefix, width);
    NetworkFits(x, width - prefix, width);
  }

  lemma {:induction false} Pow2Grows(m: nat, n: nat)
    requires m <= n
    ensures Pow2(m) <= Pow2(n)
    decreases n
  {
    if m < n { Pow2Grows(m, n - 1); }
  }

  function SaturatingAdd(x: nat, y: nat, width: nat): nat {
    if x + y < Pow2(width) then x + y else Pow2(width) - 1
  }

  function Broadcast(ip: nat, prefix: nat, width: nat): nat
    requires prefix <= width
  {
    Or(And(ip, Mask(prefix, width)), Not(Mask(prefix, width), width))
  }

  /** Usable by a peer: in the network, and neither its first, its last nor the local address. */
  predicate Usable(x: nat, local: nat, prefix: nat, width: nat)
    requires prefix <= width
  {
    && x < Pow2(width) && InCidr(x, local, prefix, width)
    && x != And(local, Mask(prefix, width)) && x != Broadcast(local, prefix, width) && x != local
  }

  /** The search of `TunIpv4Peer`, for any address width. */
  method LowestUsable(local: nat, prefix: nat, width: nat) returns (peer: Option<nat>)
    requires prefix <= width - 2 && local < Pow2(width)
    ensures peer.Some? && Usable(peer.value, local, prefix, width)
    ensures forall x: nat :: x < peer.value ==> !Usable(x, local, prefix, width)
  {
    var mask := Mask(prefix, width);
    var network := And(local, mask);
    var broadcast := Or(network, Not(mask, width));
    Pow2Grows(2, width - prefix);
    assert Pow2(2) == 4;
    HostPart(local, prefix, width, 1);
    HostPart(local, prefix, width, 2);
    HostPart(local, prefix, width, 3);
    forall x: nat | Usable(x, local, prefix, width) ensures x > network {
      NetworkIsLowest(x, local, prefix, width);
    }
    var candidates := [SaturatingAdd(network, 1, width), SaturatingAdd(network, 2, width), SaturatingAdd(network, 3, width)];
    peer := None;
    var i := 0;
    while i < |candidates|
      invariant 0 <= i <= 1
      invariant i == 1 ==> candidates[0] == local
    {
      var candidate := candidates[i];
      if candidate != network && candidate != broadcast && candidate != local {
        return Some(candidate);
      }
      i := i + 1;
    }
    assert false;
  }

  /** An address of the TUN's network that the host will not keep for itself: it exists exactly for prefixes
      up to 30, and is the lowest address that the network tests do not rule out. */
  method TunIpv4Peer(ipv4: nat, prefix: nat) returns (peer: Option<nat>)
    requires prefix <= V4_BITS && ipv4 < Pow2(V4_BITS)
    ensures peer.Some? <==> prefix <= 30
    ensures peer.Some? ==>
              var n := TunNetworks(ipv4, prefix, None);
              && ContainsIp(n, V4(peer.value)) && !IsIpv4Broadcast(n, V4(peer.value))
              && peer.value != ipv4 && peer.value != And(ipv4, Mask(prefix, V4_BITS))
    ensures peer.Some? ==> forall x: nat :: x < peer.value ==> !Usable(x, ipv4, prefix, V4_BITS)
  {
    if prefix >= 31 {
      return None;
    }
    peer := LowestUsable(ipv4, prefix, V4_BITS);
  }
}

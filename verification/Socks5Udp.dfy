/** SOCKS5 UDP requests: the address header of a datagram, the guard in front of it, and the reply packet. Host names
    are UTF-8 bytes; decoding replaces what is not valid UTF-8. */
module Socks5Udp {
  import opened Basics
  import opened BigEndian

  datatype Address =
    | Ipv4(addr: bytes, port: u16)
    | Domain(host: bytes, port: u16)
    | Ipv6(addr: bytes, port: u16)
    | ProxyDns(port: u16)
    | UdpRelay

  /** IPv4 addresses are four bytes, IPv6 addresses sixteen, and host names valid UTF-8; `utf8` replaces invalid sequences. */
  ghost predicate AddressOk(utf8: bytes -> bytes, a: Address) {
    match a
    case Ipv4(addr, _) => |addr| == 4
    case Ipv6(addr, _) => |addr| == 16
    case Domain(host, _) => utf8(host) == host
    case _ => true
  }

  /** A missing length byte is an index out of range, not an error value. */
  datatype Parsed = Address(address: Address, used: nat) | Invalid | Panics

  function Port(buf: bytes, at: nat): u16
    requires at + 2 <= |buf|
  {
    (buf[at] as int) * 256 + buf[at + 1]
  }

  function ParseUdpAddress(utf8: bytes -> bytes, buf: bytes): Parsed {
    if buf == [] then Invalid
    else if buf[0] == 1 then
      if |buf| < 7 then Invalid else Parsed.Address(Ipv4(buf[1..5], Port(buf, 5)), 7)
    else if buf[0] == 3 then
      if |buf| < 2 then Panics
      else
        var n := buf[1] as int;
        if |buf| < n + 4 then Invalid
        else Parsed.Address(Domain(utf8(buf[2..2 + n]), Port(buf, 2 + n)), n + 4)
    else if buf[0] == 4 then
      if |buf| < 19 then Invalid else Parsed.Address(Ipv6(buf[1..17], Port(buf, 17)), 19)
    else Invalid
  }

  function Header(a: Address): Option<bytes> {
    match a
    case Ipv4(addr, port) => Some([1] + addr + ToBE(port, 2))
    case Domain(host, port) => if |host| > 255 then None else Some([3, |host|] + host + ToBE(port, 2))
    case Ipv6(addr, port) => Some([4] + addr + ToBE(port, 2))
    case _ => None
  }

  function UdpPacket(a: Address, data: bytes): Option<bytes> {
    match Header(a)
    case None => None
    case Some(h) => Some([0, 0, 0] + h + data)
  }

  /** The reply packet, built up piece by piece. */
  method CreateUdpPacket(a: Address, data: bytes) returns (r: Option<bytes>)
    ensures r == UdpPacket(a, data)
  {
    var packet: bytes := [0, 0, 0];
    match a {
      case Ipv4(addr, port) =>
        packet := packet + [1];
        packet := packet + addr;
        packet := packet + ToBE(port, 2);
      case Domain(host, port) =>
        packet := packet + [3];
        if |host| > 255 {
          return None;
        }
        packet := packet + [|host|];
        packet := packet + host;
        packet := packet + ToBE(port, 2);
      case Ipv6(addr, port) =>
        packet := packet + [4];
        packet := packet + addr;
        packet := packet + ToBE(port, 2);
      case ProxyDns(_) =>
        return None;
      case UdpRelay =>
        return None;
    }
    assert packet == [0, 0, 0] + Header(a).value;
    r := Some(packet + data);
  }

  datatype Incoming = Request(address: Address, payload: bytes) | Ignored | Crashes

  const MIN_PACKET: nat := 10

  /** What the receive loop does with a datagram. */
  function Receive(utf8: bytes -> bytes, packet: bytes): Incoming {
    if |packet| < MIN_PACKET || packet[0] != 0 || packet[1] != 0 || packet[2] != 0 then Ignored
    else
      match ParseUdpAddress(utf8, packet[3..])
      case Invalid => Ignored
      case Panics => Crashes
      case Address(a, used) =>
        if 3 + used <= |packet| then Request(a, packet[3 + used..]) else Crashes
  }

  lemma PortOf(before: bytes, port: u16, after: bytes)
    ensures Port(before + ToBE(port, 2) + after, |before|) == port
  {
    Widths();
    FromToBE(port, 2);
    var b := ToBE(port, 2);
    assert b[..1][..0] == [];
    assert FromBE(b[..1]) == b[0];
    assert (before + b + after)[|before|] == b[0];
  }

  /** Whatever follows it, a header parses back to its address and its own length. */
  lemma HeaderRoundTrip(utf8: bytes -> bytes, a: Address, data: bytes)
    requires AddressOk(utf8, a) && Header(a).Some?
    ensures ParseUdpAddress(utf8, Header(a).value + data) == Parsed.Address(a, |Header(a).value|)
  {
    var h := Header(a).value;
    var buf := h + data;
    match a
    case Ipv4(addr, port) =>
      PortOf([1] + addr, port, data);
      assert buf[1..5] == addr;
    case Ipv6(addr, port) =>
      PortOf([4] + addr, port, data);
      assert buf[1..17] == addr;
    case Domain(host, port) =>
      PortOf([3, |host|] + host, port, data);
      assert buf[2..2 + |host|] == host;
  }

  /** A packet can be made exactly for the real addresses whose host name fits its length byte. */
  lemma WhichAddressesHavePackets(a: Address, data: bytes)
    ensures UdpPacket(a, data).Some? <==> a.Ipv4? || a.Ipv6? || (a.Domain? && |a.host| <= 255)
  {
  }

  /** A packet that the handler made is understood by the handler if and only if it reaches the minimum length; the
      only ones that do not are names with fewer than three bytes of name and payload together. */
  lemma PacketRoundTrip(utf8: bytes -> bytes, a: Address, data: bytes)
    requires AddressOk(utf8, a) && UdpPacket(a, data).Some?
    ensures Receive(utf8, UdpPacket(a, data).value)
         == if a.Domain? && |a.host| + |data| < 3 then Ignored else Request(a, data)
  {
    var h := Header(a).value;
    var packet := UdpPacket(a, data).value;
    HeaderRoundTrip(utf8, a, data);
    assert packet[3..] == h + data;
    assert packet[3 + |h|..] == data;
  }

  /** The parser alone panics on exactly one input, and the guard keeps that input away from it. */
  lemma PanicsExactlyOn(utf8: bytes -> bytes, buf: bytes)
    ensures ParseUdpAddress(utf8, buf) == Panics <==> buf == [3]
    ensures !Receive(utf8, buf).Crashes?
  {
  }

  /** Conversely a parsed header is the one its address would be given, as far as host names are valid UTF-8. */
  lemma ParsedIsItsHeader(utf8: bytes -> bytes, buf: bytes)
    requires ParseUdpAddress(utf8, buf).Address?
    requires buf[0] == 3 ==> utf8(buf[2..2 + buf[1] as int]) == buf[2..2 + buf[1] as int]
    ensures var Address(a, used) := ParseUdpAddress(utf8, buf);
            used <= |buf| && Header(a) == Some(buf[..used])
  {
    var Address(a, used) := ParseUdpAddress(utf8, buf);
    var port := Port(buf, used - 2);
    assert ToBE(port / 256, 1) == ToBE(port / 256 / 256, 0) + [port / 256 % 256];
    assert ToBE(port, 2) == buf[used - 2..used];
    match a
    case Ipv4(addr, _) =>
      assert buf[..used] == [1] + addr + ToBE(port, 2);
    case Ipv6(addr, _) =>
      assert buf[..used] == [4] + addr + ToBE(port, 2);
    case Domain(host, _) =>
      assert buf[..used] == [3, |host|] + host + ToBE(port, 2);
  }

  /** What stands where in a header: the kind of address, the address, and the port with its high byte first. */
  lemma HeaderFormat(a: Address, h: bytes)
    requires Header(a) == Some(h)
    requires (a.Ipv4? ==> |a.addr| == 4) && (a.Ipv6? ==> |a.addr| == 16)
    ensures a.Ipv4? || a.Domain? || a.Ipv6?
    ensures a.Ipv4? ==> |h| == 7 && h[0] == 1 && h[1..5] == a.addr
    ensures a.Domain? ==> |h| == 4 + |a.host| && h[0] == 3 && h[1] as int == |a.host| && h[2..|h| - 2] == a.host
    ensures a.Ipv6? ==> |h| == 19 && h[0] == 4 && h[1..17] == a.addr
    ensures a.port == 256 * (h[|h| - 2] as int) + (h[|h| - 1] as int)
  {
    PortOf(h[..|h| - 2], a.port, []);
    assert h == h[..|h| - 2] + ToBE(a.port, 2) + [];
  }

  /** The name in the header, if there is one and it is whole, is valid UTF-8. */
  ghost predicate NameIsValid(utf8: bytes -> bytes, buf: bytes) {
    |buf| >= 2 && buf[0] == 3 && |buf| >= buf[1] as int + 4 ==> utf8(buf[2..2 + buf[1] as int]) == buf[2..2 + buf[1] as int]
  }

  /** A datagram is taken as a request for an address with a payload if and only if it is the packet the handler would
      itself have made of them and is at least ten bytes long. */
  lemma RequestIff(utf8: bytes -> bytes, packet: bytes, a: Address, data: bytes)
    requires |packet| >= 3 ==> NameIsValid(utf8, packet[3..])
    ensures Receive(utf8, packet) == Request(a, data) <==>
              |packet| >= 10 && AddressOk(utf8, a) && UdpPacket(a, data) == Some(packet)
  {
    if Receive(utf8, packet) == Request(a, data) {
      var buf := packet[3..];
      ParsedIsItsHeader(utf8, buf);
      var used := ParseUdpAddress(utf8, buf).used;
      assert packet == [0, 0, 0] + buf[..used] + packet[3 + used..];
    }
    if |packet| >= 10 && AddressOk(utf8, a) && UdpPacket(a, data) == Some(packet) {
      PacketRoundTrip(utf8, a, data);
    }
  }
}

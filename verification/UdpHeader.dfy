/** The fixed 46-byte header of every encrypted UDP datagram. Its exact bytes are also the additional
    authenticated data of the datagram, so decoding must lose nothing. */
module UdpHeaders {
  import opened Basics
  import opened BigEndian

  const MAGIC: bytes := [0x50, 0x55, 0x44, 0x50]
  const VERSION: byte := 1
  const MAX_DATAGRAM := 1351
  const HEADER_LEN := 46
  const TAG_LEN := 16
  const MAX_FRAGMENT := 1289
  const MAX_MESSAGE := 71680
  const MAX_FRAGMENTS := 64

  datatype Kind = AuthInit | AuthOk | Encrypted

  datatype Header = Header(
    magic: bytes, version: byte, kind: Kind, session: bytes, sequence: u64, message: u64,
    index: u16, count: u16, total: u32)

  datatype Error =
    | InvalidMagic | UnsupportedVersion | InvalidPacketKind | InvalidHeader | TooManyFragments
    | MessageTooLarge | DatagramTooShort | DatagramTooLarge | UnexpectedPacketKind | WrongSession
    | ReplayRejected | AuthenticationFailed | ReassemblyLimit | ConflictingFragment | InconsistentState
    | SequenceExhausted | MessageIdExhausted

  /** A four-byte magic and a sixteen-byte session id. */
  predicate Shaped(h: Header) {
    |h.magic| == 4 && |h.session| == 16
  }

  function MaxTotal(kind: Kind): nat {
    if kind.Encrypted? then MAX_MESSAGE else MAX_DATAGRAM - HEADER_LEN
  }

  function Validate(h: Header): Option<Error> {
    if h.magic != MAGIC then Some(InvalidMagic)
    else if h.version != VERSION then Some(UnsupportedVersion)
    else if !h.kind.Encrypted? && (h.sequence != 0 || h.message != 0 || h.index != 0 || h.count != 1) then
      Some(InvalidHeader)
    else if h.count == 0 then Some(InvalidHeader)
    else if h.count > MAX_FRAGMENTS then Some(TooManyFragments)
    else if h.index >= h.count then Some(InvalidHeader)
    else if h.total > MaxTotal(h.kind) then Some(MessageTooLarge)
    else if h.total == 0 && h.count != 1 then Some(InvalidHeader)
    else if h.total > 0 && h.count > h.total then Some(InvalidHeader)
    else if h.kind.Encrypted? && h.total > h.count * MAX_FRAGMENT then Some(InvalidHeader)
    else None
  }

  function KindByte(kind: Kind): byte {
    match kind case AuthInit => 1 case AuthOk => 2 case Encrypted => 3
  }

  function ByteKind(b: byte): Option<Kind> {
    if b == 1 then Some(AuthInit) else if b == 2 then Some(AuthOk) else if b == 3 then Some(Encrypted) else None
  }

  function Layout(h: Header): bytes {
    h.magic + [h.version] + [KindByte(h.kind)] + h.session + ToBE(h.sequence, U64_WIDTH) + ToBE(h.message, U64_WIDTH)
    + ToBE(h.index, U16_WIDTH) + ToBE(h.count, U16_WIDTH) + ToBE(h.total, U32_WIDTH)
  }

  function Encode(h: Header): Result<bytes, Error> {
    var invalid := Validate(h);
    if invalid.Some? then Err(invalid.value) else Ok(Layout(h))
  }

  function U64At(b: bytes, at: nat): u64
    requires at + 8 <= |b|
  {
    Widths();
    ToFromBE(b[at..at + 8]);
    FromBE(b[at..at + 8])
  }

  function U32At(b: bytes, at: nat): u32
    requires at + 4 <= |b|
  {
    Widths();
    ToFromBE(b[at..at + 4]);
    FromBE(b[at..at + 4])
  }

  function U16At(b: bytes, at: nat): u16
    requires at + 2 <= |b|
  {
    Widths();
    ToFromBE(b[at..at + 2]);
    FromBE(b[at..at + 2])
  }

  function Fields(b: bytes, kind: Kind): Header
    requires |b| >= HEADER_LEN
  {
    Header(b[0..4], b[4], kind, b[6..22], U64At(b, 22), U64At(b, 30), U16At(b, 38), U16At(b, 40), U32At(b, 42))
  }

  function Decode(b: bytes): Result<Header, Error> {
    if |b| < HEADER_LEN then Err(DatagramTooShort)
    else
      match ByteKind(b[5])
      case None => Err(InvalidPacketKind)
      case Some(kind) =>
        var h := Fields(b, kind);
        var invalid := Validate(h);
        if invalid.Some? then Err(invalid.value) else Ok(h)
  }

  /** The layout is 46 bytes, with each field at its offset. */
  lemma LayoutFields(h: Header, rest: bytes)
    requires Shaped(h)
    ensures |Layout(h)| == HEADER_LEN
    ensures Fields(Layout(h) + rest, h.kind) == h && (Layout(h) + rest)[5] == KindByte(h.kind)
  {
    var b := Layout(h) + rest;
    assert b[0..4] == h.magic;
    assert b[6..22] == h.session;
    assert b[22..30] == ToBE(h.sequence, U64_WIDTH);
    assert b[30..38] == ToBE(h.message, U64_WIDTH);
    assert b[38..40] == ToBE(h.index, U16_WIDTH);
    assert b[40..42] == ToBE(h.count, U16_WIDTH);
    assert b[42..46] == ToBE(h.total, U32_WIDTH);
    Widths();
    FromToBE(h.sequence, U64_WIDTH);
    FromToBE(h.message, U64_WIDTH);
    FromToBE(h.index, U16_WIDTH);
    FromToBE(h.count, U16_WIDTH);
    FromToBE(h.total, U32_WIDTH);
  }

  /** Whatever a header encodes to decodes back to that header, with any payload behind it. */
  lemma HeaderRoundTrip(h: Header, rest: bytes)
    requires Shaped(h) && Encode(h).Ok?
    ensures |Encode(h).value| == HEADER_LEN
    ensures Decode(Encode(h).value + rest) == Ok(h)
  {
    LayoutFields(h, rest);
  }

  /** Decoding accepts no second spelling: the bytes it accepts are the encoding of what it returns. */
  lemma DecodedHeaderIsItsEncoding(b: bytes)
    requires Decode(b).Ok?
    ensures Shaped(Decode(b).value)
    ensures Encode(Decode(b).value) == Ok(b[..HEADER_LEN])
  {
    var h := Decode(b).value;
    ToFromBE(b[22..30]);
    ToFromBE(b[30..38]);
    ToFromBE(b[38..40]);
    ToFromBE(b[40..42]);
    ToFromBE(b[42..46]);
    assert b[..HEADER_LEN] ==
      b[0..4] + [b[4]] + [b[5]] + b[6..22] + b[22..30] + b[30..38] + b[38..40] + b[40..42] + b[42..46];
  }

  /** The wire format, byte by byte: every field at its place, integers most significant byte first. */
  lemma WireFormat(h: Header)
    requires Shaped(h)
    ensures var b := Layout(h);
            && |b| == 46 && b[0..4] == h.magic && b[4] == h.version && b[6..22] == h.session
            && b[5] == (match h.kind case AuthInit => 1 case AuthOk => 2 case Encrypted => 3)
            && FromBE(b[22..30]) == h.sequence && FromBE(b[30..38]) == h.message
            && FromBE(b[38..40]) == h.index && FromBE(b[40..42]) == h.count && FromBE(b[42..46]) == h.total
  {
    LayoutFields(h, []);
    assert Layout(h) + [] == Layout(h);
  }

  function Sum(sizes: seq<nat>): nat {
    if sizes == [] then 0 else sizes[0] + Sum(sizes[1..])
  }

  /** `total` bytes can be cut into `count` pieces that fit, none of them empty unless the message is. */
  ghost predicate Splits(total: nat, count: nat, sizes: seq<nat>) {
    && |sizes| == count > 0 && Sum(sizes) == total
    && (forall i :: 0 <= i < count ==> sizes[i] <= MAX_FRAGMENT && (sizes[i] == 0 ==> total == 0 && count == 1))
  }

  lemma {:induction false} SomeSplit(total: nat, count: nat) returns (sizes: seq<nat>)
    requires 1 <= count <= total <= count * MAX_FRAGMENT
    ensures |sizes| == count && Sum(sizes) == total && forall i :: 0 <= i < count ==> 1 <= sizes[i] <= MAX_FRAGMENT
  {
    if count == 1 {
      sizes := [total];
      assert sizes[1..] == [];
    } else {
      var first := if total - (count - 1) < MAX_FRAGMENT then total - (count - 1) else MAX_FRAGMENT;
      var rest := SomeSplit(total - first, count - 1);
      sizes := [first] + rest;
      assert sizes[1..] == rest;
    }
  }

  lemma {:induction false} SumBounds(sizes: seq<nat>, low: nat)
    requires forall i :: 0 <= i < |sizes| ==> low <= sizes[i] <= MAX_FRAGMENT
    requires low <= 1
    ensures (low == 1 ==> |sizes| <= Sum(sizes)) && Sum(sizes) <= |sizes| * MAX_FRAGMENT
  {
    if sizes != [] {
      var rest := sizes[1..];
      assert forall i :: 0 <= i < |rest| ==> rest[i] == sizes[i + 1];
      SumBounds(rest, low);
    }
  }

  /** What validation is for: the header of an encrypted fragment is valid if and only if some message within the limits
      can be cut so that this is one of its fragments. */
  lemma ValidIffSomeMessageHasIt(h: Header)
    requires h.magic == MAGIC && h.version == VERSION && h.kind.Encrypted?
    ensures Validate(h).None? <==>
              && h.index < h.count <= MAX_FRAGMENTS && h.total <= MAX_MESSAGE
              && exists sizes :: Splits(h.total, h.count, sizes)
  {
    if Validate(h).None? {
      if h.total == 0 {
        assert [0][1..] == [];
        assert Splits(0, 1, [0]);
      } else {
        var sizes := SomeSplit(h.total, h.count);
        assert Splits(h.total, h.count, sizes);
      }
    }
    if sizes :| Splits(h.total, h.count, sizes) {
      SumBounds(sizes, 0);
      if h.total > 0 {
        SumBounds(sizes, 1);
      }
    }
  }

  /** The header of an authentication packet is valid if and only if it is unnumbered, unfragmented and fits a datagram;
      and no other magic or version is accepted. */
  lemma AuthHeaderValidIff(h: Header)
    ensures Validate(h).None? ==> h.magic == MAGIC && h.version == VERSION
    ensures h.magic == MAGIC && h.version == VERSION && !h.kind.Encrypted? ==>
              (Validate(h).None? <==>
               h.sequence == h.message == h.index == 0 && h.count == 1 && h.total + HEADER_LEN <= MAX_DATAGRAM)
  {
  }
}

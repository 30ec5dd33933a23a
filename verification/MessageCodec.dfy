/** The TCP message codec: optional compression, optional AES-GCM, serialisation and length-delimited frames.
    Compressors, cipher and serialiser are library functions known by their round-trip laws. */
module MessageCodec {
  import opened Basics
  import BigEndian

  const MAX_MESSAGE_SIZE: nat := 0x40_0000
  const MIN_COMPRESSION_SIZE: nat := 64
  const NONCE_SIZE: nat := 12
  const HEAD: nat := 4

  // ----- Length-delimited frames -----

  datatype Step = More | Bad | Frame(data: bytes, rest: bytes)

  /** What a receiver of `stream` can do next. */
  function NextFrame(stream: bytes): Step {
    if |stream| < HEAD then More
    else
      var n := BigEndian.FromBE(stream[..HEAD]);
      if n > MAX_MESSAGE_SIZE then Bad
      else if |stream| < HEAD + n then More
      else Frame(stream[HEAD..HEAD + n], stream[HEAD + n..])
  }

  predicate Fits(frame: bytes) {
    |frame| <= MAX_MESSAGE_SIZE
  }

  function Framed(frame: bytes): bytes {
    BigEndian.ToBE(|frame|, HEAD) + frame
  }

  /** The receiving end: bytes received but not yet consumed, and the length of a frame whose head was consumed. */
  class FrameDecoder {
    var buffer: bytes
    var pending: Option<nat>

    ghost predicate Valid()
      reads this
    {
      pending.Some? ==> pending.value <= MAX_MESSAGE_SIZE
    }

    /** The stream still to be decoded, with a consumed head put back. */
    ghost function Unread(): bytes
      reads this
    {
      match pending
      case None => buffer
      case Some(n) => BigEndian.ToBE(n, HEAD) + buffer
    }

    constructor ()
      ensures Valid() && Unread() == []
    {
      buffer, pending := [], None;
    }

    method Receive(chunk: bytes)
      requires Valid()
      modifies this`buffer
      ensures Valid() && Unread() == old(Unread()) + chunk
    {
      buffer := buffer + chunk;
    }

    method Decode() returns (r: Result<Option<bytes>, ()>)
      requires Valid()
      modifies this
      ensures Valid()
      ensures match NextFrame(old(Unread()))
              case More => r == Ok(None) && Unread() == old(Unread())
              case Bad => r == Err(()) && Unread() == old(Unread())
              case Frame(data, rest) => r == Ok(Some(data)) && Unread() == rest
    {
      ghost var unread := Unread();
      var n;
      match pending {
        case Some(known) =>
          n := known;
          HeadOf(n, buffer);
        case None =>
          if |buffer| < HEAD {
            return Ok(None);
          }
          n := BigEndian.FromBE(buffer[..HEAD]);
          if n > MAX_MESSAGE_SIZE {
            return Err(());
          }
          BigEndian.ToFromBE(buffer[..HEAD]);
          assert buffer == BigEndian.ToBE(n, HEAD) + buffer[HEAD..];
          buffer := buffer[HEAD..];
          pending := Some(n);
          HeadOf(n, buffer);
      }
      assert unread == BigEndian.ToBE(n, HEAD) + buffer;
      if |buffer| < n {
        return Ok(None);
      }
      assert unread[HEAD..HEAD + n] == buffer[..n] && unread[HEAD + n..] == buffer[n..];
      r := Ok(Some(buffer[..n]));
      buffer := buffer[n..];
      pending := None;
    }

    /** Decodes for as long as a frame comes out. */
    method Drain() returns (frames: seq<bytes>)
      requires Valid()
      modifies this
      ensures Valid() && frames == Frames(old(Unread())).0 && Unread() == Frames(old(Unread())).1
    {
      ghost var (all, left) := Frames(Unread());
      frames := [];
      var more := true;
      while more
        invariant Valid() && frames + Frames(Unread()).0 == all && Frames(Unread()).1 == left
        invariant !more ==> frames == all && Unread() == left
        decreases |Unread()|, more
      {
        ghost var unread := Unread();
        var r := Decode();
        if r.Ok? && r.value.Some? {
          ghost var rest := Frames(Unread()).0;
          FramesStep(unread, r.value.value, Unread());
          assert frames + ([r.value.value] + rest) == frames + [r.value.value] + rest;
          frames := frames + [r.value.value];
        } else {
          FramesStop(unread);
          assert frames + [] == frames;
          more := false;
        }
      }
    }
  }

  lemma HeadOf(n: nat, rest: bytes)
    requires n <= MAX_MESSAGE_SIZE
    ensures BigEndian.FromBE((BigEndian.ToBE(n, HEAD) + rest)[..HEAD]) == n
  {
    BigEndian.Widths();
    BigEndian.FromToBE(n, HEAD);
    assert (BigEndian.ToBE(n, HEAD) + rest)[..HEAD] == BigEndian.ToBE(n, HEAD);
  }

  lemma NextOfFramed(frame: bytes, rest: bytes)
    requires Fits(frame)
    ensures NextFrame(Framed(frame) + rest) == Frame(frame, rest)
  {
    HeadOf(|frame|, frame + rest);
    assert Framed(frame) + rest == BigEndian.ToBE(|frame|, HEAD) + (frame + rest);
  }

  /** All frames of a stream, and what is left; a bad length stops the decoder there for good. */
  function Frames(stream: bytes): (r: (seq<bytes>, bytes))
    decreases |stream|
  {
    match NextFrame(stream)
    case Frame(data, rest) => var (more, left) := Frames(rest); ([data] + more, left)
    case _ => ([], stream)
  }

  function Wire(frames: seq<bytes>): bytes {
    if frames == [] then [] else Framed(frames[0]) + Wire(frames[1..])
  }

  lemma NextExtends(a: bytes, b: bytes)
    requires NextFrame(a).Frame?
    ensures NextFrame(a + b) == Frame(NextFrame(a).data, NextFrame(a).rest + b)
  {
    var n := HEAD + |NextFrame(a).data|;
    assert (a + b)[..HEAD] == a[..HEAD];
    assert (a + b)[HEAD..n] == a[HEAD..n] && (a + b)[n..] == a[n..] + b;
  }

  lemma FramesStop(stream: bytes)
    requires !NextFrame(stream).Frame?
    ensures Frames(stream) == ([], stream)
  {
  }

  lemma FramesStep(stream: bytes, data: bytes, rest: bytes)
    requires NextFrame(stream) == Frame(data, rest)
    ensures |rest| < |stream| && Frames(stream) == ([data] + Frames(rest).0, Frames(rest).1)
  {
  }

  /** Frames do not depend on how the stream was cut into chunks. */
  lemma {:induction false} ChunksDoNotMatter(a: bytes, b: bytes)
    ensures Frames(a + b).0 == Frames(a).0 + Frames(Frames(a).1 + b).0
    ensures Frames(a + b).1 == Frames(Frames(a).1 + b).1
    decreases |a|
  {
    var step := NextFrame(a);
    if step.Frame? {
      FramesStep(a, step.data, step.rest);
      NextExtends(a, b);
      FramesStep(a + b, step.data, step.rest + b);
      ChunksDoNotMatter(step.rest, b);
    } else {
      assert Frames(a) == ([], a);
    }
  }

  lemma FramesOfFramed(frame: bytes, more: bytes, tail: bytes)
    requires Fits(frame)
    ensures Frames(Framed(frame) + more + tail) == ([frame] + Frames(more + tail).0, Frames(more + tail).1)
  {
    NextOfFramed(frame, more + tail);
    FramesStep(Framed(frame) + (more + tail), frame, more + tail);
    assert Framed(frame) + (more + tail) == Framed(frame) + more + tail;
  }

  /** Whatever arrives after them, frames come out as they went in. */
  lemma {:induction false} FramesOfWire(frames: seq<bytes>, tail: bytes)
    requires forall f :: f in frames ==> Fits(f)
    ensures Frames(Wire(frames) + tail).0 == frames + Frames(tail).0
    ensures Frames(Wire(frames) + tail).1 == Frames(tail).1
  {
    if frames == [] {
      assert Wire(frames) + tail == tail;
    } else {
      var rest := frames[1..];
      FramesOfWire(rest, tail);
      FramesOfFramed(frames[0], Wire(rest), tail);
      assert Wire(frames) == Framed(frames[0]) + Wire(rest);
      assert [frames[0]] + (rest + Frames(tail).0) == frames + Frames(tail).0;
    }
  }

  /** Decoding chunk by chunk, keeping what is left between chunks. */
  function DecodeChunks(chunks: seq<bytes>): (seq<bytes>, bytes) {
    if chunks == [] then ([], [])
    else
      var (before, left) := DecodeChunks(chunks[..|chunks| - 1]);
      var (now, left') := Frames(left + chunks[|chunks| - 1]);
      (before + now, left')
  }

  function Concat(chunks: seq<bytes>): bytes {
    if chunks == [] then [] else Concat(chunks[..|chunks| - 1]) + chunks[|chunks| - 1]
  }

  lemma {:induction false} ChunkedIsWhole(chunks: seq<bytes>)
    ensures DecodeChunks(chunks) == Frames(Concat(chunks))
  {
    if chunks == [] {
      assert NextFrame([]) == More;
    } else {
      var n := |chunks| - 1;
      ChunkedIsWhole(chunks[..n]);
      ChunksDoNotMatter(Concat(chunks[..n]), chunks[n]);
    }
  }

  // ----- Messages -----

  datatype Mode = Plain | Zstd | Lz4 | Gzip

  datatype Message = Message(version: byte, kind: byte, compression: byte, payload: bytes)

  function FromFlag(flag: byte): Mode {
    match flag
    case 1 => Zstd
    case 2 => Lz4
    case 3 => Gzip
    case _ => Plain
  }

  function ToFlag(mode: Mode): byte {
    match mode
    case Plain => 0
    case Zstd => 1
    case Lz4 => 2
    case Gzip => 3
  }

  /** The library functions. Compressors may fail; `unpack` has no size limit of its own. */
  datatype Library = Library(
    pack: (Mode, bytes) -> Option<bytes>,
    unpack: (Mode, bytes) -> Option<bytes>,
    serialize: Message -> bytes,
    deserialize: bytes -> Option<Message>,
    seal: (bytes, bytes, bytes) -> bytes,
    unseal: (bytes, bytes, bytes) -> Option<bytes>)

  function LittleEndian32(b: bytes): nat
    requires |b| >= 4
  {
    (b[0] as int) + 0x100 * (b[1] as int) + 0x1_0000 * (b[2] as int) + 0x100_0000 * (b[3] as int)
  }

  ghost predicate Unpacks(lib: Library, mode: Mode, x: bytes) {
    lib.pack(mode, x).Some? ==>
      && lib.unpack(mode, lib.pack(mode, x).value) == Some(x)
      && (mode.Lz4? ==> |lib.pack(mode, x).value| >= 4 && LittleEndian32(lib.pack(mode, x).value) == |x|)
  }

  /** Compression undoes itself on everything a message may hold, and LZ4 blocks start with their size. */
  ghost predicate Lawful(lib: Library) {
    && (forall mode, x :: |x| <= MAX_MESSAGE_SIZE ==> Unpacks(lib, mode, x))
    && (forall m :: lib.deserialize(lib.serialize(m)) == Some(m))
    && (forall key, nonce, x :: lib.unseal(key, nonce, lib.seal(key, nonce, x)) == Some(x))
  }

  /** One peer's settings; `zstd` says whether it was built with Zstandard. */
  datatype Peer = Peer(key: Option<bytes>, mode: Mode, zstd: bool)

  function Compress(lib: Library, zstd: bool, mode: Mode, x: bytes): Option<bytes> {
    if mode.Plain? then Some(x) else if mode.Zstd? && !zstd then None else lib.pack(mode, x)
  }

  function Limited(x: Option<bytes>): Option<bytes> {
    if x.Some? && |x.value| > MAX_MESSAGE_SIZE then None else x
  }

  function Decompress(lib: Library, zstd: bool, mode: Mode, x: bytes): Option<bytes> {
    match mode
    case Plain => Limited(Some(x))
    case Zstd => if zstd then Limited(lib.unpack(mode, x)) else None
    case Gzip => Limited(lib.unpack(mode, x))
    case Lz4 =>
      if |x| < 4 || LittleEndian32(x) > MAX_MESSAGE_SIZE then None else Limited(lib.unpack(mode, x))
  }

  /** Compression is kept only where it helps. */
  function Shrunk(lib: Library, peer: Peer, m: Message): Message {
    if !peer.mode.Plain? && |m.payload| >= MIN_COMPRESSION_SIZE then
      match Compress(lib, peer.zstd, peer.mode, m.payload)
      case Some(small) =>
        if |small| < |m.payload| then m.(payload := small, compression := ToFlag(peer.mode)) else m
      case None => m
    else m
  }

  function Sealed(lib: Library, peer: Peer, nonce: bytes, m: Message): Message {
    match peer.key
    case None => m
    case Some(key) => m.(payload := nonce + lib.seal(key, nonce, m.payload))
  }

  /** The frame for a message, unless it is too large for one. */
  function EncodeFrame(lib: Library, peer: Peer, nonce: bytes, m: Message): Option<bytes> {
    var data := lib.serialize(Sealed(lib, peer, nonce, Shrunk(lib, peer, m)));
    if Fits(data) then Some(data) else None
  }

  function Opened(lib: Library, peer: Peer, m: Message): Option<Message> {
    match peer.key
    case None => Some(m)
    case Some(key) =>
      if |m.payload| < NONCE_SIZE then None
      else
        match lib.unseal(key, m.payload[..NONCE_SIZE], m.payload[NONCE_SIZE..])
        case None => None
        case Some(payload) => Some(m.(payload := payload))
  }

  function Expanded(lib: Library, peer: Peer, m: Message): Option<Message> {
    if FromFlag(m.compression).Plain? then Some(m)
    else
      match Decompress(lib, peer.zstd, FromFlag(m.compression), m.payload)
      case None => None
      case Some(payload) => Some(m.(payload := payload))
  }

  function DecodeFrame(lib: Library, peer: Peer, frame: bytes): Option<Message> {
    match lib.deserialize(frame)
    case None => None
    case Some(m) =>
      match Opened(lib, peer, m)
      case None => None
      case Some(m') => Expanded(lib, peer, m')
  }

  class MessageEncoder {
    var buffer: bytes

    constructor ()
      ensures buffer == []
    {
      buffer := [];
    }

    /** Appends the message's frame, or nothing when it is too large. */
    method Encode(lib: Library, peer: Peer, nonce: bytes, message: Message) returns (ok: bool)
      modifies this
      ensures ok <==> EncodeFrame(lib, peer, nonce, message).Some?
      ensures ok ==> buffer == old(buffer) + Framed(EncodeFrame(lib, peer, nonce, message).value)
      ensures !ok ==> buffer == old(buffer)
    {
      var item := message;
      if peer.mode != Plain && |item.payload| >= MIN_COMPRESSION_SIZE {
        var compressed := Compress(lib, peer.zstd, peer.mode, item.payload);
        if compressed.Some? && |compressed.value| < |item.payload| {
          item := item.(payload := compressed.value, compression := ToFlag(peer.mode));
        }
      }
      if peer.key.Some? {
        item := item.(payload := nonce + lib.seal(peer.key.value, nonce, item.payload));
      }
      var data := lib.serialize(item);
      if |data| > MAX_MESSAGE_SIZE {
        return false;
      }
      buffer := buffer + (BigEndian.ToBE(|data|, HEAD) + data);
      ok := true;
    }
  }

  /** The receiver has the message: everything but the compression flag, which describes the wire. */
  predicate Recovers(got: Option<Message>, m: Message) {
    got.Some? && got.value.version == m.version && got.value.kind == m.kind && got.value.payload == m.payload
  }

  /** Whether the sender's compression is kept for this message. */
  predicate IsShrunk(lib: Library, peer: Peer, payload: bytes) {
    && !peer.mode.Plain? && |payload| >= MIN_COMPRESSION_SIZE
    && Compress(lib, peer.zstd, peer.mode, payload).Some?
    && |Compress(lib, peer.zstd, peer.mode, payload).value| < |payload|
  }

  lemma OpensSealed(lib: Library, a: Peer, b: Peer, nonce: bytes, m: Message)
    requires Lawful(lib) && |nonce| == NONCE_SIZE && a.key == b.key
    ensures Opened(lib, b, Sealed(lib, a, nonce, m)) == Some(m)
  {
    if a.key.Some? {
      var payload := nonce + lib.seal(a.key.value, nonce, m.payload);
      assert payload[..NONCE_SIZE] == nonce && payload[NONCE_SIZE..] == lib.seal(a.key.value, nonce, m.payload);
    }
  }

  /** What a receiver can undo. A payload the sender shrank must be within the limit and in a format the receiver
      was built with. Any other goes out as it is, and a flag it came with must be none, or decompressing the
      payload by that flag must happen to leave it unchanged. */
  predicate Undoable(lib: Library, a: Peer, b: Peer, m: Message) {
    if IsShrunk(lib, a, m.payload) then |m.payload| <= MAX_MESSAGE_SIZE && (a.mode.Zstd? ==> b.zstd)
    else
      || FromFlag(m.compression).Plain?
      || Decompress(lib, b.zstd, FromFlag(m.compression), m.payload) == Some(m.payload)
  }

  lemma ExpandsShrunk(lib: Library, a: Peer, b: Peer, m: Message)
    requires Lawful(lib)
    ensures Recovers(Expanded(lib, b, Shrunk(lib, a, m)), m) <==> Undoable(lib, a, b, m)
  {
    if IsShrunk(lib, a, m.payload) && |m.payload| <= MAX_MESSAGE_SIZE {
      assert Unpacks(lib, a.mode, m.payload);
    }
  }

  /** A message, whatever compression flag it was built with, survives encoding and decoding between peers with the
      same key if and only if the receiver can undo what the sender did to it. */
  lemma MessageRoundTrip(lib: Library, a: Peer, b: Peer, nonce: bytes, m: Message)
    requires Lawful(lib) && |nonce| == NONCE_SIZE && a.key == b.key && EncodeFrame(lib, a, nonce, m).Some?
    ensures Recovers(DecodeFrame(lib, b, EncodeFrame(lib, a, nonce, m).value), m) <==> Undoable(lib, a, b, m)
  {
    OpensSealed(lib, a, b, nonce, Shrunk(lib, a, m));
    ExpandsShrunk(lib, a, b, m);
  }

  /** A flag set by hand on a payload that stays uncompressed can lose it: an LZ4 flag on fewer than four bytes does. */
  lemma StaleFlagIsLost(lib: Library, a: Peer, b: Peer, nonce: bytes, m: Message)
    requires Lawful(lib) && |nonce| == NONCE_SIZE && a.key == b.key
    requires FromFlag(m.compression).Lz4? && |m.payload| < 4 && EncodeFrame(lib, a, nonce, m).Some?
    ensures DecodeFrame(lib, b, EncodeFrame(lib, a, nonce, m).value) == None
  {
    OpensSealed(lib, a, b, nonce, Shrunk(lib, a, m));
  }

  /** What is on the wire. The payload is compressed if and only if a mode is set that the peer has, it is at least 64
      bytes long and packing makes it shorter; the flag then names the mode. With a key, the nonce and the cipher's output
      stand in its place. */
  lemma OnTheWire(lib: Library, a: Peer, nonce: bytes, m: Message)
    requires Lawful(lib) && EncodeFrame(lib, a, nonce, m).Some?
    ensures lib.deserialize(EncodeFrame(lib, a, nonce, m).value).Some?
    ensures var wire := lib.deserialize(EncodeFrame(lib, a, nonce, m).value).value;
            var small := lib.pack(a.mode, m.payload);
            var packed := && a.mode != Plain && (a.mode == Zstd ==> a.zstd) && |m.payload| >= 64
                          && small.Some? && |small.value| < |m.payload|;
            var body := if packed then small.value else m.payload;
            && wire.version == m.version && wire.kind == m.kind
            && wire.payload == (match a.key case Some(key) => nonce + lib.seal(key, nonce, body) case None => body)
            && wire.compression == (if !packed then m.compression
                                    else match a.mode case Plain => 0 case Zstd => 1 case Lz4 => 2 case Gzip => 3)
  {
  }

  /** The flags are fixed numbers, and every other number means no compression. */
  lemma FlagsAreFixed(flag: byte)
    ensures FromFlag(flag) == if flag == 1 then Zstd else if flag == 2 then Lz4 else if flag == 3 then Gzip else Plain
    ensures ToFlag(FromFlag(flag)) == if flag <= 3 then flag else 0
  {
  }

  /** A frame on the wire is its length, most significant byte first, and its data. */
  lemma FrameFormat(frame: bytes)
    requires Fits(frame)
    ensures |Framed(frame)| == 4 + |frame| && Framed(frame)[4..] == frame
    ensures var b := Framed(frame);
            |frame| == 0x100_0000 * (b[0] as int) + 0x1_0000 * (b[1] as int) + 0x100 * (b[2] as int) + (b[3] as int)
  {
    var b := Framed(frame);
    HeadOf(|frame|, frame);
    BigEndian.FourBytes(b[0], b[1], b[2], b[3]);
    assert b[..4] == [b[0], b[1], b[2], b[3]];
  }

  // ----- A whole connection -----

  datatype Sending = Sending(nonce: bytes, message: Message)

  /** `frame` is the message's encoding, and the receiver can undo it. */
  ghost predicate Deliverable(lib: Library, a: Peer, b: Peer, s: Sending, frame: bytes) {
    |s.nonce| == NONCE_SIZE && EncodeFrame(lib, a, s.nonce, s.message) == Some(frame) && Undoable(lib, a, b, s.message)
  }

  lemma WholeWire(frames: seq<bytes>)
    requires forall f :: f in frames ==> Fits(f)
    ensures Frames(Wire(frames)).0 == frames && Frames(Wire(frames)).1 == []
  {
    FramesOfWire(frames, []);
    assert Wire(frames) + [] == Wire(frames);
    assert NextFrame([]) == More;
    assert frames + [] == frames;
  }

  lemma PrefixDecodes(frames: seq<bytes>, chunks: seq<bytes>)
    requires (forall f :: f in frames ==> Fits(f)) && Concat(chunks) <= Wire(frames)
    ensures DecodeChunks(chunks).0 <= frames
    ensures Concat(chunks) == Wire(frames) ==> DecodeChunks(chunks) == (frames, [])
  {
    var got := Concat(chunks);
    ChunkedIsWhole(chunks);
    WholeWire(frames);
    var rest := Wire(frames)[|got|..];
    assert got + rest == Wire(frames);
    ChunksDoNotMatter(got, rest);
  }

  /** However the bytes of a connection are cut up, and wherever they stop, the receiver decodes exactly the first
      messages sent, in order; once all bytes are in, it has all of them and nothing is left over. */
  lemma ConnectionDelivers(lib: Library, a: Peer, b: Peer, sent: seq<Sending>, frames: seq<bytes>, chunks: seq<bytes>)
    requires Lawful(lib) && a.key == b.key && |frames| == |sent|
    requires forall i :: 0 <= i < |sent| ==> Deliverable(lib, a, b, sent[i], frames[i])
    requires Concat(chunks) <= Wire(frames)
    ensures |DecodeChunks(chunks).0| <= |sent|
    ensures forall i :: 0 <= i < |DecodeChunks(chunks).0| ==>
              Recovers(DecodeFrame(lib, b, DecodeChunks(chunks).0[i]), sent[i].message)
    ensures Concat(chunks) == Wire(frames) ==> |DecodeChunks(chunks).0| == |sent| && DecodeChunks(chunks).1 == []
  {
    forall f | f in frames ensures Fits(f) {
      var i :| 0 <= i < |frames| && frames[i] == f;
      assert Deliverable(lib, a, b, sent[i], frames[i]);
    }
    PrefixDecodes(frames, chunks);
    var got := DecodeChunks(chunks).0;
    forall i | 0 <= i < |got|
      ensures Recovers(DecodeFrame(lib, b, got[i]), sent[i].message)
    {
      assert got[i] == frames[i];
      assert Deliverable(lib, a, b, sent[i], frames[i]);
      MessageRoundTrip(lib, a, b, sent[i].nonce, sent[i].message);
    }
  }
}

/** Files written out byte by byte, and what the validator says of them: the fields of RFC 9649, sections 2.3
    to 2.7, are built here by arithmetic alone, without the functions that read them. */
module WebPFiles {
  import opened Collections
  import opened WebP

  // ----- Fields -----

  /** Two, three and four bytes, the lowest first. */
  function Two(n: nat): bytes
    requires n < 65536
  {
    [n % 256, n / 256]
  }

  function Three(n: nat): bytes
    requires n < 16777216
  {
    [n % 256, n / 256 % 256, n / 65536]
  }

  function Four(n: nat): bytes
    requires n < 4294967296
  {
    [n % 256, n / 256 % 256, n / 65536 % 256, n / 16777216]
  }

  lemma TwoReads(n: nat)
    requires n < 65536
    ensures Uint16(Two(n)) == n
  {
  }

  lemma ThreeReads(n: nat)
    requires n < 16777216
    ensures Uint24(Three(n)) == n
  {
    assert n / 65536 == n / 256 / 256;
  }

  lemma FourIs(n: nat)
    requires n < 4294967296
    ensures Four(n) == PutUint32(n)
  {
    assert n / 65536 == n / 256 / 256 && n / 16777216 == n / 256 / 256 / 256;
  }

  // ----- Chunks -----

  /** One chunk: its code, its size, its payload, and a zero byte after an odd payload. */
  function ChunkBytes(code: bytes, payload: bytes): bytes
    requires |payload| < 4294967296
  {
    code + Four(|payload|) + payload + if |payload| % 2 == 1 then [0] else []
  }

  /** A lossy key frame: three bytes of frame tag, the start code, the sides with two bits of scale each. */
  function Lossy(tag: bytes, width: nat, height: nat, scaleX: nat, scaleY: nat, data: bytes): bytes
    requires |tag| == 3 && width < 16384 && height < 16384 && scaleX < 4 && scaleY < 4
  {
    tag + [0x9d, 0x01, 0x2a] + Two(width + 16384 * scaleX) + Two(height + 16384 * scaleY) + data
  }

  /** A lossless frame: the signature, the sides less one in fourteen bits each, four more bits. */
  function Lossless(width: nat, height: nat, more: nat, data: bytes): bytes
    requires 1 <= width <= 16384 && 1 <= height <= 16384 && more < 16
  {
    [0x2f] + Four(width - 1 + 16384 * (height - 1) + 268435456 * more) + data
  }

  /** The canvas of an extended file: flags, three reserved bytes, the sides less one. */
  function Canvas(flags: byte, width: nat, height: nat): bytes
    requires 1 <= width <= 16777216 && 1 <= height <= 16777216
  {
    [flags, 0, 0, 0] + Three(width - 1) + Three(height - 1)
  }

  /** The file around the chunks. */
  function File(body: bytes): bytes
    requires |body| + 4 < 4294967296
  {
    [0x52, 0x49, 0x46, 0x46] + Four(|body| + 4) + [0x57, 0x45, 0x42, 0x50] + body
  }

  // ----- They are the serialisations of chunks -----

  function TheChunk(code: bytes, payload: bytes): Chunk
  {
    Chunk(code, payload, if |payload| % 2 == 1 then [0] else [])
  }

  lemma ChunkIs(code: bytes, payload: bytes)
    requires |code| == 4 && |payload| < 4294967296
    ensures Sized(TheChunk(code, payload)) && Serialise(TheChunk(code, payload)) == ChunkBytes(code, payload)
  {
    FourIs(|payload|);
  }

  lemma OneSerialised(c: Chunk)
    requires Sized(c)
    ensures AllSized([c]) && SerialiseAll([c]) == Serialise(c)
  {
    assert [c][1..] == [];
  }

  lemma TwoSerialised(c: Chunk, d: Chunk)
    requires Sized(c) && Sized(d)
    ensures AllSized([c, d]) && SerialiseAll([c, d]) == Serialise(c) + Serialise(d)
  {
    assert [c, d][1..] == [d];
    OneSerialised(d);
  }

  lemma FileIs(cs: seq<Chunk>)
    requires AllSized(cs) && |SerialiseAll(cs)| + 4 < 4294967296
    ensures File(SerialiseAll(cs)) == Container(cs)
  {
    FourIs(|SerialiseAll(cs)| + 4);
  }

  // ----- What the frames say -----

  lemma LossySays(tag: bytes, width: nat, height: nat, scaleX: nat, scaleY: nat, data: bytes)
    requires |tag| == 3 && width < 16384 && height < 16384 && scaleX < 4 && scaleY < 4
    ensures var c := TheChunk([0x56, 0x50, 0x38, 0x20], Lossy(tag, width, height, scaleX, scaleY, data));
            IsFrame(c) && FrameHeader(c) && FrameWidth(c) == width && FrameHeight(c) == height &&
            (Visible(c) <==> width > 0 && height > 0)
  {
    var b := Lossy(tag, width, height, scaleX, scaleY, data);
    assert b[3..6] == [0x9d, 0x01, 0x2a] && b[6..8] == Two(width + 16384 * scaleX) &&
           b[8..10] == Two(height + 16384 * scaleY);
    TwoReads(width + 16384 * scaleX);
    TwoReads(height + 16384 * scaleY);
    Scaled(width, scaleX);
    Scaled(height, scaleY);
  }

  lemma Scaled(side: nat, scale: nat)
    requires side < 16384
    ensures (side + 16384 * scale) % 16384 == side && (side + 16384 * scale) / 16384 == scale
  {
  }

  lemma LosslessSays(width: nat, height: nat, more: nat, data: bytes)
    requires 1 <= width <= 16384 && 1 <= height <= 16384 && more < 16
    ensures var c := TheChunk([0x56, 0x50, 0x38, 0x4c], Lossless(width, height, more, data));
            IsFrame(c) && FrameHeader(c) && FrameWidth(c) == width && FrameHeight(c) == height && Visible(c)
  {
    var b := Lossless(width, height, more, data);
    var n := width - 1 + 16384 * (height - 1) + 268435456 * more;
    assert b[1..5] == Four(n);
    FourIs(n);
    Scaled(width - 1, height - 1 + 16384 * more);
    Scaled(height - 1, more);
  }

  lemma CanvasSays(flags: byte, width: nat, height: nat)
    requires 1 <= width <= 16777216 && 1 <= height <= 16777216
    requires flags % 2 == 0 && flags < 64
    ensures var c := TheChunk([0x56, 0x50, 0x38, 0x58], Canvas(flags, width, height));
            CanvasHeader(c) && CanvasWidth(c) == width && CanvasHeight(c) == height &&
            (AnimationFlag(c) <==> flags / 2 % 2 == 1)
  {
    var b := Canvas(flags, width, height);
    assert b[1..4] == [0, 0, 0] && b[4..7] == Three(width - 1) && b[7..10] == Three(height - 1);
    ThreeReads(width - 1);
    ThreeReads(height - 1);
  }

  lemma Accepted(cs: seq<Chunk>)
    requires AllSized(cs) && |SerialiseAll(cs)| + 4 < 4294967296 && Grammar(cs)
    ensures Inspect(File(SerialiseAll(cs))) == Some(Meaning(cs))
  {
    FileIs(cs);
    assert Denotes(cs, File(SerialiseAll(cs)), Meaning(cs));
    Characterised(File(SerialiseAll(cs)), Meaning(cs));
  }

  // ----- Whole files -----

  /** A simple lossy file shows the sides of its frame. */
  lemma LossyFile(tag: bytes, width: nat, height: nat, scaleX: nat, scaleY: nat, data: bytes)
    requires |tag| == 3 && 1 <= width < 16384 && 1 <= height < 16384 && scaleX < 4 && scaleY < 4
    requires |data| < 4294967296 - 64
    ensures var b := File(ChunkBytes([0x56, 0x50, 0x38, 0x20], Lossy(tag, width, height, scaleX, scaleY, data)));
            Inspect(b) == Some(Info(width, height, false))
  {
    var payload := Lossy(tag, width, height, scaleX, scaleY, data);
    var c := TheChunk([0x56, 0x50, 0x38, 0x20], payload);
    ChunkIs([0x56, 0x50, 0x38, 0x20], payload);
    OneSerialised(c);
    LossySays(tag, width, height, scaleX, scaleY, data);
    assert ShowsAt([c], 0);
    Accepted([c]);
  }

  /** A simple lossless file shows the sides of its frame. */
  lemma LosslessFile(width: nat, height: nat, more: nat, data: bytes)
    requires 1 <= width <= 16384 && 1 <= height <= 16384 && more < 16 && |data| < 4294967296 - 64
    ensures var b := File(ChunkBytes([0x56, 0x50, 0x38, 0x4c], Lossless(width, height, more, data)));
            Inspect(b) == Some(Info(width, height, false))
  {
    var payload := Lossless(width, height, more, data);
    var c := TheChunk([0x56, 0x50, 0x38, 0x4c], payload);
    ChunkIs([0x56, 0x50, 0x38, 0x4c], payload);
    OneSerialised(c);
    LosslessSays(width, height, more, data);
    assert ShowsAt([c], 0);
    Accepted([c]);
  }

  /** An extended file that is not animated shows the sides of its canvas if its lossy frame has them, and is
      refused otherwise. */
  lemma ExtendedLossyFile(flags: byte, width: nat, height: nat, tag: bytes, frameWidth: nat, frameHeight: nat,
                          data: bytes)
    requires flags % 2 == 0 && flags < 64 && flags / 2 % 2 == 0
    requires 1 <= width <= 16777216 && 1 <= height <= 16777216
    requires |tag| == 3 && 1 <= frameWidth < 16384 && 1 <= frameHeight < 16384 && |data| < 4294967296 - 64
    ensures var b := File(ChunkBytes([0x56, 0x50, 0x38, 0x58], Canvas(flags, width, height)) +
                          ChunkBytes([0x56, 0x50, 0x38, 0x20], Lossy(tag, frameWidth, frameHeight, 0, 0, data)));
            Inspect(b) ==
              if frameWidth == width && frameHeight == height then Some(Info(width, height, false)) else None
  {
    var payload := Lossy(tag, frameWidth, frameHeight, 0, 0, data);
    var d := TheChunk([0x56, 0x50, 0x38, 0x20], payload);
    ChunkIs([0x56, 0x50, 0x38, 0x20], payload);
    LossySays(tag, frameWidth, frameHeight, 0, 0, data);
    ExtendedFile(flags, width, height, d);
  }

  /** The same with a lossless frame. */
  lemma ExtendedLosslessFile(flags: byte, width: nat, height: nat, frameWidth: nat, frameHeight: nat, more: nat,
                             data: bytes)
    requires flags % 2 == 0 && flags < 64 && flags / 2 % 2 == 0
    requires 1 <= width <= 16777216 && 1 <= height <= 16777216
    requires 1 <= frameWidth <= 16384 && 1 <= frameHeight <= 16384 && more < 16 && |data| < 4294967296 - 64
    ensures var b := File(ChunkBytes([0x56, 0x50, 0x38, 0x58], Canvas(flags, width, height)) +
                          ChunkBytes([0x56, 0x50, 0x38, 0x4c], Lossless(frameWidth, frameHeight, more, data)));
            Inspect(b) ==
              if frameWidth == width && frameHeight == height then Some(Info(width, height, false)) else None
  {
    var payload := Lossless(frameWidth, frameHeight, more, data);
    var d := TheChunk([0x56, 0x50, 0x38, 0x4c], payload);
    ChunkIs([0x56, 0x50, 0x38, 0x4c], payload);
    LosslessSays(frameWidth, frameHeight, more, data);
    ExtendedFile(flags, width, height, d);
  }

  lemma ExtendedFile(flags: byte, width: nat, height: nat, d: Chunk)
    requires flags % 2 == 0 && flags < 64 && flags / 2 % 2 == 0
    requires 1 <= width <= 16777216 && 1 <= height <= 16777216
    requires Sized(d) && IsFrame(d) && FrameHeader(d) && Visible(d) && |Serialise(d)| < 4294967296 - 24
    ensures var b := File(ChunkBytes([0x56, 0x50, 0x38, 0x58], Canvas(flags, width, height)) + Serialise(d));
            Inspect(b) == if FrameWidth(d) == width && FrameHeight(d) == height then Some(Info(width, height, false))
                          else None
  {
    var payload := Canvas(flags, width, height);
    var c := TheChunk([0x56, 0x50, 0x38, 0x58], payload);
    ChunkIs([0x56, 0x50, 0x38, 0x58], payload);
    CanvasSays(flags, width, height);
    TwoSerialised(c, d);
    var cs := [c, d];
    assert cs[0] == c && cs[1] == d && Extended(cs) && WellFormed(cs) && !Animated(cs);
    if FrameWidth(d) == width && FrameHeight(d) == height {
      assert ShowsAt(cs, 1);
      Accepted(cs);
    } else {
      FileIs(cs);
      RefusedFile(cs);
    }
  }

  lemma RefusedFile(cs: seq<Chunk>)
    requires AllSized(cs) && |SerialiseAll(cs)| + 4 < 4294967296 && !Grammar(cs)
    ensures Inspect(Container(cs)) == None
  {
    SplitSerialised(cs);
    assert Container(cs)[12..] == SerialiseAll(cs);
  }

  /** An extended file whose canvas is flagged as animated is an animation of the size of its canvas, whatever
      other well-formed chunk follows. */
  lemma AnimatedFile(flags: byte, width: nat, height: nat, code: bytes, payload: bytes)
    requires flags % 2 == 0 && flags < 64 && flags / 2 % 2 == 1
    requires 1 <= width <= 16777216 && 1 <= height <= 16777216 && |code| == 4 && |payload| < 4294967296 - 64
    requires code != [0x56, 0x50, 0x38, 0x58] && code != [0x56, 0x50, 0x38, 0x20] && code != [0x56, 0x50, 0x38, 0x4c]
    ensures var b := File(ChunkBytes([0x56, 0x50, 0x38, 0x58], Canvas(flags, width, height)) +
                          ChunkBytes(code, payload));
            Inspect(b) == Some(Info(width, height, true))
  {
    var canvas := Canvas(flags, width, height);
    var c, d := TheChunk([0x56, 0x50, 0x38, 0x58], canvas), TheChunk(code, payload);
    ChunkIs([0x56, 0x50, 0x38, 0x58], canvas);
    ChunkIs(code, payload);
    CanvasSays(flags, width, height);
    TwoSerialised(c, d);
    var cs := [c, d];
    assert cs[0] == c && cs[1] == d && Extended(cs) && WellFormed(cs) && Animated(cs);
    Accepted(cs);
  }

  // ----- Files that are refused -----

  lemma RefusedOne(code: bytes, payload: bytes)
    requires |code| == 4 && |payload| < 4294967296 - 64 && !Grammar([TheChunk(code, payload)])
    ensures Inspect(File(ChunkBytes(code, payload))) == None
  {
    var c := TheChunk(code, payload);
    ChunkIs(code, payload);
    OneSerialised(c);
    FileIs([c]);
    RefusedFile([c]);
  }

  lemma RefusedTwo(code: bytes, payload: bytes, other: bytes, more: bytes)
    requires |code| == 4 && |other| == 4 && |payload| + |more| < 4294967296 - 64
    requires !Grammar([TheChunk(code, payload), TheChunk(other, more)])
    ensures Inspect(File(ChunkBytes(code, payload) + ChunkBytes(other, more))) == None
  {
    var c, d := TheChunk(code, payload), TheChunk(other, more);
    ChunkIs(code, payload);
    ChunkIs(other, more);
    TwoSerialised(c, d);
    FileIs([c, d]);
    RefusedFile([c, d]);
  }

  /** A lossy frame without its start code, or too short for its sides. */
  lemma BadLossyFrame(payload: bytes)
    requires |payload| < 4294967296 - 64
    requires |payload| < 10 || payload[3] != 0x9d || payload[4] != 0x01 || payload[5] != 0x2a
    ensures Inspect(File(ChunkBytes([0x56, 0x50, 0x38, 0x20], payload))) == None
  {
    var cs := [TheChunk([0x56, 0x50, 0x38, 0x20], payload)];
    assert cs[0].code == VP8;
    RefusedOne([0x56, 0x50, 0x38, 0x20], payload);
  }

  /** A lossless frame without its signature, or too short for its sides. */
  lemma BadLosslessFrame(payload: bytes)
    requires |payload| < 4294967296 - 64 && (|payload| < 5 || payload[0] != 0x2f)
    ensures Inspect(File(ChunkBytes([0x56, 0x50, 0x38, 0x4c], payload))) == None
  {
    var cs := [TheChunk([0x56, 0x50, 0x38, 0x4c], payload)];
    assert cs[0].code == VP8L;
    RefusedOne([0x56, 0x50, 0x38, 0x4c], payload);
  }

  /** A lossy frame one of whose sides is nothing. */
  lemma InvisibleFrame(tag: bytes, width: nat, height: nat, scaleX: nat, scaleY: nat, data: bytes)
    requires |tag| == 3 && width < 16384 && height < 16384 && scaleX < 4 && scaleY < 4 && (width == 0 || height == 0)
    requires |data| < 4294967296 - 128
    ensures var payload := Lossy(tag, width, height, scaleX, scaleY, data);
            Inspect(File(ChunkBytes([0x56, 0x50, 0x38, 0x20], payload))) == None
  {
    LossySays(tag, width, height, scaleX, scaleY, data);
    var payload := Lossy(tag, width, height, scaleX, scaleY, data);
    var cs := [TheChunk([0x56, 0x50, 0x38, 0x20], payload)];
    assert cs[0].code == VP8 && !Animated(cs) && !Visible(cs[0]);
    RefusedOne([0x56, 0x50, 0x38, 0x20], payload);
  }

  /** A canvas of another size than ten bytes, or with a reserved bit or byte set. */
  lemma BadCanvas(canvas: bytes, code: bytes, payload: bytes)
    requires |code| == 4 && |canvas| + |payload| < 4294967296 - 64
    requires |canvas| != 10 || canvas[0] % 2 == 1 || canvas[0] >= 64 || canvas[1] != 0 || canvas[2] != 0 ||
             canvas[3] != 0
    ensures Inspect(File(ChunkBytes([0x56, 0x50, 0x38, 0x58], canvas) + ChunkBytes(code, payload))) == None
  {
    var c, d := TheChunk([0x56, 0x50, 0x38, 0x58], canvas), TheChunk(code, payload);
    assert [c, d][0].code == VP8X && !CanvasHeader(c);
    RefusedTwo([0x56, 0x50, 0x38, 0x58], canvas, code, payload);
  }

  /** Anything after the frame of a file that begins with it. */
  lemma NothingAfterAFrame(code: bytes, payload: bytes, other: bytes, more: bytes)
    requires |code| == 4 && |other| == 4 && |payload| + |more| < 4294967296 - 64
    requires code == [0x56, 0x50, 0x38, 0x20] || code == [0x56, 0x50, 0x38, 0x4c]
    ensures Inspect(File(ChunkBytes(code, payload) + ChunkBytes(other, more))) == None
  {
    var cs := [TheChunk(code, payload), TheChunk(other, more)];
    assert cs[0].code == code && !Extended(cs);
    RefusedTwo(code, payload, other, more);
  }

  /** A file whose length field does not say how long it is. */
  lemma WrongLength(n: nat, rest: bytes)
    requires n < 4294967296 && n != |rest|
    ensures Inspect([0x52, 0x49, 0x46, 0x46] + Four(n) + rest) == None
  {
    var b := [0x52, 0x49, 0x46, 0x46] + Four(n) + rest;
    FourIs(n);
    assert b[4..8] == Four(n);
  }

  // ----- Beginnings of files -----

  /** The beginning of a file whose first chunk has the code and the size, and goes on with the rest. */
  function Beginning(length: bytes, code: bytes, size: nat, rest: bytes): bytes
    requires |length| == 4 && |code| == 4 && size < 4294967296
  {
    [0x52, 0x49, 0x46, 0x46] + length + [0x57, 0x45, 0x42, 0x50] + code + Four(size) + rest
  }

  lemma BeginningIs(length: bytes, code: bytes, size: nat, rest: bytes)
    requires |length| == 4 && |code| == 4 && size < 4294967296
    ensures var b := Beginning(length, code, size, rest);
            |b| == 20 + |rest| && PrefixHeader(b) && b[12..16] == code && Uint32(b[16..20]) == size &&
            b[20..] == rest &&
            forall i, j :: 0 <= i <= j <= |rest| ==> b[20 + i..20 + j] == rest[i..j]
  {
    var b := Beginning(length, code, size, rest);
    FourIs(size);
    assert b[12..16] == code && b[16..20] == Four(size) && b[20..] == rest;
    assert b[..4] == [0x52, 0x49, 0x46, 0x46] && b[8..12] == [0x57, 0x45, 0x42, 0x50];
    forall i, j | 0 <= i <= j <= |rest|
      ensures b[20 + i..20 + j] == rest[i..j]
    {
      assert b[20..][i..j] == b[20 + i..20 + j];
    }
  }

  /** The prefix parser needs no more of a lossy file than its first thirty bytes. */
  lemma LossyPrefix(length: bytes, size: nat, tag: bytes, width: nat, height: nat, scaleX: nat, scaleY: nat,
                    rest: bytes)
    requires |length| == 4 && 10 <= size < 4294967296 && |tag| == 3
    requires 1 <= width < 16384 && 1 <= height < 16384 && scaleX < 4 && scaleY < 4
    ensures var payload := Lossy(tag, width, height, scaleX, scaleY, rest);
            Glimpse(Beginning(length, [0x56, 0x50, 0x38, 0x20], size, payload)) == Some(Info(width, height, false))
  {
    var payload := Lossy(tag, width, height, scaleX, scaleY, rest);
    var b := Beginning(length, [0x56, 0x50, 0x38, 0x20], size, payload);
    BeginningIs(length, [0x56, 0x50, 0x38, 0x20], size, payload);
    TwoReads(width + 16384 * scaleX);
    TwoReads(height + 16384 * scaleY);
    Scaled(width, scaleX);
    Scaled(height, scaleY);
    assert payload[6..8] == Two(width + 16384 * scaleX) && payload[8..10] == Two(height + 16384 * scaleY);
    assert b[20 + 6..20 + 8] == payload[6..8] && b[20 + 8..20 + 10] == payload[8..10];
    assert b[23] == 0x9d && b[24] == 0x01 && b[25] == 0x2a;
    assert GlanceAt(b, 12, Info(0, 0, false)) == Stop(Info(width, height, false));
  }

  /** Of a lossless file the first twenty-five bytes are enough. */
  lemma LosslessPrefix(length: bytes, size: nat, width: nat, height: nat, more: nat, rest: bytes)
    requires |length| == 4 && 5 <= size < 4294967296
    requires 1 <= width <= 16384 && 1 <= height <= 16384 && more < 16
    ensures Glimpse(Beginning(length, [0x56, 0x50, 0x38, 0x4c], size, Lossless(width, height, more, rest))) ==
            Some(Info(width, height, false))
  {
    var payload := Lossless(width, height, more, rest);
    var b := Beginning(length, [0x56, 0x50, 0x38, 0x4c], size, payload);
    var n := width - 1 + 16384 * (height - 1) + 268435456 * more;
    BeginningIs(length, [0x56, 0x50, 0x38, 0x4c], size, payload);
    FourIs(n);
    Scaled(width - 1, height - 1 + 16384 * more);
    Scaled(height - 1, more);
    assert payload[1..5] == Four(n) && b[20 + 1..20 + 5] == payload[1..5] && b[20] == 0x2f;
    assert GlanceAt(b, 12, Info(0, 0, false)) == Stop(Info(width, height, false));
  }

  /** An animation is recognised by its canvas, whatever follows. */
  lemma AnimatedPrefix(length: bytes, size: nat, flags: byte, width: nat, height: nat, rest: bytes)
    requires |length| == 4 && 10 <= size < 4294967296 && flags / 2 % 2 == 1
    requires 1 <= width <= 16777216 && 1 <= height <= 16777216
    ensures Glimpse(Beginning(length, [0x56, 0x50, 0x38, 0x58], size, Canvas(flags, width, height) + rest)) ==
            Some(Info(width, height, true))
  {
    var payload := Canvas(flags, width, height) + rest;
    var b := Beginning(length, [0x56, 0x50, 0x38, 0x58], size, payload);
    BeginningIs(length, [0x56, 0x50, 0x38, 0x58], size, payload);
    ThreeReads(width - 1);
    ThreeReads(height - 1);
    assert payload[4..7] == Three(width - 1) && payload[7..10] == Three(height - 1);
    assert b[20 + 4..20 + 7] == payload[4..7] && b[20 + 7..20 + 10] == payload[7..10] && b[20] == flags;
    assert GlanceAt(b, 12, Info(0, 0, false)) == Stop(Info(width, height, true));
  }
}

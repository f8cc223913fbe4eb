/** The WebP container: RIFF header, then chunks of a four-byte code, a little-endian size, the
    payload and a padding byte after an odd payload (RFC 9649, sections 2.3 to 2.7).  `Inspect` is the
    validator's meaning, stated on lists of chunks; the readers below are proved against it. */
module WebP {
  import opened Collections

  type byte = x: nat | x < 256

  type bytes = seq<byte>

  const RIFF: bytes := [0x52, 0x49, 0x46, 0x46]
  const WEBP: bytes := [0x57, 0x45, 0x42, 0x50]
  const VP8X: bytes := [0x56, 0x50, 0x38, 0x58]
  const VP8: bytes := [0x56, 0x50, 0x38, 0x20]
  const VP8L: bytes := [0x56, 0x50, 0x38, 0x4c]
  const ANIM: bytes := [0x41, 0x4e, 0x49, 0x4d]
  const ANMF: bytes := [0x41, 0x4e, 0x4d, 0x46]

  const WORD: nat := 0x1_0000_0000

  datatype Info = Info(width: nat, height: nat, animated: bool)

  function Uint16(b: bytes): (n: nat)
    requires |b| == 2
    ensures n < 0x1_0000
  {
    b[0] as nat + 0x100 * b[1] as nat
  }

  function Uint24(b: bytes): (n: nat)
    requires |b| == 3
    ensures n < 0x100_0000
  {
    b[0] as nat + 0x100 * (b[1] as nat + 0x100 * b[2] as nat)
  }

  function Uint32(b: bytes): (n: nat)
    requires |b| == 4
    ensures n < WORD
  {
    b[0] as nat + 0x100 * (b[1] as nat + 0x100 * (b[2] as nat + 0x100 * b[3] as nat))
  }

  function PutUint32(n: nat): (b: bytes)
    requires n < WORD
    ensures |b| == 4 && Uint32(b) == n
  {
    [n % 0x100, n / 0x100 % 0x100, n / 0x100 / 0x100 % 0x100, n / 0x100 / 0x100 / 0x100]
  }

  lemma Uint32Injective(b: bytes)
    requires |b| == 4
    ensures PutUint32(Uint32(b)) == b
  {
    Digit(b[2] as nat, b[3] as nat);
    Digit(b[1] as nat, b[2] as nat + 0x100 * b[3] as nat);
    Digit(b[0] as nat, b[1] as nat + 0x100 * (b[2] as nat + 0x100 * b[3] as nat));
  }

  lemma Digit(low: nat, high: nat)
    requires low < 0x100
    ensures (low + 0x100 * high) % 0x100 == low && (low + 0x100 * high) / 0x100 == high
  {
  }

  // ----- Chunks and their serialisation -----

  datatype Chunk = Chunk(code: bytes, payload: bytes, padding: bytes)

  predicate Sized(c: Chunk)
  {
    |c.code| == 4 && |c.payload| < WORD && |c.padding| == |c.payload| % 2
  }

  function Serialise(c: Chunk): (b: bytes)
    requires Sized(c)
    ensures |b| == 8 + |c.payload| + |c.payload| % 2
  {
    c.code + PutUint32(|c.payload|) + c.payload + c.padding
  }

  predicate AllSized(cs: seq<Chunk>)
  {
    forall i :: 0 <= i < |cs| ==> Sized(cs[i])
  }

  function SerialiseAll(cs: seq<Chunk>): bytes
    requires AllSized(cs)
  {
    if cs == [] then [] else Serialise(cs[0]) + SerialiseAll(cs[1..])
  }

  function Container(cs: seq<Chunk>): bytes
    requires AllSized(cs) && |SerialiseAll(cs)| + 4 < WORD
  {
    RIFF + PutUint32(|SerialiseAll(cs)| + 4) + WEBP + SerialiseAll(cs)
  }

  /** The chunk at the front of a body and what follows it. */
  function FirstChunk(b: bytes): (r: Option<(Chunk, bytes)>)
    ensures r.Some? ==> Sized(r.value.0) && b == Serialise(r.value.0) + r.value.1
  {
    if |b| < 8 then None
    else
      var size := Uint32(b[4..8]);
      if 8 + size + size % 2 > |b| then None
      else
        var c := Chunk(b[..4], b[8..8 + size], b[8 + size..8 + size + size % 2]);
        Uint32Injective(b[4..8]);
        assert b == b[..4] + b[4..8] + b[8..8 + size] + b[8 + size..8 + size + size % 2] + b[8 + size + size % 2..];
        Some((c, b[8 + size + size % 2..]))
  }

  function Split(b: bytes): (r: Option<seq<Chunk>>)
    ensures r.Some? ==> AllSized(r.value) && SerialiseAll(r.value) == b
  {
    if b == [] then Some([])
    else
      var first := FirstChunk(b);
      if first == None then None
      else
        var rest := Split(first.value.1);
        if rest == None then None else Some([first.value.0] + rest.value)
  }

  lemma FirstOfSerialised(c: Chunk, rest: bytes)
    requires Sized(c)
    ensures FirstChunk(Serialise(c) + rest) == Some((c, rest))
  {
    var b := Serialise(c) + rest;
    var n := |c.payload|;
    assert b[..4] == c.code && b[4..8] == PutUint32(n);
    assert b[8..8 + n] == c.payload && b[8 + n..8 + n + n % 2] == c.padding && b[8 + n + n % 2..] == rest;
  }

  /** A body splits into exactly the chunks that it serialises. */
  lemma {:induction false} SplitSerialised(cs: seq<Chunk>)
    requires AllSized(cs)
    ensures Split(SerialiseAll(cs)) == Some(cs)
  {
    if cs != [] {
      FirstOfSerialised(cs[0], SerialiseAll(cs[1..]));
      SplitSerialised(cs[1..]);
      assert cs == [cs[0]] + cs[1..];
    }
  }

  // ----- The grammar -----

  predicate IsFrame(c: Chunk)
  {
    c.code == VP8 || c.code == VP8L
  }

  /** A key frame header with its start code, or a lossless header with its signature. */
  predicate FrameHeader(c: Chunk)
  {
    if c.code == VP8 then |c.payload| >= 10 && c.payload[3..6] == [0x9d, 0x01, 0x2a]
    else |c.payload| >= 5 && c.payload[0] == 0x2f
  }

  function FrameWidth(c: Chunk): nat
    requires IsFrame(c) && FrameHeader(c)
  {
    if c.code == VP8 then Uint16(c.payload[6..8]) % 0x4000 else Uint32(c.payload[1..5]) % 0x4000 + 1
  }

  function FrameHeight(c: Chunk): nat
    requires IsFrame(c) && FrameHeader(c)
  {
    if c.code == VP8 then Uint16(c.payload[8..10]) % 0x4000 else Uint32(c.payload[1..5]) / 0x4000 % 0x4000 + 1
  }

  predicate Visible(c: Chunk)
  {
    IsFrame(c) && FrameHeader(c) && FrameWidth(c) > 0 && FrameHeight(c) > 0
  }

  /** Ten bytes, none of the reserved bits set. */
  predicate CanvasHeader(c: Chunk)
  {
    |c.payload| == 10 && c.payload[0] % 2 == 0 && c.payload[0] < 0x40 && c.payload[1..4] == [0, 0, 0]
  }

  predicate AnimationFlag(c: Chunk)
    requires CanvasHeader(c)
  {
    c.payload[0] / 2 % 2 == 1
  }

  predicate Extended(cs: seq<Chunk>)
  {
    cs != [] && cs[0].code == VP8X
  }

  /** VP8X only first and well formed; frames well formed and, in a simple file, only first; no frame
      after a visible one. */
  predicate WellFormed(cs: seq<Chunk>)
  {
    && (forall i :: 0 <= i < |cs| && cs[i].code == VP8X ==> i == 0 && CanvasHeader(cs[i]))
    && (forall i :: 0 <= i < |cs| && IsFrame(cs[i]) ==> FrameHeader(cs[i]) && (i == 0 || Extended(cs)))
    && (forall i, j :: 0 <= i < j < |cs| && IsFrame(cs[j]) ==> !Visible(cs[i]))
  }

  predicate Animated(cs: seq<Chunk>)
  {
    (Extended(cs) && CanvasHeader(cs[0]) && AnimationFlag(cs[0])) || exists i ::
      0 <= i < |cs| && (cs[i].code == ANIM || cs[i].code == ANMF)
  }

  predicate ShowsAt(cs: seq<Chunk>, i: nat)
  {
    i < |cs| && Visible(cs[i])
  }

  function CanvasWidth(c: Chunk): nat
    requires CanvasHeader(c)
  {
    Uint24(c.payload[4..7]) + 1
  }

  function CanvasHeight(c: Chunk): nat
    requires CanvasHeader(c)
  {
    Uint24(c.payload[7..10]) + 1
  }

  /** An animation needs a canvas.  A still image needs a visible frame: the only chunk of a simple
      file, or of the canvas's size. */
  ghost predicate Grammar(cs: seq<Chunk>)
  {
    WellFormed(cs) &&
    if Animated(cs) then Extended(cs)
    else
      exists i: nat :: ShowsAt(cs, i) &&
        if Extended(cs) then FrameWidth(cs[i]) == CanvasWidth(cs[0]) && FrameHeight(cs[i]) == CanvasHeight(cs[0])
        else |cs| == 1
  }

  ghost function Meaning(cs: seq<Chunk>): Info
    requires Grammar(cs)
  {
    if Extended(cs) then Info(CanvasWidth(cs[0]), CanvasHeight(cs[0]), Animated(cs))
    else Info(FrameWidth(cs[0]), FrameHeight(cs[0]), false)
  }

  // ----- What the validator accepts -----

  predicate Header(b: bytes)
  {
    |b| >= 20 && b[..4] == RIFF && Uint32(b[4..8]) + 8 == |b| && b[8..12] == WEBP
  }

  ghost function Inspect(b: bytes): Option<Info>
  {
    if Header(b) && Split(b[12..]).Some? && Grammar(Split(b[12..]).value) then Some(Meaning(Split(b[12..]).value))
    else None
  }

  ghost predicate Denotes(cs: seq<Chunk>, b: bytes, info: Info)
  {
    AllSized(cs) && |SerialiseAll(cs)| + 4 < WORD && b == Container(cs) && Grammar(cs) && info == Meaning(cs)
  }

  lemma AcceptedDenotes(b: bytes)
    requires Header(b) && Split(b[12..]).Some?
    ensures var cs := Split(b[12..]).value; |SerialiseAll(cs)| + 4 < WORD && b == Container(cs)
  {
    var word := b[4..8];
    assert SerialiseAll(Split(b[12..]).value) == b[12..] && |b[12..]| + 4 == Uint32(word);
    Uint32Injective(word);
    Pieces(b);
  }

  lemma Pieces(b: bytes)
    requires |b| >= 12
    ensures b == b[..4] + b[4..8] + b[8..12] + b[12..]
  {
  }

  lemma DenotedAccepted(cs: seq<Chunk>, b: bytes, info: Info)
    requires Denotes(cs, b, info)
    ensures Header(b) && Split(b[12..]) == Some(cs)
  {
    SplitSerialised(cs);
    assert b[..4] == RIFF && b[4..8] == PutUint32(|SerialiseAll(cs)| + 4) && b[8..12] == WEBP &&
           b[12..] == SerialiseAll(cs);
    NotEmpty(cs);
  }

  /** A byte sequence is accepted exactly when it is the container of a chunk list of the grammar,
      which then gives the result. */
  lemma Characterised(b: bytes, info: Info)
    ensures Inspect(b) == Some(info) <==> exists cs :: Denotes(cs, b, info)
  {
    if Inspect(b) == Some(info) {
      AcceptedDenotes(b);
      assert Denotes(Split(b[12..]).value, b, info);
    }
    if cs :| Denotes(cs, b, info) {
      DenotedAccepted(cs, b, info);
    }
  }

  lemma NotEmpty(cs: seq<Chunk>)
    requires AllSized(cs) && Grammar(cs)
    ensures |SerialiseAll(cs)| >= 8
  {
    if !Animated(cs) {
      var i: nat :| ShowsAt(cs, i);
    }
  }

  /** Still images have both sides between 1 and 16384. */
  lemma StillDimensions(b: bytes)
    requires Inspect(b).Some? && !Inspect(b).value.animated
    ensures 1 <= Inspect(b).value.width <= 16384 && 1 <= Inspect(b).value.height <= 16384
  {
    var cs := Split(b[12..]).value;
    var i: nat :| ShowsAt(cs, i) &&
      if Extended(cs) then FrameWidth(cs[i]) == CanvasWidth(cs[0]) && FrameHeight(cs[i]) == CanvasHeight(cs[0])
      else |cs| == 1;
  }

  // ----- The validator's state after some chunks -----

  datatype Scan = Scan(index: nat, extended: bool, seen: bool, width: nat, height: nat, info: Info)

  const INITIAL: Scan := Scan(0, false, false, 0, 0, Info(0, 0, false))

  function PrefixSize(code: bytes): nat
  {
    if code == VP8X || code == VP8 then 10 else if code == VP8L then 5 else 0
  }

  /** What is checked before any of the payload is read. */
  predicate Misplaced(st: Scan, code: bytes, size: nat)
  {
    if code == VP8X then st.index != 0 || st.extended || size != 10
    else if code == VP8 then st.seen || (!st.extended && st.index != 0) || size < 10
    else if code == VP8L then st.seen || (!st.extended && st.index != 0) || size < 5
    else false
  }

  function Advance(st: Scan, code: bytes, prefix: bytes): Option<Scan>
    requires |prefix| == PrefixSize(code)
  {
    var next := st.(index := st.index + 1);
    if code == VP8X then
      if prefix[0] % 2 != 0 || prefix[0] >= 0x40 || prefix[1] != 0 || prefix[2] != 0 || prefix[3] != 0 then None
      else
        Some(next.(extended := true,
                   info := Info(Uint24(prefix[4..7]) + 1, Uint24(prefix[7..10]) + 1, prefix[0] / 2 % 2 == 1)))
    else if code == VP8 then
      if prefix[3] != 0x9d || prefix[4] != 0x01 || prefix[5] != 0x2a then None
      else
        var w, h := Uint16(prefix[6..8]) % 0x4000, Uint16(prefix[8..10]) % 0x4000;
        Some(next.(width := w, height := h, seen := w > 0 && h > 0))
    else if code == VP8L then
      if prefix[0] != 0x2f then None
      else
        var bits := Uint32(prefix[1..5]);
        Some(next.(width := bits % 0x4000 + 1, height := bits / 0x4000 % 0x4000 + 1, seen := true))
    else if code == ANIM || code == ANMF then Some(next.(info := next.info.(animated := true)))
    else Some(next)
  }

  ghost predicate Tracks(st: Scan, cs: seq<Chunk>)
  {
    && WellFormed(cs)
    && st.index == |cs| && st.extended == Extended(cs)
    && (st.seen <==> exists i: nat :: ShowsAt(cs, i))
    && (forall i: nat :: ShowsAt(cs, i) ==> st.width == FrameWidth(cs[i]) && st.height == FrameHeight(cs[i]))
    && (st.info.animated <==> Animated(cs))
    && (st.extended ==> st.info.width == CanvasWidth(cs[0]) && st.info.height == CanvasHeight(cs[0]))
  }

  lemma Unplaced(st: Scan, code: bytes, size: nat)
    requires !Misplaced(st, code, size)
    ensures PrefixSize(code) <= size
  {
  }

  /** The state after one more chunk, if it may stand there. */
  function Try(st: Scan, c: Chunk): Option<Scan>
  {
    if Misplaced(st, c.code, |c.payload|) then None
    else
      Unplaced(st, c.code, |c.payload|);
      Advance(st, c.code, c.payload[..PrefixSize(c.code)])
  }

  /** The next chunk is taken exactly when the list stays well formed, and the state follows. */
  lemma Taken(st: Scan, cs: seq<Chunk>, c: Chunk)
    requires Tracks(st, cs) && Sized(c)
    ensures Try(st, c).Some? <==> WellFormed(cs + [c])
    ensures Try(st, c).Some? ==> Tracks(Try(st, c).value, cs + [c])
  {
    var all, n := cs + [c], |cs|;
    assert all[n] == c && forall i :: 0 <= i < n ==> all[i] == cs[i];
    if Misplaced(st, c.code, |c.payload|) {
      MisplacedBreaks(st, cs, c);
    } else {
      var prefix := c.payload[..PrefixSize(c.code)];
      SameFields(c);
      if Advance(st, c.code, prefix).Some? {
        TakenWellFormed(st, cs, c);
        TakenTracks(st, cs, c);
      }
    }
  }

  lemma MisplacedBreaks(st: Scan, cs: seq<Chunk>, c: Chunk)
    requires Tracks(st, cs) && Misplaced(st, c.code, |c.payload|)
    ensures !WellFormed(cs + [c])
  {
    var all, n := cs + [c], |cs|;
    assert all[n] == c;
    if st.seen && IsFrame(c) {
      var i: nat :| ShowsAt(cs, i);
      assert Visible(all[i]) && IsFrame(all[n]);
    }
  }

  /** The fields of a chunk are read from its prefix. */
  lemma SameFields(c: Chunk)
    requires |c.payload| >= PrefixSize(c.code)
    ensures var prefix := c.payload[..PrefixSize(c.code)];
            (c.code == VP8X ==> prefix[4..7] == c.payload[4..7] && prefix[7..10] == c.payload[7..10] &&
                                (|c.payload| == 10 ==> (CanvasHeader(c) <==>
                                                        Advance(INITIAL, c.code, prefix).Some?))) &&
            (c.code == VP8 ==> prefix[6..8] == c.payload[6..8] && prefix[8..10] == c.payload[8..10]) &&
            (c.code == VP8L ==> prefix[1..5] == c.payload[1..5]) &&
            (IsFrame(c) ==> (FrameHeader(c) <==> Advance(INITIAL, c.code, prefix).Some?))
  {
    if c.code == VP8X {
      assert c.payload[1..4] == [c.payload[1], c.payload[2], c.payload[3]];
    }
    if c.code == VP8 {
      assert c.payload[3..6] == [c.payload[3], c.payload[4], c.payload[5]];
    }
  }

  lemma TakenWellFormed(st: Scan, cs: seq<Chunk>, c: Chunk)
    requires Tracks(st, cs) && !Misplaced(st, c.code, |c.payload|) && |c.payload| >= PrefixSize(c.code)
    requires Advance(st, c.code, c.payload[..PrefixSize(c.code)]).Some?
    ensures WellFormed(cs + [c])
  {
    var all, n := cs + [c], |cs|;
    SameFields(c);
    forall i, j | 0 <= i < j < |all| && IsFrame(all[j])
      ensures !Visible(all[i])
    {
      assert all[i] == cs[i] && (j < n ==> all[j] == cs[j]);
      assert j == n ==> !ShowsAt(cs, i);
    }
  }

  lemma TakenTracks(st: Scan, cs: seq<Chunk>, c: Chunk)
    requires Tracks(st, cs) && !Misplaced(st, c.code, |c.payload|) && |c.payload| >= PrefixSize(c.code)
    requires Advance(st, c.code, c.payload[..PrefixSize(c.code)]).Some? && WellFormed(cs + [c])
    ensures Tracks(Advance(st, c.code, c.payload[..PrefixSize(c.code)]).value, cs + [c])
  {
    var all, n := cs + [c], |cs|;
    var next := Advance(st, c.code, c.payload[..PrefixSize(c.code)]).value;
    SameFields(c);
    ShowsNext(cs, c);
    AnimatedNext(cs, c);
    if Visible(c) {
      assert ShowsAt(all, n);
    } else if i: nat :| ShowsAt(cs, i) {
      assert ShowsAt(all, i);
    }
  }

  lemma ShowsNext(cs: seq<Chunk>, c: Chunk)
    ensures forall i: nat :: ShowsAt(cs + [c], i) <==> ShowsAt(cs, i) || (i == |cs| && Visible(c))
    ensures forall i: nat :: ShowsAt(cs, i) ==> (cs + [c])[i] == cs[i]
  {
  }

  lemma AnimatedNext(cs: seq<Chunk>, c: Chunk)
    ensures Animated(cs + [c]) <==>
              Animated(cs) || c.code == ANIM || c.code == ANMF ||
              (cs == [] && c.code == VP8X && CanvasHeader(c) && AnimationFlag(c))
  {
    var all := cs + [c];
    assert all[|cs|] == c;
    if i :| 0 <= i < |cs| && (cs[i].code == ANIM || cs[i].code == ANMF) {
      assert all[i] == cs[i];
    }
  }

  /** The state after a list of chunks, if all of them may stand there. */
  function Reaches(cs: seq<Chunk>): Option<Scan>
  {
    if cs == [] then Some(INITIAL)
    else
      var before := Reaches(cs[..|cs| - 1]);
      if before == None then None else Try(before.value, cs[|cs| - 1])
  }

  /** The loop takes exactly the well-formed lists and then knows what the list is. */
  lemma {:induction false} ReachesTracks(cs: seq<Chunk>)
    requires AllSized(cs)
    ensures Reaches(cs).Some? <==> WellFormed(cs)
    ensures Reaches(cs).Some? ==> Tracks(Reaches(cs).value, cs)
  {
    if cs != [] {
      var before, c := cs[..|cs| - 1], cs[|cs| - 1];
      assert cs == before + [c];
      ReachesTracks(before);
      if WellFormed(cs) {
        PrefixWellFormed(before, [c]);
      }
      if Reaches(before).Some? {
        Taken(Reaches(before).value, before, c);
      }
    }
  }

  lemma PrefixWellFormed(cs: seq<Chunk>, more: seq<Chunk>)
    requires WellFormed(cs + more)
    ensures WellFormed(cs)
  {
    var all := cs + more;
    assert forall i :: 0 <= i < |cs| ==> all[i] == cs[i];
  }

  // ----- The readers -----

  /** The request body as the validator reads it: limited, and copied to the destination and the hash
      as it is read.  A broken body fails where another one ends, and the destination has room for so many
      bytes: a read beyond that fails too. */
  class Stream {
    const body: bytes
    const broken: bool
    const limit: nat
    const room: nat
    var pos: nat
    var written: bytes

    constructor (body: bytes, broken: bool, limit: nat, room: nat)
      ensures Valid() && pos == 0 && this.body == body && this.broken == broken && this.limit == limit &&
              this.room == room
    {
      this.body, this.broken, this.limit, this.room := body, broken, limit, room;
      pos, written := 0, [];
    }

    function End(): nat
    {
      Min(Min(|body|, limit), room)
    }

    ghost predicate Valid()
      reads this
    {
      pos <= End() && written == body[..pos]
    }

    method ReadFull(n: nat) returns (ok: bool, b: bytes)
      requires Valid()
      modifies this
      ensures Valid() && old(pos) <= pos
      ensures ok <==> old(pos) + n <= End()
      ensures ok ==> pos == old(pos) + n && b == body[old(pos)..pos]
      ensures !ok ==> pos == End()
    {
      ok := pos + n <= End();
      var next := if ok then pos + n else End();
      b := body[pos..next];
      written := written + b;
      pos := next;
    }

    method Drain() returns (failed: bool)
      requires Valid()
      modifies this
      ensures Valid() && pos == End()
      ensures failed <==> (broken && |body| < limit) || room < Min(|body|, limit)
    {
      written := written + body[pos..End()];
      pos := End();
      failed := (broken && |body| < limit) || End() < Min(|body|, limit);
    }
  }

  function Joined(cs: seq<Chunk>, rest: Option<seq<Chunk>>): Option<seq<Chunk>>
  {
    if rest == None then None else Some(cs + rest.value)
  }

  lemma JoinOne(cs: seq<Chunk>, b: bytes, c: Chunk, rest: bytes)
    requires FirstChunk(b) == Some((c, rest)) && b != []
    ensures Joined(cs, Split(b)) == Joined(cs + [c], Split(rest))
  {
    if Split(rest).Some? {
      Associative(cs, [c], Split(rest).value);
    }
  }

  /** A list with a chunk that may not stand there is not accepted, whatever follows. */
  lemma Rejected(b: bytes, cs: seq<Chunk>, rest: bytes)
    requires |b| >= 12 && AllSized(cs) && Split(b[12..]) == Joined(cs, Split(rest)) && Reaches(cs) == None
    ensures Inspect(b) == None
  {
    ReachesTracks(cs);
    if Split(rest).Some? && WellFormed(cs + Split(rest).value) {
      PrefixWellFormed(cs, Split(rest).value);
    }
  }

  /** What the end of the loop decides. */
  lemma Concluded(st: Scan, cs: seq<Chunk>)
    requires Tracks(st, cs)
    ensures Grammar(cs) <==>
              if st.info.animated then st.extended
              else st.seen && if st.extended then st.info.width == st.width && st.info.height == st.height
                else st.index == 1
    ensures Grammar(cs) ==>
              Meaning(cs) == if st.info.animated || st.extended then st.info else Info(st.width, st.height, false)
  {
    if !st.extended && st.seen {
      var i: nat :| ShowsAt(cs, i);
      assert i == 0;
    }
  }

  /** The validator over the stream. */
  method InspectComplete(s: Stream, size: nat) returns (info: Option<Info>)
    requires s.Valid() && s.pos == 0
    modifies s
    ensures s.Valid()
    ensures info == if size <= s.End() then Inspect(s.body[..size]) else None
    ensures info.Some? ==> s.pos == size
  {
    ghost var b := if size <= s.End() then s.body[..size] else [];
    if size < 20 {
      return None;
    }
    var ok, header := s.ReadFull(12);
    if !ok {
      return None;
    }
    ghost var full := size <= s.End();
    assert full ==> header == b[..12];
    if header[..4] != RIFF || header[8..12] != WEBP {
      assert full ==> b[..4] == header[..4] && b[8..12] == header[8..12];
      return None;
    }
    assert full ==> b[4..8] == header[4..8] && b[..4] == RIFF && b[8..12] == WEBP;
    if Uint32(header[4..8]) + 8 != size {
      return None;
    }
    if full {
      ScanStart(b);
    }
    info := InspectChunks(s, size, b);
  }

  function Following(b: bytes, start: nat): nat
    requires start + 8 <= |b|
  {
    var size := Uint32(b[start + 4..start + 8]);
    start + 8 + size + size % 2
  }

  /** The chunk that a body holds at an offset. */
  ghost function ChunkAt(b: bytes, start: nat): Chunk
    requires start + 8 <= |b| && Following(b, start) <= |b|
  {
    var size := Uint32(b[start + 4..start + 8]);
    Chunk(b[start..start + 4], b[start + 8..start + 8 + size], b[start + 8 + size..start + 8 + size + size % 2])
  }

  ghost predicate Scanned(b: bytes, pos: nat, st: Scan, cs: seq<Chunk>)
  {
    Header(b) && 12 <= pos <= |b| && AllSized(cs) && Reaches(cs) == Some(st) &&
    Split(b[12..]) == Joined(cs, Split(b[pos..]))
  }

  lemma FirstAt(b: bytes, start: nat, size: nat)
    requires start + 8 <= |b| && size == Uint32(b[start + 4..start + 8])
    ensures start + 8 + size + size % 2 > |b| ==> FirstChunk(b[start..]) == None
    ensures start + 8 + size + size % 2 <= |b| ==>
            FirstChunk(b[start..]) == Some((ChunkAt(b, start), b[start + 8 + size + size % 2..]))
  {
    var rest := b[start..];
    assert rest[..4] == b[start..start + 4] && rest[4..8] == b[start + 4..start + 8];
    if 8 + size + size % 2 <= |rest| {
      assert rest[8..8 + size] == b[start + 8..start + 8 + size];
      assert rest[8 + size..8 + size + size % 2] == b[start + 8 + size..start + 8 + size + size % 2];
      assert rest[8 + size + size % 2..] == b[start + 8 + size + size % 2..];
    }
  }

  lemma Unchunked(b: bytes, start: nat, st: Scan, cs: seq<Chunk>)
    requires Scanned(b, start, st, cs) && start + 8 <= |b| < Following(b, start)
    ensures Inspect(b) == None
  {
    FirstAt(b, start, Uint32(b[start + 4..start + 8]));
  }

  lemma SizedAt(b: bytes, start: nat)
    requires start + 8 <= |b| && Following(b, start) <= |b|
    ensures Sized(ChunkAt(b, start))
  {
    var size := Uint32(b[start + 4..start + 8]);
    assert |b[start + 8..start + 8 + size]| == size;
  }

  lemma ChunkJoins(b: bytes, start: nat, cs: seq<Chunk>)
    requires start + 8 <= |b| && Following(b, start) <= |b|
    ensures Joined(cs, Split(b[start..])) == Joined(cs + [ChunkAt(b, start)], Split(b[Following(b, start)..]))
  {
    var body, rest := b[start..], b[Following(b, start)..];
    var size := Uint32(b[start + 4..start + 8]);
    FirstAt(b, start, size);
    assert start + 8 + size + size % 2 == Following(b, start);
    assert FirstChunk(body) == Some((ChunkAt(b, start), rest));
    JoinOne(cs, body, ChunkAt(b, start), rest);
  }

  /** The state after the chunk at an offset, if there is one that may stand there. */
  ghost function Outcome(b: bytes, start: nat, st: Scan): Option<Scan>
    requires start + 8 <= |b|
  {
    if Following(b, start) > |b| then None else Try(st, ChunkAt(b, start))
  }

  lemma NextChunk(b: bytes, start: nat, st: Scan, cs: seq<Chunk>)
    requires Scanned(b, start, st, cs) && start + 8 <= |b| && Following(b, start) <= |b|
    ensures Outcome(b, start, st) == None ==> Inspect(b) == None
    ensures Outcome(b, start, st).Some? ==>
            Scanned(b, Following(b, start), Outcome(b, start, st).value, cs + [ChunkAt(b, start)])
  {
    var after := cs + [ChunkAt(b, start)];
    ChunkJoins(b, start, cs);
    SizedAt(b, start);
    assert after[..|after| - 1] == cs && after[|after| - 1] == ChunkAt(b, start);
    if Reaches(after) == None {
      Rejected(b, after, b[Following(b, start)..]);
    }
  }

  /** The rest of the loop from an offset in some state. */
  ghost function ScanFrom(b: bytes, pos: nat, st: Scan): Option<Info>
    decreases |b| - pos
  {
    if pos >= |b| then Conclusion(st)
    else if pos + 8 > |b| || Outcome(b, pos, st) == None then None
    else ScanFrom(b, Following(b, pos), Outcome(b, pos, st).value)
  }

  lemma {:induction false} ScanIs(b: bytes, pos: nat, st: Scan, cs: seq<Chunk>)
    requires Scanned(b, pos, st, cs)
    ensures ScanFrom(b, pos, st) == Inspect(b)
    decreases |b| - pos
  {
    if pos == |b| {
      ScanEnd(b, st, cs);
    } else if pos + 8 > |b| {
      TooShort(b, pos, st, cs);
    } else if Following(b, pos) > |b| {
      Unchunked(b, pos, st, cs);
    } else {
      var next := Outcome(b, pos, st);
      NextChunk(b, pos, st, cs);
      if next.Some? {
        ScanIs(b, Following(b, pos), next.value, cs + [ChunkAt(b, pos)]);
      }
    }
  }

  lemma ScanEnd(b: bytes, st: Scan, cs: seq<Chunk>)
    requires Scanned(b, |b|, st, cs)
    ensures Inspect(b) == Conclusion(st)
  {
    ReachesTracks(cs);
    Concluded(st, cs);
    assert b[|b|..] == [] && cs + [] == cs;
  }

  lemma ScanStart(b: bytes)
    requires Header(b)
    ensures Inspect(b) == ScanFrom(b, 12, INITIAL)
  {
    if Split(b[12..]).Some? {
      assert [] + Split(b[12..]).value == Split(b[12..]).value;
    }
    ScanIs(b, 12, INITIAL, []);
  }

  lemma TooShort(b: bytes, pos: nat, st: Scan, cs: seq<Chunk>)
    requires Scanned(b, pos, st, cs) && pos < |b| < pos + 8
    ensures Inspect(b) == None
  {
    assert b[pos..] != [];
  }

  method InspectChunks(s: Stream, size: nat, ghost b: bytes) returns (info: Option<Info>)
    requires s.Valid() && s.pos == 12 <= size && (size <= s.End() ==> b == s.body[..size])
    modifies s
    ensures s.Valid()
    ensures info == if size <= s.End() then ScanFrom(b, 12, INITIAL) else None
    ensures info.Some? ==> s.pos == size
  {
    var remaining, st := size - 12, INITIAL;
    ghost var full := size <= s.End();
    while remaining > 0
      invariant s.Valid() && s.pos <= size && remaining == size - s.pos
      invariant full ==> ScanFrom(b, 12, INITIAL) == ScanFrom(b, s.pos, st)
    {
      if remaining < 8 {
        return None;
      }
      var next;
      next, remaining := ReadChunk(s, size, remaining, st, b);
      if next == None {
        return None;
      }
      st := next.value;
    }
    info := Conclude(st);
  }

  /** The checks after the last chunk. */
  method Conclude(st: Scan) returns (info: Option<Info>)
    ensures info == Conclusion(st)
  {
    if st.info.animated {
      return if st.extended then Some(st.info) else None;
    }
    if !st.seen {
      return None;
    }
    if !st.extended {
      return if st.index == 1 then Some(Info(st.width, st.height, false)) else None;
    }
    info := if st.info.width == st.width && st.info.height == st.height then Some(st.info) else None;
  }

  function Conclusion(st: Scan): Option<Info>
  {
    if st.info.animated then (if st.extended then Some(st.info) else None)
    else if !st.seen then None
    else if !st.extended then (if st.index == 1 then Some(Info(st.width, st.height, false)) else None)
    else if st.info.width == st.width && st.info.height == st.height then Some(st.info) else None
  }

  method ReadChunk(s: Stream, size: nat, before: nat, st: Scan, ghost b: bytes) returns (next: Option<Scan>,
                                                                                         remaining: nat)
    requires s.Valid() && s.pos + 8 <= size && before == size - s.pos && (size <= s.End() ==> b == s.body[..size])
    modifies s
    ensures s.Valid()
    ensures size <= s.End() ==> next == Outcome(b, old(s.pos), st)
    ensures next.Some? ==> s.pos <= size && remaining == size - s.pos < before
    ensures next.Some? && size <= s.End() ==> s.pos == Following(b, old(s.pos))
  {
    ghost var start, full := s.pos, size <= s.End();
    next, remaining := None, before;
    var ok, header := s.ReadFull(8);
    if !ok {
      return;
    }
    remaining := remaining - 8;
    var code, chunkSize := header[..4], Uint32(header[4..8]);
    if full {
      SameHeader(b, start, header);
    }
    if chunkSize + chunkSize % 2 > remaining || Misplaced(st, code, chunkSize) {
      return;
    }
    Unplaced(st, code, chunkSize);
    var prefix;
    ok, prefix := s.ReadFull(PrefixSize(code));
    if !ok {
      return;
    }
    if full {
      SubSlice(s.body, 0, size, start + 8, start + 8 + PrefixSize(code));
      SamePrefix(b, start, PrefixSize(code));
    }
    var advanced := Advance(st, code, prefix);
    if advanced == None {
      return;
    }
    ok := SkipRest(s, chunkSize, PrefixSize(code));
    if !ok {
      return;
    }
    next, remaining := advanced, remaining - (chunkSize + chunkSize % 2);
  }

  lemma SamePrefix(b: bytes, start: nat, n: nat)
    requires start + 8 <= |b| && Following(b, start) <= |b| && n <= Uint32(b[start + 4..start + 8])
    ensures ChunkAt(b, start).payload[..n] == b[start + 8..start + 8 + n]
  {
    SubSlice(b, start + 8, start + 8 + Uint32(b[start + 4..start + 8]), 0, n);
  }

  lemma SameHeader(b: bytes, start: nat, header: bytes)
    requires start + 8 <= |b| && header == b[start..start + 8]
    ensures header[..4] == b[start..start + 4] && header[4..8] == b[start + 4..start + 8]
  {
  }

  /** The rest of the payload and its padding. */
  method SkipRest(s: Stream, chunkSize: nat, prefixSize: nat) returns (ok: bool)
    requires s.Valid() && (prefixSize <= chunkSize || prefixSize == 0)
    modifies s
    ensures s.Valid()
    ensures ok ==> s.pos == old(s.pos) + chunkSize - prefixSize + chunkSize % 2
    ensures !ok ==> s.End() < old(s.pos) + chunkSize - prefixSize + chunkSize % 2
  {
    var skipped;
    ok := true;
    if chunkSize > prefixSize {
      ok, skipped := s.ReadFull(chunkSize - prefixSize);
      if !ok {
        return;
      }
    }
    if chunkSize % 2 == 1 {
      ok, skipped := s.ReadFull(1);
    }
  }

  // ----- Receiving a part -----

  datatype PartError = BadSize | StreamFailed | NotWebP

  datatype PartResult = Received(info: Info) | Refused(error: PartError)

  /** The part is received exactly when the body has the expected length, arrives unbroken, fits its
      destination and is accepted; what reached the destination and the hash is then the body, and never
      more of it than one byte beyond the expected length. */
  method StreamPart(body: bytes, broken: bool, room: nat, expected: nat) returns (r: PartResult, written: bytes)
    ensures r.Received? <==> |body| == expected >= 1 && !broken && expected <= room && Inspect(body).Some?
    ensures r.Received? ==> r.info == Inspect(body).value && written == body
    ensures expected >= 1 ==> written == body[..Min(Min(|body|, expected + 1), room)]
    ensures expected >= 1 && r == Refused(BadSize) ==> |body| != expected
    ensures expected >= 1 && room < Min(|body|, expected + 1) ==> r == Refused(StreamFailed)
  {
    if expected < 1 {
      return Refused(BadSize), [];
    }
    var stream := new Stream(body, broken, expected + 1, room);
    var info := InspectComplete(stream, expected);
    var failed := stream.Drain();
    written := stream.written;
    if failed {
      return Refused(StreamFailed), written;
    }
    if |written| != expected {
      return Refused(BadSize), written;
    }
    assert body[..expected] == body;
    r := if info == None then Refused(NotWebP) else Received(info.value);
  }

  // ----- The prefix parser -----

  /** One chunk of the prefix parser, which sees only the beginning of a file: the information after
      it, and whether the parser stops there. */
  datatype Glance = Bad | More(info: Info) | Stop(info: Info)

  function GlanceAt(b: bytes, offset: nat, info: Info): Glance
    requires offset + 8 <= |b|
  {
    var code, size, payload := b[offset..offset + 4], Uint32(b[offset + 4..offset + 8]), offset + 8;
    if code == VP8X then
      if size < 10 || payload + 10 > |b| then Bad
      else
        Shown(Info(Uint24(b[payload + 4..payload + 7]) + 1, Uint24(b[payload + 7..payload + 10]) + 1,
                   b[payload] / 2 % 2 == 1), true)
    else if code == VP8 then
      if size < 10 || payload + 10 > |b| || b[payload + 3] != 0x9d || b[payload + 4] != 0x01 ||
        b[payload + 5] != 0x2a then Bad
      else
        Shown(info.(width := Uint16(b[payload + 6..payload + 8]) % 0x4000,
                    height := Uint16(b[payload + 8..payload + 10]) % 0x4000), false)
    else if code == VP8L then
      if size < 5 || payload + 5 > |b| || b[payload] != 0x2f then Bad
      else
        var bits := Uint32(b[payload + 1..payload + 5]);
        Shown(info.(width := bits % 0x4000 + 1, height := bits / 0x4000 % 0x4000 + 1), false)
    else if code == ANIM || code == ANMF then More(info.(animated := true))
    else More(info)
  }

  /** After a canvas or a frame the parser stops once it has both sides, but goes on from a still canvas. */
  function Shown(info: Info, canvas: bool): Glance
  {
    if info.width > 0 && info.height > 0 && (info.animated || !canvas) then Stop(info) else More(info)
  }

  function GlanceFrom(b: bytes, offset: nat, info: Info): Option<Info>
    decreases |b| - offset
  {
    if offset + 8 > |b| then if info.width > 0 && info.height > 0 then Some(info) else None
    else
      match GlanceAt(b, offset, info)
      case Bad => None
      case Stop(found) => Some(found)
      case More(next) => GlanceFrom(b, Following(b, offset), next)
  }

  predicate PrefixHeader(b: bytes)
  {
    |b| >= 20 && b[..4] == RIFF && b[8..12] == WEBP
  }

  function Glimpse(b: bytes): Option<Info>
  {
    if !PrefixHeader(b) then None else GlanceFrom(b, 12, Info(0, 0, false))
  }

  method InspectPrefix(b: bytes) returns (r: Option<Info>)
    ensures r == Glimpse(b)
  {
    if |b| < 20 || b[..4] != RIFF || b[8..12] != WEBP {
      return None;
    }
    var info, offset := Info(0, 0, false), 12;
    while offset + 8 <= |b|
      invariant Glimpse(b) == GlanceFrom(b, offset, info)
      decreases |b| - offset
    {
      var glance := GlanceAt(b, offset, info);
      match glance {
        case Bad => return None;
        case Stop(found) => return Some(found);
        case More(next) => info := next;
      }
      offset := Following(b, offset);
    }
    r := if info.width > 0 && info.height > 0 then Some(info) else None;
  }

  // ----- The two parsers agree on still images -----

  ghost predicate Continues(b: bytes, offset: nat, cs: seq<Chunk>, n: nat)
  {
    n <= |cs| && AllSized(cs) && 12 <= offset <= |b| && b[offset..] == SerialiseAll(cs[n..])
  }

  lemma ContinuesAt(b: bytes, offset: nat, cs: seq<Chunk>, n: nat)
    requires Continues(b, offset, cs, n) && n < |cs|
    ensures offset + 8 <= |b| && Following(b, offset) <= |b| && ChunkAt(b, offset) == cs[n]
    ensures Continues(b, Following(b, offset), cs, n + 1)
  {
    var c, rest := cs[n], SerialiseAll(cs[n + 1..]);
    assert cs[n..][0] == c && cs[n..][1..] == cs[n + 1..];
    assert b[offset..] == Serialise(c) + rest;
    FirstOfSerialised(c, rest);
    FirstAt(b, offset, Uint32(b[offset + 4..offset + 8]));
  }

  lemma PayloadSlice(b: bytes, start: nat, i: nat, j: nat)
    requires start + 8 <= |b| && Following(b, start) <= |b| && i <= j <= Uint32(b[start + 4..start + 8])
    ensures ChunkAt(b, start).payload[i..j] == b[start + 8 + i..start + 8 + j]
  {
    SubSlice(b, start + 8, start + 8 + Uint32(b[start + 4..start + 8]), i, j);
  }

  /** What the prefix parser makes of a chunk that the grammar allows. */
  lemma GlanceIs(b: bytes, offset: nat, info: Info)
    requires offset + 8 <= |b| && Following(b, offset) <= |b|
    ensures var c := ChunkAt(b, offset);
            (IsFrame(c) && FrameHeader(c) ==>
               GlanceAt(b, offset, info) == Shown(info.(width := FrameWidth(c), height := FrameHeight(c)), false)) &&
            (c.code == VP8X && CanvasHeader(c) ==>
               GlanceAt(b, offset, info) == Shown(Info(CanvasWidth(c), CanvasHeight(c), AnimationFlag(c)), true)) &&
            (!IsFrame(c) && c.code != VP8X && c.code != ANIM && c.code != ANMF ==>
             GlanceAt(b, offset, info) == More(info))
  {
    var c, payload := ChunkAt(b, offset), offset + 8;
    if c.code == VP8X && CanvasHeader(c) {
      PayloadSlice(b, offset, 4, 7);
      PayloadSlice(b, offset, 7, 10);
    }
    if c.code == VP8 && FrameHeader(c) {
      PayloadSlice(b, offset, 3, 6);
      assert b[payload + 3..payload + 6] == [b[payload + 3], b[payload + 4], b[payload + 5]];
      PayloadSlice(b, offset, 6, 8);
      PayloadSlice(b, offset, 8, 10);
    }
    if c.code == VP8L && FrameHeader(c) {
      PayloadSlice(b, offset, 1, 5);
    }
  }

  lemma GlanceStops(b: bytes, offset: nat, info: Info)
    requires offset + 8 <= |b| && Following(b, offset) <= |b| && Visible(ChunkAt(b, offset)) && !info.animated
    ensures var c := ChunkAt(b, offset); GlanceAt(b, offset, info) == Stop(Info(FrameWidth(c), FrameHeight(c), false))
  {
    GlanceIs(b, offset, info);
  }

  lemma GlancePasses(b: bytes, offset: nat, cs: seq<Chunk>, n: nat, i: nat, info: Info)
    requires offset + 8 <= |b| && Following(b, offset) <= |b| && !info.animated
    requires WellFormed(cs) && !Animated(cs) && n < i && ShowsAt(cs, i) && ChunkAt(b, offset) == cs[n]
    ensures GlanceAt(b, offset, info).More? && !GlanceAt(b, offset, info).info.animated
  {
    GlanceIs(b, offset, info);
    StillChunk(cs, n, i);
  }

  lemma {:induction false} GlanceFinds(b: bytes, offset: nat, cs: seq<Chunk>, n: nat, i: nat, info: Info)
    requires Continues(b, offset, cs, n) && WellFormed(cs) && !Animated(cs) && n <= i && ShowsAt(cs, i)
    requires !info.animated
    ensures GlanceFrom(b, offset, info) == Some(Info(FrameWidth(cs[i]), FrameHeight(cs[i]), false))
    decreases i - n
  {
    ContinuesAt(b, offset, cs, n);
    if n == i {
      GlanceStops(b, offset, info);
    } else {
      GlancePasses(b, offset, cs, n, i, info);
      GlanceFinds(b, Following(b, offset), cs, n + 1, i, GlanceAt(b, offset, info).info);
    }
  }

  /** Before the visible frame of a still image come a still canvas, invisible frames and other chunks. */
  lemma StillChunk(cs: seq<Chunk>, n: nat, i: nat)
    requires WellFormed(cs) && !Animated(cs) && n < i && ShowsAt(cs, i)
    ensures IsFrame(cs[n]) ==> FrameHeader(cs[n]) && !Visible(cs[n])
    ensures cs[n].code == VP8X ==> CanvasHeader(cs[n]) && !AnimationFlag(cs[n])
    ensures cs[n].code != ANIM && cs[n].code != ANMF
  {
    if IsFrame(cs[n]) {
      assert IsFrame(cs[i]);
    }
  }

  /** Whenever the complete validator returns a still image, the prefix parser returns the same. */
  lemma ParsersAgree(b: bytes)
    requires Inspect(b).Some? && !Inspect(b).value.animated
    ensures Glimpse(b) == Inspect(b)
  {
    var cs := Split(b[12..]).value;
    var i: nat :| ShowsAt(cs, i) &&
      if Extended(cs) then FrameWidth(cs[i]) == CanvasWidth(cs[0]) && FrameHeight(cs[i]) == CanvasHeight(cs[0])
      else |cs| == 1;
    assert cs[0..] == cs;
    GlanceFinds(b, 12, cs, 0, i, Info(0, 0, false));
  }
}

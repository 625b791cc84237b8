/** Wire formats: the 38-byte tunnel header between relay and PC, and the
    12-byte data-plane header between PC and phone. The Rust and Kotlin codecs
    of the same bytes are modelled separately and proved to agree. */
module Codec {
  import opened Basics

  const TUNNEL_HEADER_LEN := 38
  const UUID_LEN := 36
  const TF_OPEN: byte := 1
  const TF_CLOSE: byte := 2
  const TF_DATA: byte := 3

  const FRAME_HEADER_LEN := 12
  const VIDEO: byte := 1
  const AUDIO: byte := 2
  const FILE: byte := 3
  const KEYFRAME: byte := 1
  const CONFIG: byte := 2
  const LAST_CHUNK: byte := 1

  // ---------------------------------------------------------------- tunnel

  datatype TunnelFrame =
    | ClientOpen(clientId: seq<byte>)
    | ClientClose(clientId: seq<byte>)
    | Data(clientId: seq<byte>, text: bool, payload: seq<byte>)

  /** Well-formed UTF-8 (table 3-7 of the Unicode Standard). */
  predicate ValidUtf8(b: seq<byte>)
  {
    if b == [] then true
    else if b[0] < 0x80 then ValidUtf8(b[1..])
    else if 0xC2 <= b[0] <= 0xDF then
      |b| >= 2 && Continuation(b[1]) && ValidUtf8(b[2..])
    else if 0xE0 <= b[0] <= 0xEF then
      && |b| >= 3 && Continuation(b[1]) && Continuation(b[2])
      && (b[0] == 0xE0 ==> 0xA0 <= b[1]) && (b[0] == 0xED ==> b[1] <= 0x9F)
      && ValidUtf8(b[3..])
    else if 0xF0 <= b[0] <= 0xF4 then
      && |b| >= 4 && Continuation(b[1]) && Continuation(b[2]) && Continuation(b[3])
      && (b[0] == 0xF0 ==> 0x90 <= b[1]) && (b[0] == 0xF4 ==> b[1] <= 0x8F)
      && ValidUtf8(b[4..])
    else false
  }

  predicate Continuation(b: byte) { 0x80 <= b <= 0xBF }

  lemma {:induction false} AsciiIsUtf8(b: seq<byte>)
    requires forall i | 0 <= i < |b| :: b[i] < 0x80
    ensures ValidUtf8(b)
  {
    if b != [] {
      AsciiIsUtf8(b[1..]);
    }
  }

  /** Exactly 36 bytes: the id cut to 36, padded with '0' when shorter. */
  function Uuid36(id: seq<byte>): (r: seq<byte>)
    ensures |r| == UUID_LEN
  {
    seq(UUID_LEN, i requires 0 <= i < UUID_LEN => if i < |id| then id[i] else 48)
  }

  function Tag(f: TunnelFrame): byte
  {
    match f
    case ClientOpen(_) => TF_OPEN
    case ClientClose(_) => TF_CLOSE
    case Data(_, _, _) => TF_DATA
  }

  function Layout(f: TunnelFrame): seq<byte>
  {
    [Tag(f)] + Uuid36(f.clientId) +
    if f.Data? then [if f.text then 1 else 0] + f.payload else [0]
  }

  method PushUuid(buf: seq<byte>, uuid: seq<byte>) returns (out: seq<byte>)
    ensures out == buf + Uuid36(uuid)
  {
    var bytes := new byte[UUID_LEN](_ => 48);
    var n := Min(|uuid|, UUID_LEN);
    forall i | 0 <= i < n {
      bytes[i] := uuid[i];
    }
    out := buf + bytes[..];
    assert bytes[..] == Uuid36(uuid);
  }

  method Encode(f: TunnelFrame) returns (buf: seq<byte>)
    ensures buf == Layout(f)
  {
    buf := [Tag(f)];
    buf := PushUuid(buf, f.clientId);
    match f
    case ClientOpen(_) => buf := buf + [0];
    case ClientClose(_) => buf := buf + [0];
    case Data(_, text, payload) =>
      buf := buf + [if text then 1 else 0];
      buf := buf + payload;
  }

  function Decode(bytes: seq<byte>): Option<TunnelFrame>
  {
    if |bytes| < TUNNEL_HEADER_LEN then None
    else if !ValidUtf8(bytes[1..37]) then None
    else
      var id := bytes[1..37];
      if bytes[0] == TF_OPEN then Some(ClientOpen(id))
      else if bytes[0] == TF_CLOSE then Some(ClientClose(id))
      else if bytes[0] == TF_DATA then Some(Data(id, bytes[37] != 0, bytes[TUNNEL_HEADER_LEN..]))
      else None
  }

  /** The peer decodes exactly what was encoded, and that needs exactly a 36-byte
      UTF-8 id: any other id comes back padded, cut, or not at all. */
  lemma TunnelRoundTrip(f: TunnelFrame)
    ensures Decode(Layout(f)) == Some(f) <==> |f.clientId| == UUID_LEN && ValidUtf8(f.clientId)
  {
    var b := Layout(f);
    assert b[1..37] == Uuid36(f.clientId);
    assert |f.clientId| == UUID_LEN ==> Uuid36(f.clientId) == f.clientId;
    if f.Data? {
      assert b[TUNNEL_HEADER_LEN..] == f.payload;
    }
  }

  // ------------------------------------------------------- data-plane frames

  /** Little-endian bytes of a 32-bit word. */
  function Le32(x: u32): (r: seq<byte>)
    ensures |r| == 4
  {
    [x % 0x100, x / 0x100 % 0x100, x / 0x1_0000 % 0x100, x / 0x100_0000]
  }

  function Word(b0: int, b1: int, b2: int, b3: int): int
  {
    b0 + 0x100 * b1 + 0x1_0000 * b2 + 0x100_0000 * b3
  }

  function FromLe32(b: seq<byte>): (x: u32)
    requires |b| == 4
  {
    Word(b[0], b[1], b[2], b[3])
  }

  lemma Le32RoundTrip(x: u32)
    ensures FromLe32(Le32(x)) == x
  {
    var a, b := x / 0x100, x / 0x1_0000;
    assert x == 0x100 * a + x % 0x100;
    assert a == 0x100 * (a / 0x100) + a % 0x100;
    assert b == 0x100 * (b / 0x100) + b % 0x100;
    assert a / 0x100 == b && b / 0x100 == x / 0x100_0000;
  }

  function FileFrame(id: u32, chunk: u32, last: bool, payload: seq<byte>): seq<byte>
  {
    [FILE, if last then LAST_CHUNK else 0, 0, 0] + Le32(id) + Le32(chunk) + payload
  }

  /** PC side (protocol.rs). */
  method BuildFileChunkFrame(id: u32, chunk: u32, last: bool, payload: seq<byte>) returns (out: seq<byte>)
    ensures out == FileFrame(id, chunk, last, payload)
  {
    out := [FILE];
    out := out + [if last then LAST_CHUNK else 0];
    out := out + [0, 0];
    out := out + Le32(id);
    out := out + Le32(chunk);
    out := out + payload;
  }

  /** Four `ushr k and 0xFF` stores. A Kotlin Int is modelled by its 32-bit pattern,
      so shifting divides. */
  method PutLe32(out: array<byte>, off: nat, x: u32)
    requires off + 4 <= out.Length
    modifies out
    ensures out[..] == old(out[..off]) + Le32(x) + old(out[off + 4..])
  {
    out[off] := x % 0x100;
    out[off + 1] := x / 0x100 % 0x100;
    out[off + 2] := x / 0x1_0000 % 0x100;
    out[off + 3] := x / 0x100_0000 % 0x100;
  }

  /** Phone side (Protocol.kt). */
  method KtBuildFileChunkFrame(id: u32, chunk: u32, last: bool, payload: seq<byte>) returns (out: array<byte>)
    ensures fresh(out) && out[..] == FileFrame(id, chunk, last, payload)
  {
    hide Le32;
    out := new byte[FRAME_HEADER_LEN + |payload|](_ => 0);
    out[0] := FILE;
    out[1] := if last then LAST_CHUNK else 0;
    PutLe32(out, 4, id);
    PutLe32(out, 8, chunk);
    ghost var head := [FILE, if last then LAST_CHUNK else 0, 0, 0] + Le32(id) + Le32(chunk);
    assert out[..FRAME_HEADER_LEN] == head;
    CopyPayload(out, payload);
    assert out[..] == out[..FRAME_HEADER_LEN] + out[FRAME_HEADER_LEN..];
  }

  method CopyPayload(out: array<byte>, payload: seq<byte>)
    requires out.Length == FRAME_HEADER_LEN + |payload|
    modifies out
    ensures out[..FRAME_HEADER_LEN] == old(out[..FRAME_HEADER_LEN]) && out[FRAME_HEADER_LEN..] == payload
  {
    forall k | 0 <= k < |payload| {
      out[FRAME_HEADER_LEN + k] := payload[k];
    }
  }

  datatype Chunk = Chunk(id: u32, chunk: u32, last: bool, payload: seq<byte>)

  function PeekFrameHeader(buf: seq<byte>): Option<(byte, byte)>
  {
    if |buf| < FRAME_HEADER_LEN then None else Some((buf[0], buf[1]))
  }

  /** PC side decoder. */
  function ParseFileChunk(buf: seq<byte>): Option<Chunk>
  {
    if |buf| < FRAME_HEADER_LEN then None
    else Some(Chunk(FromLe32(buf[4..8]), FromLe32(buf[8..12]), buf[1] % 2 == 1, buf[FRAME_HEADER_LEN..]))
  }

  datatype VideoFrame = VideoFrame(kind: byte, isKeyframe: bool, hasConfig: bool, pts: nat, payload: seq<byte>)

  function Pow256(n: nat): (p: nat)
    ensures p >= 1
  {
    if n == 0 then 1 else 0x100 * Pow256(n - 1)
  }

  lemma ScaledByte(b: int, p: nat)
    requires 0 <= b < 0x100
    ensures 0 <= b * p <= 0xFF * p
  {
  }

  function LongLe(b: seq<byte>, n: nat): (v: nat)
    requires n <= |b|
    ensures v < Pow256(n)
  {
    if n == 0 then 0
    else
      ScaledByte(b[n - 1], Pow256(n - 1));
      LongLe(b, n - 1) + (b[n - 1] as int) * Pow256(n - 1)
  }

  /** The Kotlin loop that ORs eight shifted bytes into a Long. The bits already in
      `v` are below the shifted byte, so the OR is a sum. */
  method ReadLongLe(b: seq<byte>, off: nat) returns (v: nat)
    requires off + 8 <= |b|
    ensures v == LongLe(b[off..off + 8], 8)
  {
    v := 0;
    for i := 0 to 8
      invariant v == LongLe(b[off..off + 8], i)
    {
      v := v + (b[off + i] as int) * Pow256(i);
      assert v == LongLe(b[off..off + 8], i + 1);
    }
  }

  /** FrameParser.parse. */
  function KtParse(bytes: seq<byte>): Option<VideoFrame>
  {
    if |bytes| < FRAME_HEADER_LEN then None
    else Some(VideoFrame(bytes[0], bytes[1] % 2 == 1, bytes[1] / 2 % 2 == 1,
                         LongLe(bytes[4..12], 8), bytes[FRAME_HEADER_LEN..]))
  }

  /** How the phone reads a FILE frame: the two halves of the 64-bit PTS are the
      transfer id and the chunk number, the keyframe bit is LAST_CHUNK. */
  function KtChunk(f: VideoFrame): Chunk
  {
    Chunk(f.pts % TWO32, f.pts / TWO32 % TWO32, f.isKeyframe, f.payload)
  }

  lemma LongLeSplits(b: seq<byte>)
    requires |b| == 8
    ensures LongLe(b, 8) == FromLe32(b[..4]) + TWO32 * FromLe32(b[4..])
  {
    assert Pow256(0) == 1;
    assert Pow256(1) == 0x100;
    assert Pow256(2) == 0x1_0000;
    assert Pow256(3) == 0x100_0000;
    assert Pow256(4) == TWO32;
    assert Pow256(5) == 0x100 * TWO32;
    assert Pow256(6) == 0x1_0000 * TWO32;
    assert Pow256(7) == 0x100_0000 * TWO32;
    assert LongLe(b, 1) == b[0];
    assert LongLe(b, 2) == b[0] + 0x100 * (b[1] as int);
    assert LongLe(b, 4) == FromLe32(b[..4]);
    assert LongLe(b, 6) == LongLe(b, 4) + TWO32 * (b[4] as int) + 0x100 * TWO32 * (b[5] as int);
    assert LongLe(b, 8) == LongLe(b, 6) + 0x1_0000 * TWO32 * (b[6] as int) + 0x100_0000 * TWO32 * (b[7] as int);
  }

  lemma LongLeOfWords(lo: u32, hi: u32)
    ensures LongLe(Le32(lo) + Le32(hi), 8) == lo + TWO32 * hi
  {
    var l, h := Le32(lo), Le32(hi);
    assert (l + h)[..4] == l && (l + h)[4..] == h;
    LongLeSplits(l + h);
    Le32RoundTrip(lo);
    Le32RoundTrip(hi);
  }

  /** Splitting the PTS undoes the two little-endian words. */
  lemma HalvesOf(lo: u32, hi: u32)
    ensures (lo + TWO32 * hi) % TWO32 == lo
    ensures (lo + TWO32 * hi) / TWO32 % TWO32 == hi
  {
    assert (lo + TWO32 * hi) / TWO32 == hi;
  }

  /** On any bytes at all, the phone's decoder and the PC's read the same chunk. */
  lemma DecodersAgree(b: seq<byte>)
    ensures ParseFileChunk(b).Some? <==> KtParse(b).Some?
    ensures KtParse(b).Some? ==> KtChunk(KtParse(b).value) == ParseFileChunk(b).value
  {
    if |b| >= FRAME_HEADER_LEN {
      LongLeSplits(b[4..12]);
      assert b[4..12][..4] == b[4..8] && b[4..12][4..] == b[8..12];
      HalvesOf(FromLe32(b[4..8]), FromLe32(b[8..12]));
    }
  }

  /** The Rust decoder returns what either builder was given. */
  lemma RustDecodesFile(id: u32, chunk: u32, last: bool, payload: seq<byte>)
    ensures ParseFileChunk(FileFrame(id, chunk, last, payload)) == Some(Chunk(id, chunk, last, payload))
  {
    var f := FileFrame(id, chunk, last, payload);
    assert f[4..8] == Le32(id) && f[8..12] == Le32(chunk);
    assert f[FRAME_HEADER_LEN..] == payload;
    Le32RoundTrip(id);
    Le32RoundTrip(chunk);
  }

  /** The phone's generic frame parser plus the PTS split return them too. */
  lemma KotlinDecodesFile(id: u32, chunk: u32, last: bool, payload: seq<byte>)
    ensures var r := KtParse(FileFrame(id, chunk, last, payload));
            r.Some? && r.value.kind == FILE && KtChunk(r.value) == Chunk(id, chunk, last, payload)
  {
    var f := FileFrame(id, chunk, last, payload);
    assert f[FRAME_HEADER_LEN..] == payload && f[4..12] == Le32(id) + Le32(chunk);
    LongLeOfWords(id, chunk);
    HalvesOf(id, chunk);
  }

  /** A PC-built file chunk that crosses the tunnel decodes on the phone to exactly
      what the sender passed in; a phone-built one decodes so on the PC. */
  lemma NestedRoundTrip(client: seq<byte>, id: u32, chunk: u32, last: bool, payload: seq<byte>)
    requires |client| == UUID_LEN && forall i | 0 <= i < |client| :: client[i] < 0x80
    ensures var wire := Layout(Data(client, false, FileFrame(id, chunk, last, payload)));
            && Decode(wire).Some? && Decode(wire).value.Data?
            && Decode(wire).value.clientId == client && !Decode(wire).value.text
            && ParseFileChunk(Decode(wire).value.payload) == Some(Chunk(id, chunk, last, payload))
            && KtParse(Decode(wire).value.payload).Some?
            && KtParse(Decode(wire).value.payload).value.kind == FILE
            && KtChunk(KtParse(Decode(wire).value.payload).value) == Chunk(id, chunk, last, payload)
  {
    AsciiIsUtf8(client);
    TunnelRoundTrip(Data(client, false, FileFrame(id, chunk, last, payload)));
    RustDecodesFile(id, chunk, last, payload);
    KotlinDecodesFile(id, chunk, last, payload);
  }

  function Le64(pts: nat): seq<byte>
  {
    Le32(pts % TWO32) + Le32(pts / TWO32 % TWO32)
  }

  method BuildVideoFrame(payload: seq<byte>, pts: nat, keyframe: bool, hasConfig: bool) returns (out: seq<byte>)
    requires pts < TWO32 * TWO32
    ensures KtParse(out) == Some(VideoFrame(VIDEO, keyframe, hasConfig, pts, payload))
  {
    out := [VIDEO];
    var flags := 0;
    if keyframe {
      flags := flags + KEYFRAME;
    }
    if hasConfig {
      flags := flags + CONFIG;
    }
    out := out + [flags];
    out := out + [0, 0];
    out := out + Le64(pts);
    out := out + payload;
    LongLeOfLe64(pts);
    assert out[4..12] == Le64(pts) && out[FRAME_HEADER_LEN..] == payload;
  }

  method BuildAudioFrame(payload: seq<byte>, pts: nat) returns (out: seq<byte>)
    requires pts < TWO32 * TWO32
    ensures KtParse(out) == Some(VideoFrame(AUDIO, false, false, pts, payload))
  {
    out := [AUDIO];
    out := out + [0];
    out := out + [0, 0];
    out := out + Le64(pts);
    out := out + payload;
    LongLeOfLe64(pts);
    assert out[4..12] == Le64(pts) && out[FRAME_HEADER_LEN..] == payload;
  }

  lemma LongLeOfLe64(pts: nat)
    requires pts < TWO32 * TWO32
    ensures LongLe(Le64(pts), 8) == pts
  {
    hide LongLe;
    hide Le32;
    assert pts / TWO32 < TWO32;
    LongLeOfWords(pts % TWO32, pts / TWO32);
  }
}

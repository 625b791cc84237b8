/** BGRA to NV12 (BT.601 limited range) on arrays, and the row packing of the resizer. */
module Nv12 {
  import opened Basics

  // -------------------------------------------------------------------- layout

  /** Position `x` of row `y` in rows of `w`. */
  function Idx(w: nat, x: nat, y: nat): nat { y * w + x }

  function At(s: seq<byte>, i: nat): byte { if i < |s| then s[i] else 0 }

  lemma Times(a: nat, b: nat, c: nat)
    requires a <= b
    ensures a * c <= b * c
  {
  }

  lemma RowStarts(w: nat, y: nat)
    ensures Idx(w, 0, 0) == 0 && Idx(w, 0, y + 1) == Idx(w, 0, y) + w
    ensures forall x: nat :: Idx(w, x, y) == Idx(w, 0, y) + x
  {
  }

  /** Cells of an earlier row, or of the rows before `rows`, come before its start. */
  lemma RowBefore(w: nat, y: nat, rows: nat)
    requires y < rows
    ensures Idx(w, 0, y) + w <= Idx(w, 0, rows)
  {
    Times(y + 1, rows, w);
  }

  lemma CellsBefore(w: nat, rows: nat)
    ensures forall x: nat, y: nat | x < w && y < rows :: Idx(w, x, y) < Idx(w, 0, rows)
  {
    forall x: nat, y: nat | x < w && y < rows ensures Idx(w, x, y) < Idx(w, 0, rows) {
      RowBefore(w, y, rows);
    }
  }

  /** Every position below `rows` full rows is a cell. */
  lemma CellOf(w: nat, rows: nat, i: nat) returns (x: nat, y: nat)
    requires i < Idx(w, 0, rows)
    ensures x < w && y < rows && i == Idx(w, x, y)
  {
    assert w > 0;
    x, y := i % w, i / w;
    assert i == i / w * w + i % w;
    if y >= rows {
      Times(rows, y, w);
    }
  }

  // -------------------------------------------------------------- specification

  /** Channel `c` (0 blue, 1 green, 2 red) of the pixel at (x, y). */
  function Px(src: seq<byte>, stride: nat, x: nat, y: nat, c: nat): byte { At(src, Idx(stride, 4 * x + c, y)) }

  /** Every row slice `y * stride .. y * stride + 4 w` lies inside the frame. */
  ghost predicate InFrame(src: seq<byte>, stride: nat, w: nat, h: nat)
  {
    forall y: nat | y < h :: Idx(stride, 0, y) + 4 * w <= |src|
  }

  function Clamp(v: int): byte { if v < 0 then 0 else if v > 255 then 255 else v }

  // `>> 8` on i32 rounds down, as does `/ 256` here.
  function Luma(b: int, g: int, r: int): int { (66 * r + 129 * g + 25 * b + 128) / 256 + 16 }

  function ChromaU(b: int, g: int, r: int): int { (-38 * r - 74 * g + 112 * b + 128) / 256 + 128 }

  function ChromaV(b: int, g: int, r: int): int { (112 * r - 94 * g - 18 * b + 128) / 256 + 128 }

  // Sections 2.5.1 to 2.5.3 of ITU-R BT.601: luma from the three primaries, color
  // differences normalized by 2 (1 - 0.114) and 2 (1 - 0.299), and their 8-bit levels.

  function Luminance(b: int, g: int, r: int): real { 0.299 * r as real + 0.587 * g as real + 0.114 * b as real }

  function StandardY(b: int, g: int, r: int): real { 16.0 + 219.0 * (Luminance(b, g, r) / 255.0) }

  function StandardCb(b: int, g: int, r: int): real
  {
    128.0 + 224.0 * ((b as real - Luminance(b, g, r)) / 1.772 / 255.0)
  }

  function StandardCr(b: int, g: int, r: int): real
  {
    128.0 + 224.0 * ((r as real - Luminance(b, g, r)) / 1.402 / 255.0)
  }

  predicate WithinOne(v: int, x: real) { x - 1.0 < v as real < x + 1.0 }

  /** For every color the integer formulas are within one level of the standard's. */
  lemma MeetsBt601(b: byte, g: byte, r: byte)
    ensures WithinOne(Luma(b, g, r), StandardY(b, g, r))
    ensures WithinOne(ChromaU(b, g, r), StandardCb(b, g, r))
    ensures WithinOne(ChromaV(b, g, r), StandardCr(b, g, r))
  {
    MeetsY(b, g, r);
    MeetsCb(b, g, r);
    MeetsCr(b, g, r);
  }

  lemma MeetsY(b: byte, g: byte, r: byte)
    ensures WithinOne(Luma(b, g, r), StandardY(b, g, r))
  {
    var n := 66 * r + 129 * g + 25 * b + 128;
    assert n - 256 < 256 * (Luma(b, g, r) - 16) <= n;
  }

  lemma MeetsCb(b: byte, g: byte, r: byte)
    ensures WithinOne(ChromaU(b, g, r), StandardCb(b, g, r))
  {
    var n := -38 * r - 74 * g + 112 * b + 128;
    assert n - 256 < 256 * (ChromaU(b, g, r) - 128) <= n;
  }

  lemma MeetsCr(b: byte, g: byte, r: byte)
    ensures WithinOne(ChromaV(b, g, r), StandardCr(b, g, r))
  {
    var n := 112 * r - 94 * g - 18 * b + 128;
    assert n - 256 < 256 * (ChromaV(b, g, r) - 128) <= n;
  }

  /** Section 2.5.3 of ITU-R BT.601: luma stays in 16..235 and chroma in 16..240, so the
      clamps never fire. */
  lemma VideoRange(b: byte, g: byte, r: byte)
    ensures 16 <= Luma(b, g, r) <= 235 && Clamp(Luma(b, g, r)) == Luma(b, g, r)
    ensures 16 <= ChromaU(b, g, r) <= 240 && Clamp(ChromaU(b, g, r)) == ChromaU(b, g, r)
    ensures 16 <= ChromaV(b, g, r) <= 240 && Clamp(ChromaV(b, g, r)) == ChromaV(b, g, r)
  {
    assert -28560 <= -38 * r - 74 * g + 112 * b <= 28560;
    assert -28560 <= 112 * r - 94 * g - 18 * b <= 28560;
  }

  /** Grays carry no color; black and white are the ends of the range. */
  lemma GraysAreNeutral(v: byte)
    ensures ChromaU(v, v, v) == 128 && ChromaV(v, v, v) == 128
    ensures v == 0 ==> Luma(v, v, v) == 16
    ensures v == 255 ==> Luma(v, v, v) == 235
  {
  }

  function LumaAt(src: seq<byte>, stride: nat, x: nat, y: nat): byte
  {
    Clamp(Luma(Px(src, stride, x, y, 0), Px(src, stride, x, y, 1), Px(src, stride, x, y, 2)))
  }

  /** Mean of channel `c` over the 2x2 block whose corner is (x, y). */
  function Mean(src: seq<byte>, stride: nat, x: nat, y: nat, c: nat): byte
  {
    (Px(src, stride, x, y, c) + Px(src, stride, x + 1, y, c) +
     Px(src, stride, x, y + 1, c) + Px(src, stride, x + 1, y + 1, c)) / 4
  }

  /** Column `x` of chroma row `v`: U and V of each block, interleaved. */
  function ChromaAt(src: seq<byte>, stride: nat, x: nat, v: nat): byte
  {
    var cx := x / 2 * 2;
    var b, g, r := Mean(src, stride, cx, 2 * v, 0), Mean(src, stride, cx, 2 * v, 1), Mean(src, stride, cx, 2 * v, 2);
    Clamp(if x % 2 == 0 then ChromaU(b, g, r) else ChromaV(b, g, r))
  }

  /** `out` starts with the luma plane and then the chroma plane of the frame. */
  ghost predicate IsNv12(src: seq<byte>, stride: nat, w: nat, h: nat, out: seq<byte>)
  {
    && (forall x: nat, y: nat | x < w && y < h :: At(out, Idx(w, x, y)) == LumaAt(src, stride, x, y))
    && (forall x: nat, v: nat | x < w && v < h / 2 :: At(out, Idx(w, 0, h) + Idx(w, x, v)) == ChromaAt(src, stride, x, v))
  }

  function Size(w: nat, h: nat): nat { Idx(w, 0, h) + Idx(w, 0, h / 2) }

  lemma SizeIs(w: nat, h: nat)
    requires h % 2 == 0
    ensures Size(w, h) == w * h * 3 / 2
  {
    var k := h / 2;
    assert h * w == 2 * (k * w) && w * h == h * w;
  }

  /** The specification pins down every one of the w * h * 3 / 2 bytes, and each is a
      legal video sample. */
  lemma Determined(src: seq<byte>, stride: nat, w: nat, h: nat, a: seq<byte>, b: seq<byte>, i: nat)
    requires IsNv12(src, stride, w, h, a) && IsNv12(src, stride, w, h, b) && i < Size(w, h)
    ensures At(a, i) == At(b, i) && 16 <= At(a, i) <= if i < Idx(w, 0, h) then 235 else 240
  {
    hide Idx;
    hide LumaAt;
    hide ChromaAt;
    if i < Idx(w, 0, h) {
      var x, y := CellOf(w, h, i);
      LumaLegal(src, stride, x, y);
    } else {
      var x, v := CellOf(w, h / 2, i - Idx(w, 0, h));
      ChromaLegal(src, stride, x, v);
    }
  }

  /** `l` is within one level of the standard's luma of the pixel at (x, y). */
  predicate LumaMeets(src: seq<byte>, stride: nat, x: nat, y: nat, l: byte)
  {
    WithinOne(l, StandardY(Px(src, stride, x, y, 0), Px(src, stride, x, y, 1), Px(src, stride, x, y, 2)))
  }

  /** `cb` and `cr` are within one level of the standard's for the mean color of the block. */
  predicate ChromaMeets(src: seq<byte>, stride: nat, x: nat, y: nat, cb: byte, cr: byte)
  {
    var b, g, r := Mean(src, stride, x, y, 0), Mean(src, stride, x, y, 1), Mean(src, stride, x, y, 2);
    WithinOne(cb, StandardCb(b, g, r)) && WithinOne(cr, StandardCr(b, g, r))
  }

  /** A frame converted is the frame in BT.601, every pixel of it and every block. */
  lemma FrameMeetsBt601(src: seq<byte>, stride: nat, w: nat, h: nat, out: seq<byte>)
    requires IsNv12(src, stride, w, h, out)
    ensures forall x: nat, y: nat | x < w && y < h :: LumaMeets(src, stride, x, y, At(out, Idx(w, x, y)))
    ensures var base := Idx(w, 0, h);
            forall k: nat, v: nat | 2 * k + 1 < w && v < h / 2 ::
              ChromaMeets(src, stride, 2 * k, 2 * v,
                          At(out, base + Idx(w, 2 * k, v)), At(out, base + Idx(w, 2 * k + 1, v)))
  {
    hide Idx, LumaAt, ChromaAt, LumaMeets, ChromaMeets;
    forall x: nat, y: nat | x < w && y < h ensures LumaMeets(src, stride, x, y, At(out, Idx(w, x, y))) {
      PixelMeets(src, stride, x, y);
    }
    forall k: nat, v: nat | 2 * k + 1 < w && v < h / 2
      ensures ChromaMeets(src, stride, 2 * k, 2 * v, ChromaAt(src, stride, 2 * k, v), ChromaAt(src, stride, 2 * k + 1, v))
    {
      BlockMeets(src, stride, k, v);
    }
  }

  lemma PixelMeets(src: seq<byte>, stride: nat, x: nat, y: nat)
    ensures LumaMeets(src, stride, x, y, LumaAt(src, stride, x, y))
  {
    hide StandardY, Luma, WithinOne, Px;
    VideoRange(Px(src, stride, x, y, 0), Px(src, stride, x, y, 1), Px(src, stride, x, y, 2));
    MeetsBt601(Px(src, stride, x, y, 0), Px(src, stride, x, y, 1), Px(src, stride, x, y, 2));
  }

  lemma BlockMeets(src: seq<byte>, stride: nat, k: nat, v: nat)
    ensures ChromaMeets(src, stride, 2 * k, 2 * v, ChromaAt(src, stride, 2 * k, v), ChromaAt(src, stride, 2 * k + 1, v))
  {
    hide StandardCb, StandardCr, ChromaU, ChromaV, WithinOne, Mean;
    var b, g, r := Mean(src, stride, 2 * k, 2 * v, 0), Mean(src, stride, 2 * k, 2 * v, 1), Mean(src, stride, 2 * k, 2 * v, 2);
    assert (2 * k + 1) / 2 * 2 == 2 * k && 2 * k / 2 * 2 == 2 * k;
    VideoRange(b, g, r);
    MeetsBt601(b, g, r);
  }

  lemma LumaLegal(src: seq<byte>, stride: nat, x: nat, y: nat)
    ensures 16 <= LumaAt(src, stride, x, y) <= 235
  {
    VideoRange(Px(src, stride, x, y, 0), Px(src, stride, x, y, 1), Px(src, stride, x, y, 2));
  }

  lemma ChromaLegal(src: seq<byte>, stride: nat, x: nat, v: nat)
    ensures 16 <= ChromaAt(src, stride, x, v) <= 240
  {
    var cx := x / 2 * 2;
    VideoRange(Mean(src, stride, cx, 2 * v, 0), Mean(src, stride, cx, 2 * v, 1), Mean(src, stride, cx, 2 * v, 2));
  }

  // -------------------------------------------------------------------- the code

  method LumaRow(bgra: array<byte>, stride: nat, w: nat, y: nat, out: array<byte>, ghost src: seq<byte>)
    requires src == bgra[..] && bgra != out
    requires y * stride + 4 * w <= bgra.Length && y * w + w <= out.Length
    modifies out
    ensures forall x: nat | x < w :: out[y * w + x] == LumaAt(src, stride, x, y)
    ensures forall i: nat | i < out.Length && !(y * w <= i < y * w + w) :: out[i] == old(out[i])
  {
    var row, dst := y * stride, y * w;
    for x := 0 to w
      invariant forall k: nat | k < x :: out[dst + k] == LumaAt(src, stride, k, y)
      invariant forall i: nat | i < out.Length && !(dst <= i < dst + x) :: out[i] == old(out[i])
    {
      var b: int := bgra[row + x * 4];
      var g: int := bgra[row + x * 4 + 1];
      var r: int := bgra[row + x * 4 + 2];
      var yv: int := (66 * r + 129 * g + 25 * b + 128) / 256 + 16;
      out[dst + x] := Clamp(yv);
    }
  }

  function Sum(src: seq<byte>, stride: nat, x: nat, y: nat, c: nat, k: nat): nat
  {
    if k == 0 then 0
    else Sum(src, stride, x, y, c, k - 1) + Px(src, stride, x + (k - 1) % 2, y + (k - 1) / 2, c)
  }

  lemma SumOfFour(src: seq<byte>, stride: nat, x: nat, y: nat, c: nat)
    ensures Sum(src, stride, x, y, c, 4) / 4 == Mean(src, stride, x, y, c)
  {
    assert Sum(src, stride, x, y, c, 1) == Px(src, stride, x, y, c);
    assert Sum(src, stride, x, y, c, 2) == Px(src, stride, x, y, c) + Px(src, stride, x + 1, y, c);
    assert Sum(src, stride, x, y, c, 3) == Sum(src, stride, x, y, c, 2) + Px(src, stride, x, y + 1, c);
  }

  /** `r0` and `r1` are where the block's two rows start. */
  method BlockMean(bgra: array<byte>, stride: nat, x: nat, y: nat, r0: nat, r1: nat, ghost src: seq<byte>)
    returns (b: int, g: int, r: int)
    requires src == bgra[..] && r0 == y * stride && r1 == (y + 1) * stride
    requires r0 + 4 * x + 8 <= bgra.Length && r1 + 4 * x + 8 <= bgra.Length
    ensures b == Mean(src, stride, x, y, 0) && g == Mean(src, stride, x, y, 1) && r == Mean(src, stride, x, y, 2)
  {
    var sumB, sumG, sumR := 0, 0, 0;
    var corners: seq<(nat, nat)> := [(x, 0), (x + 1, 0), (x, 1), (x + 1, 1)];
    for k := 0 to 4
      invariant sumB == Sum(src, stride, x, y, 0, k)
      invariant sumG == Sum(src, stride, x, y, 1, k)
      invariant sumR == Sum(src, stride, x, y, 2, k)
    {
      var (px, py) := corners[k];
      assert px == x + k % 2 && py == k / 2;
      var row := if py == 0 then r0 else r1;
      assert row == (y + py) * stride;
      sumB := sumB + bgra[row + px * 4] as int;
      sumG := sumG + bgra[row + px * 4 + 1] as int;
      sumR := sumR + bgra[row + px * 4 + 2] as int;
    }
    SumOfFour(src, stride, x, y, 0);
    SumOfFour(src, stride, x, y, 1);
    SumOfFour(src, stride, x, y, 2);
    b, g, r := sumB / 4, sumG / 4, sumR / 4;
  }

  lemma ChromaPair(src: seq<byte>, stride: nat, x: nat, y: nat)
    requires x % 2 == 0 && y % 2 == 0
    ensures var b, g, r := Mean(src, stride, x, y, 0), Mean(src, stride, x, y, 1), Mean(src, stride, x, y, 2);
            && ChromaAt(src, stride, x, y / 2) == Clamp(ChromaU(b, g, r))
            && ChromaAt(src, stride, x + 1, y / 2) == Clamp(ChromaV(b, g, r))
  {
    assert (x + 1) / 2 * 2 == x && 2 * (y / 2) == y;
  }

  lemma ChromaIs(b: int, g: int, r: int)
    ensures ChromaU(b, g, r) == (-38 * r - 74 * g + 112 * b + 128) / 256 + 128
    ensures ChromaV(b, g, r) == (112 * r - 94 * g - 18 * b + 128) / 256 + 128
  {
  }

  method ChromaRow(bgra: array<byte>, stride: nat, w: nat, y: nat, base: nat, out: array<byte>, ghost src: seq<byte>)
    requires src == bgra[..] && bgra != out && w % 2 == 0 && y % 2 == 0
    requires y * stride + 4 * w <= bgra.Length && (y + 1) * stride + 4 * w <= bgra.Length && base + w <= out.Length
    modifies out
    ensures forall x: nat | x < w :: out[base + x] == ChromaAt(src, stride, x, y / 2)
    ensures forall i: nat | i < out.Length && !(base <= i < base + w) :: out[i] == old(out[i])
  {
    hide Mean, Clamp, ChromaAt, ChromaU, ChromaV, Idx, At, Px;
    var x, r0, r1 := 0, y * stride, (y + 1) * stride;
    while x < w
      invariant x <= w && x % 2 == 0
      invariant forall k: nat | k < x :: out[base + k] == ChromaAt(src, stride, k, y / 2)
      invariant forall i: nat | i < out.Length && !(base <= i < base + x) :: out[i] == old(out[i])
    {
      var b, g, r := BlockMean(bgra, stride, x, y, r0, r1, src);
      var u: int := (-38 * r - 74 * g + 112 * b + 128) / 256 + 128;
      var v: int := (112 * r - 94 * g - 18 * b + 128) / 256 + 128;
      ChromaIs(b, g, r);
      out[base + x] := Clamp(u);
      out[base + x + 1] := Clamp(v);
      ChromaPair(src, stride, x, y);
      assert out[base + x] == ChromaAt(src, stride, x, y / 2) && out[base + (x + 1)] == ChromaAt(src, stride, x + 1, y / 2);
      x := x + 2;
    }
  }

  /** The rows of one plane that are done: cell (x, y) at `base + Idx(w, x, y)`. */
  ghost predicate Rows(out: seq<byte>, base: nat, w: nat, rows: nat, cell: (nat, nat) -> byte)
  {
    forall x: nat, y: nat | x < w && y < rows :: At(out, base + Idx(w, x, y)) == cell(x, y)
  }

  lemma NextRow(before: seq<byte>, after: seq<byte>, base: nat, w: nat, y: nat, cell: (nat, nat) -> byte)
    requires Rows(before, base, w, y, cell) && |before| == |after| && base + Idx(w, 0, y) + w <= |after|
    requires forall x: nat | x < w :: after[base + Idx(w, 0, y) + x] == cell(x, y)
    requires forall i: nat | i < base + Idx(w, 0, y) :: after[i] == before[i]
    ensures Rows(after, base, w, y + 1, cell)
  {
    forall x: nat, v: nat | x < w && v < y + 1 ensures At(after, base + Idx(w, x, v)) == cell(x, v) {
      RowStarts(w, v);
      if v < y {
        RowBefore(w, v, y);
      } else {
        assert after[base + Idx(w, 0, y) + x] == cell(x, y);
      }
    }
  }

  lemma KeepRows(before: seq<byte>, after: seq<byte>, w: nat, rows: nat, cell: (nat, nat) -> byte)
    requires Rows(before, 0, w, rows, cell) && |before| == |after| && Idx(w, 0, rows) <= |after|
    requires forall i: nat | i < Idx(w, 0, rows) :: after[i] == before[i]
    ensures Rows(after, 0, w, rows, cell)
  {
    CellsBefore(w, rows);
  }

  method LumaPlane(bgra: array<byte>, stride: nat, w: nat, h: nat, out: array<byte>, ghost src: seq<byte>)
    requires src == bgra[..] && bgra != out && InFrame(src, stride, w, h) && Idx(w, 0, h) <= out.Length
    modifies out
    ensures Rows(out[..], 0, w, h, (x, y) => LumaAt(src, stride, x, y))
    ensures forall i: nat | Idx(w, 0, h) <= i < out.Length :: out[i] == old(out[i])
  {
    hide LumaAt;
    ghost var cell := (x: nat, y: nat) => LumaAt(src, stride, x, y);
    for y := 0 to h
      invariant Rows(out[..], 0, w, y, cell)
      invariant forall i: nat | Idx(w, 0, y) <= i < out.Length :: out[i] == old(out[i])
    {
      RowBefore(w, y, h);
      RowStarts(w, y);
      assert Idx(stride, 0, y) + 4 * w <= |src|;
      ghost var before := out[..];
      LumaRow(bgra, stride, w, y, out, src);
      NextRow(before, out[..], 0, w, y, cell);
    }
  }

  method ChromaPlane(bgra: array<byte>, stride: nat, w: nat, h: nat, out: array<byte>, ghost src: seq<byte>)
    requires src == bgra[..] && bgra != out && InFrame(src, stride, w, h) && w % 2 == 0 && h % 2 == 0
    requires Size(w, h) <= out.Length
    modifies out
    ensures Rows(out[..], Idx(w, 0, h), w, h / 2, (x, v) => ChromaAt(src, stride, x, v))
    ensures forall i: nat | i < out.Length && !(Idx(w, 0, h) <= i < Size(w, h)) :: out[i] == old(out[i])
  {
    hide ChromaAt;
    ghost var cell := (x: nat, v: nat) => ChromaAt(src, stride, x, v);
    var y, start := 0, h * w;
    while y < h
      invariant y <= h && y % 2 == 0
      invariant Rows(out[..], start, w, y / 2, cell)
      invariant forall i: nat | i < out.Length && !(start <= i < start + Idx(w, 0, y / 2)) :: out[i] == old(out[i])
    {
      RowBefore(w, y / 2, h / 2);
      RowStarts(w, y / 2);
      assert Idx(stride, 0, y) + 4 * w <= |src| && Idx(stride, 0, y + 1) + 4 * w <= |src|;
      ghost var before := out[..];
      ChromaRow(bgra, stride, w, y, start + y / 2 * w, out, src);
      NextRow(before, out[..], start, w, y / 2, cell);
      y := y + 2;
    }
  }

  /** bgra_to_nv12: every access is in bounds, the first w * h * 3 / 2 bytes are exactly
      the per-pixel and per-block specification, and the rest is untouched. */
  method BgraToNv12(bgra: array<byte>, stride: nat, w: nat, h: nat, out: array<byte>)
    requires InFrame(bgra[..], stride, w, h) && w % 2 == 0 && h % 2 == 0 && bgra != out && w * h * 3 / 2 <= out.Length
    modifies out
    ensures IsNv12(bgra[..], stride, w, h, out[..]) && Size(w, h) == w * h * 3 / 2
    ensures forall i: nat | Size(w, h) <= i < out.Length :: out[i] == old(out[i])
  {
    hide Idx;
    hide LumaAt;
    hide ChromaAt;
    SizeIs(w, h);
    ghost var src := bgra[..];
    LumaPlane(bgra, stride, w, h, out, src);
    ghost var before := out[..];
    ChromaPlane(bgra, stride, w, h, out, src);
    KeepRows(before, out[..], w, h, (x, y) => LumaAt(src, stride, x, y));
    assert bgra[..] == src;
  }

  // -------------------------------------------------------------------- packing

  /** The packed copy of a frame: rows of 4 w bytes, one after the other. */
  ghost predicate PacksTo(src: seq<byte>, stride: nat, packed: seq<byte>, w: nat, h: nat)
  {
    |packed| == Idx(4 * w, 0, h) && Rows(packed, 0, 4 * w, h, (k, y) => At(src, Idx(stride, k, y)))
  }

  /** BgraResizer's buffer and its row packing. */
  class Packer {
    const packedSrc: array<byte>
    const srcW: nat
    const srcH: nat

    constructor (srcW: nat, srcH: nat)
      ensures packedSrc.Length == srcH * (4 * srcW) && this.srcW == srcW && this.srcH == srcH && fresh(packedSrc)
    {
      this.srcW, this.srcH := srcW, srcH;
      packedSrc := new byte[srcH * (4 * srcW)](_ => 0);
    }

    method CopyRow(src: array<byte>, srcOff: nat, dstOff: nat, n: nat)
      requires src != packedSrc && srcOff + n <= src.Length && dstOff + n <= packedSrc.Length
      modifies packedSrc
      ensures packedSrc[dstOff..dstOff + n] == src[srcOff..srcOff + n]
      ensures forall i: nat | i < packedSrc.Length && !(dstOff <= i < dstOff + n) :: packedSrc[i] == old(packedSrc[i])
    {
      for k := 0 to n
        invariant packedSrc[dstOff..dstOff + k] == src[srcOff..srcOff + k]
        invariant forall i: nat | i < packedSrc.Length && !(dstOff <= i < dstOff + k) :: packedSrc[i] == old(packedSrc[i])
      {
        packedSrc[dstOff + k] := src[srcOff + k];
        assert packedSrc[dstOff..dstOff + k + 1] == packedSrc[dstOff..dstOff + k] + [src[srcOff + k]];
      }
    }

    /** The packing loop of resize_into. */
    method Pack(src: array<byte>, srcStride: nat)
      requires packedSrc.Length == srcH * (4 * srcW) && InFrame(src[..], srcStride, srcW, srcH) && src != packedSrc
      modifies packedSrc
      ensures PacksTo(src[..], srcStride, packedSrc[..], srcW, srcH)
    {
      ghost var from := src[..];
      ghost var cell := (k: nat, y: nat) => At(from, Idx(srcStride, k, y));
      var rowBytes := 4 * srcW;
      for y := 0 to srcH
        invariant Rows(packedSrc[..], 0, rowBytes, y, cell)
      {
        RowBefore(rowBytes, y, srcH);
        assert Idx(srcStride, 0, y) + 4 * srcW <= |from|;
        ghost var before := packedSrc[..];
        CopyRow(src, y * srcStride, y * rowBytes, rowBytes);
        RowCopied(from, srcStride, packedSrc[..], rowBytes, y);
        NextRow(before, packedSrc[..], 0, rowBytes, y, cell);
      }
      assert src[..] == from;
    }
  }

  lemma RowCopied(src: seq<byte>, stride: nat, packed: seq<byte>, n: nat, y: nat)
    requires Idx(stride, 0, y) + n <= |src| && Idx(n, 0, y) + n <= |packed|
    requires packed[y * n..y * n + n] == src[y * stride..y * stride + n]
    ensures forall k: nat | k < n :: packed[0 + Idx(n, 0, y) + k] == At(src, Idx(stride, k, y))
  {
    forall k: nat | k < n ensures packed[0 + Idx(n, 0, y) + k] == At(src, Idx(stride, k, y)) {
      assert packed[y * n..y * n + n][k] == src[y * stride..y * stride + n][k];
    }
  }

  lemma PackedPixel(src: seq<byte>, stride: nat, packed: seq<byte>, w: nat, h: nat, x: nat, y: nat)
    requires PacksTo(src, stride, packed, w, h) && x < w && y < h
    ensures forall c: nat | c < 4 :: Px(packed, 4 * w, x, y, c) == Px(src, stride, x, y, c)
  {
    hide Idx;
    forall c: nat | c < 4 ensures Px(packed, 4 * w, x, y, c) == Px(src, stride, x, y, c) {
      assert At(packed, 0 + Idx(4 * w, 4 * x + c, y)) == At(src, Idx(stride, 4 * x + c, y));
    }
  }

  /** Converting the padded frame and converting its packed copy give the same bytes. */
  lemma PackedSame(src: seq<byte>, stride: nat, packed: seq<byte>, w: nat, h: nat, out: seq<byte>)
    requires PacksTo(src, stride, packed, w, h) && w % 2 == 0
    ensures InFrame(packed, 4 * w, w, h)
    ensures IsNv12(packed, 4 * w, w, h, out) <==> IsNv12(src, stride, w, h, out)
  {
    hide Idx;
    forall y: nat | y < h ensures Idx(4 * w, 0, y) + 4 * w <= |packed| { RowBefore(4 * w, y, h); }
    forall x: nat, y: nat | x < w && y < h ensures LumaAt(packed, 4 * w, x, y) == LumaAt(src, stride, x, y) {
      PackedPixel(src, stride, packed, w, h, x, y);
    }
    forall x: nat, v: nat | x < w && v < h / 2 ensures ChromaAt(packed, 4 * w, x, v) == ChromaAt(src, stride, x, v) {
      PackedBlock(src, stride, packed, w, h, x / 2 * 2, 2 * v);
    }
  }

  lemma PackedBlock(src: seq<byte>, stride: nat, packed: seq<byte>, w: nat, h: nat, x: nat, y: nat)
    requires PacksTo(src, stride, packed, w, h) && x + 1 < w && y + 1 < h
    ensures forall c: nat | c < 4 :: Mean(packed, 4 * w, x, y, c) == Mean(src, stride, x, y, c)
  {
    hide Px;
    PackedPixel(src, stride, packed, w, h, x, y);
    PackedPixel(src, stride, packed, w, h, x + 1, y);
    PackedPixel(src, stride, packed, w, h, x, y + 1);
    PackedPixel(src, stride, packed, w, h, x + 1, y + 1);
  }
}

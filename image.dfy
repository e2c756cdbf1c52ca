/** The pixel buffer: a `width x height` grid of four-channel colours, and the flattening
 *  into 8-bit RGBA bytes that `write()` performs before handing the bytes to the PNG
 *  encoder (the encoder call itself is not part of this model).
 *
 *  The grid is indexed `data[i][j]` with `i < width` and `j < height`: the accessor
 *  calls its first argument "row", but it ranges over the width.
 */
module ImageBuffer {
  import opened Vector4

  /** `unsigned int` */
  type uint32 = n: int | 0 <= n < 0x1_0000_0000

  /** `uint8_t` */
  type uint8 = n: int | 0 <= n < 0x100

  /** A pixel: the four channels r, g, b, a that `write()` reads. */
  type Color = Vec4

  /** `std::clamp(v, lo, hi)`: `lo` below the range, `hi` above it, `v` inside it.
   *  `lo <= hi` is what std::clamp demands of its caller. */
  function Clamp(v: real, lo: real, hi: real): (c: real)
    requires lo <= hi
    ensures lo <= c <= hi
    ensures lo <= v <= hi ==> c == v
    ensures v < lo ==> c == lo
    ensures hi < v ==> c == hi
  {
    if v < lo then lo else if hi < v then hi else v
  }

  /** One channel as a byte: `clamp(255 * channel, 0, 255)`, truncated toward zero by
   *  the conversion to `uint8_t`. A channel at or below 0 gives 0, at or above 1 gives
   *  255, and in between the byte is the whole part of `255 * channel`. */
  function ToByte(channel: real): (b: uint8)
    ensures channel <= 0.0 ==> b == 0
    ensures 1.0 <= channel ==> b == 255
    ensures 0.0 <= channel <= 1.0 ==> b as real <= 255.0 * channel < b as real + 1.0
  {
    Clamp(255.0 * channel, 0.0, 255.0).Floor
  }

  /** The four bytes one pixel contributes, in the order r, g, b, a. */
  function PixelBytes(c: Color): (s: seq<uint8>)
    ensures |s| == 4
  {
    [ToByte(c.r()), ToByte(c.g()), ToByte(c.b()), ToByte(c.a())]
  }

  /** `g` has `w` columns of `h` pixels each, as `data` does. */
  predicate Shaped(g: seq<seq<Color>>, w: nat, h: nat)
  {
    |g| == w && forall i :: 0 <= i < w ==> |g[i]| == h
  }

  /** The bytes the inner loop of `write()` emits for line `j` after visiting the
   *  pixels `0 <= i < n`. */
  function LineBytes(g: seq<seq<Color>>, w: nat, h: nat, j: nat, n: nat): seq<uint8>
    requires Shaped(g, w, h) && j < h && n <= w
  {
    if n == 0 then [] else LineBytes(g, w, h, j, n - 1) + PixelBytes(g[n - 1][j])
  }

  /** The bytes `write()` has emitted after the outer loop has run over the lines
   *  `0 <= j < lines`. */
  function Flatten(g: seq<seq<Color>>, w: nat, h: nat, lines: nat): seq<uint8>
    requires Shaped(g, w, h) && lines <= h
  {
    if lines == 0 then [] else Flatten(g, w, h, lines - 1) + LineBytes(g, w, h, lines - 1, w)
  }

  /** Where line `j` starts in the flattened buffer: after `j` lines of `4 * w` bytes. */
  function LineStart(w: nat, j: nat): nat
  {
    if j == 0 then 0 else LineStart(w, j - 1) + 4 * w
  }

  /** Where channel `k` of pixel `(i, j)` lands in the flattened buffer. */
  function Offset(w: nat, i: nat, j: nat, k: nat): nat
  {
    LineStart(w, j) + 4 * i + k
  }

  /** Line `j` starts at byte `4 * (j * w)`. */
  lemma {:induction false} LineStartIsProduct(w: nat, j: nat)
    ensures LineStart(w, j) == 4 * (j * w)
  {
    if j > 0 {
      LineStartIsProduct(w, j - 1);
      assert j * w == (j - 1) * w + w;
    }
  }

  /** A line of `n` pixels is `4 * n` bytes. */
  lemma {:induction false} LineBytesLength(g: seq<seq<Color>>, w: nat, h: nat, j: nat, n: nat)
    requires Shaped(g, w, h) && j < h && n <= w
    ensures |LineBytes(g, w, h, j, n)| == 4 * n
  {
    if n > 0 {
      LineBytesLength(g, w, h, j, n - 1);
    }
  }

  /** Pixel `i` of a line occupies bytes `4 * i` to `4 * i + 3`. */
  lemma {:induction false} LineBytesLayout(g: seq<seq<Color>>, w: nat, h: nat, j: nat, n: nat, i: nat, k: nat)
    requires Shaped(g, w, h) && j < h && n <= w
    requires i < n && k < 4
    ensures |LineBytes(g, w, h, j, n)| == 4 * n
    ensures LineBytes(g, w, h, j, n)[4 * i + k] == PixelBytes(g[i][j])[k]
  {
    LineBytesLength(g, w, h, j, n - 1);
    if i < n - 1 {
      LineBytesLayout(g, w, h, j, n - 1, i, k);
    }
  }

  /** `lines` complete lines end where line `lines` would start. */
  lemma {:induction false} FlattenLength(g: seq<seq<Color>>, w: nat, h: nat, lines: nat)
    requires Shaped(g, w, h) && lines <= h
    ensures |Flatten(g, w, h, lines)| == LineStart(w, lines)
  {
    if lines > 0 {
      FlattenLength(g, w, h, lines - 1);
      LineBytesLength(g, w, h, lines - 1, w);
    }
  }

  /** Appending one part after another is appending both at once. */
  lemma AppendAssoc<T>(a: seq<T>, b: seq<T>, c: seq<T>)
    ensures (a + b) + c == a + (b + c)
  {
  }

  /** Four single appends are one append of the four. */
  lemma AppendFour<T>(s: seq<T>, a: T, b: T, c: T, d: T)
    ensures s + [a] + [b] + [c] + [d] == s + [a, b, c, d]
  {
  }

  /** An index into the first part of a concatenation. */
  lemma IndexBefore<T>(a: seq<T>, b: seq<T>, o: nat)
    requires o < |a|
    ensures (a + b)[o] == a[o]
  {
  }

  /** An index into the second part of a concatenation. */
  lemma IndexAfter<T>(a: seq<T>, b: seq<T>, n: nat, o: nat, x: T)
    requires |a| == n && o < |b| && b[o] == x
    ensures n + o < |a + b| && (a + b)[n + o] == x
  {
  }

  /** The last of `lines` lines comes right after the lines before it. */
  lemma FlattenLastLine(g: seq<seq<Color>>, w: nat, h: nat, lines: nat, i: nat, k: nat)
    requires Shaped(g, w, h) && 0 < lines <= h
    requires i < w && k < 4
    ensures Offset(w, i, lines - 1, k) < |Flatten(g, w, h, lines)|
    ensures Flatten(g, w, h, lines)[Offset(w, i, lines - 1, k)] == PixelBytes(g[i][lines - 1])[k]
  {
    var prefix, line := Flatten(g, w, h, lines - 1), LineBytes(g, w, h, lines - 1, w);
    assert Flatten(g, w, h, lines) == prefix + line;
    FlattenLength(g, w, h, lines - 1);
    LineBytesLayout(g, w, h, lines - 1, w, i, k);
    IndexAfter(prefix, line, |prefix|, 4 * i + k, PixelBytes(g[i][lines - 1])[k]);
  }

  /** Channel `k` of pixel `(i, j)` sits at `Offset(w, i, j, k)` of the first `lines`
   *  lines: lines one after another, pixels of a line one after another, channels in
   *  the order r, g, b, a. */
  lemma {:induction false} FlattenLayout(g: seq<seq<Color>>, w: nat, h: nat, lines: nat, i: nat, j: nat, k: nat)
    requires Shaped(g, w, h) && lines <= h
    requires i < w && j < lines && k < 4
    ensures Offset(w, i, j, k) < |Flatten(g, w, h, lines)|
    ensures Flatten(g, w, h, lines)[Offset(w, i, j, k)] == PixelBytes(g[i][j])[k]
  {
    if j < lines - 1 {
      FlattenLayout(g, w, h, lines - 1, i, j, k);
      IndexBefore(Flatten(g, w, h, lines - 1), LineBytes(g, w, h, lines - 1, w), Offset(w, i, j, k));
    } else {
      FlattenLastLine(g, w, h, lines, i, k);
    }
  }

  /** Channel `k` of pixel `(i, j)` of the whole buffer is at `4 * (j * w + i) + k`:
   *  lines one after another, pixels of a line one after another, channels in the
   *  order r, g, b, a. */
  lemma FlattenPixel(g: seq<seq<Color>>, w: nat, h: nat, i: nat, j: nat, k: nat)
    requires Shaped(g, w, h)
    requires i < w && j < h && k < 4
    ensures 4 * (j * w + i) + k < |Flatten(g, w, h, h)|
    ensures Flatten(g, w, h, h)[4 * (j * w + i) + k] == PixelBytes(g[i][j])[k]
  {
    FlattenLayout(g, w, h, h, i, j, k);
    LineStartIsProduct(w, j);
  }

  /** The whole buffer: `4 * (h * w)` bytes, channel `k` of pixel `(i, j)` at
   *  `Offset(w, i, j, k)`, which FlattenPixel gives as `4 * (j * w + i) + k`. */
  lemma FlattenShape(g: seq<seq<Color>>, w: nat, h: nat)
    requires Shaped(g, w, h)
    ensures |Flatten(g, w, h, h)| == 4 * (h * w)
    ensures forall i, j, k :: 0 <= i < w && 0 <= j < h && 0 <= k < 4 ==>
      Offset(w, i, j, k) < |Flatten(g, w, h, h)| && Flatten(g, w, h, h)[Offset(w, i, j, k)] == PixelBytes(g[i][j])[k]
  {
    FlattenLength(g, w, h, h);
    LineStartIsProduct(w, h);
    forall i, j, k | 0 <= i < w && 0 <= j < h && 0 <= k < 4
      ensures Offset(w, i, j, k) < |Flatten(g, w, h, h)| && Flatten(g, w, h, h)[Offset(w, i, j, k)] == PixelBytes(g[i][j])[k]
    {
      FlattenLayout(g, w, h, h, i, j, k);
    }
  }

  lemma MulMonotone(a: nat, b: nat, c: nat)
    requires a <= b
    ensures a * c <= b * c
  {
  }

  /** Division by `d` splits `n` uniquely into a quotient and a remainder below `d`. */
  lemma DivModUnique(n: nat, d: nat, q: nat, r: nat)
    requires 0 < d && r < d && n == q * d + r
    ensures n / d == q && n % d == r
  {
    var q0, r0 := n / d, n % d;
    assert n == q0 * d + r0;
    if q0 > q {
      MulMonotone(q + 1, q0, d);
    } else if q0 < q {
      MulMonotone(q0 + 1, q, d);
    }
  }

  /** Distinct channels land on distinct positions inside the buffer: the position
   *  of channel `k` of pixel `(i, j)` gives back `i`, `j` and `k`. */
  lemma OffsetDecodes(w: nat, h: nat, i: nat, j: nat, k: nat)
    requires i < w && j < h && k < 4
    ensures Offset(w, i, j, k) < 4 * (h * w)
    ensures Offset(w, i, j, k) % 4 == k
    ensures (Offset(w, i, j, k) / 4) % w == i
    ensures (Offset(w, i, j, k) / 4) / w == j
  {
    LineStartIsProduct(w, j);
    MulMonotone(j + 1, h, w);
    DivModUnique(Offset(w, i, j, k), 4, j * w + i, k);
    DivModUnique(j * w + i, w, j, i);
  }

  /** Every position of a `w x h` buffer holds some channel of some pixel: position `p`
   *  is channel `p % 4` of pixel `((p / 4) % w, (p / 4) / w)`. */
  lemma PositionDecodes(w: nat, h: nat, p: nat) returns (i: nat, j: nat, k: nat)
    requires p < 4 * (h * w)
    ensures i == (p / 4) % w && j == (p / 4) / w && k == p % 4
    ensures i < w && j < h && k < 4
    ensures Offset(w, i, j, k) == p
  {
    var q := p / 4;
    assert 0 < w;
    assert q == (q / w) * w + q % w;
    if h <= q / w {
      MulMonotone(h, q / w, w);
    }
    i, j, k := q % w, q / w, p % 4;
    LineStartIsProduct(w, j);
  }

  /** Read the other way round: every byte of the flattened buffer is channel
   *  `p % 4` of the pixel that position `p` decodes to. */
  lemma FlattenDecodes(g: seq<seq<Color>>, w: nat, h: nat, p: nat)
    requires Shaped(g, w, h)
    requires p < |Flatten(g, w, h, h)|
    ensures 0 < w && (p / 4) % w < w && (p / 4) / w < h
    ensures Flatten(g, w, h, h)[p] == PixelBytes(g[(p / 4) % w][(p / 4) / w])[p % 4]
  {
    FlattenLength(g, w, h, h);
    LineStartIsProduct(w, h);
    var i, j, k := PositionDecodes(w, h, p);
    FlattenLayout(g, w, h, h, i, j, k);
  }

  /** The pixel buffer. `width` and `height` never change; `data` holds the grid. */
  class Image {
    const width: uint32
    const height: uint32
    const data: array2<Color>

    /** `data` is `width` by `height`. */
    ghost predicate Valid()
      reads this
    {
      data.Length0 == width && data.Length1 == height
    }

    /** The grid as a value, `Grid()[i][j] == data[i, j]`. */
    ghost function Grid(): (g: seq<seq<Color>>)
      reads this, data
      requires Valid()
      ensures Shaped(g, width, height)
      ensures forall i, j :: 0 <= i < width && 0 <= j < height ==> g[i][j] == data[i, j]
    {
      seq(width, i requires 0 <= i < width reads data =>
        seq(height, j requires 0 <= j < height reads data => data[i, j]))
    }

    /** `Image(width, height)`: a `width x height` grid of default-constructed (zero)
     *  colours. */
    constructor (width: uint32, height: uint32)
      ensures Valid() && fresh(data)
      ensures this.width == width && this.height == height
      ensures forall i, j :: 0 <= i < width && 0 <= j < height ==> data[i, j] == Zero()
    {
      this.width := width;
      this.height := height;
      data := new Color[width, height]((i, j) => Zero());
    }

    /** The const `operator()(row, column)`: the colour at `data[row][column]`. The
     *  source checks no bounds, so the caller must keep `row < width` and
     *  `column < height`. */
    function At(row: uint32, column: uint32): (c: Color)
      reads this, data
      requires Valid() && row < width && column < height
      ensures c == Grid()[row][column]
    {
      data[row, column]
    }

    /** A store through the reference that the non-const `operator()(row, column)`
     *  returns: that pixel takes the new colour and every other pixel keeps its own. */
    method SetPixel(row: uint32, column: uint32, c: Color)
      requires Valid() && row < width && column < height
      modifies data
      ensures At(row, column) == c
      ensures forall i, j :: 0 <= i < width && 0 <= j < height && (i != row || j != column) ==>
        At(i, j) == old(At(i, j))
    {
      data[row, column] := c;
    }

    /** One pass of the outer loop of `write()`: the pixels of line `j`, left to right,
     *  four clamped bytes each, appended to `bytes`. */
    method WriteLine(j: uint32, bytes: seq<uint8>) returns (out: seq<uint8>)
      requires Valid() && j < height
      ensures out == bytes + LineBytes(Grid(), width, height, j, width)
    {
      ghost var g := Grid();
      out := bytes;
      var i: uint32 := 0;
      while i < width
        invariant i <= width
        invariant out == bytes + LineBytes(g, width, height, j, i)
      {
        ghost var before := out;
        var pixel := data[i, j];
        out := out + [ToByte(pixel.r())];
        out := out + [ToByte(pixel.g())];
        out := out + [ToByte(pixel.b())];
        out := out + [ToByte(pixel.a())];
        AppendFour(before, ToByte(pixel.r()), ToByte(pixel.g()), ToByte(pixel.b()), ToByte(pixel.a()));
        AppendAssoc(bytes, LineBytes(g, width, height, j, i), PixelBytes(g[i][j]));
        i := i + 1;
      }
    }

    /** `write()` up to the PNG encoder: the grid flattened line by line (`j` outer,
     *  `i` inner), four clamped bytes per pixel. The image is not modified. */
    method Write() returns (bytes: seq<uint8>)
      requires Valid()
      ensures bytes == Flatten(Grid(), width, height, height)
    {
      ghost var g := Grid();
      bytes := [];
      var j: uint32 := 0;
      while j < height
        invariant j <= height
        invariant bytes == Flatten(g, width, height, j)
      {
        bytes := WriteLine(j, bytes);
        j := j + 1;
      }
    }
  }
}

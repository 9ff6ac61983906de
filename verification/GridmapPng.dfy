/**
 `render_gridmap_png`: colours, the transposed and flipped pixel map, scanlines and PNG chunks. CRC and
 deflate are parameters; grid values are exact reals.
 */
module GridmapPng {
  import opened Common
  import opened ImageHeader

  /** A validated gridmap: `width * height` values, row by row of the source. */
  datatype Grid = Grid(width: nat, height: nat, values: seq<real>, background: real)

  const MAX_SIDE := 2048

  ghost predicate Valid(g: Grid) {
    1 <= g.width <= MAX_SIDE && 1 <= g.height <= MAX_SIDE && |g.values| == g.width * g.height
  }

  lemma CellInRange(g: Grid, x: nat, y: nat)
    requires Valid(g) && x < g.width && y < g.height
    ensures 0 <= y * g.width + x < |g.values|
  {
    MulLe(y + 1, g.height, g.width);
    assert (y + 1) * g.width == y * g.width + g.width;
  }

  lemma {:induction false} MulLe(a: nat, b: nat, w: nat)
    requires a <= b
    ensures a * w <= b * w
    decreases b
  {
    if a < b {
      MulLe(a, b - 1, w);
      assert b * w == (b - 1) * w + w;
    }
  }

  function Cell(g: Grid, x: nat, y: nat): real
    requires Valid(g) && x < g.width && y < g.height
  {
    CellInRange(g, x, y);
    g.values[y * g.width + x]
  }

  // ------------------------------------------------------------------ colours

  type Colour = (byte, byte, byte)

  const BACKGROUND_COLOUR: Colour := (244, 247, 250)

  datatype Scale = Scale(minimum: real, maximum: real)

  function Span(s: Scale): (r: real)
    ensures r > 0.0
  {
    var d := s.maximum - s.minimum;
    if d > 0.000000000001 then d else 0.000000000001
  }

  function Normalized(s: Scale, value: real): (n: real)
    ensures 0.0 <= n <= 1.0
  {
    var q := (value - s.minimum) / Span(s);
    if q < 0.0 then 0.0 else if q > 1.0 then 1.0 else q
  }

  function Abs(r: real): real { if r < 0.0 then -r else r }

  /** The reverse ramp; every channel stays in 0..255 by construction. */
  function Ramp(n: real): (c: Colour)
    requires 0.0 <= n <= 1.0
    ensures 68 <= c.0 <= 253 && 1 <= c.1 <= 221 && 84 <= c.2 <= 230
  {
    ((68.0 + 185.0 * (1.0 - n)).Floor as byte,
     (1.0 + 220.0 * (1.0 - Abs(n - 0.5) * 2.0)).Floor as byte,
     (84.0 + 146.0 * n).Floor as byte)
  }

  function ColourOf(background: real, s: Scale, value: real): Colour {
    if value == background then BACKGROUND_COLOUR else Ramp(Normalized(s, value))
  }

  /** The picture tells background from foreground: exactly the background cells get its colour. */
  lemma BackgroundIsRecognizable(background: real, s: Scale, value: real)
    ensures ColourOf(background, s, value) == BACKGROUND_COLOUR <==> value == background
  {
  }

  /** Minimum and maximum of the foreground, or 0 and 1 without any. */
  function ScaleOf(values: seq<real>, background: real): (s: Option<Scale>)
    ensures s == None <==> forall v | v in values :: v == background
    ensures s.Some? ==> s.value.minimum in values && s.value.maximum in values
    ensures s.Some? ==> s.value.minimum != background && s.value.maximum != background
    ensures s.Some? ==> forall v | v in values && v != background :: s.value.minimum <= v <= s.value.maximum
  {
    if values == [] then None
    else
      var n := |values| - 1;
      var rest := ScaleOf(values[..n], background);
      var v := values[n];
      assert values == values[..n] + [v];
      assert forall x :: x in values <==> x in values[..n] || x == v;
      assert v in values;
      if v == background then rest
      else if rest == None then Some(Scale(v, v))
      else Some(Scale(if v < rest.value.minimum then v else rest.value.minimum,
                      if v > rest.value.maximum then v else rest.value.maximum))
  }

  function GridScale(g: Grid): Scale {
    var s := ScaleOf(g.values, g.background);
    if s.Some? then s.value else Scale(0.0, 1.0)
  }

  // ------------------------------------------------------- what the colours mean

  /** The extremes of the foreground of a grid. */
  ghost predicate Extremes(g: Grid, lo: real, hi: real) {
    lo in g.values && hi in g.values && lo != g.background && hi != g.background
    && forall v | v in g.values && v != g.background :: lo <= v <= hi
  }

  lemma ScaleIsExtremes(g: Grid, lo: real, hi: real)
    requires Extremes(g, lo, hi)
    ensures GridScale(g) == Scale(lo, hi)
  {
    var s := ScaleOf(g.values, g.background);
    assert lo in g.values && s.Some?;
    assert s.value.minimum <= lo <= s.value.minimum && s.value.maximum <= hi <= s.value.maximum;
  }

  /** The three channels of a foreground value that lies at fraction `q` of the way from lowest to highest. */
  ghost predicate ChannelsAt(c: Colour, q: real) {
    c.0 as int == (253.0 - 185.0 * q).Floor
    && c.1 as int == (if q <= 0.5 then 1.0 + 440.0 * q else 441.0 - 440.0 * q).Floor
    && c.2 as int == (84.0 + 146.0 * q).Floor
  }

  lemma FractionInRange(d: real, span: real)
    requires 0.0 <= d <= span && span > 0.0
    ensures 0.0 <= d / span <= 1.0
  {
  }

  lemma RampAt(q: real)
    requires 0.0 <= q <= 1.0
    ensures ChannelsAt(Ramp(q), q)
  {
    assert 68.0 + 185.0 * (1.0 - q) == 253.0 - 185.0 * q;
    if q <= 0.5 {
      assert 1.0 + 220.0 * (1.0 - Abs(q - 0.5) * 2.0) == 1.0 + 440.0 * q;
    } else {
      assert 1.0 + 220.0 * (1.0 - Abs(q - 0.5) * 2.0) == 441.0 - 440.0 * q;
    }
  }

  /**
   Between the extremes red falls and blue rises linearly in the value, and green is a tent with its top
   in the middle. A foreground narrower than 1e-12 is measured as if it were that wide.
   */
  lemma ColourIsLinear(g: Grid, lo: real, hi: real, v: real, q: real)
    requires Extremes(g, lo, hi) && v in g.values && v != g.background
    requires q == (v - lo) / (if hi - lo >= 0.000000000001 then hi - lo else 0.000000000001)
    ensures 0.0 <= q <= 1.0 && ChannelsAt(ColourOf(g.background, GridScale(g), v), q)
  {
    ScaleIsExtremes(g, lo, hi);
    var span := Span(Scale(lo, hi));
    FractionInRange(v - lo, span);
    assert Normalized(Scale(lo, hi), v) == q;
    RampAt(q);
  }

  /** The colours of the lowest, the middle and the highest foreground value. */
  lemma ColourLandmarks(g: Grid, lo: real, hi: real)
    requires Extremes(g, lo, hi)
    ensures ColourOf(g.background, GridScale(g), lo) == (253, 1, 84)
    ensures hi - lo >= 0.000000000001 ==> ColourOf(g.background, GridScale(g), hi) == (68, 1, 230)
    ensures hi - lo >= 0.000000000001 && (lo + hi) / 2.0 in g.values && (lo + hi) / 2.0 != g.background ==>
              ColourOf(g.background, GridScale(g), (lo + hi) / 2.0) == (160, 221, 157)
  {
    ColourIsLinear(g, lo, hi, lo, 0.0);
    if hi - lo >= 0.000000000001 {
      Whole(hi - lo);
      ColourIsLinear(g, lo, hi, hi, 1.0);
      if (lo + hi) / 2.0 in g.values && (lo + hi) / 2.0 != g.background {
        ColourIsLinear(g, lo, hi, (lo + hi) / 2.0, 0.5);
      }
    }
  }

  lemma Whole(span: real)
    requires span > 0.0
    ensures span / span == 1.0 && span / 2.0 / span == 0.5
  {
  }

  /** A higher value never looks redder nor less blue. */
  lemma ColourIsMonotone(g: Grid, lo: real, hi: real, v: real, w: real)
    requires Extremes(g, lo, hi) && v in g.values && w in g.values && v != g.background && w != g.background && v <= w
    ensures var a, b := ColourOf(g.background, GridScale(g), v), ColourOf(g.background, GridScale(g), w); a.0 >= b.0 && a.2 <= b.2
  {
    var span := if hi - lo >= 0.000000000001 then hi - lo else 0.000000000001;
    var p, q := (v - lo) / span, (w - lo) / span;
    ColourIsLinear(g, lo, hi, v, p);
    ColourIsLinear(g, lo, hi, w, q);
    DivMonotone(v - lo, w - lo, span);
  }

  lemma DivMonotone(a: real, b: real, span: real)
    requires a <= b && span > 0.0
    ensures a / span <= b / span
  {
  }

  method MeasureForeground(values: seq<real>, background: real) returns (s: Option<Scale>)
    ensures s == ScaleOf(values, background)
  {
    s := None;
    for i := 0 to |values|
      invariant s == ScaleOf(values[..i], background)
    {
      assert values[..i + 1][..i] == values[..i];
      var v := values[i];
      if v != background {
        s := match s
          case None => Some(Scale(v, v))
          case Some(sc) => Some(Scale(if v < sc.minimum then v else sc.minimum, if v > sc.maximum then v else sc.maximum));
      }
    }
    assert values[..|values|] == values;
  }

  // ------------------------------------------------------------------- pixels

  function OutputX(g: Grid, sourceY: int): int { g.height - 1 - sourceY }

  function OutputY(g: Grid, sourceX: int): int { g.width - 1 - sourceX }

  /** The colour shown at an output pixel: the cell under the transposed and flipped map. */
  function Pixel(g: Grid, x: nat, y: nat): Colour
    requires Valid(g) && x < g.height && y < g.width
  {
    ColourOf(g.background, GridScale(g), Cell(g, g.width - 1 - y, g.height - 1 - x))
  }

  /** Byte `i` of output row `y`: filter byte 0, then three channels a pixel. */
  function RowByte(g: Grid, y: nat, i: nat): byte
    requires Valid(g) && y < g.width && i < 1 + 3 * g.height
  {
    if i == 0 then 0 else Channel(Pixel(g, (i - 1) / 3, y), (i - 1) % 3)
  }

  function Channel(c: Colour, k: nat): byte { if k == 0 then c.0 else if k == 1 then c.1 else c.2 }

  function Row(g: Grid, y: nat): (r: seq<byte>)
    requires Valid(g) && y < g.width
    ensures |r| == 1 + 3 * g.height && r[0] == 0
  {
    seq(1 + 3 * g.height, i requires 0 <= i < 1 + 3 * g.height => RowByte(g, y, i))
  }

  /** The scanlines of the first `n` output rows. */
  function Scanlines(g: Grid, n: nat): seq<byte>
    requires Valid(g) && n <= g.width
  {
    if n == 0 then [] else Scanlines(g, n - 1) + Row(g, n - 1)
  }

  /** The three bytes of pixel `x` of row `y`. */
  function PixelBytes(rows: array2<byte>, x: nat, y: nat): Colour
    requires y < rows.Length0 && 3 * x + 3 < rows.Length1
    reads rows
  {
    (rows[y, 3 * x + 1], rows[y, 3 * x + 2], rows[y, 3 * x + 3])
  }

  /** The pixels written so far, each as often as it was written. */
  type WriteLog = multiset<(int, int)>

  /** Writes one pixel and nothing else, and logs it. */
  method WritePixel(rows: array2<byte>, x: nat, y: nat, c: Colour, ghost log: WriteLog) returns (ghost logged: WriteLog)
    requires y < rows.Length0 && 3 * x + 3 < rows.Length1
    modifies rows
    ensures PixelBytes(rows, x, y) == c
    ensures forall a: nat, b: nat | b < rows.Length0 && 3 * a + 3 < rows.Length1 && (a != x || b != y) ::
              PixelBytes(rows, a, b) == old(PixelBytes(rows, a, b))
    ensures forall b | 0 <= b < rows.Length0 :: rows[b, 0] == old(rows[b, 0])
    ensures logged == log + multiset{(x, y)}
  {
    rows[y, 3 * x + 1] := c.0;
    rows[y, 3 * x + 2] := c.1;
    rows[y, 3 * x + 3] := c.2;
    logged := log + multiset{(x, y)};
  }

  /** What the finished image shows, as a plain function of the pixel position. */
  function Picture(g: Grid): (nat, nat) -> Colour
    requires Valid(g)
  {
    (x: nat, y: nat) => if x < g.height && y < g.width then Pixel(g, x, y) else BACKGROUND_COLOUR
  }

  ghost predicate Shaped(g: Grid, rows: array2<byte>) {
    Valid(g) && rows.Length0 == g.width && rows.Length1 == 3 * g.height + 1
  }

  ghost predicate FiltersZero(rows: array2<byte>)
    reads rows
  {
    rows.Length1 > 0 && forall a | 0 <= a < rows.Length0 :: rows[a, 0] == 0
  }

  /** Output columns from `x` on show the picture. */
  ghost predicate ColumnsDone(picture: (nat, nat) -> Colour, rows: array2<byte>, x: nat)
    reads rows
  {
    forall a: nat, b: nat | x <= a && 3 * a + 3 < rows.Length1 && b < rows.Length0 :: PixelBytes(rows, a, b) == picture(a, b)
  }

  /** Of the output pixels, exactly those in columns from `x` on, and in column `x - 1` from row `y` on, were written, each once. */
  ghost predicate WrittenOnce(g: Grid, log: WriteLog, x: int, y: int) {
    forall a: int, b: int ::
      log[(a, b)] == if 0 <= b < g.width && (x <= a < g.height || (a == x - 1 && y <= b)) then 1 else 0
  }

  lemma OneMoreWritten(g: Grid, log: WriteLog, x: int, y: int)
    requires WrittenOnce(g, log, x, y) && 0 < x <= g.height && 0 < y <= g.width
    ensures WrittenOnce(g, log + multiset{(x - 1, y - 1)}, x, y - 1)
  {
  }

  lemma PictureOfCell(g: Grid, sourceX: nat, sourceY: nat)
    requires Valid(g) && sourceX < g.width && sourceY < g.height
    ensures Picture(g)(OutputX(g, sourceY), OutputY(g, sourceX)) == ColourOf(g.background, GridScale(g), Cell(g, sourceX, sourceY))
  {
  }

  /** One source row becomes one output column, bottom up. */
  method PaintColumn(
    g: Grid, scale: Scale, rows: array2<byte>, sourceY: nat, ghost picture: (nat, nat) -> Colour, ghost log: WriteLog)
    returns (ghost logged: WriteLog)
    requires Shaped(g, rows) && scale == GridScale(g) && sourceY < g.height && picture == Picture(g)
    requires FiltersZero(rows) && ColumnsDone(picture, rows, g.height - sourceY)
    requires WrittenOnce(g, log, g.height - sourceY, g.width)
    modifies rows
    ensures FiltersZero(rows) && ColumnsDone(picture, rows, g.height - 1 - sourceY)
    ensures WrittenOnce(g, logged, g.height - 1 - sourceY, g.width)
  {
    var x := OutputX(g, sourceY);
    logged := log;
    for sourceX := 0 to g.width
      invariant FiltersZero(rows) && ColumnsDone(picture, rows, x + 1)
      invariant forall b: nat | g.width - sourceX <= b < g.width :: PixelBytes(rows, x, b) == picture(x, b)
      invariant WrittenOnce(g, logged, x + 1, g.width - sourceX)
    {
      PictureOfCell(g, sourceX, sourceY);
      OneMoreWritten(g, logged, x + 1, g.width - sourceX);
      logged := WritePixel(rows, x, OutputY(g, sourceX), ColourOf(g.background, scale, Cell(g, sourceX, sourceY)), logged);
    }
  }

  /** The nested loops: every row keeps filter byte 0 and every pixel gets the colour of its cell, in one write. */
  method Paint(g: Grid) returns (rows: array2<byte>, ghost log: WriteLog)
    requires Valid(g)
    ensures fresh(rows) && Shaped(g, rows) && FiltersZero(rows) && ColumnsDone(Picture(g), rows, 0)
    ensures forall a: int, b: int :: log[(a, b)] == if 0 <= a < g.height && 0 <= b < g.width then 1 else 0
  {
    var measured := MeasureForeground(g.values, g.background);
    var scale := if measured.Some? then measured.value else Scale(0.0, 1.0);
    rows := new byte[g.width, 3 * g.height + 1]((_, _) => 0);
    log := multiset{};
    for sourceY := 0 to g.height
      invariant FiltersZero(rows) && ColumnsDone(Picture(g), rows, g.height - sourceY)
      invariant WrittenOnce(g, log, g.height - sourceY, g.width)
    {
      log := PaintColumn(g, scale, rows, sourceY, Picture(g), log);
    }
  }

  /** Each output pixel stands for one cell and each cell for one output pixel. */
  lemma PixelMapIsBijective(g: Grid, x: int, y: int)
    requires 0 <= x < g.height && 0 <= y < g.width
    ensures exists sx, sy :: 0 <= sx < g.width && 0 <= sy < g.height && OutputX(g, sy) == x && OutputY(g, sx) == y
    ensures forall sx, sy, tx, ty :: OutputX(g, sy) == OutputX(g, ty) && OutputY(g, sx) == OutputY(g, tx) ==> sx == tx && sy == ty
  {
    var sx, sy := g.width - 1 - y, g.height - 1 - x;
    assert OutputX(g, sy) == x && OutputY(g, sx) == y;
  }

  lemma RowBytes(g: Grid, rows: array2<byte>, y: nat, i: nat)
    requires Shaped(g, rows) && FiltersZero(rows) && ColumnsDone(Picture(g), rows, 0)
    requires y < g.width && i < 3 * g.height + 1
    ensures rows[y, i] == RowByte(g, y, i)
  {
    if i > 0 {
      var x := (i - 1) / 3;
      assert PixelBytes(rows, x, y) == Picture(g)(x, y);
      assert i == 3 * x + 1 + (i - 1) % 3;
    }
  }

  method JoinRows(g: Grid, rows: array2<byte>) returns (s: seq<byte>)
    requires Shaped(g, rows) && FiltersZero(rows) && ColumnsDone(Picture(g), rows, 0)
    ensures s == Scanlines(g, g.width)
  {
    s := [];
    for y := 0 to g.width
      invariant s == Scanlines(g, y)
    {
      var row: seq<byte> := [];
      for i := 0 to 3 * g.height + 1
        invariant |row| == i && forall k | 0 <= k < i :: row[k] == Row(g, y)[k]
      {
        RowBytes(g, rows, y, i);
        row := row + [rows[y, i]];
      }
      assert row == Row(g, y);
      s := s + row;
    }
  }

  // ------------------------------------------------------------------- chunks

  const IDAT: seq<byte> := [0x49, 0x44, 0x41, 0x54]
  const IEND: seq<byte> := [0x49, 0x45, 0x4E, 0x44]

  const LIMIT := 0x1_0000_0000

  function Bytes32(n: nat): (s: seq<byte>)
    requires n < LIMIT
    ensures |s| == 4
  {
    var (a, b, c) := (n / 256, n / 256 / 256, n / 256 / 256 / 256);
    [c as byte, (b % 256) as byte, (a % 256) as byte, (n % 256) as byte]
  }

  lemma Bytes32RoundTrip(n: nat)
    requires n < LIMIT
    ensures U32(Bytes32(n)) == n
  {
    var a, b, c := n / 256, n / 256 / 256, n / 256 / 256 / 256;
    assert n == 256 * a + n % 256 && a == 256 * b + a % 256 && b == 256 * c + b % 256;
  }

  type Checksum = seq<byte> -> nat

  /** `_png_chunk`. */
  function Chunk(crc: Checksum, kind: seq<byte>, payload: seq<byte>): seq<byte>
    requires |payload| < LIMIT
  {
    Bytes32(|payload|) + (kind + (payload + Bytes32(crc(kind + payload) % LIMIT)))
  }

  datatype ReadResult = NoChunk | Read(kind: seq<byte>, payload: seq<byte>, rest: seq<byte>)

  /** A chunk reader: length, kind, data and a matching checksum. */
  function ReadChunk(crc: Checksum, s: seq<byte>): ReadResult {
    if |s| < 12 then NoChunk
    else
      var n := U32(s[..4]);
      if |s| < 12 + n || U32(s[8 + n..12 + n]) != crc(s[4..8 + n]) % LIMIT then NoChunk
      else Read(s[4..8], s[8..8 + n], s[12 + n..])
  }

  lemma ChunkReadsBack(crc: Checksum, kind: seq<byte>, payload: seq<byte>, rest: seq<byte>)
    requires |kind| == 4 && |payload| < LIMIT
    ensures ReadChunk(crc, Chunk(crc, kind, payload) + rest) == Read(kind, payload, rest)
  {
    var n, sum := |payload|, Bytes32(crc(kind + payload) % LIMIT);
    var s := Chunk(crc, kind, payload) + rest;
    Bytes32RoundTrip(n);
    Bytes32RoundTrip(crc(kind + payload) % LIMIT);
    assert s == Bytes32(n) + kind + payload + sum + rest;
    assert s[..4] == Bytes32(n) && s[4..8] == kind && s[8..8 + n] == payload;
    assert s[4..8 + n] == kind + payload && s[8 + n..12 + n] == sum && s[12 + n..] == rest;
  }

  function HeaderPayload(g: Grid): (s: seq<byte>)
    requires Valid(g)
    ensures |s| == 13
  {
    Bytes32(g.height) + Bytes32(g.width) + [8, 2, 0, 0, 0]
  }

  function Png(crc: Checksum, g: Grid, compressed: seq<byte>): seq<byte>
    requires Valid(g) && |compressed| < LIMIT
  {
    PNG_SIGNATURE + (Chunk(crc, IHDR, HeaderPayload(g)) + (Chunk(crc, IDAT, compressed) + Chunk(crc, IEND, [])))
  }

  /** `render_gridmap_png` of a validated grid; packing a length of 2^32 or more raises. */
  method Render(g: Grid, crc: Checksum, deflate: seq<byte> -> seq<byte>) returns (r: Result<seq<byte>>, width: nat, height: nat)
    requires Valid(g)
    ensures width == g.height && height == g.width
    ensures var compressed := deflate(Scanlines(g, g.width));
            r == if |compressed| < LIMIT then Ok(Png(crc, g, compressed)) else Err("struct_error")
  {
    width, height := g.height, g.width;
    var rows, _ := Paint(g);
    var scanlines := JoinRows(g, rows);
    var compressed := deflate(scanlines);
    if |compressed| >= LIMIT {
      return Err("struct_error"), width, height;
    }
    return Ok(Png(crc, g, compressed)), width, height;
  }

  // ------------------------------------------------------------------ theorems

  /** The header reader applied to the image returns "png" and the rendered width and height. */
  lemma HeaderReadsBack(crc: Checksum, g: Grid, compressed: seq<byte>)
    requires Valid(g) && |compressed| < LIMIT
    ensures HeaderOf(Png(crc, g, compressed)) == Ok(Dimensions("png", g.height, g.width))
  {
    var c := Png(crc, g, compressed);
    var h, w := Bytes32(g.height), Bytes32(g.width);
    var tail := c[24..];
    assert c[..8] == PNG_SIGNATURE;
    assert c[12..16] == IHDR && c[16..20] == h && c[20..24] == w;
    Bytes32RoundTrip(g.height);
    Bytes32RoundTrip(g.width);
  }

  /** The three chunks can be read back, so a decoder gets the compressed scanlines unchanged. */
  lemma ChunksReadBack(crc: Checksum, g: Grid, compressed: seq<byte>)
    requires Valid(g) && |compressed| < LIMIT
    ensures var first := ReadChunk(crc, Png(crc, g, compressed)[8..]);
            first.Read? && first.kind == IHDR && first.payload == HeaderPayload(g)
            && var second := ReadChunk(crc, first.rest);
               second.Read? && second.kind == IDAT && second.payload == compressed
               && ReadChunk(crc, second.rest) == Read(IEND, [], [])
  {
    var third := Chunk(crc, IEND, []);
    var second := Chunk(crc, IDAT, compressed) + third;
    assert Png(crc, g, compressed)[8..] == Chunk(crc, IHDR, HeaderPayload(g)) + second;
    ChunkReadsBack(crc, IHDR, HeaderPayload(g), second);
    ChunkReadsBack(crc, IDAT, compressed, third);
    assert third + [] == third;
    ChunkReadsBack(crc, IEND, [], []);
  }

  /** Where row `y` starts in the scanlines, each row being `3 * height + 1` bytes long. */
  function Offset(g: Grid, y: nat): nat { if y == 0 then 0 else Offset(g, y - 1) + (3 * g.height + 1) }

  lemma {:induction false} OffsetIsProduct(g: Grid, y: nat)
    ensures Offset(g, y) == y * (3 * g.height + 1)
  {
    if y > 0 {
      OffsetIsProduct(g, y - 1);
      assert y * (3 * g.height + 1) == (y - 1) * (3 * g.height + 1) + (3 * g.height + 1);
    }
  }

  lemma {:induction false} ScanlineLength(g: Grid, n: nat)
    requires Valid(g) && n <= g.width
    ensures |Scanlines(g, n)| == Offset(g, n)
  {
    if n > 0 { ScanlineLength(g, n - 1); }
  }

  lemma SliceLeft(a: seq<byte>, b: seq<byte>, from: nat, to: nat)
    requires from <= to <= |a|
    ensures (a + b)[from..to] == a[from..to]
  {
  }

  lemma SliceRight(a: seq<byte>, b: seq<byte>)
    ensures (a + b)[|a|..|a| + |b|] == b
  {
  }

  lemma {:induction false} ScanlineRow(g: Grid, n: nat, y: nat)
    requires Valid(g) && y < n <= g.width
    ensures Offset(g, y + 1) <= |Scanlines(g, n)|
    ensures Scanlines(g, n)[Offset(g, y)..Offset(g, y + 1)] == Row(g, y)
    decreases n
  {
    var before, row := Scanlines(g, n - 1), Row(g, n - 1);
    var from, to := Offset(g, y), Offset(g, y + 1);
    ScanlineLength(g, n - 1);
    if y < n - 1 {
      ScanlineRow(g, n - 1, y);
      SliceLeft(before, row, from, to);
    } else {
      SliceRight(before, row);
    }
  }

  /** The bytes of one output pixel among scanlines whose rows are `stride` long. */
  ghost predicate ShowsPixel(data: seq<byte>, start: nat, x: nat, c: Colour) {
    start + 3 * x + 3 < |data| && data[start] == 0
    && data[start + 3 * x + 1] == c.0 && data[start + 3 * x + 2] == c.1 && data[start + 3 * x + 3] == c.2
  }

  lemma RowChannel(g: Grid, row: seq<byte>, x: nat, y: nat, c: Colour, k: nat)
    requires Valid(g) && x < g.height && y < g.width && k < 3 && row == Row(g, y) && c == Pixel(g, x, y)
    ensures row[3 * x + 1 + k] == Channel(c, k)
  {
    var i := 3 * x + 1 + k;
    assert (i - 1) / 3 == x && (i - 1) % 3 == k;
    assert row[i] == RowByte(g, y, i);
  }

  lemma ChannelsShow(row: seq<byte>, x: nat, c: Colour)
    requires 3 * x + 3 < |row| && row[0] == 0
    requires forall k | 0 <= k < 3 :: row[3 * x + 1 + k] == Channel(c, k)
    ensures ShowsPixel(row, 0, x, c)
  {
    assert row[3 * x + 1 + 0] == Channel(c, 0) && row[3 * x + 1 + 1] == Channel(c, 1) && row[3 * x + 1 + 2] == Channel(c, 2);
  }

  lemma RowShowsPixel(g: Grid, x: nat, y: nat)
    requires Valid(g) && x < g.height && y < g.width
    ensures ShowsPixel(Row(g, y), 0, x, Pixel(g, x, y))
  {
    var row, c := Row(g, y), Pixel(g, x, y);
    forall k | 0 <= k < 3 ensures row[3 * x + 1 + k] == Channel(c, k) {
      RowChannel(g, row, x, y, c, k);
    }
    ChannelsShow(row, x, c);
  }

  lemma ShiftPixel(data: seq<byte>, start: nat, row: seq<byte>, x: nat, c: Colour)
    requires start + |row| <= |data| && data[start..start + |row|] == row && ShowsPixel(row, 0, x, c)
    ensures ShowsPixel(data, start, x, c)
  {
  }

  /** What a decoder makes of an image: the inflated data chunk behind the header chunk. */
  function DecodeScanlines(crc: Checksum, png: seq<byte>, inflate: seq<byte> -> seq<byte>): Option<seq<byte>> {
    if |png| < 8 then None
    else
      var first := ReadChunk(crc, png[8..]);
      if !first.Read? || first.kind != IHDR then None
      else
        var second := ReadChunk(crc, first.rest);
        if !second.Read? || second.kind != IDAT then None else Some(inflate(second.payload))
  }

  /** A decoder with any `inflate` gets exactly what that makes of the compressed scanlines. */
  lemma ImageDecodes(crc: Checksum, g: Grid, compressed: seq<byte>, inflate: seq<byte> -> seq<byte>)
    requires Valid(g) && |compressed| < LIMIT
    ensures DecodeScanlines(crc, Png(crc, g, compressed), inflate) == Some(inflate(compressed))
  {
    ChunksReadBack(crc, g, compressed);
  }

  /**
   The scanlines show for every output pixel the colour of the cell under the transposed and flipped
   map, behind filter byte 0.
   */
  lemma ScanlinesShowPixel(g: Grid, x: nat, y: nat)
    requires Valid(g) && x < g.height && y < g.width
    ensures ShowsPixel(Scanlines(g, g.width), Offset(g, y), x, Pixel(g, x, y)) && Offset(g, y) == y * (3 * g.height + 1)
  {
    OffsetIsProduct(g, y);
    var data, row, c := Scanlines(g, g.width), Row(g, y), Pixel(g, x, y);
    ScanlineRow(g, g.width, y);
    RowShowsPixel(g, x, y);
    ShiftPixel(data, Offset(g, y), row, x, c);
  }

  ghost predicate DecodedShows(decoded: Option<seq<byte>>, start: nat, x: nat, c: Colour) {
    decoded.Some? && ShowsPixel(decoded.value, start, x, c)
  }

  lemma ScanlinesDecoded(g: Grid, decoded: Option<seq<byte>>, x: nat, y: nat)
    requires Valid(g) && x < g.height && y < g.width && decoded == Some(Scanlines(g, g.width))
    ensures DecodedShows(decoded, Offset(g, y), x, Pixel(g, x, y))
  {
    ScanlinesShowPixel(g, x, y);
  }

  /** A decoder that inflates the data to the scanlines finds at every pixel the colour of its cell. */
  lemma DecodedImageShowsPixel(
    crc: Checksum, g: Grid, compressed: seq<byte>, inflate: seq<byte> -> seq<byte>, x: nat, y: nat)
    requires Valid(g) && x < g.height && y < g.width
    requires |compressed| < LIMIT && inflate(compressed) == Scanlines(g, g.width)
    ensures DecodedShows(DecodeScanlines(crc, Png(crc, g, compressed), inflate), Offset(g, y), x, Pixel(g, x, y))
  {
    ImageDecodes(crc, g, compressed, inflate);
    ScanlinesDecoded(g, DecodeScanlines(crc, Png(crc, g, compressed), inflate), x, y);
  }

  /** How a cell of value `v` is to look. */
  ghost predicate Looks(c: Colour, g: Grid, v: real, lo: real, hi: real) {
    if v == g.background then c == (244, 247, 250)
    else ChannelsAt(c, (v - lo) / (if hi - lo >= 0.000000000001 then hi - lo else 0.000000000001))
  }

  lemma ValueLooks(g: Grid, v: real, lo: real, hi: real)
    requires Extremes(g, lo, hi) && v in g.values
    ensures Looks(ColourOf(g.background, GridScale(g), v), g, v, lo, hi)
  {
    if v != g.background {
      ColourIsLinear(g, lo, hi, v, (v - lo) / (if hi - lo >= 0.000000000001 then hi - lo else 0.000000000001));
    }
  }

  lemma CellInValues(g: Grid, x: nat, y: nat)
    requires Valid(g) && x < g.width && y < g.height
    ensures Cell(g, x, y) in g.values
  {
    CellInRange(g, x, y);
  }

  lemma PixelLooks(g: Grid, lo: real, hi: real, x: nat, y: nat)
    requires Valid(g) && x < g.height && y < g.width && Extremes(g, lo, hi)
    ensures Looks(Pixel(g, x, y), g, Cell(g, g.width - 1 - y, g.height - 1 - x), lo, hi)
  {
    CellInValues(g, g.width - 1 - y, g.height - 1 - x);
    ValueLooks(g, Cell(g, g.width - 1 - y, g.height - 1 - x), lo, hi);
  }

  /** At every pixel of the decoded image the cell of the grid looks as its value between the extremes says. */
  lemma DecodedImageLooks(
    crc: Checksum, g: Grid, compressed: seq<byte>, inflate: seq<byte> -> seq<byte>, lo: real, hi: real, x: nat, y: nat)
    returns (c: Colour)
    requires Valid(g) && x < g.height && y < g.width && Extremes(g, lo, hi)
    requires |compressed| < LIMIT && inflate(compressed) == Scanlines(g, g.width)
    ensures DecodedShows(DecodeScanlines(crc, Png(crc, g, compressed), inflate), Offset(g, y), x, c)
    ensures Looks(c, g, Cell(g, g.width - 1 - y, g.height - 1 - x), lo, hi)
  {
    c := Pixel(g, x, y);
    DecodedImageShowsPixel(crc, g, compressed, inflate, x, y);
    PixelLooks(g, lo, hi, x, y);
  }

  /**
   The header chunk describes the data: 8-bit truecolour, no interlace, and as many scanlines of one
   filter byte and three bytes a pixel as its width and height say.
   */
  lemma HeaderDescribesScanlines(g: Grid)
    requires Valid(g)
    ensures var h := HeaderPayload(g);
            U32(h[..4]) == g.height && U32(h[4..8]) == g.width && h[8..] == [8, 2, 0, 0, 0]
            && |Scanlines(g, U32(h[4..8]))| == U32(h[4..8]) * (1 + 3 * U32(h[..4]))
  {
    var h := HeaderPayload(g);
    assert h[..4] == Bytes32(g.height) && h[4..8] == Bytes32(g.width);
    Bytes32RoundTrip(g.height);
    Bytes32RoundTrip(g.width);
    ScanlineLength(g, g.width);
    OffsetIsProduct(g, g.width);
  }
}

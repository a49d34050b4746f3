// The share-card canvas (app/og/image.py): an RGBA pixel buffer written in
// place by clipped pixel and rectangle writes and by a 5x7 bitmap font, and
// the PNG byte stream (signature, IHDR, IDAT, IEND chunks) it serialises to.
// zlib's deflate and CRC-32 are parameters; the font table is a parameter.
module OgImage {
  import opened Wrappers
  import Text

  type byte = x: int | 0 <= x < 256

  /** The values int.to_bytes(4, "big") accepts. */
  type u32 = x: int | 0 <= x < 0x1_0000_0000

  /** An RGBA colour tuple; bytes(color) needs each channel in 0..255. */
  datatype Color = Color(r: byte, g: byte, b: byte, a: byte) {
    /** bytes(color). */
    function Bytes(): (s: seq<byte>)
      ensures |s| == 4
    {
      [r, g, b, a]
    }
  }

  /** The three ValueErrors of the constructor. */
  datatype CanvasError = NonPositiveDimensions | RowCountMismatch | MissingBackground

  /** A glyph is a list of text lines, '#' marking an inked cell. */
  type Glyph = seq<string>

  /** FONT_5X7's shape: every glyph has a first line to measure. */
  predicate FontShaped(font: map<char, Glyph>) {
    forall c :: c in font ==> |font[c]| > 0
  }

  /** How far one character moves the cursor: the glyph's width, or 5 for a
    * character without a glyph, plus the spacing, all times the scale. */
  function CharAdvance(c: char, font: map<char, Glyph>, scale: int, spacing: int): int
    requires FontShaped(font)
  {
    if c in font then |font[c][0]| * scale + spacing * scale
    else 5 * scale + spacing * scale
  }

  /** The total cursor movement over an already upper-cased text. */
  function Advance(s: string, font: map<char, Glyph>, scale: int, spacing: int): int
    requires FontShaped(font)
  {
    if |s| == 0 then 0
    else Advance(s[..|s| - 1], font, scale, spacing) + CharAdvance(s[|s| - 1], font, scale, spacing)
  }

  /** Drawing two texts one after the other moves the cursor as far as
    * drawing their concatenation. */
  lemma {:induction false} AdvanceAppend(s: string, t: string, font: map<char, Glyph>, scale: int, spacing: int)
    requires FontShaped(font)
    ensures Advance(s + t, font, scale, spacing) == Advance(s, font, scale, spacing) + Advance(t, font, scale, spacing)
  {
    if |t| > 0 {
      assert (s + t)[..|s + t| - 1] == s + t[..|t| - 1];
      AdvanceAppend(s, t[..|t| - 1], font, scale, spacing);
    } else {
      assert s + t == s;
    }
  }

  /** With a font whose glyphs are all five cells wide, as the 5x7 font's
    * are, every character moves the cursor by (5 + spacing) * scale. */
  lemma {:induction false} MonospacedAdvance(s: string, font: map<char, Glyph>, scale: int, spacing: int)
    requires FontShaped(font)
    requires forall c :: c in font ==> |font[c][0]| == 5
    ensures Advance(s, font, scale, spacing) == |s| * (5 * scale + spacing * scale)
  {
    if |s| > 0 {
      MonospacedAdvance(s[..|s| - 1], font, scale, spacing);
    }
  }

  /** The canvas: width x height pixels of four bytes each. The source keeps
    * one bytearray of 4 * width bytes per row; pixel x of row y occupies
    * bytes 4x..4x+3 of it, which is pixels[y, x, 0..3] here. */
  class Canvas {
    const width: nat
    const height: nat
    const pixels: array3<byte>

    predicate Valid()
      reads this
    {
      width > 0 && height > 0 &&
      pixels.Length0 == height && pixels.Length1 == width && pixels.Length2 == 4
    }

    /** The bytes of pixel (x, y). */
    function Pixel(x: nat, y: nat): seq<byte>
      requires Valid() && x < width && y < height
      reads this, pixels
    {
      [pixels[y, x, 0], pixels[y, x, 1], pixels[y, x, 2], pixels[y, x, 3]]
    }

    /** Row y as the source's bytearray. */
    function Row(y: nat): (row: seq<byte>)
      requires Valid() && y < height
      reads this, pixels
      ensures |row| == 4 * width
    {
      seq(4 * width, i requires 0 <= i < 4 * width reads pixels => pixels[y, i / 4, i % 4])
    }

    /** self.rows. */
    function Rows(): (rows: seq<seq<byte>>)
      requires Valid()
      reads this, pixels
      ensures |rows| == height && forall y :: 0 <= y < height ==> rows[y] == Row(y)
    {
      seq(height, y requires 0 <= y < height reads this, pixels => Row(y))
    }

    /** Canvas(width, height, bg): every row is bg repeated width times. */
    constructor Filled(width: nat, height: nat, bg: Color)
      requires width > 0 && height > 0
      ensures Valid() && this.width == width && this.height == height && fresh(pixels)
      ensures forall y :: 0 <= y < height ==> Row(y) == Repeat(bg.Bytes(), width)
    {
      this.width := width;
      this.height := height;
      pixels := new byte[height, width, 4]((y: nat, x: nat, k: nat) => if k < 4 then bg.Bytes()[k] else 0);
      new;
      forall y | 0 <= y < height
        ensures Row(y) == Repeat(bg.Bytes(), width)
      {
        RepeatAt(bg.Bytes(), width);
      }
    }

    /** Canvas(width, height, rows=rows): the canvas holds copies of the
      * given rows. */
    constructor FromRows(width: nat, height: nat, rows: seq<seq<byte>>)
      requires width > 0 && height > 0 && |rows| == height
      requires forall y :: 0 <= y < height ==> |rows[y]| == 4 * width
      ensures Valid() && this.width == width && this.height == height && fresh(pixels)
      ensures Rows() == rows
    {
      this.width := width;
      this.height := height;
      pixels := new byte[height, width, 4]((y: nat, x: nat, k: nat) =>
        if y < |rows| && 4 * x + k < |rows[y]| then rows[y][4 * x + k] else 0);
      new;
      forall y | 0 <= y < height
        ensures Row(y) == rows[y]
      {
        assert forall i :: 0 <= i < 4 * width ==> Row(y)[i] == rows[y][i];
      }
    }

    /** Canvas.__init__ with its checks: non-positive dimensions, a row
      * template of the wrong height, and neither rows nor a background are
      * errors. The rows are copied, so later writes never reach the caller's
      * template. The source never checks that each template row holds
      * 4 * width bytes: its callers build the rows that way, and the
      * requires below records that internal invariant rather than a check. */
    static method Create(width: int, height: int, bg: Option<Color>, rows: Option<seq<seq<byte>>>)
      returns (r: Result<Canvas, CanvasError>)
      requires rows.Some? ==> forall y :: 0 <= y < |rows.value| ==> |rows.value[y]| == 4 * width
      ensures width <= 0 || height <= 0 ==> r == Err(NonPositiveDimensions)
      ensures width > 0 && height > 0 && rows.Some? && |rows.value| != height ==> r == Err(RowCountMismatch)
      ensures width > 0 && height > 0 && rows.None? && bg.None? ==> r == Err(MissingBackground)
      ensures r.Ok? ==> width > 0 && height > 0 && fresh(r.value) && fresh(r.value.pixels) && r.value.Valid()
      ensures r.Ok? ==> r.value.width == width && r.value.height == height
      ensures r.Ok? && rows.Some? ==> r.value.Rows() == rows.value
      ensures r.Ok? && rows.None? ==>
        bg.Some? && forall y :: 0 <= y < height ==> r.value.Row(y) == Repeat(bg.value.Bytes(), width)
      ensures r.Err? <==> width <= 0 || height <= 0 || (rows.Some? && |rows.value| != height) || (rows.None? && bg.None?)
    {
      if width <= 0 || height <= 0 {
        return Err(NonPositiveDimensions);
      }
      if rows.Some? {
        if |rows.value| != height {
          return Err(RowCountMismatch);
        }
        var c := new Canvas.FromRows(width, height, rows.value);
        return Ok(c);
      }
      if bg.None? {
        return Err(MissingBackground);
      }
      var c := new Canvas.Filled(width, height, bg.value);
      return Ok(c);
    }

    /** set_pixel: outside the canvas nothing happens; inside, exactly the
      * four bytes of pixel (x, y) become the colour. */
    method SetPixel(x: int, y: int, color: Color)
      requires Valid()
      modifies pixels
      ensures forall yy, xx, k :: 0 <= yy < height && 0 <= xx < width && 0 <= k < 4 ==>
        pixels[yy, xx, k] == if xx == x && yy == y then color.Bytes()[k] else old(pixels[yy, xx, k])
    {
      if !(0 <= x < width && 0 <= y < height) {
        return;
      }
      pixels[y, x, 0] := color.r;
      pixels[y, x, 1] := color.g;
      pixels[y, x, 2] := color.b;
      pixels[y, x, 3] := color.a;
    }

    /** fill_rect: exactly the pixels of the rectangle [x, x+w) x [y, y+h)
      * that lie on the canvas become the colour. */
    method FillRect(x: int, y: int, w: int, h: int, color: Color)
      requires Valid()
      modifies pixels
      ensures forall yy, xx, k :: 0 <= yy < height && 0 <= xx < width && 0 <= k < 4 ==>
        pixels[yy, xx, k] == if InRect(xx, yy, x, y, w, h) then color.Bytes()[k] else old(pixels[yy, xx, k])
    {
      var yy := y;
      while yy < y + h
        invariant yy == y || y <= yy <= y + h
        invariant forall py, px, k :: 0 <= py < height && 0 <= px < width && 0 <= k < 4 ==>
          pixels[py, px, k] == if InRect(px, py, x, y, w, yy - y) then color.Bytes()[k] else old(pixels[py, px, k])
      {
        if 0 <= yy < height {
          var start := if x > 0 then x else 0;
          var end := if x + w < width then x + w else width;
          var xx := start;
          while xx < end
            invariant xx == start || start <= xx <= end
            invariant forall py, px, k :: 0 <= py < height && 0 <= px < width && 0 <= k < 4 ==>
              pixels[py, px, k] ==
                if InRect(px, py, x, y, w, yy - y) || (py == yy && start <= px < xx) then color.Bytes()[k]
                else old(pixels[py, px, k])
          {
            pixels[yy, xx, 0] := color.r;
            pixels[yy, xx, 1] := color.g;
            pixels[yy, xx, 2] := color.b;
            pixels[yy, xx, 3] := color.a;
            xx := xx + 1;
          }
        }
        yy := yy + 1;
      }
    }

    /** _draw_glyph: every inked cell becomes a scale x scale block of
      * set_pixel calls; each pixel ends either as it was or in the colour. */
    method DrawGlyph(x: int, y: int, glyph: Glyph, color: Color, scale: int)
      requires Valid()
      modifies pixels
      ensures forall py, px :: 0 <= py < height && 0 <= px < width ==>
        Pixel(px, py) == old(Pixel(px, py)) || Pixel(px, py) == color.Bytes()
    {
      var gy := 0;
      while gy < |glyph|
        invariant 0 <= gy <= |glyph|
        invariant forall py, px :: 0 <= py < height && 0 <= px < width ==>
          Pixel(px, py) == old(Pixel(px, py)) || Pixel(px, py) == color.Bytes()
      {
        var line := glyph[gy];
        var gx := 0;
        while gx < |line|
          invariant 0 <= gx <= |line|
          invariant forall py, px :: 0 <= py < height && 0 <= px < width ==>
            Pixel(px, py) == old(Pixel(px, py)) || Pixel(px, py) == color.Bytes()
        {
          if line[gx] == '#' {
            var sy := 0;
            while sy < scale
              invariant forall py, px :: 0 <= py < height && 0 <= px < width ==>
                Pixel(px, py) == old(Pixel(px, py)) || Pixel(px, py) == color.Bytes()
            {
              var sx := 0;
              while sx < scale
                invariant forall py, px :: 0 <= py < height && 0 <= px < width ==>
                  Pixel(px, py) == old(Pixel(px, py)) || Pixel(px, py) == color.Bytes()
              {
                SetPixel(x + gx * scale + sx, y + gy * scale + sy, color);
                sx := sx + 1;
              }
              sy := sy + 1;
            }
          }
          gx := gx + 1;
        }
        gy := gy + 1;
      }
    }

    /** draw_text: the text is upper-cased, each character with a glyph is
      * drawn at the cursor, and the cursor advances per character. The
      * final cursor position is returned so that the advance can be stated. */
    method DrawText(x: int, y: int, text: string, color: Color, scale: int, spacing: int, font: map<char, Glyph>)
      returns (cursor: int)
      requires Valid() && FontShaped(font)
      modifies pixels
      ensures cursor == x + Advance(Text.Upper(text), font, scale, spacing)
      ensures forall py, px :: 0 <= py < height && 0 <= px < width ==>
        Pixel(px, py) == old(Pixel(px, py)) || Pixel(px, py) == color.Bytes()
    {
      var upper := Text.Upper(text);
      cursor := x;
      var i := 0;
      while i < |upper|
        invariant 0 <= i <= |upper|
        invariant cursor == x + Advance(upper[..i], font, scale, spacing)
        invariant forall py, px :: 0 <= py < height && 0 <= px < width ==>
          Pixel(px, py) == old(Pixel(px, py)) || Pixel(px, py) == color.Bytes()
      {
        var c := upper[i];
        assert upper[..i + 1][..i] == upper[..i];
        if c !in font {
          cursor := cursor + (5 * scale) + spacing * scale;
        } else {
          DrawGlyph(cursor, y, font[c], color, scale);
          cursor := cursor + (|font[c][0]| * scale) + spacing * scale;
        }
        i := i + 1;
      }
      assert upper[..|upper|] == upper;
    }

    /** clone: a new canvas, sharing no buffer with this one, with the same
      * dimensions and bytes. */
    method Clone() returns (c: Canvas)
      requires Valid()
      ensures fresh(c) && fresh(c.pixels) && c.Valid()
      ensures c.width == width && c.height == height && c.Rows() == Rows()
    {
      c := new Canvas.FromRows(width, height, Rows());
    }

    /** to_png over the current rows. */
    function ToPng(compress: seq<byte> -> seq<byte>, crc32: seq<byte> -> u32): Option<seq<byte>>
      requires Valid()
      reads this, pixels
    {
      Png(width, height, Rows(), compress, crc32)
    }
  }

  /** Whether pixel (px, py) lies in the rectangle [x, x+w) x [y, y+h). */
  predicate InRect(px: int, py: int, x: int, y: int, w: int, h: int) {
    x <= px < x + w && y <= py < y + h
  }

  /** s repeated n times (bytes(bg) * width). */
  function Repeat(s: seq<byte>, n: nat): (r: seq<byte>)
    ensures |r| == n * |s|
  {
    if n == 0 then [] else Repeat(s, n - 1) + s
  }

  lemma {:induction false} RepeatAt(s: seq<byte>, n: nat)
    requires |s| == 4
    ensures forall i :: 0 <= i < 4 * n ==> Repeat(s, n)[i] == s[i % 4]
  {
    if n > 0 {
      RepeatAt(s, n - 1);
    }
  }

  // ---- PNG framing -------------------------------------------------------

  /** int.to_bytes(4, "big"). */
  function Be32(n: u32): (b: seq<byte>)
    ensures |b| == 4
  {
    [n / 0x100_0000, (n / 0x1_0000) % 0x100, (n / 0x100) % 0x100, n % 0x100]
  }

  /** int.from_bytes(b, "big") for four bytes. */
  function FromBe32(b: seq<byte>): int
    requires |b| == 4
  {
    ((b[0] as int * 0x100 + b[1]) * 0x100 + b[2]) * 0x100 + b[3]
  }

  /** Big-endian encoding reads back. */
  lemma Be32RoundTrip(n: u32)
    ensures FromBe32(Be32(n)) == n
  {
  }

  /** Every four bytes are the encoding of the number they read as. */
  lemma FromBe32RoundTrip(b: seq<byte>)
    requires |b| == 4
    ensures 0 <= FromBe32(b) < 0x1_0000_0000 && Be32(FromBe32(b)) == b
  {
    var v := FromBe32(b);
    var high := b[0] as int * 0x100 + b[1];
    var upper := high * 0x100 + b[2];
    assert v == upper * 0x100 + b[3];
    assert v == high * 0x1_0000 + (b[2] * 0x100 + b[3]);
    assert v == b[0] as int * 0x100_0000 + ((b[1] as int * 0x100 + b[2]) * 0x100 + b[3]);
    assert v / 0x100 == upper && v % 0x100 == b[3];
    assert upper % 0x100 == b[2];
    assert v / 0x1_0000 == high && high % 0x100 == b[1];
    assert v / 0x100_0000 == b[0];
  }

  const Signature: seq<byte> := [0x89, 0x50, 0x4E, 0x47, 0x0D, 0x0A, 0x1A, 0x0A]
  const IhdrType: seq<byte> := [0x49, 0x48, 0x44, 0x52]
  const IdatType: seq<byte> := [0x49, 0x44, 0x41, 0x54]
  const IendType: seq<byte> := [0x49, 0x45, 0x4E, 0x44]

  /** to_png's chunk(): length, type, data, CRC of type and data. */
  function Chunk(kind: seq<byte>, data: seq<byte>, crc32: seq<byte> -> u32): (c: seq<byte>)
    requires |data| < 0x1_0000_0000
    ensures |c| == 8 + |kind| + |data|
  {
    Be32(|data|) + kind + data + Be32(crc32(kind + data))
  }

  /** Reading one chunk off the front of a stream: its type, its data and
    * the rest, when the length fits and the CRC matches. */
  function ParseChunk(bytes: seq<byte>, crc32: seq<byte> -> u32): Option<(seq<byte>, seq<byte>, seq<byte>)> {
    if |bytes| < 8 then None else
    var len := FromBe32(bytes[..4]);
    if |bytes| < 12 + len then None else
    var kind := bytes[4..8];
    var data := bytes[8..8 + len];
    if bytes[8 + len..12 + len] != Be32(crc32(kind + data)) then None
    else Some((kind, data, bytes[12 + len..]))
  }

  /** Each chunk is framed so that it reads back: its type, its data and
    * whatever follows it. */
  lemma ChunkRoundTrip(kind: seq<byte>, data: seq<byte>, rest: seq<byte>, crc32: seq<byte> -> u32)
    requires |kind| == 4 && |data| < 0x1_0000_0000
    ensures ParseChunk(Chunk(kind, data, crc32) + rest, crc32) == Some((kind, data, rest))
  {
    var bytes := Chunk(kind, data, crc32) + rest;
    assert bytes[..4] == Be32(|data|);
    Be32RoundTrip(|data|);
    assert bytes[4..8] == kind;
    assert bytes[8..8 + |data|] == data;
    assert bytes[8 + |data|..12 + |data|] == Be32(crc32(kind + data));
    assert bytes[12 + |data|..] == rest;
  }

  /** The IHDR payload: width, height, bit depth 8, colour type 6 (RGBA), and
    * the default compression, filter and interlace methods. */
  function Ihdr(width: u32, height: u32): seq<byte> {
    Be32(width) + Be32(height) + [8, 6, 0, 0, 0]
  }

  /** The scanlines handed to zlib: each row prefixed by filter type 0. */
  function Scanlines(rows: seq<seq<byte>>): seq<byte> {
    if |rows| == 0 then [] else [0] + rows[0] + Scanlines(rows[1..])
  }

  /** Cutting a scanline stream back into rows of the given length. */
  function Unfilter(raw: seq<byte>, rowLen: nat): seq<seq<byte>>
    decreases |raw|
  {
    if |raw| < 1 + rowLen then [] else [raw[1..1 + rowLen]] + Unfilter(raw[1 + rowLen..], rowLen)
  }

  /** The scanline stream of equally long rows splits back into those rows. */
  lemma {:induction false} ScanlinesRoundTrip(rows: seq<seq<byte>>, rowLen: nat)
    requires forall y :: 0 <= y < |rows| ==> |rows[y]| == rowLen
    ensures Unfilter(Scanlines(rows), rowLen) == rows
  {
    if |rows| > 0 {
      var raw := Scanlines(rows);
      ScanlinesRoundTrip(rows[1..], rowLen);
      assert raw[1..1 + rowLen] == rows[0];
      assert raw[1 + rowLen..] == Scanlines(rows[1..]);
      assert [rows[0]] + rows[1..] == rows;
    }
  }

  /** to_png: the signature and the IHDR, IDAT and IEND chunks, or nothing
    * when a width, height or length does not fit the four bytes to_bytes
    * gives it (OverflowError). */
  function Png(width: nat, height: nat, rows: seq<seq<byte>>,
               compress: seq<byte> -> seq<byte>, crc32: seq<byte> -> u32): Option<seq<byte>> {
    var compressed := compress(Scanlines(rows));
    if width >= 0x1_0000_0000 || height >= 0x1_0000_0000 || |compressed| >= 0x1_0000_0000 then None
    else Some(Signature + Chunk(IhdrType, Ihdr(width, height), crc32)
                        + Chunk(IdatType, compressed, crc32) + Chunk(IendType, [], crc32))
  }

  /** The stream starts with the 8-byte signature and then the 13-byte IHDR
    * chunk, so bytes 16..20 and 20..24 read back as width and height. */
  lemma PngHeader(width: nat, height: nat, rows: seq<seq<byte>>,
                  compress: seq<byte> -> seq<byte>, crc32: seq<byte> -> u32)
    ensures Png(width, height, rows, compress, crc32).Some? <==>
      width < 0x1_0000_0000 && height < 0x1_0000_0000 && |compress(Scanlines(rows))| < 0x1_0000_0000
    ensures Png(width, height, rows, compress, crc32).Some? ==>
      var png := Png(width, height, rows, compress, crc32).value;
      |png| >= 24 && png[..8] == Signature && FromBe32(png[8..12]) == 13 && png[12..16] == IhdrType &&
      FromBe32(png[16..20]) == width && FromBe32(png[20..24]) == height
  {
    if Png(width, height, rows, compress, crc32).Some? {
      var png := Png(width, height, rows, compress, crc32).value;
      var ihdr := Ihdr(width, height);
      assert png[8..12] == Be32(13);
      assert png[12..16] == IhdrType;
      assert png[16..20] == Be32(width);
      assert png[20..24] == Be32(height);
      Be32RoundTrip(13);
      Be32RoundTrip(width);
      Be32RoundTrip(height);
    }
  }

  /** After the signature the stream parses as exactly the IHDR, IDAT and
    * IEND chunks, carrying the header, the compressed scanlines and
    * nothing. */
  lemma PngChunks(width: nat, height: nat, rows: seq<seq<byte>>,
                  compress: seq<byte> -> seq<byte>, crc32: seq<byte> -> u32)
    requires Png(width, height, rows, compress, crc32).Some?
    ensures var body := Png(width, height, rows, compress, crc32).value[8..];
      var compressed := compress(Scanlines(rows));
      var endChunk := Chunk(IendType, [], crc32);
      var dataChunk := Chunk(IdatType, compressed, crc32);
      ParseChunk(body, crc32) == Some((IhdrType, Ihdr(width, height), dataChunk + endChunk)) &&
      ParseChunk(dataChunk + endChunk, crc32) == Some((IdatType, compressed, endChunk)) &&
      ParseChunk(endChunk, crc32) == Some((IendType, [], []))
  {
    var compressed := compress(Scanlines(rows));
    var headChunk := Chunk(IhdrType, Ihdr(width, height), crc32);
    var dataChunk := Chunk(IdatType, compressed, crc32);
    var endChunk := Chunk(IendType, [], crc32);
    var png := Png(width, height, rows, compress, crc32).value;
    assert png == Signature + (headChunk + (dataChunk + endChunk));
    assert png[8..] == headChunk + (dataChunk + endChunk);
    ChunkRoundTrip(IhdrType, Ihdr(width, height), dataChunk + endChunk, crc32);
    ChunkRoundTrip(IdatType, compressed, endChunk, crc32);
    ChunkRoundTrip(IendType, [], [], crc32);
    assert endChunk + [] == endChunk;
  }
}

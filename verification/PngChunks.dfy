/** The placeholder PNG: its chunk layout (section 3.2 of RFC 2083) and its scanlines.

    A byte is a number below 256.  The checksum is any function of the chunk body.
 */
module PngChunks {
  import opened Wrappers

  type Byte = b: int | 0 <= b < 256 witness 0
  type Bytes = seq<Byte>

  const WORD := 0x1_0000_0000

  /** A chunk type is four bytes, and its data is shorter than 2^32. */
  datatype Chunk = Chunk(tag: Bytes, data: Bytes)

  predicate Fits(c: Chunk) {
    |c.tag| == 4 && |c.data| < WORD
  }

  /** zlib.crc32, masked to 32 bits. */
  type Checksum = Bytes -> int

  function Masked(n: int): (m: int)
    ensures 0 <= m < WORD && (n - m) % 0x1_0000_0000 == 0
  {
    n % WORD
  }

  // ---------------------------------------------------------------- four-byte words

  function Pow256(w: nat): int
    ensures Pow256(w) > 0
  {
    if w == 0 then 1 else 256 * Pow256(w - 1)
  }

  /** The w-byte big-endian form of n. */
  function BigEndian(n: int, w: nat): (b: Bytes)
    requires 0 <= n
    ensures |b| == w
    decreases w
  {
    if w == 0 then [] else BigEndian(n / 256, w - 1) + [n % 256]
  }

  function Number(b: Bytes): (n: int)
    ensures 0 <= n < Pow256(|b|)
  {
    if b == [] then 0 else 256 * Number(b[..|b| - 1]) + b[|b| - 1]
  }

  lemma {:induction false} NumberRoundTrip(n: int, w: nat)
    requires 0 <= n < Pow256(w)
    ensures Number(BigEndian(n, w)) == n
  {
    if w > 0 {
      NumberRoundTrip(n / 256, w - 1);
      assert BigEndian(n, w)[..w - 1] == BigEndian(n / 256, w - 1);
    }
  }

  lemma {:induction false} BytesRoundTrip(b: Bytes)
    ensures BigEndian(Number(b), |b|) == b
  {
    if b != [] {
      BytesRoundTrip(b[..|b| - 1]);
      assert b == b[..|b| - 1] + [b[|b| - 1]];
      assert Number(b) / 256 == Number(b[..|b| - 1]);
    }
  }

  lemma WordIsFour()
    ensures Pow256(4) == WORD
  {
  }

  /** struct.pack(">I", n) */
  function Pack(n: int): (b: Bytes)
    requires 0 <= n < WORD
    ensures |b| == 4
  {
    BigEndian(n, 4)
  }

  function Unpack(b: Bytes): (n: int)
    requires |b| == 4
    ensures 0 <= n < WORD
  {
    WordIsFour();
    Number(b)
  }

  lemma WordRoundTrip(n: int, b: Bytes)
    requires 0 <= n < WORD && |b| == 4
    ensures Unpack(Pack(n)) == n
    ensures Pack(Unpack(b)) == b
  {
    WordIsFour();
    NumberRoundTrip(n, 4);
    BytesRoundTrip(b);
  }

  // ---------------------------------------------------------------- chunks

  function Emit(crc: Checksum, c: Chunk): Bytes
    requires Fits(c)
  {
    var body := c.tag + c.data;
    Pack(|c.data|) + body + Pack(Masked(crc(body)))
  }

  predicate AllFit(cs: seq<Chunk>) {
    forall i :: 0 <= i < |cs| ==> Fits(cs[i])
  }

  function EmitAll(crc: Checksum, cs: seq<Chunk>): Bytes
    requires AllFit(cs)
  {
    if cs == [] then [] else Emit(crc, cs[0]) + EmitAll(crc, cs[1..])
  }

  /** Reads one chunk off the front: length, type, data, checksum. */
  function Read(crc: Checksum, s: Bytes): (r: Option<(Chunk, Bytes)>)
    ensures r.Some? ==> Fits(r.value.0) && |r.value.1| < |s|
  {
    if |s| < 12 then None
    else
      var n := Unpack(s[..4]);
      if |s| < 12 + n then None
      else if s[8 + n..12 + n] != Pack(Masked(crc(s[4..8 + n]))) then None
      else Some((Chunk(s[4..8], s[8..8 + n]), s[12 + n..]))
  }

  function ReadAll(crc: Checksum, s: Bytes): Option<seq<Chunk>>
    decreases |s|
  {
    if s == [] then Some([])
    else match Read(crc, s)
      case None => None
      case Some((c, rest)) =>
        match ReadAll(crc, rest)
        case None => None
        case Some(cs) => Some([c] + cs)
  }

  lemma ReadEmitted(crc: Checksum, c: Chunk, rest: Bytes)
    requires Fits(c)
    ensures Read(crc, Emit(crc, c) + rest) == Some((c, rest))
  {
    hide Unpack, Pack, Masked;
    var s, n := Emit(crc, c) + rest, |c.data|;
    WordRoundTrip(n, Pack(n));
    assert s[..4] == Pack(n);
    assert s[4..8] == c.tag && s[8..8 + n] == c.data && s[4..8 + n] == c.tag + c.data;
    assert s[8 + n..12 + n] == Pack(Masked(crc(c.tag + c.data))) && s[12 + n..] == rest;
  }

  lemma ReadIsEmit(crc: Checksum, s: Bytes)
    requires Read(crc, s).Some?
    ensures var (c, rest) := Read(crc, s).value; s == Emit(crc, c) + rest
  {
    hide Unpack, Pack, Masked;
    var n := Unpack(s[..4]);
    WordRoundTrip(n, s[..4]);
    assert s[4..8 + n] == s[4..8] + s[8..8 + n];
    assert s == s[..4] + s[4..8 + n] + s[8 + n..12 + n] + s[12 + n..];
  }

  /** Main result: a stream of chunks parses back to exactly the chunks written ... */
  lemma {:induction false} ParseBack(crc: Checksum, cs: seq<Chunk>)
    requires AllFit(cs)
    ensures ReadAll(crc, EmitAll(crc, cs)) == Some(cs)
    decreases |cs|
  {
    hide Read, Emit;
    if cs != [] {
      ReadEmitted(crc, cs[0], EmitAll(crc, cs[1..]));
      ParseBack(crc, cs[1..]);
      assert cs == [cs[0]] + cs[1..];
    }
  }

  /** ... and every stream that parses is the stream of what it parses to, so the split is unique. */
  lemma {:induction false} ParsedIsEmitted(crc: Checksum, s: Bytes)
    requires ReadAll(crc, s).Some?
    ensures AllFit(ReadAll(crc, s).value) && EmitAll(crc, ReadAll(crc, s).value) == s
    decreases |s|
  {
    if s != [] {
      ReadIsEmit(crc, s);
      var (c, rest) := Read(crc, s).value;
      ParsedIsEmitted(crc, rest);
      var cs := ReadAll(crc, rest).value;
      assert ([c] + cs)[1..] == cs;
    }
  }

  lemma SplitIsUnique(crc: Checksum, a: seq<Chunk>, b: seq<Chunk>)
    requires AllFit(a) && AllFit(b) && EmitAll(crc, a) == EmitAll(crc, b)
    ensures a == b
  {
    ParseBack(crc, a);
    ParseBack(crc, b);
  }

  // ---------------------------------------------------------------- scanlines

  datatype Pixel = Pixel(r: Byte, g: Byte, b: Byte, a: Byte)

  function RowLength(width: nat): nat {
    1 + 4 * width
  }

  /** Row y starts with filter byte 0 and holds the colours of its pixels in order. */
  ghost predicate RowAt(raw: Bytes, at: nat, width: nat, colour: int -> Pixel) {
    && at + RowLength(width) <= |raw| && raw[at] == 0
    && forall x :: 0 <= x < width ==>
         raw[at + 1 + 4 * x] == colour(x).r && raw[at + 2 + 4 * x] == colour(x).g
         && raw[at + 3 + 4 * x] == colour(x).b && raw[at + 4 + 4 * x] == colour(x).a
  }

  ghost predicate RowsAt(raw: Bytes, rows: nat, width: nat, image: (int, int) -> Pixel) {
    forall y :: 0 <= y < rows ==> RowAt(raw, y * RowLength(width), width, x => image(x, y))
  }

  /** The scanline loop; `onLine` says which pixels the drawn line covers. */
  method Scanlines(width: nat, height: nat, fg: Pixel, bg: Pixel, onLine: (int, int) -> bool) returns (raw: Bytes)
    ensures |raw| == height * RowLength(width)
    ensures RowsAt(raw, height, width, (x, y) => if onLine(x, y) then fg else bg)
  {
    raw := [];
    var y := 0;
    while y < height
      invariant 0 <= y <= height && |raw| == y * RowLength(width)
      invariant RowsAt(raw, y, width, (x, y) => if onLine(x, y) then fg else bg)
    {
      ghost var above := raw;
      raw := raw + [0];
      var x := 0;
      while x < width
        invariant 0 <= x <= width && |raw| == y * RowLength(width) + 1 + 4 * x
        invariant above <= raw && raw[|above|] == 0
        invariant forall i :: 0 <= i < x ==>
          var c := if onLine(i, y) then fg else bg;
          raw[|above| + 1 + 4 * i] == c.r && raw[|above| + 2 + 4 * i] == c.g
          && raw[|above| + 3 + 4 * i] == c.b && raw[|above| + 4 + 4 * i] == c.a
      {
        var c := if onLine(x, y) then fg else bg;
        raw := raw + [c.r, c.g, c.b, c.a];
        x := x + 1;
      }
      RowsStay(above, raw, y, width, (x, y) => if onLine(x, y) then fg else bg);
      RowFits(y, width);
      y := y + 1;
    }
  }

  lemma RowFits(y: nat, width: nat)
    ensures (y + 1) * RowLength(width) == y * RowLength(width) + RowLength(width)
  {
  }

  lemma RowsStay(above: Bytes, raw: Bytes, rows: nat, width: nat, image: (int, int) -> Pixel)
    requires above <= raw && RowsAt(above, rows, width, image)
    ensures RowsAt(raw, rows, width, image)
  {
    forall y | 0 <= y < rows
      ensures RowAt(raw, y * RowLength(width), width, x => image(x, y))
    {
      assert RowAt(above, y * RowLength(width), width, x => image(x, y));
    }
  }

  // ---------------------------------------------------------------- the file

  const SIGNATURE: Bytes := [0x89, 0x50, 0x4E, 0x47, 0x0D, 0x0A, 0x1A, 0x0A]
  const IHDR: Bytes := [0x49, 0x48, 0x44, 0x52]
  const IDAT: Bytes := [0x49, 0x44, 0x41, 0x54]
  const IEND: Bytes := [0x49, 0x45, 0x4E, 0x44]

  function Ascii(s: string): Bytes
    requires forall i :: 0 <= i < |s| ==> s[i] < 128 as char
  {
    seq(|s|, i requires 0 <= i < |s| => s[i] as int)
  }

  /** The signature and the chunk types spell what sections 3.1 and 4.1 of RFC 2083 ask for. */
  lemma NamesSpell()
    ensures SIGNATURE == [137] + Ascii("PNG") + [13, 10, 26, 10]
    ensures IHDR == Ascii("IHDR") && IDAT == Ascii("IDAT") && IEND == Ascii("IEND")
  {
  }

  function Header(width: int, height: int): Bytes
    requires 0 <= width < WORD && 0 <= height < WORD
  {
    Pack(width) + Pack(height) + [8, 6, 0, 0, 0]
  }

  /** What the header says: width and height as words, eight bits a sample, colour with alpha, and the
      standard compression, filter and interlace methods (section 4.1.1 of RFC 2083). */
  lemma HeaderReads(width: int, height: int)
    requires 0 <= width < WORD && 0 <= height < WORD
    ensures
      var h := Header(width, height);
      |h| == 13 && Unpack(h[..4]) == width && Unpack(h[4..8]) == height && h[8..] == [8, 6, 0, 0, 0]
  {
    hide Pack, Unpack;
    var h := Header(width, height);
    WordRoundTrip(width, Pack(width));
    WordRoundTrip(height, Pack(height));
    assert h[..4] == Pack(width) && h[4..8] == Pack(height);
  }

  /** The file written for an icon, given the compressed scanlines; what follows the signature
      parses back to header, pixels and end. */
  method WritePng(crc: Checksum, width: int, height: int, pixels: Bytes) returns (png: Bytes)
    requires 0 <= width < WORD && 0 <= height < WORD && |pixels| < WORD
    ensures SIGNATURE <= png
    ensures ReadAll(crc, png[|SIGNATURE|..]) ==
      Some([Chunk(IHDR, Header(width, height)), Chunk(IDAT, pixels), Chunk(IEND, [])])
  {
    var chunks := [Chunk(IHDR, Header(width, height)), Chunk(IDAT, pixels), Chunk(IEND, [])];
    hide Emit, EmitAll, ReadAll, Header;
    png := SIGNATURE;
    var i := 0;
    StreamStarts(crc, chunks);
    while i < |chunks|
      invariant 0 <= i <= |chunks| && SIGNATURE <= png && AllFit(chunks)
      invariant png[|SIGNATURE|..] + EmitAll(crc, chunks[i..]) == EmitAll(crc, chunks)
    {
      StreamGrows(crc, chunks, i, png, |SIGNATURE|);
      png := png + Emit(crc, chunks[i]);
      i := i + 1;
    }
    StreamEnds(crc, chunks, png);
  }

  lemma StreamStarts(crc: Checksum, chunks: seq<Chunk>)
    requires AllFit(chunks)
    ensures SIGNATURE[|SIGNATURE|..] + EmitAll(crc, chunks[0..]) == EmitAll(crc, chunks)
  {
    assert chunks[0..] == chunks && SIGNATURE[|SIGNATURE|..] == [];
  }

  lemma StreamGrows(crc: Checksum, chunks: seq<Chunk>, i: nat, png: Bytes, n: nat)
    requires AllFit(chunks) && i < |chunks| && n <= |png|
    requires png[n..] + EmitAll(crc, chunks[i..]) == EmitAll(crc, chunks)
    ensures (png + Emit(crc, chunks[i]))[n..] + EmitAll(crc, chunks[i + 1..]) == EmitAll(crc, chunks)
  {
    hide Emit, EmitAll, Fits;
    var one, rest := Emit(crc, chunks[i]), EmitAll(crc, chunks[i + 1..]);
    EmitFirst(crc, chunks, i);
    assert (png + one)[n..] == png[n..] + one;
    assert png[n..] + (one + rest) == (png[n..] + one) + rest;
  }

  lemma EmitFirst(crc: Checksum, chunks: seq<Chunk>, i: nat)
    requires AllFit(chunks) && i < |chunks|
    ensures EmitAll(crc, chunks[i..]) == Emit(crc, chunks[i]) + EmitAll(crc, chunks[i + 1..])
  {
    hide Emit;
    assert chunks[i..][1..] == chunks[i + 1..];
  }

  lemma StreamEnds(crc: Checksum, chunks: seq<Chunk>, png: Bytes)
    requires AllFit(chunks) && SIGNATURE <= png
    requires png[|SIGNATURE|..] + EmitAll(crc, chunks[|chunks|..]) == EmitAll(crc, chunks)
    ensures ReadAll(crc, png[|SIGNATURE|..]) == Some(chunks)
  {
    assert png[|SIGNATURE|..] + [] == png[|SIGNATURE|..];
    ParseBack(crc, chunks);
  }
}

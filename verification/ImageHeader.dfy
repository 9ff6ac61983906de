/**
 `_image_dimensions_from_bytes`: the PNG header and the JPEG marker scan, with the byte strings the scan
 accepts described independently of it.
 */
module ImageHeader {
  import opened Common

  datatype Dimensions = Dimensions(format: string, width: nat, height: nat)

  const PNG_SIGNATURE: seq<byte> := [0x89, 0x50, 0x4E, 0x47, 0x0D, 0x0A, 0x1A, 0x0A]
  const IHDR: seq<byte> := [0x49, 0x48, 0x44, 0x52]

  function U16(hi: byte, lo: byte): nat { hi as nat * 256 + lo as nat }

  function U32(s: seq<byte>): nat
    requires |s| == 4
  {
    ((s[0] as nat * 256 + s[1] as nat) * 256 + s[2] as nat) * 256 + s[3] as nat
  }

  predicate IsFrameMarker(m: byte) { 0xC0 <= m <= 0xCF && m != 0xC4 && m != 0xC8 && m != 0xCC }

  predicate IsStandalone(m: byte) { m == 0x01 || 0xD0 <= m <= 0xD8 }

  // ---------------------------------------------------------------- the scan

  /** The stream without its leading fill bytes. */
  function SkipFill(s: seq<byte>): (u: seq<byte>)
    ensures |u| <= |s| && (u != [] ==> u[0] != 0xFF)
  {
    if s != [] && s[0] == 0xFF then SkipFill(s[1..]) else s
  }

  /** A forward seek, which may pass the end. */
  function Drop(s: seq<byte>, n: nat): seq<byte> { if n <= |s| then s[n..] else [] }

  /** The marker scan of what is left of the stream; every step leaves less. */
  function Scan(s: seq<byte>): Result<Dimensions>
    decreases |s|
  {
    if s == [] then Err("JPEG has no start-of-frame marker")
    else if s[0] != 0xFF then Scan(s[1..])
    else
      var u := SkipFill(s[1..]);
      if u == [] then Err("truncated JPEG marker")
      else if IsStandalone(u[0]) then Scan(u[1..])
      else if |u| < 3 then Err("truncated JPEG segment")
      else
        var length := U16(u[1], u[2]);
        if length < 2 then Err("invalid JPEG segment length")
        else if IsFrameMarker(u[0]) then
          if |u| < 8 then Err("truncated JPEG start-of-frame")
          else
            var height, width := U16(u[4], u[5]), U16(u[6], u[7]);
            if width == 0 || height == 0 then Err("invalid JPEG dimensions") else Ok(Dimensions("jpeg", width, height))
        else Scan(Drop(u, 1 + length))
  }

  function HeaderOf(c: seq<byte>): Result<Dimensions> {
    if PNG_SIGNATURE <= c then
      if |c| < 24 || c[12..16] != IHDR then Err("invalid PNG IHDR")
      else
        var width, height := U32(c[16..20]), U32(c[20..24]);
        if width == 0 || height == 0 then Err("invalid PNG dimensions") else Ok(Dimensions("png", width, height))
    else if !([0xFF, 0xD8] <= c) then Err("image is neither PNG nor JPEG")
    else Scan(c[2..])
  }

  /** The reader as code. */
  method ImageDimensions(content: seq<byte>) returns (r: Result<Dimensions>)
    ensures r == HeaderOf(content)
  {
    if PNG_SIGNATURE <= content {
      if |content| < 24 || content[12..16] != IHDR {
        return Err("invalid PNG IHDR");
      }
      var width, height := U32(content[16..20]), U32(content[20..24]);
      if width == 0 || height == 0 {
        return Err("invalid PNG dimensions");
      }
      return Ok(Dimensions("png", width, height));
    }
    if !([0xFF, 0xD8] <= content) {
      return Err("image is neither PNG nor JPEG");
    }
    r := ScanMarkers(content, 2);
  }

  /** What the scan does with the stream from a marker byte on. */
  function AtMarker(u: seq<byte>): Result<Dimensions> {
    if u == [] then Err("truncated JPEG marker")
    else if IsStandalone(u[0]) then Scan(Drop(u, 1))
    else if |u| < 3 then Err("truncated JPEG segment")
    else if U16(u[1], u[2]) < 2 then Err("invalid JPEG segment length")
    else if IsFrameMarker(u[0]) then
      if |u| < 8 then Err("truncated JPEG start-of-frame")
      else if U16(u[6], u[7]) == 0 || U16(u[4], u[5]) == 0 then Err("invalid JPEG dimensions")
      else Ok(Dimensions("jpeg", U16(u[6], u[7]), U16(u[4], u[5])))
    else Scan(Drop(u, 1 + U16(u[1], u[2])))
  }

  lemma ScanAtMarker(c: seq<byte>, pos: nat, m: nat)
    requires pos < m <= |c| && c[pos] == 0xFF && SkipFill(c[pos + 1..]) == c[m..]
    ensures Scan(Drop(c, pos)) == AtMarker(c[m..])
  {
    SuffixStep(c, pos);
    assert SkipFill(c[pos..][1..]) == c[m..];
  }

  lemma ScanStray(c: seq<byte>, pos: nat)
    requires pos < |c| && c[pos] != 0xFF
    ensures ScanFrom(c, pos) == ScanFrom(c, pos + 1)
  {
    SuffixStep(c, pos);
  }

  /** The result found from the marker on, or how far to move on for the same result. */
  ghost predicate Reads(u: seq<byte>, skip: nat, r: Option<Result<Dimensions>>) {
    match r
    case Some(result) => result == AtMarker(u)
    case None => AtMarker(u) == Scan(Drop(u, skip))
  }

  /** What is read from a marker byte on. */
  method ReadMarker(u: seq<byte>) returns (skip: nat, r: Option<Result<Dimensions>>)
    ensures Reads(u, skip, r)
  {
    skip := 1;
    if u == [] {
      return skip, Some(Err("truncated JPEG marker"));
    }
    if IsStandalone(u[0]) {
      return skip, None;
    }
    if |u| < 3 {
      return skip, Some(Err("truncated JPEG segment"));
    }
    var length := U16(u[1], u[2]);
    if length < 2 {
      return skip, Some(Err("invalid JPEG segment length"));
    }
    if !IsFrameMarker(u[0]) {
      return 1 + length, None;
    }
    if |u| < 8 {
      return skip, Some(Err("truncated JPEG start-of-frame"));
    }
    var height, width := U16(u[4], u[5]), U16(u[6], u[7]);
    if width == 0 || height == 0 {
      return skip, Some(Err("invalid JPEG dimensions"));
    }
    return skip, Some(Ok(Dimensions("jpeg", width, height)));
  }

  /** The scan of what is left from position `pos` on. */
  function ScanFrom(c: seq<byte>, pos: nat): Result<Dimensions> { Scan(Drop(c, pos)) }

  /** The scan's result, or a position further on from which the scan finds the same. */
  ghost predicate Advances(c: seq<byte>, pos: nat, next: nat, r: Option<Result<Dimensions>>) {
    match r
    case Some(result) => result == ScanFrom(c, pos)
    case None => pos < next && ScanFrom(c, next) == ScanFrom(c, pos)
  }

  /** What reading from the marker on found is what the scan finds from the fill bytes before it on. */
  lemma MarkerRound(c: seq<byte>, pos: nat, m: nat, skip: nat, r: Option<Result<Dimensions>>)
    requires pos < m <= |c| && c[pos] == 0xFF && SkipFill(c[pos + 1..]) == c[m..]
    requires Reads(c[m..], skip, r)
    ensures Advances(c, pos, m + skip, r)
  {
    ScanAtMarker(c, pos, m);
    DropTwice(c, m, skip);
  }

  /** One round of the marker loop: a result, or a position further on from which the scan goes on. */
  method ScanRound(content: seq<byte>, pos: nat) returns (next: nat, r: Option<Result<Dimensions>>)
    requires pos < |content|
    ensures Advances(content, pos, next, r)
  {
    if content[pos] != 0xFF {
      ScanStray(content, pos);
      next, r := pos + 1, None;
    } else {
      next, r := ScanMarkerAt(content, pos);
    }
  }

  method ScanMarkerAt(content: seq<byte>, pos: nat) returns (next: nat, r: Option<Result<Dimensions>>)
    requires pos < |content| && content[pos] == 0xFF
    ensures Advances(content, pos, next, r)
  {
    var marker := SkipFillBytes(content, pos + 1);
    var skip;
    skip, r := ReadMarker(content[marker..]);
    MarkerRound(content, pos, marker, skip, r);
    next := marker + skip;
  }

  /** The marker loop: a stream cursor that only moves forward. */
  method ScanMarkers(content: seq<byte>, start: nat) returns (r: Result<Dimensions>)
    requires start <= |content|
    ensures r == Scan(content[start..])
  {
    var pos := start;
    while pos < |content|
      invariant start <= pos && ScanFrom(content, start) == ScanFrom(content, pos)
      decreases |content| - pos
    {
      var next, done := ScanRound(content, pos);
      if done.Some? {
        return done.value;
      }
      pos := next;
    }
    return Err("JPEG has no start-of-frame marker");
  }

  method SkipFillBytes(content: seq<byte>, start: nat) returns (pos: nat)
    requires start <= |content|
    ensures start <= pos <= |content| && SkipFill(content[start..]) == content[pos..]
  {
    pos := start;
    while pos < |content| && content[pos] == 0xFF
      invariant start <= pos <= |content| && SkipFill(content[start..]) == SkipFill(content[pos..])
    {
      SuffixStep(content, pos);
      pos := pos + 1;
    }
  }

  lemma SuffixStep(c: seq<byte>, pos: nat)
    requires pos < |c|
    ensures c[pos..] != [] && c[pos..][0] == c[pos] && c[pos..][1..] == c[pos + 1..]
  {
  }

  lemma DropTwice(c: seq<byte>, pos: nat, n: nat)
    requires pos <= |c|
    ensures Drop(c[pos..], n) == Drop(c, pos + n)
  {
  }

  // --------------------------------------------------------- accepted streams

  /** What may come before the frame header: stray bytes, parameterless markers, and whole segments. */
  datatype Element =
    | Stray(b: byte)
    | Standalone(fill: nat, marker: byte)
    | Segment(fill: nat, marker: byte, payload: seq<byte>)

  datatype Frame = Frame(fill: nat, marker: byte, length: nat, precision: byte, height: nat, width: nat)

  predicate ElementOk(e: Element) {
    match e
    case Stray(b) => b != 0xFF
    case Standalone(_, m) => IsStandalone(m)
    case Segment(_, m, payload) => m != 0xFF && !IsStandalone(m) && !IsFrameMarker(m) && |payload| + 2 < 0x10000
  }

  ghost predicate ElementsOk(es: seq<Element>) { forall i | 0 <= i < |es| :: ElementOk(es[i]) }

  predicate FrameOk(f: Frame) {
    IsFrameMarker(f.marker) && 2 <= f.length < 0x10000 && 0 < f.height < 0x10000 && 0 < f.width < 0x10000
  }

  function Fill(n: nat): (s: seq<byte>)
    ensures |s| == n && forall i | 0 <= i < n :: s[i] == 0xFF
  {
    seq(n, _ => 0xFF)
  }

  function Bytes16(n: nat): seq<byte>
    requires n < 0x10000
  {
    [(n / 256) as byte, (n % 256) as byte]
  }

  function Encode(e: Element): seq<byte>
    requires ElementOk(e)
  {
    match e
    case Stray(b) => [b]
    case Standalone(fill, m) => Fill(fill + 1) + [m]
    case Segment(fill, m, payload) => Fill(fill + 1) + [m] + Bytes16(|payload| + 2) + payload
  }

  function EncodeAll(es: seq<Element>): seq<byte>
    requires forall i | 0 <= i < |es| :: ElementOk(es[i])
  {
    if es == [] then [] else Encode(es[0]) + EncodeAll(es[1..])
  }

  function EncodeFrame(f: Frame): seq<byte>
    requires FrameOk(f)
  {
    Fill(f.fill + 1) + [f.marker] + Bytes16(f.length) + [f.precision] + Bytes16(f.height) + Bytes16(f.width)
  }

  lemma {:induction false} FillSkipped(n: nat, u: seq<byte>)
    requires u != [] && u[0] != 0xFF
    ensures SkipFill(Fill(n) + u) == u
    decreases n
  {
    if n == 0 {
      assert Fill(0) + u == u;
    } else {
      assert (Fill(n) + u)[1..] == Fill(n - 1) + u;
      FillSkipped(n - 1, u);
    }
  }

  /** A marker with its fill bytes: what the scan holds when it looks at the marker itself. */
  lemma MarkerFound(s: seq<byte>, fill: nat, u: seq<byte>)
    requires u != [] && u[0] != 0xFF && s == Fill(fill + 1) + u
    ensures s != [] && s[0] == 0xFF && SkipFill(s[1..]) == u
  {
    assert s[1..] == Fill(fill) + u;
    FillSkipped(fill, u);
  }

  lemma Bytes16RoundTrip(n: nat)
    requires n < 0x10000
    ensures U16(Bytes16(n)[0], Bytes16(n)[1]) == n
  {
  }

  /** The scan steps over one element, whatever its payload contains. */
  lemma ScanSkips(e: Element, t: seq<byte>)
    requires ElementOk(e)
    ensures Scan(Encode(e) + t) == Scan(t)
  {
    var s := Encode(e) + t;
    match e
    case Stray(b) => assert s[0] == b && s[1..] == t;
    case Standalone(fill, m) =>
      var u := [m] + t;
      assert s == Fill(fill + 1) + u;
      MarkerFound(s, fill, u);
      assert u[1..] == t;
    case Segment(fill, m, payload) => ScanSkipsSegment(fill, m, payload, t);
  }

  lemma ScanSkipsSegment(fill: nat, m: byte, payload: seq<byte>, t: seq<byte>)
    requires ElementOk(Segment(fill, m, payload))
    ensures Scan(Encode(Segment(fill, m, payload)) + t) == Scan(t)
  {
    var s := Encode(Segment(fill, m, payload)) + t;
    var size := Bytes16(|payload| + 2);
    var u := [m] + size + payload + t;
    assert s == Fill(fill + 1) + u;
    MarkerFound(s, fill, u);
    Bytes16RoundTrip(|payload| + 2);
    assert u[1] == size[0] && u[2] == size[1];
    assert Drop(u, 1 + (|payload| + 2)) == t;
  }

  lemma ScanReadsFrame(f: Frame, t: seq<byte>)
    requires FrameOk(f)
    ensures Scan(EncodeFrame(f) + t) == Ok(Dimensions("jpeg", f.width, f.height))
  {
    var s := EncodeFrame(f) + t;
    var a, b, d := Bytes16(f.length), Bytes16(f.height), Bytes16(f.width);
    var u := [f.marker] + a + [f.precision] + b + d + t;
    assert s == Fill(f.fill + 1) + u;
    MarkerFound(s, f.fill, u);
    Bytes16RoundTrip(f.length);
    Bytes16RoundTrip(f.height);
    Bytes16RoundTrip(f.width);
    assert u[1] == a[0] && u[2] == a[1] && u[4] == b[0] && u[5] == b[1] && u[6] == d[0] && u[7] == d[1];
  }

  lemma {:induction false} ScanSkipsAll(es: seq<Element>, t: seq<byte>)
    requires ElementsOk(es)
    ensures Scan(EncodeAll(es) + t) == Scan(t)
  {
    if es == [] {
      assert EncodeAll(es) + t == t;
    } else {
      assert EncodeAll(es) + t == Encode(es[0]) + (EncodeAll(es[1..]) + t);
      ScanSkips(es[0], EncodeAll(es[1..]) + t);
      ScanSkipsAll(es[1..], t);
    }
  }

  function Stream(es: seq<Element>, f: Frame, rest: seq<byte>): seq<byte>
    requires FrameOk(f) && forall i | 0 <= i < |es| :: ElementOk(es[i])
  {
    EncodeAll(es) + (EncodeFrame(f) + rest)
  }

  /**
   Completeness: after the start marker, any elements with any payloads and then a frame header, the
   reader returns exactly that header's dimensions.
   */
  lemma JpegComplete(es: seq<Element>, f: Frame, rest: seq<byte>)
    requires ElementsOk(es) && FrameOk(f)
    ensures HeaderOf([0xFF, 0xD8] + Stream(es, f, rest)) == Ok(Dimensions("jpeg", f.width, f.height))
  {
    var c: seq<byte> := [0xFF, 0xD8] + Stream(es, f, rest);
    assert c[0] != PNG_SIGNATURE[0];
    assert c[2..] == Stream(es, f, rest);
    ScanSkipsAll(es, EncodeFrame(f) + rest);
    ScanReadsFrame(f, rest);
  }

  // ------------------------------------------------------------------ soundness

  lemma {:induction false} FillDropped(s: seq<byte>) returns (n: nat)
    ensures s == Fill(n) + SkipFill(s)
  {
    if s != [] && s[0] == 0xFF {
      var k := FillDropped(s[1..]);
      n := k + 1;
      FillCons(s, k, SkipFill(s));
    } else {
      n := 0;
      assert Fill(0) + s == s;
    }
  }

  lemma MarkerDecoded(s: seq<byte>) returns (fill: nat)
    requires s != [] && s[0] == 0xFF
    ensures s == Fill(fill + 1) + SkipFill(s[1..])
  {
    fill := FillDropped(s[1..]);
    FillCons(s, fill, SkipFill(s[1..]));
  }

  lemma FillCons(s: seq<byte>, n: nat, u: seq<byte>)
    requires s != [] && s[0] == 0xFF && s[1..] == Fill(n) + u
    ensures s == Fill(n + 1) + u
  {
    assert s == [0xFF] + s[1..];
    assert Fill(n + 1) == [0xFF] + Fill(n);
  }

  lemma Bytes16Of(hi: byte, lo: byte)
    ensures U16(hi, lo) < 0x10000 && Bytes16(U16(hi, lo)) == [hi, lo]
  {
  }

  /** What one step of a scan that goes on has passed is an element. */
  lemma DecodeElement(s: seq<byte>) returns (e: Element, t: seq<byte>)
    requires s != [] && Scan(s).Ok? && (s[0] == 0xFF ==> SkipFill(s[1..]) != [] && !IsFrameMarker(SkipFill(s[1..])[0]))
    ensures ElementOk(e) && s == Encode(e) + t && Scan(t) == Scan(s) && |t| < |s|
  {
    if s[0] != 0xFF {
      e, t := Stray(s[0]), s[1..];
      assert s == [s[0]] + s[1..];
    } else {
      var fill := MarkerDecoded(s);
      var u := SkipFill(s[1..]);
      if IsStandalone(u[0]) {
        e, t := Standalone(fill, u[0]), u[1..];
        assert u == [u[0]] + u[1..];
      } else {
        e, t := DecodeSegment(s, u, fill);
      }
    }
  }

  lemma DecodeSegment(s: seq<byte>, u: seq<byte>, fill: nat) returns (e: Element, t: seq<byte>)
    requires s != [] && s[0] == 0xFF && u == SkipFill(s[1..]) && u != [] && s == Fill(fill + 1) + u
    requires Scan(s).Ok? && !IsStandalone(u[0]) && !IsFrameMarker(u[0])
    ensures ElementOk(e) && s == Encode(e) + t && Scan(t) == Scan(s) && |t| < |s|
  {
    var length := U16(u[1], u[2]);
    Bytes16Of(u[1], u[2]);
    assert Scan(Drop(u, 1 + length)).Ok?;
    assert 1 + length <= |u|;
    var payload := u[3..1 + length];
    e, t := Segment(fill, u[0], payload), u[1 + length..];
    assert u == [u[0]] + Bytes16(length) + payload + t;
  }

  lemma DecodeFrame(s: seq<byte>) returns (f: Frame, rest: seq<byte>)
    requires s != [] && s[0] == 0xFF && SkipFill(s[1..]) != [] && IsFrameMarker(SkipFill(s[1..])[0]) && Scan(s).Ok?
    ensures FrameOk(f) && s == EncodeFrame(f) + rest && Scan(s) == Ok(Dimensions("jpeg", f.width, f.height))
  {
    var fill := MarkerDecoded(s);
    var u := SkipFill(s[1..]);
    Bytes16Of(u[1], u[2]);
    Bytes16Of(u[4], u[5]);
    Bytes16Of(u[6], u[7]);
    f := Frame(fill, u[0], U16(u[1], u[2]), u[3], U16(u[4], u[5]), U16(u[6], u[7]));
    rest := u[8..];
    assert u == [u[0]] + [u[1], u[2]] + [u[3]] + [u[4], u[5]] + [u[6], u[7]] + rest;
  }

  lemma {:induction false} ScanDecodes(s: seq<byte>) returns (es: seq<Element>, f: Frame, rest: seq<byte>)
    requires Scan(s).Ok?
    ensures ElementsOk(es) && FrameOk(f) && s == Stream(es, f, rest)
    ensures Scan(s) == Ok(Dimensions("jpeg", f.width, f.height))
    decreases |s|
  {
    if s[0] == 0xFF && IsFrameMarker(SkipFill(s[1..])[0]) {
      es := [];
      f, rest := DecodeFrame(s);
      assert EncodeAll([]) + (EncodeFrame(f) + rest) == EncodeFrame(f) + rest;
    } else {
      var e, t := DecodeElement(s);
      es, f, rest := ScanDecodes(t);
      StreamCons(e, es, f, rest);
      es := [e] + es;
    }
  }

  lemma StreamCons(e: Element, es: seq<Element>, f: Frame, rest: seq<byte>)
    requires ElementOk(e) && ElementsOk(es) && FrameOk(f)
    ensures ElementsOk([e] + es) && Stream([e] + es, f, rest) == Encode(e) + Stream(es, f, rest)
  {
    var all := [e] + es;
    assert all[0] == e && all[1..] == es;
    assert EncodeAll(all) == Encode(e) + EncodeAll(es);
    Regroup(Encode(e), EncodeAll(es), EncodeFrame(f) + rest);
  }

  /** Soundness: whenever the reader reports a JPEG, the bytes really are such a stream with these dimensions. */
  lemma JpegSound(c: seq<byte>) returns (es: seq<Element>, f: Frame, rest: seq<byte>)
    requires HeaderOf(c).Ok? && HeaderOf(c).value.format == "jpeg"
    ensures ElementsOk(es) && FrameOk(f) && c == [0xFF, 0xD8] + Stream(es, f, rest)
    ensures HeaderOf(c) == Ok(Dimensions("jpeg", f.width, f.height))
  {
    var png, jpeg := "png", "jpeg";
    assert |png| != |jpeg|;
    es, f, rest := ScanDecodes(c[2..]);
    assert c[..2] == [0xFF, 0xD8] && c == c[..2] + c[2..];
  }

  /**
   A PNG is recognized exactly by its signature, an IHDR chunk in first place and two non-zero sizes, and
   the sizes are the big-endian numbers behind it.
   */
  lemma PngExactly(c: seq<byte>)
    ensures HeaderOf(c).Ok? && HeaderOf(c).value.format == "png" <==>
            |c| >= 24 && c[..8] == [137, 80, 78, 71, 13, 10, 26, 10] && c[12..16] == [73, 72, 68, 82]
            && (c[16] != 0 || c[17] != 0 || c[18] != 0 || c[19] != 0) && (c[20] != 0 || c[21] != 0 || c[22] != 0 || c[23] != 0)
    ensures HeaderOf(c).Ok? && HeaderOf(c).value.format == "png" ==>
              HeaderOf(c).value.width == c[16] as nat * 16777216 + c[17] as nat * 65536 + c[18] as nat * 256 + c[19] as nat
              && HeaderOf(c).value.height == c[20] as nat * 16777216 + c[21] as nat * 65536 + c[22] as nat * 256 + c[23] as nat
  {
    if PNG_SIGNATURE <= c {
      assert c[..8] == PNG_SIGNATURE;
      if |c| >= 24 {
        U32Digits(c[16..20]);
        U32Digits(c[20..24]);
      }
    } else if HeaderOf(c).Ok? {
      JpegFormat(c[2..]);
    }
  }

  lemma U32Digits(s: seq<byte>)
    requires |s| == 4
    ensures U32(s) == s[0] as nat * 16777216 + s[1] as nat * 65536 + s[2] as nat * 256 + s[3] as nat
    ensures U32(s) == 0 <==> s[0] == 0 && s[1] == 0 && s[2] == 0 && s[3] == 0
  {
  }

  lemma {:induction false} JpegFormat(s: seq<byte>)
    requires Scan(s).Ok?
    ensures Scan(s).value.format != "png"
  {
    var es, f, rest := ScanDecodes(s);
    assert |"png"| != |"jpeg"|;
  }

  /** The marker classes of table B.1 of ITU-T T.81: frame headers, and markers without parameters. */
  lemma MarkerClasses(m: byte)
    ensures IsFrameMarker(m) <==> m in {192, 193, 194, 195, 197, 198, 199, 201, 202, 203, 205, 206, 207}
    ensures IsStandalone(m) <==> m in {1, 208, 209, 210, 211, 212, 213, 214, 215, 216}
  {
  }
}

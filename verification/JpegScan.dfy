/** The marker scan that finds the pixel size of a JPEG image without decoding it. */
module JpegScan {
  import opened Basics

  type Byte = b: int | 0 <= b < 256

  datatype Size = Size(width: int, height: int)

  /** `readUInt16BE` */
  function Word(view: seq<Byte>, at: nat): int
    requires at + 1 < |view|
  {
    view[at] as int * 256 + view[at + 1] as int
  }

  /** The start-of-frame markers: C0 to CF without the tables C4, C8 and CC. */
  predicate FrameMarker(marker: Byte) {
    0xc0 <= marker <= 0xcf && marker != 0xc4 && marker != 0xc8 && marker != 0xcc
  }

  predicate InRange(view: seq<Byte>, at: nat) {
    at + 8 < |view|
  }

  predicate AtFrame(view: seq<Byte>, at: nat) {
    InRange(view, at) && view[at] == 0xff && FrameMarker(view[at + 1])
  }

  /** The scan goes on from a byte that is no marker and from any segment that is no frame header. */
  predicate CanAdvance(view: seq<Byte>, at: nat) {
    InRange(view, at) && (view[at] != 0xff || (!FrameMarker(view[at + 1]) && Word(view, at + 2) >= 2))
  }

  function Next(view: seq<Byte>, at: nat): nat
    requires CanAdvance(view, at)
  {
    if view[at] != 0xff then at + 1 else at + 2 + Word(view, at + 2)
  }

  /** A chain of segments, from the one after the image header on. */
  ghost predicate Walk(view: seq<Byte>, p: seq<nat>) {
    p != [] && p[0] == 2 && forall i :: 0 <= i < |p| - 1 ==> CanAdvance(view, p[i]) && p[i + 1] == Next(view, p[i])
  }

  lemma {:induction false} WalksAgree(view: seq<Byte>, p: seq<nat>, q: seq<nat>, i: nat)
    requires Walk(view, p) && Walk(view, q) && i < |p| && i < |q|
    ensures p[i] == q[i]
  {
    if i > 0 {
      WalksAgree(view, p, q, i - 1);
      assert p[i - 1 + 1] == q[i - 1 + 1];
    }
  }

  /** A walk that can go no further and is not at a frame: no walk reaches a frame. */
  lemma StuckMeansNone(view: seq<Byte>, p: seq<nat>, q: seq<nat>)
    requires Walk(view, p) && Walk(view, q)
    requires !CanAdvance(view, p[|p| - 1]) && !AtFrame(view, p[|p| - 1])
    ensures !AtFrame(view, q[|q| - 1])
  {
    var i := (if |p| <= |q| then |p| else |q|) - 1;
    WalksAgree(view, p, q, i);
  }

  /** The scan's answer in terms of the bytes: height and width are the big-endian words 5 and 7 bytes into the frame header. */
  ghost predicate Found(view: seq<Byte>, size: Size) {
    exists p :: Walk(view, p) && AtFrame(view, p[|p| - 1]) && SizeAt(view, p[|p| - 1], size)
  }

  predicate SizeAt(view: seq<Byte>, at: nat, size: Size)
    requires at + 8 < |view|
  {
    && size.height == 256 * (view[at + 5] as int) + (view[at + 6] as int)
    && size.width == 256 * (view[at + 7] as int) + (view[at + 8] as int)
  }

  lemma FoundOnce(view: seq<Byte>, a: Size, b: Size)
    requires Found(view, a) && Found(view, b)
    ensures a == b
  {
    var p :| Walk(view, p) && AtFrame(view, p[|p| - 1]) && SizeAt(view, p[|p| - 1], a);
    var q :| Walk(view, q) && AtFrame(view, q[|q| - 1]) && SizeAt(view, q[|q| - 1], b);
    var i := (if |p| <= |q| then |p| else |q|) - 1;
    WalksAgree(view, p, q, i);
  }

  /**
   Never reads past the end and always stops. It finds a size exactly when a chain of segments leads
   to a frame header inside the image, and then it is the size written there.
   */
  method JpegSize(view: seq<Byte>) returns (size: Option<Size>, ghost path: seq<nat>)
    ensures Walk(view, path)
    ensures size.Some? ==> AtFrame(view, path[|path| - 1])
    ensures size.Some? ==> SizeAt(view, path[|path| - 1], size.value)
    ensures size.None? ==> forall p :: Walk(view, p) ==> !AtFrame(view, p[|p| - 1])
    ensures forall found :: Found(view, found) <==> size == Some(found)
  {
    var offset := 2;
    path := [2];
    while offset + 8 < |view|
      invariant Walk(view, path) && path[|path| - 1] == offset
      decreases |view| - offset
    {
      if view[offset] != 0xff {
        path := path + [offset + 1];
        offset := offset + 1;
        continue;
      }
      var marker := view[offset + 1];
      var length := Word(view, offset + 2);
      if (0xc0 <= marker <= 0xc3) || (0xc5 <= marker <= 0xc7) || (0xc9 <= marker <= 0xcb) || (0xcd <= marker <= 0xcf) {
        size := Some(Size(Word(view, offset + 7), Word(view, offset + 5)));
        assert Found(view, size.value);
        forall found | Found(view, found) ensures found == size.value {
          FoundOnce(view, found, size.value);
        }
        return;
      }
      if length < 2 {
        break;
      }
      path := path + [offset + 2 + length];
      offset := offset + 2 + length;
    }
    forall p | Walk(view, p) ensures !AtFrame(view, p[|p| - 1]) {
      StuckMeansNone(view, path, p);
    }
    return None, path;
  }

  // ---- printed images

  /** What may stand before the frame header: a byte that is no marker, or a segment with its length in front. */
  datatype Piece = Fill(byte: Byte) | Segment(marker: Byte, payload: seq<Byte>)

  predicate PieceOk(x: Piece) {
    match x
    case Fill(byte) => byte != 0xff
    case Segment(marker, payload) => !FrameMarker(marker) && |payload| + 2 < 65536
  }

  function High(n: int): Byte
    requires 0 <= n < 65536
  {
    n / 256
  }

  function Low(n: int): Byte {
    n % 256
  }

  function Bytes(x: Piece): seq<Byte>
    requires PieceOk(x)
  {
    match x
    case Fill(byte) => [byte]
    case Segment(marker, payload) => [0xff, marker, High(|payload| + 2), Low(|payload| + 2)] + payload
  }

  ghost predicate AllOk(xs: seq<Piece>) {
    forall x :: x in xs ==> PieceOk(x)
  }

  ghost function Printed(xs: seq<Piece>): seq<Byte>
    requires AllOk(xs)
  {
    if xs == [] then [] else Printed(xs[..|xs| - 1]) + Bytes(xs[|xs| - 1])
  }

  function Frame(marker: Byte, length: int, precision: Byte, size: Size): seq<Byte>
    requires 0 <= length < 65536 && 0 <= size.width < 65536 && 0 <= size.height < 65536
  {
    [0xff, marker, High(length), Low(length), precision, High(size.height), Low(size.height), High(size.width), Low(size.width)]
  }

  /** The scan steps over one printed piece. */
  lemma StepsOver(before: seq<Byte>, x: Piece, rest: seq<Byte>)
    requires PieceOk(x) && |rest| >= 9
    ensures var view := before + Bytes(x) + rest; CanAdvance(view, |before|) && Next(view, |before|) == |before| + |Bytes(x)|
  {
    var view := before + Bytes(x) + rest;
    assert view[|before|] == Bytes(x)[0];
    if x.Segment? {
      assert view[|before| + 1] == Bytes(x)[1] && view[|before| + 2] == Bytes(x)[2] && view[|before| + 3] == Bytes(x)[3];
    }
  }

  lemma WalkMore(view: seq<Byte>, p: seq<nat>)
    requires Walk(view, p) && CanAdvance(view, p[|p| - 1])
    ensures Walk(view, p + [Next(view, p[|p| - 1])])
  {
  }

  lemma Regroup(a: seq<Byte>, b: seq<Byte>, c: seq<Byte>, d: seq<Byte>)
    ensures a + (b + c) + d == a + b + (c + d) == (a + b) + c + d
  {
  }

  lemma {:induction false} WalksOver(before: seq<Byte>, xs: seq<Piece>, rest: seq<Byte>) returns (p: seq<nat>)
    requires |before| == 2 && AllOk(xs) && |rest| >= 9
    ensures Walk(before + Printed(xs) + rest, p) && p[|p| - 1] == |before| + |Printed(xs)|
  {
    if xs == [] {
      p := [2];
    } else {
      var front, last := xs[..|xs| - 1], xs[|xs| - 1];
      p := WalksOver(before, front, Bytes(last) + rest);
      Regroup(before, Printed(front), Bytes(last), rest);
      StepsOver(before + Printed(front), last, rest);
      WalkMore(before + Printed(xs) + rest, p);
      p := p + [Next(before + Printed(xs) + rest, p[|p| - 1])];
    }
  }

  /** The size of a printed image is found, whatever segments and stray bytes come before its frame header and whatever follows. */
  lemma PrintedSizeIsFound(header: seq<Byte>, xs: seq<Piece>, marker: Byte, length: int, precision: Byte, size: Size, tail: seq<Byte>)
    requires |header| == 2 && AllOk(xs) && FrameMarker(marker)
    requires 0 <= length < 65536 && 0 <= size.width < 65536 && 0 <= size.height < 65536
    ensures Found(header + Printed(xs) + (Frame(marker, length, precision, size) + tail), size)
  {
    var frame := Frame(marker, length, precision, size);
    var view := header + Printed(xs) + (frame + tail);
    var p := WalksOver(header, xs, frame + tail);
    FrameIsThere(header + Printed(xs), frame, tail);
    assert AtFrame(view, p[|p| - 1]) && SizeAt(view, p[|p| - 1], size);
  }

  lemma FrameIsThere(before: seq<Byte>, frame: seq<Byte>, tail: seq<Byte>)
    ensures var view := before + (frame + tail); |view| >= |before| + |frame| && forall k :: 0 <= k < |frame| ==> view[|before| + k] == frame[k]
  {
  }
}

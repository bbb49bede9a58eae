// The tray icon's shape: one rectangle per run of opaque pixels, row by row.
module ShapeRects {

  type Byte = b: int | 0 <= b < 256

  // The fields are int16 and uint16, so conversions wrap.
  datatype Rectangle = Rectangle(x: int, y: int, width: int, height: int)

  function Int16(n: int): (r: int)
    ensures -32768 <= r < 32768
    ensures -32768 <= n < 32768 ==> r == n
  {
    (n + 32768) % 65536 - 32768
  }

  function Uint16(n: int): (r: int)
    ensures 0 <= r < 65536
    ensures 0 <= n < 65536 ==> r == n
  {
    n % 65536
  }

  // A run before the conversion: columns [start, end) of row y.
  datatype Span = Span(y: int, start: int, end: int)

  function RectOf(s: Span): Rectangle {
    Rectangle(Int16(s.start), Int16(s.y), Uint16(s.end - s.start), 1)
  }

  ghost predicate Sized(pix: seq<Byte>, w: int, h: int) {
    w > 0 && h > 0 ==> |pix| >= w * h * 4
  }

  lemma {:induction false} InBounds(pix: seq<Byte>, w: int, h: int, x: int, y: int)
    requires Sized(pix, w, h) && 0 <= x < w && 0 <= y < h
    ensures 0 <= (y * w + x) * 4 && (y * w + x) * 4 + 4 <= |pix|
  {
    assert (y + 1) * w <= h * w;
    assert y * w + x < (y + 1) * w;
  }

  // The four bytes of a pixel: alpha, red, green, blue.
  function Pixel(pix: seq<Byte>, w: int, h: int, x: int, y: int): (p: seq<Byte>)
    requires Sized(pix, w, h) && 0 <= x < w && 0 <= y < h
    ensures |p| == 4
  {
    InBounds(pix, w, h, x, y);
    pix[4 * (y * w + x)..4 * (y * w + x) + 4]
  }

  function Alpha(pix: seq<Byte>, w: int, h: int, x: int, y: int): Byte
    requires Sized(pix, w, h) && 0 <= x < w && 0 <= y < h
  {
    Pixel(pix, w, h, x, y)[0]
  }

  // s is a maximal horizontal run of opaque pixels of the image.
  ghost predicate MaximalRun(pix: seq<Byte>, w: int, h: int, s: Span)
    requires Sized(pix, w, h)
  {
    && 0 <= s.y < h && 0 <= s.start < s.end <= w
    && (forall x :: s.start <= x < s.end ==> Lit(pix, w, h, x, s.y))
    && !Lit(pix, w, h, s.start - 1, s.y) && !Lit(pix, w, h, s.end, s.y)
  }

  // Opaque, and false outside the image.
  ghost predicate Lit(pix: seq<Byte>, w: int, h: int, x: int, y: int)
    requires Sized(pix, w, h)
  {
    0 <= x < w && 0 <= y < h && Alpha(pix, w, h, x, y) >= 128
  }

  // Row by row downwards, left to right within a row, never touching.
  ghost predicate Banded(ss: seq<Span>) {
    forall i, j :: 0 <= i < j < |ss| ==> ss[i].y < ss[j].y || (ss[i].y == ss[j].y && ss[i].end < ss[j].start)
  }

  ghost predicate Covers(s: Span, x: int, y: int) {
    s.y == y && s.start <= x < s.end
  }

  // The spans found before (x, y) in scan order are what they should be.
  ghost predicate ScannedTo(pix: seq<Byte>, w: int, h: int, ss: seq<Span>, x: int, y: int)
    requires Sized(pix, w, h)
  {
    && Banded(ss)
    && (forall i :: 0 <= i < |ss| ==> MaximalRun(pix, w, h, ss[i]) && (ss[i].y < y || (ss[i].y == y && ss[i].end <= x)))
    && (forall u, v :: Lit(pix, w, h, u, v) && (v < y || (v == y && u < x)) ==>
          exists i :: 0 <= i < |ss| && Covers(ss[i], u, v))
  }

  function Rects(ss: seq<Span>): (rs: seq<Rectangle>)
    ensures |rs| == |ss| && forall i {:trigger rs[i]} :: 0 <= i < |ss| ==> rs[i] == RectOf(ss[i])
  {
    if ss == [] then [] else Rects(ss[..|ss| - 1]) + [RectOf(ss[|ss| - 1])]
  }

  // The byte the loops look at.
  function AlphaAt(pix: seq<Byte>, w: int, h: int, x: int, y: int): (a: Byte)
    requires Sized(pix, w, h) && 0 <= x < w && 0 <= y < h
    ensures a == Alpha(pix, w, h, x, y)
  {
    InBounds(pix, w, h, x, y);
    pix[(y * w + x) * 4]
  }

  // The two inner loops: past clear pixels, then past opaque ones.
  method FindRun(pix: seq<Byte>, w: int, h: int, y: int, from: int) returns (start: int, end: int)
    requires Sized(pix, w, h) && 0 <= y < h && 0 <= from < w
    ensures from <= start <= end <= w && from < end
    ensures forall u :: from <= u < start ==> !Lit(pix, w, h, u, y)
    ensures forall u :: start <= u < end ==> Lit(pix, w, h, u, y)
    ensures !Lit(pix, w, h, end, y) && (start < end || end == w)
  {
    var x := from;
    while x < w && AlphaAt(pix, w, h, x, y) < 128
      invariant from <= x <= w
      invariant forall u :: from <= u < x ==> !Lit(pix, w, h, u, y)
    {
      x := x + 1;
    }
    start := x;
    while x < w && AlphaAt(pix, w, h, x, y) >= 128
      invariant start <= x <= w
      invariant forall u :: start <= u < x ==> Lit(pix, w, h, u, y)
    {
      x := x + 1;
    }
    end := x;
  }

  // One row.
  method ScanRow(pix: seq<Byte>, w: int, h: int, y: int, before: seq<Rectangle>, ghost spans0: seq<Span>)
    returns (out: seq<Rectangle>, ghost spans: seq<Span>)
    requires Sized(pix, w, h) && 0 <= y < h
    requires before == Rects(spans0) && ScannedTo(pix, w, h, spans0, 0, y)
    ensures out == Rects(spans) && ScannedTo(pix, w, h, spans, 0, y + 1)
  {
    out, spans := before, spans0;
    var x := 0;
    while x < w
      invariant 0 <= x && (x <= w || w < 0)
      invariant out == Rects(spans) && ScannedTo(pix, w, h, spans, x, y)
      invariant x > 0 ==> !Lit(pix, w, h, x, y)
    {
      var start, end := FindRun(pix, w, h, y, x);
      ghost var s := Span(y, start, end);
      if end > start {
        out := out + [RectOf(Span(y, start, end))];
        RunFound(pix, w, h, spans, x, s);
        spans := spans + [s];
        assert spans[..|spans| - 1] + [s] == spans;
      } else {
        NoRunFound(pix, w, h, spans, x, end, y);
      }
      x := end;
    }
    RowDone(pix, w, h, spans, x, y);
  }

  lemma {:induction false} NoRunFound(pix: seq<Byte>, w: int, h: int, ss: seq<Span>, from: int, to: int, y: int)
    requires Sized(pix, w, h) && ScannedTo(pix, w, h, ss, from, y) && from <= to
    requires forall u :: from <= u < to ==> !Lit(pix, w, h, u, y)
    ensures ScannedTo(pix, w, h, ss, to, y)
  {
  }

  lemma {:induction false} RowDone(pix: seq<Byte>, w: int, h: int, ss: seq<Span>, x: int, y: int)
    requires Sized(pix, w, h) && ScannedTo(pix, w, h, ss, x, y) && x >= w
    ensures ScannedTo(pix, w, h, ss, 0, y + 1)
  {
  }

  // Adding a run that starts after what was scanned.
  lemma {:induction false} RunFound(pix: seq<Byte>, w: int, h: int, ss: seq<Span>, from: int, s: Span)
    requires Sized(pix, w, h) && ScannedTo(pix, w, h, ss, from, s.y) && MaximalRun(pix, w, h, s)
    requires 0 <= from <= s.start && (from > 0 ==> from < s.start)
    requires forall u :: from <= u < s.start ==> !Lit(pix, w, h, u, s.y)
    ensures ScannedTo(pix, w, h, ss + [s], s.end, s.y)
  {
    var ts := ss + [s];
    forall u, v | Lit(pix, w, h, u, v) && (v < s.y || (v == s.y && u < s.end))
      ensures exists i :: 0 <= i < |ts| && Covers(ts[i], u, v)
    {
      if v < s.y || u < from {
        var i :| 0 <= i < |ss| && Covers(ss[i], u, v);
        assert ts[i] == ss[i];
      } else {
        assert ts[|ss|] == s && Covers(s, u, v);
      }
    }
  }

  method BuildShapeRects(pix: seq<Byte>, w: int, h: int) returns (out: seq<Rectangle>, ghost spans: seq<Span>)
    requires Sized(pix, w, h)
    ensures out == Rects(spans) && Banded(spans)
    ensures forall s :: s in spans <==> MaximalRun(pix, w, h, s)
    ensures IsShape(pix, w, h, out) <==> AllFit(pix, w, h)
  {
    out, spans := [], [];
    var y := 0;
    while y < h
      invariant 0 <= y && (y <= h || h < 0)
      invariant out == Rects(spans) && ScannedTo(pix, w, h, spans, 0, y)
    {
      out, spans := ScanRow(pix, w, h, y, out, spans);
      y := y + 1;
    }
    SpansAreTheRuns(pix, w, h, spans, y);
    ShapeExactlyWhenRunsFit(pix, w, h, spans);
  }

  // Maximal runs that share a pixel are the same run.
  lemma {:induction false} RunsMeetOnlyThemselves(pix: seq<Byte>, w: int, h: int, s: Span, t: Span, x: int)
    requires Sized(pix, w, h) && MaximalRun(pix, w, h, s) && MaximalRun(pix, w, h, t)
    requires s.y == t.y && s.start <= x < s.end && t.start <= x < t.end
    ensures s == t
  {
  }

  lemma {:induction false} SpansAreTheRuns(pix: seq<Byte>, w: int, h: int, ss: seq<Span>, y: int)
    requires Sized(pix, w, h) && y >= h && ScannedTo(pix, w, h, ss, 0, y)
    ensures forall s :: s in ss <==> MaximalRun(pix, w, h, s)
  {
    forall s | MaximalRun(pix, w, h, s) ensures s in ss {
      assert Lit(pix, w, h, s.start, s.y);
      var i :| 0 <= i < |ss| && Covers(ss[i], s.start, s.y);
      RunsMeetOnlyThemselves(pix, w, h, s, ss[i], s.start);
    }
  }

  // ---- What the server is told ------------------------------------------------

  ghost predicate Holds(r: Rectangle, x: int, y: int) {
    r.x <= x < r.x + r.width && r.y <= y < r.y + r.height
  }

  // Every coordinate survives its conversion.
  predicate Fits(s: Span) {
    s.start < 32768 && s.y < 32768 && s.end - s.start < 65536
  }

  ghost predicate Representable(ss: seq<Span>) {
    forall i :: 0 <= i < |ss| ==> Fits(ss[i])
  }

  // Every run of the image does.
  ghost predicate AllFit(pix: seq<Byte>, w: int, h: int)
    requires Sized(pix, w, h)
  {
    forall s :: MaximalRun(pix, w, h, s) ==> Fits(s)
  }

  function SpanOf(r: Rectangle): Span {
    Span(r.y, r.x, r.x + r.width)
  }

  // What the server is promised: rectangles in YXBanded order, each a maximal
  // run one pixel high, no two sharing a pixel, covering exactly the opaque ones.
  ghost predicate IsShape(pix: seq<Byte>, w: int, h: int, rs: seq<Rectangle>)
    requires Sized(pix, w, h)
  {
    && (forall x, y :: Lit(pix, w, h, x, y) <==> exists i :: 0 <= i < |rs| && Holds(rs[i], x, y))
    && (forall i :: 0 <= i < |rs| ==> rs[i].height == 1 && MaximalRun(pix, w, h, SpanOf(rs[i])))
    && (forall i, j :: 0 <= i < j < |rs| ==>
          rs[i].y < rs[j].y || (rs[i].y == rs[j].y && rs[i].x + rs[i].width < rs[j].x))
    && (forall i, j, x, y :: 0 <= i < j < |rs| ==> !(Holds(rs[i], x, y) && Holds(rs[j], x, y)))
  }

  lemma {:induction false} SpanRectangle(ss: seq<Span>, i: nat)
    requires i < |ss| && Representable(ss) && 0 <= ss[i].start < ss[i].end && 0 <= ss[i].y
    ensures SpanOf(Rects(ss)[i]) == ss[i] && Rects(ss)[i].height == 1
  {
  }

  // Rectangles that say what the runs are cover what the runs cover.
  lemma {:induction false} SameCover(pix: seq<Byte>, w: int, h: int, ss: seq<Span>, rs: seq<Rectangle>, x: int, y: int)
    requires Sized(pix, w, h) && (forall s :: s in ss <==> MaximalRun(pix, w, h, s))
    requires |rs| == |ss| && forall i :: 0 <= i < |ss| ==> SpanOf(rs[i]) == ss[i] && rs[i].height == 1
    ensures Lit(pix, w, h, x, y) <==> exists i :: 0 <= i < |rs| && Holds(rs[i], x, y)
  {
    if Lit(pix, w, h, x, y) {
      var s := RunThrough(pix, w, h, x, y);
      var i :| 0 <= i < |ss| && ss[i] == s;
      assert Holds(rs[i], x, y);
    }
    if i :| 0 <= i < |rs| && Holds(rs[i], x, y) {
      assert ss[i] in ss;
    }
  }

  lemma {:induction false} RectanglesAreTheShape(pix: seq<Byte>, w: int, h: int, ss: seq<Span>)
    requires Sized(pix, w, h) && Banded(ss) && (forall s :: s in ss <==> MaximalRun(pix, w, h, s)) && Representable(ss)
    ensures IsShape(pix, w, h, Rects(ss))
  {
    var rs := Rects(ss);
    forall i | 0 <= i < |ss| ensures SpanOf(rs[i]) == ss[i] && rs[i].height == 1 && MaximalRun(pix, w, h, ss[i]) {
      assert ss[i] in ss;
      SpanRectangle(ss, i);
    }
    forall x, y ensures Lit(pix, w, h, x, y) <==> exists i :: 0 <= i < |rs| && Holds(rs[i], x, y) {
      SameCover(pix, w, h, ss, rs, x, y);
    }
    BandsAreDisjoint(rs);
  }

  lemma {:induction false} BandsAreDisjoint(rs: seq<Rectangle>)
    requires forall i :: 0 <= i < |rs| ==> rs[i].height == 1
    requires forall i, j :: 0 <= i < j < |rs| ==>
               rs[i].y < rs[j].y || (rs[i].y == rs[j].y && rs[i].x + rs[i].width < rs[j].x)
    ensures forall i, j, x, y :: 0 <= i < j < |rs| ==> !(Holds(rs[i], x, y) && Holds(rs[j], x, y))
  {
  }

  // The run through an opaque pixel.
  lemma {:induction false} RunThrough(pix: seq<Byte>, w: int, h: int, x: int, y: int) returns (s: Span)
    requires Sized(pix, w, h) && Lit(pix, w, h, x, y)
    ensures MaximalRun(pix, w, h, s) && Covers(s, x, y)
  {
    var start, end := x, x + 1;
    while Lit(pix, w, h, start - 1, y)
      invariant 0 <= start <= x && forall u :: start <= u <= x ==> Lit(pix, w, h, u, y)
      decreases start
    {
      start := start - 1;
    }
    while Lit(pix, w, h, end, y)
      invariant x < end <= w && forall u :: start <= u < end ==> Lit(pix, w, h, u, y)
      decreases w - end
    {
      end := end + 1;
    }
    s := Span(y, start, end);
  }

  // A run of ss after the one before the i-th, and in neither coordinate beyond
  // the i-th, is the i-th.
  lemma {:induction false} HeldInPlace(ss: seq<Span>, i: nat, k: nat)
    requires Banded(ss) && i < |ss| && k < |ss| && ss[i].start < ss[i].end && ss[k].start < ss[k].end
    requires ss[k].y <= ss[i].y && ss[k].start <= ss[i].start
    requires i > 0 ==> ss[i - 1].start < ss[i - 1].end
    requires i > 0 ==> ss[i - 1].y < ss[k].y || (ss[i - 1].y == ss[k].y && ss[i - 1].end < ss[k].start)
    ensures k == i
  {
  }

  // What a shape says of its i-th rectangle.
  lemma {:induction false} ShapeAt(pix: seq<Byte>, w: int, h: int, rs: seq<Rectangle>, i: nat)
    requires Sized(pix, w, h) && IsShape(pix, w, h, rs) && i < |rs|
    ensures MaximalRun(pix, w, h, SpanOf(rs[i]))
    ensures i > 0 ==> rs[i - 1].y < rs[i].y || (rs[i - 1].y == rs[i].y && rs[i - 1].x + rs[i - 1].width < rs[i].x)
  {
  }

  // If the converted rectangles are runs in order, none was moved: a conversion
  // only ever moves one up or left, past a rectangle that came before.
  lemma {:induction false} NoneMoved(pix: seq<Byte>, w: int, h: int, ss: seq<Span>, rs: seq<Rectangle>, i: nat)
    requires Sized(pix, w, h) && Banded(ss) && (forall s :: s in ss <==> MaximalRun(pix, w, h, s))
    requires IsShape(pix, w, h, rs) && rs == Rects(ss) && i < |ss|
    ensures SpanOf(rs[i]) == ss[i]
    decreases i
  {
    ShapeAt(pix, w, h, rs, i);
    var r := SpanOf(rs[i]);
    assert r in ss && ss[i] in ss;
    var k: nat :| k < |ss| && ss[k] == r;
    if i > 0 {
      NoneMoved(pix, w, h, ss, rs, i - 1);
      assert ss[i - 1] in ss;
    }
    HeldInPlace(ss, i, k);
  }

  // The rectangles are the shape exactly when every run fits the fields.
  lemma {:induction false} ShapeExactlyWhenRunsFit(pix: seq<Byte>, w: int, h: int, ss: seq<Span>)
    requires Sized(pix, w, h) && Banded(ss) && (forall s :: s in ss <==> MaximalRun(pix, w, h, s))
    ensures IsShape(pix, w, h, Rects(ss)) <==> AllFit(pix, w, h)
  {
    if AllFit(pix, w, h) {
      forall i | 0 <= i < |ss| ensures Fits(ss[i]) {
        assert ss[i] in ss;
      }
      RectanglesAreTheShape(pix, w, h, ss);
    }
    if IsShape(pix, w, h, Rects(ss)) {
      forall s | MaximalRun(pix, w, h, s) ensures Fits(s) {
        var i :| 0 <= i < |ss| && ss[i] == s;
        NoneMoved(pix, w, h, ss, Rects(ss), i);
      }
    }
  }

  // Images of up to 32768 by 32768 pixels always fit.
  lemma {:induction false} SmallImagesFit(pix: seq<Byte>, w: int, h: int)
    requires Sized(pix, w, h) && w <= 32768 && h <= 32768
    ensures AllFit(pix, w, h)
  {
  }

  // Beyond that they need not: an image of 32769 by 1 with only its last pixel
  // opaque has its one run drawn at -32768.
  lemma WideImagesWrap() returns (pix: seq<Byte>, ss: seq<Span>)
    ensures Sized(pix, 32769, 1) && Banded(ss) && forall s :: s in ss <==> MaximalRun(pix, 32769, 1, s)
    ensures Rects(ss) == [Rectangle(-32768, 0, 1, 1)] && !IsShape(pix, 32769, 1, Rects(ss))
  {
    pix := seq(32769 * 4, i requires 0 <= i < 32769 * 4 => if i == 32768 * 4 then 255 else 0);
    ss := [Span(0, 32768, 32769)];
    assert forall x, y :: Lit(pix, 32769, 1, x, y) <==> x == 32768 && y == 0;
    forall s ensures s in ss <==> MaximalRun(pix, 32769, 1, s) {
      if MaximalRun(pix, 32769, 1, s) {
        assert Lit(pix, 32769, 1, s.start, s.y) && Lit(pix, 32769, 1, s.end - 1, s.y);
      }
    }
    ShapeExactlyWhenRunsFit(pix, 32769, 1, ss);
    assert ss[0] in ss && !Fits(ss[0]);
  }
}

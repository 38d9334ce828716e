/**
  Post-processing of the raster detectors in `ShapeDetector`: the contour
  noise filter, the shape classifier, the nearest-shape resolver and the
  connector rule built on it, and the OCR filter.

  The OpenCV and Tesseract calls are inputs: a contour arrives already
  measured (area, vertex count of its polygon approximation, bounding box,
  and whether its circularity exceeds 0.8), a Hough line as its two integer
  end points, and an OCR row as its text, confidence and box.
 */
module ShapeDetection {
  import opened Wrappers

  /** Contours with a smaller area are noise. */
  const MinShapeArea: real := 500.0
  /** `_find_nearest_shape`'s default distance threshold, in pixels. */
  const NearestThreshold: int := 30
  /** OCR rows need a confidence above this. */
  const MinOcrConfidence: int := 60

  /** One contour as measured by OpenCV. `circular` stands for the test
      `4*pi*area/perimeter^2 > 0.8` on the approximated polygon. */
  datatype Contour = Contour(area: real, vertexCount: nat, x: int, y: int, w: int, h: int, circular: bool)

  datatype ShapeKind = Triangle | Square | Rectangle | Pentagon | Hexagon | Circle | Ellipse | Polygon
  {
    /** The type string stored in the shape record. */
    function Name(): string {
      match this
      case Triangle => "triangle"
      case Square => "square"
      case Rectangle => "rectangle"
      case Pentagon => "pentagon"
      case Hexagon => "hexagon"
      case Circle => "circle"
      case Ellipse => "ellipse"
      case Polygon => "polygon"
    }
  }

  /** A shape record; `id` is the contour index i of the id string `shape_{i}`. */
  datatype ShapeRecord = ShapeRecord(
    id: nat, kind: ShapeKind, x: int, y: int, width: int, height: int,
    centerX: int, centerY: int, vertices: nat)

  /** A probabilistic Hough line `(x1, y1, x2, y2)`. */
  datatype Line = Line(x1: int, y1: int, x2: int, y2: int)

  /** A connector record; `id` is the line index i of `connector_{i}`, and
      `fromShape`/`toShape` are shape ids. */
  datatype ConnectorRecord = ConnectorRecord(
    id: nat, fromShape: nat, toShape: nat, startX: int, startY: int, endX: int, endY: int)

  /** One row of `image_to_data`; the confidence is the number pytesseract reports. */
  datatype OcrRow = OcrRow(text: string, conf: real, left: int, top: int, width: int, height: int)

  /** What the OCR engine gives: nothing (pytesseract not importable), an
      exception, or its rows. */
  datatype OcrOutcome = Unavailable | Failed | Rows(rows: seq<OcrRow>)

  /** A text element; `id` is the row index i of `text_{i}`. */
  datatype TextElement = TextElement(
    id: nat, text: string, x: int, y: int, width: int, height: int, confidence: int)

  datatype ProcessResult = ProcessResult(
    shapes: seq<ShapeRecord>, connectors: seq<ConnectorRecord>, textElements: seq<TextElement>,
    imageWidth: int, imageHeight: int)

  // ---------------------------------------------------------------------------
  // Numeric helpers

  /** Python's `int(r)` on a float: truncation toward zero. */
  function TruncToInt(r: real): (n: int)
    ensures r >= 0.0 ==> n as real <= r < n as real + 1.0
    ensures r < 0.0 ==> n as real - 1.0 < r <= n as real
  {
    if r >= 0.0 then r.Floor else -((-r).Floor)
  }

  /** Python's `int(a + b/2)` for integers a, b. */
  function TruncMidpoint(a: int, b: int): int {
    TruncToInt(a as real + b as real / 2.0)
  }

  lemma MidpointOfNonNegative(a: int, b: int)
    requires a >= 0 && b >= 0
    ensures TruncMidpoint(a, b) == a + b / 2
    ensures 2 * TruncMidpoint(a, b) <= 2 * a + b <= 2 * TruncMidpoint(a, b) + 1
  {
    var m := a + b / 2;
    assert b as real / 2.0 == (b / 2) as real + (b % 2) as real / 2.0;
    assert m as real <= a as real + b as real / 2.0 < m as real + 1.0;
  }

  // ---------------------------------------------------------------------------
  // Noise filter and classification

  predicate KeepsContour(c: Contour) {
    !(c.area < MinShapeArea)
  }

  /** `float(width) / height if height > 0 else 0`, exactly. */
  function AspectRatio(width: int, height: int): real {
    if height > 0 then width as real / height as real else 0.0
  }

  /** `_classify_shape`: first match wins. */
  function ClassifyShape(vertices: nat, width: int, height: int, circular: bool): ShapeKind {
    var ratio := AspectRatio(width, height);
    if vertices == 3 then Triangle
    else if vertices == 4 then
      (if 0.95 <= ratio <= 1.05 then Square else Rectangle)
    else if vertices == 5 then Pentagon
    else if vertices == 6 then Hexagon
    else if vertices > 6 then
      (if circular then Circle else Ellipse)
    else Polygon
  }

  /** Multiplying both sides by a positive number keeps the order. */
  lemma ScaleByPositive(a: real, b: real, h: real)
    requires h > 0.0
    ensures a <= b <==> a * h <= b * h
  {
    assert b * h - a * h == (b - a) * h;
  }

  /** The square test in integers: `0.95 <= w/h <= 1.05` is `95h <= 100w <= 105h` for h > 0. */
  lemma SquareIffCrossMultiplied(vertices: nat, width: int, height: int, circular: bool)
    ensures ClassifyShape(vertices, width, height, circular) == Square
        <==> vertices == 4 && height > 0 && 95 * height <= 100 * width <= 105 * height
  {
    if vertices == 4 && height > 0 {
      var w, h := width as real, height as real;
      var ratio := w / h;
      assert ratio * h == w;
      ScaleByPositive(0.95, ratio, h);
      ScaleByPositive(ratio, 1.05, h);
      assert 0.95 * h <= w <==> 95 * height <= 100 * width;
      assert w <= 1.05 * h <==> 100 * width <= 105 * height;
    }
  }

  /** A four-vertex contour of zero (or no) height is a rectangle, never a square. */
  lemma FlatQuadrilateralIsRectangle(width: int, height: int, circular: bool)
    requires height <= 0
    ensures ClassifyShape(4, width, height, circular) == Rectangle
  {
    SquareIffCrossMultiplied(4, width, height, circular);
  }

  /** Every kind belongs to one band of vertex counts, and only the
      four-vertex band looks at the box and only the band above six at
      circularity. */
  lemma ClassifyBands(vertices: nat, width: int, height: int, circular: bool)
    ensures var k := ClassifyShape(vertices, width, height, circular);
      && (k == Triangle <==> vertices == 3)
      && (k in {Square, Rectangle} <==> vertices == 4)
      && (k == Pentagon <==> vertices == 5)
      && (k == Hexagon <==> vertices == 6)
      && (k in {Circle, Ellipse} <==> vertices > 6)
      && (k == Circle <==> vertices > 6 && circular)
      && (k == Polygon <==> vertices < 3)
    ensures forall w', h' :: vertices != 4 ==> ClassifyShape(vertices, w', h', circular) == ClassifyShape(vertices, width, height, circular)
    ensures vertices <= 6 ==> ClassifyShape(vertices, width, height, !circular) == ClassifyShape(vertices, width, height, circular)
  {
  }

  // ---------------------------------------------------------------------------
  // Shape records

  function MakeShape(i: nat, c: Contour): ShapeRecord {
    ShapeRecord(i, ClassifyShape(c.vertexCount, c.w, c.h, c.circular), c.x, c.y, c.w, c.h,
                TruncMidpoint(c.x, c.w), TruncMidpoint(c.y, c.h), c.vertexCount)
  }

  /** The records `detect_shapes` has built after the first n contours. */
  function ShapesUpTo(contours: seq<Contour>, n: nat): (r: seq<ShapeRecord>)
    requires n <= |contours|
    ensures forall k :: 0 <= k < |r| ==>
      r[k].id < n && KeepsContour(contours[r[k].id]) && r[k] == MakeShape(r[k].id, contours[r[k].id])
    ensures forall j, k :: 0 <= j < k < |r| ==> r[j].id < r[k].id
    decreases n
  {
    if n == 0 then []
    else
      ShapesUpTo(contours, n - 1)
      + (if KeepsContour(contours[n - 1]) then [MakeShape(n - 1, contours[n - 1])] else [])
  }

  function Shapes(contours: seq<Contour>): seq<ShapeRecord> {
    ShapesUpTo(contours, |contours|)
  }

  /** No contour of area at least 500 is lost. */
  lemma {:induction false} ShapesComplete(contours: seq<Contour>, n: nat, i: nat)
    requires i < n <= |contours| && KeepsContour(contours[i])
    ensures exists k :: 0 <= k < |ShapesUpTo(contours, n)| && ShapesUpTo(contours, n)[k].id == i
    decreases n
  {
    var prev := ShapesUpTo(contours, n - 1);
    if i == n - 1 {
      assert ShapesUpTo(contours, n)[|prev|].id == i;
    } else {
      ShapesComplete(contours, n - 1, i);
      var k :| 0 <= k < |prev| && prev[k].id == i;
      assert ShapesUpTo(contours, n)[k] == prev[k];
    }
  }

  /** The kept contours are exactly those of area at least 500: 500 itself
      is kept, anything below is dropped; each record is built from its own
      contour, and the ids are distinct and increasing. */
  lemma ShapesAreFilteredContours(contours: seq<Contour>, i: nat)
    requires i < |contours|
    ensures (exists k :: 0 <= k < |Shapes(contours)| && Shapes(contours)[k].id == i)
        <==> contours[i].area >= 500.0
    ensures forall k :: 0 <= k < |Shapes(contours)| && Shapes(contours)[k].id == i ==>
      Shapes(contours)[k] == MakeShape(i, contours[i])
  {
    var r := Shapes(contours);
    if contours[i].area >= 500.0 {
      ShapesComplete(contours, |contours|, i);
    }
    if exists k :: 0 <= k < |r| && r[k].id == i {
      var k :| 0 <= k < |r| && r[k].id == i;
      assert KeepsContour(contours[r[k].id]);
    }
  }

  /** The stored centre is the truncated centre of the bounding box. */
  lemma ShapeCentre(i: nat, c: Contour)
    requires c.x >= 0 && c.y >= 0 && c.w >= 0 && c.h >= 0
    ensures MakeShape(i, c).centerX == c.x + c.w / 2
    ensures MakeShape(i, c).centerY == c.y + c.h / 2
    ensures MakeShape(i, c).vertices == c.vertexCount
  {
    MidpointOfNonNegative(c.x, c.w);
    MidpointOfNonNegative(c.y, c.h);
  }

  // ---------------------------------------------------------------------------
  // Nearest shape

  /** Squared distance from a point to a shape's centre; `sqrt` is monotone,
      so comparing these orders shapes as the Euclidean distances do. */
  function Dist2(s: ShapeRecord, x: int, y: int): nat {
    (x - s.centerX) * (x - s.centerX) + (y - s.centerY) * (y - s.centerY)
  }

  predicate WithinThreshold(s: ShapeRecord, x: int, y: int) {
    Dist2(s, x, y) < NearestThreshold * NearestThreshold
  }

  /** Index of the shape the scan over the first n shapes has chosen. */
  function NearestUpTo(shapes: seq<ShapeRecord>, x: int, y: int, n: nat): (r: Option<nat>)
    requires n <= |shapes|
    ensures r.Some? ==> r.value < n && WithinThreshold(shapes[r.value], x, y)
    decreases n
  {
    if n == 0 then None
    else
      var prev := NearestUpTo(shapes, x, y, n - 1);
      var d := Dist2(shapes[n - 1], x, y);
      if (prev.None? || d < Dist2(shapes[prev.value], x, y)) && WithinThreshold(shapes[n - 1], x, y)
      then Some(n - 1)
      else prev
  }

  /** k is an earliest closest shape among the first n, within the threshold. */
  ghost predicate IsNearestAmong(shapes: seq<ShapeRecord>, x: int, y: int, n: nat, k: nat)
    requires n <= |shapes|
  {
    && k < n
    && WithinThreshold(shapes[k], x, y)
    && (forall j :: 0 <= j < n ==> Dist2(shapes[k], x, y) <= Dist2(shapes[j], x, y))
    && (forall j :: 0 <= j < k ==> Dist2(shapes[k], x, y) < Dist2(shapes[j], x, y))
  }

  /** The scan finds nothing exactly when no centre is within the threshold,
      and otherwise finds the earliest shape of minimum distance. */
  lemma {:induction false} NearestIsArgmin(shapes: seq<ShapeRecord>, x: int, y: int, n: nat)
    requires n <= |shapes|
    ensures NearestUpTo(shapes, x, y, n).None?
        <==> forall j :: 0 <= j < n ==> !WithinThreshold(shapes[j], x, y)
    ensures forall k: nat :: NearestUpTo(shapes, x, y, n) == Some(k) <==> IsNearestAmong(shapes, x, y, n, k)
    decreases n
  {
    if n > 0 {
      NearestIsArgmin(shapes, x, y, n - 1);
    }
  }

  /** `_find_nearest_shape(x, y)`: the id of the chosen shape. */
  function NearestShape(shapes: seq<ShapeRecord>, x: int, y: int): Option<nat> {
    match NearestUpTo(shapes, x, y, |shapes|)
    case None => None
    case Some(k) => Some(shapes[k].id)
  }

  /** `_find_nearest_shape` returns `None` exactly when no centre lies
      strictly within 30 pixels, and otherwise the id of an earliest shape of
      minimum distance. */
  lemma NearestShapeIsArgmin(shapes: seq<ShapeRecord>, x: int, y: int)
    ensures NearestShape(shapes, x, y).None?
        <==> forall j :: 0 <= j < |shapes| ==> !WithinThreshold(shapes[j], x, y)
    ensures NearestShape(shapes, x, y).Some? ==>
      exists k: nat :: IsNearestAmong(shapes, x, y, |shapes|, k) && shapes[k].id == NearestShape(shapes, x, y).value
  {
    NearestIsArgmin(shapes, x, y, |shapes|);
    var r := NearestUpTo(shapes, x, y, |shapes|);
    if r.Some? {
      assert IsNearestAmong(shapes, x, y, |shapes|, r.value);
    }
  }

  // ---------------------------------------------------------------------------
  // Connectors

  /** The connector line i yields, if both ends resolve to different shapes. */
  function ConnectorFor(shapes: seq<ShapeRecord>, i: nat, line: Line): (r: Option<ConnectorRecord>)
    ensures r.Some? ==> r.value.id == i
  {
    var start := NearestShape(shapes, line.x1, line.y1);
    var end := NearestShape(shapes, line.x2, line.y2);
    if start.Some? && end.Some? && start.value != end.value
    then Some(ConnectorRecord(i, start.value, end.value, line.x1, line.y1, line.x2, line.y2))
    else None
  }

  function ConnectorsUpTo(shapes: seq<ShapeRecord>, lines: seq<Line>, n: nat): (r: seq<ConnectorRecord>)
    requires n <= |lines|
    ensures forall k :: 0 <= k < |r| ==> r[k].id < n
    ensures forall j, k :: 0 <= j < k < |r| ==> r[j].id < r[k].id
    decreases n
  {
    if n == 0 then []
    else
      var c := ConnectorFor(shapes, n - 1, lines[n - 1]);
      ConnectorsUpTo(shapes, lines, n - 1) + (if c.Some? then [c.value] else [])
  }

  /** Each connector is the one its own line yields. */
  lemma {:induction false} ConnectorsSound(shapes: seq<ShapeRecord>, lines: seq<Line>, n: nat, k: nat)
    requires n <= |lines| && k < |ConnectorsUpTo(shapes, lines, n)|
    ensures var c := ConnectorsUpTo(shapes, lines, n)[k];
      ConnectorFor(shapes, c.id, lines[c.id]) == Some(c)
    decreases n
  {
    var prev := ConnectorsUpTo(shapes, lines, n - 1);
    if k < |prev| {
      assert ConnectorsUpTo(shapes, lines, n)[k] == prev[k];
      ConnectorsSound(shapes, lines, n - 1, k);
    }
  }

  /** `detect_connectors`: `HoughLinesP` returns `None` when it finds no line. */
  function Connectors(shapes: seq<ShapeRecord>, lines: Option<seq<Line>>): seq<ConnectorRecord> {
    if lines.None? then [] else ConnectorsUpTo(shapes, lines.value, |lines.value|)
  }

  lemma {:induction false} ConnectorsComplete(shapes: seq<ShapeRecord>, lines: seq<Line>, n: nat, i: nat)
    requires i < n <= |lines| && ConnectorFor(shapes, i, lines[i]).Some?
    ensures exists k :: 0 <= k < |ConnectorsUpTo(shapes, lines, n)| && ConnectorsUpTo(shapes, lines, n)[k].id == i
    decreases n
  {
    var prev := ConnectorsUpTo(shapes, lines, n - 1);
    if i == n - 1 {
      assert ConnectorsUpTo(shapes, lines, n)[|prev|].id == i;
    } else {
      ConnectorsComplete(shapes, lines, n - 1, i);
      var k :| 0 <= k < |prev| && prev[k].id == i;
      assert ConnectorsUpTo(shapes, lines, n)[k] == prev[k];
    }
  }

  /** Every emitted connector joins two different shapes of the list, the
      ones nearest to its end points, and carries the line's end points. */
  lemma ConnectorsLinkDistinctShapes(shapes: seq<ShapeRecord>, lines: seq<Line>, k: nat)
    requires k < |Connectors(shapes, Some(lines))|
    ensures var c := Connectors(shapes, Some(lines))[k];
      && c.id < |lines|
      && c.fromShape != c.toShape
      && (exists a :: 0 <= a < |shapes| && shapes[a].id == c.fromShape)
      && (exists b :: 0 <= b < |shapes| && shapes[b].id == c.toShape)
      && NearestShape(shapes, c.startX, c.startY) == Some(c.fromShape)
      && NearestShape(shapes, c.endX, c.endY) == Some(c.toShape)
      && lines[c.id] == Line(c.startX, c.startY, c.endX, c.endY)
  {
    var c := Connectors(shapes, Some(lines))[k];
    ConnectorsSound(shapes, lines, |lines|, k);
    var a := NearestUpTo(shapes, c.startX, c.startY, |shapes|);
    var b := NearestUpTo(shapes, c.endX, c.endY, |shapes|);
    assert shapes[a.value].id == c.fromShape;
    assert shapes[b.value].id == c.toShape;
  }

  /** A line yields a connector exactly when both ends resolve and the two
      shapes differ. */
  lemma ConnectorIffBothEndsResolve(shapes: seq<ShapeRecord>, lines: seq<Line>, i: nat)
    requires i < |lines|
    ensures (exists k :: 0 <= k < |Connectors(shapes, Some(lines))| && Connectors(shapes, Some(lines))[k].id == i)
        <==> (var s := NearestShape(shapes, lines[i].x1, lines[i].y1);
              var e := NearestShape(shapes, lines[i].x2, lines[i].y2);
              s.Some? && e.Some? && s.value != e.value)
  {
    var r := Connectors(shapes, Some(lines));
    if ConnectorFor(shapes, i, lines[i]).Some? {
      ConnectorsComplete(shapes, lines, |lines|, i);
    }
    if exists k :: 0 <= k < |r| && r[k].id == i {
      var k :| 0 <= k < |r| && r[k].id == i;
      ConnectorsSound(shapes, lines, |lines|, k);
    }
  }

  // ---------------------------------------------------------------------------
  // OCR filter

  /** Python's `str.isspace()` for one character. */
  predicate IsSpace(c: char) {
    c in SpaceChars
  }

  /** The characters `str.isspace()` accepts. */
  const SpaceChars: set<char> := {
    '\U{0009}', '\U{000A}', '\U{000B}', '\U{000C}', '\U{000D}',
    '\U{001C}', '\U{001D}', '\U{001E}', '\U{001F}', '\U{0020}',
    '\U{0085}', '\U{00A0}', '\U{1680}',
    '\U{2000}', '\U{2001}', '\U{2002}', '\U{2003}', '\U{2004}', '\U{2005}',
    '\U{2006}', '\U{2007}', '\U{2008}', '\U{2009}', '\U{200A}',
    '\U{2028}', '\U{2029}', '\U{202F}', '\U{205F}', '\U{3000}' }

  /** The input without its leading white space. */
  function TrimStart(s: string): (r: string)
    ensures |r| <= |s|
    decreases |s|
  {
    if s != [] && IsSpace(s[0]) then TrimStart(s[1..]) else s
  }

  /** The input without its trailing white space. */
  function TrimEnd(s: string): (r: string)
    ensures |r| <= |s|
    decreases |s|
  {
    if s != [] && IsSpace(s[|s| - 1]) then TrimEnd(s[..|s| - 1]) else s
  }

  /** `TrimStart` keeps a suffix of the input, drops white space only, and
      all of it. */
  lemma {:induction false} TrimStartDropsLeadingSpace(s: string)
    ensures var r := TrimStart(s);
      && r == s[|s| - |r|..]
      && (forall i :: 0 <= i < |s| - |r| ==> IsSpace(s[i]))
      && (r == [] || !IsSpace(r[0]))
    decreases |s|
  {
    if s != [] && IsSpace(s[0]) {
      TrimStartDropsLeadingSpace(s[1..]);
      var r := TrimStart(s);
      forall i | 1 <= i < |s| - |r| ensures IsSpace(s[i]) {
        assert s[i] == s[1..][i - 1];
      }
    }
  }

  /** `TrimEnd` keeps a prefix of the input, drops white space only, and
      all of it. */
  lemma {:induction false} TrimEndDropsTrailingSpace(s: string)
    ensures var r := TrimEnd(s);
      && r == s[..|r|]
      && (forall i :: |r| <= i < |s| ==> IsSpace(s[i]))
      && (r == [] || !IsSpace(r[|r| - 1]))
    decreases |s|
  {
    if s != [] && IsSpace(s[|s| - 1]) {
      var t := s[..|s| - 1];
      TrimEndDropsTrailingSpace(t);
      var r := TrimEnd(s);
      forall i | |r| <= i < |s| - 1 ensures IsSpace(s[i]) {
        assert s[i] == t[i];
      }
    }
  }

  /** How many white-space characters `strip` removes at the front. */
  function LeadingSpaces(s: string): nat {
    |s| - |TrimStart(s)|
  }

  /** `str.strip()`. */
  function Strip(s: string): string {
    TrimEnd(TrimStart(s))
  }

  /** `strip` removes exactly the leading and trailing white space: the
      result is a slice of the input with white space only outside it, and
      neither of its ends is white space. */
  lemma StripRemovesOuterSpace(s: string)
    ensures var r, i := Strip(s), LeadingSpaces(s);
      && i + |r| <= |s|
      && r == s[i..i + |r|]
      && (forall j :: 0 <= j < i ==> IsSpace(s[j]))
      && (forall j :: i + |r| <= j < |s| ==> IsSpace(s[j]))
    ensures Strip(s) == [] || (!IsSpace(Strip(s)[0]) && !IsSpace(Strip(s)[|Strip(s)| - 1]))
  {
    var t := TrimStart(s);
    TrimStartDropsLeadingSpace(s);
    TrimEndDropsTrailingSpace(t);
    PrefixOfSuffix(s, t, TrimEnd(t), SpaceChars);
  }

  /** A prefix r of a suffix t of s is the slice of s after the |s| - |t|
      dropped characters; whatever t holds after r, s holds after that
      slice. */
  lemma PrefixOfSuffix(s: string, t: string, r: string, chars: set<char>)
    requires |t| <= |s| && t == s[|s| - |t|..]
    requires |r| <= |t| && r == t[..|r|]
    requires forall j :: |r| <= j < |t| ==> t[j] in chars
    ensures var i := |s| - |t|;
      && r == s[i..i + |r|]
      && (forall j :: i + |r| <= j < |s| ==> s[j] in chars)
      && (r != [] ==> r[0] == t[0])
  {
    var i := |s| - |t|;
    forall j | i + |r| <= j < |s| ensures s[j] in chars {
      assert s[j] == t[j - i];
    }
  }

  /** The stripped text is empty exactly when the text is all white space. */
  lemma StripEmptyIffBlank(s: string)
    ensures Strip(s) == [] <==> forall j :: 0 <= j < |s| ==> IsSpace(s[j])
  {
    StripRemovesOuterSpace(s);
    var r := Strip(s);
    if r != [] {
      assert s[LeadingSpaces(s)] == r[0];
    }
  }

  /** `int(conf) > 60` holds exactly for confidences of at least 61. */
  lemma ConfidenceThreshold(conf: real)
    ensures TruncToInt(conf) > MinOcrConfidence <==> conf >= 61.0
  {
  }

  function TextFor(i: nat, row: OcrRow): (r: Option<TextElement>)
    ensures r.Some? ==> r.value.id == i
  {
    var conf := TruncToInt(row.conf);
    if conf > MinOcrConfidence then
      var text := Strip(row.text);
      if text != [] then Some(TextElement(i, text, row.left, row.top, row.width, row.height, conf))
      else None
    else None
  }

  function TextsUpTo(rows: seq<OcrRow>, n: nat): (r: seq<TextElement>)
    requires n <= |rows|
    ensures forall k :: 0 <= k < |r| ==> r[k].id < n
    ensures forall j, k :: 0 <= j < k < |r| ==> r[j].id < r[k].id
    decreases n
  {
    if n == 0 then []
    else
      var t := TextFor(n - 1, rows[n - 1]);
      TextsUpTo(rows, n - 1) + (if t.Some? then [t.value] else [])
  }

  /** Each text element is the one its own row yields. */
  lemma {:induction false} TextsSound(rows: seq<OcrRow>, n: nat, k: nat)
    requires n <= |rows| && k < |TextsUpTo(rows, n)|
    ensures var t := TextsUpTo(rows, n)[k]; TextFor(t.id, rows[t.id]) == Some(t)
    decreases n
  {
    var prev := TextsUpTo(rows, n - 1);
    if k < |prev| {
      assert TextsUpTo(rows, n)[k] == prev[k];
      TextsSound(rows, n - 1, k);
    }
  }

  /** `extract_text`'s result: empty when OCR is unavailable or raises. */
  function Texts(ocr: OcrOutcome): seq<TextElement> {
    match ocr
    case Rows(rows) => TextsUpTo(rows, |rows|)
    case _ => []
  }

  lemma {:induction false} TextsComplete(rows: seq<OcrRow>, n: nat, i: nat)
    requires i < n <= |rows| && TextFor(i, rows[i]).Some?
    ensures exists k :: 0 <= k < |TextsUpTo(rows, n)| && TextsUpTo(rows, n)[k].id == i
    decreases n
  {
    var prev := TextsUpTo(rows, n - 1);
    if i == n - 1 {
      assert TextsUpTo(rows, n)[|prev|].id == i;
    } else {
      TextsComplete(rows, n - 1, i);
      var k :| 0 <= k < |prev| && prev[k].id == i;
      assert TextsUpTo(rows, n)[k] == prev[k];
    }
  }

  /** An OCR row becomes a text element exactly when its confidence is above
      60 and its stripped text is non-empty; the element holds the stripped
      text and the truncated confidence. */
  lemma TextIffConfidentAndNonBlank(rows: seq<OcrRow>, i: nat)
    requires i < |rows|
    ensures (exists k :: 0 <= k < |Texts(Rows(rows))| && Texts(Rows(rows))[k].id == i)
        <==> TruncToInt(rows[i].conf) > MinOcrConfidence && Strip(rows[i].text) != []
    ensures forall k :: 0 <= k < |Texts(Rows(rows))| && Texts(Rows(rows))[k].id == i ==>
      Texts(Rows(rows))[k].text == Strip(rows[i].text)
      && Texts(Rows(rows))[k].confidence == TruncToInt(rows[i].conf)
  {
    var r := Texts(Rows(rows));
    if TextFor(i, rows[i]).Some? {
      TextsComplete(rows, |rows|, i);
    }
    forall k | 0 <= k < |r| && r[k].id == i
      ensures TextFor(i, rows[i]) == Some(r[k])
    {
      TextsSound(rows, |rows|, k);
    }
  }

  // ---------------------------------------------------------------------------
  // The detector object

  class ShapeDetector {
    /** `image.shape[1]` and `image.shape[0]` of the loaded image. */
    const imageWidth: int
    const imageHeight: int
    var shapes: seq<ShapeRecord>
    var connectors: seq<ConnectorRecord>
    var textElements: seq<TextElement>

    constructor (imageWidth: int, imageHeight: int)
      ensures this.imageWidth == imageWidth && this.imageHeight == imageHeight
      ensures shapes == [] && connectors == [] && textElements == []
    {
      this.imageWidth := imageWidth;
      this.imageHeight := imageHeight;
      shapes, connectors, textElements := [], [], [];
    }

    /** `detect_shapes`, given the outer contours of the thresholded image. */
    method DetectShapes(contours: seq<Contour>) returns (result: seq<ShapeRecord>)
      modifies this
      ensures result == Shapes(contours)
      ensures shapes == result
      ensures connectors == old(connectors) && textElements == old(textElements)
    {
      result := [];
      var i := 0;
      while i < |contours|
        invariant 0 <= i <= |contours|
        invariant result == ShapesUpTo(contours, i)
      {
        var c := contours[i];
        if !(c.area < MinShapeArea) {
          var kind := ClassifyShape(c.vertexCount, c.w, c.h, c.circular);
          result := result + [ShapeRecord(i, kind, c.x, c.y, c.w, c.h,
                                          TruncMidpoint(c.x, c.w), TruncMidpoint(c.y, c.h), c.vertexCount)];
        }
        i := i + 1;
      }
      shapes := result;
    }

    /** `_find_nearest_shape(x, y)` over the current shapes. */
    method FindNearestShape(x: int, y: int) returns (nearest: Option<nat>)
      ensures nearest == NearestShape(shapes, x, y)
    {
      var minDistance: Option<nat> := None;  // None stands for infinity
      nearest := None;
      ghost var at: Option<nat> := None;
      var i := 0;
      while i < |shapes|
        invariant 0 <= i <= |shapes|
        invariant at == NearestUpTo(shapes, x, y, i)
        invariant at.None? ==> minDistance.None? && nearest.None?
        invariant at.Some? ==> minDistance == Some(Dist2(shapes[at.value], x, y)) && nearest == Some(shapes[at.value].id)
      {
        var distance := Dist2(shapes[i], x, y);
        if (minDistance.None? || distance < minDistance.value) && distance < NearestThreshold * NearestThreshold {
          minDistance := Some(distance);
          nearest := Some(shapes[i].id);
          at := Some(i);
        }
        i := i + 1;
      }
    }

    /** `detect_connectors`, given the Hough lines of the edge image. */
    method DetectConnectors(lines: Option<seq<Line>>) returns (result: seq<ConnectorRecord>)
      modifies this
      ensures result == Connectors(old(shapes), lines)
      ensures connectors == result
      ensures shapes == old(shapes) && textElements == old(textElements)
    {
      result := [];
      if lines.Some? {
        var ls := lines.value;
        var i := 0;
        while i < |ls|
          invariant 0 <= i <= |ls|
          invariant shapes == old(shapes) && textElements == old(textElements)
          invariant result == ConnectorsUpTo(shapes, ls, i)
        {
          var line := ls[i];
          var startShape := FindNearestShape(line.x1, line.y1);
          var endShape := FindNearestShape(line.x2, line.y2);
          ghost var made := ConnectorFor(shapes, i, line);
          assert ConnectorsUpTo(shapes, ls, i + 1) == result + (if made.Some? then [made.value] else []);
          if startShape.Some? && endShape.Some? && startShape.value != endShape.value {
            result := result + [ConnectorRecord(i, startShape.value, endShape.value,
                                                line.x1, line.y1, line.x2, line.y2)];
          }
          i := i + 1;
        }
      }
      connectors := result;
    }

    /** `extract_text`. When OCR is unavailable or raises, the result is empty
        and the stored text elements are left as they were. */
    method ExtractText(ocr: OcrOutcome) returns (result: seq<TextElement>)
      modifies this
      ensures result == Texts(ocr)
      ensures textElements == (if ocr.Rows? then result else old(textElements))
      ensures shapes == old(shapes) && connectors == old(connectors)
    {
      match ocr {
        case Unavailable =>
          result := [];
        case Failed =>
          result := [];
        case Rows(rows) =>
          result := [];
          var i := 0;
          while i < |rows|
            invariant 0 <= i <= |rows|
            invariant result == TextsUpTo(rows, i)
          {
            var conf := TruncToInt(rows[i].conf);
            if conf > MinOcrConfidence {
              var text := Strip(rows[i].text);
              if text != [] {
                result := result + [TextElement(i, text, rows[i].left, rows[i].top,
                                                rows[i].width, rows[i].height, conf)];
              }
            }
            i := i + 1;
          }
          textElements := result;
      }
    }

    /** `process`: shapes, then connectors against those shapes, then text. */
    method Process(contours: seq<Contour>, lines: Option<seq<Line>>, ocr: OcrOutcome)
      returns (result: ProcessResult)
      modifies this
      ensures result.shapes == Shapes(contours)
      ensures result.connectors == Connectors(Shapes(contours), lines)
      ensures result.textElements == Texts(ocr)
      ensures result.imageWidth == imageWidth && result.imageHeight == imageHeight
      ensures shapes == result.shapes && connectors == result.connectors
      ensures textElements == (if ocr.Rows? then result.textElements else old(textElements))
    {
      var s := DetectShapes(contours);
      var c := DetectConnectors(lines);
      var t := ExtractText(ocr);
      result := ProcessResult(s, c, t, imageWidth, imageHeight);
    }
  }
}

/**
  The page part of the Visio package: how `VisioGenerator` turns one detected
  shape or connector into a `<Shape>` element of `visio/pages/page1.xml`
  (ID, name, position and size cells, geometry), and the scale from image
  pixels to inches.
 */
module VisioPage {
  import opened Wrappers
  import opened Xml
  import Decimal
  import opened ShapeDetection

  const VisioNamespace: string := "http://schemas.microsoft.com/office/visio/2012/main"
  /** Page size in inches the image is scaled to. */
  const PageWidth: real := 8.5
  const PageHeight: real := 11.0
  /** Image size assumed when the data carries none. */
  const DefaultImageWidth: int := 800
  const DefaultImageHeight: int := 600

  /** The dictionary `create_visio_file` receives; a missing image size is
      `None`, a missing list is the empty list (`data.get(key, [])`). */
  datatype DrawingData = DrawingData(
    shapes: seq<ShapeRecord>, connectors: seq<ConnectorRecord>, textElements: seq<TextElement>,
    imageWidth: Option<int>, imageHeight: Option<int>)

  /** The dictionary `ShapeDetector.process` returns. */
  function FromProcess(p: ProcessResult): DrawingData {
    DrawingData(p.shapes, p.connectors, p.textElements, Some(p.imageWidth), Some(p.imageHeight))
  }

  /** Inches per pixel along each axis. */
  datatype Scale = Scale(x: real, y: real)

  /** Raised errors: `8.5 / 0` is a `ZeroDivisionError`. */
  datatype PageError = ZeroDivision

  function ImageWidthOf(data: DrawingData): int {
    if data.imageWidth.Some? then data.imageWidth.value else DefaultImageWidth
  }

  function ImageHeightOf(data: DrawingData): int {
    if data.imageHeight.Some? then data.imageHeight.value else DefaultImageHeight
  }

  /** `scale_x = 8.5 / image_width`, `scale_y = 11.0 / image_height`. */
  function ScaleFactors(data: DrawingData): (r: Result<Scale, PageError>)
    ensures r.Failure? <==> ImageWidthOf(data) == 0 || ImageHeightOf(data) == 0
    ensures r.Success? ==>
      && r.value.x * ImageWidthOf(data) as real == PageWidth
      && r.value.y * ImageHeightOf(data) as real == PageHeight
  {
    var w, h := ImageWidthOf(data), ImageHeightOf(data);
    if w == 0 || h == 0 then Failure(ZeroDivision)
    else Success(Scale(PageWidth / w as real, PageHeight / h as real))
  }

  /** A missing image size means 800 by 600 pixels. */
  lemma DefaultScale(shapes: seq<ShapeRecord>, connectors: seq<ConnectorRecord>, texts: seq<TextElement>)
    ensures ScaleFactors(DrawingData(shapes, connectors, texts, None, None)) == Success(Scale(8.5 / 800.0, 11.0 / 600.0))
  {
  }

  /** The drawing `process` hands over is scaled by its own image size: the
      page fails exactly for an empty image dimension, and otherwise maps the
      image width to 8.5 inches and its height to 11. */
  lemma ProcessedScale(p: ProcessResult)
    ensures ScaleFactors(FromProcess(p)).Failure? <==> p.imageWidth == 0 || p.imageHeight == 0
    ensures ScaleFactors(FromProcess(p)).Success? ==>
      && ScaleFactors(FromProcess(p)).value.x * p.imageWidth as real == PageWidth
      && ScaleFactors(FromProcess(p)).value.y * p.imageHeight as real == PageHeight
    ensures FromProcess(p).shapes == p.shapes && FromProcess(p).connectors == p.connectors
  {
  }

  /** `str(n)` for the integer IDs and row indices. */
  function IdText(n: nat): string {
    Decimal.NatToString(n)
  }

  // ---------------------------------------------------------------------------
  // Shapes

  /** The six position and size cells of a shape, in inches. */
  datatype Box = Box(pinX: real, pinY: real, width: real, height: real, locPinX: real, locPinY: real)

  /** `_add_shape`'s cell arithmetic. */
  function ShapeBox(s: ShapeRecord, sc: Scale): Box {
    var x := s.x as real * sc.x;
    var y := (s.y + s.height) as real * sc.y;
    var width := s.width as real * sc.x;
    var height := s.height as real * sc.y;
    Box(x + width / 2.0, y - height / 2.0, width, height, width / 2.0, height / 2.0)
  }

  /** A Visio geometry row with an `X` and a `Y` cell. */
  function PathRow(t: string, ix: nat, x: real, y: real): Element {
    Node("Row", [Attr("T", Str(t)), Attr("IX", Str(IdText(ix)))], [Cell("X", Num(x)), Cell("Y", Num(y))])
  }

  /** The rows of the Geometry section for a shape type. */
  function GeometryRows(kind: ShapeKind, width: real, height: real): seq<Element> {
    match kind
    case Rectangle | Square =>
      [ PathRow("MoveTo", 1, 0.0, 0.0),
        PathRow("LineTo", 2, width, 0.0),
        PathRow("LineTo", 3, width, height),
        PathRow("LineTo", 4, 0.0, height),
        PathRow("LineTo", 5, 0.0, 0.0) ]
    case Circle | Ellipse =>
      [ EllipseRow(width / 2.0, height / 2.0, width / 2.0, 0.0, width / 2.0, height) ]
    case _ => []
  }

  /** A Visio `Ellipse` row: centre (x, y), then the A to D cells. */
  function EllipseRow(x: real, y: real, a: real, b: real, c: real, d: real): Element {
    Node("Row", [Attr("T", Str("Ellipse")), Attr("IX", Str(IdText(1)))],
         [ Cell("X", Num(x)), Cell("Y", Num(y)),
           Cell("A", Num(a)), Cell("B", Num(b)),
           Cell("C", Num(c)), Cell("D", Num(d)) ])
  }

  /** `_add_shape_geometry`: fill and line flags then rows for the shape
      types it draws, an empty section for all others. */
  function GeometrySection(kind: ShapeKind, width: real, height: real): Element {
    var flags := if kind in {Rectangle, Square, Circle, Ellipse}
                 then [Cell("NoFill", Str("0")), Cell("NoLine", Str("0"))] else [];
    Node("Section", [Attr("N", Str("Geometry")), Attr("IX", Str("0"))], flags + GeometryRows(kind, width, height))
  }

  function RowsOf(section: Element): seq<Element> {
    Tagged(section.children, "Row")
  }

  function PointOf(row: Element): (Option<Value>, Option<Value>) {
    (CellValue(row.children, "X"), CellValue(row.children, "Y"))
  }

  function At(x: real, y: real): (Option<Value>, Option<Value>) {
    (Some(Num(x)), Some(Num(y)))
  }

  lemma PathRowReadsBack(t: string, ix: nat, x: real, y: real)
    ensures Get(PathRow(t, ix, x, y).attrs, "T") == Some(Str(t))
    ensures Get(PathRow(t, ix, x, y).attrs, "IX") == Some(Str(IdText(ix)))
    ensures PointOf(PathRow(t, ix, x, y)) == At(x, y)
  {
    var cs := PathRow(t, ix, x, y).children;
    GetAt(PathRow(t, ix, x, y).attrs, "IX", 1);
    CellValueAt(cs, "X", 0);
    CellValueAt(cs, "Y", 1);
  }

  /** The rows a reader finds in the Geometry section are exactly the
      geometry rows: the fill and line flags are cells, not rows. */
  lemma FlagsAreNotRows(kind: ShapeKind, width: real, height: real)
    ensures RowsOf(GeometrySection(kind, width, height)) == GeometryRows(kind, width, height)
  {
    var flags := if kind in {Rectangle, Square, Circle, Ellipse}
                 then [Cell("NoFill", Str("0")), Cell("NoLine", Str("0"))] else [];
    var rows := GeometryRows(kind, width, height);
    TaggedAppend(flags, rows, "Row");
    TaggedNone(flags, "Row");
    TaggedAll(rows, "Row");
  }

  /** Rectangles and squares get five path rows: a `MoveTo` then four
      `LineTo`s, with row indices 1 to 5... */
  lemma RectanglePathRows(kind: ShapeKind, width: real, height: real)
    requires kind == Rectangle || kind == Square
    ensures var rows := GeometryRows(kind, width, height);
      && |rows| == 5
      && Get(rows[0].attrs, "T") == Some(Str("MoveTo"))
      && (forall i :: 1 <= i < 5 ==> Get(rows[i].attrs, "T") == Some(Str("LineTo")))
      && (forall i :: 0 <= i < 5 ==> Get(rows[i].attrs, "IX") == Some(Str(IdText(i + 1))))
  {
    var rows := GeometryRows(kind, width, height);
    PathRowReadsBack("MoveTo", 1, 0.0, 0.0);
    forall i | 1 <= i < 5
      ensures Get(rows[i].attrs, "T") == Some(Str("LineTo"))
      ensures Get(rows[i].attrs, "IX") == Some(Str(IdText(i + 1)))
    {
      if i == 1 {
        PathRowReadsBack("LineTo", 2, width, 0.0);
      } else if i == 2 {
        PathRowReadsBack("LineTo", 3, width, height);
      } else if i == 3 {
        PathRowReadsBack("LineTo", 4, 0.0, height);
      } else {
        PathRowReadsBack("LineTo", 5, 0.0, 0.0);
      }
    }
  }

  /** ... that trace the shape's box from the origin through the other three
      corners and back to the origin. */
  lemma RectanglePathIsClosed(kind: ShapeKind, width: real, height: real)
    requires kind == Rectangle || kind == Square
    ensures var rows := GeometryRows(kind, width, height);
      && |rows| == 5
      && PointOf(rows[0]) == At(0.0, 0.0)
      && PointOf(rows[1]) == At(width, 0.0)
      && PointOf(rows[2]) == At(width, height)
      && PointOf(rows[3]) == At(0.0, height)
      && PointOf(rows[4]) == PointOf(rows[0])
  {
    PathRowReadsBack("MoveTo", 1, 0.0, 0.0);
    PathRowReadsBack("LineTo", 2, width, 0.0);
    PathRowReadsBack("LineTo", 3, width, height);
    PathRowReadsBack("LineTo", 4, 0.0, height);
    PathRowReadsBack("LineTo", 5, 0.0, 0.0);
  }

  /** Circles and ellipses get one `Ellipse` row centred in the shape box. */
  lemma EllipseIsOneRow(kind: ShapeKind, width: real, height: real)
    requires kind == Circle || kind == Ellipse
    ensures var rows := GeometryRows(kind, width, height);
      && |rows| == 1
      && Get(rows[0].attrs, "T") == Some(Str("Ellipse"))
      && PointOf(rows[0]) == At(width / 2.0, height / 2.0)
      && CellValue(rows[0].children, "A") == Some(Num(width / 2.0))
      && CellValue(rows[0].children, "B") == Some(Num(0.0))
      && CellValue(rows[0].children, "C") == Some(Num(width / 2.0))
      && CellValue(rows[0].children, "D") == Some(Num(height))
  {
    var x, y, a, b, c, d := width / 2.0, height / 2.0, width / 2.0, 0.0, width / 2.0, height;
    EllipseCentreReadsBack(x, y, a, b, c, d);
    EllipseAxesReadBack(x, y, a, b, c, d);
  }

  lemma EllipseCentreReadsBack(x: real, y: real, a: real, b: real, c: real, d: real)
    ensures var row := EllipseRow(x, y, a, b, c, d);
      && Get(row.attrs, "T") == Some(Str("Ellipse"))
      && PointOf(row) == At(x, y)
  {
    CellValueAt(EllipseRow(x, y, a, b, c, d).children, "Y", 1);
  }

  lemma EllipseAxesReadBack(x: real, y: real, a: real, b: real, c: real, d: real)
    ensures var cs := EllipseRow(x, y, a, b, c, d).children;
      && CellValue(cs, "A") == Some(Num(a))
      && CellValue(cs, "B") == Some(Num(b))
      && CellValue(cs, "C") == Some(Num(c))
      && CellValue(cs, "D") == Some(Num(d))
  {
    var cs := EllipseRow(x, y, a, b, c, d).children;
    CellValueAt(cs, "A", 2);
    CellValueAt(cs, "B", 3);
    CellValueAt(cs, "C", 4);
    CellValueAt(cs, "D", 5);
  }

  /** Every other shape type gets an empty Geometry section. */
  lemma OtherKindsHaveEmptyGeometry(kind: ShapeKind, width: real, height: real)
    requires kind !in {Rectangle, Square, Circle, Ellipse}
    ensures GeometrySection(kind, width, height).children == []
    ensures Get(GeometrySection(kind, width, height).attrs, "N") == Some(Str("Geometry"))
  {
  }

  /** The `ID`, `Type` and `NameU` attributes of a page element; the name is
      a prefix followed by the ID. */
  function ShapeAttrs(id: nat, prefix: string): seq<Attr> {
    [Attr("ID", Str(IdText(id))), Attr("Type", Str("Shape")), Attr("NameU", Str(prefix + IdText(id)))]
  }

  /** The six cells `_add_shape` writes. */
  function BoxCells(b: Box): seq<Element> {
    [ Cell("PinX", Num(b.pinX)), Cell("PinY", Num(b.pinY)),
      Cell("Width", Num(b.width)), Cell("Height", Num(b.height)),
      Cell("LocPinX", Num(b.locPinX)), Cell("LocPinY", Num(b.locPinY)) ]
  }

  /** The `<Shape>` element `_add_shape` appends for shape ID `id`. */
  function ShapeElement(id: nat, s: ShapeRecord, sc: Scale): Element {
    var b := ShapeBox(s, sc);
    Node("Shape", ShapeAttrs(id, s.kind.Name() + "_"), BoxCells(b) + [GeometrySection(s.kind, b.width, b.height)])
  }

  /** A page element carries its ID, a `Type` of `Shape` and a `NameU` made
      of the prefix and the ID. */
  lemma ShapeAttrsReadBack(id: nat, prefix: string)
    ensures Get(ShapeAttrs(id, prefix), "ID") == Some(Str(IdText(id)))
    ensures Get(ShapeAttrs(id, prefix), "Type") == Some(Str("Shape"))
    ensures Get(ShapeAttrs(id, prefix), "NameU") == Some(Str(prefix + IdText(id)))
  {
    GetAt(ShapeAttrs(id, prefix), "Type", 1);
    GetAt(ShapeAttrs(id, prefix), "NameU", 2);
  }

  lemma BoxCellsReadBack(b: Box, rest: seq<Element>)
    ensures CellValue(BoxCells(b) + rest, "PinX") == Some(Num(b.pinX))
    ensures CellValue(BoxCells(b) + rest, "PinY") == Some(Num(b.pinY))
    ensures CellValue(BoxCells(b) + rest, "Width") == Some(Num(b.width))
    ensures CellValue(BoxCells(b) + rest, "Height") == Some(Num(b.height))
    ensures CellValue(BoxCells(b) + rest, "LocPinX") == Some(Num(b.locPinX))
    ensures CellValue(BoxCells(b) + rest, "LocPinY") == Some(Num(b.locPinY))
  {
    var cs := BoxCells(b) + rest;
    CellValueAt(cs, "PinX", 0);
    CellValueAt(cs, "PinY", 1);
    CellValueAt(cs, "Width", 2);
    CellValueAt(cs, "Height", 3);
    CellValueAt(cs, "LocPinX", 4);
    CellValueAt(cs, "LocPinY", 5);
  }

  /** What a reader finds in a shape element: its ID and `NameU`, and the
      cells of its `ShapeBox`. */
  lemma ShapeElementReadsBack(id: nat, s: ShapeRecord, sc: Scale)
    ensures var e, b := ShapeElement(id, s, sc), ShapeBox(s, sc);
      && e.tag == "Shape"
      && Get(e.attrs, "ID") == Some(Str(IdText(id)))
      && Get(e.attrs, "Type") == Some(Str("Shape"))
      && Get(e.attrs, "NameU") == Some(Str(s.kind.Name() + "_" + IdText(id)))
      && CellValue(e.children, "PinX") == Some(Num(b.pinX))
      && CellValue(e.children, "PinY") == Some(Num(b.pinY))
      && CellValue(e.children, "Width") == Some(Num(b.width))
      && CellValue(e.children, "Height") == Some(Num(b.height))
      && CellValue(e.children, "LocPinX") == Some(Num(b.locPinX))
      && CellValue(e.children, "LocPinY") == Some(Num(b.locPinY))
      && |e.children| == 7
      && e.children[6] == GeometrySection(s.kind, b.width, b.height)
  {
    var b := ShapeBox(s, sc);
    ShapeAttrsReadBack(id, s.kind.Name() + "_");
    BoxCellsReadBack(b, [GeometrySection(s.kind, b.width, b.height)]);
  }

  /** The pin is the centre of the scaled bounding box: `PinY` is `y + h/2`
      scaled, with no flip of the vertical axis; the local pin is half the
      scaled size. */
  lemma ShapeBoxIsCentred(s: ShapeRecord, sc: Scale)
    ensures var b := ShapeBox(s, sc);
      && b.pinX == (s.x as real + s.width as real / 2.0) * sc.x
      && b.pinY == (s.y as real + s.height as real / 2.0) * sc.y
      && b.width == s.width as real * sc.x
      && b.height == s.height as real * sc.y
      && b.locPinX == b.width / 2.0
      && b.locPinY == b.height / 2.0
  {
    var x, w, sx := s.x as real, s.width as real, sc.x;
    var y, h, sy := s.y as real, s.height as real, sc.y;
    assert x * sx + w * sx / 2.0 == (x + w / 2.0) * sx;
    assert (y + h) * sy - h * sy / 2.0 == (y + h / 2.0) * sy;
  }

  // ---------------------------------------------------------------------------
  // Connectors

  /** A connector's end points in inches. */
  datatype Segment = Segment(beginX: real, beginY: real, endX: real, endY: real)

  /** `_add_connector`'s scaling of the end points. */
  function ScaledSegment(c: ConnectorRecord, sc: Scale): Segment {
    Segment(c.startX as real * sc.x, c.startY as real * sc.y, c.endX as real * sc.x, c.endY as real * sc.y)
  }

  /** The six cells `_add_connector` writes. */
  function SegmentCells(g: Segment): seq<Element> {
    [ Cell("PinX", Num((g.beginX + g.endX) / 2.0)), Cell("PinY", Num((g.beginY + g.endY) / 2.0)),
      Cell("BeginX", Num(g.beginX)), Cell("BeginY", Num(g.beginY)),
      Cell("EndX", Num(g.endX)), Cell("EndY", Num(g.endY)) ]
  }

  /** The `<Shape>` element `_add_connector` appends for connector ID `id`. */
  function ConnectorElement(id: nat, c: ConnectorRecord, sc: Scale): Element {
    Node("Shape", ShapeAttrs(id, "Connector_"), SegmentCells(ScaledSegment(c, sc)))
  }

  /** A segment's cells begin and end at its end points... */
  lemma SegmentEndsReadBack(g: Segment)
    ensures CellValue(SegmentCells(g), "BeginX") == Some(Num(g.beginX))
    ensures CellValue(SegmentCells(g), "BeginY") == Some(Num(g.beginY))
    ensures CellValue(SegmentCells(g), "EndX") == Some(Num(g.endX))
    ensures CellValue(SegmentCells(g), "EndY") == Some(Num(g.endY))
  {
    var cs := SegmentCells(g);
    CellValueAt(cs, "BeginX", 2);
    CellValueAt(cs, "BeginY", 3);
    CellValueAt(cs, "EndX", 4);
    CellValueAt(cs, "EndY", 5);
  }

  /** ... and pin it at their midpoint. */
  lemma SegmentPinReadsBack(g: Segment)
    ensures CellValue(SegmentCells(g), "PinX") == Some(Num(g.beginX + (g.endX - g.beginX) / 2.0))
    ensures CellValue(SegmentCells(g), "PinY") == Some(Num(g.beginY + (g.endY - g.beginY) / 2.0))
  {
    var cs := SegmentCells(g);
    CellValueAt(cs, "PinX", 0);
    CellValueAt(cs, "PinY", 1);
  }

  /** A connector element carries its ID, a `Type` of `Shape` and the name
      `Connector_<id>`. */
  lemma ConnectorElementNames(id: nat, c: ConnectorRecord, sc: Scale)
    ensures var e := ConnectorElement(id, c, sc);
      && e.tag == "Shape"
      && Get(e.attrs, "ID") == Some(Str(IdText(id)))
      && Get(e.attrs, "Type") == Some(Str("Shape"))
      && Get(e.attrs, "NameU") == Some(Str("Connector_" + IdText(id)))
  {
    ShapeAttrsReadBack(id, "Connector_");
  }

  /** A connector element begins and ends at the end points of its
      `ScaledSegment` (the line's end points times the scale, with no flip
      of the vertical axis) and is pinned at their midpoint. */
  lemma ConnectorElementCells(id: nat, c: ConnectorRecord, sc: Scale)
    ensures var e, g := ConnectorElement(id, c, sc), ScaledSegment(c, sc);
      && CellValue(e.children, "BeginX") == Some(Num(g.beginX))
      && CellValue(e.children, "BeginY") == Some(Num(g.beginY))
      && CellValue(e.children, "EndX") == Some(Num(g.endX))
      && CellValue(e.children, "EndY") == Some(Num(g.endY))
      && CellValue(e.children, "PinX") == Some(Num(g.beginX + (g.endX - g.beginX) / 2.0))
      && CellValue(e.children, "PinY") == Some(Num(g.beginY + (g.endY - g.beginY) / 2.0))
  {
    SegmentEndsReadBack(ScaledSegment(c, sc));
    SegmentPinReadsBack(ScaledSegment(c, sc));
  }

  // ---------------------------------------------------------------------------
  // The page

  /** One shape element per shape, IDs counting up from `first`. */
  function ShapeElements(first: nat, shapes: seq<ShapeRecord>, sc: Scale): (r: seq<Element>)
    ensures |r| == |shapes|
  {
    seq(|shapes|, k requires 0 <= k < |shapes| => ShapeElement(first + k, shapes[k], sc))
  }

  /** One connector element per connector, IDs counting up from `first`. */
  function ConnectorElements(first: nat, connectors: seq<ConnectorRecord>, sc: Scale): (r: seq<Element>)
    ensures |r| == |connectors|
  {
    seq(|connectors|, k requires 0 <= k < |connectors| => ConnectorElement(first + k, connectors[k], sc))
  }

  /** Adding one more shape adds its element, under the next ID, at the end. */
  lemma ShapeElementsAppend(first: nat, shapes: seq<ShapeRecord>, s: ShapeRecord, sc: Scale)
    ensures ShapeElements(first, shapes + [s], sc) == ShapeElements(first, shapes, sc) + [ShapeElement(first + |shapes|, s, sc)]
  {
    var a, b := ShapeElements(first, shapes + [s], sc), ShapeElements(first, shapes, sc) + [ShapeElement(first + |shapes|, s, sc)];
    forall k | 0 <= k < |a|
      ensures a[k] == b[k]
    {
      if k < |shapes| {
        assert (shapes + [s])[k] == shapes[k];
      }
    }
  }

  /** Adding one more connector adds its element, under the next ID, at the
      end. */
  lemma ConnectorElementsAppend(first: nat, connectors: seq<ConnectorRecord>, c: ConnectorRecord, sc: Scale)
    ensures ConnectorElements(first, connectors + [c], sc)
         == ConnectorElements(first, connectors, sc) + [ConnectorElement(first + |connectors|, c, sc)]
  {
    var a, b := ConnectorElements(first, connectors + [c], sc),
                ConnectorElements(first, connectors, sc) + [ConnectorElement(first + |connectors|, c, sc)];
    forall k | 0 <= k < |a|
      ensures a[k] == b[k]
    {
      if k < |connectors| {
        assert (connectors + [c])[k] == connectors[k];
      }
    }
  }

  /** The elements of the `Shapes` list: the shapes, then the connectors.
      Text elements are not drawn. */
  function PageShapes(firstShapeId: nat, firstConnectorId: nat, data: DrawingData, sc: Scale): (r: seq<Element>)
    ensures |r| == |data.shapes| + |data.connectors|
  {
    ShapeElements(firstShapeId, data.shapes, sc) + ConnectorElements(firstConnectorId, data.connectors, sc)
  }

  /** The root of `page1.xml`. */
  function PageContents(shapes: seq<Element>): Element {
    Node("PageContents", [Attr("xmlns", Str(VisioNamespace))], [Node("Shapes", [], shapes)])
  }

  /** The `ID` of the element at position k of the page's `Shapes` list. */
  function IdAt(firstShapeId: nat, firstConnectorId: nat, data: DrawingData, k: nat): nat
    requires k < |data.shapes| + |data.connectors|
  {
    if k < |data.shapes| then firstShapeId + k else firstConnectorId + (k - |data.shapes|)
  }

  /** The page lists every shape, in order, before every connector, in
      order, and the IDs count up by one within each group. */
  lemma PageShapesInOrder(firstShapeId: nat, firstConnectorId: nat, data: DrawingData, sc: Scale, k: nat)
    requires k < |data.shapes| + |data.connectors|
    ensures var e := PageShapes(firstShapeId, firstConnectorId, data, sc)[k];
      && Get(e.attrs, "ID") == Some(Str(IdText(IdAt(firstShapeId, firstConnectorId, data, k))))
      && (k < |data.shapes| ==>
            Get(e.attrs, "NameU") == Some(Str(data.shapes[k].kind.Name() + "_" + IdText(firstShapeId + k))))
      && (k < |data.shapes| ==> e == ShapeElement(firstShapeId + k, data.shapes[k], sc))
      && (k >= |data.shapes| ==>
            e == ConnectorElement(firstConnectorId + (k - |data.shapes|), data.connectors[k - |data.shapes|], sc))
  {
    var n := |data.shapes|;
    if k < n {
      ShapeAttrsReadBack(firstShapeId + k, data.shapes[k].kind.Name() + "_");
    } else {
      ShapeAttrsReadBack(firstConnectorId + (k - n), "Connector_");
    }
  }

  /** Whatever the counters start at, two shapes never share an ID, nor do
      two connectors. */
  lemma IdsDistinctWithinKind(firstShapeId: nat, firstConnectorId: nat, data: DrawingData, j: nat, k: nat)
    requires j < k < |data.shapes| + |data.connectors|
    requires k < |data.shapes| || |data.shapes| <= j
    ensures IdText(IdAt(firstShapeId, firstConnectorId, data, j)) != IdText(IdAt(firstShapeId, firstConnectorId, data, k))
  {
    Decimal.NatToStringInjective(IdAt(firstShapeId, firstConnectorId, data, j), IdAt(firstShapeId, firstConnectorId, data, k));
  }

  /** With a fresh generator (shape IDs from 1, connector IDs from 1000) the
      IDs on the page are pairwise distinct exactly when there are fewer than
      1000 shapes or no connectors: the 1000th shape takes ID 1000, which is
      also the first connector's. */
  lemma FreshPageIdsDistinct(data: DrawingData)
    ensures (forall j, k :: 0 <= j < k < |data.shapes| + |data.connectors| ==>
               IdText(IdAt(1, 1000, data, j)) != IdText(IdAt(1, 1000, data, k)))
        <==> |data.shapes| < 1000 || |data.connectors| == 0
  {
    var n, m := |data.shapes|, |data.connectors|;
    forall j, k | 0 <= j < k < n + m
      ensures IdText(IdAt(1, 1000, data, j)) == IdText(IdAt(1, 1000, data, k))
          <==> IdAt(1, 1000, data, j) == IdAt(1, 1000, data, k)
    {
      Decimal.NatToStringInjective(IdAt(1, 1000, data, j), IdAt(1, 1000, data, k));
    }
    if n >= 1000 && m > 0 {
      assert IdAt(1, 1000, data, 999) == IdAt(1, 1000, data, n);
    }
  }
}

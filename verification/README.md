# Image-to-Visio converter: a Dafny model of its core

The converter turns a picture of a diagram into a Visio `.vsdx` file. It has
two halves, and this project models the logic of each.

**`ShapeDetector`** (module `ShapeDetection`, `Detection.dfy`) works on what
OpenCV and Tesseract report about the picture. Those reports are the
model's inputs:

- Contours smaller than 500 square pixels are dropped as noise. Every other
  contour becomes a shape record, classified by its vertex count, its aspect
  ratio and its circularity.
- Each detected line becomes a connector when both of its ends lie strictly
  within 30 pixels of a shape centre and the two nearest shapes differ.
- OCR words are kept when their confidence, truncated to an integer, is
  above 60 and their stripped text is not empty.

The class keeps the source's three lists as fields. `DetectShapes`,
`DetectConnectors` and `ExtractText` are loops, each proved equal to a
specification function (`Shapes`, `Connectors`, `Texts`). `Process` calls
the three in turn. The properties the source promises are proved about
those functions:

- a record exists exactly for the inputs that pass the filter;
- records keep input order;
- the nearest shape is the first argmin of the distance.

**`VisioGenerator`** (module `VisioWriter`, `Generator.dfy`) is a class with
the two ID counters. Shape IDs start at 1 and connector IDs start at 1000,
and neither counter is ever reset. It builds the XML trees of the package:

- The page (`VisioPage`, `Page.dfy`): one `<Shape>` per shape, then one per
  connector. Each carries its ID and `NameU`, and its position cells. Every
  shape element also ends with a Geometry section. Only rectangles, squares,
  circles and ellipses get flags and rows in it; for the other types it is
  empty. Pixels are scaled to a page 8.5 inches wide and 11 inches high.
- The fixed parts (`VisioPackage`, `Package.dfy`): the content-type table,
  the three relationship parts, the document and property parts, the page
  index and the masters part.

`CreateVisioFile` returns every part with its archive path, in the order the
source writes them. A zero image width or height is the source's
`ZeroDivisionError`. The proved properties include:

- every override names a part that is written, and every written part gets
  the content type its table entry gives;
- every relationship target resolves to a written part;
- reading a shape element back gives the scaled box of its shape.

They also show two things about the page as the source writes it:

- `PinY` is the centre of the box measured downward in image coordinates.
  The vertical axis is not flipped, even though a comment in `_add_shape`
  says it is.
- With a fresh generator, the IDs on a page are pairwise distinct exactly
  when there are fewer than 1000 shapes or no connectors
  (`VisioPage.FreshPageIdsDistinct`).

Shared pieces:

- `Xml.dfy`: element trees as values, and the attribute and cell lookups a
  reader of the XML performs.
- `Decimal.dfy`: `str()` of a non-negative integer, with its parse round
  trip and injectivity.
- `Wrappers.dfy`: `Option` and `Result`.

## Model

| member | source | states |
|---|---|---|
| ShapeDetection.TruncToInt | backend/image_processor.py:51-52 | `int()` of a float truncates toward zero: the result is within one of the argument, on the side of zero |
| ShapeDetection.MidpointOfNonNegative | backend/image_processor.py:51-52 | for a non-negative box, `center_x = int(x + w/2)` is `x + w div 2`, the floor of the exact midpoint |
| ShapeDetection.ShapeCentre | backend/image_processor.py:40-54 | a shape record's centre is its box origin plus half its size, rounded down, and its vertex count is the approximation's length |
| ShapeDetection.SquareIffCrossMultiplied | backend/image_processor.py:59-70 | the type is `square` iff there are 4 vertices, the height is positive and 0.95 <= width/height <= 1.05 |
| ShapeDetection.FlatQuadrilateralIsRectangle | backend/image_processor.py:62-70 | a 4-vertex contour of height 0 has aspect ratio 0 and is a `rectangle` |
| ShapeDetection.ClassifyBands | backend/image_processor.py:59-82 | each type corresponds to exactly one vertex band (3; 4; 5; 6; more than 6; fewer than 3); only 4 vertices depend on the size, and only more than 6 on circularity |
| ShapeDetection.ShapesUpTo | backend/image_processor.py:32-57 | records come out in contour order, one per contour index, each for a kept contour |
| ShapeDetection.ShapesComplete | backend/image_processor.py:33-54 | every contour of area >= 500 gets a record |
| ShapeDetection.ShapesAreFilteredContours | backend/image_processor.py:33-54 | contour i has a record iff its area is >= 500, and that record is built from contour i |
| ShapeDetection.NearestUpTo | backend/image_processor.py:112-125 | a returned index is a shape strictly within 30 pixels of the point |
| ShapeDetection.NearestIsArgmin | backend/image_processor.py:112-125 | no result iff no shape is within the threshold; otherwise the result is the first shape at minimum distance among those within it |
| ShapeDetection.NearestShapeIsArgmin | backend/image_processor.py:112-125 | the same over all shapes: the first nearest shape centre strictly within 30 pixels, or none |
| ShapeDetection.ConnectorsUpTo | backend/image_processor.py:89-107 | connectors come out in line order, one per line at most |
| ShapeDetection.ConnectorsSound | backend/image_processor.py:95-107 | every connector is the acceptance test's result for its own line |
| ShapeDetection.ConnectorsComplete | backend/image_processor.py:91-107 | every line that passes the acceptance test yields a connector |
| ShapeDetection.ConnectorsLinkDistinctShapes | backend/image_processor.py:95-107 | a connector joins two different existing shapes, which are the nearest shapes to its two ends, and it keeps its line's coordinates |
| ShapeDetection.ConnectorIffBothEndsResolve | backend/image_processor.py:95-98 | line i yields a connector iff both ends have a nearest shape and those shapes differ |
| ShapeDetection.TrimStartDropsLeadingSpace | backend/image_processor.py:140 | the left trim keeps a suffix of the input, drops only white space, and leaves no leading white space |
| ShapeDetection.TrimEndDropsTrailingSpace | backend/image_processor.py:140 | the right trim keeps a prefix of the input, drops only white space, and leaves no trailing white space |
| ShapeDetection.StripRemovesOuterSpace | backend/image_processor.py:140 | `strip()` returns the input's slice between all-whitespace ends, and that slice neither starts nor ends with whitespace |
| ShapeDetection.StripEmptyIffBlank | backend/image_processor.py:140-141 | the stripped text is empty iff the input is all whitespace |
| ShapeDetection.ConfidenceThreshold | backend/image_processor.py:139 | `int(conf) > 60` holds iff conf >= 61 |
| ShapeDetection.TextsUpTo | backend/image_processor.py:137-150 | text elements come out in row order, one per row at most |
| ShapeDetection.TextsSound | backend/image_processor.py:139-150 | every text element is the filter's result for its own row |
| ShapeDetection.TextsComplete | backend/image_processor.py:138-150 | every row that passes the filter yields a text element |
| ShapeDetection.TextIffConfidentAndNonBlank | backend/image_processor.py:138-150 | row i yields a text element iff its truncated confidence is above 60 and its stripped text is non-empty; the element holds the stripped text and the truncated confidence |
| ShapeDetection.ShapeDetector.constructor | backend/image_processor.py:13-19 | a new detector has empty shape, connector and text lists |
| ShapeDetection.ShapeDetector.DetectShapes | backend/image_processor.py:27-57 | the loop returns and stores `Shapes(contours)` and leaves the other lists alone |
| ShapeDetection.ShapeDetector.FindNearestShape | backend/image_processor.py:112-125 | the loop returns the nearest shape of the stored shapes, as characterised by `NearestShapeIsArgmin` |
| ShapeDetection.ShapeDetector.DetectConnectors | backend/image_processor.py:84-110 | the loop returns and stores `Connectors` of the stored shapes; when no lines are found, the result is empty |
| ShapeDetection.ShapeDetector.ExtractText | backend/image_processor.py:127-156 | the loop returns `Texts(ocr)`; the stored list changes only when OCR ran; unavailable or failing OCR returns the empty list |
| ShapeDetection.ShapeDetector.Process | backend/image_processor.py:158-170 | shapes, then connectors over those shapes, then text, together with the image size |
| VisioPage.ScaleFactors | backend/visio_generator.py:185-187 | fails iff the image width or height (default 800 by 600) is zero; otherwise the factors map the width to 8.5 and the height to 11 |
| VisioPage.ProcessedScale | backend/visio_generator.py:185-187 | the drawing `process` returns fails to scale iff its image width or height is zero; otherwise it maps that width to 8.5 and that height to 11, and it carries the detected shapes and connectors |
| VisioPage.DefaultScale | backend/visio_generator.py:186-187 | a missing image size scales by 8.5/800 and 11/600 |
| VisioPage.PathRowReadsBack | backend/visio_generator.py:242-260 | a geometry row carries its `T`, its `IX` and its `X`/`Y` cells |
| VisioPage.FlagsAreNotRows | backend/visio_generator.py:235-273 | the rows in a Geometry section are exactly the geometry rows; the fill and line flags are not rows |
| VisioPage.RectanglePathRows | backend/visio_generator.py:237-260 | rectangles and squares get five rows: a `MoveTo` and four `LineTo`s, with indices 1 to 5 |
| VisioPage.RectanglePathIsClosed | backend/visio_generator.py:242-260 | the rows go from (0,0) through (w,0), (w,h) and (0,h), and back to the starting point |
| VisioPage.EllipseIsOneRow | backend/visio_generator.py:262-273 | circles and ellipses get one `Ellipse` row at (w/2, h/2), with A = w/2, B = 0, C = w/2 and D = h |
| VisioPage.EllipseCentreReadsBack | backend/visio_generator.py:267-269 | an `Ellipse` row carries its type and its centre cells |
| VisioPage.EllipseAxesReadBack | backend/visio_generator.py:270-273 | an `Ellipse` row carries its A to D cells |
| VisioPage.OtherKindsHaveEmptyGeometry | backend/visio_generator.py:233-237 | the other shape types get an empty Geometry section |
| VisioPage.ShapeAttrsReadBack | backend/visio_generator.py:210-213 | a page element carries `ID = str(id)`, `Type = Shape` and `NameU` = prefix + `str(id)` |
| VisioPage.BoxCellsReadBack | backend/visio_generator.py:216-226 | the six position and size cells read back as the box's fields |
| VisioPage.ShapeElementReadsBack | backend/visio_generator.py:199-231 | a shape element has `NameU = <type>_<id>`, its six cells equal the scaled box, and its seventh and last child is the Geometry section for its type at the scaled width and height |
| VisioPage.ShapeBoxIsCentred | backend/visio_generator.py:205-223 | the pin is the scaled centre of the pixel box, `(x + w/2, y + h/2)` with no flip of the vertical axis, and the local pin is half the scaled size |
| VisioPage.SegmentEndsReadBack | backend/visio_generator.py:291-301 | a connector's `Begin`/`End` cells are the scaled end points |
| VisioPage.SegmentPinReadsBack | backend/visio_generator.py:292-293 | a connector's pin is the midpoint of its end points |
| VisioPage.ConnectorElementNames | backend/visio_generator.py:285-288 | a connector element has `ID = str(id)`, `Type = Shape` and `NameU = Connector_<id>` |
| VisioPage.ConnectorElementCells | backend/visio_generator.py:280-301 | a connector element's cells are the line's end points times the scale, and their midpoint |
| VisioPage.ShapeElementsAppend | backend/visio_generator.py:190-191 | adding one more shape appends its element under the next ID |
| VisioPage.ConnectorElementsAppend | backend/visio_generator.py:194-195 | adding one more connector appends its element under the next ID |
| VisioPage.PageShapes | backend/visio_generator.py:189-195 | the page lists one element per shape and one per connector; text elements are not drawn |
| VisioPage.PageShapesInOrder | backend/visio_generator.py:189-195 | element k is the shape element of shape k, or after the n shapes the connector element of connector k - n; IDs count up by one from each counter's start |
| VisioPage.IdsDistinctWithinKind | backend/visio_generator.py:201-202 | whatever the counters start at, no two shapes share an ID and no two connectors do |
| VisioPage.FreshPageIdsDistinct | backend/visio_generator.py:18-21 | for a fresh generator, the page's IDs are pairwise distinct iff there are fewer than 1000 shapes or no connectors |
| VisioPackage.Package | backend/visio_generator.py:23-54 | the package has ten parts, written in the order `create_visio_file` writes them |
| VisioPackage.WrittenPathsDistinct | backend/visio_generator.py:33-39 | no two parts share an archive path |
| VisioPackage.PageIsWritten | backend/visio_generator.py:168-169 | `visio/pages/page1.xml` holds the page content that was built |
| VisioPackage.ContentTypesListsTables | backend/visio_generator.py:71-95 | `[Content_Types].xml` has a `Default` element for each extension, then an `Override` element for each part name, each with its content type |
| VisioPackage.RelationshipsPartReadsBack | backend/visio_generator.py:99-108 | a relationships part lists each relationship in order, with its `Id`, `Type` and `Target` |
| VisioPackage.OverrideNamesWrittenPart | backend/visio_generator.py:83-90 | each override names `/` followed by the path of a written part |
| VisioPackage.OverriddenPartsAreTyped | backend/visio_generator.py:83-93 | each overridden part gets its override's content type |
| VisioPackage.RelsPartsAreTyped | backend/visio_generator.py:75-81 | the three `.rels` parts get the relationships content type, by their extension |
| VisioPackage.ContentTypesPartIsTyped | backend/visio_generator.py:75-81 | `[Content_Types].xml` itself gets `application/xml`, by its extension |
| VisioPackage.RootRelationshipsResolve | backend/visio_generator.py:101-105 | the package relationships `rId1`-`rId3` are distinct and target `app.xml`, `core.xml` and the document, which are all written |
| VisioPackage.RootRelsArePlaced | backend/visio_generator.py:110 | `_rels/.rels` is the relationships path of the package root |
| VisioPackage.DocumentRelsArePlaced | backend/visio_generator.py:158 | `visio/_rels/document.xml.rels` is the relationships path of `visio/document.xml` |
| VisioPackage.PagesRelsArePlaced | backend/visio_generator.py:178 | `visio/pages/_rels/pages.xml.rels` is the relationships path of `visio/pages/pages.xml` |
| VisioPackage.DocumentRelationshipsResolve | backend/visio_generator.py:148-158 | the document's two relationships have distinct ids and resolve, against `visio/`, to the page index and the masters part |
| VisioPackage.PagesRelationshipsResolve | backend/visio_generator.py:172-178 | the page index's relationship resolves, against `visio/pages/`, to the page |
| VisioWriter.VisioGenerator.constructor | backend/visio_generator.py:18-21 | shape IDs start at 1 and connector IDs at 1000 |
| VisioWriter.VisioGenerator.AddShape | backend/visio_generator.py:199-231 | returns the shape element under the current shape ID, advances the shape counter by one and leaves the connector counter alone |
| VisioWriter.VisioGenerator.AddConnector | backend/visio_generator.py:275-301 | returns the connector element under the current connector ID, advances the connector counter by one and leaves the shape counter alone |
| VisioWriter.VisioGenerator.AddShapes | backend/visio_generator.py:189-191 | the loop yields `ShapeElements` from the old counter, which advances by the number of shapes |
| VisioWriter.VisioGenerator.AddConnectors | backend/visio_generator.py:193-195 | the loop yields `ConnectorElements` from the old counter, which advances by the number of connectors |
| VisioWriter.VisioGenerator.CreatePageContent | backend/visio_generator.py:180-197 | fails iff the scale divides by zero, leaving both counters unchanged; otherwise returns the page of `PageShapes` and advances each counter by its element count |
| VisioWriter.VisioGenerator.CreateVisioFile | backend/visio_generator.py:23-54 | fails iff the page's scale divides by zero; otherwise returns `Package` of that page, with the counters advanced as for the page |
| Decimal.ParseNatToString | backend/visio_generator.py:211 | `str(n)` read back as a decimal number is n |
| Decimal.NatToStringInjective | backend/visio_generator.py:211 | distinct IDs have distinct `str()` |

## Left out

- The image pipeline itself (`cv2.imread`, blur, Otsu threshold, `findContours`, `approxPolyDP`, `boundingRect`, `arcLength`, Canny, `HoughLinesP`) is not modelled. The model starts from what those calls report: each contour's area, box and approximation vertex count, and each line's end points.
- The circularity test `4*pi*area/perimeter^2 > 0.8` is a boolean input. It is floating point over OpenCV's perimeter.
- ShapeDetection.ClassifyShape: uses exact rational arithmetic for `0.95 <= w/h <= 1.05`. Float rounding at the two bounds is not modelled.
- ShapeDetection.NearestShape: compares squared integer distances in place of `np.sqrt` floats. For integer points the order and the strict `< 30` test agree. Rounding that could make two different large distances equal floats is not modelled.
- ShapeDetection.Dist2: uses unbounded integers. The Hough end points are NumPy `int32`, so `(x - cx)**2` can wrap around once a distance passes about 46,000 pixels. That wrap-around is not modelled, and the model's nearest-shape result can differ from the source's for such distances.
- Tesseract is an input: unavailable, raised an exception, or returned rows. The `print` messages on those paths are not modelled.
- OCR confidences are exact reals truncated by `int()`. Non-numeric confidence strings are not modelled.
- `str.strip()` uses Python's whitespace set, written out by code point. Unicode categories beyond that set are not modelled.
- Record ids are the enumeration index as a natural number. The source's strings `shape_i`, `connector_i` and `text_i` are in one-to-one correspondence with these indices.
- Shape types are a datatype. `ShapeKind.Name()` gives the source's lower-case strings.
- The temporary directory and the directory tree: `uuid`, `os.makedirs`, `_create_directory_structure` and `shutil.rmtree` are not modelled.
- `_write_xml`, the lxml serialisation with its XML declaration and pretty printing, is not modelled. Parts are element trees.
- The zip archive is not modelled, and neither is `os.walk`'s file order within it. The package is the list of parts in the order `create_visio_file` writes them. The empty `visio/masters/_rels` directory never reaches the archive and is not modelled.
- Numeric cell values are exact reals (`Num`). `str(float)` formatting and float rounding of the scale products are not modelled.
- The literal `'0'` coordinate cells are modelled as `Num(0)`. The `NoFill`/`NoLine` flags are the string `"0"`.
- The `nsmap` prefixes of `docProps/core.xml` are modelled as `xmlns:` attributes. Tags and attribute names keep lxml's `{namespace}local` (Clark) form. The prefixes they serialise to are not modelled.
- `datetime.utcnow()` is the `created` parameter of `CreateVisioFile`.
- The output path is stored by the constructor. Returning it after the zip is written is not modelled.
- The `ShapeDetector` constructor takes the image size, which the source reads from the loaded image in `process`.
- `main.py`, the web service around the two classes, is not part of this model.

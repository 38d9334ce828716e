/**
  `VisioGenerator`: the object that owns the two ID counters and writes a
  `.vsdx` package for one drawing. Each shape added takes the next shape ID
  and each connector the next connector ID; the counters are never reset, so
  a second file written by the same generator continues where the first
  stopped.
 */
module VisioWriter {
  import opened Wrappers
  import opened Xml
  import opened ShapeDetection
  import opened VisioPage
  import opened VisioPackage

  const FirstShapeId: nat := 1
  const FirstConnectorId: nat := 1000

  class VisioGenerator {
    /** Where the archive is written; the archive itself is not modelled. */
    const outputPath: string
    var shapeIdCounter: nat
    var connectorIdCounter: nat

    constructor (outputPath: string)
      ensures this.outputPath == outputPath
      ensures shapeIdCounter == FirstShapeId && connectorIdCounter == FirstConnectorId
    {
      this.outputPath := outputPath;
      shapeIdCounter := FirstShapeId;
      connectorIdCounter := FirstConnectorId;
    }

    /** `_add_shape`: the element for one shape, under the next shape ID. */
    method AddShape(s: ShapeRecord, sc: Scale) returns (e: Element)
      modifies this
      ensures e == ShapeElement(old(shapeIdCounter), s, sc)
      ensures shapeIdCounter == old(shapeIdCounter) + 1
      ensures connectorIdCounter == old(connectorIdCounter)
    {
      var shapeId := shapeIdCounter;
      shapeIdCounter := shapeIdCounter + 1;
      e := ShapeElement(shapeId, s, sc);
    }

    /** `_add_connector`: the element for one connector, under the next
        connector ID. */
    method AddConnector(c: ConnectorRecord, sc: Scale) returns (e: Element)
      modifies this
      ensures e == ConnectorElement(old(connectorIdCounter), c, sc)
      ensures connectorIdCounter == old(connectorIdCounter) + 1
      ensures shapeIdCounter == old(shapeIdCounter)
    {
      var connectorId := connectorIdCounter;
      connectorIdCounter := connectorIdCounter + 1;
      e := ConnectorElement(connectorId, c, sc);
    }

    /** The first loop of `_create_page_content`: `_add_shape` for every
        shape, in order. */
    method AddShapes(shapes: seq<ShapeRecord>, sc: Scale) returns (elements: seq<Element>)
      modifies this
      ensures elements == ShapeElements(old(shapeIdCounter), shapes, sc)
      ensures shapeIdCounter == old(shapeIdCounter) + |shapes|
      ensures connectorIdCounter == old(connectorIdCounter)
    {
      ghost var first := shapeIdCounter;
      elements := [];
      for i := 0 to |shapes|
        invariant shapeIdCounter == first + i
        invariant connectorIdCounter == old(connectorIdCounter)
        invariant elements == ShapeElements(first, shapes[..i], sc)
      {
        var e := AddShape(shapes[i], sc);
        ShapeElementsAppend(first, shapes[..i], shapes[i], sc);
        assert shapes[..i] + [shapes[i]] == shapes[..i + 1];
        elements := elements + [e];
      }
      assert shapes[..|shapes|] == shapes;
    }

    /** The second loop of `_create_page_content`: `_add_connector` for
        every connector, in order. */
    method AddConnectors(connectors: seq<ConnectorRecord>, sc: Scale) returns (elements: seq<Element>)
      modifies this
      ensures elements == ConnectorElements(old(connectorIdCounter), connectors, sc)
      ensures connectorIdCounter == old(connectorIdCounter) + |connectors|
      ensures shapeIdCounter == old(shapeIdCounter)
    {
      ghost var first := connectorIdCounter;
      elements := [];
      for i := 0 to |connectors|
        invariant connectorIdCounter == first + i
        invariant shapeIdCounter == old(shapeIdCounter)
        invariant elements == ConnectorElements(first, connectors[..i], sc)
      {
        var e := AddConnector(connectors[i], sc);
        ConnectorElementsAppend(first, connectors[..i], connectors[i], sc);
        assert connectors[..i] + [connectors[i]] == connectors[..i + 1];
        elements := elements + [e];
      }
      assert connectors[..|connectors|] == connectors;
    }

    /** `_create_page_content`: the content of `page1.xml`. A zero image
        dimension raises before any element is added; otherwise every shape
        and then every connector is added, each counter advancing by the
        number of elements of its kind. */
    method CreatePageContent(data: DrawingData) returns (r: Result<Element, PageError>)
      modifies this
      ensures r.Failure? <==> ScaleFactors(data).Failure?
      ensures r.Failure? ==>
        shapeIdCounter == old(shapeIdCounter) && connectorIdCounter == old(connectorIdCounter)
      ensures r.Success? ==>
        && r.value == PageContents(PageShapes(old(shapeIdCounter), old(connectorIdCounter), data, ScaleFactors(data).value))
        && shapeIdCounter == old(shapeIdCounter) + |data.shapes|
        && connectorIdCounter == old(connectorIdCounter) + |data.connectors|
    {
      var scale := ScaleFactors(data);
      if scale.Failure? {
        return Failure(scale.error);
      }
      var sc := scale.value;
      var shapes := AddShapes(data.shapes, sc);
      var connectors := AddConnectors(data.connectors, sc);
      r := Success(PageContents(shapes + connectors));
    }

    /** `create_visio_file`: every part of the package, in the order they
        are written, with the page built from `data`; `created` is the time
        stamp written into `docProps/core.xml`. A zero image dimension
        aborts the file. */
    method CreateVisioFile(data: DrawingData, created: string) returns (r: Result<seq<Part>, PageError>)
      modifies this
      ensures r.Failure? <==> ScaleFactors(data).Failure?
      ensures r.Failure? ==>
        shapeIdCounter == old(shapeIdCounter) && connectorIdCounter == old(connectorIdCounter)
      ensures r.Success? ==>
        && r.value == Package(
             PageContents(PageShapes(old(shapeIdCounter), old(connectorIdCounter), data, ScaleFactors(data).value)),
             created)
        && shapeIdCounter == old(shapeIdCounter) + |data.shapes|
        && connectorIdCounter == old(connectorIdCounter) + |data.connectors|
    {
      var parts: seq<Part> := [];
      parts := parts + [Part(ContentTypesPath, ContentTypes())];
      parts := parts + [Part(RootRelsPath, RelationshipsPart(RootRelationships))];
      parts := parts + [Part(AppPath, AppProperties())];
      parts := parts + [Part(CorePath, CoreProperties(created))];
      parts := parts + [Part(DocumentPath, Document())];
      parts := parts + [Part(DocumentRelsPath, RelationshipsPart(DocumentRelationships))];
      parts := parts + [Part(PagesPath, PagesIndex())];
      var page := CreatePageContent(data);
      if page.Failure? {
        return Failure(page.error);
      }
      parts := parts + [Part(PagePath, page.value)];
      parts := parts + [Part(PagesRelsPath, RelationshipsPart(PagesRelationships))];
      parts := parts + [Part(MastersPath, Masters())];
      r := Success(parts);
    }
  }
}

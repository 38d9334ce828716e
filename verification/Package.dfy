/**
  The fixed parts of the `.vsdx` package `VisioGenerator.create_visio_file`
  writes (an Open Packaging Conventions zip): the content-type table, the
  three relationship parts, the document properties, the document, the page
  index and the (empty) masters part, and the list of parts in the order the
  generator writes them.
 */
module VisioPackage {
  import opened Wrappers
  import opened Xml
  import VisioPage

  const ContentTypesNamespace: string := "http://schemas.openxmlformats.org/package/2006/content-types"
  const RelationshipsNamespace: string := "http://schemas.openxmlformats.org/package/2006/relationships"
  const ExtendedPropertiesNamespace: string := "http://schemas.openxmlformats.org/officeDocument/2006/extended-properties"
  const CorePropertiesNamespace: string := "http://schemas.openxmlformats.org/package/2006/metadata/core-properties"
  const DublinCore: string := "http://purl.org/dc/elements/1.1/"
  const DublinCoreTerms: string := "http://purl.org/dc/terms/"
  const SchemaInstance: string := "http://www.w3.org/2001/XMLSchema-instance"
  const Creator: string := "Image to Visio Converter"

  // ---------------------------------------------------------------------------
  // Part names

  const ContentTypesPath: string := "[Content_Types].xml"
  const RootRelsPath: string := "_rels/.rels"
  const AppPath: string := "docProps/app.xml"
  const CorePath: string := "docProps/core.xml"
  const DocumentPath: string := "visio/document.xml"
  const DocumentRelsPath: string := "visio/_rels/document.xml.rels"
  const PagesPath: string := "visio/pages/pages.xml"
  const PagePath: string := "visio/pages/page1.xml"
  const PagesRelsPath: string := "visio/pages/_rels/pages.xml.rels"
  const MastersPath: string := "visio/masters/masters.xml"

  /** The paths `create_visio_file` writes, in the order it writes them. */
  const WrittenPaths: seq<string> := [
    ContentTypesPath, RootRelsPath, AppPath, CorePath, DocumentPath, DocumentRelsPath,
    PagesPath, PagePath, PagesRelsPath, MastersPath ]

  /** One file of the package: its path inside the archive and its XML. */
  datatype Part = Part(path: string, root: Element)

  function PathsOf(parts: seq<Part>): (r: seq<string>)
    ensures |r| == |parts|
    ensures forall i :: 0 <= i < |parts| ==> r[i] == parts[i].path
  {
    seq(|parts|, i requires 0 <= i < |parts| => parts[i].path)
  }

  /** The XML written at `path`, if any. */
  function PartAt(parts: seq<Part>, path: string): Option<Element>
    decreases |parts|
  {
    if parts == [] then None
    else if parts[0].path == path then Some(parts[0].root)
    else PartAt(parts[1..], path)
  }

  // ---------------------------------------------------------------------------
  // [Content_Types].xml

  /** A `(key, content type)` entry: an extension for a `Default`, a part
      name for an `Override`. */
  datatype TypeEntry = TypeEntry(key: string, contentType: string)

  const RelsContentType: string := "application/vnd.openxmlformats-package.relationships+xml"
  const XmlContentType: string := "application/xml"
  const PageContentType: string := "application/vnd.ms-visio.page+xml"

  const Defaults: seq<TypeEntry> := [
    TypeEntry("rels", RelsContentType),
    TypeEntry("xml", XmlContentType)
  ]

  const Overrides: seq<TypeEntry> := [
    TypeEntry("/docProps/app.xml", "application/vnd.openxmlformats-officedocument.extended-properties+xml"),
    TypeEntry("/docProps/core.xml", "application/vnd.openxmlformats-package.core-properties+xml"),
    TypeEntry("/visio/document.xml", "application/vnd.ms-visio.drawing.main+xml"),
    TypeEntry("/visio/pages/pages.xml", "application/vnd.ms-visio.pages+xml"),
    TypeEntry("/visio/pages/page1.xml", PageContentType),
    TypeEntry("/visio/masters/masters.xml", "application/vnd.ms-visio.masters+xml")
  ]

  function DefaultElement(e: TypeEntry): Element {
    Leaf("Default", [Attr("Extension", Str(e.key)), Attr("ContentType", Str(e.contentType))])
  }

  function OverrideElement(e: TypeEntry): Element {
    Leaf("Override", [Attr("PartName", Str(e.key)), Attr("ContentType", Str(e.contentType))])
  }

  /** `_create_content_types`: the two defaults, then the six overrides. */
  function ContentTypes(): Element {
    Node("Types", [Attr("xmlns", Str(ContentTypesNamespace))],
         seq(|Defaults|, i requires 0 <= i < |Defaults| => DefaultElement(Defaults[i]))
         + seq(|Overrides|, i requires 0 <= i < |Overrides| => OverrideElement(Overrides[i])))
  }

  /** The content type of the entry whose key is `key`, first match. */
  function Lookup(entries: seq<TypeEntry>, key: string): Option<string>
    decreases |entries|
  {
    if entries == [] then None
    else if entries[0].key == key then Some(entries[0].contentType)
    else Lookup(entries[1..], key)
  }

  predicate EndsWith(s: string, suffix: string) {
    |suffix| <= |s| && s[|s| - |suffix|..] == suffix
  }

  /** The default whose extension ends the path, first match. */
  function LookupDefault(entries: seq<TypeEntry>, path: string): Option<string>
    decreases |entries|
  {
    if entries == [] then None
    else if EndsWith(path, "." + entries[0].key) then Some(entries[0].contentType)
    else LookupDefault(entries[1..], path)
  }

  /** How a package reader types a part: an override for "/" + path wins,
      otherwise the default for its extension. */
  function ContentTypeOf(path: string): Option<string> {
    var o := Lookup(Overrides, "/" + path);
    if o.Some? then o else LookupDefault(Defaults, path)
  }

  // ---------------------------------------------------------------------------
  // Relationships

  datatype Relationship = Relationship(id: string, relType: string, target: string)

  function RelationshipElement(r: Relationship): Element {
    Leaf("Relationship", [Attr("Id", Str(r.id)), Attr("Type", Str(r.relType)), Attr("Target", Str(r.target))])
  }

  function RelationshipsPart(rels: seq<Relationship>): Element {
    Node("Relationships", [Attr("xmlns", Str(RelationshipsNamespace))],
         seq(|rels|, i requires 0 <= i < |rels| => RelationshipElement(rels[i])))
  }

  /** `_create_rels`: the package's relationships. */
  const RootRelationships: seq<Relationship> := [
    Relationship("rId1", "http://schemas.openxmlformats.org/officeDocument/2006/relationships/extended-properties", "docProps/app.xml"),
    Relationship("rId2", "http://schemas.openxmlformats.org/package/2006/relationships/metadata/core-properties", "docProps/core.xml"),
    Relationship("rId3", "http://schemas.microsoft.com/visio/2010/relationships/document", "visio/document.xml")
  ]

  /** The relationships of `visio/document.xml`. */
  const DocumentRelationships: seq<Relationship> := [
    Relationship("rId1", "http://schemas.microsoft.com/visio/2010/relationships/pages", "pages/pages.xml"),
    Relationship("rId2", "http://schemas.microsoft.com/visio/2010/relationships/masters", "masters/masters.xml")
  ]

  /** The relationships of `visio/pages/pages.xml`. */
  const PagesRelationships: seq<Relationship> := [
    Relationship("rId1", "http://schemas.microsoft.com/visio/2010/relationships/page", "page1.xml")
  ]

  /** Where a package reader looks for the relationships of the part
      `dir + name`: `dir + "_rels/" + name + ".rels"`; targets are resolved
      against `dir`. */
  function RelsPathFor(dir: string, name: string): string {
    dir + "_rels/" + name + ".rels"
  }

  // ---------------------------------------------------------------------------
  // Other fixed parts

  function TextNode(tag: string, text: string): Element {
    Element(tag, [], [], text)
  }

  /** `_create_app_xml`. */
  function AppProperties(): Element {
    Node("Properties", [Attr("xmlns", Str(ExtendedPropertiesNamespace))],
         [TextNode("Application", "Microsoft Visio"), TextNode("Template", "Basic Diagram.vstx")])
  }

  /** `_create_core_xml`; `created` is the UTC time stamp the source reads
      from the clock, followed by `Z`. Tags are in `{namespace}local` form. */
  function CoreProperties(created: string): Element {
    Node("coreProperties",
         [ Attr("xmlns", Str(CorePropertiesNamespace)), Attr("xmlns:dc", Str(DublinCore)),
           Attr("xmlns:dcterms", Str(DublinCoreTerms)), Attr("xmlns:xsi", Str(SchemaInstance)) ],
         [ TextNode("{" + DublinCore + "}creator", Creator),
           Element("{" + DublinCoreTerms + "}created",
                   [Attr("{" + SchemaInstance + "}type", Str("dcterms:W3CDTF"))], [], created) ])
  }

  /** The one page the document lists, both in `document.xml` and in
      `pages.xml`. */
  function PageEntry(): Element {
    Leaf("Page", [Attr("ID", Str("0")), Attr("NameU", Str("Page-1")), Attr("Name", Str("Page-1"))])
  }

  /** `_create_document_xml`'s `visio/document.xml`. */
  function Document(): Element {
    Node("VisioDocument", [Attr("xmlns", Str(VisioPage.VisioNamespace))],
         [ Node("DocumentProperties", [], [TextNode("Creator", Creator)]),
           Node("Pages", [], [PageEntry()]) ])
  }

  /** `_create_pages_xml`'s `visio/pages/pages.xml`. */
  function PagesIndex(): Element {
    Node("Pages", [Attr("xmlns", Str(VisioPage.VisioNamespace))], [PageEntry()])
  }

  /** `_create_masters_xml`: a master part with no masters. */
  function Masters(): Element {
    Node("Masters", [Attr("xmlns", Str(VisioPage.VisioNamespace))], [])
  }

  /** Every file `create_visio_file` writes, in the order it writes them;
      `page` is the content of `page1.xml`. */
  function Package(page: Element, created: string): (r: seq<Part>)
    ensures PathsOf(r) == WrittenPaths
  {
    [ Part(ContentTypesPath, ContentTypes()),
      Part(RootRelsPath, RelationshipsPart(RootRelationships)),
      Part(AppPath, AppProperties()),
      Part(CorePath, CoreProperties(created)),
      Part(DocumentPath, Document()),
      Part(DocumentRelsPath, RelationshipsPart(DocumentRelationships)),
      Part(PagesPath, PagesIndex()),
      Part(PagePath, page),
      Part(PagesRelsPath, RelationshipsPart(PagesRelationships)),
      Part(MastersPath, Masters()) ]
  }

  // ---------------------------------------------------------------------------
  // Lookups at a known position

  lemma {:induction false} PartAtIndex(parts: seq<Part>, path: string, i: nat)
    requires i < |parts| && parts[i].path == path
    requires forall j :: 0 <= j < i ==> parts[j].path != path
    ensures PartAt(parts, path) == Some(parts[i].root)
    decreases i
  {
    if i > 0 {
      PartAtIndex(parts[1..], path, i - 1);
    }
  }

  lemma {:induction false} LookupAt(entries: seq<TypeEntry>, key: string, i: nat)
    requires i < |entries| && entries[i].key == key
    requires forall j :: 0 <= j < i ==> entries[j].key != key
    ensures Lookup(entries, key) == Some(entries[i].contentType)
    decreases i
  {
    if i > 0 {
      LookupAt(entries[1..], key, i - 1);
    }
  }

  lemma {:induction false} LookupAbsent(entries: seq<TypeEntry>, key: string)
    requires forall j :: 0 <= j < |entries| ==> entries[j].key != key
    ensures Lookup(entries, key) == None
    decreases |entries|
  {
    if entries != [] {
      LookupAbsent(entries[1..], key);
    }
  }

  // ---------------------------------------------------------------------------
  // Properties of the package

  /** No two files of the package share a path. */
  lemma WrittenPathsDistinct()
    ensures forall i, j :: 0 <= i < j < |WrittenPaths| ==> WrittenPaths[i] != WrittenPaths[j]
  {
  }

  /** The page part holds the page content it was given. */
  lemma PageIsWritten(page: Element, created: string)
    ensures PartAt(Package(page, created), PagePath) == Some(page)
  {
    var ps := Package(page, created);
    assert PathsOf(ps) == WrittenPaths;
    WrittenPathsDistinct();
    PartAtIndex(ps, PagePath, 7);
  }

  /** `[Content_Types].xml` lists the default table, then the override
      table, entry by entry, as `Default` and `Override` elements. */
  lemma ContentTypesListsTables()
    ensures var cs := ContentTypes().children;
      && |cs| == |Defaults| + |Overrides|
      && (forall i :: 0 <= i < |Defaults| ==>
            && cs[i].tag == "Default"
            && Get(cs[i].attrs, "Extension") == Some(Str(Defaults[i].key))
            && Get(cs[i].attrs, "ContentType") == Some(Str(Defaults[i].contentType)))
      && (forall i :: 0 <= i < |Overrides| ==>
            && cs[|Defaults| + i].tag == "Override"
            && Get(cs[|Defaults| + i].attrs, "PartName") == Some(Str(Overrides[i].key))
            && Get(cs[|Defaults| + i].attrs, "ContentType") == Some(Str(Overrides[i].contentType)))
  {
    var cs := ContentTypes().children;
    forall i | 0 <= i < |Defaults|
      ensures Get(cs[i].attrs, "ContentType") == Some(Str(Defaults[i].contentType))
    {
      GetAt(cs[i].attrs, "ContentType", 1);
    }
    forall i | 0 <= i < |Overrides|
      ensures Get(cs[|Defaults| + i].attrs, "ContentType") == Some(Str(Overrides[i].contentType))
    {
      GetAt(cs[|Defaults| + i].attrs, "ContentType", 1);
    }
  }

  /** A relationships part lists its relationships in order, each with its
      `Id`, `Type` and `Target`. */
  lemma RelationshipsPartReadsBack(rels: seq<Relationship>)
    ensures var cs := RelationshipsPart(rels).children;
      && |cs| == |rels|
      && forall i :: 0 <= i < |rels| ==>
           && cs[i].tag == "Relationship"
           && Get(cs[i].attrs, "Id") == Some(Str(rels[i].id))
           && Get(cs[i].attrs, "Type") == Some(Str(rels[i].relType))
           && Get(cs[i].attrs, "Target") == Some(Str(rels[i].target))
  {
    var cs := RelationshipsPart(rels).children;
    forall i | 0 <= i < |rels|
      ensures Get(cs[i].attrs, "Type") == Some(Str(rels[i].relType))
      ensures Get(cs[i].attrs, "Target") == Some(Str(rels[i].target))
    {
      GetAt(cs[i].attrs, "Type", 1);
      GetAt(cs[i].attrs, "Target", 2);
    }
  }

  /** Where in the package the part named by override i sits. */
  function OverriddenPart(i: nat): nat
    requires i < |Overrides|
  {
    [2, 3, 4, 6, 7, 9][i]
  }

  /** Every override names "/" followed by the path of a part the package
      contains... */
  lemma OverrideNamesWrittenPart(i: nat)
    requires i < |Overrides|
    ensures var k := OverriddenPart(i);
      && k < |WrittenPaths|
      && Overrides[i].key[0] == '/'
      && Overrides[i].key[1..] == WrittenPaths[k]
  {
  }

  /** ... and the content type of each of those parts is its override's. */
  lemma OverriddenPartsAreTyped(i: nat)
    requires i < |Overrides|
    ensures ContentTypeOf(WrittenPaths[OverriddenPart(i)]) == Some(Overrides[i].contentType)
  {
    var p := WrittenPaths[OverriddenPart(i)];
    OverrideNamesWrittenPart(i);
    assert "/" + p == Overrides[i].key;
    LookupAt(Overrides, "/" + p, i);
  }

  /** The three relationship parts are typed as relationships by their
      extension... */
  lemma RelsPartsAreTyped()
    ensures ContentTypeOf(RootRelsPath) == Some(RelsContentType)
    ensures ContentTypeOf(DocumentRelsPath) == Some(RelsContentType)
    ensures ContentTypeOf(PagesRelsPath) == Some(RelsContentType)
  {
    LookupAbsent(Overrides, "/" + RootRelsPath);
    LookupAbsent(Overrides, "/" + DocumentRelsPath);
    LookupAbsent(Overrides, "/" + PagesRelsPath);
  }

  /** ... and the content-type table itself as XML. */
  lemma ContentTypesPartIsTyped()
    ensures ContentTypeOf(ContentTypesPath) == Some(XmlContentType)
  {
    LookupAbsent(Overrides, "/" + ContentTypesPath);
    assert ContentTypesPath[14] != ("." + Defaults[0].key)[0];
    assert !EndsWith(ContentTypesPath, "." + Defaults[0].key);
    assert ContentTypesPath[|ContentTypesPath| - 4..] == "." + Defaults[1].key;
    assert LookupDefault(Defaults[1..], ContentTypesPath) == Some(XmlContentType);
  }

  /** The package relationships are `rId1` to `rId3`, distinct, and target
      exactly the two property parts and the document, in that order. */
  lemma RootRelationshipsResolve()
    ensures |RootRelationships| == 3
    ensures forall k :: 0 <= k < 3 ==> RootRelationships[k].target == WrittenPaths[k + 2]
    ensures forall i, j :: 0 <= i < j < 3 ==> RootRelationships[i].id != RootRelationships[j].id
  {
  }

  /** `_rels/.rels` is where a reader looks for the package relationships... */
  lemma RootRelsArePlaced()
    ensures RootRelsPath == RelsPathFor("", "")
  {
  }

  /** ... `visio/_rels/document.xml.rels` is where it looks for the
      document's... */
  lemma DocumentRelsArePlaced()
    ensures DocumentRelsPath == RelsPathFor("visio/", "document.xml")
  {
  }

  /** ... and `visio/pages/_rels/pages.xml.rels` is where it looks for the
      page index's. */
  lemma PagesRelsArePlaced()
    ensures PagesRelsPath == RelsPathFor("visio/pages/", "pages.xml")
  {
  }

  /** The document's relationships resolve, against `visio/`, to the page
      index and the masters part. */
  lemma DocumentRelationshipsResolve()
    ensures |DocumentRelationships| == 2
    ensures "visio/" + DocumentRelationships[0].target == WrittenPaths[6]
    ensures "visio/" + DocumentRelationships[1].target == WrittenPaths[9]
    ensures DocumentRelationships[0].id != DocumentRelationships[1].id
  {
  }

  /** The page index's one relationship resolves, against `visio/pages/`,
      to the page. */
  lemma PagesRelationshipsResolve()
    ensures |PagesRelationships| == 1
    ensures "visio/pages/" + PagesRelationships[0].target == WrittenPaths[7]
  {
  }
}

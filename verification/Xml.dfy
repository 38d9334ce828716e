/**
  The XML element trees the Visio writer builds with lxml, as values: a tag,
  attributes in the order they are given, child elements and the text
  content. Serialisation to bytes is not modelled.
 */
module Xml {
  import opened Wrappers

  /** An attribute value: a literal string, or a number that the source
      renders with `str(float)` (modelled as the exact number). */
  datatype Value = Str(s: string) | Num(r: real)

  datatype Attr = Attr(name: string, value: Value)

  datatype Element = Element(tag: string, attrs: seq<Attr>, children: seq<Element>, text: string)

  function Node(tag: string, attrs: seq<Attr>, children: seq<Element>): Element {
    Element(tag, attrs, children, "")
  }

  function Leaf(tag: string, attrs: seq<Attr>): Element {
    Element(tag, attrs, [], "")
  }

  /** The value of the first attribute with this name, if any. */
  function Get(attrs: seq<Attr>, name: string): Option<Value>
    decreases |attrs|
  {
    if attrs == [] then None
    else if attrs[0].name == name then Some(attrs[0].value)
    else Get(attrs[1..], name)
  }

  lemma {:induction false} GetAt(attrs: seq<Attr>, name: string, i: nat)
    requires i < |attrs| && attrs[i].name == name
    requires forall j :: 0 <= j < i ==> attrs[j].name != name
    ensures Get(attrs, name) == Some(attrs[i].value)
    decreases i
  {
    if i > 0 {
      GetAt(attrs[1..], name, i - 1);
    }
  }

  /** A Visio `<Cell N=".." V=".."/>`. */
  function Cell(n: string, v: Value): Element {
    Leaf("Cell", [Attr("N", Str(n)), Attr("V", v)])
  }

  /** e is a cell `<Cell N="n" V=".."/>`. */
  predicate IsCell(e: Element, n: string) {
    e.tag == "Cell" && |e.attrs| == 2 && e.attrs[0] == Attr("N", Str(n)) && e.attrs[1].name == "V"
  }

  /** The `V` of the first child cell named n, as a reader of the page looks it up. */
  function CellValue(cs: seq<Element>, n: string): Option<Value>
    decreases |cs|
  {
    if cs == [] then None
    else if IsCell(cs[0], n) then Some(cs[0].attrs[1].value)
    else CellValue(cs[1..], n)
  }

  lemma {:induction false} CellValueAt(cs: seq<Element>, n: string, i: nat)
    requires i < |cs| && IsCell(cs[i], n)
    requires forall j :: 0 <= j < i ==> !IsCell(cs[j], n)
    ensures CellValue(cs, n) == Some(cs[i].attrs[1].value)
    decreases i
  {
    if i > 0 {
      CellValueAt(cs[1..], n, i - 1);
    }
  }

  /** The children with a given tag, in document order. */
  function Tagged(cs: seq<Element>, tag: string): (r: seq<Element>)
    ensures |r| <= |cs|
    decreases |cs|
  {
    if cs == [] then []
    else (if cs[0].tag == tag then [cs[0]] else []) + Tagged(cs[1..], tag)
  }

  lemma {:induction false} TaggedAppend(a: seq<Element>, b: seq<Element>, tag: string)
    ensures Tagged(a + b, tag) == Tagged(a, tag) + Tagged(b, tag)
    decreases |a|
  {
    if a != [] {
      assert (a + b)[0] == a[0];
      assert (a + b)[1..] == a[1..] + b;
      TaggedAppend(a[1..], b, tag);
    } else {
      assert a + b == b;
    }
  }

  lemma {:induction false} TaggedAll(cs: seq<Element>, tag: string)
    requires forall i :: 0 <= i < |cs| ==> cs[i].tag == tag
    ensures Tagged(cs, tag) == cs
    decreases |cs|
  {
    if cs != [] {
      TaggedAll(cs[1..], tag);
    }
  }

  lemma {:induction false} TaggedNone(cs: seq<Element>, tag: string)
    requires forall i :: 0 <= i < |cs| ==> cs[i].tag != tag
    ensures Tagged(cs, tag) == []
    decreases |cs|
  {
    if cs != [] {
      TaggedNone(cs[1..], tag);
    }
  }
}

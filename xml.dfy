/**
 * The part of `xml.etree.ElementTree` the parsers rely on: an element with a
 * tag, attributes, optional text and children; `iter` (pre-order, the element
 * itself first), `find` and `findtext` (first direct child with a tag) and
 * `get` (an attribute).
 */
module XmlTree {
  import opened Wrappers
  import Seqs

  datatype Element = Element(tag: string, attrs: map<string, string>, text: Option<string>, children: seq<Element>)

  /** Every element of the tree in document order: the element, then each child's subtree. */
  function Nodes(e: Element): (r: seq<Element>)
    ensures r != [] && r[0] == e
    decreases e, 1
  {
    [e] + NodesAll(e.children)
  }

  function NodesAll(cs: seq<Element>): seq<Element>
    decreases cs, 0
  {
    if cs == [] then [] else Nodes(cs[0]) + NodesAll(cs[1..])
  }

  /** `e.iter(tag)`: the elements of the tree with that tag, the element itself first when it matches. */
  function Iter(e: Element, tag: string): (r: seq<Element>)
    ensures forall i :: 0 <= i < |r| ==> r[i].tag == tag
    ensures e.tag == tag ==> r != [] && r[0] == e
    decreases e, 1
  {
    (if e.tag == tag then [e] else []) + IterAll(e.children, tag)
  }

  function IterAll(cs: seq<Element>, tag: string): (r: seq<Element>)
    ensures forall i :: 0 <= i < |r| ==> r[i].tag == tag
    decreases cs, 0
  {
    if cs == [] then [] else Iter(cs[0], tag) + IterAll(cs[1..], tag)
  }

  function TagIs(tag: string): Element -> bool {
    (x: Element) => x.tag == tag
  }

  /**
   * `iter(tag)` misses no element: it is exactly the document-order list of
   * all elements, filtered by tag.
   */
  lemma {:induction false} IterIsFilteredNodes(e: Element, tag: string)
    ensures Iter(e, tag) == Seqs.Filter(Nodes(e), TagIs(tag))
    decreases e, 1
  {
    IterAllIsFilteredNodes(e.children, tag);
    Seqs.FilterAppend([e], NodesAll(e.children), TagIs(tag));
    assert Seqs.Filter([e], TagIs(tag)) == if e.tag == tag then [e] else [] by {
      assert [e][1..] == [];
    }
  }

  lemma {:induction false} IterAllIsFilteredNodes(cs: seq<Element>, tag: string)
    ensures IterAll(cs, tag) == Seqs.Filter(NodesAll(cs), TagIs(tag))
    decreases cs, 0
  {
    if cs != [] {
      IterIsFilteredNodes(cs[0], tag);
      IterAllIsFilteredNodes(cs[1..], tag);
      Seqs.FilterAppend(Nodes(cs[0]), NodesAll(cs[1..]), TagIs(tag));
    }
  }

  /** The index of the first element of `cs` with the tag, or `|cs|`. */
  function ChildIndex(cs: seq<Element>, tag: string): (i: nat)
    ensures i <= |cs|
    ensures forall j :: 0 <= j < i ==> cs[j].tag != tag
    ensures i < |cs| ==> cs[i].tag == tag
  {
    if cs == [] || cs[0].tag == tag then 0 else 1 + ChildIndex(cs[1..], tag)
  }

  /** `e.find(tag)`: the first direct child with the tag. */
  function Find(e: Element, tag: string): (r: Option<Element>)
    ensures r.None? <==> forall j :: 0 <= j < |e.children| ==> e.children[j].tag != tag
    ensures r.Some? ==> r.value.tag == tag
    ensures r.Some? ==> exists i :: 0 <= i < |e.children| && e.children[i] == r.value && (forall j :: 0 <= j < i ==> e.children[j].tag != tag)
  {
    var i := ChildIndex(e.children, tag);
    if i < |e.children| then Some(e.children[i]) else None
  }

  /**
   * `e.findtext(tag, default)`: the default when there is no such child,
   * otherwise the child's text, with a missing text read as "".
   */
  function FindText(e: Element, tag: string, default: string): string
  {
    match Find(e, tag)
    case None => default
    case Some(c) => c.text.GetOr("")
  }

  /** `e.get(name)`. */
  function Get(e: Element, name: string): Option<string>
  {
    if name in e.attrs then Some(e.attrs[name]) else None
  }
}

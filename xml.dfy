/**
 * The WeChat push message as `xml.etree.ElementTree` presents it: elements
 * with a tag, an optional leading text and children; `find(tag)` on direct
 * children and `findall('.//C/item')`. Parsing is not modelled: a request
 * body arrives already classified as empty, unparsable or a parsed tree.
 */
module Xml {
  import opened Wrappers

  /** An element; `text` is `None` when no text precedes its first child. */
  datatype Element = Element(tag: string, text: Option<string>, children: seq<Element>)

  /** What `request.data` is: empty, not well-formed XML, or a document with its root. */
  datatype Delivery = EmptyBody | Malformed | Message(root: Element)

  /** `e.find(tag)`: the first direct child with that tag. */
  function FindChild(e: Element, tag: string): (r: Option<Element>)
    ensures r.Some? ==> r.value.tag == tag
    ensures r.Some? ==> exists k :: 0 <= k < |e.children| && e.children[k] == r.value
                                    && forall j :: 0 <= j < k ==> e.children[j].tag != tag
    ensures r.None? <==> forall k :: 0 <= k < |e.children| ==> e.children[k].tag != tag
  {
    var k := FirstTaggedFrom(e.children, tag, 0);
    if k < |e.children| then Some(e.children[k]) else None
  }

  /** The index of the first element from `i` on with tag `tag`, `|es|` when there is none. */
  function FirstTaggedFrom(es: seq<Element>, tag: string, i: nat): (k: nat)
    requires i <= |es|
    ensures i <= k <= |es|
    ensures k < |es| ==> es[k].tag == tag
    ensures forall j :: i <= j < k ==> es[j].tag != tag
    decreases |es| - i
  {
    if i == |es| || es[i].tag == tag then i else FirstTaggedFrom(es, tag, i + 1)
  }

  /** The direct children of `e` with tag `tag`, in order. */
  function ChildrenTagged(e: Element, tag: string): (r: seq<Element>)
    ensures forall k :: 0 <= k < |r| ==> r[k].tag == tag
    ensures |r| <= |e.children|
  {
    Tagged(e.children, tag)
  }

  function Tagged(es: seq<Element>, tag: string): (r: seq<Element>)
    ensures forall k :: 0 <= k < |r| ==> r[k].tag == tag
    ensures |r| <= |es|
  {
    if es == [] then []
    else (if es[0].tag == tag then [es[0]] else []) + Tagged(es[1..], tag)
  }

  /**
   * `root.findall('.//' + container + '/item')`, written over the children of
   * the root: for every element below the root tagged `container`, taken in
   * document order, its `item` children in order.
   */
  function ItemsUnder(forest: seq<Element>, container: string): (r: seq<Element>)
    ensures forall k :: 0 <= k < |r| ==> r[k].tag == "item"
    decreases forest
  {
    if forest == [] then []
    else
      var e := forest[0];
      (if e.tag == container then ChildrenTagged(e, "item") else [])
      + ItemsUnder(e.children, container) + ItemsUnder(forest[1..], container)
  }

  /** Elements anywhere in `forest` (the elements themselves and all below them). */
  predicate Occurs(forest: seq<Element>, tag: string)
    decreases forest
  {
    forest != [] && (forest[0].tag == tag || Occurs(forest[0].children, tag) || Occurs(forest[1..], tag))
  }

  /** A message with no `container` element anywhere has no items to walk. */
  lemma {:induction false} NoContainerNoItems(forest: seq<Element>, container: string)
    requires !Occurs(forest, container)
    ensures ItemsUnder(forest, container) == []
    decreases forest
  {
    if forest != [] {
      NoContainerNoItems(forest[0].children, container);
      NoContainerNoItems(forest[1..], container);
    }
  }

  /** One container holding the items directly, with no container nested below it, is walked in the items' own order. */
  lemma FlatContainer(c: Element, container: string)
    requires c.tag == container
    requires forall k :: 0 <= k < |c.children| ==> c.children[k].tag == "item"
    requires !Occurs(c.children, container)
    ensures ItemsUnder([c], container) == c.children
  {
    TaggedAll(c.children, "item");
    NoContainerNoItems(c.children, container);
    assert [c][1..] == [];
  }

  lemma {:induction false} TaggedAll(es: seq<Element>, tag: string)
    requires forall k :: 0 <= k < |es| ==> es[k].tag == tag
    ensures Tagged(es, tag) == es
  {
    if es != [] {
      TaggedAll(es[1..], tag);
      assert es == [es[0]] + es[1..];
    }
  }
}

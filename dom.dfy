/**
 * The page as the adapters see it. Selector matching is not modelled: an element carries what
 * the adapters read from it, including, per selector, the text of the first descendant
 * `querySelector` finds, and a node list carries, per node, whether its parent has an ancestor
 * matching the adapter's turn selector (`parentElement.closest(...)`).
 */
module Dom {
  import opened Optional
  import Geometry

  /** An element's `innerText` and `textContent`. */
  datatype ElementText = ElementText(innerText: string, textContent: string)

  /** What layout reads from an element's box: `getBoundingClientRect().top`, `offsetHeight`, and
      whether it is an `HTMLElement` (an element that is not has no `offsetHeight`). */
  datatype Box = Box(rectTop: real, offsetHeight: real, isHTMLElement: bool)

  datatype Elem = Elem(
    tagName: string,
    id: string,
    attributes: map<string, string>,
    text: ElementText,
    /** For each selector an adapter queries, the first matching descendant, by its text;
        a selector with no match is absent. */
    descendants: map<string, ElementText>,
    /** The element and its ancestors, up to but not including `document.body` or
        `document.documentElement`, as `getScrollableAncestor` walks them. */
    chain: seq<Geometry.ChainNode>,
    box: Box)

  /** The height layout gives an element: its `offsetHeight`, or 0 when it is not an `HTMLElement`. */
  function Height(el: Elem): (r: real)
  {
    if el.box.isHTMLElement then el.box.offsetHeight else 0.0
  }

  /** `el.getAttribute(name)`: `None` is `null`. */
  function GetAttribute(el: Elem, name: string): (r: Option<string>)
    ensures r.Some? <==> name in el.attributes
    ensures r.Some? ==> r.value == el.attributes[name]
  {
    if name in el.attributes then Some(el.attributes[name]) else None
  }

  /** `el.querySelector(selector)`, by the text of the element found. */
  function QuerySelector(el: Elem, selector: string): (r: Option<ElementText>)
    ensures r.Some? <==> selector in el.descendants
  {
    if selector in el.descendants then Some(el.descendants[selector]) else None
  }

  /** The first list unless it is empty, then the second: JavaScript's `a || b` on strings, and
      the adapters' "fall back when the first query found nothing". */
  function OrElse<T>(a: seq<T>, b: seq<T>): (r: seq<T>)
    ensures a != [] ==> r == a
    ensures a == [] ==> r == b
  {
    if a != [] then a else b
  }

  /** A node from `querySelectorAll`, with whether its parent lies inside another turn node. */
  datatype Candidate = Candidate(el: Elem, nested: bool)

  /** The `filter` both adapters apply: keep the nodes that are not nested in another turn
      node, in document order. */
  function TopLevel(nodes: seq<Candidate>): (r: seq<Elem>)
    ensures |r| <= |nodes|
    ensures forall e :: e in r <==> exists i :: 0 <= i < |nodes| && !nodes[i].nested && nodes[i].el == e
  {
    if nodes == [] then []
    else
      var rest := TopLevel(nodes[1..]);
      assert forall i :: 1 <= i < |nodes| ==> nodes[1..][i - 1] == nodes[i];
      if nodes[0].nested then rest else [nodes[0].el] + rest
  }

  /** The filter keeps document order: filtering a list is filtering its parts and joining them. */
  lemma {:induction false} TopLevelAppend(a: seq<Candidate>, b: seq<Candidate>)
    ensures TopLevel(a + b) == TopLevel(a) + TopLevel(b)
  {
    if a == [] {
      assert a + b == b;
    } else {
      assert (a + b)[1..] == a[1..] + b;
      TopLevelAppend(a[1..], b);
    }
  }

  /** A list with no nested node passes the filter unchanged. */
  lemma {:induction false} TopLevelKeepsUnnested(nodes: seq<Candidate>)
    requires forall i :: 0 <= i < |nodes| ==> !nodes[i].nested
    ensures TopLevel(nodes) == seq(|nodes|, i requires 0 <= i < |nodes| => nodes[i].el)
  {
    if nodes != [] {
      TopLevelKeepsUnnested(nodes[1..]);
    }
  }

  /** A list whose every node is nested filters to nothing. */
  lemma {:induction false} TopLevelDropsNested(nodes: seq<Candidate>)
    requires forall i :: 0 <= i < |nodes| ==> nodes[i].nested
    ensures TopLevel(nodes) == []
  {
    if nodes != [] {
      TopLevelDropsNested(nodes[1..]);
    }
  }
}

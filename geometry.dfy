/**
 * Scroll geometry shared by the navigator and the adapters: `clamp` and
 * `getScrollableAncestor` of src/core/utils.js, the scroll metrics and element offsets of
 * src/core/navigator.js, and `getMessageTop`/`scrollToMessage` of src/adapters/base.js.
 *
 * Browser measurements (`getBoundingClientRect().top`, `scrollTop`, `clientHeight`,
 * `scrollHeight`, `window.scrollY`, `window.innerHeight`) are inputs. Pixels are `real`.
 */
module Geometry {

  function Min(a: real, b: real): real { if a <= b then a else b }
  function Max(a: real, b: real): real { if a >= b then a else b }

  /** `utils.clamp(n, min, max)`, i.e. `Math.min(max, Math.max(min, n))`. */
  function Clamp(n: real, lo: real, hi: real): (r: real)
    ensures lo <= hi ==> lo <= r <= hi
    ensures lo <= n <= hi ==> r == n
    ensures lo <= hi && n < lo ==> r == lo
    ensures lo <= hi && hi < n ==> r == hi
    // with the bounds the wrong way round the upper bound wins
    ensures hi < lo ==> r == hi
  {
    Min(hi, Max(lo, n))
  }

  /** JavaScript `a || b` on a number: 0 is falsy. */
  function Or(a: real, b: real): (r: real)
    ensures r == a || r == b
    ensures a != 0.0 ==> r == a
  {
    if a != 0.0 then a else b
  }

  /** Which object a scroll container is. The page scroller is `document.scrollingElement`
      or `document.documentElement`, the only containers the source treats as the page:
      `getScrollableAncestor` stops before `document.body`, so `body` is a container only
      when it is itself the scrolling element. */
  datatype ContainerKind = DocumentRoot | Inner

  /** Window and document measurements the page-level branches read. */
  datatype Viewport = Viewport(
    scrollY: real,
    innerHeight: real,
    docScrollTop: real,
    docClientHeight: real,
    docScrollHeight: real,
    bodyScrollHeight: real)

  /** A scroll container. The navigator compares containers by identity and attaches its
      scroll listener to one, and `scrollToMessage` assigns its `scrollTop`, so it is an object. */
  class Scroller {
    const kind: ContainerKind
    var rectTop: real
    var scrollTop: real
    var clientHeight: real
    var scrollHeight: real

    constructor (kind: ContainerKind, rectTop: real, scrollTop: real, clientHeight: real, scrollHeight: real)
      ensures this.kind == kind && this.rectTop == rectTop && this.scrollTop == scrollTop
      ensures this.clientHeight == clientHeight && this.scrollHeight == scrollHeight
    {
      this.kind := kind;
      this.rectTop := rectTop;
      this.scrollTop := scrollTop;
      this.clientHeight := clientHeight;
      this.scrollHeight := scrollHeight;
    }
  }

  datatype Metrics = Metrics(scrollTop: real, clientHeight: real, scrollHeight: real)

  /** The page's scroll offset as the source reads it:
      `window.scrollY || document.documentElement.scrollTop || 0`. */
  function PageScrollTop(vp: Viewport): (r: real)
    ensures vp.scrollY != 0.0 ==> r == vp.scrollY
    ensures vp.scrollY == 0.0 ==> r == vp.docScrollTop
  {
    Or(vp.scrollY, Or(vp.docScrollTop, 0.0))
  }

  /** `ChatNavigator._getScrollMetrics`: the scroll position, the visible height and the
      scrollable height of the container, from the window for the page scroller. */
  function ScrollMetrics(kind: ContainerKind, scrollTop: real, clientHeight: real, scrollHeight: real, vp: Viewport): (m: Metrics)
    // the visible height is never 0, so it can always be divided by
    ensures m.clientHeight != 0.0
    // the scrollable height is never below the visible height
    ensures m.scrollHeight >= m.clientHeight
    ensures kind == Inner ==>
      m.scrollTop == scrollTop
      && (clientHeight != 0.0 ==> m.clientHeight == clientHeight)
      && m.scrollHeight >= scrollHeight
    ensures kind == DocumentRoot ==>
      m.scrollTop == PageScrollTop(vp)
      && (vp.innerHeight != 0.0 ==> m.clientHeight == vp.innerHeight)
      && m.scrollHeight >= vp.docScrollHeight && m.scrollHeight >= vp.bodyScrollHeight
  {
    match kind
    case DocumentRoot =>
      var ch := Or(vp.innerHeight, Or(vp.docClientHeight, 1.0));
      Metrics(PageScrollTop(vp), ch, Max(Max(vp.docScrollHeight, Or(vp.bodyScrollHeight, 0.0)), ch))
    case Inner =>
      var ch := Or(clientHeight, 1.0);
      Metrics(scrollTop, ch, Max(Or(scrollHeight, 0.0), ch))
  }

  /** The scroll position and visible height the prev/next jumps read: `window.scrollY || 0`
      and `window.innerHeight` for the page scroller, the container's own values otherwise.
      Unlike `ScrollMetrics` there is no fallback to the document's values and no guard
      against a zero height. */
  function JumpScrollTop(kind: ContainerKind, scrollTop: real, vp: Viewport): (r: real)
    ensures kind == DocumentRoot ==> r == vp.scrollY
    ensures kind == Inner ==> r == scrollTop
  {
    if kind == DocumentRoot then Or(vp.scrollY, 0.0) else scrollTop
  }

  function JumpClientHeight(kind: ContainerKind, clientHeight: real, vp: Viewport): (r: real)
  {
    if kind == DocumentRoot then vp.innerHeight else clientHeight
  }

  /** Where the jumps' view agrees with the metrics the active tick is chosen from, and where it
      does not: with a non-zero height (and, for the page, a non-zero `scrollY`) both read the
      same position and height; a zero height stays 0 for the jumps but is 1 in the metrics, and
      a page `scrollY` of 0 is 0 for the jumps while the metrics fall back to the document's
      `scrollTop`. */
  lemma JumpViewMatchesMetrics(kind: ContainerKind, scrollTop: real, clientHeight: real, scrollHeight: real, vp: Viewport)
    ensures kind == Inner && clientHeight != 0.0 ==>
      var m := ScrollMetrics(kind, scrollTop, clientHeight, scrollHeight, vp);
      JumpScrollTop(kind, scrollTop, vp) == m.scrollTop && JumpClientHeight(kind, clientHeight, vp) == m.clientHeight
    ensures kind == DocumentRoot && vp.scrollY != 0.0 && vp.innerHeight != 0.0 ==>
      var m := ScrollMetrics(kind, scrollTop, clientHeight, scrollHeight, vp);
      JumpScrollTop(kind, scrollTop, vp) == m.scrollTop && JumpClientHeight(kind, clientHeight, vp) == m.clientHeight
    ensures kind == Inner && clientHeight == 0.0 ==>
      JumpClientHeight(kind, clientHeight, vp) == 0.0 && ScrollMetrics(kind, scrollTop, clientHeight, scrollHeight, vp).clientHeight == 1.0
    ensures kind == DocumentRoot && vp.scrollY == 0.0 ==>
      JumpScrollTop(kind, scrollTop, vp) == 0.0 && ScrollMetrics(kind, scrollTop, clientHeight, scrollHeight, vp).scrollTop == vp.docScrollTop
  {
  }

  /** `ChatNavigator._getElementTop`/`_getElementTopFor` and `BaseChatAdapter.getMessageTop`:
      an element's offset from the top of the container's scrollable content,
      `(elementRectTop - containerRectTop) + scrollTop`. */
  function ContentTop(kind: ContainerKind, containerRectTop: real, containerScrollTop: real, vp: Viewport, elementRectTop: real): (r: real)
    ensures kind == Inner ==> r - containerScrollTop == elementRectTop - containerRectTop
    ensures kind == DocumentRoot ==> r - PageScrollTop(vp) == elementRectTop - containerRectTop
  {
    var scrollTop := if kind == DocumentRoot then PageScrollTop(vp) else containerScrollTop;
    (elementRectTop - containerRectTop) + scrollTop
  }

  /** Scrolling an inner container by `d` moves its content up by `d` on screen and leaves every
      element's content offset where it was. */
  lemma ContentTopScrollInvariant(containerRectTop: real, scrollTop: real, vp: Viewport, elementRectTop: real, d: real)
    ensures ContentTop(Inner, containerRectTop, scrollTop + d, vp, elementRectTop - d)
         == ContentTop(Inner, containerRectTop, scrollTop, vp, elementRectTop)
  {
  }

  /** `BaseChatAdapter.scrollToMessage`: `scrollIntoView` is tried first; when it throws, the
      container's `scrollTop` is set to the message's content offset (`getMessageTop`).
      `sc` is what the adapter's `getScrollContainer` returns; the `typeof` test always holds
      for an element's `scrollTop`. Returns whether the fallback ran. */
  method ScrollToMessage(sc: Scroller, vp: Viewport, elementRectTop: real, scrollIntoViewThrows: bool)
    returns (usedFallback: bool)
    modifies sc
    ensures usedFallback == scrollIntoViewThrows
    ensures usedFallback ==>
      sc.scrollTop == ContentTop(sc.kind, old(sc.rectTop), old(sc.scrollTop), vp, elementRectTop)
    ensures !usedFallback ==> sc.scrollTop == old(sc.scrollTop)
    ensures sc.rectTop == old(sc.rectTop) && sc.clientHeight == old(sc.clientHeight)
    ensures sc.scrollHeight == old(sc.scrollHeight)
  {
    if !scrollIntoViewThrows {
      return false;
    }
    var top := ContentTop(sc.kind, sc.rectTop, sc.scrollTop, vp, elementRectTop);
    sc.scrollTop := top;
    return true;
  }

  /** One node on the parent chain walked by `getScrollableAncestor`, with what the walk reads:
      whether it is an `HTMLElement`, its computed `overflow-y`, and its heights. */
  datatype ChainNode = ChainNode(isHTMLElement: bool, overflowY: string, scrollHeight: real, clientHeight: real)

  /** The extra content, in pixels, a node must have beyond its visible height to count as scrolling. */
  const ScrollSlack: real := 10.0

  predicate IsScrollable(n: ChainNode)
  {
    n.isHTMLElement
    && (n.overflowY == "auto" || n.overflowY == "scroll")
    && n.scrollHeight > n.clientHeight + ScrollSlack
  }

  /** What `getScrollableAncestor` returns: the node at `depth` on the chain (0 is the element
      itself), or the page scroller (`document.scrollingElement || document.documentElement`). */
  datatype Found = InChain(depth: nat) | PageScroller

  /** The specification of the walk. `chain` is the element followed by its ancestors, ending
      before the first of `document.body`, `document.documentElement` or a missing parent. */
  function ScrollableAncestor(chain: seq<ChainNode>): (r: Found)
    ensures r.InChain? ==>
      r.depth < |chain| && IsScrollable(chain[r.depth])
      && forall i :: 0 <= i < r.depth ==> !IsScrollable(chain[i])
    ensures r.PageScroller? <==> forall i :: 0 <= i < |chain| ==> !IsScrollable(chain[i])
  {
    if chain == [] then PageScroller
    else if IsScrollable(chain[0]) then InChain(0)
    else
      match ScrollableAncestor(chain[1..])
      case InChain(d) => InChain(d + 1)
      case PageScroller => PageScroller
  }

  /** `utils.getScrollableAncestor`: the walk up the parent chain, one node per step. */
  method GetScrollableAncestor(chain: seq<ChainNode>) returns (r: Found)
    ensures r == ScrollableAncestor(chain)
  {
    var cur := 0;
    while cur < |chain|
      invariant 0 <= cur <= |chain|
      invariant forall i :: 0 <= i < cur ==> !IsScrollable(chain[i])
    {
      if IsScrollable(chain[cur]) {
        FirstScrollableIsFound(chain, cur);
        return InChain(cur);
      }
      cur := cur + 1;
    }
    return PageScroller;
  }

  /** The walk's answer is determined by the first scrollable node. */
  lemma {:induction false} FirstScrollableIsFound(chain: seq<ChainNode>, k: nat)
    requires k < |chain| && IsScrollable(chain[k])
    requires forall i :: 0 <= i < k ==> !IsScrollable(chain[i])
    ensures ScrollableAncestor(chain) == InChain(k)
  {
    if k > 0 {
      assert !IsScrollable(chain[0]);
      assert chain[1..][k - 1] == chain[k];
      assert forall i :: 0 <= i < k - 1 ==> chain[1..][i] == chain[i + 1];
      FirstScrollableIsFound(chain[1..], k - 1);
    }
  }
}

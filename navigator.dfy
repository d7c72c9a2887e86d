/**
 * `ChatNavigator` of src/core/navigator.js: the minimap's state and the operations that keep it
 * in step with the conversation. The page's markup is reduced to what the logic reads and
 * writes: whether the host, lines layer, lines container and tooltip exist, the heights set on
 * the host and the lines container, and one `Line` per tick in the lines layer. The adapter's
 * answers (`getScrollContainer()`, `getMessages()`) and the window's measurements are parameters.
 */
module Navigator {
  import opened Optional
  import opened Geometry
  import opened Dom
  import opened BaseAdapter
  import opened Layout
  import opened ActiveIndex
  import opened Jumps

  /** The classes the navigator manages on a tick, besides the fixed `line` class. */
  datatype LineClass = UserLine | AssistantLine | UnknownLine | Active

  /** The role class `_renderLines` gives a message: `user`, `assistant`, or `unknown` for every
      other role, system included. */
  function RoleClass(role: Role): (c: LineClass)
    ensures c != Active
    ensures c == UserLine <==> role == User
    ensures c == AssistantLine <==> role == Assistant
    ensures c == UnknownLine <==> role == System || role == Unknown
  {
    match role
    case User => UserLine
    case Assistant => AssistantLine
    case _ => UnknownLine
  }

  /** A tick: its `data-index`, its classes, its `top` and its `--hit-h`. */
  datatype Line = Line(index: Option<nat>, classes: set<LineClass>, top: Option<real>, hitHeight: Option<real>)

  /** A freshly created `div.line`. */
  const NewLine: Line := Line(None, {}, None, None)

  /** The elements the navigator creates: the host (with the lines layer and lines container in
      its shadow root) and the tooltip. */
  datatype Part = Host | Tooltip | LinesLayer | LinesContainer

  /** The subscriptions besides the scroll listener: the window's `resize` listener, the
      conversation's mutation observer, the theme observer on the page's attributes and the
      `prefers-color-scheme` listener. */
  datatype Subscription = ResizeListener | ConversationObserver | ThemeObserver | ColorSchemeListener

  const AllSubscriptions: set<Subscription> := {ResizeListener, ConversationObserver, ThemeObserver, ColorSchemeListener}

  /** The steps of `destroy()`, each in its own `try`. */
  datatype TeardownStep = DetachScroll | Unsubscribe(subscription: Subscription) | Remove(part: Part)

  /** A message's anchor center in container `sc`. */
  function MessageCenter(kind: ContainerKind, scRectTop: real, scScrollTop: real, vp: Viewport, el: Elem): real
  {
    Center(ContentTop(kind, scRectTop, scScrollTop, vp, el.box.rectTop), Height(el))
  }

  /** The point `updateActiveFromScroll` looks for: the middle of the visible part of the container. */
  function ScrollAnchor(kind: ContainerKind, scrollTop: real, clientHeight: real, scrollHeight: real, vp: Viewport): real
  {
    var m := ScrollMetrics(kind, scrollTop, clientHeight, scrollHeight, vp);
    m.scrollTop + m.clientHeight / 2.0
  }

  /** No tick is highlighted. */
  predicate NoneActive(lines: seq<Line>)
  {
    forall i :: 0 <= i < |lines| ==> Active !in lines[i].classes
  }

  /** Exactly tick `idx` is highlighted. */
  predicate OnlyActive(lines: seq<Line>, idx: int)
  {
    forall i :: 0 <= i < |lines| ==> (Active in lines[i].classes <==> i == idx)
  }

  /** Tick `i` shows message `i`'s role and nothing else the navigator manages. */
  predicate RenderedFor(lines: seq<Line>, messages: seq<Message>)
  {
    |lines| == |messages|
    && forall i :: 0 <= i < |lines| ==> lines[i].index == Some(i) && lines[i].classes == {RoleClass(messages[i].role)}
  }

  /** Tick `i` carries index `i` and message `i`'s role class. */
  predicate ShowsRoles(lines: seq<Line>, messages: seq<Message>)
  {
    |lines| == |messages|
    && forall i :: 0 <= i < |lines| ==> lines[i].index == Some(i) && RoleClass(messages[i].role) in lines[i].classes
  }

  /** `b` is `a` with at most the highlight moved. */
  predicate SameTicks(a: seq<Line>, b: seq<Line>)
  {
    |a| == |b|
    && forall i :: 0 <= i < |a| ==> a[i].index == b[i].index && a[i].classes - {Active} == b[i].classes - {Active}
  }

  /** Moving the highlight keeps the role classes. */
  lemma ShowsRolesKept(a: seq<Line>, b: seq<Line>, messages: seq<Message>)
    requires ShowsRoles(a, messages) && SameTicks(a, b)
    ensures ShowsRoles(b, messages)
  {
    forall i | 0 <= i < |b|
      ensures RoleClass(messages[i].role) in b[i].classes
    {
      assert RoleClass(messages[i].role) in a[i].classes - {Active};
    }
  }

  class ChatNavigator {
    /** The parts whose fields hold an element (are not `null`). */
    var created: set<Part>
    /** The parts attached to the page. */
    var inDocument: set<Part>
    var hostHeight: Option<real>
    var linesHeight: Option<real>
    var lines: seq<Line>
    var messages: seq<Message>
    var messageCenters: seq<real>
    var activeIndex: int
    var scrollContainer: Scroller?
    /** `_boundOnScroll` has been created. */
    var scrollHandlerBound: bool
    /** The containers holding the navigator's scroll listener. */
    var listening: set<Scroller>
    var subscriptions: set<Subscription>

    /** The scroll listener is on at most one container, the current one, and only once the
        handler exists; only the host and the tooltip are attached to the page directly; there are
        no ticks without a lines layer. */
    ghost predicate Valid()
      reads this
    {
      && (scrollContainer == null ==> listening == {})
      && (scrollContainer != null ==> listening <= {scrollContainer})
      && (!scrollHandlerBound ==> listening == {})
      && inDocument <= {Host, Tooltip}
      && (LinesLayer !in created ==> lines == [])
    }

    /** The state the constructor leaves. */
    ghost predicate Fresh()
      reads this
    {
      && created == {} && inDocument == {} && hostHeight == None && linesHeight == None
      && lines == [] && messages == [] && messageCenters == [] && activeIndex == -1
      && scrollContainer == null && !scrollHandlerBound && listening == {} && subscriptions == {}
    }

    /** Everything `destroy()` detaches is detached and the host and tooltip are dropped. */
    ghost predicate TornDown()
      reads this
    {
      listening == {} && subscriptions == {} && Host !in created && Tooltip !in created
    }

    /** `layout()` has what it needs: a container, the lines layer and the lines container. */
    ghost predicate Drawable()
      reads this
    {
      scrollContainer != null && LinesLayer in created && LinesContainer in created
    }

    constructor ()
      ensures Valid() && Fresh()
    {
      created, inDocument := {}, {};
      hostHeight, linesHeight := None, None;
      lines, messages, messageCenters := [], [], [];
      activeIndex := -1;
      scrollContainer := null;
      scrollHandlerBound := false;
      listening, subscriptions := {}, {};
    }

    /** `mount()` on a new navigator: build the host, lines layer and tooltip, attach the scroll,
        resize and mutation listeners and the theme observers, and refresh. Without an adapter
        nothing happens. */
    method Mount(adapterPresent: bool, sc: Scroller, msgs: seq<Message>, vp: Viewport) returns (threw: bool)
      requires Valid() && Fresh()
      modifies this
      ensures Valid() && !threw
      ensures !adapterPresent ==> Fresh()
      ensures adapterPresent ==>
        && created == {Host, Tooltip, LinesLayer, LinesContainer} && inDocument == {Host, Tooltip}
        && scrollContainer == sc && listening == {sc} && subscriptions == AllSubscriptions
        && messages == msgs && ShowsRoles(lines, msgs)
      // the first refresh highlights a tick whenever there is a message
      ensures adapterPresent && msgs != [] ==> OnlyActive(lines, activeIndex) && 0 <= activeIndex < |msgs|
      ensures adapterPresent && msgs == [] ==> lines == [] && activeIndex == -1
    {
      threw := false;
      if !adapterPresent {
        return;
      }
      // _createUI and _createTooltip (which attaches the tooltip)
      created := {Host, Tooltip, LinesLayer, LinesContainer};
      inDocument := {Tooltip};
      // _attach
      inDocument := inDocument + {Host};
      scrollHandlerBound := true;
      EnsureScrollListener(sc);
      subscriptions := {ResizeListener, ConversationObserver};
      // _setupThemeObserver
      subscriptions := subscriptions + {ThemeObserver, ColorSchemeListener};
      threw := Refresh(sc, msgs, vp);
    }

    /** `_ensureScrollListener()`: when the adapter's container is a different object, move the
        scroll listener from the old container to the new one. */
    method EnsureScrollListener(sc: Scroller)
      requires Valid()
      modifies this
      ensures Valid()
      ensures scrollContainer == sc
      ensures old(scrollContainer) == sc ==> listening == old(listening)
      ensures old(scrollContainer) != sc ==> listening == (if scrollHandlerBound then {sc} else {})
      ensures scrollHandlerBound == old(scrollHandlerBound) && subscriptions == old(subscriptions)
      ensures created == old(created) && inDocument == old(inDocument)
      ensures hostHeight == old(hostHeight) && linesHeight == old(linesHeight)
      ensures lines == old(lines) && messages == old(messages) && messageCenters == old(messageCenters)
      ensures activeIndex == old(activeIndex)
    {
      if sc == scrollContainer {
        return;
      }
      if scrollContainer != null && scrollHandlerBound {
        listening := listening - {scrollContainer};
      }
      scrollContainer := sc;
      if scrollHandlerBound {
        listening := listening + {sc};
      }
    }

    /** `_renderLines()`: make the lines layer hold one tick per message, reusing the existing
        ticks in order, and set each tick's index and role class, clearing `active`. */
    method RenderLines()
      requires Valid()
      modifies this
      ensures Valid()
      ensures LinesLayer !in created ==> lines == old(lines)
      ensures LinesLayer in created ==> Rendered(old(lines), lines, messages)
      ensures created == old(created) && inDocument == old(inDocument)
      ensures hostHeight == old(hostHeight) && linesHeight == old(linesHeight)
      ensures scrollContainer == old(scrollContainer) && scrollHandlerBound == old(scrollHandlerBound)
      ensures listening == old(listening) && subscriptions == old(subscriptions)
      ensures messages == old(messages) && messageCenters == old(messageCenters) && activeIndex == old(activeIndex)
    {
      if LinesLayer !in created {
        return;
      }
      lines := RenderTicks(lines, messages);
    }

    /** `layout()`: size the host and the lines container, place every tick and rebuild the
        centers. It does nothing before the container and the lines markup exist, and throws when
        the host has been dropped (`this.host.style` on `null`), before changing anything. */
    method Layout(vp: Viewport) returns (threw: bool)
      requires Valid()
      modifies this
      ensures Valid()
      ensures created == old(created) && inDocument == old(inDocument)
      ensures scrollContainer == old(scrollContainer) && scrollHandlerBound == old(scrollHandlerBound)
      ensures listening == old(listening) && subscriptions == old(subscriptions)
      ensures messages == old(messages) && activeIndex == old(activeIndex)
      ensures KeepsMarks(old(lines), lines)
      ensures threw <==> Drawable() && Host !in created
      ensures threw || !Drawable() ==>
        hostHeight == old(hostHeight) && linesHeight == old(linesHeight)
        && lines == old(lines) && messageCenters == old(messageCenters)
      // no messages: the host collapses and the centers are left alone
      ensures !threw && Drawable() && |messages| == 0 ==>
        hostHeight == Some(0.0) && linesHeight == old(linesHeight) && lines == old(lines) && messageCenters == old(messageCenters)
      ensures !threw && Drawable() && |messages| > 0 ==>
        var n := |messages|;
        var finalH := FinalHeight(n, vp.innerHeight);
        var usable := UsableHeight(finalH);
        && hostHeight == Some(HostHeight(finalH)) && linesHeight == Some(finalH)
        && TicksPlaced(old(lines), lines, n, usable, Step(n, usable))
        // one center per message that has a tick, in message order
        && CentersOf(messageCenters, messages, if n < |lines| then n else |lines|,
                     scrollContainer.kind, scrollContainer.rectTop, scrollContainer.scrollTop, vp)
    {
      threw := false;
      if scrollContainer == null || LinesLayer !in created || LinesContainer !in created {
        return;
      }
      if Host !in created {
        return true;
      }
      if |messages| == 0 {
        hostHeight := Some(0.0);
        return;
      }
      var n := |messages|;
      var finalH := FinalHeight(n, vp.innerHeight);
      var usable := UsableHeight(finalH);
      var placed, centers := PlaceTicks(lines, messages, usable, scrollContainer.kind, scrollContainer.rectTop, scrollContainer.scrollTop, vp);
      hostHeight, linesHeight := Some(HostHeight(finalH)), Some(finalH);
      lines, messageCenters := placed, centers;
    }

    /** `setActiveIndex(idx)`: nothing when `idx` is already active; otherwise record it and make
        tick `idx` the only highlighted one. The index is stored before the lines layer is read,
        so without a lines layer the call throws after that. */
    method SetActiveIndex(idx: int) returns (threw: bool)
      requires Valid()
      modifies this
      ensures Valid()
      ensures idx == old(activeIndex) ==> !threw && lines == old(lines)
      ensures activeIndex == idx
      ensures idx != old(activeIndex) ==> (threw <==> LinesLayer !in created)
      ensures idx != old(activeIndex) && !threw ==> OnlyActive(lines, idx)
      ensures SameTicks(old(lines), lines)
      ensures forall i :: 0 <= i < |lines| ==> lines[i].top == old(lines[i].top) && lines[i].hitHeight == old(lines[i].hitHeight)
      ensures created == old(created) && inDocument == old(inDocument)
      ensures hostHeight == old(hostHeight) && linesHeight == old(linesHeight)
      ensures scrollContainer == old(scrollContainer) && scrollHandlerBound == old(scrollHandlerBound)
      ensures listening == old(listening) && subscriptions == old(subscriptions)
      ensures messages == old(messages) && messageCenters == old(messageCenters)
    {
      threw := false;
      if idx == activeIndex {
        return;
      }
      activeIndex := idx;
      if LinesLayer !in created {
        return true;
      }
      lines := Highlight(lines, idx);
    }

    /** `updateActiveFromScroll()`: with a container and messages, re-run layout when the centers
        are stale, then make active the tick whose center is nearest the middle of the view. */
    method UpdateActiveFromScroll(vp: Viewport) returns (threw: bool)
      requires Valid()
      modifies this
      ensures Valid()
      ensures created == old(created) && inDocument == old(inDocument)
      ensures scrollContainer == old(scrollContainer) && scrollHandlerBound == old(scrollHandlerBound)
      ensures listening == old(listening) && subscriptions == old(subscriptions)
      ensures messages == old(messages)
      ensures scrollContainer == null || |messages| == 0 ==>
        !threw && lines == old(lines) && activeIndex == old(activeIndex) && messageCenters == old(messageCenters)
        && hostHeight == old(hostHeight) && linesHeight == old(linesHeight)
      ensures threw ==> LinesLayer !in created || (Drawable() && Host !in created)
      ensures SameTicks(old(lines), lines)
      ensures activeIndex == old(activeIndex) ==> forall i :: 0 <= i < |lines| ==> lines[i].classes == old(lines[i].classes)
      ensures activeIndex != old(activeIndex) && !threw ==> OnlyActive(lines, activeIndex)
      ensures !threw && scrollContainer != null && |messages| > 0 ==>
        && (|messageCenters| == 0 ==> activeIndex == 0)
        && (|messageCenters| > 0 ==> 0 <= activeIndex < |messageCenters|)
        && (|messageCenters| > 0 && Sorted(messageCenters) ==>
              activeIndex == ActiveIndexFor(messageCenters,
                ScrollAnchor(scrollContainer.kind, scrollContainer.scrollTop, scrollContainer.clientHeight, scrollContainer.scrollHeight, vp)))
      ensures |old(messageCenters)| == |messages| ==>
        messageCenters == old(messageCenters) && hostHeight == old(hostHeight) && linesHeight == old(linesHeight)
    {
      threw := false;
      if scrollContainer == null || |messages| == 0 {
        return;
      }
      if |messageCenters| != |messages| {
        threw := Layout(vp);
        if threw {
          return;
        }
      }
      var sc := scrollContainer;
      var anchor := ScrollAnchor(sc.kind, sc.scrollTop, sc.clientHeight, sc.scrollHeight, vp);
      var idx := SearchNearest(messageCenters, anchor);
      threw := SetActiveIndex(idx);
    }

    /** `refresh()`: follow the adapter's container, take its messages, re-render the ticks, lay
        them out and pick the active one. */
    method Refresh(sc: Scroller, msgs: seq<Message>, vp: Viewport) returns (threw: bool)
      requires Valid()
      modifies this
      ensures Valid()
      ensures scrollContainer == sc && messages == msgs
      ensures old(scrollContainer) == sc ==> listening == old(listening)
      ensures old(scrollContainer) != sc ==> listening == (if scrollHandlerBound then {sc} else {})
      ensures scrollHandlerBound == old(scrollHandlerBound) && subscriptions == old(subscriptions)
      ensures created == old(created) && inDocument == old(inDocument)
      // with its markup in place a refresh does not throw; with the host dropped it throws in layout
      ensures LinesLayer in created && LinesContainer in created ==> (threw <==> Host !in created)
      ensures LinesLayer in created ==> ShowsRoles(lines, msgs)
      // the highlight is lost when the active index comes out unchanged
      ensures LinesLayer in created && !threw && activeIndex == old(activeIndex) ==> NoneActive(lines)
      ensures LinesLayer in created && !threw && activeIndex != old(activeIndex) ==> OnlyActive(lines, activeIndex)
      ensures !threw && LinesLayer in created && LinesContainer in created && |msgs| > 0 ==>
        |messageCenters| == |msgs| && 0 <= activeIndex < |msgs|
        && (Sorted(messageCenters) ==>
              activeIndex == ActiveIndexFor(messageCenters, ScrollAnchor(sc.kind, sc.scrollTop, sc.clientHeight, sc.scrollHeight, vp)))
      ensures LinesLayer in created && |msgs| == 0 ==> lines == [] && activeIndex == old(activeIndex)
    {
      EnsureScrollListener(sc);
      messages := msgs;
      RenderLines();
      ghost var rendered := lines;
      threw := Layout(vp);
      if threw {
        return;
      }
      ghost var laidOut := lines;
      if LinesLayer in created {
        RenderedShowsRoles(rendered, msgs);
        LaidOutShowsRoles(rendered, laidOut, msgs);
      }
      threw := UpdateActiveFromScroll(vp);
      if LinesLayer in created {
        ShowsRolesKept(laidOut, lines, msgs);
      }
    }

    /** `destroy()`: each step runs in its own `try`, so one that throws (those in `failing`)
        leaves the others unaffected; then the host and tooltip fields are dropped. */
    method Destroy(failing: set<TeardownStep>)
      requires Valid()
      modifies this
      ensures Valid()
      ensures listening ==
        (if old(scrollContainer) != null && old(scrollHandlerBound) && DetachScroll !in failing
         then old(listening) - {old(scrollContainer)} else old(listening))
      ensures forall s :: s in subscriptions <==> s in old(subscriptions) && Unsubscribe(s) in failing
      ensures forall p :: p in inDocument <==> p in old(inDocument) && (p !in old(created) || Remove(p) in failing)
      ensures created == old(created) - {Host, Tooltip}
      ensures failing == {} ==> TornDown()
      // the scroll container, the handler and the lines markup are kept
      ensures scrollContainer == old(scrollContainer) && scrollHandlerBound == old(scrollHandlerBound)
      ensures hostHeight == old(hostHeight) && linesHeight == old(linesHeight)
      ensures lines == old(lines) && messages == old(messages) && messageCenters == old(messageCenters)
      ensures activeIndex == old(activeIndex)
    {
      listening := if scrollContainer != null && scrollHandlerBound && DetachScroll !in failing then listening - {scrollContainer} else listening;
      subscriptions := set s | s in subscriptions && Unsubscribe(s) in failing;
      inDocument := set p | p in inDocument && (p !in created || Remove(p) in failing);
      created := created - {Host, Tooltip};
    }

    /** `_jumpToPrevAssistant()` on the adapter's fresh messages and container: find the message
        at the upper third of the view, then the assistant message to scroll to. `None` means
        nothing is scrolled. */
    method JumpToPrevAssistant(msgs: seq<Message>, sc: Scroller, vp: Viewport) returns (target: Option<nat>)
      ensures msgs == [] ==> target == None
      ensures msgs != [] ==>
        target == PrevTarget(Roles(msgs), PrevCurrent(Tops(msgs, sc.kind, sc.rectTop, sc.scrollTop, vp),
                                                      PrevAnchor(sc.kind, sc.scrollTop, sc.clientHeight, vp)))
    {
      if |msgs| == 0 {
        return None;
      }
      var anchor := PrevAnchor(sc.kind, sc.scrollTop, sc.clientHeight, vp);
      var tops := Tops(msgs, sc.kind, sc.rectTop, sc.scrollTop, vp);
      var currentIdx := ScanPrevCurrent(tops, anchor);
      target := FindPrevAssistant(Roles(msgs), currentIdx);
    }

    /** `_jumpToNextAssistant()`: find the message at the middle of the view, then the assistant
        message after it, else the last one. */
    method JumpToNextAssistant(msgs: seq<Message>, sc: Scroller, vp: Viewport) returns (target: Option<nat>)
      ensures msgs == [] ==> target == None
      ensures msgs != [] ==>
        target == NextTarget(Roles(msgs), NextCurrent(Tops(msgs, sc.kind, sc.rectTop, sc.scrollTop, vp),
                                                      Bottoms(msgs, Tops(msgs, sc.kind, sc.rectTop, sc.scrollTop, vp)),
                                                      NextAnchor(sc.kind, sc.scrollTop, sc.clientHeight, vp)))
    {
      if |msgs| == 0 {
        return None;
      }
      var anchor := NextAnchor(sc.kind, sc.scrollTop, sc.clientHeight, vp);
      var tops := Tops(msgs, sc.kind, sc.rectTop, sc.scrollTop, vp);
      var currentIdx := ScanNextCurrent(tops, Bottoms(msgs, tops), anchor);
      target := FindNextAssistant(Roles(msgs), currentIdx);
    }
  }

  /** `after` is `before` re-rendered for `msgs`: one tick per message carrying its index and
      role class only, the ticks kept from `before` keeping their places, new ticks unplaced. */
  predicate Rendered(before: seq<Line>, after: seq<Line>, msgs: seq<Message>)
  {
    RenderedFor(after, msgs)
    && (forall i :: 0 <= i < |after| && i < |before| ==>
          after[i].top == before[i].top && after[i].hitHeight == before[i].hitHeight)
    && (forall i :: |before| <= i < |after| ==> after[i].top == None && after[i].hitHeight == None)
  }

  /** A fresh rendering shows the roles and no highlight. */
  lemma RenderedShowsRoles(lines: seq<Line>, msgs: seq<Message>)
    requires RenderedFor(lines, msgs)
    ensures ShowsRoles(lines, msgs) && NoneActive(lines)
  {
  }

  /** Placing the ticks keeps what they show. */
  lemma LaidOutShowsRoles(a: seq<Line>, b: seq<Line>, msgs: seq<Message>)
    requires ShowsRoles(a, msgs) && NoneActive(a) && KeepsMarks(a, b)
    ensures ShowsRoles(b, msgs) && NoneActive(b)
  {
  }

  /** The loops of `_renderLines()`: drop the extra ticks, append new ones, then set every tick's
      index and role class. */
  method RenderTicks(ticks: seq<Line>, msgs: seq<Message>) returns (all: seq<Line>)
    ensures Rendered(ticks, all, msgs)
  {
    var needed := |msgs|;
    all := ticks;
    // remove extras
    if |all| > needed {
      all := all[..needed];
    }
    // create missing
    while |all| < needed
      invariant |all| <= needed
      invariant forall i :: 0 <= i < |all| && i < |ticks| ==> all[i] == ticks[i]
      invariant forall i :: |ticks| <= i < |all| ==> all[i] == NewLine
      decreases needed - |all|
    {
      all := all + [NewLine];
    }
    // update all
    var i := 0;
    while i < needed
      invariant 0 <= i <= needed && |all| == needed
      invariant forall k :: 0 <= k < i ==> all[k].index == Some(k) && all[k].classes == {RoleClass(msgs[k].role)}
      invariant forall k :: 0 <= k < needed && k < |ticks| ==>
        all[k].top == ticks[k].top && all[k].hitHeight == ticks[k].hitHeight
      invariant forall k :: |ticks| <= k < needed ==> all[k].top == None && all[k].hitHeight == None
    {
      all := all[i := all[i].(index := Some(i), classes := {RoleClass(msgs[i].role)})];
      i := i + 1;
    }
  }

  /** The ticks keep their indices and classes. */
  predicate KeepsMarks(a: seq<Line>, b: seq<Line>)
  {
    |a| == |b|
    && forall i :: 0 <= i < |a| ==> a[i].index == b[i].index && a[i].classes == b[i].classes
  }

  /** `after` is `before` with the ticks of the first `n` messages moved to their places and given
      their hit height; ticks past the messages are untouched. */
  predicate TicksPlaced(before: seq<Line>, after: seq<Line>, n: nat, usable: real, step: real)
  {
    KeepsMarks(before, after)
    && (forall i :: 0 <= i < |after| && i < n ==>
          after[i].top == Some(TickY(n, usable, step, i)) && after[i].hitHeight == Some(HitHeight(step)))
    && (forall i :: n <= i < |after| ==> after[i] == before[i])
  }

  /** `centers` holds the anchor centers of the first `count` messages. */
  predicate CentersOf(centers: seq<real>, msgs: seq<Message>, count: nat, kind: ContainerKind, scRectTop: real, scScrollTop: real, vp: Viewport)
  {
    |centers| == count && count <= |msgs|
    && forall i :: 0 <= i < count ==> centers[i] == MessageCenter(kind, scRectTop, scScrollTop, vp, msgs[i].el)
  }

  /** The loop of `layout()`: for each message that has a tick, record its center and place the
      tick; a message without a tick is skipped. */
  method PlaceTicks(ticks: seq<Line>, msgs: seq<Message>, usable: real, kind: ContainerKind, scRectTop: real, scScrollTop: real, vp: Viewport)
    returns (placed: seq<Line>, centers: seq<real>)
    requires |msgs| > 0 && usable >= 1.0
    ensures TicksPlaced(ticks, placed, |msgs|, usable, Step(|msgs|, usable))
    ensures CentersOf(centers, msgs, if |msgs| < |ticks| then |msgs| else |ticks|, kind, scRectTop, scScrollTop, vp)
  {
    var n := |msgs|;
    var step := Step(n, usable);
    var hitH := HitHeight(step);
    placed, centers := ticks, [];
    var i := 0;
    while i < n
      invariant 0 <= i <= n
      invariant KeepsMarks(ticks, placed)
      invariant CentersOf(centers, msgs, if i < |ticks| then i else |ticks|, kind, scRectTop, scScrollTop, vp)
      invariant forall k :: 0 <= k < |placed| && k < i ==>
        placed[k].top == Some(TickY(n, usable, step, k)) && placed[k].hitHeight == Some(hitH)
      invariant forall k :: i <= k < |placed| ==> placed[k] == ticks[k]
    {
      if i >= |placed| {
        // `if (!line) continue;`
        i := i + 1;
        continue;
      }
      centers := centers + [MessageCenter(kind, scRectTop, scScrollTop, vp, msgs[i].el)];
      placed := placed[i := placed[i].(top := Some(TickY(n, usable, step, i)), hitHeight := Some(hitH))];
      i := i + 1;
    }
  }

  /** The loop of `setActiveIndex`: add `active` to tick `idx` and remove it from every other. */
  method Highlight(ticks: seq<Line>, idx: int) returns (r: seq<Line>)
    ensures SameTicks(ticks, r) && OnlyActive(r, idx)
    ensures forall i :: 0 <= i < |r| ==> r[i].top == ticks[i].top && r[i].hitHeight == ticks[i].hitHeight
  {
    r := ticks;
    var i := 0;
    while i < |r|
      invariant 0 <= i <= |r| && SameTicks(ticks, r)
      invariant forall k :: 0 <= k < i ==> (Active in r[k].classes <==> k == idx)
      invariant forall k :: 0 <= k < |r| ==> r[k].top == ticks[k].top && r[k].hitHeight == ticks[k].hitHeight
    {
      var classes := if i == idx then r[i].classes + {Active} else r[i].classes - {Active};
      r := r[i := r[i].(classes := classes)];
      i := i + 1;
    }
  }

  /** The prev jump's scan: advance while messages start above the anchor. */
  method ScanPrevCurrent(tops: seq<real>, anchor: real) returns (currentIdx: nat)
    ensures currentIdx == PrevCurrent(tops, anchor)
  {
    currentIdx := 0;
    var i := 0;
    while i < |tops|
      invariant 0 <= i <= |tops|
      invariant forall k :: 0 <= k < i ==> tops[k] < anchor
      invariant currentIdx == (if i == 0 then 0 else i - 1)
    {
      if tops[i] < anchor {
        currentIdx := i;
      } else {
        break;
      }
      i := i + 1;
    }
    FirstAtLeastIsUnique(tops, anchor, i);
  }

  /** The next jump's scan: stop at the message holding the anchor, or step back from the first
      one starting below it. */
  method ScanNextCurrent(tops: seq<real>, bottoms: seq<real>, anchor: real) returns (currentIdx: nat)
    requires |tops| == |bottoms|
    ensures currentIdx == NextCurrent(tops, bottoms, anchor)
  {
    currentIdx := 0;
    var i := 0;
    while i < |tops|
      invariant 0 <= i <= |tops|
      invariant forall k :: 0 <= k < i ==> !Stops(tops, bottoms, anchor, k)
      invariant currentIdx == (if i == 0 then 0 else i - 1)
    {
      if tops[i] <= anchor && bottoms[i] > anchor {
        FirstStopIsUnique(tops, bottoms, anchor, i);
        return i;
      } else if tops[i] > anchor {
        FirstStopIsUnique(tops, bottoms, anchor, i);
        return if i - 1 > 0 then i - 1 else 0;
      }
      currentIdx := i;
      i := i + 1;
    }
    FirstStopIsUnique(tops, bottoms, anchor, i);
  }

  /** The prev jump's target search: downward from just before the current message, then from
      the top of the conversation. */
  method FindPrevAssistant(roles: seq<Role>, currentIdx: nat) returns (target: Option<nat>)
    requires currentIdx <= |roles|
    ensures target == PrevTarget(roles, currentIdx)
  {
    var j := currentIdx as int - 1;
    while j >= 0
      invariant -1 <= j < currentIdx
      invariant LastAssistantBefore(roles, currentIdx) == LastAssistantBefore(roles, j + 1)
    {
      if roles[j] == Assistant {
        return Some(j);
      }
      j := j - 1;
    }
    var k := 0;
    while k < |roles|
      invariant 0 <= k <= |roles|
      invariant FirstAssistantFrom(roles, 0) == FirstAssistantFrom(roles, k)
    {
      if roles[k] == Assistant {
        return Some(k);
      }
      k := k + 1;
    }
    return None;
  }

  /** The next jump's target search: upward from just after the current message, then from the
      end of the conversation. */
  method FindNextAssistant(roles: seq<Role>, currentIdx: nat) returns (target: Option<nat>)
    requires currentIdx < |roles|
    ensures target == NextTarget(roles, currentIdx)
  {
    var j := currentIdx + 1;
    while j < |roles|
      invariant currentIdx + 1 <= j <= |roles|
      invariant FirstAssistantFrom(roles, currentIdx + 1) == FirstAssistantFrom(roles, j)
    {
      if roles[j] == Assistant {
        return Some(j);
      }
      j := j + 1;
    }
    var k := |roles| - 1;
    while k >= 0
      invariant -1 <= k < |roles|
      invariant LastAssistantBefore(roles, |roles|) == LastAssistantBefore(roles, k + 1)
    {
      if roles[k] == Assistant {
        return Some(k);
      }
      k := k - 1;
    }
    return None;
  }

  /** The end of the leading run is determined by its defining properties. */
  lemma FirstAtLeastIsUnique(c: seq<real>, anchor: real, k: nat)
    requires k <= |c|
    requires forall i :: 0 <= i < k ==> c[i] < anchor
    requires k < |c| ==> c[k] >= anchor
    ensures FirstAtLeast(c, anchor) == k
  {
  }

  /** Likewise for the first message that stops the next jump's scan. */
  lemma FirstStopIsUnique(tops: seq<real>, bottoms: seq<real>, anchor: real, k: nat)
    requires |tops| == |bottoms| && k <= |tops|
    requires forall i :: 0 <= i < k ==> !Stops(tops, bottoms, anchor, i)
    requires k < |tops| ==> Stops(tops, bottoms, anchor, k)
    ensures FirstStop(tops, bottoms, anchor) == k
  {
  }
}

/**
 * `GeminiAdapter` of src/adapters/gemini.js. The registry never offers it, but it is a complete
 * adapter: host matching, a five-step root chain, custom-element turns with a test-id fallback,
 * and role and preview rules keyed on the turn's tag.
 */
module GeminiAdapter {
  import opened Optional
  import opened Strings
  import opened TextUtils
  import opened Dom
  import opened BaseAdapter
  import Geometry

  const GeminiDomain: string := "gemini.google.com"
  const BardDomain: string := "bard.google.com"
  const UserQueryTag: string := "user-query"
  const ModelResponseTag: string := "model-response"
  const TurnTestIdAttribute: string := "data-test-id"
  const QueryTextSelector: string := "div.query-text"
  const UserBubbleSelector: string := "div.query-text, span.user-query-bubble-with-background"
  const ResponseBlockSelector: string := ".markdown, .markdown-main-panel, .model-response-content"
  const MainPanelSelector: string := ".markdown.markdown-main-panel"
  const MarkdownSelector: string := ".markdown"

  /** `isMatch()`: `/(^|\.)gemini\.google\.com$/` or `/(^|\.)bard\.google\.com$/` on the host name. */
  function IsMatch(hostname: string): (r: bool)
    ensures r <==> OnDomain(hostname, GeminiDomain) || OnDomain(hostname, BardDomain)
  {
    MatchesDomainOnDomain(hostname, GeminiDomain);
    MatchesDomainOnDomain(hostname, BardDomain);
    MatchesDomain(hostname, GeminiDomain) || MatchesDomain(hostname, BardDomain)
  }

  lemma IsMatchExamples()
    ensures IsMatch("gemini.google.com") && IsMatch("bard.google.com")
    ensures !IsMatch("google.com") && !IsMatch("xgemini.google.com")
  {
    assert "xgemini.google.com"[|"xgemini.google.com"| - |"." + GeminiDomain|..] == "xgemini.google.com";
  }

  /** What `getConversationRoot()` picks, in order of preference. */
  datatype Root = HistoryScroller | ChatHistory | ChatWindow | Main | Body

  /** Which of the root selectors match on the page:
      `chat-window-content > div.chat-history-scroll-container`, `div#chat-history`,
      `chat-window` and `main`. */
  datatype RootPresence = RootPresence(historyScroller: bool, chatHistory: bool, chatWindow: bool, main: bool)

  /** `getConversationRoot()`: the first present element of the chain, else `document.body`. */
  function ConversationRoot(p: RootPresence): (r: Root)
    ensures r == HistoryScroller <==> p.historyScroller
    ensures r == ChatHistory <==> !p.historyScroller && p.chatHistory
    ensures r == ChatWindow <==> !p.historyScroller && !p.chatHistory && p.chatWindow
    ensures r == Main <==> !p.historyScroller && !p.chatHistory && !p.chatWindow && p.main
    ensures r == Body <==> !p.historyScroller && !p.chatHistory && !p.chatWindow && !p.main
  {
    if p.historyScroller then HistoryScroller
    else if p.chatHistory then ChatHistory
    else if p.chatWindow then ChatWindow
    else if p.main then Main
    else Body
  }

  /** The lower-cased tag name (`tagName` is upper case for HTML elements). */
  function Tag(el: Elem): string
  {
    LowerCase(el.tagName)
  }

  /** The `data-test-id` attribute, or `''`. */
  function TestId(el: Elem): (r: string)
  {
    match GetAttribute(el, TurnTestIdAttribute)
    case Some(t) => t
    case None => []
  }

  /** `getRole(el)`, first rule that applies: the `user-query` tag, the `model-response` tag, a test
      id containing "user", a test id containing "model" or "response", a query-text descendant, a
      markdown descendant; otherwise `unknown`. */
  function RoleOf(el: Elem): (r: Role)
    // Gemini never reports a system turn
    ensures r != System
    ensures Tag(el) == UserQueryTag ==> r == User
    ensures Tag(el) == ModelResponseTag ==> r == Assistant
    ensures Tag(el) != UserQueryTag && Tag(el) != ModelResponseTag ==>
      if Contains(TestId(el), "user") then r == User
      else if Contains(TestId(el), "model") || Contains(TestId(el), "response") then r == Assistant
      else if QuerySelector(el, UserBubbleSelector).Some? then r == User
      else if QuerySelector(el, ResponseBlockSelector).Some? then r == Assistant
      else r == Unknown
  {
    var tag := Tag(el);
    var testId := TestId(el);
    if tag == UserQueryTag then User
    else if tag == ModelResponseTag then Assistant
    else if Contains(testId, "user") then User
    else if Contains(testId, "model") || Contains(testId, "response") then Assistant
    else if QuerySelector(el, UserBubbleSelector).Some? then User
    else if QuerySelector(el, ResponseBlockSelector).Some? then Assistant
    else Unknown
  }

  /** The order of the test-id rules decides a test id that names both parties: it is a user turn. */
  lemma UserTestIdWins(el: Elem)
    requires Tag(el) != UserQueryTag && Tag(el) != ModelResponseTag
    requires TestId(el) == "model-response-user"
    ensures RoleOf(el) == User
  {
    assert OccursAt(TestId(el), "user", 15);
  }

  /** `getMessages()`: the custom-element turns, or the test-id turns when there are none,
      filtered to top-level nodes, in document order, with ids by position. */
  function Messages(customNodes: seq<Candidate>, testIdNodes: seq<Candidate>): (r: seq<Message>)
    ensures var nodes := TopLevel(if customNodes != [] then customNodes else testIdNodes);
      && |r| == |nodes|
      && forall i :: 0 <= i < |r| ==>
           r[i].el == nodes[i] && r[i].role == RoleOf(nodes[i]) && r[i].id == MessageId(Some(nodes[i]), i)
  {
    ToMessages(TopLevel(OrElse(customNodes, testIdNodes)), RoleOf)
  }

  /** Unlike the ChatGPT adapter, the fallback is chosen before filtering: custom-element turns
      that are all nested leave no message, whatever the test-id query found. */
  lemma NestedCustomTurnsHideFallback(customNodes: seq<Candidate>, testIdNodes: seq<Candidate>)
    requires customNodes != []
    requires forall i :: 0 <= i < |customNodes| ==> customNodes[i].nested
    ensures Messages(customNodes, testIdNodes) == []
  {
    TopLevelDropsNested(customNodes);
  }

  /** The text `getPreview` reads, per the turn's tag: the main markdown panel, else any markdown
      block, else the turn for a model response; the query text, else the turn for a user query;
      the turn itself otherwise. */
  function PreviewTarget(el: Elem): (r: ElementText)
  {
    var tag := Tag(el);
    if tag == ModelResponseTag then
      match QuerySelector(el, MainPanelSelector)
      case Some(t) => t
      case None =>
        match QuerySelector(el, MarkdownSelector)
        case Some(t) => t
        case None => el.text
    else if tag == UserQueryTag then
      match QuerySelector(el, QueryTextSelector)
      case Some(t) => t
      case None => el.text
    else el.text
  }

  /** `getPreview(el, maxLen)`: the target's `innerText || textContent || ''`, truncated. */
  function Preview(el: Option<Elem>, maxLen: int): (r: string)
    ensures el.None? ==> r == Truncate([], maxLen)
    ensures el.Some? ==>
      var t := PreviewTarget(el.value);
      r == Truncate(if t.innerText != [] then t.innerText else t.textContent, maxLen)
    // a turn of any other tag is previewed as the base adapter previews it
    ensures el.Some? && Tag(el.value) != ModelResponseTag && Tag(el.value) != UserQueryTag ==>
      r == BasePreview(el, maxLen)
  {
    if el.None? then Truncate([], maxLen)
    else
      var t := PreviewTarget(el.value);
      Truncate(OrElse(t.innerText, OrElse(t.textContent, [])), maxLen)
  }

  /** What `getScrollContainer()` returns. */
  datatype Container = HistoryScrollerElement | ChatHistoryElement | Derived(found: Geometry.Found)

  /** `getScrollContainer()`: the history scroller, else `div#chat-history` (both are `div`s, so
      the `HTMLElement` test holds), else the scrollable ancestor of the first message, else the
      page scroller. */
  function ScrollContainer(p: RootPresence, messages: seq<Message>): (r: Container)
    ensures p.historyScroller ==> r == HistoryScrollerElement
    ensures !p.historyScroller && p.chatHistory ==> r == ChatHistoryElement
    ensures !p.historyScroller && !p.chatHistory ==>
      r == Derived(if messages == [] then Geometry.PageScroller else Geometry.ScrollableAncestor(messages[0].el.chain))
  {
    if p.historyScroller then HistoryScrollerElement
    else if p.chatHistory then ChatHistoryElement
    else Derived(ScrollContainerOf(if messages == [] then None else Some(messages[0].el)))
  }

  /** When the history scroller exists it is both the conversation root and the scroll container. */
  lemma HistoryScrollerIsRootAndContainer(p: RootPresence, messages: seq<Message>)
    requires p.historyScroller
    ensures ConversationRoot(p) == HistoryScroller && ScrollContainer(p, messages) == HistoryScrollerElement
  {
  }
}

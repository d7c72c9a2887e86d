/**
 * `ChatGPTAdapter` of src/adapters/chatgpt.js: which hosts it claims, where the conversation
 * lives, how turn nodes become messages, and how a turn's role and preview are read.
 */
module ChatGptAdapter {
  import opened Optional
  import opened Strings
  import opened TextUtils
  import opened Dom
  import opened BaseAdapter
  import Geometry

  const ChatGptDomain: string := "chatgpt.com"
  const OpenAiChatDomain: string := "chat.openai.com"
  /** The selector `getPreview` prefers: `.markdown, [data-testid="message-content"], [class*="markdown"]`. */
  const MarkdownSelector: string := ".markdown, [data-testid=\"message-content\"], [class*=\"markdown\"]"

  /** `isMatch()` on `location.hostname`: the two regular expressions `/(^|\.)chatgpt\.com$/`
      and `/(^|\.)chat\.openai\.com$/`. */
  function IsMatch(hostname: string): (r: bool)
    ensures r <==> OnDomain(hostname, ChatGptDomain) || OnDomain(hostname, OpenAiChatDomain)
  {
    MatchesDomainOnDomain(hostname, ChatGptDomain);
    MatchesDomainOnDomain(hostname, OpenAiChatDomain);
    MatchesDomain(hostname, ChatGptDomain) || MatchesDomain(hostname, OpenAiChatDomain)
  }

  /** The domain must start at a label boundary: a host that merely ends in the same letters
      is not matched. */
  lemma NotChatGptIsNoMatch()
    ensures !IsMatch("notchatgpt.com")
    ensures IsMatch("chatgpt.com") && IsMatch("www.chatgpt.com") && IsMatch("chat.openai.com")
    ensures !IsMatch("chatgpt.com.example")
  {
    assert "notchatgpt.com"[|"notchatgpt.com"| - |"." + ChatGptDomain|..] == "tchatgpt.com";
    assert "www.chatgpt.com"[|"www.chatgpt.com"| - |"." + ChatGptDomain|..] == ".chatgpt.com";
  }

  /** What `getConversationRoot()` picks. */
  datatype Root = Main | ConversationTurns | Body

  /** `getConversationRoot()`: `main`, else `[data-testid="conversation-turns"]`, else
      `document.body`; there is always a root. */
  function ConversationRoot(hasMain: bool, hasConversationTurns: bool): (r: Root)
    ensures r == Main <==> hasMain
    ensures r == ConversationTurns <==> !hasMain && hasConversationTurns
    ensures r == Body <==> !hasMain && !hasConversationTurns
  {
    if hasMain then Main else if hasConversationTurns then ConversationTurns else Body
  }

  /** The lower-cased, trimmed `innerText` the role heuristic reads. */
  function RoleText(el: Elem): string
  {
    LowerCase(Trim(el.text.innerText))
  }

  /** The heuristic for nodes without a usable role attribute: text that starts with "you" or
      holds a line reading " you". */
  predicate LooksLikeUser(el: Elem)
  {
    StartsWith(RoleText(el), "you") || Contains(RoleText(el), "\n you\n")
  }

  /** `getRole(el)`: the author-role attribute when it names user, assistant or system; otherwise
      `user` when the text looks like the user's label, else `unknown`. */
  function RoleOf(el: Elem): (r: Role)
    ensures var a := GetAttribute(el, RoleAttribute);
      && (a == Some("user") ==> r == User)
      && (a == Some("assistant") ==> r == Assistant)
      && (a == Some("system") ==> r == System)
      && (a !in {Some("user"), Some("assistant"), Some("system")} ==>
            (r == User <==> LooksLikeUser(el)) && (r == Unknown <==> !LooksLikeUser(el)))
  {
    var fromAttribute := ParseRole(GetAttribute(el, RoleAttribute));
    if fromAttribute != Unknown then fromAttribute
    else if LooksLikeUser(el) then User
    else Unknown
  }

  /** Only the attribute can make a node an assistant or system turn: the text heuristic never does. */
  lemma OnlyAttributeGivesAssistant(el: Elem)
    requires RoleOf(el) == Assistant || RoleOf(el) == System
    ensures GetAttribute(el, RoleAttribute) == Some(RoleName(RoleOf(el)))
  {
  }

  /** The ChatGPT role rule extends the base one: wherever the base adapter reads a role from the
      attribute, so does this one; they differ only where the text heuristic finds the user. */
  lemma RoleExtendsBaseRole(el: Elem)
    ensures BaseRole(Some(el)) != Unknown ==> RoleOf(el) == BaseRole(Some(el))
    ensures RoleOf(el) != BaseRole(Some(el)) ==> BaseRole(Some(el)) == Unknown && RoleOf(el) == User && LooksLikeUser(el)
  {
  }

  /** `getMessages()` on the conversation root. `roleNodes` is
      `root.querySelectorAll('[data-message-author-role]')` and `turnNodes` is
      `root.querySelectorAll('[data-testid^="conversation-turn"]')`. The role nodes are filtered to
      top-level ones; the turn nodes are used, unfiltered, only when that leaves nothing. */
  function Messages(roleNodes: seq<Candidate>, turnNodes: seq<Elem>): (r: seq<Message>)
    ensures var nodes := if TopLevel(roleNodes) != [] then TopLevel(roleNodes) else turnNodes;
      && |r| == |nodes|
      && forall i :: 0 <= i < |r| ==>
           r[i].el == nodes[i] && r[i].role == RoleOf(nodes[i]) && r[i].id == MessageId(Some(nodes[i]), i)
  {
    ToMessages(OrElse(TopLevel(roleNodes), turnNodes), RoleOf)
  }

  /** Every message taken from the role nodes is a top-level role node. */
  lemma MessagesAreTopLevel(roleNodes: seq<Candidate>, turnNodes: seq<Elem>, i: nat)
    requires TopLevel(roleNodes) != [] && i < |Messages(roleNodes, turnNodes)|
    ensures exists j :: 0 <= j < |roleNodes| && !roleNodes[j].nested && roleNodes[j].el == Messages(roleNodes, turnNodes)[i].el
  {
    var m := Messages(roleNodes, turnNodes);
    assert m[i].el == TopLevel(roleNodes)[i];
    assert m[i].el in TopLevel(roleNodes);
  }

  /** The fallback applies only when no top-level role node exists. */
  lemma MessagesFallBackToTurns(roleNodes: seq<Candidate>, turnNodes: seq<Elem>)
    requires forall i :: 0 <= i < |roleNodes| ==> roleNodes[i].nested
    ensures |Messages(roleNodes, turnNodes)| == |turnNodes|
  {
    TopLevelDropsNested(roleNodes);
  }

  /** `getPreview(el, maxLen)`: the text of the first markdown-like block inside the turn,
      else the turn's `innerText`, else its `textContent`, truncated. */
  function Preview(el: Option<Elem>, maxLen: int): (r: string)
    ensures el.None? ==> r == Truncate([], maxLen)
    ensures el.Some? ==>
      match QuerySelector(el.value, MarkdownSelector)
      case Some(block) =>
        if block.innerText != [] then r == Truncate(block.innerText, maxLen)
        else r == BasePreview(el, maxLen)
      case None => r == BasePreview(el, maxLen)
  {
    if el.None? then Truncate([], maxLen)
    else
      var blockText := match QuerySelector(el.value, MarkdownSelector)
        case Some(block) => block.innerText
        case None => [];
      Truncate(OrElse(blockText, OrElse(el.value.text.innerText, OrElse(el.value.text.textContent, []))), maxLen)
  }

  /** `getScrollContainer()`: the scrollable ancestor of the first message's element, or the page
      scroller when there are no messages. */
  function ScrollContainer(messages: seq<Message>): (r: Geometry.Found)
    ensures messages == [] ==> r == Geometry.PageScroller
    ensures messages != [] ==> r == Geometry.ScrollableAncestor(messages[0].el.chain)
    // the container is the nearest scrolling ancestor of the first message
    ensures r.InChain? ==>
      messages != [] && r.depth < |messages[0].el.chain| && Geometry.IsScrollable(messages[0].el.chain[r.depth])
      && forall i :: 0 <= i < r.depth ==> !Geometry.IsScrollable(messages[0].el.chain[i])
    // the page scrolls exactly when there is no message or no ancestor of the first one scrolls
    ensures r.PageScroller? <==>
      messages == [] || forall i :: 0 <= i < |messages[0].el.chain| ==> !Geometry.IsScrollable(messages[0].el.chain[i])
  {
    ScrollContainerOf(if messages == [] then None else Some(messages[0].el))
  }
}

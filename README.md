# AI Chat Navigator — a verified model

AI Chat Navigator is a browser extension. It draws a minimap beside a ChatGPT (or Gemini)
conversation: one tick per message, coloured by who wrote it, with the tick of the message at
the middle of the view highlighted. It also has two buttons that jump to the previous and next
assistant message. This project models the core of that extension in Dafny and proves
properties of the model:

- `ChatNavigator` (`src/core/navigator.js`) is the class `Navigator.ChatNavigator`. Its fields
  are the navigator's state: the parts it has created and attached, the ticks, the messages and
  their centers, the active index, the scroll container, its listener, and the other
  subscriptions. Its methods are `mount`, `refresh`, `_renderLines`, `layout`,
  `updateActiveFromScroll`, `setActiveIndex`, `destroy` and the two jumps. Each loop the source
  runs over the ticks or the messages is a method with loop invariants, proved against a
  specification function:
  - the layout arithmetic is in `Layout`;
  - the nearest-center binary search is in `ActiveIndex`;
  - the prev/next decisions are in `Jumps`.
- `src/core/utils.js`:
  - `clamp` and `getScrollableAncestor` are in `Geometry`;
  - `safeText` and `truncate` are in `TextUtils`;
  - `debounce`, `throttle` and `once` are objects driven by an explicit clock, in `Timing`.
- The adapters:
  - `BaseChatAdapter` is `BaseAdapter`;
  - `ChatGPTAdapter` is `ChatGptAdapter`;
  - `GeminiAdapter` is `GeminiAdapter`;
  - `registry.getAdapter` is `Registry`.

  They cover host matching, the conversation root, turn nodes to messages, roles, previews,
  message ids and the scroll container.

The page is reduced to what the logic reads:
- An element carries its tag, id, attributes, text, the text of the first descendant each
  queried selector finds, the chain of ancestors the scroll walk visits, and its box.
- Measurements from the window and the document (`scrollY`, `innerHeight`, the
  document's heights) are a `Viewport` value.
- A scroll container is a `Geometry.Scroller` object, because the navigator compares
  containers by identity and `scrollToMessage` assigns `scrollTop`.
- Pixels are `real`.

Where the repository's prose and the code disagree, the model follows the code:
- **Ties:** on an exact tie between a center and its predecessor, the code keeps the later
  index (the comparison is strict). `ActiveIndex.TiesGoLater` proves this for any increasing
  centers, and `ActiveIndex.TieKeepsLaterIndex` works it out for centers 100 and 300 with the
  anchor at 200.
- **No centers:** with messages but no centers (no tick exists), the search starts with
  `hi = -1` and activates index 0. It does not leave the index at -1.

## Model

| member | source | states |
|---|---|---|
| Strings.TrimStart | src/core/utils.js:56 | `trim()`'s left half: drops exactly the leading ECMAScript whitespace; the result is a suffix of the input |
| Strings.TrimEnd | src/core/utils.js:62 | `trimEnd()`: drops exactly the trailing whitespace; the result is a prefix of the input |
| Strings.AsciiLower | src/adapters/chatgpt.js:72 | lower-casing maps `A`–`Z` to `a`–`z` and leaves every other character alone |
| Strings.LowerCase | src/adapters/chatgpt.js:72 | lower-cases the ASCII letters position by position and keeps the length |
| Strings.Contains | src/adapters/chatgpt.js:74 | `includes(p)` holds iff `p` occurs at some position |
| Strings.MatchesDomain | src/adapters/chatgpt.js:18 | the anchored domain pattern matches iff some suffix equals the domain and starts at the beginning or after a dot |
| Strings.MatchesDomainOnDomain | src/adapters/chatgpt.js:18 | the regular expression matches iff the host is the domain or ends in `.` + domain |
| Strings.NatToString | src/adapters/base.js:64 | `String(index)`: non-empty decimal digits with no leading zero |
| Strings.ParseNatToString | src/adapters/base.js:64 | reading back the printed index gives the index (round trip) |
| Strings.NatToStringInjective | src/adapters/base.js:70 | different indices print differently |
| TextUtils.ReplaceNbsp | src/core/utils.js:51 | every no-break space becomes a space, everything else stays; no no-break space is left |
| TextUtils.StripBlanksBeforeNewline | src/core/utils.js:52 | after the pass no space or tab stands before a newline |
| TextUtils.StripBlanksAfterNewline | src/core/utils.js:53 | after the pass no blank stands on either side of a newline, and the first character is kept |
| TextUtils.CollapseBlankRuns | src/core/utils.js:54 | after the pass no two blanks are adjacent and no blank touches a newline |
| TextUtils.CollapseNewlineRuns | src/core/utils.js:55 | after the pass no three newlines are consecutive, and blanks stay tidy |
| TextUtils.SafeText | src/core/utils.js:48-57 | empty text gives `''`; otherwise the result has no no-break space, no double blank, no blank next to a newline, no triple newline and no whitespace at either end |
| TextUtils.TrimIsTrimmed | src/core/utils.js:56 | `trim()` leaves no whitespace at either end |
| TextUtils.TrimKeepsShape | src/core/utils.js:56 | trimming a tidy text keeps it tidy, so the whole chain yields a normalised text |
| TextUtils.VisibleReplaceNbsp | src/core/utils.js:51 | the no-break-space pass keeps the non-whitespace characters in order |
| TextUtils.VisibleStripBefore | src/core/utils.js:52 | the blanks-before-newline pass keeps the non-whitespace characters |
| TextUtils.VisibleStripAfter | src/core/utils.js:53 | the blanks-after-newline pass keeps the non-whitespace characters |
| TextUtils.VisibleCollapseBlanks | src/core/utils.js:54 | the blank-run pass keeps the non-whitespace characters |
| TextUtils.VisibleCollapseNewlines | src/core/utils.js:55 | the newline-run pass keeps the non-whitespace characters |
| TextUtils.VisibleTrimEnd | src/core/utils.js:62 | `trimEnd()` keeps the non-whitespace characters |
| TextUtils.SafeTextKeepsVisible | src/core/utils.js:48-57 | `safeText` changes only whitespace: the visible characters come out all there, in order |
| TextUtils.StripBeforeKeepsTidy | src/core/utils.js:52 | the pass leaves a text with no blank before a newline unchanged |
| TextUtils.StripAfterKeepsTidy | src/core/utils.js:53 | the pass leaves a text with no blank next to a newline unchanged |
| TextUtils.CollapseBlanksKeepsTidy | src/core/utils.js:54 | the pass leaves a text with tidy blanks unchanged |
| TextUtils.CollapseNewlinesKeepsTidy | src/core/utils.js:55 | the pass leaves a text with no triple newline unchanged |
| TextUtils.SafeTextIdempotent | src/core/utils.js:48-57 | normalising a normalised text changes nothing |
| TextUtils.Cut | src/core/utils.js:61-62 | a text that fits is kept whole; a longer one keeps a prefix of at most `max(0, maxLen - 1)` characters, drops only whitespace after it, and ends in the three-character suffix |
| TextUtils.Truncate | src/core/utils.js:59-63 | the normalised text when it fits in `maxLen`, else the suffix-ended cut; never more than `maxLen + 2` characters for `maxLen >= 1` |
| TextUtils.CutOverrun | src/core/utils.js:62 | when the cut lands on visible text the result is `maxLen + 2` characters long |
| Timing.Debouncer.constructor | src/core/utils.js:11-12 | a debounced wrapper starts with no pending timer and no runs |
| Timing.Debouncer.Call | src/core/utils.js:13-16 | a call replaces the pending timer with one due `wait` later carrying this call's arguments; every run happens a full `wait` after some call with the same arguments |
| Timing.Debouncer.Advance | src/core/utils.js:15 | a due timer runs `fn` once with its arguments and clears; otherwise nothing changes |
| Timing.Throttler.constructor | src/core/utils.js:19-21 | `last` starts at 0 with no timer and no runs |
| Timing.Throttler.Call | src/core/utils.js:23-43 | `fn` runs at once and the timer is cancelled when `wait` has passed; otherwise one trailing run is scheduled for when it will have, unless one is already pending; runs stay at least `wait` apart |
| Timing.Throttler.Advance | src/core/utils.js:38-42 | a due trailing timer runs `fn` and sets `last`; runs stay at least `wait` apart |
| Timing.Once.constructor | src/core/utils.js:81-82 | a new wrapper has not been called |
| Timing.Once.Call | src/core/utils.js:83-87 | the first call runs `fn` with its arguments, later calls do nothing: at most one run ever |
| Geometry.Clamp | src/core/utils.js:9 | with ordered bounds the result lies in them and is the input when it already does; with reversed bounds the upper one wins |
| Geometry.PageScrollTop | src/core/navigator.js:642 | `window.scrollY`, or the document's `scrollTop` when `scrollY` is 0 |
| Geometry.ScrollMetrics | src/core/navigator.js:649-664 | the metrics of the page or of an inner container; the visible height is never 0 and the scrollable height never below it |
| Geometry.JumpScrollTop | src/core/navigator.js:766-768 | the jumps read `window.scrollY` for the page and the container's own `scrollTop` otherwise |
| Geometry.JumpViewMatchesMetrics | src/core/navigator.js:766-771 | the jumps' position and height agree with the active tick's metrics (navigator.js:649-664) when the height, and for the page `scrollY`, are non-zero; a zero height stays 0 for the jumps but is 1 in the metrics, and a page `scrollY` of 0 is 0 for the jumps while the metrics fall back to the document's `scrollTop` |
| Geometry.ContentTop | src/core/navigator.js:637-647 | an element's offset in the scrolled content: its distance below the container's top plus the scroll position |
| Geometry.ContentTopScrollInvariant | src/core/navigator.js:637-647 | scrolling an inner container does not change any element's content offset |
| Geometry.ScrollToMessage | src/adapters/base.js:96-105 | the fallback runs exactly when `scrollIntoView` throws and sets the container's `scrollTop` to the message's content offset; nothing else changes |
| Geometry.ScrollableAncestor | src/core/utils.js:65-79 | the nearest node on the parent chain that scrolls (overflow auto/scroll and over 10px of extra content), else the page scroller iff none does |
| Geometry.GetScrollableAncestor | src/core/utils.js:65-79 | the walk up the parent chain returns exactly that nearest scrolling node |
| Geometry.FirstScrollableIsFound | src/core/utils.js:69-77 | the answer is determined by the first scrolling node on the chain |
| Dom.GetAttribute | src/adapters/base.js:67 | `getAttribute` is non-null iff the attribute is present, and then its value |
| Dom.QuerySelector | src/adapters/chatgpt.js:80 | a descendant is found iff one matches the selector |
| Dom.OrElse | src/adapters/base.js:89 | JavaScript's or on strings (and the adapters' fallback query): the first unless it is empty, then the second |
| Dom.TopLevel | src/adapters/chatgpt.js:44-48 | the filter keeps exactly the nodes whose parent is not inside another turn node |
| Dom.TopLevelAppend | src/adapters/chatgpt.js:44-48 | the filter keeps document order: filtering a joined list joins the filtered parts |
| Dom.TopLevelKeepsUnnested | src/adapters/chatgpt.js:44-48 | a list with no nested node passes unchanged |
| Dom.TopLevelDropsNested | src/adapters/chatgpt.js:50 | a list of nested nodes filters to nothing |
| BaseAdapter.FallbackId | src/adapters/base.js:64 | the fallback id is `m_` followed by the index's digits |
| BaseAdapter.FallbackIdIndex | src/adapters/base.js:70 | the index can be read back from a fallback id |
| BaseAdapter.FallbackIdsDistinct | src/adapters/base.js:63-71 | different positions never share a fallback id |
| BaseAdapter.MessageId | src/adapters/base.js:63-71 | the element's `id`, else its `data-testid`, else `m_<index>`, skipping empty values; never empty |
| BaseAdapter.AnonymousIdsDistinct | src/adapters/base.js:63-71 | messages whose elements offer no id get pairwise different ids |
| BaseAdapter.ParseRole | src/adapters/base.js:78-82 | `user`, `assistant`, `system` exactly for those attribute values, else `unknown` |
| BaseAdapter.ParseRoleName | src/adapters/base.js:78-82 | reading a role's own name gives the role back |
| BaseAdapter.BaseRoleOfRoleName | src/adapters/base.js:77-83 | an element whose author-role attribute is a role's name gets that role back (a missing element reads as `unknown`) |
| BaseAdapter.BasePreview | src/adapters/base.js:88-91 | `innerText`, else `textContent`, else `''`, truncated |
| BaseAdapter.BasePreviewLength | src/adapters/base.js:88 | a preview at the default length of 140 is at most 142 characters |
| BaseAdapter.BaseScrollContainer | src/adapters/base.js:45-49 | always the page scroller: `getMessageElements` is never defined |
| BaseAdapter.ToMessagesIdsDistinct | src/adapters/chatgpt.js:55-62 | in one message list, two nodes that offer no id of their own get different ids |
| ChatGptAdapter.IsMatch | src/adapters/chatgpt.js:17-19 | the host is `chatgpt.com`, `chat.openai.com` or a subdomain of either |
| ChatGptAdapter.NotChatGptIsNoMatch | src/adapters/chatgpt.js:18 | `notchatgpt.com` and `chatgpt.com.example` do not match; `www.chatgpt.com` does |
| ChatGptAdapter.ConversationRoot | src/adapters/chatgpt.js:21-31 | `main`, else the conversation-turns element, else `body`, each case iff its condition |
| ChatGptAdapter.RoleOf | src/adapters/chatgpt.js:65-76 | an attribute naming a role decides; otherwise `user` iff the text starts with "you" or holds "\n you\n", else `unknown` |
| ChatGptAdapter.OnlyAttributeGivesAssistant | src/adapters/chatgpt.js:65-76 | an assistant or system role always comes from the attribute |
| ChatGptAdapter.Messages | src/adapters/chatgpt.js:37-63 | the top-level role nodes, or the turn nodes when none is left, as messages in order |
| ChatGptAdapter.MessagesAreTopLevel | src/adapters/chatgpt.js:41-48 | every message taken from role nodes is a top-level role node |
| ChatGptAdapter.MessagesFallBackToTurns | src/adapters/chatgpt.js:50-53 | when every role node is nested, one message per turn node |
| ChatGptAdapter.Preview | src/adapters/chatgpt.js:78-83 | the first markdown block's text when non-empty, else the base preview |
| ChatGptAdapter.ScrollContainer | src/adapters/chatgpt.js:85-90 | the container is the nearest scrolling ancestor of the first message; the page scrolls exactly when there is no message or no ancestor of the first one scrolls |
| ChatGptAdapter.RoleExtendsBaseRole | src/adapters/chatgpt.js:65-76 | wherever the base adapter reads a role from the attribute ChatGPT reads the same; they differ only where the base says `unknown` and the text heuristic finds the user |
| GeminiAdapter.IsMatch | src/adapters/gemini.js:13-16 | the host is `gemini.google.com`, `bard.google.com` or a subdomain of either |
| GeminiAdapter.IsMatchExamples | src/adapters/gemini.js:15 | `google.com` and `xgemini.google.com` do not match |
| GeminiAdapter.ConversationRoot | src/adapters/gemini.js:22-38 | the first present of history scroller, `#chat-history`, `chat-window`, `main`, else `body` |
| GeminiAdapter.RoleOf | src/adapters/gemini.js:75-89 | the first applicable rule of tag, test id, query-text and markdown descendants; never `system` |
| GeminiAdapter.UserTestIdWins | src/adapters/gemini.js:80-82 | a test id naming both parties makes a user turn |
| GeminiAdapter.Messages | src/adapters/gemini.js:40-73 | the chosen turn nodes, filtered to top-level ones, as messages in order |
| GeminiAdapter.NestedCustomTurnsHideFallback | src/adapters/gemini.js:44-63 | custom turns that are all nested yield no message, whatever the fallback query found |
| GeminiAdapter.Preview | src/adapters/gemini.js:91-106 | the target's `innerText`, else its `textContent`, truncated; equal to the base preview for other tags |
| GeminiAdapter.ScrollContainer | src/adapters/gemini.js:108-120 | the history scroller, else `#chat-history`, else the first message's scrollable ancestor, else the page |
| GeminiAdapter.HistoryScrollerIsRootAndContainer | src/adapters/gemini.js:108-113 | when the history scroller exists it is both the root and the scroll container |
| Registry.Candidates | src/adapters/registry.js:9-10 | the candidate list holds the ChatGPT adapter iff it is loaded, and never the Gemini adapter |
| Registry.FirstMatch | src/adapters/registry.js:12-17 | the first candidate whose `isMatch()` returns true; none iff no candidate matches |
| Registry.GetAdapter | src/adapters/registry.js:8-18 | the ChatGPT adapter iff it is loaded, does not throw and matches the host; never Gemini |
| Layout.NaturalHeight | src/core/navigator.js:596-597 | the pitch-spaced height is at least the two paddings |
| Layout.FinalHeight | src/core/navigator.js:600-601 | the smaller of the cap and the natural height |
| Layout.UsableHeight | src/core/navigator.js:610 | at least 1 pixel and at least the height less the paddings |
| Layout.Step | src/core/navigator.js:616 | positive; at most the pitch, with all gaps fitting in the usable height; the whole height for one message |
| Layout.HitHeight | src/core/navigator.js:617 | within [6, 14] pixels, and 85% of the step when that is in range |
| Layout.Center | src/core/navigator.js:627 | never above the top; the top plus half the height |
| Layout.UncappedKeepsPitch | src/core/navigator.js:615-616 | when the natural height fits under the cap, the step is the fixed pitch |
| Layout.StepIsPitchIffFits | src/core/navigator.js:615-616 | the step equals the pitch iff the natural height fits, and never exceeds it |
| Layout.TicksIncrease | src/core/navigator.js:631 | tick positions strictly increase with the message index |
| Layout.TicksWithinArea | src/core/navigator.js:631 | every tick lies between the top padding and the padding plus the usable height |
| Layout.FiveMessagesExample | src/core/navigator.js:592-616 | five messages in a 1000px viewport: 72px lines, 112px host, 10px steps |
| Layout.TwoHundredMessagesExample | src/core/navigator.js:592-616 | two hundred messages: capped at 1000px, 968px shared by 199 gaps |
| Layout.CentersFollowTops | src/core/navigator.js:625-628 | messages laid out in order have centers in order |
| ActiveIndex.FirstAtLeast | src/core/navigator.js:679-683 | the first center at or past the anchor, with every earlier one before it |
| ActiveIndex.LowerBound | src/core/navigator.js:676-683 | the search result is a valid position |
| ActiveIndex.ActiveIndexFor | src/core/navigator.js:676-690 | the lower bound, or its predecessor when strictly closer |
| ActiveIndex.ActiveIndexMonotone | src/core/navigator.js:676-690 | on sorted centers the active index never moves backward as the anchor moves down |
| ActiveIndex.LaterIsFarther | src/core/navigator.js:685-690 | on strictly increasing centers every center after the active one is strictly farther from the anchor |
| ActiveIndex.TiesGoLater | src/core/navigator.js:689 | an anchor exactly halfway between two neighbouring centers makes the later one active |
| ActiveIndex.SearchNearest | src/core/navigator.js:675-690 | the binary search and predecessor test compute the active index on sorted centers; 0 with no centers |
| ActiveIndex.LowerBoundIsUnique | src/core/navigator.js:679-683 | the lower bound is fixed by its defining properties |
| ActiveIndex.ActiveIsNearest | src/core/navigator.js:685-690 | on sorted centers no center is strictly closer to the anchor than the active one |
| ActiveIndex.TieKeepsLaterIndex | src/core/navigator.js:689 | an example of TiesGoLater: centers 100 and 300 with the anchor at 200 make index 1 active |
| ActiveIndex.SingleCenterIsActive | src/core/navigator.js:676-690 | with one center it is active wherever the anchor is |
| Jumps.TopsKeepScreenOrder | src/core/navigator.js:778 | content offsets differ exactly as screen positions do, whatever the container and its scroll position, so messages keep their on-screen order |
| Jumps.PrevCurrent | src/core/navigator.js:775-781 | the last of the leading messages that start above the anchor, or 0 |
| Jumps.FirstStop | src/core/navigator.js:818-830 | the first message that holds the anchor or starts below it |
| Jumps.NextCurrent | src/core/navigator.js:817-830 | the message holding the anchor, else the one before the first starting below it, else the last; a current message past the first never starts below the anchor |
| Jumps.NextCurrentIsDetermined | src/core/navigator.js:817-830 | any position with the properties NextCurrent promises is NextCurrent's answer |
| Jumps.LastAssistantBefore | src/core/navigator.js:784-789 | the nearest assistant message before a position; none iff there is none |
| Jumps.FirstAssistantFrom | src/core/navigator.js:792-797 | the nearest assistant message at or after a position; none iff there is none |
| Jumps.PrevTarget | src/core/navigator.js:783-797 | the nearest assistant before the current message, else the first assistant; none iff there is no assistant message |
| Jumps.NextTarget | src/core/navigator.js:832-846 | the nearest assistant after the current message, else the last assistant; none iff there is no assistant message |
| Jumps.NextStaysOnLastAssistant | src/core/navigator.js:832-846 | on the last assistant message, next stays there |
| Jumps.PrevFromTopWraps | src/core/navigator.js:784-797 | prev from the first message goes to the first assistant message |
| Navigator.RoleClass | src/core/navigator.js:576-580 | user and assistant messages get their own class, every other role `unknown` |
| Navigator.ShowsRolesKept | src/core/navigator.js:699-703 | moving the highlight keeps every tick's role class |
| Navigator.ChatNavigator.constructor | src/core/navigator.js:41-78 | nothing created, nothing attached, no container, active index -1 |
| Navigator.ChatNavigator.Mount | src/core/navigator.js:80-88 | without an adapter nothing happens; otherwise all parts exist, host and tooltip are attached, every subscription is on, the scroll listener is on the container, and ticks show the roles with one highlighted when there are messages |
| Navigator.ChatNavigator.EnsureScrollListener | src/core/navigator.js:513-530 | a new container takes over the scroll listener from the old one; the same container changes nothing |
| Navigator.ChatNavigator.RenderLines | src/core/navigator.js:549-582 | with a lines layer, one tick per message with its index and role class, no highlight, kept ticks keep their places |
| Navigator.ChatNavigator.Layout | src/core/navigator.js:584-635 | no-op without container or lines markup; throws iff the host was dropped; sizes host and lines and places every tick; one center per ticked message |
| Navigator.ChatNavigator.SetActiveIndex | src/core/navigator.js:695-704 | the same index changes nothing; otherwise it is recorded and exactly that tick is highlighted, throwing iff there is no lines layer |
| Navigator.ChatNavigator.UpdateActiveFromScroll | src/core/navigator.js:666-693 | no-op without container or messages; lays out when the centers are stale; activates the nearest center to the view's middle |
| Navigator.ChatNavigator.Refresh | src/core/navigator.js:532-547 | follows the container, takes the messages, shows their roles; throws iff the host was dropped; the highlight is lost when the index is unchanged |
| Navigator.ChatNavigator.Destroy | src/core/navigator.js:90-126 | each teardown step that does not throw is undone; host and tooltip are dropped; all torn down when none throws |
| Navigator.ChatNavigator.JumpToPrevAssistant | src/core/navigator.js:759-798 | none without messages; else the prev target from the message at the upper third |
| Navigator.ChatNavigator.JumpToNextAssistant | src/core/navigator.js:803-847 | none without messages; else the next target from the message at the middle |
| Navigator.RenderedShowsRoles | src/core/navigator.js:569-581 | a fresh rendering shows the roles with no highlight |
| Navigator.LaidOutShowsRoles | src/core/navigator.js:619-634 | placing ticks keeps their roles and highlight |
| Navigator.RenderTicks | src/core/navigator.js:549-582 | the three loops leave exactly one tick per message with its index and role class |
| Navigator.PlaceTicks | src/core/navigator.js:619-634 | each ticked message gets its position, hit height and center; extra ticks are untouched |
| Navigator.Highlight | src/core/navigator.js:699-703 | exactly the tick at the index is active, nothing else changes |
| Navigator.ScanPrevCurrent | src/core/navigator.js:775-781 | the prev scan finds the prev jump's current message |
| Navigator.ScanNextCurrent | src/core/navigator.js:817-830 | the next scan finds the next jump's current message |
| Navigator.FindPrevAssistant | src/core/navigator.js:783-797 | the two searches find the prev target |
| Navigator.FindNextAssistant | src/core/navigator.js:832-846 | the two searches find the next target |
| Navigator.FirstAtLeastIsUnique | src/core/navigator.js:776-781 | the leading run's end is fixed by its defining properties |
| Navigator.FirstStopIsUnique | src/core/navigator.js:818-830 | the first stopping message is fixed by its defining properties |

## Left out

- The markup, styles, theme detection (`_applyTheme`) and tooltip of `src/core/navigator.js`
  are reduced to which parts exist and are attached. Their contents, colours and positioning
  are presentation, and no decision depends on them.
- The mutation and resize observers and the colour-scheme listener are subscriptions that are
  on or off. The events they deliver are not modelled; a delivered event is a call to
  `Refresh`.
- The navigator's own debounced and throttled handlers are not `Timing` objects: each
  delivery is a direct call. `Timing` models the wrappers themselves.
- `installHistoryListener` patches `history` and dispatches window events. It is browser
  plumbing, with no logic to verify.
- `src/content.js` boots and re-boots the navigator. It is not part of this model.
- `isElement` is a DOM type test. It is not part of this model.
- Strings are sequences of Unicode scalar values. JavaScript counts UTF-16 code units, so a
  length or cut differs for characters outside the Basic Multilingual Plane.
- Strings.AsciiLower: lower-cases ASCII only. Every comparison after `toLowerCase()` is against
  ASCII text, so the decisions the adapters make are the same.
- Strings.LowerCase: keeps the length, which `toLowerCase()` does not for U+0130 (it becomes two
  code units). U+0130 and U+212A, the characters that lower-case into ASCII letters, give "i" and
  "k", and no text the adapters compare against contains either.
- TextUtils.SafeText: only string inputs are modelled. `String(text)` on other values is a
  JavaScript conversion.
- Navigator.ChatNavigator.Mount: requires a freshly constructed navigator. `_createUI` removes a
  stale host left by an earlier injection; that removal is outside the navigator's state.
- Selector matching is not modelled. An element carries the result of each query the adapters
  make, and each node list carries whether its parent lies inside another turn node.
- The smooth scrolling of `scrollIntoView` is not modelled. The jumps return the index of the
  message they scroll to, and `Geometry.ScrollToMessage` records only whether the fallback ran.
- `document.body` as a scroll container is not modelled. `getScrollableAncestor` stops before
  `body`, so `body` is a container only when it is itself the scrolling element.
- `NaN` and infinite measurements are not modelled; pixels are real numbers.
- Navigator.ChatNavigator.Destroy: an exception from a teardown step is an input (the `failing`
  set), since it comes from the browser.
- The window and document measurements are a `Viewport` parameter rather than live reads.
- Navigator.ChatNavigator.Destroy: `destroy()` drops the host, its shadow root and the tooltip
  but keeps the lines layer and lines container, which live in that shadow root, as in the
  source; the model has no field for the shadow root. A pending debounced refresh still runs
  afterwards. Such a
  refresh moves the scroll listener to a new container if the adapter reports one, and then
  throws in `layout` on the dropped host; `Refresh` states this.

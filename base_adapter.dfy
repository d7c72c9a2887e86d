/**
 * `BaseChatAdapter` of src/adapters/base.js: the message-id fallback chain, the role attribute,
 * the preview text and the default scroll container, which the site adapters reuse or override.
 */
module BaseAdapter {
  import opened Optional
  import opened Strings
  import opened TextUtils
  import opened Dom
  import Geometry

  /** `ChatRole`. */
  datatype Role = User | Assistant | System | Unknown

  function RoleName(r: Role): string
  {
    match r
    case User => "user"
    case Assistant => "assistant"
    case System => "system"
    case Unknown => "unknown"
  }

  /** `ChatMessage`: an id, a role and the message element. */
  datatype Message = Message(id: string, role: Role, el: Elem)

  const RoleAttribute: string := "data-message-author-role"
  const TestIdAttribute: string := "data-testid"
  const FallbackIdPrefix: string := "m_"
  const DefaultPreviewLength: int := 140

  /** The id a message gets when its element offers none: `m_<index>`. */
  function FallbackId(index: nat): (r: string)
    ensures |r| > |FallbackIdPrefix| && r[..|FallbackIdPrefix|] == FallbackIdPrefix
    ensures r[|FallbackIdPrefix|..] == NatToString(index)
  {
    FallbackIdPrefix + NatToString(index)
  }

  /** The index can be read back from a fallback id. */
  lemma FallbackIdIndex(index: nat)
    ensures ParseDecimal(FallbackId(index)[|FallbackIdPrefix|..]) == index
  {
    ParseNatToString(index);
  }

  /** Two messages at different positions never share a fallback id. */
  lemma FallbackIdsDistinct(i: nat, j: nat)
    requires i != j
    ensures FallbackId(i) != FallbackId(j)
  {
    if FallbackId(i) == FallbackId(j) {
      assert FallbackId(i)[|FallbackIdPrefix|..] == FallbackId(j)[|FallbackIdPrefix|..];
      NatToStringInjective(i, j);
    }
  }

  /** `getMessageId(el, index)`: the element's `id`, else its `data-testid`, else `m_<index>`;
      a missing element gets `m_<index>` too. Empty strings are skipped. */
  function MessageId(el: Option<Elem>, index: nat): (r: string)
    // an id is never empty
    ensures r != []
    ensures el.None? ==> r == FallbackId(index)
    ensures el.Some? && el.value.id != [] ==> r == el.value.id
    ensures el.Some? && el.value.id == [] ==>
      match GetAttribute(el.value, TestIdAttribute)
      case Some(t) => r == (if t != [] then t else FallbackId(index))
      case None => r == FallbackId(index)
  {
    if el.None? then FallbackId(index)
    else if el.value.id != [] then el.value.id
    else
      match GetAttribute(el.value, TestIdAttribute)
      case Some(t) => if t != [] then t else FallbackId(index)
      case None => FallbackId(index)
  }

  /** An element that offers neither an `id` nor a `data-testid` has no say in its id. */
  predicate Anonymous(el: Elem)
  {
    el.id == [] && (TestIdAttribute in el.attributes ==> el.attributes[TestIdAttribute] == [])
  }

  /** Messages whose elements are anonymous get pairwise different ids. */
  lemma AnonymousIdsDistinct(a: Elem, i: nat, b: Elem, j: nat)
    requires Anonymous(a) && Anonymous(b) && i != j
    ensures MessageId(Some(a), i) != MessageId(Some(b), j)
  {
    FallbackIdsDistinct(i, j);
  }

  /** The role an author-role attribute value names; any other value is `unknown`. */
  function ParseRole(value: Option<string>): (r: Role)
    ensures r == User <==> value == Some("user")
    ensures r == Assistant <==> value == Some("assistant")
    ensures r == System <==> value == Some("system")
  {
    if value == Some("user") then User
    else if value == Some("assistant") then Assistant
    else if value == Some("system") then System
    else Unknown
  }

  /** Reading a role's own name gives the role back. */
  lemma ParseRoleName(r: Role)
    ensures ParseRole(Some(RoleName(r))) == r
  {
  }

  /** `BaseChatAdapter.getRole(el)`: the `data-message-author-role` attribute, if it names a
      role; a missing element is `unknown`. */
  function BaseRole(el: Option<Elem>): (r: Role)
  {
    if el.None? then Unknown else ParseRole(GetAttribute(el.value, RoleAttribute))
  }

  /** An element whose author-role attribute is a role's name has that role. */
  lemma BaseRoleOfRoleName(el: Elem, r: Role)
    requires GetAttribute(el, RoleAttribute) == Some(RoleName(r))
    ensures BaseRole(Some(el)) == r
  {
    ParseRoleName(r);
  }

  /** `BaseChatAdapter.getPreview(el, maxLen)`: `truncate(innerText || textContent || '', maxLen)`. */
  function BasePreview(el: Option<Elem>, maxLen: int): (r: string)
    ensures el.None? ==> r == Truncate([], maxLen)
    ensures el.Some? && el.value.text.innerText != [] ==> r == Truncate(el.value.text.innerText, maxLen)
    ensures el.Some? && el.value.text.innerText == [] ==> r == Truncate(el.value.text.textContent, maxLen)
  {
    var txt := if el.None? then [] else OrElse(el.value.text.innerText, OrElse(el.value.text.textContent, []));
    Truncate(txt, maxLen)
  }

  /** A preview at the default length is never longer than 142 characters. */
  lemma BasePreviewLength(el: Option<Elem>)
    ensures |BasePreview(el, DefaultPreviewLength)| <= DefaultPreviewLength + 2
  {
  }

  /** The container the site adapters derive from their first message: its scrollable
      ancestor, or the page scroller when there is no message. */
  function ScrollContainerOf(first: Option<Elem>): (r: Geometry.Found)
  {
    if first.None? then Geometry.PageScroller else Geometry.ScrollableAncestor(first.value.chain)
  }

  /** `BaseChatAdapter.getScrollContainer()`: `this.getMessageElements?.()` short-circuits because
      no adapter defines `getMessageElements`, so there is never a first element and the result is
      always the page scroller, whatever the messages. */
  function BaseScrollContainer(messages: seq<Message>): (r: Geometry.Found)
    ensures r == Geometry.PageScroller
  {
    ScrollContainerOf(None)
  }

  /** The `nodes.map((el, index) => ...)` both site adapters end `getMessages` with. */
  function ToMessages(nodes: seq<Elem>, roleOf: Elem -> Role): (r: seq<Message>)
  {
    seq(|nodes|, i requires 0 <= i < |nodes| => Message(MessageId(Some(nodes[i]), i), roleOf(nodes[i]), nodes[i]))
  }

  /** Within one message list, two elements that offer no id of their own get different ids. */
  lemma ToMessagesIdsDistinct(nodes: seq<Elem>, roleOf: Elem -> Role, i: nat, j: nat)
    requires i < j < |nodes| && Anonymous(nodes[i]) && Anonymous(nodes[j])
    ensures ToMessages(nodes, roleOf)[i].id != ToMessages(nodes, roleOf)[j].id
  {
    AnonymousIdsDistinct(nodes[i], i, nodes[j], j);
  }
}

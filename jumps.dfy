/**
 * What the prev/next buttons of src/core/navigator.js decide (`_jumpToPrevAssistant` and
 * `_jumpToNextAssistant`): which message the reader is at, and which assistant message to
 * scroll to from there, wrapping to the first or last assistant message when none lies in the
 * chosen direction.
 */
module Jumps {
  import opened Optional
  import opened Geometry
  import opened Dom
  import opened BaseAdapter
  import ActiveIndex

  function Roles(msgs: seq<Message>): (r: seq<Role>)
  {
    seq(|msgs|, i requires 0 <= i < |msgs| => msgs[i].role)
  }

  /** The content offsets of the messages in container `sc` (`_getElementTopFor`). */
  function Tops(msgs: seq<Message>, kind: ContainerKind, scRectTop: real, scScrollTop: real, vp: Viewport): (r: seq<real>)
  {
    seq(|msgs|, i requires 0 <= i < |msgs| => ContentTop(kind, scRectTop, scScrollTop, vp, msgs[i].el.box.rectTop))
  }

  /** Content offsets differ exactly as the messages' screen positions do, whatever the container
      and its scroll position: messages keep their on-screen order. */
  lemma TopsKeepScreenOrder(msgs: seq<Message>, kind: ContainerKind, scRectTop: real, scScrollTop: real, vp: Viewport, i: nat, j: nat)
    requires i < |msgs| && j < |msgs|
    ensures var t := Tops(msgs, kind, scRectTop, scScrollTop, vp);
      t[j] - t[i] == msgs[j].el.box.rectTop - msgs[i].el.box.rectTop
    ensures var t := Tops(msgs, kind, scRectTop, scScrollTop, vp);
      msgs[i].el.box.rectTop <= msgs[j].el.box.rectTop ==> t[i] <= t[j]
  {
  }

  /** The bottoms `_jumpToNextAssistant` uses: `elTop + (offsetHeight || 0)`. */
  function Bottoms(msgs: seq<Message>, tops: seq<real>): (r: seq<real>)
    requires |tops| == |msgs|
  {
    seq(|msgs|, i requires 0 <= i < |msgs| => tops[i] + Height(msgs[i].el))
  }

  /** The prev jump's reference point: a third of the way down the view. */
  function PrevAnchor(kind: ContainerKind, scrollTop: real, clientHeight: real, vp: Viewport): real
  {
    JumpScrollTop(kind, scrollTop, vp) + JumpClientHeight(kind, clientHeight, vp) / 3.0
  }

  /** The next jump's reference point: the middle of the view. */
  function NextAnchor(kind: ContainerKind, scrollTop: real, clientHeight: real, vp: Viewport): real
  {
    JumpScrollTop(kind, scrollTop, vp) + JumpClientHeight(kind, clientHeight, vp) / 2.0
  }

  // ---------------------------------------------------------------------------------------
  // Where the reader is

  /** The prev jump's current message: the last of the leading run of messages that start above
      the anchor, or 0 when the first one does not. */
  function PrevCurrent(tops: seq<real>, anchor: real): (r: nat)
    ensures |tops| > 0 ==> r < |tops|
    ensures |tops| == 0 ==> r == 0
    // every message up to the current one starts above the anchor, unless there is none
    ensures forall j :: 0 <= j <= r && j < |tops| && (r > 0 || tops[0] < anchor) ==> tops[j] < anchor
    // the run ends right after the current message
    ensures r + 1 < |tops| && tops[0] < anchor ==> tops[r + 1] >= anchor
  {
    var run := ActiveIndex.FirstAtLeast(tops, anchor);
    if run == 0 then 0 else run - 1
  }

  /** The message contains the anchor: it starts at or above it and ends below it. */
  predicate Holds(tops: seq<real>, bottoms: seq<real>, anchor: real, i: nat)
    requires |tops| == |bottoms| && i < |tops|
  {
    tops[i] <= anchor && bottoms[i] > anchor
  }

  /** A message that stops the next jump's scan: it holds the anchor or starts below it. */
  predicate Stops(tops: seq<real>, bottoms: seq<real>, anchor: real, i: nat)
    requires |tops| == |bottoms| && i < |tops|
  {
    Holds(tops, bottoms, anchor, i) || tops[i] > anchor
  }

  /** The first message that stops the scan, or `|tops|`. */
  function FirstStop(tops: seq<real>, bottoms: seq<real>, anchor: real): (r: nat)
    requires |tops| == |bottoms|
    ensures r <= |tops|
    ensures forall j :: 0 <= j < r ==> !Stops(tops, bottoms, anchor, j)
    ensures r < |tops| ==> Stops(tops, bottoms, anchor, r)
  {
    if tops == [] then 0
    else if Stops(tops, bottoms, anchor, 0) then 0
    else
      var r := FirstStop(tops[1..], bottoms[1..], anchor);
      assert forall j :: 1 <= j < r + 1 ==>
        (Stops(tops, bottoms, anchor, j) <==> Stops(tops[1..], bottoms[1..], anchor, j - 1));
      r + 1
  }

  /** The next jump's current message: the message holding the anchor, else the one before the
      first message starting below the anchor (at least 0), else the last message. */
  function NextCurrent(tops: seq<real>, bottoms: seq<real>, anchor: real): (r: nat)
    requires |tops| == |bottoms|
    ensures |tops| > 0 ==> r < |tops|
    ensures |tops| == 0 ==> r == 0
    // no earlier message holds the anchor or starts below it
    ensures forall j :: 0 <= j < r && j < |tops| ==> !Stops(tops, bottoms, anchor, j)
    // the current message holds the anchor, or the next one starts below it, or it is the last
    ensures |tops| > 0 ==>
      Holds(tops, bottoms, anchor, r) || r + 1 == |tops| || tops[r + 1] > anchor || (r == 0 && tops[0] > anchor)
    // a current message past the first never starts below the anchor
    ensures 0 < r < |tops| ==> tops[r] <= anchor
  {
    var k := FirstStop(tops, bottoms, anchor);
    assert k > 0 ==> !Stops(tops, bottoms, anchor, k - 1);
    if k == |tops| then (if k == 0 then 0 else k - 1)
    else if Holds(tops, bottoms, anchor, k) then k
    else if k == 0 then 0
    else k - 1
  }

  /** The contract of NextCurrent leaves one answer: any position with its properties is it. */
  lemma NextCurrentIsDetermined(tops: seq<real>, bottoms: seq<real>, anchor: real, r: nat)
    requires |tops| == |bottoms| && r < |tops|
    requires forall j :: 0 <= j < r ==> !Stops(tops, bottoms, anchor, j)
    requires Holds(tops, bottoms, anchor, r) || r + 1 == |tops| || tops[r + 1] > anchor || (r == 0 && tops[0] > anchor)
    requires 0 < r ==> tops[r] <= anchor
    ensures r == NextCurrent(tops, bottoms, anchor)
  {
    var c := NextCurrent(tops, bottoms, anchor);
    // whichever of the two is earlier is no stop, so its successor can be neither a stop nor a
    // message starting below the anchor
    assert c < r ==> !Stops(tops, bottoms, anchor, c);
    assert r < c ==> !Stops(tops, bottoms, anchor, r);
    assert r + 1 < c ==> !Stops(tops, bottoms, anchor, r + 1);
  }

  // ---------------------------------------------------------------------------------------
  // Where to go

  /** The nearest assistant message before position `k`. */
  function LastAssistantBefore(roles: seq<Role>, k: nat): (r: Option<nat>)
    requires k <= |roles|
    ensures r.Some? ==>
      r.value < k && roles[r.value] == Assistant
      && forall j :: r.value < j < k ==> roles[j] != Assistant
    ensures r.None? <==> forall j :: 0 <= j < k ==> roles[j] != Assistant
  {
    if k == 0 then None
    else if roles[k - 1] == Assistant then Some(k - 1)
    else LastAssistantBefore(roles, k - 1)
  }

  /** The nearest assistant message at or after position `k`. */
  function FirstAssistantFrom(roles: seq<Role>, k: nat): (r: Option<nat>)
    requires k <= |roles|
    ensures r.Some? ==>
      k <= r.value < |roles| && roles[r.value] == Assistant
      && forall j :: k <= j < r.value ==> roles[j] != Assistant
    ensures r.None? <==> forall j :: k <= j < |roles| ==> roles[j] != Assistant
    decreases |roles| - k
  {
    if k == |roles| then None
    else if roles[k] == Assistant then Some(k)
    else FirstAssistantFrom(roles, k + 1)
  }

  /** The prev jump's target: the nearest assistant message before the current one, else the
      first assistant message. */
  function PrevTarget(roles: seq<Role>, current: nat): (r: Option<nat>)
    requires current <= |roles|
    ensures r.None? <==> forall j :: 0 <= j < |roles| ==> roles[j] != Assistant
    ensures r.Some? ==> r.value < |roles| && roles[r.value] == Assistant
    ensures r.Some? && r.value < current ==> forall j :: r.value < j < current ==> roles[j] != Assistant
    // wrap-around: nothing above, so the first assistant message of the conversation
    ensures r.Some? && r.value >= current ==>
      forall j :: 0 <= j < r.value ==> roles[j] != Assistant
  {
    match LastAssistantBefore(roles, current)
    case Some(t) => Some(t)
    case None => FirstAssistantFrom(roles, 0)
  }

  /** The next jump's target: the nearest assistant message after the current one, else the last
      assistant message. */
  function NextTarget(roles: seq<Role>, current: nat): (r: Option<nat>)
    requires current < |roles|
    ensures r.None? <==> forall j :: 0 <= j < |roles| ==> roles[j] != Assistant
    ensures r.Some? ==> r.value < |roles| && roles[r.value] == Assistant
    ensures r.Some? && r.value > current ==> forall j :: current < j < r.value ==> roles[j] != Assistant
    // wrap-around: nothing below, so the last assistant message of the conversation
    ensures r.Some? && r.value <= current ==>
      forall j :: r.value < j < |roles| ==> roles[j] != Assistant
  {
    match FirstAssistantFrom(roles, current + 1)
    case Some(t) => Some(t)
    case None => LastAssistantBefore(roles, |roles|)
  }

  /** When the reader is already on the last assistant message, the next jump stays there. */
  lemma NextStaysOnLastAssistant(roles: seq<Role>, current: nat)
    requires current < |roles| && roles[current] == Assistant
    requires forall j :: current < j < |roles| ==> roles[j] != Assistant
    ensures NextTarget(roles, current) == Some(current)
  {
  }

  /** Pressing prev on the first message goes to the first assistant message. */
  lemma PrevFromTopWraps(roles: seq<Role>)
    ensures PrevTarget(roles, 0) == FirstAssistantFrom(roles, 0)
  {
  }
}

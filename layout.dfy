/**
 * The minimap arithmetic of `ChatNavigator.layout` in src/core/navigator.js: how tall the
 * navigator is, how far apart the ticks are, how tall their hit areas are, and where each
 * message's anchor center lies in the scrolled content.
 */
module Layout {
  import opened Geometry

  /** `options.linePitch`: the tick spacing in pixels while everything fits. */
  const LinePitch: real := 10.0
  /** `options.maxHeight`: the height cap, in percent of the viewport height. */
  const MaxHeightVh: real := 100.0
  /** `options.padding`: the space above the first and below the last tick. */
  const Padding: real := 16.0
  /** The room the host keeps for the two jump buttons. */
  const ButtonArea: real := 40.0
  const MinHitHeight: real := 6.0
  const MaxHitHeight: real := 14.0
  const HitFactor: real := 0.85

  /** The height `n` ticks need at the fixed pitch, padding included. */
  function NaturalHeight(n: nat): (r: real)
    requires n >= 1
    ensures r >= 2.0 * Padding
  {
    (n - 1) as real * LinePitch + Padding * 2.0
  }

  /** The cap: `window.innerHeight * (maxHeight / 100)`. */
  function CapHeight(innerHeight: real): real
  {
    innerHeight * (MaxHeightVh / 100.0)
  }

  /** `finalH`: the natural height, capped. */
  function FinalHeight(n: nat, innerHeight: real): (r: real)
    requires n >= 1
    ensures r <= CapHeight(innerHeight) && r <= NaturalHeight(n)
    ensures r == CapHeight(innerHeight) || r == NaturalHeight(n)
  {
    Min(CapHeight(innerHeight), NaturalHeight(n))
  }

  /** The host's height: the lines area plus the buttons. */
  function HostHeight(finalH: real): real
  {
    finalH + ButtonArea
  }

  /** `usableH`: the lines area without its padding, at least one pixel. */
  function UsableHeight(finalH: real): (r: real)
    ensures r >= 1.0
    ensures r >= finalH - 2.0 * Padding
  {
    Max(1.0, finalH - Padding * 2.0)
  }

  /** `actualStep`: the fixed pitch, shrunk so that `n` ticks fit in the usable height; the whole
      usable height for a single message. */
  function Step(n: nat, usable: real): (r: real)
    requires n >= 1 && usable >= 1.0
    ensures r > 0.0
    ensures n > 1 ==> r <= LinePitch && (n - 1) as real * r <= usable
    ensures n == 1 ==> r == usable
  {
    if n > 1 then
      var spread := usable / (n - 1) as real;
      assert (n - 1) as real * spread == usable;
      if LinePitch <= spread then
        assert (n - 1) as real * LinePitch <= (n - 1) as real * spread;
        LinePitch
      else spread
    else usable
  }

  /** `hitH`: 85% of the step, clamped to [6, 14] pixels. */
  function HitHeight(step: real): (r: real)
    ensures MinHitHeight <= r <= MaxHitHeight
    ensures MinHitHeight <= HitFactor * step <= MaxHitHeight ==> r == HitFactor * step
  {
    Min(MaxHitHeight, Max(MinHitHeight, step * HitFactor))
  }

  /** Where tick `i` of `n` sits inside the lines layer: centered for one message, otherwise
      `padding + i * step`. */
  function TickY(n: nat, usable: real, step: real, i: nat): real
  {
    Padding + (if n == 1 then usable / 2.0 else i as real * step)
  }

  /** A message's anchor center: its content offset plus half its height (never less than the
      offset). */
  function Center(top: real, height: real): (r: real)
    ensures r >= top
    ensures height >= 0.0 ==> r == top + height / 2.0
  {
    top + Max(0.0, height / 2.0)
  }

  /** While the natural height fits under the cap, the ticks keep the fixed pitch. */
  lemma UncappedKeepsPitch(n: nat, innerHeight: real)
    requires n > 1 && NaturalHeight(n) <= CapHeight(innerHeight)
    ensures Step(n, UsableHeight(FinalHeight(n, innerHeight))) == LinePitch
  {
    var usable := UsableHeight(FinalHeight(n, innerHeight));
    assert usable == (n - 1) as real * LinePitch;
    assert usable / (n - 1) as real == LinePitch;
  }

  /** The step never exceeds the pitch, and equals it exactly when the uncapped height fits. */
  lemma StepIsPitchIffFits(n: nat, innerHeight: real)
    requires n > 1
    ensures Step(n, UsableHeight(FinalHeight(n, innerHeight))) <= LinePitch
    ensures Step(n, UsableHeight(FinalHeight(n, innerHeight))) == LinePitch <==> NaturalHeight(n) <= CapHeight(innerHeight)
  {
    var usable := UsableHeight(FinalHeight(n, innerHeight));
    var m := (n - 1) as real;
    if NaturalHeight(n) <= CapHeight(innerHeight) {
      UncappedKeepsPitch(n, innerHeight);
    } else {
      // capped: the usable height is below the natural one, so the spread is below the pitch
      assert FinalHeight(n, innerHeight) < NaturalHeight(n);
      assert usable < m * LinePitch;
      assert m * (usable / m) == usable;
      assert usable / m < LinePitch;
    }
  }

  /** Ticks strictly increase with the message index. */
  lemma TicksIncrease(n: nat, usable: real, i: nat, j: nat)
    requires n >= 1 && usable >= 1.0 && i < j < n
    ensures TickY(n, usable, Step(n, usable), i) < TickY(n, usable, Step(n, usable), j)
  {
    var step := Step(n, usable);
    assert (j - i) as real * step > 0.0;
    assert j as real * step == i as real * step + (j - i) as real * step;
  }

  /** Every tick lies within the padded lines area: none is above the top padding, and the last
      is no lower than `padding + usableH`. */
  lemma TicksWithinArea(n: nat, usable: real, i: nat)
    requires n >= 1 && usable >= 1.0 && i < n
    ensures Padding <= TickY(n, usable, Step(n, usable), i) <= Padding + usable
  {
    var step := Step(n, usable);
    if n > 1 {
      // i * step <= (n - 1) * step, because (n - 1 - i) * step is not negative
      assert 0.0 <= (n - 1 - i) as real * step;
      assert (n - 1) as real * step == i as real * step + (n - 1 - i) as real * step;
    }
  }

  /** Five messages in a 1000-pixel viewport: the natural height of 72 pixels fits, the host is
      112 pixels tall and the ticks are 10 pixels apart. */
  lemma FiveMessagesExample()
    ensures FinalHeight(5, 1000.0) == 72.0
    ensures HostHeight(FinalHeight(5, 1000.0)) == 112.0
    ensures Step(5, UsableHeight(FinalHeight(5, 1000.0))) == 10.0
  {
    UncappedKeepsPitch(5, 1000.0);
  }

  /** Two hundred messages in a 1000-pixel viewport: the height is capped at 1000 pixels and the
      968 usable pixels are shared by 199 gaps. */
  lemma TwoHundredMessagesExample()
    ensures FinalHeight(200, 1000.0) == 1000.0
    ensures UsableHeight(FinalHeight(200, 1000.0)) == 968.0
    ensures Step(200, UsableHeight(FinalHeight(200, 1000.0))) == 968.0 / 199.0
  {
  }

  /** Messages laid out one below the other have centers in the same order, so the center list
      of a conversation is sorted. */
  lemma CentersFollowTops(top1: real, height1: real, top2: real, height2: real)
    requires height1 >= 0.0 && height2 >= 0.0 && top1 + height1 <= top2
    ensures Center(top1, height1) <= Center(top2, height2)
  {
  }
}

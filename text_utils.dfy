/**
 * `safeText` and `truncate` of src/core/utils.js: whitespace normalisation of the text a message
 * shows, and its cut-down form for the hover preview.
 *
 * `safeText` is a chain of global regular-expression replacements followed by `trim()`. Each
 * replacement is modelled by a fold from the right over the string; the comment on each fold
 * says why it rewrites exactly what the left-to-right global replacement rewrites.
 */
module TextUtils {
  import opened Strings

  const Nbsp: char := '\U{A0}'

  /** The suffix `truncate` appends. The source file holds the UTF-8 bytes of '…' read as
      Windows-1252, so the literal is three characters long, not one. */
  const Ellipsis: string := "\U{E2}\U{20AC}\U{A6}"

  // ---------------------------------------------------------------------------------------
  // The shape `safeText` promises
  // ---------------------------------------------------------------------------------------

  predicate NoNbsp(s: string)
  {
    forall i :: 0 <= i < |s| ==> s[i] != Nbsp
  }

  predicate NoBlankBeforeNewline(s: string)
  {
    forall i :: 0 <= i < |s| - 1 ==> !(IsBlank(s[i]) && s[i + 1] == '\n')
  }

  predicate NoBlankAfterNewline(s: string)
  {
    forall i :: 0 <= i < |s| - 1 ==> !(s[i] == '\n' && IsBlank(s[i + 1]))
  }

  predicate NoDoubleBlank(s: string)
  {
    forall i :: 0 <= i < |s| - 1 ==> !(IsBlank(s[i]) && IsBlank(s[i + 1]))
  }

  predicate NoTripleNewline(s: string)
  {
    forall i :: 0 <= i < |s| - 2 ==> !(s[i] == '\n' && s[i + 1] == '\n' && s[i + 2] == '\n')
  }

  predicate Trimmed(s: string)
  {
    s == [] || (!IsJsWhitespace(s[0]) && !IsJsWhitespace(s[|s| - 1]))
  }

  /** Blanks stand neither next to each other nor next to a newline. */
  predicate BlanksTidy(s: string)
  {
    NoBlankBeforeNewline(s) && NoBlankAfterNewline(s) && NoDoubleBlank(s)
  }

  predicate Normalized(s: string)
  {
    NoNbsp(s) && BlanksTidy(s) && NoTripleNewline(s) && Trimmed(s)
  }

  /** The characters of `s` that are not whitespace, in order: the text a reader sees. */
  function Visible(s: string): string
  {
    if s == [] then [] else (if IsJsWhitespace(s[0]) then [] else [s[0]]) + Visible(s[1..])
  }

  // ---------------------------------------------------------------------------------------
  // The replacement passes
  // ---------------------------------------------------------------------------------------

  /** `.replace(/\u00a0/g, ' ')` */
  function ReplaceNbsp(s: string): (r: string)
    ensures |r| == |s| && NoNbsp(r)
    ensures forall i :: 0 <= i < |s| ==> r[i] == (if s[i] == Nbsp then ' ' else s[i])
  {
    seq(|s|, i requires 0 <= i < |s| => if s[i] == Nbsp then ' ' else s[i])
  }

  /** `.replace(/[ \t]+\n/g, '\n')`. A blank is deleted exactly when its run of blanks ends in a
      newline. Folding from the right, `rest` already starts with that newline precisely when the
      first character after the blank that is not a blank is a newline. */
  function StripBlanksBeforeNewline(s: string): (r: string)
    ensures NoBlankBeforeNewline(r)
    ensures NoNbsp(s) ==> NoNbsp(r)
  {
    if s == [] then []
    else
      var rest := StripBlanksBeforeNewline(s[1..]);
      if IsBlank(s[0]) && rest != [] && rest[0] == '\n' then rest else [s[0]] + rest
  }

  /** Drops the leading blanks. */
  function DropBlanks(s: string): (r: string)
    ensures |r| <= |s| && r == s[|s| - |r|..]
    ensures r == [] || !IsBlank(r[0])
    ensures forall i :: 0 <= i < |s| - |r| ==> IsBlank(s[i])
  {
    if s != [] && IsBlank(s[0]) then
      var r := DropBlanks(s[1..]);
      assert r == s[|s| - |r|..];
      assert forall i :: 1 <= i < |s| - |r| ==> s[i] == s[1..][i - 1];
      r
    else s
  }

  /** `.replace(/\n[ \t]+/g, '\n')`. The blanks right after a newline are deleted. No newline
      deletes blanks of `s[1..]` that lead it, so `rest` starts with the same blanks as `s[1..]`,
      and a leading newline deletes them from `rest`. */
  function StripBlanksAfterNewline(s: string): (r: string)
    requires NoBlankBeforeNewline(s)
    ensures NoBlankBeforeNewline(r) && NoBlankAfterNewline(r)
    ensures |s| > 0 ==> |r| > 0 && r[0] == s[0]
    ensures NoNbsp(s) ==> NoNbsp(r)
  {
    if s == [] then []
    else
      var rest := StripBlanksAfterNewline(s[1..]);
      if s[0] == '\n' then
        var d := DropBlanks(rest);
        NewlinePairsOfSuffix(rest, |rest| - |d|);
        NewlineThenTidy(d);
        ['\n'] + d
      else
        CharThenTidy(s[0], rest);
        [s[0]] + rest
  }

  /** A newline in front of a tidy text that does not start with a blank keeps it tidy. */
  lemma NewlineThenTidy(d: string)
    requires NoBlankBeforeNewline(d) && NoBlankAfterNewline(d) && (d == [] || !IsBlank(d[0]))
    ensures NoBlankBeforeNewline(['\n'] + d) && NoBlankAfterNewline(['\n'] + d)
    ensures NoNbsp(d) ==> NoNbsp(['\n'] + d)
  {
    var r := ['\n'] + d;
    assert forall i :: 1 <= i < |r| ==> r[i] == d[i - 1];
  }

  /** Any other character in front of a tidy text keeps it tidy, unless it is a blank in front
      of a newline. */
  lemma CharThenTidy(c: char, rest: string)
    requires c != '\n' && NoBlankBeforeNewline(rest) && NoBlankAfterNewline(rest)
    requires !(IsBlank(c) && rest != [] && rest[0] == '\n')
    ensures NoBlankBeforeNewline([c] + rest) && NoBlankAfterNewline([c] + rest)
    ensures c != Nbsp && NoNbsp(rest) ==> NoNbsp([c] + rest)
  {
    var r := [c] + rest;
    assert forall i :: 1 <= i < |r| ==> r[i] == rest[i - 1];
  }

  /** A suffix has no blank-newline pair that the whole text lacks. */
  lemma NewlinePairsOfSuffix(s: string, k: nat)
    requires k <= |s| && NoBlankBeforeNewline(s) && NoBlankAfterNewline(s)
    ensures NoBlankBeforeNewline(s[k..]) && NoBlankAfterNewline(s[k..])
    ensures NoNbsp(s) ==> NoNbsp(s[k..])
  {
    assert forall i :: 0 <= i < |s| - k ==> s[k..][i] == s[k + i];
  }

  /** `.replace(/[ \t]{2,}/g, ' ')`. Folding from the right, a blank followed by a blank in
      `rest` belongs to a run of two or more, whose remainder `rest` has already collapsed to
      one blank; the pair becomes a single space. A lone blank, tab included, is kept. */
  function CollapseBlankRuns(s: string): (r: string)
    requires NoBlankBeforeNewline(s) && NoBlankAfterNewline(s)
    ensures BlanksTidy(r)
    ensures |s| > 0 ==> |r| > 0 && (r[0] == s[0] || (IsBlank(s[0]) && r[0] == ' '))
    ensures NoNbsp(s) ==> NoNbsp(r)
  {
    if s == [] then []
    else
      var rest := CollapseBlankRuns(s[1..]);
      if IsBlank(s[0]) && rest != [] && IsBlank(rest[0]) then [' '] + rest[1..] else [s[0]] + rest
  }

  /** `.replace(/\n{3,}/g, '\n\n')`. Folding from the right, a newline in front of two
      newlines is dropped, so every run of newlines keeps at most two. */
  function CollapseNewlineRuns(s: string): (r: string)
    requires BlanksTidy(s)
    ensures BlanksTidy(r) && NoTripleNewline(r)
    ensures |s| > 0 ==> |r| > 0 && r[0] == s[0]
    ensures NoNbsp(s) ==> NoNbsp(r)
  {
    if s == [] then []
    else
      var rest := CollapseNewlineRuns(s[1..]);
      if s[0] == '\n' && |rest| >= 2 && rest[0] == '\n' && rest[1] == '\n' then rest else [s[0]] + rest
  }

  // ---------------------------------------------------------------------------------------
  // safeText and truncate
  // ---------------------------------------------------------------------------------------

  /** `utils.safeText`: the empty (falsy) text gives ''; any other text comes out with no
      no-break space, no two blanks in a row, no blank next to a newline, no run of three
      newlines and no whitespace at either end. */
  function SafeText(text: string): (r: string)
    ensures text == [] ==> r == []
    ensures Normalized(r)
  {
    if text == [] then []
    else
      var s := CollapseNewlineRuns(CollapseBlankRuns(StripBlanksAfterNewline(StripBlanksBeforeNewline(ReplaceNbsp(text)))));
      TrimKeepsShape(s);
      Trim(s)
  }

  /** Every piece of a text keeps the shape of the text. */
  lemma SliceKeepsShape(s: string, lo: nat, hi: nat)
    requires lo <= hi <= |s|
    requires NoNbsp(s) && BlanksTidy(s) && NoTripleNewline(s)
    ensures var t := s[lo..hi]; NoNbsp(t) && BlanksTidy(t) && NoTripleNewline(t)
  {
    var t := s[lo..hi];
    assert forall i :: 0 <= i < |t| ==> t[i] == s[lo + i];
  }

  lemma {:induction false} TrimStartKeepsShape(s: string)
    requires NoNbsp(s) && BlanksTidy(s) && NoTripleNewline(s)
    ensures var t := TrimStart(s); NoNbsp(t) && BlanksTidy(t) && NoTripleNewline(t)
  {
    if s != [] && IsJsWhitespace(s[0]) {
      SliceKeepsShape(s, 1, |s|);
      TrimStartKeepsShape(s[1..]);
    }
  }

  lemma TrimEndKeepsShape(t: string)
    requires NoNbsp(t) && BlanksTidy(t) && NoTripleNewline(t)
    ensures var r := TrimEnd(t); NoNbsp(r) && BlanksTidy(r) && NoTripleNewline(r)
  {
    var r := TrimEnd(t);
    assert r == t[0..|r|];
    SliceKeepsShape(t, 0, |r|);
  }

  /** `trim()` leaves no whitespace at either end. */
  lemma TrimIsTrimmed(s: string)
    ensures Trimmed(Trim(s))
  {
    var t := TrimStart(s);
    var r := TrimEnd(t);
    if r != [] {
      assert r[0] == t[0];
    }
  }

  lemma TrimKeepsShape(s: string)
    requires NoNbsp(s) && BlanksTidy(s) && NoTripleNewline(s)
    ensures Normalized(Trim(s))
  {
    TrimStartKeepsShape(s);
    TrimEndKeepsShape(TrimStart(s));
    TrimIsTrimmed(s);
  }

  function Max(a: int, b: int): int
  {
    if a < b then b else a
  }

  /** The cut `truncate` applies to an already normalised text `t`. A text that fits is
      returned whole; a longer one is cut to its first `max(0, maxLen - 1)` characters, loses
      the whitespace the cut leaves at its end, and gets the suffix. */
  function Cut(t: string, maxLen: int): (r: string)
    ensures |t| <= maxLen ==> r == t
    ensures |t| > maxLen ==>
      var kept := |r| - |Ellipsis|;
      && 0 <= kept <= Max(0, maxLen - 1)
      && r[kept..] == Ellipsis
      && r[..kept] == t[..kept]
      && (kept == 0 || !IsJsWhitespace(r[kept - 1]))
      && (forall i :: kept <= i < Max(0, maxLen - 1) ==> IsJsWhitespace(t[i]))
  {
    if |t| <= maxLen then t else TrimEnd(t[..Max(0, maxLen - 1)]) + Ellipsis
  }

  /** `utils.truncate(text, maxLen)`: the normalised text, cut when it is longer than `maxLen`. */
  function Truncate(text: string, maxLen: int): (r: string)
    ensures |SafeText(text)| <= maxLen ==> r == SafeText(text)
    ensures |SafeText(text)| > maxLen ==> |r| >= |Ellipsis| && r[|r| - |Ellipsis|..] == Ellipsis
    // the three-character suffix makes a cut result up to two characters longer than `maxLen`
    ensures maxLen >= 1 ==> |r| <= maxLen + 2
  {
    Cut(SafeText(text), maxLen)
  }

  /** A cut that lands on visible text leaves no whitespace to drop: the result is exactly
      `maxLen - 1` characters of the text and the suffix, two more than `maxLen`. */
  lemma CutOverrun(t: string, maxLen: int)
    requires maxLen >= 2 && |t| > maxLen
    requires !IsJsWhitespace(t[maxLen - 2])
    ensures Cut(t, maxLen) == t[..maxLen - 1] + Ellipsis
    ensures |Cut(t, maxLen)| == maxLen + 2
  {
    var cut := t[..maxLen - 1];
    assert |cut| == maxLen - 1 && cut[|cut| - 1] == t[maxLen - 2];
    assert TrimEnd(cut) == cut;
  }

  // ---------------------------------------------------------------------------------------
  // safeText keeps the visible text
  // ---------------------------------------------------------------------------------------

  lemma {:induction false} VisibleAppend(a: string, b: string)
    ensures Visible(a + b) == Visible(a) + Visible(b)
  {
    if a == [] {
      assert a + b == b;
    } else {
      var head := if IsJsWhitespace(a[0]) then [] else [a[0]];
      calc {
        Visible(a + b);
        { assert (a + b)[0] == a[0]; assert (a + b)[1..] == a[1..] + b; }
        head + Visible(a[1..] + b);
        { VisibleAppend(a[1..], b); }
        head + (Visible(a[1..]) + Visible(b));
        (head + Visible(a[1..])) + Visible(b);
      }
    }
  }

  lemma {:induction false} VisibleDropsWhitespace(s: string, k: nat)
    requires k <= |s|
    requires forall i :: 0 <= i < k ==> IsJsWhitespace(s[i])
    ensures Visible(s[k..]) == Visible(s)
  {
    if k > 0 {
      assert s[1..][k - 1..] == s[k..];
      VisibleDropsWhitespace(s[1..], k - 1);
    }
  }

  lemma {:induction false} VisibleTrimEnd(s: string)
    ensures Visible(TrimEnd(s)) == Visible(s)
  {
    var r := TrimEnd(s);
    assert s == r + s[|r|..];
    VisibleAppend(r, s[|r|..]);
    VisibleDropsWhitespace(s[|r|..], |s| - |r|);
    assert s[|r|..][|s| - |r|..] == [];
  }

  lemma {:induction false} VisibleReplaceNbsp(s: string)
    ensures Visible(ReplaceNbsp(s)) == Visible(s)
  {
    if s != [] {
      assert ReplaceNbsp(s)[1..] == ReplaceNbsp(s[1..]);
      VisibleReplaceNbsp(s[1..]);
    }
  }

  lemma {:induction false} VisibleStripBefore(s: string)
    ensures Visible(StripBlanksBeforeNewline(s)) == Visible(s)
  {
    if s != [] {
      VisibleStripBefore(s[1..]);
      var rest := StripBlanksBeforeNewline(s[1..]);
      assert ([s[0]] + rest)[1..] == rest;
    }
  }

  lemma {:induction false} VisibleStripAfter(s: string)
    requires NoBlankBeforeNewline(s)
    ensures Visible(StripBlanksAfterNewline(s)) == Visible(s)
  {
    if s != [] {
      VisibleStripAfter(s[1..]);
      var rest := StripBlanksAfterNewline(s[1..]);
      assert ([s[0]] + rest)[1..] == rest;
      if s[0] == '\n' {
        var d := DropBlanks(rest);
        VisibleDropsWhitespace(rest, |rest| - |d|);
        assert (['\n'] + d)[1..] == d;
      }
    }
  }

  lemma {:induction false} VisibleCollapseBlanks(s: string)
    requires NoBlankBeforeNewline(s) && NoBlankAfterNewline(s)
    ensures Visible(CollapseBlankRuns(s)) == Visible(s)
  {
    if s != [] {
      VisibleCollapseBlanks(s[1..]);
      var rest := CollapseBlankRuns(s[1..]);
      assert ([s[0]] + rest)[1..] == rest;
      if IsBlank(s[0]) && rest != [] && IsBlank(rest[0]) {
        assert ([' '] + rest[1..])[1..] == rest[1..];
        VisibleDropsWhitespace(rest, 1);
      }
    }
  }

  lemma {:induction false} VisibleCollapseNewlines(s: string)
    requires BlanksTidy(s)
    ensures Visible(CollapseNewlineRuns(s)) == Visible(s)
  {
    if s != [] {
      VisibleCollapseNewlines(s[1..]);
      var rest := CollapseNewlineRuns(s[1..]);
      assert ([s[0]] + rest)[1..] == rest;
    }
  }

  /** Normalising changes only whitespace: the visible characters come out all there, in order. */
  lemma SafeTextKeepsVisible(text: string)
    ensures Visible(SafeText(text)) == Visible(text)
  {
    if text != [] {
      var a := ReplaceNbsp(text);
      var b := StripBlanksBeforeNewline(a);
      var c := StripBlanksAfterNewline(b);
      var d := CollapseBlankRuns(c);
      var e := CollapseNewlineRuns(d);
      VisibleReplaceNbsp(text);
      VisibleStripBefore(a);
      VisibleStripAfter(b);
      VisibleCollapseBlanks(c);
      VisibleCollapseNewlines(d);
      var t := TrimStart(e);
      VisibleDropsWhitespace(e, |e| - |t|);
      VisibleTrimEnd(t);
    }
  }

  // ---------------------------------------------------------------------------------------
  // safeText is idempotent
  // ---------------------------------------------------------------------------------------

  lemma {:induction false} StripBeforeKeepsTidy(s: string)
    requires NoBlankBeforeNewline(s)
    ensures StripBlanksBeforeNewline(s) == s
  {
    if s != [] {
      StripBeforeKeepsTidy(s[1..]);
      assert [s[0]] + s[1..] == s;
    }
  }

  lemma {:induction false} StripAfterKeepsTidy(s: string)
    requires NoBlankBeforeNewline(s) && NoBlankAfterNewline(s)
    ensures StripBlanksAfterNewline(s) == s
  {
    if s != [] {
      StripAfterKeepsTidy(s[1..]);
      assert [s[0]] + s[1..] == s;
      if s[0] == '\n' && |s| > 1 {
        assert !IsBlank(s[1]);
      }
    }
  }

  lemma {:induction false} CollapseBlanksKeepsTidy(s: string)
    requires BlanksTidy(s)
    ensures CollapseBlankRuns(s) == s
  {
    if s != [] {
      CollapseBlanksKeepsTidy(s[1..]);
      assert [s[0]] + s[1..] == s;
    }
  }

  lemma {:induction false} CollapseNewlinesKeepsTidy(s: string)
    requires BlanksTidy(s) && NoTripleNewline(s)
    ensures CollapseNewlineRuns(s) == s
  {
    if s != [] {
      CollapseNewlinesKeepsTidy(s[1..]);
      assert [s[0]] + s[1..] == s;
    }
  }

  /** Normalising a normalised text changes nothing. */
  lemma SafeTextIdempotent(text: string)
    ensures SafeText(SafeText(text)) == SafeText(text)
  {
    var t := SafeText(text);
    if t != [] {
      assert ReplaceNbsp(t) == t;
      StripBeforeKeepsTidy(t);
      StripAfterKeepsTidy(t);
      CollapseBlanksKeepsTidy(t);
      CollapseNewlinesKeepsTidy(t);
      assert TrimStart(t) == t;
      assert TrimEnd(t) == t;
    }
  }
}

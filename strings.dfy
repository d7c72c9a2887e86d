/**
 * String helpers shared by the text utilities and the site adapters.
 * A string is a sequence of Unicode scalar values.
 */
module Strings {

  /** The characters JavaScript's `trim` and `trimEnd` strip: ECMAScript WhiteSpace and LineTerminator. */
  predicate IsJsWhitespace(c: char)
  {
    c == '\t' || c == '\n' || c == '\U{B}' || c == '\U{C}' || c == '\r' || c == ' ' ||
    c == '\U{A0}' || c == '\U{1680}' || ('\U{2000}' <= c <= '\U{200A}') ||
    c == '\U{2028}' || c == '\U{2029}' || c == '\U{202F}' || c == '\U{205F}' ||
    c == '\U{3000}' || c == '\U{FEFF}'
  }

  /** The character class `[ \t]` of the source's regular expressions. */
  predicate IsBlank(c: char)
  {
    c == ' ' || c == '\t'
  }

  /** `s.trimStart()`: drops the leading whitespace and nothing else. */
  function TrimStart(s: string): (r: string)
    ensures |r| <= |s| && r == s[|s| - |r|..]
    ensures r == [] || !IsJsWhitespace(r[0])
    ensures forall i :: 0 <= i < |s| - |r| ==> IsJsWhitespace(s[i])
  {
    if s == [] || !IsJsWhitespace(s[0]) then s else TrimStart(s[1..])
  }

  /** `s.trimEnd()`: drops the trailing whitespace and nothing else. */
  function TrimEnd(s: string): (r: string)
    ensures |r| <= |s| && r == s[..|r|]
    ensures r == [] || !IsJsWhitespace(r[|r| - 1])
    ensures forall i :: |r| <= i < |s| ==> IsJsWhitespace(s[i])
  {
    if s == [] || !IsJsWhitespace(s[|s| - 1]) then s else TrimEnd(s[..|s| - 1])
  }

  /** `s.trim()`. */
  function Trim(s: string): string
  {
    TrimEnd(TrimStart(s))
  }

  /** Lower-casing of one character, restricted to ASCII. Full Unicode case mapping differs in two
      ways that reach ASCII: U+0130 (capital I with dot above) becomes "i" followed by U+0307, which
      also changes the length, and U+212A (Kelvin sign) becomes "k". Every comparison the adapters
      make after `toLowerCase()` is against "you", "\n you\n", "user-query" or "model-response",
      none of which holds an "i", a "k" or U+0307, so the decisions are the same as with full
      Unicode case mapping. */
  function AsciiLower(c: char): (r: char)
    ensures 'A' <= c <= 'Z' ==> r as int == c as int + 32
    ensures !('A' <= c <= 'Z') ==> r == c
  {
    if 'A' <= c <= 'Z' then (c as int + 32) as char else c
  }

  function LowerCase(s: string): (r: string)
    ensures |r| == |s| && forall i :: 0 <= i < |s| ==> r[i] == AsciiLower(s[i])
  {
    seq(|s|, i requires 0 <= i < |s| => AsciiLower(s[i]))
  }

  /** `s.startsWith(p)`. */
  predicate StartsWith(s: string, p: string)
  {
    |p| <= |s| && s[..|p|] == p
  }

  /** `p` occurs in `s` starting at position `k`. */
  predicate OccursAt(s: string, p: string, k: int)
  {
    0 <= k && k + |p| <= |s| && s[k..k + |p|] == p
  }

  /** `s.includes(p)`, scanning start positions from the left. */
  function Contains(s: string, p: string): (r: bool)
    ensures r <==> exists k :: OccursAt(s, p, k)
    decreases |s|
  {
    if StartsWith(s, p) then
      assert OccursAt(s, p, 0);
      true
    else if s == [] then
      false
    else
      var r := Contains(s[1..], p);
      assert !OccursAt(s, p, 0);
      assert forall k :: OccursAt(s[1..], p, k) ==> OccursAt(s, p, k + 1);
      assert forall k :: OccursAt(s, p, k) && k > 0 ==> OccursAt(s[1..], p, k - 1);
      r
  }

  /** The regular expression `/(^|\.)D$/` tested against `host`, for a literal domain `D`:
      the host is the domain itself or one of its subdomains. */
  function MatchesDomain(host: string, domain: string): (r: bool)
    ensures r <==> exists k :: 0 <= k <= |host| && host[k..] == domain && (k == 0 || host[k - 1] == '.')
  {
    var k := |host| - |domain|;
    if 0 <= k && host[k..] == domain && (k == 0 || host[k - 1] == '.') then
      true
    else
      assert forall j :: 0 <= j <= |host| && host[j..] == domain ==> j == k;
      false
  }

  /** `s.endsWith(p)`. */
  predicate EndsWith(s: string, p: string)
  {
    |p| <= |s| && s[|s| - |p|..] == p
  }

  /** A host name is on a domain when it is the domain or ends in a dot followed by the domain. */
  predicate OnDomain(host: string, domain: string)
  {
    host == domain || EndsWith(host, "." + domain)
  }

  /** The anchored regular expression and the suffix reading agree. */
  lemma MatchesDomainOnDomain(host: string, domain: string)
    ensures MatchesDomain(host, domain) <==> OnDomain(host, domain)
  {
    var k := |host| - |domain|;
    if MatchesDomain(host, domain) {
      if k > 0 {
        assert host[k - 1..] == "." + domain;
      }
    }
    if OnDomain(host, domain) && host != domain {
      assert host[k..] == domain by {
        assert host[k - 1..] == "." + domain;
      }
    }
  }

  function DigitChar(d: nat): (c: char)
    requires d < 10
    ensures '0' <= c <= '9' && c as int - '0' as int == d
  {
    ('0' as int + d) as char
  }

  /** `String(n)` for a natural number: its decimal digits, no leading zeros. */
  function NatToString(n: nat): (r: string)
    ensures |r| >= 1
    ensures forall i :: 0 <= i < |r| ==> '0' <= r[i] <= '9'
    ensures n >= 10 ==> r[0] != '0'
  {
    if n < 10 then [DigitChar(n)] else NatToString(n / 10) + [DigitChar(n % 10)]
  }

  /** Reads a string of decimal digits back as a number; the partner of NatToString. */
  function ParseDecimal(s: string): nat
    requires forall i :: 0 <= i < |s| ==> '0' <= s[i] <= '9'
  {
    if s == [] then 0 else ParseDecimal(s[..|s| - 1]) * 10 + (s[|s| - 1] as int - '0' as int)
  }

  /** Printing then reading a number gives the number back. */
  lemma {:induction false} ParseNatToString(n: nat)
    ensures ParseDecimal(NatToString(n)) == n
  {
    var s := NatToString(n);
    if n >= 10 {
      ParseNatToString(n / 10);
      assert s[..|s| - 1] == NatToString(n / 10);
    }
  }

  /** Distinct numbers print differently. */
  lemma NatToStringInjective(m: nat, n: nat)
    requires NatToString(m) == NatToString(n)
    ensures m == n
  {
    ParseNatToString(m);
    ParseNatToString(n);
  }
}

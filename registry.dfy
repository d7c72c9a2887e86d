/**
 * `registry.getAdapter()` of src/adapters/registry.js: build the candidate list, then return the
 * first candidate whose `isMatch()` is true, treating a throwing `isMatch()` as a non-match.
 */
module Registry {
  import opened Optional
  import ChatGptAdapter

  datatype AdapterKind = ChatGpt | Gemini

  /** What a candidate's `isMatch()` did. */
  datatype MatchOutcome = Matched | NotMatched | Threw

  /** The candidate list: a `ChatGPTAdapter` when that class is loaded, and nothing else. */
  function Candidates(chatGptDefined: bool): (r: seq<AdapterKind>)
    ensures Gemini !in r
    ensures ChatGpt in r <==> chatGptDefined
  {
    if chatGptDefined then [ChatGpt] else []
  }

  /** The `for ... of` scan: the position of the first candidate whose outcome is `Matched`. */
  method FirstMatch(candidates: seq<AdapterKind>, outcome: AdapterKind -> MatchOutcome) returns (r: Option<nat>)
    ensures r.Some? ==>
      r.value < |candidates| && outcome(candidates[r.value]) == Matched
      && forall j :: 0 <= j < r.value ==> outcome(candidates[j]) != Matched
    ensures r.None? <==> forall j :: 0 <= j < |candidates| ==> outcome(candidates[j]) != Matched
  {
    var i := 0;
    while i < |candidates|
      invariant 0 <= i <= |candidates|
      invariant forall j :: 0 <= j < i ==> outcome(candidates[j]) != Matched
    {
      // a throwing candidate is skipped like a non-matching one
      if outcome(candidates[i]) == Matched {
        return Some(i);
      }
      i := i + 1;
    }
    return None;
  }

  /** `registry.getAdapter()` on a page at `hostname`. `chatGptThrows` says whether the ChatGPT
      adapter's `isMatch()` throws. */
  method GetAdapter(chatGptDefined: bool, hostname: string, chatGptThrows: bool) returns (r: Option<AdapterKind>)
    ensures r == Some(ChatGpt) <==> chatGptDefined && !chatGptThrows && ChatGptAdapter.IsMatch(hostname)
    // the Gemini adapter is never chosen, even on a Gemini host
    ensures r != Some(Gemini)
  {
    var candidates := Candidates(chatGptDefined);
    // only the ChatGPT adapter is ever asked
    var outcome := (a: AdapterKind) =>
      if chatGptThrows then Threw
      else if ChatGptAdapter.IsMatch(hostname) then Matched
      else NotMatched;
    var found := FirstMatch(candidates, outcome);
    if found.Some? {
      return Some(candidates[found.value]);
    }
    return None;
  }
}

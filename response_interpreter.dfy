/**
 * How a raw reply of the language model is read (App.tsx, the inner `try`
 * of `handleSendMessage`): the greedy regular expression `/\{[\s\S]*\}/`
 * picks a candidate span, `JSON.parse` turns it into a response, and any
 * failure falls back to the raw text.
 */
module ResponseInterpreter {
  import opened Wrappers
  import opened Types

  /** The index of the first `c` in `s`, if any. */
  function FirstIndexOf(s: string, c: char): (r: Option<nat>)
    ensures r.Some? ==> r.value < |s| && s[r.value] == c
    ensures r.Some? ==> forall k :: 0 <= k < r.value ==> s[k] != c
    ensures r.None? ==> forall k :: 0 <= k < |s| ==> s[k] != c
  {
    if s == [] then None
    else if s[0] == c then Some(0)
    else match FirstIndexOf(s[1..], c)
      case None => None
      case Some(k) => Some(k + 1)
  }

  /** The index of the last `c` in `s`, if any. */
  function LastIndexOf(s: string, c: char): (r: Option<nat>)
    ensures r.Some? ==> r.value < |s| && s[r.value] == c
    ensures r.Some? ==> forall k :: r.value < k < |s| ==> s[k] != c
    ensures r.None? ==> forall k :: 0 <= k < |s| ==> s[k] != c
  {
    if s == [] then None
    else if s[|s| - 1] == c then Some(|s| - 1)
    else LastIndexOf(s[..|s| - 1], c)
  }

  /** Some `{` in `s` is followed, somewhere later, by a `}`. */
  predicate HasBracePair(s: string) {
    exists a, b :: 0 <= a < b < |s| && s[a] == '{' && s[b] == '}'
  }

  /**
   * Where `/\{[\s\S]*\}/` matches in `s`: the match starts at the leftmost
   * `{` from which a match is possible, and the greedy `[\s\S]*` makes it
   * end at the rightmost `}` after that start.
   */
  predicate IsRegexMatch(s: string, i: int, j: int) {
    0 <= i < j < |s| && s[i] == '{' && s[j] == '}' &&
    (forall a :: 0 <= a < i ==> s[a] != '{') &&
    (forall b :: j < b < |s| ==> s[b] != '}')
  }

  /**
   * `responseText.match(/\{[\s\S]*\}/)`: the text from the first `{` to
   * the last `}`, when that `}` lies after that `{`.
   */
  function ExtractJsonSpan(s: string): (r: Option<string>)
    ensures r.Some? ==> |r.value| >= 2 && r.value[0] == '{' && r.value[|r.value| - 1] == '}'
  {
    match (FirstIndexOf(s, '{'), LastIndexOf(s, '}'))
    case (Some(i), Some(j)) => if i < j then Some(s[i..j + 1]) else None
    case _ => None
  }

  /** The span found is where the regular expression matches. */
  lemma ExtractedSpanIsRegexMatch(s: string)
    requires ExtractJsonSpan(s).Some?
    ensures exists i, j :: IsRegexMatch(s, i, j) && ExtractJsonSpan(s).value == s[i..j + 1]
  {
    var i, j := FirstIndexOf(s, '{').value, LastIndexOf(s, '}').value;
    assert IsRegexMatch(s, i, j);
  }

  /** Wherever the regular expression matches, that is the span found. */
  lemma RegexMatchIsExtracted(s: string, i: int, j: int)
    requires IsRegexMatch(s, i, j)
    ensures ExtractJsonSpan(s) == Some(s[i..j + 1])
  {
    var f, l := FirstIndexOf(s, '{'), LastIndexOf(s, '}');
    assert f == Some(i) by {
      assert f.Some? ==> !(f.value < i) && !(i < f.value);
    }
    assert l == Some(j) by {
      assert l.Some? ==> !(l.value < j) && !(j < l.value);
    }
  }

  /**
   * No span is found exactly when no `{` is followed by a `}`: the
   * "JSON structure not found" error of App.tsx.
   */
  lemma NoSpanIffNoBracePair(s: string)
    ensures ExtractJsonSpan(s).None? <==> !HasBracePair(s)
  {
    var f, l := FirstIndexOf(s, '{'), LastIndexOf(s, '}');
    if HasBracePair(s) {
      var a, b :| 0 <= a < b < |s| && s[a] == '{' && s[b] == '}';
      assert f.Some? && f.value <= a;
      assert l.Some? && b <= l.value;
    }
    if ExtractJsonSpan(s).Some? {
      assert s[f.value] == '{' && s[l.value] == '}';
    }
  }

  /** A reply that is one brace-delimited block is taken whole. */
  lemma WholeObjectIsExtracted(s: string)
    requires |s| >= 2 && s[0] == '{' && s[|s| - 1] == '}'
    ensures ExtractJsonSpan(s) == Some(s)
  {
    RegexMatchIsExtracted(s, 0, |s| - 1);
    assert s[0..|s|] == s;
  }

  /** The known over-capture: two separate blocks in prose come out as one span. */
  lemma OverCaptureExample()
    ensures ExtractJsonSpan("a {x} b {y}") == Some("{x} b {y}")
  {
    var s := "a {x} b {y}";
    assert s[0] != '{' && s[1] != '{';
    RegexMatchIsExtracted(s, 2, 10);
    assert s[2..11] == "{x} b {y}";
  }

  /**
   * How the inner `try` ends: the parsed response, the regular
   * expression finding nothing, or `JSON.parse` rejecting the span.
   */
  datatype Interpretation =
    | Parsed(response: SimulationResponse)
    | SpanNotFound
    | InvalidJson(span: string)

  /**
   * Reads a raw reply. `parse` stands for `JSON.parse` followed by the
   * unchecked cast to `AISimulationResponse`: `None` is a thrown
   * `SyntaxError`.
   */
  function Interpret(text: string, parse: string -> Option<SimulationResponse>): (r: Interpretation)
    ensures r.Parsed? ==> exists i, j :: IsRegexMatch(text, i, j) && parse(text[i..j + 1]) == Some(r.response)
    ensures r.InvalidJson? ==> exists i, j :: IsRegexMatch(text, i, j) && r.span == text[i..j + 1] && parse(r.span) == None
    ensures r.SpanNotFound? ==> !HasBracePair(text)
  {
    match ExtractJsonSpan(text)
    case None => NoSpanIffNoBracePair(text); SpanNotFound
    case Some(span) =>
      ExtractedSpanIsRegexMatch(text);
      match parse(span)
      case Some(response) => Parsed(response)
      case None => InvalidJson(span)
  }

  /**
   * Conversely, whenever the regular expression matches, the outcome is
   * decided by parsing that match alone: its response if it parses, the
   * match itself as invalid JSON if it does not.
   */
  lemma InterpretOfMatch(text: string, parse: string -> Option<SimulationResponse>, i: int, j: int)
    requires IsRegexMatch(text, i, j)
    ensures parse(text[i..j + 1]).Some? ==> Interpret(text, parse) == Parsed(parse(text[i..j + 1]).value)
    ensures parse(text[i..j + 1]).None? ==> Interpret(text, parse) == InvalidJson(text[i..j + 1])
  {
    RegexMatchIsExtracted(text, i, j);
  }

  /** A reply with no `{` followed by a `}` is never handed to the parser. */
  lemma NoBracePairFallsBack(text: string, parse: string -> Option<SimulationResponse>)
    ensures Interpret(text, parse).SpanNotFound? <==> !HasBracePair(text)
  {
    NoSpanIffNoBracePair(text);
  }
}

/** The comment drawer's input box: a submit that forwards the box's text when
    it holds anything besides white space and then empties the box, the submit
    button enabled under the same test, and an AI suggestion that replaces the
    box's text when it arrives. */
module CommentDrawer {
  import opened Types

  /** The characters JavaScript's `String.prototype.trim` strips: the
      ECMAScript WhiteSpace (tab, vertical tab, form feed, byte order mark and
      every space separator) and LineTerminator code points. */
  predicate IsJsWhitespace(c: char)
  {
    || c == '\t' || c == '\U{000B}' || c == '\U{000C}' || c == ' ' || c == '\U{00A0}' || c == '\U{FEFF}'
    || c == '\U{1680}' || ('\U{2000}' <= c <= '\U{200A}') || c == '\U{202F}' || c == '\U{205F}' || c == '\U{3000}'
    || c == '\n' || c == '\r' || c == '\U{2028}' || c == '\U{2029}'
  }

  /** Every character of `s` is white space (the empty string included). */
  predicate IsBlank(s: string)
  {
    forall k :: 0 <= k < |s| ==> IsJsWhitespace(s[k])
  }

  /** `s` without its leading white space. */
  function TrimStart(s: string): (r: string)
    ensures |r| <= |s| && r == s[|s| - |r|..]
    ensures IsBlank(s[..|s| - |r|])
    ensures r != [] ==> !IsJsWhitespace(r[0])
  {
    if s != [] && IsJsWhitespace(s[0]) then
      var r := TrimStart(s[1..]);
      assert s[1..][..|s| - 1 - |r|] == s[1..|s| - |r|];
      r
    else s
  }

  /** `s` without its trailing white space. */
  function TrimEnd(s: string): (r: string)
    ensures |r| <= |s| && r == s[..|r|]
    ensures IsBlank(s[|r|..])
    ensures r != [] ==> !IsJsWhitespace(r[|r| - 1])
  {
    if s != [] && IsJsWhitespace(s[|s| - 1]) then
      var r := TrimEnd(s[..|s| - 1]);
      assert s[..|s| - 1][|r|..] == s[|r|..|s| - 1];
      r
    else s
  }

  /** `s.trim()`: the stretch of `s` left once white space is stripped from
      both ends; it neither starts nor ends with white space. */
  function Trim(s: string): (r: string)
    ensures exists i, j :: 0 <= i <= j <= |s| && r == s[i..j] && IsBlank(s[..i]) && IsBlank(s[j..])
    ensures r != [] ==> !IsJsWhitespace(r[0]) && !IsJsWhitespace(r[|r| - 1])
  {
    var t := TrimStart(s);
    var r := TrimEnd(t);
    var i := |s| - |t|;
    assert r == s[i..i + |r|];
    assert IsBlank(s[i + |r|..]) by { assert s[i + |r|..] == t[|r|..]; }
    r
  }

  /** The trimmed text is empty exactly when the whole text is white space. */
  lemma TrimEmptyIffBlank(s: string)
    ensures Trim(s) == "" <==> IsBlank(s)
  {
    var i, j :| 0 <= i <= j <= |s| && Trim(s) == s[i..j] && IsBlank(s[..i]) && IsBlank(s[j..]);
    if Trim(s) == "" {
      assert i == j;
      forall k | 0 <= k < |s| ensures IsJsWhitespace(s[k]) {
        if k < i { assert s[..i][k] == s[k]; } else { assert s[j..][k - j] == s[k]; }
      }
    } else {
      assert s[i] == Trim(s)[0];
    }
  }

  /** `input.trim()` taken as a condition: it holds a character that is not
      white space. It is both the submit guard and the submit button's
      enabled state (`disabled={!input.trim()}`). */
  function SubmitEnabled(input: string): (enabled: bool)
    ensures enabled <==> !IsBlank(input)
  {
    TrimEmptyIffBlank(input);
    Trim(input) != ""
  }

  /** The drawer's two state fields. The component stays mounted while the
      drawer is shut, so they outlive closing and reopening it. */
  class DrawerState {
    var input: string
    var isGenerating: bool

    /** `useState('')` and `useState(false)`. */
    constructor ()
      ensures input == "" && !isGenerating
    {
      input := "";
      isGenerating := false;
    }

    /** The text field's `onChange`: the box holds what was typed. */
    method SetInput(text: string)
      modifies this
      ensures input == text && isGenerating == old(isGenerating)
    {
      input := text;
    }

    /** `handleSubmit`: a blank box forwards nothing and stays as it is; any
        other box is forwarded once, exactly as typed (not trimmed), through
        `onAddComment`, and then emptied. */
    method HandleSubmit() returns (forwarded: Option<string>)
      modifies this
      ensures forwarded == if SubmitEnabled(old(input)) then Some(old(input)) else None
      ensures input == if SubmitEnabled(old(input)) then "" else old(input)
      ensures isGenerating == old(isGenerating)
    {
      if SubmitEnabled(input) {
        forwarded := Some(input);
        input := "";
      } else {
        forwarded := None;
      }
    }

    /** The start of `handleAIComment`, before the suggestion is awaited. */
    method BeginSuggestion()
      modifies this
      ensures isGenerating && input == old(input)
    {
      isGenerating := true;
    }

    /** The end of `handleAIComment`: whatever the box held, it now holds the
        suggestion, and generation is over. The suggestion text comes from the
        text-generation service and is taken as given. */
    method FinishSuggestion(suggestion: string)
      modifies this
      ensures input == suggestion && !isGenerating
    {
      input := suggestion;
      isGenerating := false;
    }
  }
}

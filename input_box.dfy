/**
  The message input (frontend/src/components/InputBox.jsx): the word counter, the two
  state cells `message` and `wordCount`, the 500-word limit on edits, submission of the
  trimmed text, and the rule that enables the send button.
*/
module InputBox {
  import opened ChatTypes

  const MaxWords: nat := 500

  /** The characters JavaScript's `\s` and `String.prototype.trim` treat as white space:
      the ECMAScript WhiteSpace and LineTerminator characters. */
  predicate IsSpace(c: char)
  {
    c == '\t' || c == '\n' || c == '\U{000B}' || c == '\U{000C}' || c == '\r' || c == ' '
    || c == '\U{00A0}' || c == '\U{1680}' || ('\U{2000}' <= c <= '\U{200A}')
    || c == '\U{2028}' || c == '\U{2029}' || c == '\U{202F}' || c == '\U{205F}'
    || c == '\U{3000}' || c == '\U{FEFF}'
  }

  predicate AllSpace(s: string)
  {
    forall k :: 0 <= k < |s| ==> IsSpace(s[k])
  }

  // ---------------------------------------------------------------------------
  // `text.trim().split(/\s+/).filter(word => word.length > 0).length`

  /** `trimStart`: the suffix left after dropping leading white space. */
  function TrimStart(s: string): (r: string)
    ensures |r| <= |s|
  {
    if s != [] && IsSpace(s[0]) then TrimStart(s[1..]) else s
  }

  /** `trimStart` drops only white space, and all of it. */
  lemma {:induction false} TrimStartShape(s: string)
    ensures var r := TrimStart(s);
      && r == s[|s| - |r|..]
      && AllSpace(s[..|s| - |r|])
      && (r == [] || !IsSpace(r[0]))
  {
    if s != [] && IsSpace(s[0]) {
      TrimStartShape(s[1..]);
      var r := TrimStart(s[1..]);
      assert s[..|s| - |r|] == [s[0]] + s[1..][..|s| - 1 - |r|];
    }
  }

  /** `trimEnd`: the prefix left after dropping trailing white space. */
  function TrimEnd(s: string): (r: string)
  {
    if s != [] && IsSpace(s[|s| - 1]) then TrimEnd(s[..|s| - 1]) else s
  }

  /** `trimEnd` drops only white space, and all of it. */
  lemma {:induction false} TrimEndShape(s: string)
    ensures var r := TrimEnd(s);
      && r <= s
      && AllSpace(s[|r|..])
      && (r == [] || !IsSpace(r[|r| - 1]))
  {
    if s != [] && IsSpace(s[|s| - 1]) {
      TrimEndShape(s[..|s| - 1]);
      var r := TrimEnd(s[..|s| - 1]);
      assert s[|r|..] == s[..|s| - 1][|r|..] + [s[|s| - 1]];
    }
  }

  /** `trim`. */
  function Trim(s: string): string
  {
    TrimEnd(TrimStart(s))
  }

  /** `s.split(/\s+/)`: the pieces between maximal runs of white space; a leading or a
      trailing run yields an empty first or last piece, and "" splits to [""]. */
  function SplitWs(s: string): (r: seq<string>)
    ensures |r| >= 1
    decreases |s|
  {
    if s == [] then [""]
    else if IsSpace(s[0]) then [""] + SplitWs(TrimStart(s))
    else
      var rest := SplitWs(s[1..]);
      [[s[0]] + rest[0]] + rest[1..]
  }

  /** `filter(word => word.length > 0)`. */
  function NonEmpty(words: seq<string>): seq<string>
  {
    if words == [] then []
    else (if words[0] != "" then [words[0]] else []) + NonEmpty(words[1..])
  }

  /** `countWords(text)`. */
  function CountWords(text: string): nat
  {
    |NonEmpty(SplitWs(Trim(text)))|
  }

  // ---------------------------------------------------------------------------
  // An independent definition: the number of maximal runs of non-white-space characters,
  // counted as the positions where such a run starts.

  /** The number of positions in `s` that hold a non-space character preceded by a space
      (or, for the first position, by a space exactly when `afterSpace`). */
  function RunStarts(s: string, afterSpace: bool): nat
  {
    if s == [] then 0
    else (if afterSpace && !IsSpace(s[0]) then 1 else 0) + RunStarts(s[1..], IsSpace(s[0]))
  }

  function WordRuns(s: string): nat
  {
    RunStarts(s, true)
  }

  /** Whether the last character of `s` is white space (`afterSpace` when `s` is empty). */
  function EndsInSpace(s: string, afterSpace: bool): bool
  {
    if s == [] then afterSpace else IsSpace(s[|s| - 1])
  }

  lemma {:induction false} RunStartsConcat(a: string, b: string, afterSpace: bool)
    ensures RunStarts(a + b, afterSpace) == RunStarts(a, afterSpace) + RunStarts(b, EndsInSpace(a, afterSpace))
  {
    if a == [] {
      assert a + b == b;
    } else {
      assert (a + b)[1..] == a[1..] + b;
      assert (a + b)[0] == a[0];
      RunStartsConcat(a[1..], b, IsSpace(a[0]));
      assert EndsInSpace(a[1..], IsSpace(a[0])) == EndsInSpace(a, afterSpace);
    }
  }

  lemma {:induction false} RunStartsAllSpace(s: string, afterSpace: bool)
    requires AllSpace(s)
    ensures RunStarts(s, afterSpace) == 0
  {
    if s != [] {
      assert AllSpace(s[1..]) by {
        forall k | 0 <= k < |s[1..]| ensures IsSpace(s[1..][k]) { assert s[1..][k] == s[k + 1]; }
      }
      RunStartsAllSpace(s[1..], IsSpace(s[0]));
    }
  }

  /** White space at the front does not change the count after a space. */
  lemma RunStartsTrimStart(s: string)
    ensures RunStarts(s, true) == RunStarts(TrimStart(s), true)
  {
  }

  /** White space at the end does not change the count. */
  lemma RunStartsTrimEnd(s: string, afterSpace: bool)
    ensures RunStarts(s, afterSpace) == RunStarts(TrimEnd(s), afterSpace)
  {
    TrimEndShape(s);
    var r := TrimEnd(s);
    assert s == r + s[|r|..];
    RunStartsConcat(r, s[|r|..], afterSpace);
    RunStartsAllSpace(s[|r|..], EndsInSpace(r, afterSpace));
  }

  /** The split-and-filter count equals the run count, for both kinds of start. */
  lemma {:induction false} SplitCountsRuns(s: string)
    ensures |NonEmpty(SplitWs(s))| == RunStarts(s, true)
    ensures |NonEmpty(SplitWs(s)[1..])| == RunStarts(s, false)
    decreases |s|
  {
    if s == [] {
      assert SplitWs(s)[1..] == [];
    } else if IsSpace(s[0]) {
      var t := TrimStart(s);
      SplitCountsRuns(t);
      var x := SplitWs(t);
      assert SplitWs(s) == [""] + x;
      assert ([""] + x)[1..] == x;
      assert NonEmpty([""] + x) == NonEmpty(x);
      RunStartsTrimStart(s);
      assert TrimStart(s) == TrimStart(s[1..]);
      RunStartsTrimStart(s[1..]);
    } else {
      var rest := SplitWs(s[1..]);
      SplitCountsRuns(s[1..]);
      var tok := [s[0]] + rest[0];
      assert SplitWs(s) == [tok] + rest[1..];
      assert ([tok] + rest[1..])[1..] == rest[1..];
      assert tok != "";
      assert NonEmpty([tok] + rest[1..]) == [tok] + NonEmpty(rest[1..]);
    }
  }

  /** `countWords` counts the maximal runs of non-white-space characters. */
  lemma CountWordsIsWordRuns(text: string)
    ensures CountWords(text) == WordRuns(text)
  {
    SplitCountsRuns(Trim(text));
    RunStartsTrimStart(text);
    RunStartsTrimEnd(TrimStart(text), true);
  }

  lemma {:induction false} RunStartsZeroIffAllSpace(s: string)
    ensures RunStarts(s, true) == 0 <==> AllSpace(s)
  {
    if s != [] {
      RunStartsZeroIffAllSpace(s[1..]);
      if AllSpace(s) {
        RunStartsAllSpace(s, true);
      } else if IsSpace(s[0]) {
        assert !AllSpace(s[1..]) by {
          if AllSpace(s[1..]) {
            forall k | 0 <= k < |s| ensures IsSpace(s[k]) { if k > 0 { assert s[k] == s[1..][k - 1]; } }
          }
        }
      }
    }
  }

  /** Empty or white-space-only text has no words, and only such text. */
  lemma CountWordsZeroIffBlank(text: string)
    ensures CountWords(text) == 0 <==> AllSpace(text)
  {
    CountWordsIsWordRuns(text);
    RunStartsZeroIffAllSpace(text);
  }

  /** Trimming leaves nothing exactly when the text is white space only. */
  lemma TrimEmptyIffBlank(text: string)
    ensures Trim(text) == "" <==> AllSpace(text)
  {
    var t := TrimStart(text);
    TrimStartShape(text);
    TrimEndShape(t);
    if Trim(text) == "" {
      assert AllSpace(t[0..]);
      assert t == [];
      assert text[..|text|] == text;
    }
  }

  /** Leading and trailing white space does not change the count. */
  lemma CountWordsIgnoresOuterSpace(lead: string, text: string, trail: string)
    requires AllSpace(lead) && AllSpace(trail)
    ensures CountWords(lead + text + trail) == CountWords(text)
  {
    CountWordsIsWordRuns(lead + text + trail);
    CountWordsIsWordRuns(text);
    RunStartsConcat(lead + text, trail, true);
    RunStartsConcat(lead, text, true);
    RunStartsAllSpace(lead, true);
    RunStartsAllSpace(trail, EndsInSpace(lead + text, true));
    assert EndsInSpace(lead, true);
  }

  /** The length of an inner run of white space does not change the count. */
  lemma CountWordsIgnoresRunLength(a: string, gap: string, b: string)
    requires gap != [] && AllSpace(gap)
    ensures CountWords(a + gap + b) == CountWords(a + " " + b)
  {
    CountWordsIsWordRuns(a + gap + b);
    CountWordsIsWordRuns(a + " " + b);
    RunStartsConcat(a + gap, b, true);
    RunStartsConcat(a, gap, true);
    RunStartsConcat(a + " ", b, true);
    RunStartsConcat(a, " ", true);
    RunStartsAllSpace(gap, EndsInSpace(a, true));
    RunStartsAllSpace(" ", EndsInSpace(a, true));
    assert (a + gap)[|a + gap| - 1] == gap[|gap| - 1];
    assert (a + " ")[|a + " "| - 1] == ' ';
  }

  // ---------------------------------------------------------------------------
  // The component's state

  /** The send button's `disabled` expression. */
  function SendDisabled(isLoading: bool, wordCount: int): bool
  {
    isLoading || wordCount == 0 || wordCount > MaxWords
  }

  /** Within the word limit, the button is disabled exactly while loading or while the
      text is blank, which are the cases in which a submit sends nothing. */
  lemma SendDisabledIffNothingToSend(message: string, isLoading: bool)
    requires CountWords(message) <= MaxWords
    ensures SendDisabled(isLoading, CountWords(message)) <==> isLoading || Trim(message) == ""
  {
    CountWordsZeroIffBlank(message);
    TrimEmptyIffBlank(message);
  }

  class InputState {
    var message: string
    var wordCount: nat

    /** The two invariants every handler keeps. */
    ghost predicate Valid()
      reads this
    {
      wordCount == CountWords(message) && wordCount <= MaxWords
    }

    /** `useState('')` and `useState(0)`. */
    constructor ()
      ensures Valid() && message == "" && wordCount == 0
    {
      message, wordCount := "", 0;
      assert SplitWs("") == [""];
      assert NonEmpty([""]) == [];
    }

    /** `handleInputChange`: an edit within the limit replaces the text and its count;
        an edit over the limit is dropped. */
    method HandleInputChange(text: string)
      requires Valid()
      modifies this
      ensures Valid()
      ensures CountWords(text) <= MaxWords ==> message == text && wordCount == CountWords(text)
      ensures CountWords(text) > MaxWords ==> message == old(message) && wordCount == old(wordCount)
    {
      var words := CountWords(text);
      if words <= MaxWords {
        message, wordCount := text, words;
      }
    }

    /** `handleSubmit`: with non-blank text and not loading, `onSendMessage` is called once
        with the trimmed text (`sent`); when its promise resolves the state is reset, when
        it rejects the reset is skipped. Otherwise nothing is sent and nothing changes. */
    method HandleSubmit(isLoading: bool, sendRejects: bool) returns (sent: Option<string>)
      requires Valid()
      modifies this
      ensures Valid()
      ensures sent == if Trim(old(message)) != "" && !isLoading then Some(Trim(old(message))) else None
      ensures sent.Some? && !sendRejects ==> message == "" && wordCount == 0
      ensures sent.None? || sendRejects ==> message == old(message) && wordCount == old(wordCount)
    {
      var trimmed := Trim(message);
      if trimmed != "" && !isLoading && wordCount <= MaxWords {
        sent := Some(trimmed);
        if !sendRejects {
          message, wordCount := "", 0;
          assert SplitWs("") == [""];
          assert NonEmpty([""]) == [];
        }
      } else {
        sent := None;
      }
    }
  }

}

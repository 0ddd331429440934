/** The evaluator-reply format `Score: X/10\nFeedback: <text>` and the two
    parsers that read it back: the Flask handler's (app.py), which turns every
    failure into one fixed result, and the Streamlit script's (main.py), which
    tolerates a missing feedback marker, catches only IndexError and
    ValueError, and rewrites a failed reply into the canonical format. Both
    cut the reply with `split` on the literal markers below. */
module ReplyParsing {
  import opened PyText
  import opened PyNumber

  /** The fixed maximum score; the "out of" marker is `"/" + str(MAX_SCORE)`. */
  const MAX_SCORE := 10
  const SCORE_MARKER := "Score: "
  const OUT_OF_MARKER := "/10"
  const FEEDBACK_MARKER := "Feedback: "

  /** One parsed evaluation: the score and the feedback sentence. */
  datatype Evaluation = Evaluation(score: int, feedback: string)

  /** The score line of a reply, `Score: <n>/10`. */
  function ScoreLine(score: int): string {
    SCORE_MARKER + IntToString(score) + OUT_OF_MARKER
  }

  /** A reply in the requested format; the canned replies of both evaluators
      are built this way. */
  function FormatReply(score: int, feedback: string): (r: string)
    ensures ScoreLine(score) <= r && r[|ScoreLine(score)|..] == "\n" + FEEDBACK_MARKER + feedback
  {
    ConcatRegroup(ScoreLine(score), "\n", FEEDBACK_MARKER, feedback);
    ScoreLine(score) + "\n" + FEEDBACK_MARKER + feedback
  }

  /** `reply.split("Score: ")[1].split("/10")[0].strip()`, or None where the
      first `split` has no second piece (IndexError). */
  function ScoreText(reply: string): (r: Option<string>)
    ensures r.None? <==> !Contains(reply, SCORE_MARKER)
  {
    match SplitSecond(reply, SCORE_MARKER)
    case None => None
    case Some(segment) => Some(Strip(SplitHead(segment, OUT_OF_MARKER)))
  }

  /** `reply.split("Feedback: ")[1].strip()`, or None (IndexError). */
  function FeedbackText(reply: string): (r: Option<string>)
    ensures r.None? <==> !Contains(reply, FEEDBACK_MARKER)
    ensures r.Some? ==> IsStripped(r.value)
  {
    match SplitSecond(reply, FEEDBACK_MARKER)
    case None => None
    case Some(f) => Some(Strip(f))
  }

  // ---------------------------------------------------------------------------
  // app.py

  /** The result app.py records when anything in the parse raises. */
  const APP_FALLBACK := Evaluation(0, "Evaluation failed.")

  /** The parse of app.py: score text through `int(float(...))`, then the
      feedback text; any exception gives `APP_FALLBACK`. */
  function ParseApp(reply: string): (e: Evaluation)
    ensures !Contains(reply, SCORE_MARKER) ==> e == APP_FALLBACK
    ensures !Contains(reply, FEEDBACK_MARKER) ==> e == APP_FALLBACK
    ensures e != APP_FALLBACK ==>
              (ScoreText(reply).Some?
               && IntOfFloat(ScoreText(reply).value) == Truncated(e.score)
               && FeedbackText(reply) == Some(e.feedback))
    ensures e == APP_FALLBACK || IsStripped(e.feedback)
    ensures ScoreText(reply).Some? && IntOfFloat(ScoreText(reply).value).Truncated? && FeedbackText(reply).Some? ==>
              e == Evaluation(IntOfFloat(ScoreText(reply).value).value, FeedbackText(reply).value)
    ensures !(ScoreText(reply).Some? && IntOfFloat(ScoreText(reply).value).Truncated? && FeedbackText(reply).Some?) ==>
              e == APP_FALLBACK
  {
    match ScoreText(reply)
    case None => APP_FALLBACK
    case Some(t) =>
      match IntOfFloat(t)
      case Truncated(n) =>
        (match FeedbackText(reply)
         case None => APP_FALLBACK
         case Some(f) => Evaluation(n, f))
      case _ => APP_FALLBACK
  }

  /** The feedback app.py records is always stripped: the stripped text after
      the marker, or the fallback sentence, which has no white space at
      either end. */
  lemma {:induction false} ParseAppFeedbackStripped(reply: string)
    ensures IsStripped(ParseApp(reply).feedback)
  {
    var f := APP_FALLBACK.feedback;
    assert f[0] == 'E' && f[|f| - 1] == '.';
  }

  // ---------------------------------------------------------------------------
  // main.py

  const MAIN_FALLBACK_FEEDBACK := "Parsing failed; response format incorrect."
  const NO_FEEDBACK := "No feedback generated."

  /** What main.py's parse leaves behind: the score, the feedback and the
      (possibly rewritten) `eval_result` shown to the user, or a crash when
      `int` raises an exception the `except` clause does not name. */
  datatype MainParse = Parsed(score: int, feedback: string, evalResult: string) | Crashed

  /** The fallback of main.py, with `eval_result` rewritten into the format. */
  function MainFallback(): MainParse {
    Parsed(0, MAIN_FALLBACK_FEEDBACK, FormatReply(0, MAIN_FALLBACK_FEEDBACK))
  }

  /** The parse of main.py. */
  function ParseMain(reply: string): (p: MainParse)
    ensures !Contains(reply, SCORE_MARKER) ==> p == MainFallback()
    ensures p.Crashed? <==> ScoreText(reply).Some? && IntOfFloat(ScoreText(reply).value).OverflowError?
    ensures p.Parsed? && p != MainFallback() ==>
              (p.evalResult == reply
               && IntOfFloat(ScoreText(reply).value) == Truncated(p.score)
               && p.feedback == (if Contains(reply, FEEDBACK_MARKER) then FeedbackText(reply).value else NO_FEEDBACK))
    ensures ScoreText(reply).None? ==> p == MainFallback()
    ensures ScoreText(reply).Some? && IntOfFloat(ScoreText(reply).value).ValueError? ==> p == MainFallback()
    ensures ScoreText(reply).Some? && IntOfFloat(ScoreText(reply).value).Truncated? ==>
              p == Parsed(IntOfFloat(ScoreText(reply).value).value,
                          if Contains(reply, FEEDBACK_MARKER) then FeedbackText(reply).value else NO_FEEDBACK,
                          reply)
  {
    match ScoreText(reply)
    case None => MainFallback()
    case Some(t) =>
      match IntOfFloat(t)
      case ValueError => MainFallback()
      case OverflowError => Crashed
      case Truncated(n) =>
        var feedback := if Contains(reply, FEEDBACK_MARKER) then FeedbackText(reply).value else NO_FEEDBACK;
        Parsed(n, feedback, reply)
  }

  // ---------------------------------------------------------------------------
  // Reading a formatted reply back

  lemma {:induction false} ScoreDigitsHeadFree(score: int)
    ensures HeadCharFree(IntToString(score), "Score: ")
    ensures HeadCharFree(IntToString(score), OUT_OF_MARKER)
    ensures HeadCharFree(IntToString(score), FEEDBACK_MARKER)
  {
    var d := IntToString(score);
    assert forall i :: 0 <= i < |d| ==> d[i] == '-' || IsDigit(d[i]) by {
      forall i | 0 <= i < |d| ensures d[i] == '-' || IsDigit(d[i]) {
        if score < 0 && i > 0 {
          assert d[i] == NatToString(-score)[i - 1];
        }
      }
    }
  }

  /** The piece after the first score marker of `Score: <d>/10<tail>` starts
      with `<d>/10`, when `d` has no `S`. */
  lemma {:induction false} ScoreSegmentOfPrefixed(d: string, tail: string)
    requires HeadCharFree(d, SCORE_MARKER)
    ensures var segment := SplitSecond(SCORE_MARKER + d + OUT_OF_MARKER + tail, SCORE_MARKER);
            segment.Some? && |d| + 3 <= |segment.value| && segment.value[..|d| + 3] == d + OUT_OF_MARKER
  {
    var s := SCORE_MARKER + d + OUT_OF_MARKER + tail;
    ConcatPieces(SCORE_MARKER, d, OUT_OF_MARKER, tail);
    FoundAt(s, SCORE_MARKER, 0);
    forall i | 7 <= i < 10 + |d| ensures s[i] != 'S' {
      if i < 7 + |d| {
        assert s[i] == s[7..7 + |d|][i - 7];
      } else {
        assert s[i] == s[7 + |d|..10 + |d|][i - 7 - |d|];
      }
    }
    SkipHeadFree(s, SCORE_MARKER, 7, 10 + |d|);
    assert Find(s, SCORE_MARKER) == Some(0);
    assert |SCORE_MARKER| == 7;
    var found := FindFrom(s, SCORE_MARKER, 10 + |d|);
    if found.None? {
      assert SplitSecond(s, SCORE_MARKER) == Some(s[7..]);
      assert s[7..][..|d| + 3] == s[7..10 + |d|];
    } else {
      var k := found.value;
      assert 10 + |d| <= k <= |s|;
      assert SplitSecond(s, SCORE_MARKER) == Some(s[7..k]);
      assert s[7..k][..|d| + 3] == s[7..10 + |d|];
    }
  }

  /** The score text of a reply that starts with `Score: <d>/10`, for a
      stripped `d` with no `S` and no `/` in it. */
  lemma {:induction false} ScoreTextOfPrefixed(d: string, tail: string)
    requires HeadCharFree(d, SCORE_MARKER) && HeadCharFree(d, OUT_OF_MARKER) && IsStripped(d)
    ensures ScoreText(SCORE_MARKER + d + OUT_OF_MARKER + tail) == Some(d)
  {
    ScoreSegmentOfPrefixed(d, tail);
    var segment := SplitSecond(SCORE_MARKER + d + OUT_OF_MARKER + tail, SCORE_MARKER).value;
    SplitHeadPrefixed(segment, d, OUT_OF_MARKER);
    StrippedFixed(d);
  }

  /** The score text of a reply that starts with a score line. */
  lemma {:induction false} ScoreTextOfScoreLine(score: int, tail: string)
    ensures ScoreText(ScoreLine(score) + tail) == Some(IntToString(score))
  {
    var d := IntToString(score);
    assert ScoreLine(score) + tail == SCORE_MARKER + d + OUT_OF_MARKER + tail;
    ScoreDigitsHeadFree(score);
    ScoreTextOfPrefixed(d, tail);
  }

  /** No feedback marker can start inside a score line. */
  lemma {:induction false} FeedbackSearchSkipsScoreLine(score: int, tail: string)
    ensures Find(tail, FEEDBACK_MARKER).None? ==> Find(ScoreLine(score) + tail, FEEDBACK_MARKER).None?
    ensures Find(tail, FEEDBACK_MARKER).Some? ==>
              Find(ScoreLine(score) + tail, FEEDBACK_MARKER) == Some(|ScoreLine(score)| + Find(tail, FEEDBACK_MARKER).value)
  {
    var d := IntToString(score);
    var line := ScoreLine(score);
    var s := line + tail;
    assert line == SCORE_MARKER + d + OUT_OF_MARKER;
    ScoreDigitsHeadFree(score);
    forall i | 0 <= i < |line| ensures s[i] != 'F' {
      assert s[i] == line[i];
      if 7 <= i < 7 + |d| {
        assert line[i] == d[i - 7];
      }
    }
    SkipHeadFree(s, FEEDBACK_MARKER, 0, |line|);
    FindPastPrefix(line, tail, FEEDBACK_MARKER);
  }

  /** The first feedback marker of a formatted reply is the one it was
      formatted with. */
  lemma {:induction false} FirstFeedbackMarker(score: int, feedback: string)
    ensures Find(FormatReply(score, feedback), FEEDBACK_MARKER) == Some(|ScoreLine(score)| + 1)
  {
    ScoreLineHasNoF(score);
    FoundPastFreeHead(ScoreLine(score), "\n", FEEDBACK_MARKER, feedback);
  }

  /** The score line never holds the first character of the feedback marker. */
  lemma {:induction false} ScoreLineHasNoF(score: int)
    ensures HeadCharFree(ScoreLine(score), FEEDBACK_MARKER)
  {
    ScoreDigitsHeadFree(score);
  }

  /** The feedback text of a formatted reply is the given feedback, cut at any
      feedback marker inside it and stripped. */
  lemma {:induction false} FeedbackTextOfFormatted(score: int, feedback: string)
    ensures Contains(FormatReply(score, feedback), FEEDBACK_MARKER)
    ensures FeedbackText(FormatReply(score, feedback)) == Some(Strip(SplitHead(feedback, FEEDBACK_MARKER)))
  {
    var prefix := ScoreLine(score) + "\n" + FEEDBACK_MARKER;
    assert FormatReply(score, feedback) == prefix + feedback;
    FirstFeedbackMarker(score, feedback);
    SplitSecondAfterFirst(prefix, feedback, FEEDBACK_MARKER);
  }

  lemma {:induction false} FormatReplySplits(score: int, feedback: string)
    ensures FormatReply(score, feedback) == ScoreLine(score) + ("\n" + FEEDBACK_MARKER + feedback)
  {
    ConcatRegroup(ScoreLine(score), "\n", FEEDBACK_MARKER, feedback);
  }

  /** app.py reads any formatted reply back: the score exactly, the feedback
      up to a feedback marker inside it, stripped. */
  lemma {:induction false} ParseAppFormatted(score: int, feedback: string)
    requires InFloatRange(score)
    ensures ParseApp(FormatReply(score, feedback))
         == Evaluation(score, Strip(SplitHead(feedback, FEEDBACK_MARKER)))
  {
    FormatReplySplits(score, feedback);
    ScoreTextOfScoreLine(score, "\n" + FEEDBACK_MARKER + feedback);
    IntOfFloatOfString(score);
    FeedbackTextOfFormatted(score, feedback);
  }

  /** main.py reads any formatted reply back the same way and leaves
      `eval_result` as it was. */
  lemma {:induction false} ParseMainFormatted(score: int, feedback: string)
    requires InFloatRange(score)
    ensures ParseMain(FormatReply(score, feedback))
         == Parsed(score, Strip(SplitHead(feedback, FEEDBACK_MARKER)), FormatReply(score, feedback))
  {
    FormatReplySplits(score, feedback);
    ScoreTextOfScoreLine(score, "\n" + FEEDBACK_MARKER + feedback);
    IntOfFloatOfString(score);
    FeedbackTextOfFormatted(score, feedback);
  }

  /** A score too large for a double overflows in `int(float(...))`: app.py
      falls back and main.py crashes, whatever the feedback. */
  lemma {:induction false} HugeScoreFormatted(score: int, feedback: string)
    requires !InFloatRange(score)
    ensures ParseApp(FormatReply(score, feedback)) == APP_FALLBACK
    ensures ParseMain(FormatReply(score, feedback)) == Crashed
  {
    FormatReplySplits(score, feedback);
    ScoreTextOfScoreLine(score, "\n" + FEEDBACK_MARKER + feedback);
    IntOfFloatOfString(score);
  }

  /** The round trip: a reply formatted from a score and a stripped feedback
      sentence without a feedback marker parses back to exactly that pair. */
  lemma {:induction false} FormatRoundTrip(score: int, feedback: string)
    requires InFloatRange(score) && IsStripped(feedback) && !Contains(feedback, FEEDBACK_MARKER)
    ensures ParseApp(FormatReply(score, feedback)) == Evaluation(score, feedback)
    ensures ParseMain(FormatReply(score, feedback)) == Parsed(score, feedback, FormatReply(score, feedback))
  {
    ParseAppFormatted(score, feedback);
    ParseMainFormatted(score, feedback);
    StrippedFixed(feedback);
  }

  /** main.py: a reply with a score line and no feedback marker anywhere keeps
      its score and gets the placeholder feedback. */
  lemma {:induction false} ParseMainWithoutFeedback(score: int, tail: string)
    requires InFloatRange(score) && !Contains(tail, FEEDBACK_MARKER)
    ensures ParseMain(ScoreLine(score) + tail) == Parsed(score, NO_FEEDBACK, ScoreLine(score) + tail)
    ensures ParseApp(ScoreLine(score) + tail) == APP_FALLBACK
  {
    ScoreTextOfScoreLine(score, tail);
    IntOfFloatOfString(score);
    FeedbackSearchSkipsScoreLine(score, tail);
  }

  /** main.py: its rewritten `eval_result` goes back through its own parse
      to the same fallback. */
  lemma {:induction false} MainFallbackReparses()
    ensures ParseMain(MainFallback().evalResult) == MainFallback()
  {
    FallbackFeedbackPlain();
    FormatRoundTrip(0, MAIN_FALLBACK_FEEDBACK);
  }

  lemma FallbackFeedbackPlain()
    ensures IsStripped(MAIN_FALLBACK_FEEDBACK) && !Contains(MAIN_FALLBACK_FEEDBACK, FEEDBACK_MARKER)
  {
    NotContained(MAIN_FALLBACK_FEEDBACK, FEEDBACK_MARKER);
  }

  lemma SolidAnswerText()
    ensures FormatReply(7, "Solid answer.") == "Score: 7/10\nFeedback: Solid answer."
  {
    assert IntToString(7) == "7" by {
      assert DigitChar(7) == '7';
    }
    assert SCORE_MARKER + "7" == "Score: 7";
    assert "Score: 7" + OUT_OF_MARKER == "Score: 7/10";
    assert "Score: 7/10" + "\n" == "Score: 7/10\n";
    assert "Score: 7/10\n" + FEEDBACK_MARKER == "Score: 7/10\nFeedback: ";
    assert "Score: 7/10\nFeedback: " + "Solid answer." == "Score: 7/10\nFeedback: Solid answer.";
  }

  /** A reply scored 7 with the feedback "Solid answer.". */
  lemma {:induction false} SolidAnswerExample()
    ensures ParseApp("Score: 7/10\nFeedback: Solid answer.") == Evaluation(7, "Solid answer.")
    ensures ParseMain("Score: 7/10\nFeedback: Solid answer.")
         == Parsed(7, "Solid answer.", "Score: 7/10\nFeedback: Solid answer.")
  {
    SolidAnswerText();
    NotContained("Solid answer.", FEEDBACK_MARKER);
    FormatRoundTrip(7, "Solid answer.");
  }

  lemma {:induction false} InfiniteScoreText()
    ensures ScoreText("Score: inf/10\nFeedback: x") == Some("inf")
  {
    assert "Score: inf/10\nFeedback: x" == SCORE_MARKER + "inf" + OUT_OF_MARKER + "\nFeedback: x";
    ScoreTextOfPrefixed("inf", "\nFeedback: x");
  }

  /** A reply whose score is `inf` crashes main.py (OverflowError is not
      caught there) and falls back in app.py. */
  lemma {:induction false} InfiniteScoreCrashesMain()
    ensures ParseMain("Score: inf/10\nFeedback: x") == Crashed
    ensures ParseApp("Score: inf/10\nFeedback: x") == APP_FALLBACK
  {
    InfiniteScoreText();
    InfinityOverflows();
  }
}

/** The end-of-interview summary: the mean score, a "basics" average over the
    first three scores, an "advanced" average over the scores from the
    seventh on, two labels with the fixed threshold 7, and (in app.py) the
    questions, feedbacks and scores zipped together. The two front ends
    compute the averages differently: app.py divides by the number of
    scores actually present and uses a literal 0 for the advanced average
    when there are six scores or fewer, main.py always divides by 3 and 4.
    Averages are exact reals here. */
module Summaries {
  import ReplyParsing

  const THRESHOLD := 7
  const STRONG_BASICS := "Strong in basics"
  const IMPROVE_ADVANCED := "Improve advanced skills"
  const APP_WEAK_BASICS := "Needs basics improvement"
  const APP_GOOD_ADVANCED := "Good advanced skills"
  const MAIN_WEAK_BASICS := "Room for improvement in basics"
  const MAIN_GOOD_ADVANCED := "Solid advanced skills"

  /** Python's `sum`. */
  function Sum(s: seq<int>): int {
    if s == [] then 0 else Sum(s[..|s| - 1]) + s[|s| - 1]
  }

  lemma {:induction false} SumSnoc(s: seq<int>, x: int)
    ensures Sum(s + [x]) == Sum(s) + x
  {
    assert (s + [x])[..|s|] == s;
  }

  function Min(a: int, b: int): int {
    if a <= b then a else b
  }

  /** Python's `list(zip(a, b, c))`: positional triples, as many as the
      shortest list has elements. */
  function Zip3<A, B, C>(a: seq<A>, b: seq<B>, c: seq<C>): (r: seq<(A, B, C)>)
    ensures |r| == Min(|a|, Min(|b|, |c|))
    ensures forall i :: 0 <= i < |r| ==> r[i] == (a[i], b[i], c[i])
  {
    if a == [] || b == [] || c == [] then []
    else [(a[0], b[0], c[0])] + Zip3(a[1..], b[1..], c[1..])
  }

  // ---------------------------------------------------------------------------
  // app.py

  datatype AppReport = AppReport(
    average: real,
    basicsAverage: real,
    advancedAverage: real,
    strengths: string,
    weaknesses: string,
    detailed: seq<(string, string, int)>)

  /** The summary page either redirects home (no scores) or shows a report. */
  datatype AppSummary = RedirectHome | Report(report: AppReport)

  /** app.py's three averages: over all scores, over the first (up to)
      three, and over those from the seventh on (a literal 0 when there are
      six or fewer). */
  datatype Averages = Averages(average: real, basics: real, advanced: real)

  function AppAverages(scores: seq<int>): Averages
    requires scores != []
  {
    var n := |scores|;
    Averages(
      Mean(Sum(scores), n),
      Mean(Sum(scores[..Min(3, n)]), Min(3, n)),
      if n > 6 then Mean(Sum(scores[6..]), n - 6) else 0.0)
  }

  function AppSummarize(scores: seq<int>, feedbacks: seq<string>, questionsAsked: seq<string>): (r: AppSummary)
    ensures r.RedirectHome? <==> scores == []
  {
    if scores == [] then RedirectHome
    else
      var avg := AppAverages(scores);
      Report(AppReport(
        avg.average, avg.basics, avg.advanced,
        if avg.basics > THRESHOLD as real then STRONG_BASICS else APP_WEAK_BASICS,
        if avg.advanced < THRESHOLD as real then IMPROVE_ADVANCED else APP_GOOD_ADVANCED,
        Zip3(questionsAsked, feedbacks, scores)))
  }

  /** The mean of a positive count `b` against the threshold is the integer
      comparison of the total `a` against `7 * b`. */
  lemma {:induction false} MeanVersusThreshold(a: int, b: int)
    requires b > 0
    ensures Mean(a, b) > THRESHOLD as real <==> a > THRESHOLD * b
    ensures Mean(a, b) < THRESHOLD as real <==> a < THRESHOLD * b
  {
    var q := Mean(a, b);
    if q > 7.0 {
      assert q * b as real > 7.0 * b as real;
    }
    if q < 7.0 {
      assert q * b as real < 7.0 * b as real;
    }
    if q <= 7.0 {
      assert q * b as real <= 7.0 * b as real;
    }
    if q >= 7.0 {
      assert q * b as real >= 7.0 * b as real;
    }
  }

  /** The averages of app.py, cross-multiplied: each times its count is the
      sum of the scores it covers; the advanced one is 0 for six scores or
      fewer. */
  lemma {:induction false} AppAveragesScaled(scores: seq<int>)
    requires scores != []
    ensures var avg := AppAverages(scores);
            var n := |scores|;
            avg.average * n as real == Sum(scores) as real
            && avg.basics * Min(3, n) as real == Sum(scores[..Min(3, n)]) as real
            && (n > 6 ==> avg.advanced * (n - 6) as real == Sum(scores[6..]) as real)
            && (n <= 6 ==> avg.advanced == 0.0)
  {
  }

  /** `total / count` in Python for a positive count, exactly. */
  function Mean(total: int, count: int): (m: real)
    requires count > 0
    ensures m * count as real == total as real
  {
    total as real / count as real
  }

  /** The labels of app.py: "Strong in basics" exactly when the first (up to)
      three scores average above 7, "Improve advanced skills" exactly when
      there are six scores or fewer or the later ones average below 7. */
  lemma {:induction false} AppLabels(scores: seq<int>, feedbacks: seq<string>, questionsAsked: seq<string>)
    requires scores != []
    ensures var rep := AppSummarize(scores, feedbacks, questionsAsked).report;
            var n := |scores|;
            (rep.strengths == STRONG_BASICS <==> Sum(scores[..Min(3, n)]) > THRESHOLD * Min(3, n))
            && (rep.strengths == STRONG_BASICS || rep.strengths == APP_WEAK_BASICS)
            && (rep.weaknesses == IMPROVE_ADVANCED <==> n <= 6 || Sum(scores[6..]) < THRESHOLD * (n - 6))
            && (rep.weaknesses == IMPROVE_ADVANCED || rep.weaknesses == APP_GOOD_ADVANCED)
  {
    var n := |scores|;
    MeanVersusThreshold(Sum(scores[..Min(3, n)]), Min(3, n));
    if n > 6 {
      MeanVersusThreshold(Sum(scores[6..]), n - 6);
    }
  }

  /** With the three lists in lock-step, the detailed feedback pairs them by
      position and has one entry per answered question. */
  lemma {:induction false} AppDetailed(scores: seq<int>, feedbacks: seq<string>, questionsAsked: seq<string>)
    requires scores != [] && |feedbacks| == |scores| && |questionsAsked| == |scores|
    ensures var d := AppSummarize(scores, feedbacks, questionsAsked).report.detailed;
            |d| == |scores|
            && forall i :: 0 <= i < |d| ==> d[i] == (questionsAsked[i], feedbacks[i], scores[i])
  {
  }

  /** Scores within a range sum to within that range times their number. */
  lemma {:induction false} SumWithin(s: seq<int>, lo: int, hi: int)
    requires forall i :: 0 <= i < |s| ==> lo <= s[i] <= hi
    ensures lo * |s| <= Sum(s) <= hi * |s|
  {
    if s != [] {
      SumWithin(s[..|s| - 1], lo, hi);
    }
  }

  /** A quotient `a / b` with `0 <= a <= 10 * b` lies between 0 and 10. */
  lemma {:induction false} MeanWithinScale(a: int, b: int)
    requires b > 0 && 0 <= a <= ReplyParsing.MAX_SCORE * b
    ensures 0.0 <= Mean(a, b) <= ReplyParsing.MAX_SCORE as real
  {
    var q := Mean(a, b);
    assert q * b as real == a as real;
  }

  /** Scores between 0 and 10 give an average between 0 and 10. */
  lemma {:induction false} AppAverageWithin(scores: seq<int>, feedbacks: seq<string>, questionsAsked: seq<string>)
    requires scores != []
    requires forall i :: 0 <= i < |scores| ==> 0 <= scores[i] <= ReplyParsing.MAX_SCORE
    ensures var avg := AppSummarize(scores, feedbacks, questionsAsked).report.average;
            0.0 <= avg <= ReplyParsing.MAX_SCORE as real
  {
    SumWithin(scores, 0, ReplyParsing.MAX_SCORE);
    MeanWithinScale(Sum(scores), |scores|);
  }

  /** The scores 8 9 7 6 5 4 9 8 sum to 56, the first three to 24, and the last two to 17. */
  lemma EightScoresSums()
    ensures var s := [8, 9, 7, 6, 5, 4, 9, 8];
            Sum(s) == 56 && Sum(s[..3]) == 24 && Sum(s[6..]) == 17
  {
    var s1 := [8];
    var s3 := s1 + [9] + [7];
    var s8 := s3 + [6] + [5] + [4] + [9] + [8];
    assert s1 == [] + [8];
    SumSnoc([], 8);
    SumSnoc(s1, 9);
    SumSnoc(s1 + [9], 7);
    SumSnoc(s3, 6);
    SumSnoc(s3 + [6], 5);
    SumSnoc(s3 + [6] + [5], 4);
    SumSnoc(s3 + [6] + [5] + [4], 9);
    SumSnoc(s3 + [6] + [5] + [4] + [9], 8);
    SumSnoc([], 9);
    SumSnoc([9], 8);
    assert [9] == [] + [9];
    assert s8 == [8, 9, 7, 6, 5, 4, 9, 8];
    assert s8[..3] == s3;
    assert s8[6..] == [9] + [8];
  }

  /** Eight scores: mean 7, basics 8 ("Strong in basics"), advanced 8.5. */
  lemma EightScoresExample()
    ensures var rep := AppSummarize([8, 9, 7, 6, 5, 4, 9, 8], ["", "", "", "", "", "", "", ""], ["", "", "", "", "", "", "", ""]).report;
            rep.average == 7.0 && rep.basicsAverage == 8.0 && rep.advancedAverage == 8.5
            && rep.strengths == STRONG_BASICS && rep.weaknesses == APP_GOOD_ADVANCED
  {
    var s := [8, 9, 7, 6, 5, 4, 9, 8];
    EightScoresSums();
    AppAveragesScaled(s);
    var avg := AppAverages(s);
    assert avg.average * 8.0 == 56.0;
    assert avg.basics * 3.0 == 24.0;
    assert avg.advanced * 2.0 == 17.0;
  }

  /** Three scores: the advanced average is a literal 0, so the weakness
      label is "Improve advanced skills" whatever the scores are. */
  lemma {:induction false} FewScoresNeedAdvanced(scores: seq<int>, feedbacks: seq<string>, questionsAsked: seq<string>)
    requires 0 < |scores| <= 6
    ensures var rep := AppSummarize(scores, feedbacks, questionsAsked).report;
            rep.advancedAverage == 0.0 && rep.weaknesses == IMPROVE_ADVANCED
  {
  }

  // ---------------------------------------------------------------------------
  // main.py

  datatype MainReport = MainReport(
    average: real,
    basicsAverage: real,
    advancedAverage: real,
    strengths: string,
    weaknesses: string)

  /** main.py's summary, computed right after the last answer was recorded,
      so there is at least one score. */
  function MainSummarize(scores: seq<int>): (r: MainReport)
    requires scores != []
    ensures r.average * |scores| as real == Sum(scores) as real
    ensures r.basicsAverage * 3.0 == Sum(scores[..Min(3, |scores|)]) as real
    ensures r.advancedAverage * 4.0 == Sum(scores[Min(6, |scores|)..]) as real
  {
    var average := Mean(Sum(scores), |scores|);
    var basics := Sum(scores[..Min(3, |scores|)]) as real / 3.0;
    var advanced := Sum(scores[Min(6, |scores|)..]) as real / 4.0;
    MainReport(
      average, basics, advanced,
      if basics > THRESHOLD as real then STRONG_BASICS else MAIN_WEAK_BASICS,
      if advanced < THRESHOLD as real then IMPROVE_ADVANCED else MAIN_GOOD_ADVANCED)
  }

  /** The labels of main.py with its fixed divisors: "Strong in basics"
      exactly when the first three scores add up to more than 21, "Improve
      advanced skills" exactly when the scores from the seventh on add up to
      less than 28. */
  lemma {:induction false} MainLabels(scores: seq<int>)
    requires scores != []
    ensures var rep := MainSummarize(scores);
            (rep.strengths == STRONG_BASICS <==> Sum(scores[..Min(3, |scores|)]) > THRESHOLD * 3)
            && (rep.strengths == STRONG_BASICS || rep.strengths == MAIN_WEAK_BASICS)
    ensures var rep := MainSummarize(scores);
            (rep.weaknesses == IMPROVE_ADVANCED <==> Sum(scores[Min(6, |scores|)..]) < THRESHOLD * 4)
            && (rep.weaknesses == IMPROVE_ADVANCED || rep.weaknesses == MAIN_GOOD_ADVANCED)
  {
    var rep := MainSummarize(scores);
    var basics, later := Sum(scores[..Min(3, |scores|)]), Sum(scores[Min(6, |scores|)..]);
    assert rep.basicsAverage == basics as real / 3.0;
    assert rep.advancedAverage == later as real / 4.0;
  }

  /** For the ten-question interview main.py announces, its fixed divisors are
      the true counts, so both front ends compute the same averages and give
      the same verdicts. */
  lemma {:induction false} FrontEndsAgreeOnTen(scores: seq<int>, feedbacks: seq<string>, questionsAsked: seq<string>)
    requires |scores| == 10
    ensures var app := AppSummarize(scores, feedbacks, questionsAsked).report;
            var main := MainSummarize(scores);
            app.average == main.average
            && app.basicsAverage == main.basicsAverage
            && app.advancedAverage == main.advancedAverage
            && (app.strengths == STRONG_BASICS <==> main.strengths == STRONG_BASICS)
            && (app.weaknesses == IMPROVE_ADVANCED <==> main.weaknesses == IMPROVE_ADVANCED)
  {
  }

  /** With only two scores the two front ends disagree: app.py averages over
      the two present, main.py divides by 3. */
  lemma FrontEndsDisagreeOnTwo()
    ensures AppSummarize([8, 8], ["", ""], ["", ""]).report.strengths == STRONG_BASICS
    ensures MainSummarize([8, 8]).strengths == MAIN_WEAK_BASICS
  {
    assert [8, 8][..2] == [8, 8];
    assert Sum([8, 8]) == 16;
  }
}

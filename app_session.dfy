/** The Flask front end (app.py): the evaluator with its list of API keys and
    its canned replies, and the per-browser session the routes `/`, `/login`,
    `/start`, `/interview` and `/summary` read and update. The session is a
    class whose fields are the session keys the interview uses; the Firestore
    check `validate_session_id` is the boolean `known` the routes receive,
    and every HTTP response is a `Page` tag. */
module FlaskInterview {
  import opened PyText
  import opened ReplyParsing
  import opened Summaries
  import opened QuestionBank

  // ---------------------------------------------------------------------------
  // evaluate_answer

  /** What happened with one entry of the configured key list: an empty
      entry (skipped), a call that raised, or a call that returned text. */
  datatype KeyAttempt = BlankKey | CallRaised | CallReplied(text: string)

  const CONFIG_ERROR_FEEDBACK := "API configuration error."
  const EMPTY_ANSWER_FEEDBACK := "Empty answer."
  const ALL_FAILED_FEEDBACK := "All API keys failed."

  /** `not any(GEMINI_API_KEYS)`. */
  predicate NoUsableKey(keys: seq<KeyAttempt>) {
    forall i :: 0 <= i < |keys| ==> keys[i].BlankKey?
  }

  /** The position of the first key whose call returned, if there is one. */
  function FirstReplied(keys: seq<KeyAttempt>): (r: Option<nat>)
    ensures r.None? <==> forall i :: 0 <= i < |keys| ==> !keys[i].CallReplied?
    ensures r.Some? ==> r.value < |keys| && keys[r.value].CallReplied?
    ensures r.Some? ==> forall j :: 0 <= j < r.value ==> !keys[j].CallReplied?
  {
    if keys == [] then None
    else if keys[0].CallReplied? then Some(0)
    else match FirstReplied(keys[1..])
      case None => None
      case Some(i) => Some(i + 1)
  }

  /** What the loop over the keys returns: the stripped text of the first
      key that replied, or the all-failed reply. */
  function KeysReply(keys: seq<KeyAttempt>): (r: string)
    ensures (forall i :: 0 <= i < |keys| ==> !keys[i].CallReplied?) ==> r == FormatReply(0, ALL_FAILED_FEEDBACK)
  {
    match FirstReplied(keys)
    case None => FormatReply(0, ALL_FAILED_FEEDBACK)
    case Some(i) => Strip(keys[i].text)
  }

  /** A key whose call returned after every earlier call failed or was
      skipped gives the reply: its stripped text. */
  lemma {:induction false} KeysReplyFirst(keys: seq<KeyAttempt>, i: nat)
    requires i < |keys| && keys[i].CallReplied?
    requires forall j :: 0 <= j < i ==> !keys[j].CallReplied?
    ensures KeysReply(keys) == Strip(keys[i].text)
  {
    assert FirstReplied(keys) == Some(i);
  }

  /** The string `evaluate_answer` returns for an answer, given what each key
      does: the configuration-error reply when no key is set, the
      empty-answer reply for an empty answer, otherwise what the keys give. */
  function EvaluatorReply(answer: string, keys: seq<KeyAttempt>): (r: string)
    ensures NoUsableKey(keys) ==> r == FormatReply(0, CONFIG_ERROR_FEEDBACK)
    ensures !NoUsableKey(keys) && answer == [] ==> r == FormatReply(0, EMPTY_ANSWER_FEEDBACK)
    ensures !NoUsableKey(keys) && answer != [] ==> r == KeysReply(keys)
  {
    if NoUsableKey(keys) then FormatReply(0, CONFIG_ERROR_FEEDBACK)
    else if answer == [] then FormatReply(0, EMPTY_ANSWER_FEEDBACK)
    else KeysReply(keys)
  }

  /** `evaluate_answer`: the two early returns, then the keys in order. */
  method EvaluateAnswer(answer: string, keys: seq<KeyAttempt>) returns (reply: string)
    ensures reply == EvaluatorReply(answer, keys)
  {
    if NoUsableKey(keys) {
      return FormatReply(0, CONFIG_ERROR_FEEDBACK);
    }
    if answer == [] {
      return FormatReply(0, EMPTY_ANSWER_FEEDBACK);
    }
    var first := FirstReplyText(keys);
    match first {
      case None => reply := FormatReply(0, ALL_FAILED_FEEDBACK);
      case Some(text) => reply := Strip(text);
    }
  }

  /** The `for api_key in GEMINI_API_KEYS` loop: blank keys are skipped, a
      call that raises moves on to the next key, and the text of the first
      call that returns is the result. */
  method FirstReplyText(keys: seq<KeyAttempt>) returns (r: Option<string>)
    ensures r.None? <==> forall i :: 0 <= i < |keys| ==> !keys[i].CallReplied?
    ensures r.Some? ==> r.value == keys[FirstReplied(keys).value].text
  {
    var i := 0;
    while i < |keys|
      invariant 0 <= i <= |keys|
      invariant forall j :: 0 <= j < i ==> !keys[j].CallReplied?
    {
      if keys[i].CallReplied? {
        return Some(keys[i].text);
      }
      i := i + 1;
    }
    return None;
  }

  /** The configuration-error reply parses as score 0 with its own message. */
  lemma ConfigErrorReplyParses()
    ensures ParseApp(FormatReply(0, CONFIG_ERROR_FEEDBACK)) == Evaluation(0, CONFIG_ERROR_FEEDBACK)
  {
    NotContained(CONFIG_ERROR_FEEDBACK, FEEDBACK_MARKER);
    FormatRoundTrip(0, CONFIG_ERROR_FEEDBACK);
  }

  /** The empty-answer reply parses as score 0 with its own message. */
  lemma EmptyAnswerReplyParses()
    ensures ParseApp(FormatReply(0, EMPTY_ANSWER_FEEDBACK)) == Evaluation(0, EMPTY_ANSWER_FEEDBACK)
  {
    NotContained(EMPTY_ANSWER_FEEDBACK, FEEDBACK_MARKER);
    FormatRoundTrip(0, EMPTY_ANSWER_FEEDBACK);
  }

  /** The all-keys-failed reply parses as score 0 with its own message. */
  lemma AllFailedReplyParses()
    ensures ParseApp(FormatReply(0, ALL_FAILED_FEEDBACK)) == Evaluation(0, ALL_FAILED_FEEDBACK)
  {
    NotContained(ALL_FAILED_FEEDBACK, FEEDBACK_MARKER);
    FormatRoundTrip(0, ALL_FAILED_FEEDBACK);
  }

  /** When no key returns a reply, the answer is recorded with score 0 and one
      of the canned messages; a non-empty answer, the only kind the interview
      route evaluates, never gets the empty-answer message. */
  lemma {:induction false} NoReplyScoresZero(answer: string, keys: seq<KeyAttempt>)
    requires forall i :: 0 <= i < |keys| ==> !keys[i].CallReplied?
    ensures var e := ParseApp(EvaluatorReply(answer, keys));
            e.score == 0
            && (e.feedback == CONFIG_ERROR_FEEDBACK || e.feedback == EMPTY_ANSWER_FEEDBACK || e.feedback == ALL_FAILED_FEEDBACK)
            && (answer != [] ==> e.feedback != EMPTY_ANSWER_FEEDBACK)
  {
    if NoUsableKey(keys) {
      ConfigErrorReplyParses();
    } else if answer == [] {
      EmptyAnswerReplyParses();
    } else {
      assert FirstReplied(keys).None?;
      AllFailedReplyParses();
    }
  }

  // ---------------------------------------------------------------------------
  // The session and its routes

  /** The responses of the routes, as tags. */
  datatype Page =
    | Forbidden
    | RedirectToStart
    | RedirectToInterview
    | RedirectToSummary
    | RedirectToHome
    | ShowQuestion(number: nat, prompt: string)
    | ShowSummary(report: AppReport)

  class FlaskSession {
    /** Whether the key `step` is present; `/start` adds it, `/` removes it. */
    var hasStep: bool
    var sessionId: Option<string>
    var step: nat
    var scores: seq<int>
    var feedbacks: seq<string>
    var questionsAsked: seq<string>

    /** One score, one feedback and one question per answered step. */
    ghost predicate Valid()
      reads this
    {
      |scores| == step && |feedbacks| == step && |questionsAsked| == step
    }

    /** The guard of every route under `/<session_id>`: the URL carries the
        session's own id and the store knows it. */
    predicate Authorized(urlId: string, known: bool)
      reads this
    {
      sessionId == Some(urlId) && known
    }

    /** An interview step that reaches the question: the session was started,
        the URL is authorized and questions remain. */
    predicate AtQuestion(questions: seq<Question>, urlId: string, known: bool)
      reads this
    {
      hasStep && Authorized(urlId, known) && step < |questions|
    }

    /** A fresh browser session holds no keys. */
    constructor()
      ensures !hasStep && sessionId == None && step == 0
      ensures scores == [] && feedbacks == [] && questionsAsked == []
      ensures Valid()
    {
      hasStep := false;
      sessionId := None;
      step := 0;
      scores := [];
      feedbacks := [];
      questionsAsked := [];
    }

    /** `/`: `session.clear()`. */
    method Home()
      modifies this
      ensures !hasStep && sessionId == None && step == 0
      ensures scores == [] && feedbacks == [] && questionsAsked == []
      ensures Valid()
    {
      hasStep := false;
      sessionId := None;
      step := 0;
      scores := [];
      feedbacks := [];
      questionsAsked := [];
    }

    /** A successful `/login`: a new session id; the interview keys are left
        as they were. */
    method Login(newId: string)
      requires Valid()
      modifies this
      ensures sessionId == Some(newId)
      ensures hasStep == old(hasStep) && step == old(step)
      ensures scores == old(scores) && feedbacks == old(feedbacks) && questionsAsked == old(questionsAsked)
      ensures Valid()
    {
      sessionId := Some(newId);
    }

    /** `/start/<session_id>`: on an authorized URL the interview state is
        reset to step 0 with empty lists, otherwise 403. */
    method Start(urlId: string, known: bool) returns (page: Page)
      requires Valid()
      modifies this
      ensures !old(Authorized(urlId, known)) ==> page == Forbidden && unchanged(this)
      ensures old(Authorized(urlId, known)) ==>
                page == RedirectToInterview && hasStep && step == 0
                && scores == [] && feedbacks == [] && questionsAsked == []
                && sessionId == old(sessionId)
      ensures Valid()
    {
      if !Authorized(urlId, known) {
        return Forbidden;
      }
      step := 0;
      scores := [];
      feedbacks := [];
      questionsAsked := [];
      hasStep := true;
      return RedirectToInterview;
    }

    /** `/interview/<session_id>`. Without a step the browser is sent to
        `/start`; an unauthorized URL is refused; with every question answered
        the browser is sent to the summary; a GET or an answer that is empty
        after stripping shows the current question again, changing nothing;
        otherwise the answer is evaluated, one score, one feedback and one
        question are appended, and the step advances by one. `e` is the parse
        (`ParseApp`) of what `evaluate_answer` returns for the stripped answer
        (`EvaluateAnswer`); it is read only on that last path. */
    method Interview(questions: seq<Question>, urlId: string, known: bool,
                     isPost: bool, answer: string, e: Evaluation) returns (page: Page)
      requires Valid()
      modifies this
      ensures !old(hasStep) ==> page == RedirectToStart && unchanged(this)
      ensures old(hasStep) && !old(Authorized(urlId, known)) ==> page == Forbidden && unchanged(this)
      ensures old(hasStep) && old(Authorized(urlId, known)) && old(step) >= |questions| ==>
                page == RedirectToSummary && unchanged(this)
      ensures old(AtQuestion(questions, urlId, known)) && !(isPost && Strip(answer) != []) ==>
                page == ShowQuestion(old(step) + 1, questions[old(step)].prompt) && unchanged(this)
      ensures old(AtQuestion(questions, urlId, known)) && isPost && Strip(answer) != [] ==>
                step == old(step) + 1
                && scores == old(scores) + [e.score]
                && feedbacks == old(feedbacks) + [e.feedback]
                && questionsAsked == old(questionsAsked) + [questions[old(step)].prompt]
                && hasStep && sessionId == old(sessionId)
                && page == (if step >= |questions| then RedirectToSummary else RedirectToInterview)
      ensures Valid()
    {
      if !hasStep {
        return RedirectToStart;
      }
      if !Authorized(urlId, known) {
        return Forbidden;
      }
      if step >= |questions| {
        return RedirectToSummary;
      }
      var q := questions[step];
      if isPost {
        var userInput := Strip(answer);
        if userInput != [] {
          Record(e, q.prompt);
          if step >= |questions| {
            return RedirectToSummary;
          } else {
            return RedirectToInterview;
          }
        }
      }
      return ShowQuestion(step + 1, q.prompt);
    }

    /** The appends of an evaluated answer and the step update. */
    method Record(e: Evaluation, prompt: string)
      requires Valid()
      modifies this
      ensures step == old(step) + 1 && scores == old(scores) + [e.score] && feedbacks == old(feedbacks) + [e.feedback]
      ensures questionsAsked == old(questionsAsked) + [prompt]
      ensures hasStep == old(hasStep) && sessionId == old(sessionId)
      ensures Valid()
    {
      scores := scores + [e.score];
      feedbacks := feedbacks + [e.feedback];
      questionsAsked := questionsAsked + [prompt];
      step := step + 1;
    }

    /** A POST with a non-empty answer at a question: the evaluation and the
        question are appended and the step advances. */
    method Answer(questions: seq<Question>, urlId: string, known: bool, answer: string, e: Evaluation)
      requires Valid() && AtQuestion(questions, urlId, known) && Strip(answer) != []
      modifies this
      ensures Valid() && hasStep && Authorized(urlId, known) && step == old(step) + 1
      ensures scores == old(scores) + [e.score] && feedbacks == old(feedbacks) + [e.feedback]
      ensures questionsAsked == old(questionsAsked) + [questions[old(step)].prompt]
    {
      var page := Interview(questions, urlId, known, true, answer, e);
    }

    /** `/summary/<session_id>`: 403 on an unauthorized URL, home when nothing
        was scored, otherwise the report over the session's lists. */
    method Summary(urlId: string, known: bool) returns (page: Page)
      ensures !Authorized(urlId, known) ==> page == Forbidden
      ensures Authorized(urlId, known) && scores == [] ==> page == RedirectToHome
      ensures Authorized(urlId, known) && scores != [] ==>
                page == ShowSummary(AppSummarize(scores, feedbacks, questionsAsked).report)
    {
      if !Authorized(urlId, known) {
        return Forbidden;
      }
      var outcome := AppSummarize(scores, feedbacks, questionsAsked);
      match outcome {
        case RedirectHome => return RedirectToHome;
        case Report(report) => return ShowSummary(report);
      }
    }
  }

  /** After `/` has cleared the session, the summary URL is refused (the id
      check comes before the empty-scores redirect). */
  method SummaryAfterClear(s: FlaskSession, urlId: string, known: bool) returns (page: Page)
    modifies s
    ensures page == Forbidden
  {
    s.Home();
    page := s.Summary(urlId, known);
  }

  /** With an empty question bank an interview is complete as soon as it
      starts, and its summary sends the browser home. */
  method EmptyBankCompletes(s: FlaskSession, urlId: string, known: bool,
                            isPost: bool, answer: string, e: Evaluation) returns (pages: seq<Page>)
    requires s.Valid() && s.Authorized(urlId, known)
    modifies s
    ensures pages == [RedirectToInterview, RedirectToSummary, RedirectToHome]
  {
    var started := s.Start(urlId, known);
    var asked := s.Interview([], urlId, known, isPost, answer, e);
    var summary := s.Summary(urlId, known);
    pages := [started, asked, summary];
  }

  /** A POST of the interview form as the route runs it: the stripped answer
      is evaluated with the configured keys, the reply is parsed, and the
      evaluation goes to the session. */
  method PostAnswer(s: FlaskSession, questions: seq<Question>, urlId: string, known: bool,
                    answer: string, keys: seq<KeyAttempt>) returns (page: Page)
    requires s.Valid()
    modifies s
    ensures s.Valid()
    ensures !old(s.hasStep) ==> page == RedirectToStart && unchanged(s)
    ensures old(s.hasStep) && !old(s.Authorized(urlId, known)) ==> page == Forbidden && unchanged(s)
    ensures old(s.hasStep) && old(s.Authorized(urlId, known)) && old(s.step) >= |questions| ==>
              page == RedirectToSummary && unchanged(s)
    ensures old(s.AtQuestion(questions, urlId, known)) && Strip(answer) == [] ==>
              page == ShowQuestion(old(s.step) + 1, questions[old(s.step)].prompt) && unchanged(s)
    ensures old(s.AtQuestion(questions, urlId, known)) && Strip(answer) != [] ==>
              var e := ParseApp(EvaluatorReply(Strip(answer), keys));
              s.step == old(s.step) + 1
              && s.scores == old(s.scores) + [e.score]
              && s.feedbacks == old(s.feedbacks) + [e.feedback]
              && s.questionsAsked == old(s.questionsAsked) + [questions[old(s.step)].prompt]
              && s.hasStep && s.sessionId == old(s.sessionId)
              && page == (if s.step >= |questions| then RedirectToSummary else RedirectToInterview)
  {
    var reply := EvaluateAnswer(Strip(answer), keys);
    page := s.Interview(questions, urlId, known, true, answer, ParseApp(reply));
  }

  /** Answering every question of a non-empty bank with a non-empty answer,
      from `/start` on, ends with a report that has one detailed entry per
      question, in the bank's order. */
  method CompleteInterview(s: FlaskSession, questions: seq<Question>, urlId: string, known: bool,
                           answers: seq<string>, evals: seq<Evaluation>) returns (page: Page)
    requires s.Valid() && s.Authorized(urlId, known)
    requires |answers| == |questions| == |evals| > 0
    requires forall i :: 0 <= i < |answers| ==> Strip(answers[i]) != []
    modifies s
    ensures s.Valid() && s.step == |questions|
    ensures page.ShowSummary? && |page.report.detailed| == |questions|
    ensures forall i :: 0 <= i < |questions| ==>
              page.report.detailed[i] == (questions[i].prompt, evals[i].feedback, evals[i].score)
  {
    var started := s.Start(urlId, known);
    AnswerAll(s, questions, urlId, known, answers, evals);
    page := s.Summary(urlId, known);
    AppDetailed(s.scores, s.feedbacks, s.questionsAsked);
  }

  /** One POST per question, each with a non-empty answer, from step 0. */
  method AnswerAll(s: FlaskSession, questions: seq<Question>, urlId: string, known: bool,
                   answers: seq<string>, evals: seq<Evaluation>)
    requires s.Valid() && s.hasStep && s.Authorized(urlId, known) && s.step == 0
    requires |answers| == |questions| == |evals|
    requires forall i :: 0 <= i < |answers| ==> Strip(answers[i]) != []
    modifies s
    ensures s.Valid() && s.Authorized(urlId, known) && s.step == |questions|
    ensures forall j :: 0 <= j < |questions| ==>
              s.questionsAsked[j] == questions[j].prompt
              && s.scores[j] == evals[j].score
              && s.feedbacks[j] == evals[j].feedback
  {
    var i := 0;
    while i < |questions|
      invariant 0 <= i <= |questions|
      invariant s.Valid() && s.hasStep && s.Authorized(urlId, known) && s.step == i
      invariant forall j :: 0 <= j < i ==>
                  s.questionsAsked[j] == questions[j].prompt
                  && s.scores[j] == evals[j].score
                  && s.feedbacks[j] == evals[j].feedback
    {
      s.Answer(questions, urlId, known, answers[i], evals[i]);
      i := i + 1;
    }
  }
}

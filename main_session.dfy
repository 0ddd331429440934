/** The Streamlit front end (main.py). Streamlit runs the whole script again
    after every interaction; what survives between runs is
    `st.session_state`, modelled as the class `ChatSession`. One run is
    `ChatSession.Run`: the sidebar reset, the initialisation on the first
    run, the display of the chat, and the handling of one submitted input.
    The single Gemini call is the `ApiCall` outcome a run receives. */
module StreamlitInterview {
  import opened PyText
  import opened ReplyParsing
  import opened Summaries
  import opened QuestionBank

  // ---------------------------------------------------------------------------
  // evaluate_answer

  /** What the Gemini call did: returned a text, or raised an exception whose
      message is given. */
  datatype ApiCall = Replied(text: string) | Raised(error: string)

  /** What `evaluate_answer` returns: a reply string, or the error dict it
      returns for an empty answer. */
  datatype EvalReturn = ReplyText(text: string) | ErrorDict(error: string)

  const EMPTY_MESSAGE_ERROR := "Message cannot be empty"

  /** `evaluate_answer`: the error dict for an empty answer, the stripped reply
      text, or the exception message formatted as a score-0 reply. */
  function Evaluate(answer: string, call: ApiCall): (r: EvalReturn)
    ensures r.ErrorDict? <==> answer == []
  {
    if answer == [] then ErrorDict(EMPTY_MESSAGE_ERROR)
    else match call
      case Replied(text) => ReplyText(Strip(text))
      case Raised(error) => ReplyText(FormatReply(0, error))
  }

  /** When the call raises, whatever the exception says, the reply parses as
      score 0 and is shown unchanged; the feedback is the message up to any
      second feedback marker, stripped. */
  lemma {:induction false} RaisedCallScoresZero(answer: string, error: string)
    requires answer != []
    ensures var p := ParseMain(Evaluate(answer, Raised(error)).text);
            p == Parsed(0, Strip(SplitHead(error, FEEDBACK_MARKER)), FormatReply(0, error))
  {
    ParseMainFormatted(0, error);
  }

  // ---------------------------------------------------------------------------
  // The session state and one run of the script

  /** What the assistant says after an answer: the next question, or the
      summary with the list of feedbacks. */
  datatype FollowUp = NextQuestion(number: nat, prompt: string) | Finished(report: MainReport, feedbacks: seq<string>)

  /** The chat transcript in `st.session_state.messages`. */
  datatype Message =
    | Greeting
    | AskQuestion(number: nat, prompt: string)
    | UserSaid(text: string)
    | Evaluated(evalResult: string, followUp: FollowUp)

  /** How a run ends: it waits for input, it asks Streamlit to rerun, or it
      stops with an uncaught exception. */
  datatype RunOutcome = Idle | Rerun | Crash

  /** The follow-up after `scores` has been recorded: the next question while
      questions remain, otherwise the summary. */
  function FollowUpAfter(questions: seq<Question>, scores: seq<int>, feedbacks: seq<string>): (f: FollowUp)
    requires scores != []
    ensures f.Finished? <==> |scores| >= |questions|
    ensures f.NextQuestion? ==> f.number == |scores| + 1 && f.prompt == questions[|scores|].prompt
    ensures f.Finished? ==> f.report == MainSummarize(scores) && f.feedbacks == feedbacks
  {
    if |scores| < |questions| then NextQuestion(|scores| + 1, questions[|scores|].prompt)
    else Finished(MainSummarize(scores), feedbacks)
  }

  class ChatSession {
    /** Whether the key `step` is present. */
    var initialized: bool
    /** Whether the key `messages` is present. */
    var hasMessages: bool
    var step: nat
    var scores: seq<int>
    var feedbacks: seq<string>
    var messages: seq<Message>

    /** One score and one feedback per answered question. */
    ghost predicate Valid()
      reads this
    {
      |scores| == step && |feedbacks| == step
    }

    /** No key at all: the state of a new browser tab and after a reset. */
    predicate Cleared()
      reads this
    {
      !initialized && !hasMessages && step == 0 && scores == [] && feedbacks == [] && messages == []
    }

    constructor()
      ensures Cleared() && Valid()
    {
      initialized := false;
      hasMessages := false;
      step := 0;
      scores := [];
      feedbacks := [];
      messages := [];
    }

    /** The sidebar button: every key of the session state is deleted. */
    method Reset()
      modifies this
      ensures Cleared() && Valid()
    {
      initialized := false;
      hasMessages := false;
      step := 0;
      scores := [];
      feedbacks := [];
      messages := [];
    }

    /** The first run: step 0, no scores or feedbacks, and the greeting with
        the first question. With an empty bank `questions[0]` raises after
        the first three keys are set, so `messages` is never created. */
    method Initialise(questions: seq<Question>) returns (crashed: bool)
      requires Valid()
      modifies this
      ensures old(initialized) ==> !crashed && unchanged(this)
      ensures !old(initialized) ==>
                initialized && step == 0 && scores == [] && feedbacks == []
                && crashed == (questions == [])
      ensures !old(initialized) && questions == [] ==>
                hasMessages == old(hasMessages) && messages == old(messages)
      ensures !old(initialized) && questions != [] ==>
                hasMessages && messages == [Greeting, AskQuestion(1, questions[0].prompt)]
      ensures Valid()
    {
      if initialized {
        return false;
      }
      initialized := true;
      step := 0;
      scores := [];
      feedbacks := [];
      if questions == [] {
        return true;
      }
      messages := [Greeting, AskQuestion(1, questions[0].prompt)];
      hasMessages := true;
      return false;
    }

    /** A submitted input: the user's message is appended; while questions
        remain the answer is evaluated and parsed, one score and one feedback
        are appended, the step advances, and the assistant replies with the
        evaluation and the next question or the summary. A score that
        overflows `int` stops the script after the user's message was
        recorded. Past the last question only the user's message is added.
        `parsed` is the parse (`ParseMain`) of what `evaluate_answer` returns
        for the input (`Evaluate`); it is read only while questions remain. */
    method HandleInput(questions: seq<Question>, userInput: string, parsed: MainParse) returns (outcome: RunOutcome)
      requires Valid() && userInput != []
      modifies this
      ensures initialized == old(initialized) && hasMessages == old(hasMessages)
      ensures old(step) >= |questions| ==>
                outcome == Rerun && step == old(step) && scores == old(scores) && feedbacks == old(feedbacks)
                && messages == old(messages) + [UserSaid(userInput)]
      ensures old(step) < |questions| && parsed.Crashed? ==>
                outcome == Crash && step == old(step) && scores == old(scores) && feedbacks == old(feedbacks)
                && messages == old(messages) + [UserSaid(userInput)]
      ensures old(step) < |questions| && parsed.Parsed? ==>
                outcome == Rerun && step == old(step) + 1
                && scores == old(scores) + [parsed.score] && feedbacks == old(feedbacks) + [parsed.feedback]
                && messages == old(messages) + [UserSaid(userInput)] + [Evaluated(parsed.evalResult, FollowUpAfter(questions, scores, feedbacks))]
      ensures Valid()
    {
      messages := messages + [UserSaid(userInput)];
      if step < |questions| {
        if parsed.Crashed? {
          return Crash;
        }
        Record(questions, parsed.score, parsed.feedback, parsed.evalResult);
      }
      return Rerun;
    }

    /** The bookkeeping after a successful parse: append the score and the
        feedback, advance the step, and post the evaluation with what comes
        next. */
    method Record(questions: seq<Question>, score: int, feedback: string, evalResult: string)
      requires Valid()
      modifies this
      ensures initialized == old(initialized) && hasMessages == old(hasMessages)
      ensures step == old(step) + 1 && scores == old(scores) + [score] && feedbacks == old(feedbacks) + [feedback]
      ensures messages == old(messages) + [Evaluated(evalResult, FollowUpAfter(questions, scores, feedbacks))]
      ensures Valid()
    {
      scores := scores + [score];
      feedbacks := feedbacks + [feedback];
      step := step + 1;
      messages := messages + [Evaluated(evalResult, FollowUpAfter(questions, scores, feedbacks))];
    }

    /** One run of the script. `userInput` is what `st.chat_input` returned,
        empty when nothing was submitted. */
    method Run(questions: seq<Question>, resetPressed: bool, userInput: string, call: ApiCall) returns (outcome: RunOutcome)
      requires Valid()
      modifies this
      ensures resetPressed ==> outcome == Rerun && Cleared()
      ensures !resetPressed && !old(initialized) && questions == [] ==>
                outcome == Crash && initialized && hasMessages == old(hasMessages)
                && step == 0 && scores == [] && feedbacks == [] && messages == old(messages)
      ensures !resetPressed && old(initialized) && !old(hasMessages) ==> outcome == Crash && unchanged(this)
      ensures !resetPressed && (!old(initialized) ==> questions != []) && (old(initialized) ==> old(hasMessages))
              && userInput == [] ==>
                outcome == Idle
      ensures !resetPressed && old(initialized) && old(hasMessages) && userInput == [] ==> unchanged(this)
      ensures !resetPressed && !old(initialized) && questions != [] && userInput == [] ==>
                initialized && hasMessages && step == 0 && scores == [] && feedbacks == []
                && messages == [Greeting, AskQuestion(1, questions[0].prompt)]
      // A submitted input on a session already under way.
      ensures !resetPressed && old(initialized) && old(hasMessages) && userInput != [] ==>
                var p := ParseMain(Evaluate(userInput, call).text);
                initialized && hasMessages
                && (old(step) >= |questions| ==>
                      outcome == Rerun && step == old(step) && scores == old(scores) && feedbacks == old(feedbacks)
                      && messages == old(messages) + [UserSaid(userInput)])
                && (old(step) < |questions| && p.Crashed? ==>
                      outcome == Crash && step == old(step) && scores == old(scores) && feedbacks == old(feedbacks)
                      && messages == old(messages) + [UserSaid(userInput)])
                && (old(step) < |questions| && p.Parsed? ==>
                      outcome == Rerun && step == old(step) + 1
                      && scores == old(scores) + [p.score] && feedbacks == old(feedbacks) + [p.feedback]
                      && messages == old(messages) + [UserSaid(userInput)] + [Evaluated(p.evalResult, FollowUpAfter(questions, scores, feedbacks))])
      // A submitted input on the very first run: it is handled as the answer
      // to the first question.
      ensures !resetPressed && !old(initialized) && questions != [] && userInput != [] ==>
                var p := ParseMain(Evaluate(userInput, call).text);
                var opening := [Greeting, AskQuestion(1, questions[0].prompt)];
                initialized && hasMessages
                && (p.Crashed? ==>
                      outcome == Crash && step == 0 && scores == [] && feedbacks == []
                      && messages == opening + [UserSaid(userInput)])
                && (p.Parsed? ==>
                      outcome == Rerun && step == 1 && scores == [p.score] && feedbacks == [p.feedback]
                      && messages == opening + [UserSaid(userInput)] + [Evaluated(p.evalResult, FollowUpAfter(questions, scores, feedbacks))])
      ensures Valid()
    {
      if resetPressed {
        Reset();
        return Rerun;
      }
      var crashed := Initialise(questions);
      if crashed {
        return Crash;
      }
      if !hasMessages {
        return Crash;
      }
      if userInput == [] {
        return Idle;
      }
      var parsed := ParseMain(Evaluate(userInput, call).text);
      outcome := HandleInput(questions, userInput, parsed);
    }
  }

  /** Pressing reset and then loading the page starts the interview afresh:
      step 0, nothing scored, and the transcript is the greeting and the
      first question. */
  method ResetThenReload(s: ChatSession, questions: seq<Question>, call: ApiCall) returns (outcomes: seq<RunOutcome>)
    requires s.Valid() && questions != []
    modifies s
    ensures outcomes == [Rerun, Idle]
    ensures s.step == 0 && s.scores == [] && s.feedbacks == []
    ensures s.messages == [Greeting, AskQuestion(1, questions[0].prompt)]
  {
    var first := s.Run(questions, true, [], call);
    var second := s.Run(questions, false, [], call);
    outcomes := [first, second];
  }

  /** With an empty bank every run crashes: the first one on `questions[0]`
      after setting `step`, every later one because `messages` was never
      created. */
  method EmptyBankCrashesEveryRun(s: ChatSession, call: ApiCall) returns (outcomes: seq<RunOutcome>)
    requires s.Valid() && s.Cleared()
    modifies s
    ensures outcomes == [Crash, Crash]
    ensures s.initialized && !s.hasMessages && s.step == 0 && s.scores == [] && s.messages == []
  {
    var first := s.Run([], false, [], call);
    var second := s.Run([], false, [], call);
    outcomes := [first, second];
  }

  /** Answering every question from a fresh start, with no score that
      overflows, records one score per question and ends the transcript with
      the summary over all of them. `parses[i]` is the parse of the reply to
      the `i`-th input. */
  method AnswerAll(s: ChatSession, questions: seq<Question>, inputs: seq<string>, parses: seq<MainParse>)
    requires s.Valid() && s.step == 0
    requires |inputs| == |questions| == |parses| > 0
    requires forall i :: 0 <= i < |inputs| ==> inputs[i] != [] && parses[i].Parsed?
    modifies s
    ensures s.Valid() && s.step == |questions|
    ensures forall j :: 0 <= j < |questions| ==> s.scores[j] == parses[j].score && s.feedbacks[j] == parses[j].feedback
    ensures |s.messages| > 0 && s.messages[|s.messages| - 1].Evaluated?
    ensures s.messages[|s.messages| - 1].followUp == Finished(MainSummarize(s.scores), s.feedbacks)
  {
    var i := 0;
    while i < |questions|
      invariant 0 <= i <= |questions|
      invariant s.Valid() && s.step == i
      invariant forall j :: 0 <= j < i ==> s.scores[j] == parses[j].score && s.feedbacks[j] == parses[j].feedback
      invariant i > 0 ==> |s.messages| > 0 && s.messages[|s.messages| - 1].Evaluated?
      invariant i > 0 ==> s.messages[|s.messages| - 1].followUp == FollowUpAfter(questions, s.scores, s.feedbacks)
    {
      ghost var before := s.messages;
      var outcome := s.HandleInput(questions, inputs[i], parses[i]);
      ghost var last := Evaluated(parses[i].evalResult, FollowUpAfter(questions, s.scores, s.feedbacks));
      assert s.messages == before + [UserSaid(inputs[i])] + [last];
      assert s.messages[|s.messages| - 1] == last;
      i := i + 1;
    }
  }
}

/** The session engine of backend_/sessions.py: the `state` record, the five
    operations on it, and what they keep true together.

    The record itself is the datatype `State`; what each successful operation
    does to it is one `Event`, applied by `Step`. The class `Session` is the
    mutable module-level record the operations update in place; each of its
    methods is specified by `Step` on its old value. */
module Sessions {
  import opened Optional
  import opened Text
  import opened Generation
  import opened Topics
  import opened Prompts

  /** One `[role, text]` entry of `chat_history`. */
  datatype Entry = Entry(role: Role, text: string)

  /** The six fields of `state`. */
  datatype State = State(
    currentQuestion: Option<string>,
    currentAnswer: Option<string>,
    clarificationLog: seq<(string, string)>,
    chatHistory: seq<Entry>,
    topicId: Option<int>,
    examples: seq<string>)

  /** The record the module starts with and `reset_session` restores. */
  function Default(): State {
    State(None, None, [], [], None, [])
  }

  /** `state.get("current_question")` is truthy: present and not empty. */
  predicate HasQuestion(s: State) {
    s.currentQuestion.Some? && s.currentQuestion.value != ""
  }

  const QuestionLabel: string := "📘 Question: "
  const AnswerLabel: string := "📝 Answer: "
  const ClarificationLabel: string := "💡 Clarification: "
  const NoFurtherQuestions: string := "No further questions."
  const ReadyForNext: string := "Ready for next question."

  /** The follow-ups that end the clarification round. */
  const Terminators: seq<string> := ["no", "none", "nothing"]

  /** `not follow_up or follow_up.strip().lower() in ["no", "none", "nothing"]`. */
  predicate IsTerminator(followUp: string) {
    followUp == "" || AsciiLower(Strip(followUp)) in Terminators
  }

  /** A terminator word in any mix of upper and lower case, padded with any
      whitespace, ends the round. */
  lemma TerminatorAnyCasePadded(pre: string, word: string, post: string)
    requires AllSpace(pre) && AllSpace(post)
    requires AsciiLower(word) in Terminators
    ensures IsTerminator(pre + word + post)
  {
    var lowered := AsciiLower(word);
    assert lowered[0] == 'n';
    assert !IsSpace(word[0]);
    assert !IsSpace(word[|word| - 1]) by {
      assert lowered[|word| - 1] in {'o', 'e', 'g'};
    }
    StripPadded(pre, word, post);
  }

  /** A follow-up made of whitespace only is truthy and strips to "", which
      is no terminator word: it does not end the round. */
  lemma BlankIsNotTerminator(followUp: string)
    requires followUp != [] && AllSpace(followUp)
    ensures !IsTerminator(followUp)
  {
    StripShape(followUp);
    assert AsciiLower([]) == [];
  }

  /** "NONE" ends the round: case does not matter. */
  lemma UpperCaseTerminator()
    ensures IsTerminator("NONE")
  {
    var w := "NONE";
    assert AsciiLower(w) == "none" by {
      assert AsciiLower(w)[0] == 'n' && AsciiLower(w)[1] == 'o';
      assert AsciiLower(w)[2] == 'n' && AsciiLower(w)[3] == 'e';
    }
    TerminatorAnyCasePadded([], w, []);
    assert [] + w + [] == w;
  }

  lemma NothingIsLowerCase()
    ensures AsciiLower("nothing") == "nothing"
  {
  }

  lemma NothingPadded()
    ensures "  " + "nothing" + " " == "  nothing "
  {
  }

  /** "  nothing " ends the round: surrounding whitespace does not matter. */
  lemma PaddedTerminator()
    ensures IsTerminator("  nothing ")
  {
    NothingIsLowerCase();
    TerminatorAnyCasePadded("  ", "nothing", " ");
    NothingPadded();
  }

  /** "  " is no terminator: it is not empty, and strips to "". */
  lemma BlankExample()
    ensures !IsTerminator("  ")
  {
    BlankIsNotTerminator("  ");
  }

  /** What a successful operation does to the record. */
  datatype Event =
    | Asked(topic: int, sample: seq<string>, question: string)
    | Answered(answer: string)
    | Clarified(followUp: string, clarification: string)
    | Dismissed
    | Cleared

  function Step(s: State, e: Event): State {
    match e
    case Asked(topic, sample, question) =>
      s.(topicId := Some(topic), examples := sample, currentQuestion := Some(question),
         clarificationLog := [], currentAnswer := None,
         chatHistory := s.chatHistory + [Entry(System, QuestionLabel + question)])
    case Answered(answer) =>
      s.(currentAnswer := Some(answer),
         chatHistory := s.chatHistory + [Entry(System, AnswerLabel + answer)])
    case Clarified(followUp, clarification) =>
      s.(clarificationLog := s.clarificationLog + [(followUp, clarification)],
         chatHistory := s.chatHistory + [Entry(User, followUp), Entry(System, ClarificationLabel + clarification)])
    case Dismissed =>
      s.(chatHistory := s.chatHistory + [Entry(User, NoFurtherQuestions), Entry(System, ReadyForNext)])
    case Cleared =>
      Default()
  }

  /** The record after the events, applied in order. */
  function Replay(s: State, events: seq<Event>): State
    decreases |events|
  {
    if events == [] then s else Step(Replay(s, events[..|events| - 1]), events[|events| - 1])
  }

  /** How many chat-history entries an event appends. */
  function Growth(e: Event): nat {
    match e
    case Asked(_, _, _) => 1
    case Answered(_) => 1
    case Clarified(_, _) => 2
    case Dismissed => 2
    case Cleared => 0
  }

  function TotalGrowth(events: seq<Event>): nat
    decreases |events|
  {
    if events == [] then 0 else TotalGrowth(events[..|events| - 1]) + Growth(events[|events| - 1])
  }

  lemma {:induction false} ReplayAppend(s: State, a: seq<Event>, b: seq<Event>)
    ensures Replay(s, a + b) == Replay(Replay(s, a), b)
    decreases |b|
  {
    if b == [] {
      assert a + b == a;
    } else {
      var b' := b[..|b| - 1];
      assert (a + b)[..|a + b| - 1] == a + b';
      ReplayAppend(s, a, b');
    }
  }

  /** Short of a reset, `chat_history` is only ever appended to: the old
      history is a prefix of the new one, which is longer by exactly the
      entries the events append. */
  lemma {:induction false} HistoryOnlyGrows(s: State, events: seq<Event>)
    requires forall i :: 0 <= i < |events| ==> !events[i].Cleared?
    ensures s.chatHistory <= Replay(s, events).chatHistory
    ensures |Replay(s, events).chatHistory| == |s.chatHistory| + TotalGrowth(events)
    decreases |events|
  {
    if events != [] {
      var init := events[..|events| - 1];
      HistoryOnlyGrows(s, init);
      var before := Replay(s, init).chatHistory;
      assert before <= Replay(s, events).chatHistory;
    }
  }

  /** A reset forgets everything that happened before it, whatever it was. */
  lemma ResetForgetsThePast(s: State, before: seq<Event>, after: seq<Event>)
    ensures Replay(s, before + [Cleared] + after) == Replay(Default(), after)
  {
    ReplayAppend(s, before + [Cleared], after);
    ReplayAppend(s, before, [Cleared]);
    assert Replay(Replay(s, before), [Cleared]) == Default();
  }

  /** A question followed by its answer appends exactly two entries, the
      question's and then the answer's, and keeps everything before them. */
  lemma QuestionThenAnswer(s: State, topic: int, sample: seq<string>, question: string, answer: string)
    ensures Replay(s, [Asked(topic, sample, question), Answered(answer)]).chatHistory
         == s.chatHistory + [Entry(System, QuestionLabel + question), Entry(System, AnswerLabel + answer)]
  {
    var events := [Asked(topic, sample, question), Answered(answer)];
    var mid := Step(s, Asked(topic, sample, question));
    assert events[..1] == [Asked(topic, sample, question)];
    assert [Asked(topic, sample, question)][..0] == [];
    assert Replay(s, events[..1]) == mid;
    assert Replay(s, events) == Step(mid, Answered(answer));
  }

  /** After an event that clears the answer (a new question or a reset), an
      answer is present only if a later event put that very answer there. */
  lemma {:induction false} AnswerFollowsLastQuestion(s: State, events: seq<Event>, i: nat)
    requires i < |events| && (events[i].Asked? || events[i].Cleared?)
    requires Replay(s, events).currentAnswer.Some?
    ensures exists j :: i < j < |events| && events[j] == Answered(Replay(s, events).currentAnswer.value)
    decreases |events|
  {
    var n := |events|;
    var init := events[..n - 1];
    var answer := Replay(s, events).currentAnswer.value;
    if !events[n - 1].Answered? {
      assert i < n - 1;
      assert Replay(s, init).currentAnswer == Replay(s, events).currentAnswer;
      AnswerFollowsLastQuestion(s, init, i);
      var j :| i < j < n - 1 && init[j] == Answered(answer);
      assert events[j] == init[j];
    } else {
      assert events[n - 1] == Answered(answer);
    }
  }

  /** The states of the interaction: no question, a question without its
      answer, a question with its answer shown. */
  datatype Phase = NoQuestion | QuestionActive | AnswerShown

  function PhaseOf(s: State): Phase {
    if !HasQuestion(s) then NoQuestion
    else if s.currentAnswer.Some? then AnswerShown
    else QuestionActive
  }

  /** The state machine the record follows, stated on phases alone. */
  function NextPhase(p: Phase, e: Event): Phase {
    match e
    case Asked(_, _, question) => if question == "" then NoQuestion else QuestionActive
    case Answered(_) => if p == NoQuestion then NoQuestion else AnswerShown
    case Clarified(_, _) => p
    case Dismissed => p
    case Cleared => NoQuestion
  }

  function RunPhases(p: Phase, events: seq<Event>): Phase
    decreases |events|
  {
    if events == [] then p else NextPhase(RunPhases(p, events[..|events| - 1]), events[|events| - 1])
  }

  /** The record's phase after any sequence of events is what the phase
      machine predicts from the starting phase. */
  lemma {:induction false} PhaseMachine(s: State, events: seq<Event>)
    ensures PhaseOf(Replay(s, events)) == RunPhases(PhaseOf(s), events)
    decreases |events|
  {
    if events != [] {
      var init := events[..|events| - 1];
      PhaseMachine(s, init);
      var mid := Replay(s, init);
      match events[|events| - 1]
      case Asked(_, _, _) =>
      case Answered(_) =>
      case Clarified(_, _) =>
      case Dismissed =>
      case Cleared =>
    }
  }

  /** An event the operations can produce from record `s`: a question comes
      with a sample of the drawn topic's examples, and an answer or a
      clarification needs a truthy current question. */
  predicate Legal(s: State, corpus: Corpus, e: Event) {
    match e
    case Asked(topic, sample, _) =>
      && topic in corpus.topics
      && sample != []
      && |sample| == Min(3, |ExamplesOf(corpus, topic)|)
      && multiset(sample) <= multiset(ExamplesOf(corpus, topic))
    case Answered(_) => HasQuestion(s)
    case Clarified(_, _) => HasQuestion(s)
    case Dismissed => true
    case Cleared => true
  }

  predicate LegalRun(s: State, corpus: Corpus, events: seq<Event>)
    decreases |events|
  {
    events == [] ||
    (LegalRun(s, corpus, events[..|events| - 1]) && Legal(Replay(s, events[..|events| - 1]), corpus, events[|events| - 1]))
  }

  /** The consistency of the record: a question comes with its topic and its
      sample; an answer or a clarification exists only for a truthy
      question; every clarification accounts for two history entries. */
  predicate WellFormed(s: State, corpus: Corpus) {
    && (s.currentQuestion.Some? <==> s.topicId.Some?)
    && (s.topicId.None? ==> s.examples == [])
    && (s.topicId.Some? ==>
          && s.topicId.value in corpus.topics
          && s.examples != []
          && |s.examples| == Min(3, |ExamplesOf(corpus, s.topicId.value)|)
          && multiset(s.examples) <= multiset(ExamplesOf(corpus, s.topicId.value)))
    && (s.currentAnswer.Some? ==> HasQuestion(s))
    && (s.clarificationLog != [] ==> HasQuestion(s))
    && 2 * |s.clarificationLog| <= |s.chatHistory|
  }

  lemma DefaultWellFormed(corpus: Corpus)
    ensures WellFormed(Default(), corpus)
  {
  }

  /** Every operation keeps the record consistent. */
  lemma StepKeepsWellFormed(s: State, corpus: Corpus, e: Event)
    requires WellFormed(s, corpus) && Legal(s, corpus, e)
    ensures WellFormed(Step(s, e), corpus)
  {
  }

  lemma {:induction false} ReplayKeepsWellFormed(s: State, corpus: Corpus, events: seq<Event>)
    requires WellFormed(s, corpus) && LegalRun(s, corpus, events)
    ensures WellFormed(Replay(s, events), corpus)
    decreases |events|
  {
    if events != [] {
      var init := events[..|events| - 1];
      ReplayKeepsWellFormed(s, corpus, init);
      StepKeepsWellFormed(Replay(s, init), corpus, events[|events| - 1]);
    }
  }

  /** The fields of the `/status` snapshot of backend_/fast_api.py. */
  datatype SessionStatus = SessionStatus(
    hasCurrentQuestion: bool,
    hasCurrentAnswer: bool,
    topicId: Option<int>,
    clarificationCount: nat,
    chatHistoryLength: nat)

  /** The `/status` snapshot of record `s`. The endpoint itself reads the
      record bound when backend_/fast_api.py was imported, which a reset
      replaces rather than updates; this is the snapshot of the session
      module's own record. */
  function StatusOf(s: State): SessionStatus {
    SessionStatus(s.currentQuestion.Some?, s.currentAnswer.Some?, s.topicId,
                  |s.clarificationLog|, |s.chatHistory|)
  }

  /** Whatever came before, after a reset the snapshot of the session
      module's record reports no question, no answer, no topic, no
      clarification and an empty history. */
  lemma StatusAfterReset(s: State, before: seq<Event>)
    ensures StatusOf(Replay(s, before + [Cleared])) == SessionStatus(false, false, None, 0, 0)
  {
    ReplayAppend(s, before, [Cleared]);
  }

  /** The dictionaries the operations return. */
  datatype Response =
    | Question(question: string, topicId: int, examples: seq<string>)
    | Answer(answer: string)
    | Clarification(clarification: string)
    | Info(message: string)
    | History(chatHistory: seq<Entry>)
    | Error(error: string)

  /** The messages the operations return. */
  const QuestionFailed: string := "Failed to generate question: "
  const NoExamples: string := "No examples available for this topic."
  const NoQuestionToAnswer: string := "No current question to answer."
  const AnswerFailed: string := "Failed to generate answer: "
  const Dismissal: string := "No clarification needed. Ready for next question!"
  const NoQuestionToClarify: string := "No current question to clarify."
  const ClarifyFailed: string := "Failed to provide clarification: "
  const ResetDone: string := "Session reset successfully"

  /** The module-level `state` dictionary, updated in place by the
      operations, together with the loaded topic tables they read. */
  class Session {
    const corpus: Corpus
    var currentQuestion: Option<string>
    var currentAnswer: Option<string>
    var clarificationLog: seq<(string, string)>
    var chatHistory: seq<Entry>
    var topicId: Option<int>
    var examples: seq<string>

    function View(): State
      reads this
    {
      State(currentQuestion, currentAnswer, clarificationLog, chatHistory, topicId, examples)
    }

    predicate Valid()
      reads this
    {
      WellFormed(View(), corpus)
    }

    constructor (corpus: Corpus)
      ensures this.corpus == corpus && View() == Default() && Valid()
    {
      this.corpus := corpus;
      currentQuestion, currentAnswer := None, None;
      clarificationLog, chatHistory := [], [];
      topicId, examples := None, [];
    }

    /** The in-place updates each successful operation other than a reset
        makes to `state`, field by field; `Reset` rebinds the whole record. */
    method Apply(e: Event)
      requires Valid() && Legal(View(), corpus, e) && !e.Cleared?
      modifies this
      ensures View() == Step(old(View()), e)
      ensures Valid()
    {
      ghost var before := View();
      StepKeepsWellFormed(before, corpus, e);
      match e
      case Asked(topic, sample, question) =>
        topicId, examples, currentQuestion := Some(topic), sample, Some(question);
        clarificationLog, currentAnswer := [], None;
        chatHistory := chatHistory + [Entry(System, QuestionLabel + question)];
      case Answered(answer) =>
        currentAnswer := Some(answer);
        chatHistory := chatHistory + [Entry(System, AnswerLabel + answer)];
      case Clarified(followUp, clarification) =>
        clarificationLog := clarificationLog + [(followUp, clarification)];
        chatHistory := chatHistory + [Entry(User, followUp)];
        chatHistory := chatHistory + [Entry(System, ClarificationLabel + clarification)];
      case Dismissed =>
        chatHistory := chatHistory + [Entry(User, NoFurtherQuestions)];
        chatHistory := chatHistory + [Entry(System, ReadyForNext)];
    }

    /** `generate_question()`: `draw` is what the weighted topic draw gave,
        `picks` the positions `random.sample` chose among that topic's
        examples. */
    method GenerateQuestion(draw: Draw, picks: seq<nat>, client: Client) returns (r: Response)
      requires Valid()
      requires FromTable(corpus, draw)
      requires IsSampleIndices(picks, |PoolOf(corpus, draw)|)
      modifies this, client
      ensures Valid()
      ensures r.Question? || r.Error?
      ensures r.Error? ==> View() == old(View())
      ensures draw.DrawFailed? ==>
        r == Error(QuestionFailed + draw.reason) && unchanged(client)
      ensures draw.Drawn? && PoolOf(corpus, draw) == [] ==>
        r == Error(NoExamples) && unchanged(client)
      ensures draw.Drawn? && PoolOf(corpus, draw) != [] ==>
        var sample := Select(PoolOf(corpus, draw), picks);
        var messages := Ask(QuestionPrompt(draw.topic, sample));
        var c := RetryRun(client.oracle, |old(client.requests)|, messages, 3, 1).result;
        && client.Retried(messages, 3, 1)
        && (c.Raised? ==> r == Error(QuestionFailed + c.error))
        && (c.Returned? ==>
              && r == Question(c.text, draw.topic, sample)
              && View() == Step(old(View()), Asked(draw.topic, sample, c.text))
              && Legal(old(View()), corpus, Asked(draw.topic, sample, c.text)))
    {
      if draw.DrawFailed? {
        return Error(QuestionFailed + draw.reason);
      }
      var topic := draw.topic;
      var pool := ExamplesOf(corpus, topic);
      if pool == [] {
        return Error(NoExamples);
      }
      var sample := Select(pool, picks);
      var c := CallWithRetry(client, Ask(QuestionPrompt(topic, sample)), 3, 1);
      if c.Raised? {
        return Error(QuestionFailed + c.error);
      }
      var question := c.text;
      SampleShape(pool, picks);
      Apply(Asked(topic, sample, question));
      r := Question(question, topic, sample);
    }

    /** `show_answer()`. */
    method ShowAnswer(client: Client) returns (r: Response)
      requires Valid()
      modifies this, client
      ensures Valid()
      ensures r.Answer? || r.Error?
      ensures r.Error? ==> View() == old(View())
      ensures !HasQuestion(old(View())) ==>
        r == Error(NoQuestionToAnswer) && unchanged(client)
      ensures HasQuestion(old(View())) ==>
        var messages := Ask(AnswerPrompt(old(currentQuestion).value));
        var c := RetryRun(client.oracle, |old(client.requests)|, messages, 3, 1).result;
        && client.Retried(messages, 3, 1)
        && (c.Raised? ==> r == Error(AnswerFailed + c.error))
        && (c.Returned? ==> r == Answer(c.text) && View() == Step(old(View()), Answered(c.text)))
    {
      if !HasQuestion(View()) {
        return Error(NoQuestionToAnswer);
      }
      var c := CallWithRetry(client, Ask(AnswerPrompt(currentQuestion.value)), 3, 1);
      if c.Raised? {
        return Error(AnswerFailed + c.error);
      }
      var answer := c.text;
      Apply(Answered(answer));
      r := Answer(answer);
    }

    /** `clarify(follow_up)`. */
    method Clarify(followUp: string, client: Client) returns (r: Response)
      requires Valid()
      modifies this, client
      ensures Valid()
      ensures r.Clarification? || r.Info? || r.Error?
      ensures r.Error? ==> View() == old(View())
      ensures IsTerminator(followUp) ==>
        && r == Info(Dismissal)
        && View() == Step(old(View()), Dismissed)
        && unchanged(client)
      ensures !IsTerminator(followUp) && !HasQuestion(old(View())) ==>
        r == Error(NoQuestionToClarify) && unchanged(client)
      ensures !IsTerminator(followUp) && HasQuestion(old(View())) ==>
        var messages := Ask(ClarifyPrompt(old(currentQuestion).value, followUp));
        var c := RetryRun(client.oracle, |old(client.requests)|, messages, 3, 1).result;
        && client.Retried(messages, 3, 1)
        && (c.Raised? ==> r == Error(ClarifyFailed + c.error))
        && (c.Returned? ==>
              r == Clarification(c.text) && View() == Step(old(View()), Clarified(followUp, c.text)))
    {
      if followUp == "" || AsciiLower(Strip(followUp)) in Terminators {
        Apply(Dismissed);
        return Info(Dismissal);
      }
      if !HasQuestion(View()) {
        return Error(NoQuestionToClarify);
      }
      var c := CallWithRetry(client, Ask(ClarifyPrompt(currentQuestion.value, followUp)), 3, 1);
      if c.Raised? {
        return Error(ClarifyFailed + c.error);
      }
      var clarification := c.text;
      Apply(Clarified(followUp, clarification));
      r := Clarification(clarification);
    }

    /** `get_chat_history()`: the history, in the order it was appended. */
    method GetChatHistory() returns (r: Response)
      ensures r == History(View().chatHistory)
    {
      r := History(chatHistory);
    }

    /** `reset_session()`. */
    method Reset() returns (r: Response)
      modifies this
      ensures Valid()
      ensures View() == Step(old(View()), Cleared) == Default()
      ensures r == Info(ResetDone)
    {
      currentQuestion, currentAnswer := None, None;
      clarificationLog, chatHistory := [], [];
      topicId, examples := None, [];
      r := Info(ResetDone);
    }
  }
}

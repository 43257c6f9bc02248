# Exam-question session engine, modelled in Dafny

This project models the session engine of the exam-question tutor in
`backend_/sessions.py`:

- the module-level `state` record;
- the retry-wrapped call to the text-generation backend (`call_openai_with_retry`);
- the operations that read and update the record: `generate_question`,
  `show_answer`, `clarify`, `get_chat_history` and `reset_session`.

The model has these modules:

- `Text` holds the Python string operations the engine relies on. These are
  `str.strip()` (with the full `str.isspace()` character set), `str.lower()`
  on the follow-up text, substring containment, and `str()` of an integer.
- `Generation` holds the backend client. A `Client` object answers its n-th
  call with `oracle(n, messages)` and logs every context it is sent and every
  sleep.
  - The pure function `RetryRun` is the specification of the retry loop: its
    result, the number of calls, and the sleeps.
  - The imperative `CallWithRetry` is the loop itself, proved to match
    `RetryRun`.
- `Topics` holds the topic tables (topic ids, examples per topic), the
  outcome of the weighted topic draw, and the positions `random.sample` picks.
- `Prompts` builds the three prompts character for character as the f-strings
  do.
- `Sessions` holds the record and its operations.
  - `State` is the record as a value.
  - `Event` is what one successful operation does; `Step` applies an event
    and `Replay` applies a sequence of them.
  - `WellFormed` is the consistency invariant.
  - The `Session` class holds the same six fields, updated in place by its
    methods. Each method is specified by `Step` on its old value, and by
    `RetryRun` on the client's logs.
- `Scenarios` holds concrete runs: a two-topic corpus and scripted backends.

The random choices are parameters of the operations:

- the weighted topic draw is a `Draw`, either a topic id from the table or
  a failure with its message;
- `random.sample` is the list of distinct positions it picked.

The backend is the `oracle` function, and `time.sleep` only appends to the
client's log.

Two consequences of how the code tests for a question:

- `show_answer` and `clarify` test `current_question` for truthiness, not
  with `is None`, so an empty question counts as no question (`HasQuestion`).
- An empty generated question therefore leaves the session with no active
  question (`NextPhase`).

The record and the replies are datatypes:

- `Sessions.State` holds the six fields of `state` (`backend_/sessions.py:47-54`);
- `Sessions.Response` holds the dictionaries the operations return: a
  question with its topic and sample (lines 118-122), an answer (155), a
  clarification (193), a message (169, 219), the history (203) and an error
  (89, 126, 134, 159, 172, 197).

## Model

| member | source | states |
|---|---|---|
| Generation.RetryFrom | backend_/sessions.py:60-75 | the loop from iteration `attempt` on: with no iteration left it falls through to `None`; a reply returns its content stripped after one call; a failure before the last attempt sleeps `delay * 2 ** attempt` and goes on; a failure on the last attempt re-raises its error |
| Generation.RetryRun | backend_/sessions.py:56-75 | one whole call of the wrapper: the loop from attempt 0, with its result, the number of backend calls and the sleeps in order |
| Generation.Backoff | backend_/sessions.py:72 | the sleep after failed attempt `attempt` is `delay * 2 ** attempt` |
| Generation.Ask | backend_/sessions.py:105 | the context every operation sends: a single user message holding the prompt (also lines 149 and 186) |
| Generation.CallWithRetry | backend_/sessions.py:56-75 | returns what `RetryRun` says for the backend calls it makes; the client received exactly `attempts` copies of the context and slept exactly the scheduled delays, the k-th sleep right after its (k + 1)-th call, so every sleep falls between two of its calls and none follows the last; with at least one attempt it never falls through to `None` |
| Generation.RetryBounds | backend_/sessions.py:60-75 | with `max_retries <= 0` no call is made and `None` is returned; otherwise between 1 and `max_retries` calls are made, `None` is never returned, and the k-th of the `attempts - 1` sleeps is `delay * 2 ** k` |
| Generation.RetryReturnsFirstSuccess | backend_/sessions.py:60-68 | when attempt k is the first that succeeds, the result is that reply stripped, after exactly k + 1 calls and the sleeps for attempts 0 to k - 1 |
| Generation.RetryRaisesIffAllFail | backend_/sessions.py:69-75 | the wrapper re-raises if and only if there is at least one attempt and all `max_retries` attempts fail; the error re-raised is the last one, after `max_retries` calls |
| Generation.RetryFailFailSucceed | backend_/sessions.py:56-75 | with the defaults (3 attempts, delay 1), fail, fail, succeed makes 3 calls and sleeps 1 then 2 |
| Generation.Backoffs | backend_/sessions.py:71-72 | the sleep schedule has one entry per failed attempt in the range, and entry k is `delay * 2 ** (lo + k)` |
| Generation.Client.Complete | backend_/sessions.py:62-68 | the reply is the backend's answer to its n-th call, and the context is appended to the request log |
| Generation.Client.Sleep | backend_/sessions.py:72 | the sleep is appended to the log together with the number of calls made before it, and the request log is unchanged |
| Text.Strip | backend_/sessions.py:68 | `str.strip()`: the leading and then the trailing `isspace()` characters are removed |
| Text.IsSpace | backend_/sessions.py:68 | the characters `str.isspace()` accepts, which `strip()` removes here and at line 166 |
| Text.StripShape | backend_/sessions.py:68 | `strip()` returns a slice of its input with only whitespace before and after it; that slice does not start or end with whitespace, and it is empty exactly when the input is all whitespace |
| Text.StripPadded | backend_/sessions.py:166 | stripping a word padded with whitespace gives back the word |
| Text.AsciiLower | backend_/sessions.py:166 | lower-casing keeps the length and maps each character to its lower-case form |
| Text.DecimalRoundTrip | backend_/sessions.py:96 | the topic id written into the prompt reads back as the same integer |
| Text.Decimal | backend_/sessions.py:96 | `str(topic_id)`: a minus sign for a negative id, then its decimal digits, most significant first |
| Topics.ExamplesOf | backend_/sessions.py:85 | `example_questions.get(topic_id, [])`: the topic's examples, and none for a topic without an entry |
| Topics.FromTable | backend_/sessions.py:83-84 | a successful weighted draw gives one of the table's topic ids |
| Topics.IsSampleIndices | backend_/sessions.py:92 | `random.sample(examples, min(3, len(examples)))` picks `min(3, n)` different positions of the `n` examples |
| Topics.Select | backend_/sessions.py:92 | the sample has one element per picked position, namely the example at that position |
| Topics.SampleIsSubBag | backend_/sessions.py:92 | sampling without replacement: as a bag, the sample is contained in the topic's examples |
| Topics.SampleShape | backend_/sessions.py:85-92 | the sample has `min(3, len(examples))` elements; with any examples, between 1 and 3; each one is an example of the topic; no example is used more often than it occurs |
| Prompts.BulletLine | backend_/sessions.py:99 | every sampled example occurs in the bullet list as a line "- " + example |
| Prompts.Bullets | backend_/sessions.py:99 | `chr(10).join(f"- {q}" for q in sample)`: each example after "- ", joined by newlines, with no newline at the end |
| Prompts.QuestionPrompt | backend_/sessions.py:94-103 | the question prompt, character for character: the fixed opening, "Topic ID: " + `str(topic_id)`, the lead-in, the sample as "- " lines joined by newlines, and the fixed instructions |
| Prompts.AnswerPrompt | backend_/sessions.py:136-147 | the answer prompt, character for character: the fixed opening, the current question on a line of its own, and the fixed instructions |
| Prompts.ClarifyPrompt | backend_/sessions.py:174-184 | the clarification prompt, character for character: the fixed opening, "Original Question: " + the question, the lead-in, the follow-up between double quotes, and the fixed instructions |
| Prompts.QuestionPromptEmbeds | backend_/sessions.py:94-103 | the question prompt contains "Topic ID: " + the id, and "\n- " + each sampled example |
| Prompts.AnswerPromptEmbeds | backend_/sessions.py:136-147 | the answer prompt contains the current question verbatim, on a line of its own |
| Prompts.ClarifyPromptEmbeds | backend_/sessions.py:174-184 | the clarification prompt contains "Original Question: " + the question, and the follow-up verbatim between double quotes |
| Sessions.Default | backend_/sessions.py:47-54 | the record the module starts with and a reset restores: no question, no answer, no topic, and an empty log, history and sample |
| Sessions.HasQuestion | backend_/sessions.py:133 | `state.get("current_question")` is truthy: a question is present and is not the empty string; `clarify` makes the same test at line 171 |
| Sessions.IsTerminator | backend_/sessions.py:166 | a follow-up ends the round when it is empty, or when stripped and lower-cased it is "no", "none" or "nothing" |
| Sessions.Step | backend_/sessions.py:108-217 | what each successful operation does to the record: a question sets topic, sample and question, clears the log and the answer and appends its entry (lines 108-115); an answer sets the answer and appends its entry (151-152); a dismissal appends the two fixed entries (167-168); a clarification appends the pair to the log and its two entries (188-190); a reset restores the default record (210-217) |
| Sessions.TerminatorAnyCasePadded | backend_/sessions.py:166 | "no", "none" or "nothing" in any letter case, padded with any whitespace, ends the clarification round |
| Sessions.BlankIsNotTerminator | backend_/sessions.py:166 | a non-empty all-whitespace follow-up is truthy and strips to "", so it does not end the round |
| Sessions.UpperCaseTerminator | backend_/sessions.py:166 | "NONE" ends the round |
| Sessions.PaddedTerminator | backend_/sessions.py:166 | "  nothing " ends the round |
| Sessions.BlankExample | backend_/sessions.py:166 | "  " does not end the round |
| Sessions.DefaultWellFormed | backend_/sessions.py:47-54 | the initial record is consistent |
| Sessions.StepKeepsWellFormed | backend_/sessions.py:108-217 | every legal operation keeps the record consistent: a question comes with its topic and a sample of that topic's examples; an answer or clarification exists only for a truthy question; the history holds at least two entries per clarification |
| Sessions.ReplayKeepsWellFormed | backend_/sessions.py:108-217 | any sequence of legal operations keeps the record consistent |
| Sessions.HistoryOnlyGrows | backend_/sessions.py:115-190 | without a reset, the history is only appended to: the old history is a prefix of the new, which is longer by exactly the entries the operations append |
| Sessions.ReplayAppend | backend_/sessions.py:108-217 | running two sequences of operations one after the other is running their concatenation |
| Sessions.ResetForgetsThePast | backend_/sessions.py:205-217 | whatever happened before a reset has no effect on what happens after it |
| Sessions.QuestionThenAnswer | backend_/sessions.py:115-152 | a question then its answer append exactly two entries, the question's then the answer's, and keep all earlier entries |
| Sessions.AnswerFollowsLastQuestion | backend_/sessions.py:108-151 | after a new question or a reset, an answer is present only if a later operation produced that very answer |
| Sessions.PhaseMachine | backend_/sessions.py:108-217 | the record's phase (no question, question active, answer shown) after any operations is what the phase machine `NextPhase` predicts |
| Sessions.StatusOf | backend_/fast_api.py:215-221 | the `/status` snapshot of a record: question and answer are tested with `is not None`, then the topic, the number of clarifications and the history length |
| Sessions.StatusAfterReset | backend_/sessions.py:205-217 | after a reset the status snapshot reports no question, no answer, no topic, zero clarifications and an empty history |
| Sessions.Session.constructor | backend_/sessions.py:47-54 | a new session holds the default record |
| Sessions.Session.Apply | backend_/sessions.py:108-190 | the in-place field updates of a successful question, answer, dismissal or clarification produce `Step` of the old record, and keep it consistent |
| Sessions.Session.GenerateQuestion | backend_/sessions.py:77-126 | a failed draw or a topic without examples returns its error, makes no backend call and changes nothing. Otherwise the prompt for the sample goes through the retry wrapper; a raised error is returned and changes nothing; a success records the question, topic and sample and returns them |
| Sessions.Session.ShowAnswer | backend_/sessions.py:128-159 | with no truthy question it returns the error, makes no call and changes nothing; otherwise it sends the answer prompt; a failure changes nothing; a success records the answer and appends one entry |
| Sessions.Session.Clarify | backend_/sessions.py:161-197 | a terminator follow-up appends the two fixed entries, makes no call and succeeds with or without a question. Otherwise, with no truthy question it returns the error; with one, a failure changes nothing and a success logs the pair and appends the follow-up and clarification entries |
| Sessions.Session.GetChatHistory | backend_/sessions.py:199-203 | returns the history as it is, changing nothing |
| Sessions.Session.Reset | backend_/sessions.py:205-219 | whatever the prior record, it becomes the default record, and the confirmation message is returned |
| Scenarios.FailFailSucceed | backend_/sessions.py:56-75 | against a backend that fails twice and then answers "  Fine. ", the wrapper returns "Fine." after 3 calls and sleeps of 1 and 2 |
| Scenarios.TopicOneSample | backend_/sessions.py:85-92 | for a topic with two examples, every sample has both of them |
| Scenarios.TopicWithoutExamples | backend_/sessions.py:85-89 | drawing a topic with no examples returns the error, makes no call and leaves the history empty |
| Scenarios.AnswerBeforeQuestion | backend_/sessions.py:133-134 | asking for an answer before any question returns the error, makes no call and leaves the history empty |

## Left out

- Weighted topic draw (`backend_/sessions.py:83-84`): the draw is a parameter, either a topic of the table or a failure carrying its message. The weights, their float normalisation and the frequencies they induce are not modelled.
- `random.sample` (`backend_/sessions.py:92`): the picked positions are a parameter, constrained to `min(3, n)` distinct positions. How likely each sample is is not modelled.
- Startup I/O (`backend_/sessions.py:1-44`) is not part of this model. This covers environment loading, client construction, CSV reading and building the examples index. The topic tables are given as a `Corpus`.
- The backend is an opaque function of the call number and the context. A reply whose content is `None` makes `.strip()` raise inside the retry loop, so it is modelled as a failed attempt. The `model`, `temperature` and `max_tokens` arguments are not modelled.
- `time.sleep` does not block in the model; it is recorded in the client's log.
- Logging calls and the demo `run_example_session` (`backend_/sessions.py:222-255`) have no effect on the record.
- An exception's text (`str(e)`) is the string carried by the failed reply or draw.
- Text.AsciiLower: lower-cases ASCII letters only. Outside ASCII only KELVIN SIGN and LATIN CAPITAL LETTER I WITH DOT ABOVE lower to ASCII letters (k, and i followed by a combining dot). Neither can spell "no", "none" or "nothing", so the terminator test decides exactly as `str.lower()` does.
- `get_chat_history` returns the Python list itself, so a caller can later see it grow. The model returns the history as a value.
- The HTTP layer (`backend_/fast_api.py`) is not part of this model; its `/status` snapshot is the function `StatusOf`. That module imports `state` by name (lines 6-13), and `reset_session` rebinds the global. The model treats a reset simply as the record becoming the default.
- Sessions.StatusOf: describes the session module's own record, not what the endpoint returns. The endpoint reads the binding made at import (`backend_/fast_api.py:216-220`), so after the first `reset_session` it keeps reporting the record as it stood just before that reset, and later operations never reach it.
- Sessions.StatusAfterReset: for the same reason, it states what the module's record reports after a reset, not what the `/status` endpoint returns.
- Concurrent calls on the shared record are not modelled: operations run one at a time.
- The frontend (`frontend/`) and the manual script `backend_/test_api.py` are not part of this model.

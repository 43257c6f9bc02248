/** The three prompts of backend_/sessions.py, character for character as
    its f-strings build them, and what each one is guaranteed to embed. */
module Prompts {
  import opened Text

  const QuestionIntro: string := "\nYou are an exam question generator.\n"
  const QuestionLead: string := "\n\nBased on the following past exam questions:"
  const QuestionInstructions: string :=
    "\n\nGenerate a new, original question that fits the same topic and difficulty level.\n"
    + "The question should be clear, specific, and test similar concepts.\n"

  /** `chr(10).join(f"- {q}" for q in sample)`. */
  function Bullets(sample: seq<string>): string {
    if sample == [] then ""
    else if |sample| == 1 then "- " + sample[0]
    else "- " + sample[0] + "\n" + Bullets(sample[1..])
  }

  /** The prompt `generate_question` sends for a topic and its sampled
      examples. */
  function QuestionPrompt(topic: int, sample: seq<string>): string {
    QuestionIntro + ("Topic ID: " + Decimal(topic)) + QuestionLead + ("\n" + Bullets(sample)) + QuestionInstructions
  }

  const AnswerIntro: string :=
    "\nYou are an expert exam tutor.\n\nPlease provide a comprehensive answer to this exam question:"
  const AnswerInstructions: string :=
    "\nYour answer should:\n- Be clear and well-structured\n"
    + "- Include step-by-step reasoning where appropriate\n"
    + "- Provide concrete examples if helpful\n- Be at an appropriate academic level\n"

  /** The prompt `show_answer` sends for the current question. */
  function AnswerPrompt(question: string): string {
    AnswerIntro + ("\n" + question + "\n") + AnswerInstructions
  }

  const ClarifyIntro: string := "\nYou are a helpful exam tutor.\n\n"
  const ClarifyLead: string := "\n\nA student has asked this follow-up question:\n"
  const ClarifyInstructions: string :=
    "\n\nPlease provide a clear, helpful explanation that addresses their specific question.\n"
    + "Be patient and educational in your response.\n"

  /** The prompt `clarify` sends for the current question and a follow-up. */
  function ClarifyPrompt(question: string, followUp: string): string {
    ClarifyIntro + ("Original Question: " + question) + ClarifyLead + ("\"" + followUp + "\"") + ClarifyInstructions
  }

  /** Every sampled example starts a line of its own, after "- ". */
  lemma {:induction false} BulletLine(sample: seq<string>, i: nat)
    requires i < |sample|
    ensures IsInfix("\n- " + sample[i], "\n" + Bullets(sample))
    decreases i
  {
    var line := "\n- " + sample[0];
    if |sample| == 1 {
      InfixOfConcat([], line, []);
      assert [] + line + [] == "\n" + Bullets(sample);
    } else {
      var rest := "\n" + Bullets(sample[1..]);
      assert "\n" + Bullets(sample) == line + rest;
      if i == 0 {
        InfixOfConcat([], line, rest);
        assert [] + line + rest == line + rest;
      } else {
        BulletLine(sample[1..], i - 1);
        InfixExtendLeft(line, "\n- " + sample[i], rest);
      }
    }
  }

  /** The question prompt names the topic id and lists every sampled example
      on a line of its own, as "- " followed by the example verbatim. */
  lemma QuestionPromptEmbeds(topic: int, sample: seq<string>)
    ensures IsInfix("Topic ID: " + Decimal(topic), QuestionPrompt(topic, sample))
    ensures forall i :: 0 <= i < |sample| ==> IsInfix("\n- " + sample[i], QuestionPrompt(topic, sample))
  {
    var named := "Topic ID: " + Decimal(topic);
    var bullets := "\n" + Bullets(sample);
    InfixOfConcat5(QuestionIntro, named, QuestionLead, bullets, QuestionInstructions);
    forall i | 0 <= i < |sample| ensures IsInfix("\n- " + sample[i], QuestionPrompt(topic, sample)) {
      BulletLine(sample, i);
      InfixWithin(QuestionIntro + named + QuestionLead, "\n- " + sample[i], bullets, QuestionInstructions);
    }
  }

  /** The answer prompt holds the current question verbatim, on lines of its
      own. */
  lemma AnswerPromptEmbeds(question: string)
    ensures IsInfix("\n" + question + "\n", AnswerPrompt(question))
  {
    InfixOfConcat(AnswerIntro, "\n" + question + "\n", AnswerInstructions);
  }

  /** The clarification prompt holds the question verbatim after "Original
      Question: " and the follow-up verbatim between double quotes. */
  lemma ClarifyPromptEmbeds(question: string, followUp: string)
    ensures IsInfix("Original Question: " + question, ClarifyPrompt(question, followUp))
    ensures IsInfix("\"" + followUp + "\"", ClarifyPrompt(question, followUp))
  {
    InfixOfConcat5(ClarifyIntro, "Original Question: " + question, ClarifyLead,
                   "\"" + followUp + "\"", ClarifyInstructions);
  }
}

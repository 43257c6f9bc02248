/** Concrete runs of the session engine: a scripted backend, a two-topic
    corpus, and what each sequence of operations is guaranteed to leave
    behind. */
module Scenarios {
  import opened Optional
  import opened Text
  import opened Generation
  import opened Topics
  import opened Prompts
  import opened Sessions

  /** Topic 1 has two example questions, topic 2 none. */
  function TwoTopics(): Corpus {
    Corpus([1, 2], map[1 := ["Q1", "Q2"], 2 := []])
  }

  /** A backend that fails on its first two calls and then answers. */
  function FlakyBackend(): Oracle {
    (n: nat, messages: Messages) => if n < 2 then Fail("timeout") else Ok("  Fine. ")
  }

  /** A backend that always answers, with the call number's parity
      choosing the text. */
  function SteadyBackend(): Oracle {
    (n: nat, messages: Messages) => if n % 2 == 0 then Ok("What is X?") else Ok(" X is Y.\n")
  }

  /** The wrapper with its defaults, against a backend that fails twice and
      then succeeds: the stripped third reply, three calls, sleeps of 1 then
      2 seconds. */
  method FailFailSucceed() returns (c: Completion, calls: nat, slept: seq<nat>)
    ensures c == Returned("Fine.")
    ensures calls == 3 && slept == [1, 2]
  {
    var client := new Client(FlakyBackend());
    var messages := Ask("prompt");
    c := CallWithRetry(client, messages, 3, 1);
    RetryFailFailSucceed(client.oracle, 0, messages);
    assert Strip("  Fine. ") == "Fine." by {
      StripPadded("  ", "Fine.", " ");
      assert "  " + "Fine." + " " == "  Fine. ";
    }
    calls, slept := |client.requests|, client.slept;
  }

  /** Two draws without replacement from topic 1's two examples are both
      of them. */
  lemma SubBagOfPair(sample: seq<string>)
    requires |sample| == 2 && multiset(sample) <= multiset(["Q1", "Q2"])
    ensures multiset(sample) == multiset{"Q1", "Q2"}
  {
    var a, b := sample[0], sample[1];
    assert sample == [a, b];
    assert multiset(["Q1", "Q2"]) == multiset{"Q1", "Q2"};
    assert multiset(sample) == multiset{a, b};
    assert a in multiset{"Q1", "Q2"} && b in multiset{"Q1", "Q2"};
    assert a != b by {
      assert multiset{a, b}[a] == if a == b then 2 else 1;
    }
  }

  /** Whatever positions the sampling picks, a question on topic 1 is
      prompted with both of its examples. */
  lemma TopicOneSample(picks: seq<nat>)
    requires IsSampleIndices(picks, 2)
    ensures var sample := Select(ExamplesOf(TwoTopics(), 1), picks);
      |sample| == 2 && multiset(sample) == multiset{"Q1", "Q2"}
  {
    var pool := ExamplesOf(TwoTopics(), 1);
    assert pool == ["Q1", "Q2"];
    SampleShape(pool, picks);
    SubBagOfPair(Select(pool, picks));
  }

  /** A draw of topic 2, which has no examples, fails, calls no backend and
      leaves the history as it was. */
  method TopicWithoutExamples() returns (r: Response, calls: nat, history: seq<Entry>)
    ensures r == Error("No examples available for this topic.")
    ensures calls == 0 && history == []
  {
    var client := new Client(SteadyBackend());
    var session := new Session(TwoTopics());
    assert ExamplesOf(TwoTopics(), 2) == [];
    r := session.GenerateQuestion(Drawn(2), [], client);
    calls, history := |client.requests|, session.chatHistory;
  }

  /** An answer asked for before any question fails, calls no backend and
      leaves the history empty. */
  method AnswerBeforeQuestion() returns (r: Response, calls: nat, history: seq<Entry>)
    ensures r == Error("No current question to answer.")
    ensures calls == 0 && history == []
  {
    var client := new Client(SteadyBackend());
    var session := new Session(TwoTopics());
    r := session.ShowAnswer(client);
    calls, history := |client.requests|, session.chatHistory;
  }
}

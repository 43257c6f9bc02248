/** The retry-wrapped generation client: `call_openai_with_retry` in
    backend_/sessions.py. The text-generation backend is an opaque oracle that
    gives the reply to the n-th call; the clock only records how long each
    `time.sleep` would block. */
module Generation {
  import opened Text

  datatype Role = System | User

  /** One `{"role": ..., "content": ...}` entry of the prompt context. */
  datatype Message = Message(role: Role, content: string)

  type Messages = seq<Message>

  /** The single-user-message context every operation sends. */
  function Ask(prompt: string): Messages {
    [Message(User, prompt)]
  }

  /** What one backend call does: return a completion's content, or raise. */
  datatype Reply = Ok(content: string) | Fail(error: string)

  /** What `call_openai_with_retry` does: return text, re-raise the last
      error, or fall off the end of the loop and return `None`. */
  datatype Completion = Returned(text: string) | Raised(error: string) | NoneReturned

  /** The outcome of the wrapper together with the number of backend calls it
      made and the sleeps it performed, in order. */
  datatype Run = Run(result: Completion, attempts: nat, sleeps: seq<nat>)

  type Oracle = (nat, Messages) -> Reply

  /** The reply to attempt `j` of a run whose first call is the backend's
      call number `first`. */
  function ReplyAt(oracle: Oracle, first: nat, messages: Messages, j: nat): Reply {
    oracle(first + j, messages)
  }

  function Pow2(n: nat): (r: nat)
    ensures r >= 1
  {
    if n == 0 then 1 else 2 * Pow2(n - 1)
  }

  /** `delay * (2 ** attempt)`: the sleep after failed attempt `attempt`. */
  function Backoff(delay: nat, attempt: nat): nat {
    delay * Pow2(attempt)
  }

  /** The sleeps `delay * 2 ** attempt` for attempt = lo, ..., hi - 1. */
  function Backoffs(delay: nat, lo: nat, hi: nat): (r: seq<nat>)
    ensures |r| == if hi <= lo then 0 else hi - lo
    ensures forall k :: 0 <= k < |r| ==> r[k] == Backoff(delay, lo + k)
    decreases hi - lo
  {
    if hi <= lo then [] else Backoffs(delay, lo, hi - 1) + [Backoff(delay, hi - 1)]
  }

  /** The first sleep of a schedule followed by the rest of it. */
  lemma BackoffsCons(delay: nat, lo: nat, hi: nat)
    requires lo < hi
    ensures [Backoff(delay, lo)] + Backoffs(delay, lo + 1, hi) == Backoffs(delay, lo, hi)
  {
    var r := Backoffs(delay, lo, hi);
    var t := Backoffs(delay, lo + 1, hi);
    assert |[Backoff(delay, lo)] + t| == |r|;
    forall k | 0 <= k < |r| ensures ([Backoff(delay, lo)] + t)[k] == r[k] {
      if k > 0 {
        assert t[k - 1] == Backoff(delay, lo + 1 + (k - 1));
      }
    }
  }

  /** The loop of `call_openai_with_retry` from iteration `attempt` on. */
  function RetryFrom(oracle: Oracle, first: nat, messages: Messages, attempt: nat,
                     maxRetries: int, delay: nat): Run
    decreases maxRetries - attempt
  {
    if maxRetries <= attempt then Run(NoneReturned, 0, [])
    else
      var reply := ReplyAt(oracle, first, messages, attempt);
      if reply.Ok? then Run(Returned(Strip(reply.content)), 1, [])
      else if attempt < maxRetries - 1 then
        var rest := RetryFrom(oracle, first, messages, attempt + 1, maxRetries, delay);
        Run(rest.result, rest.attempts + 1, [Backoff(delay, attempt)] + rest.sleeps)
      else
        Run(Raised(reply.error), 1, [])
  }

  /** The whole of one `call_openai_with_retry(messages, max_retries=maxRetries,
      delay=delay)` whose first backend call is call number `first`. */
  function RetryRun(oracle: Oracle, first: nat, messages: Messages, maxRetries: int, delay: nat): Run {
    RetryFrom(oracle, first, messages, 0, maxRetries, delay)
  }

  lemma {:induction false} RetryFromShape(oracle: Oracle, first: nat, messages: Messages, attempt: nat,
                                          maxRetries: int, delay: nat)
    ensures var run := RetryFrom(oracle, first, messages, attempt, maxRetries, delay);
      && (maxRetries <= attempt ==> run == Run(NoneReturned, 0, []))
      && (attempt < maxRetries ==>
            && 1 <= run.attempts <= maxRetries - attempt
            && !run.result.NoneReturned?
            && run.sleeps == Backoffs(delay, attempt, attempt + run.attempts - 1))
    decreases maxRetries - attempt
  {
    if attempt < maxRetries && ReplyAt(oracle, first, messages, attempt).Fail? && attempt < maxRetries - 1 {
      RetryFromShape(oracle, first, messages, attempt + 1, maxRetries, delay);
      var rest := RetryFrom(oracle, first, messages, attempt + 1, maxRetries, delay);
      var run := RetryFrom(oracle, first, messages, attempt, maxRetries, delay);
      assert run.sleeps == Backoffs(delay, attempt, attempt + run.attempts - 1);
    }
  }

  /** The wrapper makes at most `maxRetries` backend calls, and sleeps once
      after every call but the last, `delay * 2 ** attempt` after attempt
      `attempt`. With `maxRetries <= 0` it makes no call and returns `None`. */
  lemma RetryBounds(oracle: Oracle, first: nat, messages: Messages, maxRetries: int, delay: nat)
    ensures var run := RetryRun(oracle, first, messages, maxRetries, delay);
      && (maxRetries <= 0 ==> run == Run(NoneReturned, 0, []))
      && (maxRetries > 0 ==>
            && 1 <= run.attempts <= maxRetries
            && !run.result.NoneReturned?
            && |run.sleeps| == run.attempts - 1
            && forall k :: 0 <= k < |run.sleeps| ==> run.sleeps[k] == delay * Pow2(k))
  {
    RetryFromShape(oracle, first, messages, 0, maxRetries, delay);
  }

  lemma {:induction false} RetryFromFirstSuccess(oracle: Oracle, first: nat, messages: Messages, attempt: nat,
                                                 maxRetries: int, delay: nat, k: nat)
    requires attempt <= k < maxRetries
    requires ReplyAt(oracle, first, messages, k).Ok?
    requires forall j :: attempt <= j < k ==> ReplyAt(oracle, first, messages, j).Fail?
    ensures RetryFrom(oracle, first, messages, attempt, maxRetries, delay)
         == Run(Returned(Strip(ReplyAt(oracle, first, messages, k).content)), k - attempt + 1, Backoffs(delay, attempt, k))
    decreases k - attempt
  {
    var reply := ReplyAt(oracle, first, messages, k);
    if attempt < k {
      assert ReplyAt(oracle, first, messages, attempt).Fail?;
      var rest := RetryFrom(oracle, first, messages, attempt + 1, maxRetries, delay);
      assert RetryFrom(oracle, first, messages, attempt, maxRetries, delay)
          == Run(rest.result, rest.attempts + 1, [Backoff(delay, attempt)] + rest.sleeps);
      RetryFromFirstSuccess(oracle, first, messages, attempt + 1, maxRetries, delay, k);
      BackoffsCons(delay, attempt, k);
    } else {
      assert RetryFrom(oracle, first, messages, attempt, maxRetries, delay)
          == Run(Returned(Strip(reply.content)), 1, []);
    }
  }

  /** When attempt `k` is the first that succeeds, the wrapper returns the
      stripped content of that reply after exactly `k + 1` calls and the sleeps
      `delay * 2 ** j` for j < k. */
  lemma RetryReturnsFirstSuccess(oracle: Oracle, first: nat, messages: Messages, maxRetries: int, delay: nat, k: nat)
    requires k < maxRetries
    requires ReplyAt(oracle, first, messages, k).Ok?
    requires forall j :: 0 <= j < k ==> ReplyAt(oracle, first, messages, j).Fail?
    ensures RetryRun(oracle, first, messages, maxRetries, delay)
         == Run(Returned(Strip(ReplyAt(oracle, first, messages, k).content)), k + 1, Backoffs(delay, 0, k))
  {
    RetryFromFirstSuccess(oracle, first, messages, 0, maxRetries, delay, k);
  }

  lemma {:induction false} RetryFromAllFail(oracle: Oracle, first: nat, messages: Messages, attempt: nat,
                                            maxRetries: nat, delay: nat)
    requires attempt < maxRetries
    requires forall j :: attempt <= j < maxRetries ==> ReplyAt(oracle, first, messages, j).Fail?
    ensures RetryFrom(oracle, first, messages, attempt, maxRetries, delay)
         == Run(Raised(ReplyAt(oracle, first, messages, maxRetries - 1).error), maxRetries - attempt,
                Backoffs(delay, attempt, maxRetries - 1))
    decreases maxRetries - attempt
  {
    assert ReplyAt(oracle, first, messages, attempt).Fail?;
    if attempt < maxRetries - 1 {
      RetryFromAllFail(oracle, first, messages, attempt + 1, maxRetries, delay);
      BackoffsCons(delay, attempt, maxRetries - 1);
    } else {
      assert Backoffs(delay, attempt, maxRetries - 1) == [];
    }
  }

  lemma {:induction false} RetryFromRaised(oracle: Oracle, first: nat, messages: Messages, attempt: nat,
                                           maxRetries: int, delay: nat)
    requires RetryFrom(oracle, first, messages, attempt, maxRetries, delay).result.Raised?
    ensures attempt < maxRetries
    ensures forall j :: attempt <= j < maxRetries ==> ReplyAt(oracle, first, messages, j).Fail?
    decreases maxRetries - attempt
  {
    if attempt < maxRetries - 1 && ReplyAt(oracle, first, messages, attempt).Fail? {
      RetryFromRaised(oracle, first, messages, attempt + 1, maxRetries, delay);
    }
  }

  /** The wrapper re-raises exactly when there is at least one attempt and
      every one of the `maxRetries` attempts fails; it then re-raises the last
      error after `maxRetries` calls. */
  lemma RetryRaisesIffAllFail(oracle: Oracle, first: nat, messages: Messages, maxRetries: int, delay: nat)
    ensures var run := RetryRun(oracle, first, messages, maxRetries, delay);
      run.result.Raised? <==>
        maxRetries > 0 && forall j :: 0 <= j < maxRetries ==> ReplyAt(oracle, first, messages, j).Fail?
    ensures var run := RetryRun(oracle, first, messages, maxRetries, delay);
      run.result.Raised? ==>
        && run.result.error == ReplyAt(oracle, first, messages, maxRetries - 1).error
        && run.attempts == maxRetries
  {
    var run := RetryRun(oracle, first, messages, maxRetries, delay);
    if run.result.Raised? {
      RetryFromRaised(oracle, first, messages, 0, maxRetries, delay);
    }
    if maxRetries > 0 && forall j :: 0 <= j < maxRetries ==> ReplyAt(oracle, first, messages, j).Fail? {
      RetryFromAllFail(oracle, first, messages, 0, maxRetries, delay);
    }
  }

  /** One iteration of the loop, unfolded: what the rest of the run is after
      the reply to attempt `attempt`. */
  lemma RetryFromStep(oracle: Oracle, first: nat, messages: Messages, attempt: nat,
                      maxRetries: int, delay: nat)
    requires attempt < maxRetries
    ensures var reply := ReplyAt(oracle, first, messages, attempt);
      var run := RetryFrom(oracle, first, messages, attempt, maxRetries, delay);
      && (reply.Ok? ==> run == Run(Returned(Strip(reply.content)), 1, []))
      && (reply.Fail? && attempt == maxRetries - 1 ==> run == Run(Raised(reply.error), 1, []))
      && (reply.Fail? && attempt < maxRetries - 1 ==>
            var next := RetryFrom(oracle, first, messages, attempt + 1, maxRetries, delay);
            run == Run(next.result, next.attempts + 1, [Backoff(delay, attempt)] + next.sleeps))
  {
  }

  /** Moving one sleep from the rest of a run to the schedule already slept. */
  lemma ShiftSleep(delay: nat, attempt: nat, rest: seq<nat>)
    ensures Backoffs(delay, 0, attempt) + ([Backoff(delay, attempt)] + rest)
         == Backoffs(delay, 0, attempt + 1) + rest
  {
    assert Backoffs(delay, 0, attempt + 1) == Backoffs(delay, 0, attempt) + [Backoff(delay, attempt)];
  }

  /** With the defaults (three attempts, delay 1), a backend that fails twice
      and then succeeds is called three times and the wrapper sleeps 1 then 2. */
  lemma RetryFailFailSucceed(oracle: Oracle, first: nat, messages: Messages)
    requires ReplyAt(oracle, first, messages, 0).Fail?
    requires ReplyAt(oracle, first, messages, 1).Fail?
    requires ReplyAt(oracle, first, messages, 2).Ok?
    ensures RetryRun(oracle, first, messages, 3, 1)
         == Run(Returned(Strip(ReplyAt(oracle, first, messages, 2).content)), 3, [1, 2])
  {
    RetryReturnsFirstSuccess(oracle, first, messages, 3, 1, 2);
    assert Backoffs(1, 0, 2) == [1, 2];
  }

  function Repeat(messages: Messages, n: nat): (r: seq<Messages>)
    ensures |r| == n && forall k :: 0 <= k < n ==> r[k] == messages
  {
    if n == 0 then [] else Repeat(messages, n - 1) + [messages]
  }

  /** `[lo, lo + 1, ..., lo + n - 1]`. */
  function Span(lo: nat, n: nat): (r: seq<nat>)
    ensures |r| == n && forall k :: 0 <= k < n ==> r[k] == lo + k
  {
    if n == 0 then [] else Span(lo, n - 1) + [lo + n - 1]
  }

  /** The OpenAI client as the session engine sees it: a backend that answers
      its n-th call with `oracle(n, messages)`, with a log of the contexts it
      was sent and of the sleeps performed between calls. For each sleep,
      `sleptAfter` records how many calls had been made when it happened. */
  class Client {
    const oracle: Oracle
    var requests: seq<Messages>
    var slept: seq<nat>
    ghost var sleptAfter: seq<nat>

    constructor (oracle: Oracle)
      ensures this.oracle == oracle && requests == [] && slept == [] && sleptAfter == []
    {
      this.oracle := oracle;
      requests := [];
      slept := [];
      sleptAfter := [];
    }

    /** `client.chat.completions.create(...)`. */
    method Complete(messages: Messages) returns (reply: Reply)
      modifies this
      ensures reply == oracle(|old(requests)|, messages)
      ensures requests == old(requests) + [messages]
      ensures slept == old(slept) && sleptAfter == old(sleptAfter)
    {
      reply := oracle(|requests|, messages);
      requests := requests + [messages];
    }

    /** `time.sleep(seconds)`. */
    method Sleep(seconds: nat)
      modifies this
      ensures slept == old(slept) + [seconds] && requests == old(requests)
      ensures sleptAfter == old(sleptAfter) + [|requests|]
    {
      slept := slept + [seconds];
      sleptAfter := sleptAfter + [|requests|];
    }

    /** What one call of the wrapper leaves behind: as many requests as
        `RetryRun` says attempts were made, and its sleeps, the k-th of them
        right after the wrapper's (k + 1)-th call. */
    twostate predicate Retried(messages: Messages, maxRetries: int, delay: nat)
      reads this
    {
      var run := RetryRun(oracle, |old(requests)|, messages, maxRetries, delay);
      && requests == old(requests) + Repeat(messages, run.attempts)
      && slept == old(slept) + run.sleeps
      && sleptAfter == old(sleptAfter) + Span(|old(requests)| + 1, |run.sleeps|)
    }
  }

  /** `call_openai_with_retry(messages, max_retries=maxRetries, delay=delay)`. */
  method CallWithRetry(client: Client, messages: Messages, maxRetries: int, delay: nat) returns (c: Completion)
    modifies client
    ensures c == RetryRun(client.oracle, |old(client.requests)|, messages, maxRetries, delay).result
    ensures client.Retried(messages, maxRetries, delay)
    ensures maxRetries > 0 ==> !c.NoneReturned?
    ensures forall k :: |old(client.sleptAfter)| <= k < |client.sleptAfter| ==>
      |old(client.requests)| < client.sleptAfter[k] < |client.requests|
  {
    ghost var first := |client.requests|;
    ghost var oracle := client.oracle;
    var attempt: nat := 0;
    while attempt < maxRetries
      invariant attempt == 0 || attempt < maxRetries
      invariant client.requests == old(client.requests) + Repeat(messages, attempt)
      invariant client.slept == old(client.slept) + Backoffs(delay, 0, attempt)
      invariant client.sleptAfter == old(client.sleptAfter) + Span(first + 1, attempt)
      invariant attempt < maxRetries ==>
        RetryRun(oracle, first, messages, maxRetries, delay).result
          == RetryFrom(oracle, first, messages, attempt, maxRetries, delay).result
      invariant attempt < maxRetries ==>
        RetryRun(oracle, first, messages, maxRetries, delay).attempts
          == attempt + RetryFrom(oracle, first, messages, attempt, maxRetries, delay).attempts
      invariant attempt < maxRetries ==>
        RetryRun(oracle, first, messages, maxRetries, delay).sleeps
          == Backoffs(delay, 0, attempt) + RetryFrom(oracle, first, messages, attempt, maxRetries, delay).sleeps
      decreases maxRetries - attempt
    {
      ghost var rest := RetryFrom(oracle, first, messages, attempt, maxRetries, delay);
      RetryFromStep(oracle, first, messages, attempt, maxRetries, delay);
      var reply := client.Complete(messages);
      assert reply == ReplyAt(oracle, first, messages, attempt);
      assert client.requests == old(client.requests) + Repeat(messages, attempt + 1);
      if reply.Ok? {
        c := Returned(Strip(reply.content));
        return;
      }
      if attempt == maxRetries - 1 {
        c := Raised(reply.error);
        return;
      }
      ghost var next := RetryFrom(oracle, first, messages, attempt + 1, maxRetries, delay);
      client.Sleep(Backoff(delay, attempt));
      ShiftSleep(delay, attempt, next.sleeps);
      attempt := attempt + 1;
    }
    assert RetryRun(oracle, first, messages, maxRetries, delay) == Run(NoneReturned, 0, []);
    c := NoneReturned;
  }
}

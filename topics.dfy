/** The pre-loaded topic tables of backend_/sessions.py: the topic rows that
    the weighted draw picks from, and `example_questions`, the past questions
    grouped by topic. Also the two random draws `generate_question` makes, as
    the values the random source handed back. */
module Topics {

  datatype Corpus = Corpus(topics: seq<int>, examples: map<int, seq<string>>)

  /** `example_questions.get(topic_id, [])`. */
  function ExamplesOf(corpus: Corpus, topic: int): seq<string> {
    if topic in corpus.examples then corpus.examples[topic] else []
  }

  /** The outcome of `topics_df.sample(weights=...)` followed by `int(...)`:
      either a topic id, or the exception pandas or `int` raised. */
  datatype Draw = Drawn(topic: int) | DrawFailed(reason: string)

  /** A drawn topic is one of the table's rows. */
  predicate FromTable(corpus: Corpus, draw: Draw) {
    draw.Drawn? ==> draw.topic in corpus.topics
  }

  /** The examples of the drawn topic; nothing when the draw failed. */
  function PoolOf(corpus: Corpus, draw: Draw): seq<string> {
    if draw.Drawn? then ExamplesOf(corpus, draw.topic) else []
  }

  function Min(a: int, b: int): int {
    if a <= b then a else b
  }

  predicate InRange(picks: seq<nat>, n: nat) {
    forall k :: 0 <= k < |picks| ==> picks[k] < n
  }

  predicate Distinct(picks: seq<nat>) {
    forall i, j :: 0 <= i < j < |picks| ==> picks[i] != picks[j]
  }

  /** The positions `random.sample(examples, min(3, len(examples)))` chose:
      `min(3, n)` different positions of a list of length `n`. */
  predicate IsSampleIndices(picks: seq<nat>, n: nat) {
    |picks| == Min(3, n) && InRange(picks, n) && Distinct(picks)
  }

  /** The elements of `pool` at `picks`, in the order they were picked. */
  function Select(pool: seq<string>, picks: seq<nat>): (r: seq<string>)
    requires InRange(picks, |pool|)
    ensures |r| == |picks|
    ensures forall k :: 0 <= k < |picks| ==> r[k] == pool[picks[k]]
  {
    if picks == [] then [] else [pool[picks[0]]] + Select(pool, picks[1..])
  }

  /** Renumbers positions of `pool` as positions of `pool` without `p`. */
  function Renumber(picks: seq<nat>, p: nat): (r: seq<nat>)
    requires forall k :: 0 <= k < |picks| ==> picks[k] != p
    ensures |r| == |picks|
    ensures forall k :: 0 <= k < |picks| ==> r[k] == if picks[k] < p then picks[k] else picks[k] - 1
  {
    if picks == [] then []
    else [if picks[0] < p then picks[0] else picks[0] - 1] + Renumber(picks[1..], p)
  }

  /** Renumbering keeps distinct positions distinct and in range of the
      shorter pool. */
  lemma RenumberKeepsIndices(rest: seq<nat>, p: nat, n: nat)
    requires p < n && InRange(rest, n) && Distinct(rest)
    requires forall k :: 0 <= k < |rest| ==> rest[k] != p
    ensures InRange(Renumber(rest, p), n - 1)
    ensures Distinct(Renumber(rest, p))
  {
    var renumbered := Renumber(rest, p);
    forall k | 0 <= k < |renumbered| ensures renumbered[k] < n - 1 {
      assert rest[k] < n && rest[k] != p;
    }
    forall i, j | 0 <= i < j < |renumbered| ensures renumbered[i] != renumbered[j] {
      assert rest[i] != rest[j];
    }
  }

  /** Leaving position `p` out of `pool` and renumbering the other positions
      selects the same elements. */
  lemma RenumberSelectsSame(pool: seq<string>, rest: seq<nat>, p: nat)
    requires p < |pool| && InRange(rest, |pool|)
    requires forall k :: 0 <= k < |rest| ==> rest[k] != p
    requires InRange(Renumber(rest, p), |pool| - 1)
    ensures Select(pool[..p] + pool[p + 1..], Renumber(rest, p)) == Select(pool, rest)
  {
    var others := pool[..p] + pool[p + 1..];
    var renumbered := Renumber(rest, p);
    var a := Select(others, renumbered);
    var b := Select(pool, rest);
    forall k | 0 <= k < |a| ensures a[k] == b[k] {
      var q := rest[k];
      assert a[k] == others[renumbered[k]] && b[k] == pool[q];
      if q < p {
        assert others[q] == pool[q];
      } else {
        assert others[q - 1] == pool[q];
      }
    }
  }

  lemma BagWithout(pool: seq<string>, p: nat)
    requires p < |pool|
    ensures multiset(pool) == multiset(pool[..p] + pool[p + 1..]) + multiset{pool[p]}
  {
    assert pool == pool[..p] + [pool[p]] + pool[p + 1..];
  }

  /** A sample is drawn without replacement: as a bag, it is contained in the
      topic's examples, so an example occurs in the sample at most as often as
      it occurs among the examples. */
  lemma {:induction false} SampleIsSubBag(pool: seq<string>, picks: seq<nat>)
    requires InRange(picks, |pool|) && Distinct(picks)
    ensures multiset(Select(pool, picks)) <= multiset(pool)
    decreases |picks|
  {
    if picks != [] {
      var p := picks[0];
      var rest := picks[1..];
      var others := pool[..p] + pool[p + 1..];
      assert InRange(rest, |pool|);
      assert Distinct(rest) by {
        forall i, j | 0 <= i < j < |rest| ensures rest[i] != rest[j] {
          assert rest[i] == picks[i + 1] && rest[j] == picks[j + 1];
        }
      }
      forall k | 0 <= k < |rest| ensures rest[k] != p {
        assert rest[k] == picks[k + 1];
      }
      RenumberKeepsIndices(rest, p, |pool|);
      RenumberSelectsSame(pool, rest, p);
      SampleIsSubBag(others, Renumber(rest, p));
      assert Select(pool, picks) == [pool[p]] + Select(pool, rest);
      assert multiset(Select(pool, picks)) == multiset{pool[p]} + multiset(Select(pool, rest));
      BagWithout(pool, p);
    }
  }

  /** What `generate_question` samples: `min(3, len(examples))` examples, each
      one of the topic's examples, none used more often than it occurs. */
  lemma SampleShape(pool: seq<string>, picks: seq<nat>)
    requires IsSampleIndices(picks, |pool|)
    ensures |Select(pool, picks)| == Min(3, |pool|)
    ensures pool != [] ==> 1 <= |Select(pool, picks)| <= 3
    ensures forall q :: q in Select(pool, picks) ==> q in pool
    ensures multiset(Select(pool, picks)) <= multiset(pool)
  {
    SampleIsSubBag(pool, picks);
  }
}

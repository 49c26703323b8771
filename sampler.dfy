/**
 * Stratified question sampling (ScoringScoring/utils/sampler.py). The random
 * generator is an oracle: `rand(k)` is the k-th raw draw of the stream, and a
 * draw below `n` is `rand(k) % n`, standing for Python's `_randbelow(n)`.
 */
module Sampler {
  import opened Wrappers

  /** An entry of the bundled question list; `body` stands for its other JSON fields. */
  datatype Question = Question(category: string, body: string)

  /** `random.sample` refuses a sample larger than the population with `ValueError`. */
  datatype SampleError = SampleLargerThanPopulation(category: string)

  /** `random.choice` on an empty list raises `IndexError`. */
  datatype ChoiceError = EmptySequence

  /** The per-category sampling plan, in the order the dict literal lists it. */
  const Plan: seq<(string, nat)> := [("Family", 4), ("Financial", 4), ("Career", 4), ("Love", 3)]

  /** `[q for q in QUESTIONS if q["category"] == cat]`. */
  function Pool(questions: seq<Question>, cat: string): (pool: seq<Question>)
    ensures forall q :: q in pool ==> q in questions && q.category == cat
    ensures forall q :: q in questions && q.category == cat ==> q in pool
  {
    if questions == [] then []
    else
      var init := Pool(questions[..|questions| - 1], cat);
      var last := questions[|questions| - 1];
      assert questions == questions[..|questions| - 1] + [last];
      if last.category == cat then init + [last] else init
  }

  /** No value occurs twice. */
  predicate Distinct(s: seq<nat>)
  {
    forall p, q :: 0 <= p < q < |s| ==> s[p] != s[q]
  }

  /** `positions` are `k` distinct positions of a population of size `n`. */
  predicate IsSample(positions: seq<nat>, n: nat, k: nat)
  {
    |positions| == k && Distinct(positions) && forall p :: 0 <= p < |positions| ==> positions[p] < n
  }

  /** The elements of `pool` at `positions`, in draw order. */
  function Pick(pool: seq<Question>, positions: seq<nat>): (r: seq<Question>)
    requires forall p :: 0 <= p < |positions| ==> positions[p] < |pool|
    ensures |r| == |positions|
    ensures forall p :: 0 <= p < |r| ==> r[p] == pool[positions[p]]
  {
    if positions == [] then [] else [pool[positions[0]]] + Pick(pool, positions[1..])
  }

  /** The positions `0 .. n-1`, the initial `pool = list(population)` by position. */
  function Range(n: nat): (r: seq<nat>)
    ensures |r| == n && forall p :: 0 <= p < n ==> r[p] == p
  {
    seq(n, p => p)
  }

  /** `pool[j] = pool[n - i - 1]` followed by forgetting the last slot. */
  function MoveLastInto(pool: seq<nat>, j: nat): (r: seq<nat>)
    requires j < |pool|
    ensures |r| == |pool| - 1
  {
    pool[j := pool[|pool| - 1]][..|pool| - 1]
  }

  lemma MoveLastIntoRemoves(pool: seq<nat>, j: nat)
    requires j < |pool| && Distinct(pool)
    ensures Distinct(MoveLastInto(pool, j))
    ensures forall x :: x in MoveLastInto(pool, j) <==> x in pool && x != pool[j]
  {
    var r := MoveLastInto(pool, j);
    var m := |pool| - 1;
    forall t | 0 <= t < |r| ensures r[t] == (if t == j then pool[m] else pool[t]) { }
    forall x | x in pool && x != pool[j] ensures x in r {
      var t :| 0 <= t < |pool| && pool[t] == x;
      if t == m { assert r[j] == x; } else { assert r[t] == x; }
    }
  }

  /**
   * `random.sample(range(n), k)` by CPython's pool method: the k-th step takes a
   * random slot of the shrinking pool and fills it with the pool's last slot.
   */
  method SamplePositions(n: nat, k: nat, rand: nat -> nat, next: nat) returns (chosen: seq<nat>, after: nat)
    requires k <= n
    ensures IsSample(chosen, n, k)
    ensures after == next + k
  {
    var pool := Range(n);
    chosen := [];
    forall x: nat | x < n ensures x in pool {
      assert pool[x] == x;
    }
    var i := 0;
    while i < k
      invariant 0 <= i <= k
      invariant |chosen| == i && |pool| == n - i
      invariant Distinct(chosen) && Distinct(pool)
      invariant forall x :: x in chosen ==> x !in pool
      invariant forall x :: x in chosen || x in pool ==> x < n
      invariant forall x: nat :: x < n ==> x in chosen || x in pool
    {
      var j := rand(next + i) % (n - i);
      var x := pool[j];
      MoveLastIntoRemoves(pool, j);
      assert x !in chosen;
      chosen := chosen + [x];
      pool := MoveLastInto(pool, j);
      i := i + 1;
    }
    forall p | 0 <= p < |chosen| ensures chosen[p] < n {
      assert chosen[p] in chosen;
    }
    after := next + k;
  }

  /** CPython's `random.shuffle`: Fisher-Yates from the last slot down. */
  method Shuffle(a: array<Question>, rand: nat -> nat, next: nat) returns (after: nat)
    modifies a
    ensures multiset(a[..]) == old(multiset(a[..]))
  {
    after := next;
    var i := a.Length;
    while i > 1
      invariant 0 <= i <= a.Length
      invariant multiset(a[..]) == old(multiset(a[..]))
    {
      i := i - 1;
      var j := rand(after) % (i + 1);
      after := after + 1;
      a[i], a[j] := a[j], a[i];
    }
  }

  /** The per-category draws, concatenated in plan order before the shuffle. */
  function Drawn(questions: seq<Question>, draws: seq<seq<nat>>, upTo: nat): seq<Question>
    requires upTo <= |draws| && upTo <= |Plan|
    requires forall p :: 0 <= p < upTo ==> IsSample(draws[p], |Pool(questions, Plan[p].0)|, Plan[p].1)
  {
    if upTo == 0 then []
    else
      assert IsSample(draws[upTo - 1], |Pool(questions, Plan[upTo - 1].0)|, Plan[upTo - 1].1);
      Drawn(questions, draws, upTo - 1) + Pick(Pool(questions, Plan[upTo - 1].0), draws[upTo - 1])
  }

  /** Every category of the plan has at least as many questions as it asks for. */
  predicate Enough(questions: seq<Question>, upTo: nat)
    requires upTo <= |Plan|
  {
    forall p :: 0 <= p < upTo ==> Plan[p].1 <= |Pool(questions, Plan[p].0)|
  }

  /**
   * `get_random_questions()` over `QUESTIONS`: draw each category's quota without
   * replacement, then shuffle the combined list. `draws` records the positions of
   * each category's pool that were drawn.
   */
  method GetRandomQuestions(questions: seq<Question>, rand: nat -> nat)
    returns (r: Result<seq<Question>, SampleError>, ghost draws: seq<seq<nat>>)
    ensures r.Ok? <==> Enough(questions, |Plan|)
    ensures r.Err? ==> exists p :: (0 <= p < |Plan| && Enough(questions, p)
                                && Plan[p].1 > |Pool(questions, Plan[p].0)|
                                && r.error == SampleLargerThanPopulation(Plan[p].0))
    ensures r.Ok? ==> |draws| == |Plan|
    ensures r.Ok? ==> forall p :: 0 <= p < |Plan| ==> IsSample(draws[p], |Pool(questions, Plan[p].0)|, Plan[p].1)
    ensures r.Ok? ==> multiset(r.value) == multiset(Drawn(questions, draws, |Plan|))
  {
    var selected: seq<Question> := [];
    var next := 0;
    draws := [];
    var p := 0;
    while p < |Plan|
      invariant 0 <= p <= |Plan| && |draws| == p
      invariant Enough(questions, p)
      invariant forall t :: 0 <= t < p ==> IsSample(draws[t], |Pool(questions, Plan[t].0)|, Plan[t].1)
      invariant selected == Drawn(questions, draws, p)
    {
      var (cat, n) := Plan[p];
      var pool := Pool(questions, cat);
      if n > |pool| {
        return Err(SampleLargerThanPopulation(cat)), draws;
      }
      var positions;
      positions, next := SamplePositions(|pool|, n, rand, next);
      selected := selected + Pick(pool, positions);
      draws := draws + [positions];
      assert Drawn(questions, draws, p) == Drawn(questions, draws[..p], p) by {
        DrawnPrefix(questions, draws, p);
      }
      p := p + 1;
    }
    var a := new Question[|selected|](t requires 0 <= t < |selected| => selected[t]);
    assert a[..] == selected;
    next := Shuffle(a, rand, next);
    r := Ok(a[..]);
  }

  lemma {:induction false} DrawnPrefix(questions: seq<Question>, draws: seq<seq<nat>>, upTo: nat)
    requires upTo <= |draws| && upTo <= |Plan|
    requires forall p :: 0 <= p < upTo ==> IsSample(draws[p], |Pool(questions, Plan[p].0)|, Plan[p].1)
    ensures Drawn(questions, draws, upTo) == Drawn(questions, draws[..upTo], upTo)
    decreases upTo
  {
    if upTo > 0 {
      DrawnPrefix(questions, draws, upTo - 1);
      assert draws[..upTo][..upTo - 1] == draws[..upTo - 1];
      DrawnPrefix(questions, draws[..upTo], upTo - 1);
    }
  }

  /** How many questions of `s` carry category `cat`. */
  function CountCategory(s: seq<Question>, cat: string): nat
  {
    if s == [] then 0
    else CountCategory(s[..|s| - 1], cat) + (if s[|s| - 1].category == cat then 1 else 0)
  }

  /** The pool of a category holds as many questions as the list has of that category. */
  lemma {:induction false} PoolSize(questions: seq<Question>, cat: string)
    ensures |Pool(questions, cat)| == CountCategory(questions, cat)
  {
    if questions != [] {
      PoolSize(questions[..|questions| - 1], cat);
    }
  }

  lemma {:induction false} CountAppend(a: seq<Question>, b: seq<Question>, cat: string)
    ensures CountCategory(a + b, cat) == CountCategory(a, cat) + CountCategory(b, cat)
  {
    if b != [] {
      assert (a + b)[..|a + b| - 1] == a + b[..|b| - 1];
      CountAppend(a, b[..|b| - 1], cat);
    } else {
      assert a + b == a;
    }
  }

  lemma {:induction false} CountAllOf(s: seq<Question>, cat: string)
    requires forall p :: 0 <= p < |s| ==> s[p].category == cat
    ensures CountCategory(s, cat) == |s|
    ensures forall other :: other != cat ==> CountCategory(s, other) == 0
  {
    if s != [] {
      CountAllOf(s[..|s| - 1], cat);
    }
  }

  lemma {:induction false} CountPermutation(a: seq<Question>, b: seq<Question>, cat: string)
    requires multiset(a) == multiset(b)
    ensures CountCategory(a, cat) == CountCategory(b, cat)
  {
    if a == [] {
      assert |b| == |multiset(b)| == 0;
    } else {
      var n := |a| - 1;
      var x := a[n];
      assert x in multiset(b);
      var k :| 0 <= k < |b| && b[k] == x;
      assert a == a[..n] + [x];
      assert b == b[..k] + [x] + b[k + 1..];
      assert multiset(a[..n]) == multiset(a) - multiset{x};
      assert multiset(b[..k] + b[k + 1..]) == multiset(b) - multiset{x};
      CountPermutation(a[..n], b[..k] + b[k + 1..], cat);
      CountAppend(a[..n], [x], cat);
      CountAppend(b[..k] + [x], b[k + 1..], cat);
      CountAppend(b[..k], [x], cat);
      CountAppend(b[..k], b[k + 1..], cat);
    }
  }

  /** The total quota of the first `upTo` plan entries. */
  function Quota(upTo: nat): nat
    requires upTo <= |Plan|
  {
    if upTo == 0 then 0 else Quota(upTo - 1) + Plan[upTo - 1].1
  }

  lemma PlanCategoriesDistinct()
    ensures forall p, t :: 0 <= p < t < |Plan| ==> Plan[p].0 != Plan[t].0
  {
    assert Plan[0].0[1] != Plan[1].0[1];
    assert Plan[0].0[0] != Plan[2].0[0];
    assert Plan[0].0[0] != Plan[3].0[0];
    assert Plan[1].0[0] != Plan[2].0[0];
    assert Plan[1].0[0] != Plan[3].0[0];
    assert Plan[2].0[0] != Plan[3].0[0];
  }

  /** The questions drawn for the plan entry at `p`: all of its category, all from `questions`. */
  lemma PickedFromPool(questions: seq<Question>, positions: seq<nat>, cat: string)
    requires forall t :: 0 <= t < |positions| ==> positions[t] < |Pool(questions, cat)|
    ensures forall t :: 0 <= t < |positions| ==>
              Pick(Pool(questions, cat), positions)[t] in questions
              && Pick(Pool(questions, cat), positions)[t].category == cat
  {
    var picked := Pick(Pool(questions, cat), positions);
    forall t | 0 <= t < |positions| ensures picked[t] in questions && picked[t].category == cat {
      assert picked[t] in Pool(questions, cat);
    }
  }

  /** Every drawn question comes from `questions`, and there are as many as the quotas add up to. */
  lemma {:induction false} DrawnMembers(questions: seq<Question>, draws: seq<seq<nat>>, upTo: nat)
    requires upTo <= |draws| && upTo <= |Plan|
    requires forall p :: 0 <= p < upTo ==> IsSample(draws[p], |Pool(questions, Plan[p].0)|, Plan[p].1)
    ensures |Drawn(questions, draws, upTo)| == Quota(upTo)
    ensures forall q :: q in Drawn(questions, draws, upTo) ==> q in questions
  {
    if upTo > 0 {
      DrawnMembers(questions, draws, upTo - 1);
      assert IsSample(draws[upTo - 1], |Pool(questions, Plan[upTo - 1].0)|, Plan[upTo - 1].1);
      PickedFromPool(questions, draws[upTo - 1], Plan[upTo - 1].0);
    }
  }

  /** The draws hold each earlier plan category exactly its quota of times, and no later one. */
  lemma {:induction false} DrawnCounts(questions: seq<Question>, draws: seq<seq<nat>>, upTo: nat, p: nat)
    requires upTo <= |draws| && upTo <= |Plan| && p < |Plan|
    requires forall p :: 0 <= p < upTo ==> IsSample(draws[p], |Pool(questions, Plan[p].0)|, Plan[p].1)
    ensures CountCategory(Drawn(questions, draws, upTo), Plan[p].0) == (if p < upTo then Plan[p].1 else 0)
  {
    if upTo > 0 {
      DrawnCounts(questions, draws, upTo - 1, p);
      var cat := Plan[upTo - 1].0;
      assert IsSample(draws[upTo - 1], |Pool(questions, cat)|, Plan[upTo - 1].1);
      var picked := Pick(Pool(questions, cat), draws[upTo - 1]);
      PickedFromPool(questions, draws[upTo - 1], cat);
      CountAllOf(picked, cat);
      CountAppend(Drawn(questions, draws, upTo - 1), picked, Plan[p].0);
      PlanCategoriesDistinct();
    }
  }

  /**
   * What `get_random_questions()` returns: 15 questions of `QUESTIONS`, 4 Family,
   * 4 Financial, 4 Career and 3 Love, whatever the random stream.
   */
  lemma SampleComposition(questions: seq<Question>, result: seq<Question>, draws: seq<seq<nat>>)
    requires |draws| == |Plan|
    requires forall p :: 0 <= p < |Plan| ==> IsSample(draws[p], |Pool(questions, Plan[p].0)|, Plan[p].1)
    requires multiset(result) == multiset(Drawn(questions, draws, |Plan|))
    ensures |result| == 15
    ensures forall q :: q in result ==> q in questions
    ensures CountCategory(result, "Family") == 4 && CountCategory(result, "Financial") == 4
    ensures CountCategory(result, "Career") == 4 && CountCategory(result, "Love") == 3
  {
    var drawn := Drawn(questions, draws, |Plan|);
    DrawnMembers(questions, draws, |Plan|);
    assert |result| == |multiset(result)| == |multiset(drawn)| == |drawn|;
    forall q | q in result ensures q in questions {
      assert q in multiset(drawn);
    }
    forall p | 0 <= p < |Plan| ensures CountCategory(result, Plan[p].0) == Plan[p].1 {
      CountPermutation(result, drawn, Plan[p].0);
      DrawnCounts(questions, draws, |Plan|, p);
    }
  }

  /** `get_random_question()`: `random.choice(QUESTIONS)` with `draw` as the raw draw. */
  function GetRandomQuestion(questions: seq<Question>, draw: nat): (r: Result<Question, ChoiceError>)
    ensures r.Ok? <==> questions != []
    ensures r.Ok? ==> r.value in questions
  {
    if questions == [] then Err(EmptySequence) else Ok(questions[draw % |questions|])
  }

  /** Every question of a non-empty list is chosen by some draw. */
  lemma EveryQuestionCanBeChosen(questions: seq<Question>, k: nat)
    requires k < |questions|
    ensures GetRandomQuestion(questions, k) == Ok(questions[k])
  {
  }
}

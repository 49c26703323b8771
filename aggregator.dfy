/**
 * Response aggregation (ScoringScoring/utils/aggregator.py): the answer-letter
 * scores, the question-number to category table built from the questionnaire
 * sections, and the per-category means that form the classifier's feature vector.
 */
module Aggregator {
  import opened Wrappers
  import opened Categories

  /** One submitted answer: the question number and the answer letter. */
  datatype Response = Response(id: int, answer: string)

  /** A questionnaire section as parsed from the bundled JSON: its display name and question numbers. */
  datatype Section = Section(name: string, numbers: seq<int>)

  /** The `KeyError`s that `aggregate_scores` can raise, with the missing key. */
  datatype AggregateError =
    | UnknownQuestion(id: int)
    | InvalidAnswer(answer: string)
    | UnknownCategory(name: string)

  /** `split()[0]` on a section name with no word in it raises `IndexError`. */
  datatype TableError = EmptySectionName(section: nat)

  // ---------------------------------------------------------------------------
  // ANSWER_MAP
  // ---------------------------------------------------------------------------

  /** The letter that scores `n`: the inverse of `AnswerScore`. */
  function Letter(n: nat): string
    requires n <= 3
  {
    ["ABCD"[n]]
  }

  /** `ANSWER_MAP[answer]`: A, B, C, D score 0, 1, 2, 3; any other key is missing. */
  function AnswerScore(answer: string): (r: Option<nat>)
    ensures r.Some? <==> answer in {"A", "B", "C", "D"}
    ensures r.Some? ==> r.value <= 3 && answer == Letter(r.value)
  {
    if answer == "A" then Some(0)
    else if answer == "B" then Some(1)
    else if answer == "C" then Some(2)
    else if answer == "D" then Some(3)
    else None
  }

  lemma LetterRoundTrip(n: nat)
    requires n <= 3
    ensures AnswerScore(Letter(n)) == Some(n)
  {
  }

  // ---------------------------------------------------------------------------
  // ID_TO_CATEGORY
  // ---------------------------------------------------------------------------

  /** The characters Python's `str.split()` treats as separators: those for which `str.isspace()` holds. */
  predicate IsSpace(c: char)
  {
    c == ' ' || ('\t' <= c <= '\r') || ('\U{1C}' <= c <= '\U{1F}')
    || c == '\U{85}' || c == '\U{A0}' || c == '\U{1680}' || ('\U{2000}' <= c <= '\U{200A}')
    || c == '\U{2028}' || c == '\U{2029}' || c == '\U{202F}' || c == '\U{205F}' || c == '\U{3000}'
  }

  /** `w` is the first whitespace-separated word of `s`, starting at position `i`. */
  ghost predicate IsFirstWordAt(s: string, i: nat, w: string)
  {
    && w != []
    && i + |w| <= |s|
    && (forall k :: 0 <= k < i ==> IsSpace(s[k]))
    && s[i..i + |w|] == w
    && (forall k :: 0 <= k < |w| ==> !IsSpace(w[k]))
    && (i + |w| == |s| || IsSpace(s[i + |w|]))
  }

  /** The longest prefix of `s` without a separator. */
  function TakeWord(s: string): (w: string)
    ensures |w| <= |s| && w == s[..|w|]
    ensures forall k :: 0 <= k < |w| ==> !IsSpace(w[k])
    ensures |w| == |s| || IsSpace(s[|w|])
  {
    if s == [] || IsSpace(s[0]) then [] else [s[0]] + TakeWord(s[1..])
  }

  /** The number of separators before the first word of `s`. */
  function LeadingSpace(s: string): (k: nat)
    ensures k <= |s|
    ensures forall j :: 0 <= j < k ==> IsSpace(s[j])
    ensures k == |s| || !IsSpace(s[k])
  {
    if s == [] || !IsSpace(s[0]) then 0 else 1 + LeadingSpace(s[1..])
  }

  /** `s.split()[0]`, or `None` where Python raises `IndexError` (no word at all). */
  function FirstWord(s: string): (r: Option<string>)
    ensures r.None? <==> forall k :: 0 <= k < |s| ==> IsSpace(s[k])
    ensures r.Some? ==> IsFirstWordAt(s, LeadingSpace(s), r.value)
  {
    var k := LeadingSpace(s);
    if k == |s| then None
    else
      var w := TakeWord(s[k..]);
      assert s[k..][..|w|] == s[k..k + |w|];
      Some(w)
  }

  /** Every section name has a first word, so building the table does not raise. */
  ghost predicate AllNamed(sections: seq<Section>)
  {
    forall i :: 0 <= i < |sections| ==> FirstWord(sections[i].name).Some?
  }

  /** What the inner loop does: assign `word` to each number in turn. */
  function AddNumbers(table: map<int, string>, numbers: seq<int>, word: string): map<int, string>
  {
    if numbers == [] then table
    else AddNumbers(table, numbers[..|numbers| - 1], word)[numbers[|numbers| - 1] := word]
  }

  lemma {:induction false} AddNumbersLookup(table: map<int, string>, numbers: seq<int>, word: string, n: int)
    ensures n in AddNumbers(table, numbers, word) <==> n in table || n in numbers
    ensures n in numbers ==> AddNumbers(table, numbers, word)[n] == word
    ensures n !in numbers && n in table ==> AddNumbers(table, numbers, word)[n] == table[n]
  {
    if numbers != [] {
      var init := numbers[..|numbers| - 1];
      assert numbers == init + [numbers[|numbers| - 1]];
      AddNumbersLookup(table, init, word, n);
    }
  }

  /** The table the nested loop leaves behind: later sections overwrite earlier ones. */
  function IdTable(sections: seq<Section>): map<int, string>
    requires AllNamed(sections)
  {
    if sections == [] then map[]
    else
      var last := sections[|sections| - 1];
      AddNumbers(IdTable(sections[..|sections| - 1]), last.numbers, FirstWord(last.name).value)
  }

  /** One more named section extends the table by its numbers. */
  lemma IdTableStep(sections: seq<Section>, i: nat)
    requires i < |sections| && AllNamed(sections[..i]) && FirstWord(sections[i].name).Some?
    ensures AllNamed(sections[..i + 1])
    ensures IdTable(sections[..i + 1])
            == AddNumbers(IdTable(sections[..i]), sections[i].numbers, FirstWord(sections[i].name).value)
  {
    var next := sections[..i + 1];
    assert next[..i] == sections[..i];
    forall k | 0 <= k < |next| ensures FirstWord(next[k].name).Some? {
      if k < i { assert next[k] == sections[..i][k]; }
    }
  }

  /** The loop that fills `ID_TO_CATEGORY` from the parsed sections. */
  method BuildIdToCategory(sections: seq<Section>) returns (r: Result<map<int, string>, TableError>)
    ensures r.Ok? <==> AllNamed(sections)
    ensures r.Ok? ==> r.value == IdTable(sections)
    ensures r.Err? ==> (r.error.section < |sections|
                        && FirstWord(sections[r.error.section].name).None?
                        && AllNamed(sections[..r.error.section]))
  {
    var table: map<int, string> := map[];
    var i := 0;
    while i < |sections|
      invariant 0 <= i <= |sections|
      invariant AllNamed(sections[..i])
      invariant table == IdTable(sections[..i])
    {
      var word := FirstWord(sections[i].name);
      if word.None? {
        return Err(EmptySectionName(i));
      }
      var numbers := sections[i].numbers;
      ghost var before := table;
      var j := 0;
      while j < |numbers|
        invariant 0 <= j <= |numbers|
        invariant table == AddNumbers(before, numbers[..j], word.value)
      {
        assert numbers[..j + 1][..j] == numbers[..j];
        table := table[numbers[j] := word.value];
        j := j + 1;
      }
      assert numbers[..j] == numbers;
      IdTableStep(sections, i);
      i := i + 1;
    }
    assert sections[..i] == sections;
    return Ok(table);
  }

  /** A number is in the table exactly when some section lists it. */
  lemma {:induction false} IdTableDomain(sections: seq<Section>, n: int)
    requires AllNamed(sections)
    ensures n in IdTable(sections) <==> exists i :: 0 <= i < |sections| && n in sections[i].numbers
  {
    if sections != [] {
      var init := sections[..|sections| - 1];
      var last := sections[|sections| - 1];
      AllNamedPrefix(sections, |sections| - 1);
      IdTableDomain(init, n);
      var word := FirstWord(last.name).value;
      assert IdTable(sections) == AddNumbers(IdTable(init), last.numbers, word);
      AddNumbersLookup(IdTable(init), last.numbers, word, n);
      if n in IdTable(init) {
        var i :| 0 <= i < |init| && n in init[i].numbers;
        assert init[i] == sections[i];
      }
      if i :| 0 <= i < |sections| - 1 && n in sections[i].numbers {
        assert init[i] == sections[i];
      }
    }
  }

  /** A number maps to the first word of the last section that lists it. */
  lemma {:induction false} IdTableLastSectionWins(sections: seq<Section>, n: int, i: nat)
    requires AllNamed(sections)
    requires i < |sections| && n in sections[i].numbers
    requires forall k :: i < k < |sections| ==> n !in sections[k].numbers
    ensures n in IdTable(sections) && IdTable(sections)[n] == FirstWord(sections[i].name).value
  {
    var init := sections[..|sections| - 1];
    var last := sections[|sections| - 1];
    AllNamedPrefix(sections, |sections| - 1);
    AddNumbersLookup(IdTable(init), last.numbers, FirstWord(last.name).value, n);
    if i < |sections| - 1 {
      assert init[i] == sections[i];
      forall k | i < k < |init| ensures n !in init[k].numbers {
        assert init[k] == sections[k];
      }
      IdTableLastSectionWins(init, n, i);
    }
  }

  lemma AllNamedPrefix(sections: seq<Section>, j: nat)
    requires AllNamed(sections) && j <= |sections|
    ensures AllNamed(sections[..j])
  {
    forall i | 0 <= i < j ensures FirstWord(sections[..j][i].name).Some? {
      assert sections[..j][i] == sections[i];
    }
  }

  // ---------------------------------------------------------------------------
  // aggregate_scores
  // ---------------------------------------------------------------------------

  /**
   * What the loop body does with one response: look up its category, score its
   * letter, find its bucket, raising the first `KeyError` met.
   */
  function Classify(r: Response, table: map<int, string>): (c: Result<(Category, nat), AggregateError>)
    ensures c.Ok? <==> r.id in table && AnswerScore(r.answer).Some? && FromName(table[r.id]).Some?
    ensures c.Ok? ==> c.value.1 <= 3 && Name(c.value.0) == table[r.id] && r.answer == Letter(c.value.1)
    ensures c.Err? && r.id !in table ==> c.error == UnknownQuestion(r.id)
    ensures c.Err? && r.id in table && AnswerScore(r.answer).None? ==> c.error == InvalidAnswer(r.answer)
    ensures c.Err? && r.id in table && AnswerScore(r.answer).Some? ==> c.error == UnknownCategory(table[r.id])
  {
    if r.id !in table then Err(UnknownQuestion(r.id))
    else
      match AnswerScore(r.answer)
      case None => Err(InvalidAnswer(r.answer))
      case Some(score) =>
        match FromName(table[r.id])
        case None => Err(UnknownCategory(table[r.id]))
        case Some(cat) => Ok((cat, score))
  }

  /** Every response classifies without an error. */
  ghost predicate AllValid(responses: seq<Response>, table: map<int, string>)
  {
    forall i :: 0 <= i < |responses| ==> Classify(responses[i], table).Ok?
  }

  /** `buckets[c]`: the scores of the responses of category `c`, in submission order. */
  ghost function Bucket(responses: seq<Response>, table: map<int, string>, c: Category): seq<nat>
  {
    if responses == [] then []
    else
      var last := responses[|responses| - 1];
      var rest := Bucket(responses[..|responses| - 1], table, c);
      match Classify(last, table)
      case Ok((cat, score)) => if cat == c then rest + [score] else rest
      case Err(_) => rest
  }

  function Sum(s: seq<nat>): nat
  {
    if s == [] then 0 else Sum(s[..|s| - 1]) + s[|s| - 1]
  }

  /** `sum(b) / len(b) if b else 0`, over the reals. */
  function Mean(s: seq<nat>): real
  {
    if s == [] then 0.0 else (Sum(s) as real) / (|s| as real)
  }

  /** The four means, in the order Family, Financial, Career, Love. */
  ghost function Features(responses: seq<Response>, table: map<int, string>): seq<real>
  {
    seq(4, k requires 0 <= k < 4 => Mean(Bucket(responses, table, Order[k])))
  }

  /**
   * `aggregate_scores(responses)` with `ID_TO_CATEGORY` passed as `table`: the
   * first response that cannot be classified raises its `KeyError`; otherwise the
   * result is the four bucket means.
   */
  method AggregateScores(responses: seq<Response>, table: map<int, string>)
    returns (r: Result<seq<real>, AggregateError>)
    ensures r.Ok? <==> AllValid(responses, table)
    ensures r.Ok? ==> |r.value| == 4
    ensures r.Ok? ==> forall k :: 0 <= k < 4 ==> r.value[k] == Mean(Bucket(responses, table, Order[k]))
    ensures r.Ok? ==> r.value == Features(responses, table)
    ensures r.Err? ==> exists i :: 0 <= i < |responses|
                                && AllValid(responses[..i], table)
                                && Classify(responses[i], table) == Err(r.error)
  {
    var buckets: map<Category, seq<nat>> := map[Family := [], Financial := [], Career := [], Love := []];
    var i := 0;
    assert responses[..0] == [];
    forall c: Category ensures c in buckets && buckets[c] == [] {
      match c
      case Family =>
      case Financial =>
      case Career =>
      case Love =>
    }
    while i < |responses|
      invariant 0 <= i <= |responses|
      invariant AllValid(responses[..i], table)
      invariant forall c: Category :: c in buckets && buckets[c] == Bucket(responses[..i], table, c)
    {
      var resp := responses[i];
      BucketStep(responses, i, table);
      if resp.id !in table {
        assert Classify(resp, table) == Err(UnknownQuestion(resp.id));
        return Err(UnknownQuestion(resp.id));
      }
      var cat := table[resp.id];
      var score := AnswerScore(resp.answer);
      if score.None? {
        assert Classify(resp, table) == Err(InvalidAnswer(resp.answer));
        return Err(InvalidAnswer(resp.answer));
      }
      var bucket := FromName(cat);
      if bucket.None? {
        assert Classify(resp, table) == Err(UnknownCategory(cat));
        return Err(UnknownCategory(cat));
      }
      assert Classify(resp, table) == Ok((bucket.value, score.value));
      ValidStep(responses, i, table);
      buckets := buckets[bucket.value := buckets[bucket.value] + [score.value]];
      i := i + 1;
    }
    assert responses[..i] == responses;
    r := Ok([Mean(buckets[Family]), Mean(buckets[Financial]), Mean(buckets[Career]), Mean(buckets[Love])]);
  }

  lemma ValidStep(responses: seq<Response>, i: nat, table: map<int, string>)
    requires i < |responses| && AllValid(responses[..i], table) && Classify(responses[i], table).Ok?
    ensures AllValid(responses[..i + 1], table)
  {
    var pre := responses[..i + 1];
    forall j | 0 <= j < |pre| ensures Classify(pre[j], table).Ok? {
      if j < i { assert pre[j] == responses[..i][j]; }
    }
  }

  /** How one more response extends the buckets. */
  lemma BucketStep(responses: seq<Response>, i: nat, table: map<int, string>)
    requires i < |responses|
    ensures responses[..i + 1][..i] == responses[..i]
    ensures forall c: Category :: Bucket(responses[..i + 1], table, c)
              == Bucket(responses[..i], table, c)
                 + (match Classify(responses[i], table)
                    case Ok((cat, score)) => if cat == c then [score] else []
                    case Err(_) => [])
  {
    assert responses[..i + 1][..i] == responses[..i];
  }

  // ---------------------------------------------------------------------------
  // Properties of the aggregation
  // ---------------------------------------------------------------------------

  lemma {:induction false} SumAtMost(s: seq<nat>, bound: nat)
    requires forall k :: 0 <= k < |s| ==> s[k] <= bound
    ensures Sum(s) <= bound * |s|
  {
    if s != [] {
      SumAtMost(s[..|s| - 1], bound);
    }
  }

  lemma {:induction false} BucketScoresAtMostThree(responses: seq<Response>, table: map<int, string>, c: Category)
    ensures forall k :: 0 <= k < |Bucket(responses, table, c)| ==> Bucket(responses, table, c)[k] <= 3
  {
    if responses != [] {
      BucketScoresAtMostThree(responses[..|responses| - 1], table, c);
    }
  }

  /** Every mean lies between the lowest and the highest answer score. */
  lemma MeanInRange(responses: seq<Response>, table: map<int, string>, c: Category)
    ensures 0.0 <= Mean(Bucket(responses, table, c)) <= 3.0
  {
    var b := Bucket(responses, table, c);
    BucketScoresAtMostThree(responses, table, c);
    if b != [] {
      SumAtMost(b, 3);
      QuotientAtMost(Sum(b) as real, |b| as real, 3.0);
    }
  }

  /** A non-negative total of at most `bound` per item averages to at most `bound`. */
  lemma QuotientAtMost(total: real, count: real, bound: real)
    requires count > 0.0 && 0.0 <= total <= bound * count
    ensures 0.0 <= total / count <= bound
  {
    var q := total / count;
    assert q * count == total;
    if q > bound {
      assert q * count > bound * count;
    }
  }

  /** Every value of the feature vector lies in [0, 3]. */
  lemma FeaturesInRange(responses: seq<Response>, table: map<int, string>)
    ensures |Features(responses, table)| == 4
    ensures forall k :: 0 <= k < 4 ==> 0.0 <= Features(responses, table)[k] <= 3.0
  {
    forall k | 0 <= k < 4 ensures 0.0 <= Features(responses, table)[k] <= 3.0 {
      MeanInRange(responses, table, Order[k]);
    }
  }

  /** A category no response falls into averages to 0. */
  lemma EmptyBucketMeansZero(responses: seq<Response>, table: map<int, string>, c: Category)
    requires forall i :: (0 <= i < |responses| && Classify(responses[i], table).Ok?)
                         ==> Classify(responses[i], table).value.0 != c
    ensures Mean(Bucket(responses, table, c)) == 0.0
  {
    BucketEmptyWhenAbsent(responses, table, c);
  }

  lemma {:induction false} BucketEmptyWhenAbsent(responses: seq<Response>, table: map<int, string>, c: Category)
    requires forall i :: (0 <= i < |responses| && Classify(responses[i], table).Ok?)
                         ==> Classify(responses[i], table).value.0 != c
    ensures Bucket(responses, table, c) == []
  {
    if responses != [] {
      var init := responses[..|responses| - 1];
      forall i | 0 <= i < |init| ensures init[i] == responses[i] { }
      BucketEmptyWhenAbsent(init, table, c);
    }
  }

  /**
   * Buckets split along a split of the responses: a response contributes only
   * to its own category's bucket, and only its own score.
   */
  lemma {:induction false} BucketAppend(a: seq<Response>, b: seq<Response>, table: map<int, string>, c: Category)
    ensures Bucket(a + b, table, c) == Bucket(a, table, c) + Bucket(b, table, c)
  {
    if b != [] {
      var b' := b[..|b| - 1];
      assert (a + b)[..|a + b| - 1] == a + b';
      BucketAppend(a, b', table, c);
    } else {
      assert a + b == a;
    }
  }

  /** Adding one valid response changes its own category's mean and no other. */
  lemma OtherCategoriesUnaffected(responses: seq<Response>, r: Response, table: map<int, string>, c: Category)
    requires Classify(r, table).Ok? && Classify(r, table).value.0 != c
    ensures Bucket([r] + responses, table, c) == Bucket(responses, table, c)
    ensures Bucket(responses + [r], table, c) == Bucket(responses, table, c)
  {
    BucketAppend([r], responses, table, c);
    BucketAppend(responses, [r], table, c);
    assert [r][..0] == [];
  }

  lemma {:induction false} SumAppend(a: seq<nat>, b: seq<nat>)
    ensures Sum(a + b) == Sum(a) + Sum(b)
  {
    if b != [] {
      assert (a + b)[..|a + b| - 1] == a + b[..|b| - 1];
      SumAppend(a, b[..|b| - 1]);
    } else {
      assert a + b == a;
    }
  }

  /** Taking out the response at position `k` takes its score out of the bucket. */
  lemma BucketRemoveAt(b: seq<Response>, k: nat, table: map<int, string>, c: Category)
    requires k < |b|
    ensures |Bucket(b, table, c)| == |Bucket(b[..k] + b[k + 1..], table, c)| + |Bucket([b[k]], table, c)|
    ensures Sum(Bucket(b, table, c)) == Sum(Bucket(b[..k] + b[k + 1..], table, c)) + Sum(Bucket([b[k]], table, c))
  {
    var front, back, bx := Bucket(b[..k], table, c), Bucket(b[k + 1..], table, c), Bucket([b[k]], table, c);
    assert b == b[..k] + [b[k]] + b[k + 1..];
    BucketAppend(b[..k] + [b[k]], b[k + 1..], table, c);
    BucketAppend(b[..k], [b[k]], table, c);
    BucketAppend(b[..k], b[k + 1..], table, c);
    SumAppend(front + bx, back);
    SumAppend(front, bx);
    SumAppend(front, back);
  }

  lemma {:induction false} BucketPermutation(a: seq<Response>, b: seq<Response>, table: map<int, string>, c: Category)
    requires multiset(a) == multiset(b)
    ensures |Bucket(a, table, c)| == |Bucket(b, table, c)|
    ensures Sum(Bucket(a, table, c)) == Sum(Bucket(b, table, c))
  {
    if a == [] {
      assert |b| == |multiset(b)| == 0;
    } else {
      var n := |a| - 1;
      var x := a[n];
      var k := IndexOf(b, x);
      var a', b' := a[..n] + a[n + 1..], b[..k] + b[k + 1..];
      MultisetRemoveAt(a, n);
      MultisetRemoveAt(b, k);
      BucketPermutation(a', b', table, c);
      BucketRemoveAt(b, k, table, c);
      BucketRemoveAt(a, n, table, c);
    }
  }

  lemma IndexOf<T>(s: seq<T>, x: T) returns (k: nat)
    requires x in multiset(s)
    ensures k < |s| && s[k] == x
  {
    k :| 0 <= k < |s| && s[k] == x;
  }

  lemma MultisetRemoveAt<T>(s: seq<T>, k: nat)
    requires k < |s|
    ensures multiset(s[..k] + s[k + 1..]) == multiset(s) - multiset{s[k]}
  {
    assert s == s[..k] + [s[k]] + s[k + 1..];
  }

  /** The order in which responses are submitted does not change any mean, nor whether one is invalid. */
  lemma ResponseOrderIrrelevant(a: seq<Response>, b: seq<Response>, table: map<int, string>)
    requires multiset(a) == multiset(b)
    ensures AllValid(a, table) <==> AllValid(b, table)
    ensures Features(a, table) == Features(b, table)
  {
    forall k | 0 <= k < 4 ensures Features(a, table)[k] == Features(b, table)[k] {
      BucketPermutation(a, b, table, Order[k]);
    }
    if AllValid(a, table) {
      forall j | 0 <= j < |b| ensures Classify(b[j], table).Ok? {
        assert b[j] in multiset(a);
      }
    }
    if AllValid(b, table) {
      forall j | 0 <= j < |a| ensures Classify(a[j], table).Ok? {
        assert a[j] in multiset(b);
      }
    }
  }
}

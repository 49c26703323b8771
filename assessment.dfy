/**
 * The assessment flow of core/views.py (`evaluate_assessment`): answer saving,
 * per-category severity records, dominant-trauma selection, and the way these
 * persistence steps are ordered around aggregation and prediction.
 */
module Assessment {
  import opened Wrappers
  import opened Categories
  import Aggregator

  // ---------------------------------------------------------------------------
  // Severity and percentage
  // ---------------------------------------------------------------------------

  datatype SeverityLevel = Low | Moderate | High | Severe

  /** The severity chain: thresholds 1.0, 1.5 and 2.0, each band closed below. */
  function Severity(score: real): (s: SeverityLevel)
    ensures s == Low <==> score < 1.0
    ensures s == Moderate <==> 1.0 <= score < 1.5
    ensures s == High <==> 1.5 <= score < 2.0
    ensures s == Severe <==> 2.0 <= score
  {
    if score < 1.0 then Low
    else if score < 1.5 then Moderate
    else if score < 2.0 then High
    else Severe
  }

  function Rank(s: SeverityLevel): nat
  {
    match s
    case Low => 0
    case Moderate => 1
    case High => 2
    case Severe => 3
  }

  /** A higher mean score never gives a milder band. */
  lemma SeverityMonotone(a: real, b: real)
    requires a <= b
    ensures Rank(Severity(a)) <= Rank(Severity(b))
  {
  }

  /** `(score / 3.0) * 100`, not clamped. */
  function Percentage(score: real): (p: real)
    ensures 0.0 <= score <= 3.0 ==> 0.0 <= p <= 100.0
    ensures score == p * 3.0 / 100.0
  {
    (score / 3.0) * 100.0
  }

  /** The percentage is strictly increasing in the score, so it determines the score. */
  lemma PercentageInjective(a: real, b: real)
    requires Percentage(a) == Percentage(b)
    ensures a == b
  {
  }

  // ---------------------------------------------------------------------------
  // Answer saving: UserAnswer.update_or_create per response
  // ---------------------------------------------------------------------------

  /** `UserAnswer` rows keyed by (user id, question id). */
  type Answers = map<(int, int), string>

  /** `if user_id:` then `User.objects.get(id=user_id)`, with an unknown id giving no user. */
  function ResolveUser(userId: Option<int>, users: set<int>): (u: Option<int>)
    ensures u.Some? <==> userId.Some? && userId.value != 0 && userId.value in users
    ensures u.Some? ==> u.value == userId.value
  {
    if userId.Some? && userId.value != 0 && userId.value in users then userId else None
  }

  /** The answer rows after upserting each response in turn, skipping unknown questions. */
  function Upserted(answers: Answers, user: int, responses: seq<Aggregator.Response>, questionIds: set<int>): Answers
  {
    if responses == [] then answers
    else
      var before := Upserted(answers, user, responses[..|responses| - 1], questionIds);
      var r := responses[|responses| - 1];
      if r.id in questionIds then before[(user, r.id) := r.answer] else before
  }

  /** The loop over `responses` that saves answers for a resolved user. */
  method SaveAnswers(answers: Answers, user: int, responses: seq<Aggregator.Response>, questionIds: set<int>)
    returns (updated: Answers)
    ensures updated == Upserted(answers, user, responses, questionIds)
  {
    updated := answers;
    var i := 0;
    while i < |responses|
      invariant 0 <= i <= |responses|
      invariant updated == Upserted(answers, user, responses[..i], questionIds)
    {
      assert responses[..i + 1][..i] == responses[..i];
      var response := responses[i];
      if response.id in questionIds {
        updated := updated[(user, response.id) := response.answer];
      }
      i := i + 1;
    }
    assert responses[..i] == responses;
  }

  /** Some response names question `q`. */
  ghost predicate Mentions(responses: seq<Aggregator.Response>, q: int)
  {
    exists i :: 0 <= i < |responses| && responses[i].id == q
  }

  /** A row exists afterwards iff it existed before or a response for a known question created it. */
  lemma {:induction false} UpsertedDomain(answers: Answers, user: int, responses: seq<Aggregator.Response>,
                                          questionIds: set<int>, key: (int, int))
    ensures key in Upserted(answers, user, responses, questionIds)
        <==> key in answers || (key.0 == user && key.1 in questionIds && Mentions(responses, key.1))
  {
    if responses != [] {
      var init := responses[..|responses| - 1];
      UpsertedDomain(answers, user, init, questionIds, key);
      if Mentions(init, key.1) {
        var i :| 0 <= i < |init| && init[i].id == key.1;
        assert responses[i] == init[i];
      }
      if Mentions(responses, key.1) && responses[|responses| - 1].id != key.1 {
        var i :| 0 <= i < |responses| && responses[i].id == key.1;
        assert init[i] == responses[i];
      }
    }
  }

  /** For a known question, the last response that names it wins. */
  lemma {:induction false} UpsertedLastWins(answers: Answers, user: int, responses: seq<Aggregator.Response>,
                                            questionIds: set<int>, i: nat)
    requires i < |responses| && responses[i].id in questionIds
    requires forall j :: i < j < |responses| ==> responses[j].id != responses[i].id
    ensures (user, responses[i].id) in Upserted(answers, user, responses, questionIds)
    ensures Upserted(answers, user, responses, questionIds)[(user, responses[i].id)] == responses[i].answer
  {
    var init := responses[..|responses| - 1];
    if i < |responses| - 1 {
      assert init[i] == responses[i];
      forall j | i < j < |init| ensures init[j].id != init[i].id {
        assert init[j] == responses[j];
      }
      UpsertedLastWins(answers, user, init, questionIds, i);
    }
  }

  /** Rows of other users, of unknown questions and of unmentioned questions keep their value. */
  lemma {:induction false} UpsertedKeepsOthers(answers: Answers, user: int, responses: seq<Aggregator.Response>,
                                               questionIds: set<int>, key: (int, int))
    requires key in answers
    requires key.0 != user || key.1 !in questionIds || !Mentions(responses, key.1)
    ensures key in Upserted(answers, user, responses, questionIds)
    ensures Upserted(answers, user, responses, questionIds)[key] == answers[key]
  {
    if responses != [] {
      var init := responses[..|responses| - 1];
      if Mentions(init, key.1) {
        var i :| 0 <= i < |init| && init[i].id == key.1;
        assert responses[i] == init[i];
      }
      UpsertedKeepsOthers(answers, user, init, questionIds, key);
    }
  }

  // ---------------------------------------------------------------------------
  // Trauma score records
  // ---------------------------------------------------------------------------

  /** A `TraumaScore` row. */
  datatype ScoreRecord = ScoreRecord(user: int, category: Category, percentage: real, severity: SeverityLevel)

  /** The score for category `c`. */
  function RecordFor(user: int, c: Category, score: real): ScoreRecord
  {
    ScoreRecord(user, c, Percentage(score), Severity(score))
  }

  /**
   * The rows the loop over `zip(names, features)` creates for its first `n`
   * pairs: one per category whose `TraumaType` exists.
   */
  function ScoreRecordsFor(user: int, features: seq<real>, traumaTypes: set<Category>, n: nat): seq<ScoreRecord>
    requires n <= |Order| && n <= |features|
  {
    if n == 0 then []
    else
      ScoreRecordsFor(user, features, traumaTypes, n - 1)
      + (if Order[n - 1] in traumaTypes then [RecordFor(user, Order[n - 1], features[n - 1])] else [])
  }

  function Min(a: nat, b: nat): nat
  {
    if a <= b then a else b
  }

  /** The score-record loop of `evaluate_assessment` for a resolved user. */
  method SaveTraumaScores(user: int, features: seq<real>, traumaTypes: set<Category>)
    returns (records: seq<ScoreRecord>)
    ensures records == ScoreRecordsFor(user, features, traumaTypes, Min(|Order|, |features|))
  {
    records := [];
    var n := Min(|Order|, |features|);
    var i := 0;
    while i < n
      invariant 0 <= i <= n
      invariant records == ScoreRecordsFor(user, features, traumaTypes, i)
    {
      var name := Order[i];
      var score := features[i];
      if name in traumaTypes {
        records := records + [ScoreRecord(user, name, Percentage(score), Severity(score))];
      }
      i := i + 1;
    }
  }

  /**
   * At most one row per category, in the order Family, Financial, Career, Love,
   * each for a category that has a `TraumaType` and with that category's own
   * percentage and band.
   */
  lemma {:induction false} ScoreRecordsOrdered(user: int, features: seq<real>, traumaTypes: set<Category>, n: nat)
    requires n <= |Order| && n <= |features|
    ensures |ScoreRecordsFor(user, features, traumaTypes, n)| <= n
    ensures forall i, j :: 0 <= i < j < |ScoreRecordsFor(user, features, traumaTypes, n)| ==>
              Index(ScoreRecordsFor(user, features, traumaTypes, n)[i].category)
              < Index(ScoreRecordsFor(user, features, traumaTypes, n)[j].category)
    ensures forall r :: r in ScoreRecordsFor(user, features, traumaTypes, n) ==>
              (r.category in traumaTypes && Index(r.category) < n
               && r == RecordFor(user, r.category, features[Index(r.category)]))
  {
    if n > 0 {
      ScoreRecordsOrdered(user, features, traumaTypes, n - 1);
    }
  }

  /** A category gets a row exactly when it has a `TraumaType`. */
  lemma {:induction false} ScoreRecordsComplete(user: int, features: seq<real>, traumaTypes: set<Category>, n: nat, c: Category)
    requires n <= |Order| && n <= |features|
    ensures c in traumaTypes && Index(c) < n
        <==> exists r :: r in ScoreRecordsFor(user, features, traumaTypes, n) && r.category == c
  {
    if n > 0 {
      ScoreRecordsComplete(user, features, traumaTypes, n - 1, c);
      ScoreRecordsOrdered(user, features, traumaTypes, n - 1);
      if c in traumaTypes && Index(c) == n - 1 {
        assert RecordFor(user, c, features[n - 1]) in ScoreRecordsFor(user, features, traumaTypes, n);
      }
    }
  }

  // ---------------------------------------------------------------------------
  // Dominant trauma: sorted(prediction.items(), key=prob, reverse=True)
  // ---------------------------------------------------------------------------

  /** One `(label, probability)` item of the prediction dict, in the dict's order. */
  type Item = (string, real)

  /** Stable descending insertion: `x` goes after every element at least as likely. */
  function InsertDesc(x: Item, s: seq<Item>): (r: seq<Item>)
    ensures |r| == |s| + 1
    ensures multiset(r) == multiset(s) + multiset{x}
  {
    if s == [] then [x]
    else if s[0].1 >= x.1 then
      assert s == [s[0]] + s[1..];
      [s[0]] + InsertDesc(x, s[1..])
    else [x] + s
  }

  /** `sorted(items, key=lambda x: x[1], reverse=True)`, stable. */
  function SortDesc(items: seq<Item>): (r: seq<Item>)
    ensures |r| == |items|
    ensures multiset(r) == multiset(items)
  {
    if items == [] then []
    else
      assert items == items[..|items| - 1] + [items[|items| - 1]];
      InsertDesc(items[|items| - 1], SortDesc(items[..|items| - 1]))
  }

  ghost predicate Descending(s: seq<Item>)
  {
    forall i, j :: 0 <= i < j < |s| ==> s[i].1 >= s[j].1
  }

  lemma {:induction false} InsertDescKeepsOrder(x: Item, s: seq<Item>)
    requires Descending(s)
    ensures Descending(InsertDesc(x, s))
  {
    if s != [] && s[0].1 >= x.1 {
      InsertDescKeepsOrder(x, s[1..]);
      var r := InsertDesc(x, s[1..]);
      forall j | 0 <= j < |r| ensures s[0].1 >= r[j].1 {
        assert r[j] in multiset(s[1..]) + multiset{x};
        if r[j] in multiset(s[1..]) {
          var t :| 0 <= t < |s[1..]| && s[1..][t] == r[j];
          assert s[t + 1] == r[j];
        }
      }
    }
  }

  /** The sort puts the items in descending order of probability. */
  lemma {:induction false} SortDescIsDescending(items: seq<Item>)
    ensures Descending(SortDesc(items))
  {
    if items != [] {
      SortDescIsDescending(items[..|items| - 1]);
      InsertDescKeepsOrder(items[|items| - 1], SortDesc(items[..|items| - 1]));
    }
  }

  /** The position of the first item of highest probability. */
  function FirstMax(items: seq<Item>): (k: nat)
    requires items != []
    ensures k < |items|
    ensures forall j :: 0 <= j < |items| ==> items[j].1 <= items[k].1
    ensures forall j :: 0 <= j < k ==> items[j].1 < items[k].1
  {
    if |items| == 1 then 0
    else
      var init := items[..|items| - 1];
      var k := FirstMax(init);
      assert forall j :: 0 <= j < |init| ==> init[j] == items[j];
      if items[k].1 >= items[|items| - 1].1 then k else |items| - 1
  }

  /** The items without the one at position `k`. */
  function Without(items: seq<Item>, k: nat): seq<Item>
    requires k < |items|
  {
    items[..k] + items[k + 1..]
  }

  /** Ties keep the dict's order: the sort's first item is the first of highest probability. */
  lemma {:induction false} SortHeadIsFirstMax(items: seq<Item>)
    requires items != []
    ensures SortDesc(items)[0] == items[FirstMax(items)]
  {
    if |items| > 1 {
      var init := items[..|items| - 1];
      SortHeadIsFirstMax(init);
      assert items[FirstMax(init)] == init[FirstMax(init)];
    }
  }

  /** The second item of a stable descending insertion. */
  lemma InsertDescSecond(x: Item, s: seq<Item>)
    requires s != []
    ensures InsertDesc(x, s)[1] ==
      if s[0].1 >= x.1 then (if |s| >= 2 && s[1].1 >= x.1 then s[1] else x) else s[0]
  {
    if s[0].1 >= x.1 && |s| >= 2 {
      assert s[1..][0] == s[1];
    }
  }

  /** The first of highest probability after appending `x`. */
  lemma FirstMaxAppend(init: seq<Item>, x: Item)
    requires init != []
    ensures FirstMax(init + [x]) == if init[FirstMax(init)].1 >= x.1 then FirstMax(init) else |init|
  {
    assert (init + [x])[..|init|] == init;
  }

  /** Taking out the chosen first maximum of `init + [x]` when it lies in `init`. */
  lemma WithoutAppend(init: seq<Item>, x: Item, k: nat)
    requires k < |init|
    ensures Without(init + [x], k) == Without(init, k) + [x]
  {
    assert (init + [x])[..k] == init[..k];
    assert (init + [x])[k + 1..] == init[k + 1..] + [x];
  }

  /** The sort's second item is the first of highest probability once the first item is taken out. */
  lemma {:induction false} SortSecondIsNextMax(items: seq<Item>)
    requires |items| >= 2
    ensures SortDesc(items)[1] == Without(items, FirstMax(items))[FirstMax(Without(items, FirstMax(items)))]
  {
    var n := |items| - 1;
    var init, x := items[..n], items[n];
    assert items == init + [x];
    var s := SortDesc(init);
    var k0 := FirstMax(init);
    SortHeadIsFirstMax(init);
    InsertDescSecond(x, s);
    FirstMaxAppend(init, x);
    assert SortDesc(items) == InsertDesc(x, s);
    if init[k0].1 < x.1 {
      assert FirstMax(items) == n;
      assert Without(items, n) == init;
    } else {
      assert FirstMax(items) == k0;
      WithoutAppend(init, x, k0);
      var r0 := Without(init, k0);
      if n == 1 {
        assert Without(items, k0) == [x];
      } else {
        SortSecondIsNextMax(init);
        FirstMaxAppend(r0, x);
      }
    }
  }

  /** A `DominantTrauma` selection: primary label, optional secondary label, confidence. */
  datatype Dominant = Dominant(primary: string, secondary: Option<string>, confidence: real)

  /** `sorted_predictions[0]` on an empty prediction raises `IndexError`. */
  datatype SelectError = NoPredictions

  /** Primary, secondary and confidence from the sorted prediction items. */
  function SelectDominant(prediction: seq<Item>): (r: Result<Dominant, SelectError>)
    ensures r.Ok? <==> prediction != []
    ensures r.Ok? ==> (r.value.secondary.Some? <==> |prediction| >= 2)
  {
    var sorted := SortDesc(prediction);
    if sorted == [] then Err(NoPredictions)
    else Ok(Dominant(sorted[0].0, if |sorted| > 1 then Some(sorted[1].0) else None, sorted[0].1))
  }

  /**
   * The primary is the first item of highest probability and its probability is
   * the confidence; the secondary is the first of highest probability among the rest.
   */
  lemma SelectDominantRanks(prediction: seq<Item>)
    requires prediction != []
    ensures var k := FirstMax(prediction);
      && SelectDominant(prediction).value.primary == prediction[k].0
      && SelectDominant(prediction).value.confidence == prediction[k].1
      && (|prediction| >= 2 ==> SelectDominant(prediction).value.secondary
                                 == Some(Without(prediction, k)[FirstMax(Without(prediction, k))].0))
  {
    SortHeadIsFirstMax(prediction);
    if |prediction| >= 2 {
      SortSecondIsNextMax(prediction);
    }
  }

  /** `trauma_map.get(name)`: the category of that name, if its `TraumaType` exists. */
  function TraumaOf(name: string, traumaTypes: set<Category>): (c: Option<Category>)
    ensures c.Some? <==> FromName(name).Some? && FromName(name).value in traumaTypes
    ensures c.Some? ==> Name(c.value) == name
  {
    match FromName(name)
    case Some(c) => if c in traumaTypes then Some(c) else None
    case None => None
  }

  /** A stored `DominantTrauma` row. */
  datatype DominantRecord = DominantRecord(primary: Category, secondary: Option<Category>, confidence: real)

  /** The `DominantTrauma` rows after the update-or-create for `user`, when a primary is found. */
  function DominantAfter(rows: map<int, DominantRecord>, user: int, d: Dominant, traumaTypes: set<Category>)
    : (r: map<int, DominantRecord>)
    ensures forall u :: u != user ==> (u in r <==> u in rows) && (u in rows ==> r[u] == rows[u])
    ensures TraumaOf(d.primary, traumaTypes).None? ==> r == rows
    ensures TraumaOf(d.primary, traumaTypes).Some? ==>
              user in r && r[user].primary == TraumaOf(d.primary, traumaTypes).value && r[user].confidence == d.confidence
              && r[user].secondary == (if d.secondary.Some? then TraumaOf(d.secondary.value, traumaTypes) else None)
  {
    match TraumaOf(d.primary, traumaTypes)
    case None => rows
    case Some(primary) =>
      var secondary := if d.secondary.Some? then TraumaOf(d.secondary.value, traumaTypes) else None;
      rows[user := DominantRecord(primary, secondary, d.confidence)]
  }

  // ---------------------------------------------------------------------------
  // evaluate_assessment
  // ---------------------------------------------------------------------------

  /** The external store the view writes to. */
  datatype Store = Store(answers: Answers, scores: seq<ScoreRecord>, dominant: map<int, DominantRecord>)

  /** The reasons the view answers with an error instead of a result. */
  datatype EvalError = AggregationFailed(cause: Aggregator.AggregateError) | SelectionFailed(why: SelectError)

  /** The JSON the view returns: features and the classifier's prediction. */
  datatype Evaluation = Evaluation(features: seq<real>, prediction: seq<Item>)

  /**
   * `evaluate_assessment` over a store. `users` and `questionIds` are the existing
   * user and question ids, `traumaTypes` the categories that have a `TraumaType`,
   * `table` is `ID_TO_CATEGORY`, and `predict` the classifier's `predict_trauma`.
   */
  method EvaluateAssessment(store: Store, userId: Option<int>, users: set<int>, questionIds: set<int>,
                            traumaTypes: set<Category>, table: map<int, string>,
                            responses: seq<Aggregator.Response>, predict: seq<real> -> seq<Item>)
    returns (result: Result<Evaluation, EvalError>, updated: Store)
    ensures var user := ResolveUser(userId, users);
      && var features := Aggregator.Features(responses, table);
      && (result.Ok? <==> Aggregator.AllValid(responses, table) && (user.None? || predict(features) != []))
      && (result.Ok? ==> result.value == Evaluation(features, predict(features)))
      && (user.None? ==> updated == store)
      && (user.Some? ==> updated.answers == Upserted(store.answers, user.value, responses, questionIds))
      && (user.Some? && !Aggregator.AllValid(responses, table) ==>
            updated.scores == store.scores && updated.dominant == store.dominant)
      && (user.Some? && Aggregator.AllValid(responses, table) ==>
            updated.scores == store.scores + ScoreRecordsFor(user.value, features, traumaTypes, 4))
      && (user.Some? && Aggregator.AllValid(responses, table) && predict(features) == [] ==>
            updated.dominant == store.dominant)
      && (user.Some? && Aggregator.AllValid(responses, table) && predict(features) != [] ==>
            updated.dominant == DominantAfter(store.dominant, user.value, SelectDominant(predict(features)).value, traumaTypes))
  {
    updated := store;
    var user := ResolveUser(userId, users);
    if user.Some? {
      var answers := SaveAnswers(store.answers, user.value, responses, questionIds);
      updated := updated.(answers := answers);
    }
    var features := Aggregator.AggregateScores(responses, table);
    if features.Err? {
      return Err(AggregationFailed(features.error)), updated;
    }
    var prediction := predict(features.value);
    if user.Some? {
      var records := SaveTraumaScores(user.value, features.value, traumaTypes);
      updated := updated.(scores := updated.scores + records);
      var dominant := SelectDominant(prediction);
      if dominant.Err? {
        return Err(SelectionFailed(dominant.error)), updated;
      }
      updated := updated.(dominant := DominantAfter(updated.dominant, user.value, dominant.value, traumaTypes));
    }
    result := Ok(Evaluation(features.value, prediction));
  }
}

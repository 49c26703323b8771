/**
 * The browser-side trauma quiz of static/js/scripts.js (`calculateTrauma`): the
 * values of the checked radio buttons are tallied per key and the key with the
 * highest tally, the earliest on a tie, decides the verdict shown.
 */
module TraumaQuiz {
  import opened Wrappers

  /** The keys of the `scores` object, in its property order. */
  const Keys: seq<string> := ["family", "financial", "career", "love", "none"]

  /** Fewer checked answers than this only raise the alert. */
  const MinAnswers: nat := 4

  /** The alert raised when too few answers are checked. */
  const AnswerAllAlert := "Please answer all questions to get an accurate result."

  /** The position of a recognised value among the keys (`scores.hasOwnProperty`). */
  function KeyIndex(value: string): (k: Option<nat>)
    ensures k.Some? <==> value in Keys
    ensures k.Some? ==> k.value < |Keys| && Keys[k.value] == value
  {
    if value == "family" then Some(0)
    else if value == "financial" then Some(1)
    else if value == "career" then Some(2)
    else if value == "love" then Some(3)
    else if value == "none" then Some(4)
    else None
  }

  /** How many of the values equal `key`. */
  function Count(values: seq<string>, key: string): nat
  {
    if values == [] then 0
    else Count(values[..|values| - 1], key) + (if values[|values| - 1] == key then 1 else 0)
  }

  /** How many of the values are one of the keys. */
  function Recognised(values: seq<string>): nat
  {
    if values == [] then 0
    else Recognised(values[..|values| - 1]) + (if values[|values| - 1] in Keys then 1 else 0)
  }

  /** The tally per key, in key order. */
  ghost function Counts(values: seq<string>): (c: seq<nat>)
    ensures |c| == |Keys|
  {
    seq(|Keys|, k requires 0 <= k < |Keys| => Count(values, Keys[k]))
  }

  /** Position `w` holds the highest tally and every earlier one is strictly lower. */
  ghost predicate IsLeader(counts: seq<nat>, w: nat)
  {
    w < |counts|
    && (forall k :: 0 <= k < |counts| ==> counts[k] <= counts[w])
    && (forall k :: 0 <= k < w ==> counts[k] < counts[w])
  }

  /** There is exactly one leader. */
  lemma LeaderUnique(counts: seq<nat>, v: nat, w: nat)
    requires IsLeader(counts, v) && IsLeader(counts, w)
    ensures v == w
  {
    assert counts[v] == counts[w];
  }

  /** What the page shows: the winning key, the text and the colour of the result box. */
  datatype Verdict = Verdict(winner: string, text: string, color: string)

  /** The result texts of the five branches. */
  const FamilyText := "You are experiencing Family Trauma. Consider family counseling and emotional support."
  const FinancialText := "You are experiencing Financial Stress. Financial planning and stress management may help."
  const CareerText := "You are experiencing Career Anxiety. Career guidance and mindfulness are recommended."
  const LoveText := "You are experiencing Love/Relationship Trauma. Emotional healing and therapy can help."
  const ManagingText := "You seem to be managing well. Keep practicing self-care."

  /** The `switch (maxType)`; `none` and anything else take the default branch. */
  function VerdictFor(maxType: string): (v: Verdict)
    ensures v.winner == maxType
  {
    if maxType == "family" then
      Verdict(maxType, FamilyText, "#D32F2F")
    else if maxType == "financial" then
      Verdict(maxType, FinancialText, "#FF9933")
    else if maxType == "career" then
      Verdict(maxType, CareerText, "#000080")
    else if maxType == "love" then
      Verdict(maxType, LoveText, "#E91E63")
    else
      Verdict(maxType, ManagingText, "#4CAF50")
  }

  /**
   * `calculateTrauma` over the values of the checked radio buttons, in document
   * order: the alert when fewer than four are checked, otherwise the verdict of
   * the leading key.
   */
  method CalculateTrauma(values: seq<string>) returns (r: Result<Verdict, string>)
    ensures r.Err? <==> |values| < MinAnswers
    ensures r.Err? ==> r.error == AnswerAllAlert
    ensures r.Ok? ==> exists w: nat :: IsLeader(Counts(values), w) && r.value == VerdictFor(Keys[w])
  {
    if |values| < MinAnswers {
      return Err(AnswerAllAlert);
    }
    var scores := new nat[|Keys|](_ => 0);
    var i := 0;
    while i < |values|
      invariant 0 <= i <= |values|
      invariant forall k :: 0 <= k < |Keys| ==> scores[k] == Count(values[..i], Keys[k])
    {
      assert values[..i + 1][..i] == values[..i];
      var k := KeyIndex(values[i]);
      if k.Some? {
        scores[k.value] := scores[k.value] + 1;
      }
      i := i + 1;
    }
    assert values[..i] == values;
    var maxType: nat := 4;
    var maxCount: int := -1;
    var t := 0;
    while t < |Keys|
      invariant 0 <= t <= |Keys|
      invariant maxType < |Keys|
      invariant t == 0 ==> maxCount == -1
      invariant t > 0 ==> maxType < t && maxCount == scores[maxType]
      invariant forall k :: 0 <= k < t ==> scores[k] <= maxCount
      invariant forall k :: 0 <= k < t && k < maxType ==> scores[k] < maxCount
    {
      if scores[t] > maxCount {
        maxCount := scores[t];
        maxType := t;
      }
      t := t + 1;
    }
    assert IsLeader(Counts(values), maxType);
    r := Ok(VerdictFor(Keys[maxType]));
  }

  // ---------------------------------------------------------------------------
  // Properties of the tally
  // ---------------------------------------------------------------------------

  /** Each value adds one to its own key's tally and nothing to the others. */
  lemma CountStep(values: seq<string>, v: string, key: string)
    ensures Count(values + [v], key) == Count(values, key) + (if v == key then 1 else 0)
  {
    assert (values + [v])[..|values|] == values;
  }

  /** The tallies add up to the number of recognised values; the others are ignored. */
  lemma {:induction false} TalliesAddUp(values: seq<string>)
    ensures Count(values, "family") + Count(values, "financial") + Count(values, "career")
            + Count(values, "love") + Count(values, "none") == Recognised(values)
  {
    if values != [] {
      var init, v := values[..|values| - 1], values[|values| - 1];
      assert values == init + [v];
      TalliesAddUp(init);
      CountStep(init, v, "family");
      CountStep(init, v, "financial");
      CountStep(init, v, "career");
      CountStep(init, v, "love");
      CountStep(init, v, "none");
    }
  }

  /** With no recognised value every tally is 0, and the strict comparison keeps `family`. */
  lemma NothingRecognisedGivesFamily(values: seq<string>, w: nat)
    requires Recognised(values) == 0
    requires IsLeader(Counts(values), w)
    ensures w == 0 && Keys[w] == "family"
  {
    TalliesAddUp(values);
    assert Counts(values)[0] == 0;
  }

  /** The colour of each key's verdict. */
  lemma VerdictColors()
    ensures VerdictFor(Keys[0]).color == "#D32F2F"
    ensures VerdictFor(Keys[1]).color == "#FF9933"
    ensures VerdictFor(Keys[2]).color == "#000080"
    ensures VerdictFor(Keys[3]).color == "#E91E63"
    ensures VerdictFor(Keys[4]).color == "#4CAF50"
  {
  }

  /** The five keys get five verdicts of different colours. */
  lemma VerdictsDiffer(i: nat, j: nat)
    requires i < j < |Keys|
    ensures VerdictFor(Keys[i]).color != VerdictFor(Keys[j]).color
  {
    VerdictColors();
    var colors := ["#D32F2F", "#FF9933", "#000080", "#E91E63", "#4CAF50"];
    assert VerdictFor(Keys[i]).color == colors[i] by {
      if i == 0 {} else if i == 1 {} else if i == 2 {} else {}
    }
    assert VerdictFor(Keys[j]).color == colors[j] by {
      if j == 1 {} else if j == 2 {} else if j == 3 {} else {}
    }
    assert colors[i][1] != colors[j][1];
  }

  /** Any value other than the four trauma keys gets the verdict of `none`. */
  lemma OthersAsNone(v: string)
    requires v != "family" && v != "financial" && v != "career" && v != "love"
    ensures VerdictFor(v).text == VerdictFor("none").text
    ensures VerdictFor(v).color == VerdictFor("none").color
  {
  }
}

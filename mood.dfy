/**
 * The low-mood alert of core/views.py (`log_mood`): after a mood log is saved,
 * the user's most recent logs of the past week (at most seven, newest first)
 * raise a `low_mood` alert when there are at least five and their mean is
 * below 2.5.
 */
module MoodAlert {
  import opened Wrappers

  /** `[:7]`: at most this many recent logs are looked at. */
  const WindowSize: nat := 7

  /** `len(recent_logs) >= 5`. */
  const MinLogs: nat := 5

  /** `avg_mood < 2.5`. */
  const Threshold: real := 2.5

  /** The logs the alert looks at: the first seven of the newest-first scores. */
  function Recent(scores: seq<int>): (w: seq<int>)
    ensures |w| <= WindowSize && |w| <= |scores|
    ensures w == scores[..|w|]
    ensures |w| == WindowSize || |w| == |scores|
  {
    if |scores| <= WindowSize then scores else scores[..WindowSize]
  }

  function SumOf(s: seq<int>): int
  {
    if s == [] then 0 else SumOf(s[..|s| - 1]) + s[|s| - 1]
  }

  /** The alert condition on the scores of the user's logs of the past week, newest first. */
  ghost predicate LowMood(scores: seq<int>)
  {
    var w := Recent(scores);
    |w| >= MinLogs && (SumOf(w) as real) / (|w| as real) < Threshold
  }

  /** The decision in `log_mood`: sum the recent scores, then compare the mean. */
  method ShouldAlert(scores: seq<int>) returns (alert: bool)
    ensures alert <==> LowMood(scores)
  {
    var n := if |scores| < WindowSize then |scores| else WindowSize;
    alert := false;
    if n >= MinLogs {
      var total := 0;
      var i := 0;
      while i < n
        invariant 0 <= i <= n
        invariant total == SumOf(scores[..i])
      {
        assert scores[..i + 1][..i] == scores[..i];
        total := total + scores[i];
        i := i + 1;
      }
      assert scores[..n] == Recent(scores);
      alert := (total as real) / (n as real) < Threshold;
    }
  }

  /** The two reasons the view answers with an error: no such user, or no score to store. */
  datatype MoodError = UserNotFound | MissingScore

  /**
   * `log_mood`: the new log (score `score`) joins the user's `earlier` logs of the
   * past week, newest first. The Boolean answer is whether the view creates a
   * `low_mood` Alert; the JSON response itself does not report it.
   */
  method LogMood(userId: Option<int>, users: set<int>, score: Option<int>, earlier: seq<int>)
    returns (r: Result<bool, MoodError>)
    ensures r == Err(UserNotFound) <==> userId.None? || userId.value !in users
    ensures r == Err(MissingScore) <==> userId.Some? && userId.value in users && score.None?
    ensures r.Ok? ==> (r.value <==> LowMood([score.value] + earlier))
  {
    if userId.None? || userId.value !in users {
      return Err(UserNotFound);
    }
    if score.None? {
      return Err(MissingScore);
    }
    var alert := ShouldAlert([score.value] + earlier);
    r := Ok(alert);
  }

  // ---------------------------------------------------------------------------
  // Properties of the rule
  // ---------------------------------------------------------------------------

  /** The mean is below 2.5 exactly when twice the sum is below five times the count. */
  lemma MeanBelowThreshold(s: seq<int>)
    requires s != []
    ensures (SumOf(s) as real) / (|s| as real) < Threshold <==> 2 * SumOf(s) < 5 * |s|
  {
    var n := |s| as real;
    var t := SumOf(s) as real;
    var q := t / n;
    assert q * n == t;
    assert (2 * SumOf(s)) as real == 2.0 * t && (5 * |s|) as real == 5.0 * n;
    if q < Threshold {
      assert q * n < Threshold * n;
    } else {
      assert q * n >= Threshold * n;
    }
  }

  lemma {:induction false} SumBelow(s: seq<int>, bound: int)
    requires forall i :: 0 <= i < |s| ==> s[i] <= bound
    ensures SumOf(s) <= bound * |s|
  {
    if s != [] {
      SumBelow(s[..|s| - 1], bound);
    }
  }

  lemma {:induction false} SumAbove(s: seq<int>, bound: int)
    requires forall i :: 0 <= i < |s| ==> s[i] >= bound
    ensures SumOf(s) >= bound * |s|
  {
    if s != [] {
      SumAbove(s[..|s| - 1], bound);
    }
  }

  lemma {:induction false} SumMonotone(a: seq<int>, b: seq<int>)
    requires |a| == |b|
    requires forall i :: 0 <= i < |a| ==> a[i] <= b[i]
    ensures SumOf(a) <= SumOf(b)
  {
    if a != [] {
      SumMonotone(a[..|a| - 1], b[..|b| - 1]);
    }
  }

  /** Fewer than five logs in the window never raise an alert. */
  lemma FewLogsNoAlert(scores: seq<int>)
    requires |scores| < MinLogs
    ensures !LowMood(scores)
  {
  }

  /** Five or more logs, all of mood 2 or less, always raise one. */
  lemma AllLowAlerts(scores: seq<int>)
    requires |scores| >= MinLogs
    requires forall i :: 0 <= i < |scores| ==> scores[i] <= 2
    ensures LowMood(scores)
  {
    var w := Recent(scores);
    SumBelow(w, 2);
    MeanBelowThreshold(w);
  }

  /** Logs all of mood 3 or more never raise one. */
  lemma AllFineNoAlert(scores: seq<int>)
    requires forall i :: 0 <= i < |scores| ==> scores[i] >= 3
    ensures !LowMood(scores)
  {
    var w := Recent(scores);
    if |w| >= MinLogs {
      SumAbove(w, 3);
      MeanBelowThreshold(w);
    }
  }

  /** Logs older than the seventh most recent play no part. */
  lemma OnlySevenCount(scores: seq<int>, older: seq<int>)
    requires |scores| >= WindowSize
    ensures LowMood(scores + older) <==> LowMood(scores)
  {
    assert (scores + older)[..WindowSize] == scores[..WindowSize];
  }

  /** Lowering any of the logged moods keeps an alert an alert. */
  lemma LowerMoodKeepsAlert(a: seq<int>, b: seq<int>)
    requires |a| == |b|
    requires forall i :: 0 <= i < |a| ==> a[i] <= b[i]
    requires LowMood(b)
    ensures LowMood(a)
  {
    var wa, wb := Recent(a), Recent(b);
    SumMonotone(wa, wb);
    MeanBelowThreshold(wa);
    MeanBelowThreshold(wb);
  }
}

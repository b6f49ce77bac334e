/** 2024 day 2, "Red-Nosed Reports": a report is a list of levels. It is safe when the levels
    all rise or all fall, by at least 1 and at most 3 at every step. With the "problem
    dampener" a report also counts when removing one level makes it safe. */
module Reports {

  function Abs(x: int): int {
    if x < 0 then -x else x
  }

  /** Every step rises by 1, 2 or 3. */
  predicate Rising(r: seq<int>) {
    forall k :: 0 < k < |r| ==> 1 <= r[k] - r[k - 1] <= 3
  }

  /** Every step falls by 1, 2 or 3. */
  predicate Falling(r: seq<int>) {
    forall k :: 0 < k < |r| ==> 1 <= r[k - 1] - r[k] <= 3
  }

  /** The safety rule as the puzzle states it; the first two levels fix the direction. */
  predicate Safe(r: seq<int>)
    ensures Safe(r) && 2 <= |r| ==> (Rising(r) <==> r[0] < r[1])
  {
    Rising(r) || Falling(r)
  }

  /** The three tests of the loop body of `checkReport` at step k, in the direction fixed by
      the first two levels: the step passes when none of them rejects it. */
  predicate StepPasses(r: seq<int>, k: nat, increasing: bool)
    requires 0 < k < |r|
  {
    !(increasing && r[k - 1] > r[k])
    && !(!increasing && r[k - 1] < r[k])
    && !(Abs(r[k - 1] - r[k]) < 1 || Abs(r[k - 1] - r[k]) > 3)
  }

  /** A step that `checkReport` rejects rules out both directions of a safe report. */
  lemma RejectedStepUnsafe(r: seq<int>, k: nat)
    requires 0 < k < |r| && !StepPasses(r, k, r[0] < r[1])
    ensures !Safe(r)
  {
  }

  /** When every step passes in the direction of the first two levels, the report is safe. */
  lemma PassingStepsSafe(r: seq<int>, increasing: bool)
    requires |r| > 1 && increasing == (r[0] < r[1])
    requires forall k :: 0 < k < |r| ==> StepPasses(r, k, increasing)
    ensures Safe(r)
  {
    if increasing {
      forall k | 0 < k < |r|
        ensures 1 <= r[k] - r[k - 1] <= 3
      {
        assert StepPasses(r, k, increasing);
      }
    } else {
      forall k | 0 < k < |r|
        ensures 1 <= r[k - 1] - r[k] <= 3
      {
        assert StepPasses(r, k, increasing);
      }
    }
  }

  /** `checkReport`: reports of at most one level are valid; otherwise the first two levels
      fix the direction and the loop stops at the first step that breaks a rule. */
  method CheckReport(report: seq<int>) returns (valid: bool)
    ensures valid <==> Safe(report)
  {
    valid := true;
    if |report| > 1 {
      var increasing := report[0] < report[1];
      var i := 1;
      while i < |report|
        invariant 1 <= i <= |report|
        invariant forall k :: 0 < k < i ==> StepPasses(report, k, increasing)
      {
        if increasing && report[i - 1] > report[i] {
          valid := false;
          break;
        } else if !increasing && report[i - 1] < report[i] {
          valid := false;
          break;
        } else if Abs(report[i - 1] - report[i]) < 1 || Abs(report[i - 1] - report[i]) > 3 {
          valid := false;
          break;
        }
        i := i + 1;
      }
      if valid {
        PassingStepsSafe(report, increasing);
      } else {
        RejectedStepUnsafe(report, i);
      }
    }
  }

  /** Reports of at most one level have no step, so they are safe. */
  lemma ShortReportsSafe(r: seq<int>)
    requires |r| <= 1
    ensures Safe(r)
  {
    assert Rising(r);
  }

  /** Two equal neighbouring levels make a report unsafe. */
  lemma EqualNeighboursUnsafe(r: seq<int>, k: nat)
    requires 0 < k < |r| && r[k - 1] == r[k]
    ensures !Safe(r)
  {
  }

  /** The report with the level at index i removed (`subset.remove(i)`). */
  function Remove(r: seq<int>, i: nat): (s: seq<int>)
    requires i < |r|
    ensures |s| == |r| - 1
    ensures forall k :: 0 <= k < i ==> s[k] == r[k]
    ensures forall k :: i <= k < |s| ==> s[k] == r[k + 1]
  {
    r[..i] + r[i + 1..]
  }

  /** The dampened rule: safe, or safe after removing exactly one level. */
  predicate Tolerable(r: seq<int>) {
    Safe(r) || exists i :: 0 <= i < |r| && Safe(Remove(r, i))
  }

  /** The part 2 test for one report: `checkReport` on the report, and if that fails, on each
      report with one level removed, until one passes. */
  method Dampened(report: seq<int>) returns (valid: bool)
    ensures valid <==> Tolerable(report)
  {
    valid := CheckReport(report);
    if !valid {
      var i := 0;
      while i < |report|
        invariant 0 <= i <= |report|
        invariant !valid
        invariant forall k :: 0 <= k < i ==> !Safe(Remove(report, k))
      {
        var subset := report[..i] + report[i + 1..];
        assert subset == Remove(report, i);
        valid := CheckReport(subset);
        if valid {
          assert Tolerable(report) by {
            assert 0 <= i < |report| && Safe(Remove(report, i));
          }
          return;
        }
        i := i + 1;
      }
      assert !Tolerable(report);
    }
  }

  /** Dropping the first or the last level keeps a safe report safe. */
  lemma DropEndsSafe(r: seq<int>)
    requires Safe(r) && r != []
    ensures Safe(Remove(r, 0)) && Safe(Remove(r, |r| - 1))
  {
    var first, last := Remove(r, 0), Remove(r, |r| - 1);
    if Rising(r) {
      assert Rising(first) by {
        forall k | 0 < k < |first|
          ensures 1 <= first[k] - first[k - 1] <= 3
        {
          assert first[k] == r[k + 1] && first[k - 1] == r[k];
        }
      }
      assert Rising(last);
    } else {
      assert Falling(first) by {
        forall k | 0 < k < |first|
          ensures 1 <= first[k - 1] - first[k] <= 3
        {
          assert first[k] == r[k + 1] && first[k - 1] == r[k];
        }
      }
      assert Falling(last);
    }
  }

  /** Reports of at most two levels always pass the dampened rule. */
  lemma ShortReportsTolerable(r: seq<int>)
    requires |r| <= 2
    ensures Tolerable(r)
  {
    if |r| > 0 {
      ShortReportsSafe(Remove(r, 0));
    } else {
      ShortReportsSafe(r);
    }
  }

  /** Removing an inner level can break a safe report: 1 3 5 is safe, 1 5 is not. */
  lemma InnerRemovalCanBreak()
    ensures Safe([1, 3, 5]) && !Safe(Remove([1, 3, 5], 1))
  {
    var r := [1, 3, 5];
    assert Rising(r) by {
      forall k | 0 < k < |r|
        ensures 1 <= r[k] - r[k - 1] <= 3
      {
        assert k == 1 || k == 2;
      }
    }
    var s := Remove(r, 1);
    assert s[1] - s[0] == 4;
  }

  // ---------------------------------------------------------------------------------------
  // Counting reports

  function CountSafe(reports: seq<seq<int>>): (n: nat)
    ensures n <= |reports|
  {
    if reports == [] then 0
    else CountSafe(reports[..|reports| - 1]) + if Safe(reports[|reports| - 1]) then 1 else 0
  }

  function CountTolerable(reports: seq<seq<int>>): (n: nat)
    ensures n <= |reports|
  {
    if reports == [] then 0
    else CountTolerable(reports[..|reports| - 1]) + if Tolerable(reports[|reports| - 1]) then 1 else 0
  }

  /** Every report safe on its own is also counted with the dampener. */
  lemma {:induction false} DampenerCountsMore(reports: seq<seq<int>>)
    ensures CountSafe(reports) <= CountTolerable(reports)
  {
    if reports != [] {
      DampenerCountsMore(reports[..|reports| - 1]);
    }
  }

  /** With every report safe, both parts count all of them. */
  lemma {:induction false} AllSafeCounted(reports: seq<seq<int>>)
    requires forall i :: 0 <= i < |reports| ==> Safe(reports[i])
    ensures CountSafe(reports) == CountTolerable(reports) == |reports|
  {
    if reports != [] {
      var init := reports[..|reports| - 1];
      assert forall i :: 0 <= i < |init| ==> init[i] == reports[i];
      AllSafeCounted(init);
    }
  }

  /** `test_day2Part1`: the number of valid reports. The test repeats the body of
      `checkReport` inline; it is the same check. */
  method Day2Part1(reports: seq<seq<int>>) returns (validReports: int)
    ensures validReports == CountSafe(reports)
  {
    validReports := 0;
    for i := 0 to |reports|
      invariant validReports == CountSafe(reports[..i])
    {
      assert reports[..i + 1][..i] == reports[..i];
      var valid := CheckReport(reports[i]);
      validReports := validReports + if valid then 1 else 0;
    }
    assert reports[..|reports|] == reports;
  }

  /** `test_day2Part2`: the number of reports valid with the dampener. */
  method Day2Part2(reports: seq<seq<int>>) returns (validReports: int)
    ensures validReports == CountTolerable(reports)
  {
    validReports := 0;
    for i := 0 to |reports|
      invariant validReports == CountTolerable(reports[..i])
    {
      assert reports[..i + 1][..i] == reports[..i];
      var valid := Dampened(reports[i]);
      validReports := validReports + if valid then 1 else 0;
    }
    assert reports[..|reports|] == reports;
  }
}

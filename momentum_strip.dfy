/** The listening-progress record shown by the momentum strip. */
module MomentumStrip {

  /** Swift `Int` counts; `Double(n)` is exact for the counts that occur. */
  datatype MomentumData = MomentumData(minutesListened: int, dailyGoalMinutes: int, streakDays: int) {

    /** The goal actually divided by: `max(dailyGoalMinutes, 1)`, never zero. */
    function EffectiveGoal(): (g: int)
      ensures g >= 1
      ensures dailyGoalMinutes >= 1 ==> g == dailyGoalMinutes
    {
      if dailyGoalMinutes > 1 then dailyGoalMinutes else 1
    }

    /** `min(Double(minutesListened) / Double(max(dailyGoalMinutes, 1)), 1.0)`. */
    function Progress(): (r: real)
      ensures r <= 1.0
      ensures r < 1.0 <==> minutesListened < EffectiveGoal()
    {
      var ratio := minutesListened as real / EffectiveGoal() as real;
      if ratio < 1.0 then ratio else 1.0
    }
  }

  /** A goal of zero or less is treated as a goal of one minute. */
  lemma NonPositiveGoalIsOne(d: MomentumData)
    requires d.dailyGoalMinutes <= 0
    ensures d.Progress() == d.(dailyGoalMinutes := 1).Progress()
  {
  }

  /** Below the goal, progress is the fraction of the goal listened. */
  lemma ProgressBelowGoal(d: MomentumData)
    requires d.dailyGoalMinutes >= 1 && 0 <= d.minutesListened < d.dailyGoalMinutes
    ensures d.Progress() == d.minutesListened as real / d.dailyGoalMinutes as real
  {
  }

  /** At or past the goal, progress is capped at 1. */
  lemma ProgressAtGoal(d: MomentumData)
    requires d.dailyGoalMinutes >= 1 && d.minutesListened >= d.dailyGoalMinutes
    ensures d.Progress() == 1.0
  {
  }

  /**
   * There is a clamp above and none below: no minutes give 0, non-negative
   * minutes give a non-negative value, negative minutes a negative one.
   */
  lemma ProgressSign(d: MomentumData)
    ensures d.minutesListened == 0 ==> d.Progress() == 0.0
    ensures d.minutesListened >= 0 ==> d.Progress() >= 0.0
    ensures d.minutesListened < 0 ==> d.Progress() < 0.0
  {
  }

  /** For a fixed goal, more minutes never mean less progress. */
  lemma {:induction false} ProgressMonotone(d: MomentumData, more: int)
    requires d.minutesListened <= more
    ensures d.Progress() <= d.(minutesListened := more).Progress()
  {
    var g := d.EffectiveGoal() as real;
    var a := d.minutesListened as real;
    var b := more as real;
    assert a / g <= b / g by {
      assert b / g - a / g == (b - a) / g;
    }
  }

  /** The three strips of the preview: 8 of 15, 15 of 15 and 0 of 10 minutes. */
  lemma PreviewProgress()
    ensures MomentumData(8, 15, 12).Progress() == 8.0 / 15.0
    ensures MomentumData(15, 15, 45).Progress() == 1.0
    ensures MomentumData(0, 10, 0).Progress() == 0.0
  {
  }
}

/** Worked examples of one scheduling call each. */
module Scenarios {
  import opened Text
  import opened Scoring
  import opened Scheduler

  /** A high-priority high task and a medium task with a four-hour budget: the
      high task takes 8-10, and the medium task, which fits the rest of the
      high block, takes 10-12 rather than waiting for the medium block. */
  lemma TwoTasksFillHighBlock()
    ensures Plan(Request([Task("A", 2, 5, High, []), Task("B", 2, 3, Medium, [])], 4, "")).schedule
            == [Entry("A", 8, 10, High, []), Entry("B", 10, 12, Medium, [])]
  {
    var req := Request([Task("A", 2, 5, High, []), Task("B", 2, 3, Medium, [])], 4, "");
    var s1 := Step(req, Initial(), High, 8);
    assert s1.schedule == [Entry("A", 8, 10, High, [])] && s1.usedHours == 2;
    assert s1.occupiedHours == {8, 9};
    var s2 := Step(req, s1, High, 9);
    assert s2 == s1;
    var s3 := Step(req, s2, High, 10);
    assert !Overlaps(s1.occupiedHours, 10, 12);
    assert s3.usedHours == 4;
    assert s3.schedule == [Entry("A", 8, 10, High, []), Entry("B", 10, 12, Medium, [])];
    PlanUnfolded(req);
    RunHoursIdle(req, s3, High, 11, 12);
    RunHoursIdle(req, s3, Medium, 12, 16);
    RunHoursIdle(req, s3, Low, 16, 22);
  }

  /** A state that no hour of a block changes is the state after the block. */
  lemma RunHoursStays(req: Request, st: State, energy: Energy, lo: int, hi: int)
    requires lo <= hi
    requires forall h :: lo <= h < hi ==> Step(req, st, energy, h) == st
    ensures RunHours(req, st, energy, lo, hi) == st
  {
    var step := (s: State, h: int) => Step(req, s, energy, h);
    var P := (s: State, h: int) => s == st;
    IterateKeeps(step, P, st, lo, hi);
  }

  /** A task longer than the budget is never placed. */
  lemma OverlongTaskNeverPlaced()
    ensures Plan(Request([Task("C", 6, 1, Low, [])], 2, "")).schedule == []
  {
    var req := Request([Task("C", 6, 1, Low, [])], 2, "");
    forall e: Energy, h: int
      ensures Step(req, Initial(), e, h) == Initial()
    {
      BestIsFirstMaximum(req, 1, e, h, Initial());
    }
    PlanUnfolded(req);
    RunHoursStays(req, Initial(), High, 8, 12);
    RunHoursStays(req, Initial(), Medium, 12, 16);
    RunHoursStays(req, Initial(), Low, 16, 22);
  }

  /** The request of FocusTagBreaksTie. */
  function FocusRequest(): Request
  {
    Request([Task("D", 1, 2, Low, ["focus"]), Task("E", 1, 2, Low, [])], 1, "focus")
  }

  /** In the high block the tagged task scores 30 and the other 20. */
  lemma FocusScores()
    ensures Score(FocusRequest().tasks[0], High, "focus") == 30
    ensures Score(FocusRequest().tasks[1], High, "focus") == 20
  {
    assert Lower("focus") == "focus";
    assert FocusMatches(["focus"], "focus") && !FocusMatches([], "focus");
  }

  /** So hour 8 goes to the tagged task. */
  lemma FocusFirstHour()
    ensures Step(FocusRequest(), Initial(), High, 8) == Assign(Initial(), FocusRequest().tasks[0], 8)
  {
    FocusScores();
    assert Best(FocusRequest(), 2, High, 8, Initial()).task == Some(0);
  }

  /** Two equal low-energy tasks and a one-hour budget: the task carrying
      the focus tag wins the first hour of the high block. */
  lemma FocusTagBreaksTie()
    ensures Plan(Request([Task("D", 1, 2, Low, ["focus"]), Task("E", 1, 2, Low, [])], 1, "focus")).schedule
            == [Entry("D", 8, 9, Low, ["focus"])]
  {
    var req := FocusRequest();
    FocusFirstHour();
    var s1 := Step(req, Initial(), High, 8);
    PlanUnfolded(req);
    RunHoursIdle(req, s1, High, 9, 12);
    RunHoursIdle(req, s1, Medium, 12, 16);
    RunHoursIdle(req, s1, Low, 16, 22);
  }
}

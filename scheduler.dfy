/** The greedy day scheduler of scheduler/core.py: generate_schedule walks the
    high, medium and low energy blocks of a 08:00-22:00 day hour by hour and,
    at each free hour, places the best-scoring task that still fits.

    The method GenerateSchedule keeps the source's accumulators as local
    variables and its nested loops as loops; it is proved equal to Plan, which
    performs the same walk one slot at a time as a function. What the source
    promises about the result (no overlap, the budget, the day window, one
    entry per name) is proved about Plan as the invariant Inv that every step
    keeps. */
module Scheduler {
  import opened Scoring

  datatype Option<T> = None | Some(value: T)

  const DayStart: int := 8
  const DayEnd: int := 22

  /** An energy block: the hours lo, lo+1, ..., hi-1 of one tier. */
  datatype Block = Block(energy: Energy, lo: int, hi: int)

  /** The three blocks, in the order they are visited. */
  function EnergyBlocks(): seq<Block>
  {
    [Block(High, 8, 12), Block(Medium, 12, 16), Block(Low, 16, 22)]
  }

  /** assign_energy_blocks: cuts a budget of availableHours hours, counted
      from 0, into at most three consecutive blocks, high first; the first
      two blocks of a longer budget are two hours long. */
  function AssignEnergyBlocks(availableHours: int): (r: seq<Block>)
    ensures |r| == (if availableHours <= 3 then 1 else if availableHours <= 6 then 2 else 3)
    ensures r[0].lo == 0 && r[|r| - 1].hi == availableHours
    ensures forall i :: 0 <= i < |r| - 1 ==> r[i].hi == r[i + 1].lo && r[i].hi - r[i].lo == 2
    ensures forall i :: 0 <= i < |r| ==> r[i].energy == [High, Medium, Low][i]
    ensures availableHours >= 1 ==> forall i :: 0 <= i < |r| ==> r[i].lo < r[i].hi
  {
    if availableHours <= 3 then [Block(High, 0, availableHours)]
    else if availableHours <= 6 then [Block(High, 0, 2), Block(Medium, 2, availableHours)]
    else [Block(High, 0, 2), Block(Medium, 2, 4), Block(Low, 4, availableHours)]
  }

  /** The blocks of a positive budget partition its hours: each hour of
      [0, availableHours) lies in exactly one block, and no other hour does. */
  lemma AssignEnergyBlocksPartition(availableHours: int, h: int)
    ensures var r := AssignEnergyBlocks(availableHours);
            (0 <= h < availableHours <==> exists i :: 0 <= i < |r| && r[i].lo <= h < r[i].hi)
            && (forall i, j :: 0 <= i < |r| && 0 <= j < |r| && r[i].lo <= h < r[i].hi && r[j].lo <= h < r[j].hi ==> i == j)
  {
    var r := AssignEnergyBlocks(availableHours);
    if 0 <= h < availableHours {
      var i := if h < r[0].hi then 0 else if h < r[1].hi then 1 else 2;
      assert r[i].lo <= h < r[i].hi;
    }
  }

  /** One scheduled task. The source renders start and end as "{h}:00" and
      joins the tags; here they stay an hour number and a list. */
  datatype Entry = Entry(task: string, start: int, end: int, energy: Energy, tags: seq<string>)

  /** The entry for task t started at hour: it echoes the task's own tier. */
  function EntryOf(t: Task, hour: int): Entry
  {
    Entry(t.name, hour, hour + t.duration, t.energy, t.tags)
  }

  /** The arguments of one scheduling call. */
  datatype Request = Request(tasks: seq<Task>, availableHours: int, focusTag: string)

  /** The accumulators of one scheduling call: the entries emitted so far, the
      hours they use, the names already scheduled and the hours occupied. */
  datatype State = State(schedule: seq<Entry>, usedHours: int, scheduledTasks: set<string>, occupiedHours: set<int>)

  function Initial(): State
  {
    State([], 0, {}, {})
  }

  /** Some hour of [from, to) is occupied. */
  predicate Overlaps(occupied: set<int>, from: int, to: int)
  {
    exists h :: from <= h < to && h in occupied
  }

  /** Task t may be placed at hour: its name is not yet scheduled, it fits the
      remaining budget, it ends by 22 and none of its hours is occupied. */
  predicate Eligible(t: Task, hour: int, st: State, availableHours: int)
  {
    !(t.name in st.scheduledTasks
      || st.usedHours + t.duration > availableHours
      || hour + t.duration > DayEnd
      || Overlaps(st.occupiedHours, hour, hour + t.duration))
  }

  /** The running best candidate and best score of a search. */
  datatype Pick = Pick(task: Option<nat>, score: int)

  /** No candidate below n that passes ok scores above bound. */
  predicate NoneAbove(n: nat, ok: nat -> bool, score: nat -> int, bound: int)
  {
    forall j :: 0 <= j < n && ok(j) ==> score(j) <= bound
  }

  /** Candidate k is the first of maximal score among the candidates below n
      that pass ok, and that score is above -1. */
  predicate FirstBest(n: nat, ok: nat -> bool, score: nat -> int, k: nat)
  {
    k < n && ok(k) && score(k) > -1
    && NoneAbove(n, ok, score, score(k)) && NoneAbove(k, ok, score, score(k) - 1)
  }

  /** The search over candidates 0, 1, ..., n-1 in the loop's own terms: the
      running best starts at score -1 and is replaced only by a candidate
      that passes ok with a strictly greater score. */
  function RunningBest(n: nat, ok: nat -> bool, score: nat -> int): (p: Pick)
    ensures p.task.Some? ==> p.task.value < n && p.score == score(p.task.value)
    ensures p.task.None? ==> p.score == -1
  {
    if n == 0 then Pick(None, -1)
    else
      var prev := RunningBest(n - 1, ok, score);
      if ok(n - 1) && score(n - 1) > prev.score then Pick(Some(n - 1), score(n - 1)) else prev
  }

  lemma NoneAboveExtend(n: nat, ok: nat -> bool, score: nat -> int, bound: int)
    requires NoneAbove(n, ok, score, bound)
    requires ok(n) ==> score(n) <= bound
    ensures NoneAbove(n + 1, ok, score, bound)
  {
  }

  lemma NoneAboveWeaken(n: nat, ok: nat -> bool, score: nat -> int, bound: int, bound': int)
    requires NoneAbove(n, ok, score, bound) && bound <= bound'
    ensures NoneAbove(n, ok, score, bound')
  {
  }

  /** The running search picks the first candidate of maximal score, and
      picks none exactly when no candidate that passes scores above -1. */
  lemma {:induction false} RunningBestIsFirstMaximum(n: nat, ok: nat -> bool, score: nat -> int)
    ensures RunningBest(n, ok, score).task.None? <==> NoneAbove(n, ok, score, -1)
    ensures RunningBest(n, ok, score).task.Some? ==> FirstBest(n, ok, score, RunningBest(n, ok, score).task.value)
  {
    if n > 0 {
      RunningBestIsFirstMaximum(n - 1, ok, score);
      var prev := RunningBest(n - 1, ok, score);
      if ok(n - 1) && score(n - 1) > prev.score {
        // the new candidate beats every earlier one
        NoneAboveWeaken(n - 1, ok, score, prev.score, score(n - 1) - 1);
        NoneAboveWeaken(n - 1, ok, score, score(n - 1) - 1, score(n - 1));
        NoneAboveExtend(n - 1, ok, score, score(n - 1));
      } else {
        NoneAboveExtend(n - 1, ok, score, prev.score);
      }
    }
  }

  /** Which task indices pass the skip test at hour. */
  function EligibleAt(req: Request, hour: int, st: State): nat -> bool
  {
    (j: nat) => j < |req.tasks| && Eligible(req.tasks[j], hour, st, req.availableHours)
  }

  /** The score of each task index in a block of tier energy. */
  function ScoreAt(req: Request, energy: Energy): nat -> int
  {
    (j: nat) => if j < |req.tasks| then Score(req.tasks[j], energy, req.focusTag) else -1
  }

  /** The search over the first n tasks at one free hour. */
  function Best(req: Request, n: nat, energy: Energy, hour: int, st: State): (p: Pick)
    requires n <= |req.tasks|
    ensures p.task.Some? ==> p.task.value < n && p.score == Score(req.tasks[p.task.value], energy, req.focusTag)
    ensures p.task.None? ==> p.score == -1
  {
    RunningBest(n, EligibleAt(req, hour, st), ScoreAt(req, energy))
  }

  /** The task chosen at an hour is eligible, scores above -1 and at least as
      much as every eligible task, and more than every eligible task before
      it in input order; no task is chosen exactly when no eligible task
      scores above -1. */
  lemma BestIsFirstMaximum(req: Request, n: nat, energy: Energy, hour: int, st: State)
    requires n <= |req.tasks|
    ensures var p := Best(req, n, energy, hour, st);
      p.task.None? <==>
        (forall j :: 0 <= j < n && Eligible(req.tasks[j], hour, st, req.availableHours)
           ==> Score(req.tasks[j], energy, req.focusTag) <= -1)
    ensures var p := Best(req, n, energy, hour, st);
      p.task.Some? ==>
        var k := p.task.value;
        var best := Score(req.tasks[k], energy, req.focusTag);
        k < n && Eligible(req.tasks[k], hour, st, req.availableHours) && best > -1
        && (forall j :: 0 <= j < n && Eligible(req.tasks[j], hour, st, req.availableHours)
              ==> Score(req.tasks[j], energy, req.focusTag) <= best)
        && (forall j :: 0 <= j < k && Eligible(req.tasks[j], hour, st, req.availableHours)
              ==> Score(req.tasks[j], energy, req.focusTag) < best)
  {
    var ok := EligibleAt(req, hour, st);
    var score := ScoreAt(req, energy);
    RunningBestIsFirstMaximum(n, ok, score);
    forall j | 0 <= j < n
      ensures ok(j) == Eligible(req.tasks[j], hour, st, req.availableHours)
      ensures score(j) == Score(req.tasks[j], energy, req.focusTag)
    {
    }
  }

  /** The hours [from, to). */
  function HourRange(lo: int, hi: int): (r: set<int>)
    ensures forall h :: h in r <==> (lo <= h < hi)
    decreases hi - lo
  {
    if lo >= hi then {} else {lo} + HourRange(lo + 1, hi)
  }

  /** Places task t at hour. */
  function Assign(st: State, t: Task, hour: int): State
  {
    State(st.schedule + [EntryOf(t, hour)],
          st.usedHours + t.duration,
          st.scheduledTasks + {t.name},
          st.occupiedHours + HourRange(hour, hour + t.duration))
  }

  /** One hour of one block. Once the budget is used up nothing more happens
      (the source leaves the block's loop, and every later block leaves at its
      first hour); an occupied hour is skipped; otherwise the best task, if
      any, is placed. */
  function Step(req: Request, st: State, energy: Energy, hour: int): State
  {
    if st.usedHours >= req.availableHours then st
    else if hour in st.occupiedHours then st
    else
      var p := Best(req, |req.tasks|, energy, hour, st);
      match p.task
      case None => st
      case Some(k) => Assign(st, req.tasks[k], hour)
  }

  /** The hours hour, hour+1, ..., hi-1 of a block, in ascending order. */
  function RunHours(req: Request, st: State, energy: Energy, hour: int, hi: int): State
  {
    Iterate((s: State, h: int) => Step(req, s, energy, h), st, hour, hi)
  }

  /** The state after passing it through step at hour, hour+1, ..., hi-1. */
  function Iterate<S>(step: (S, int) -> S, st: S, hour: int, hi: int): S
    decreases hi - hour
  {
    if hour >= hi then st else Iterate(step, step(st, hour), hour + 1, hi)
  }

  /** A property that each step carries from one hour to the next holds
      after all of them. */
  lemma {:induction false} IterateKeeps<S(!new)>(step: (S, int) -> S, P: (S, int) -> bool, st: S, hour: int, hi: int)
    requires hour <= hi && P(st, hour)
    requires forall s, h :: hour <= h < hi && P(s, h) ==> P(step(s, h), h + 1)
    ensures P(Iterate(step, st, hour, hi), hi)
    decreases hi - hour
  {
    if hour < hi {
      IterateKeeps(step, P, step(st, hour), hour + 1, hi);
    }
  }

  /** The blocks in order. */
  function RunBlocks(req: Request, st: State, blocks: seq<Block>): State
    decreases |blocks|
  {
    if blocks == [] then st
    else RunBlocks(req, RunHours(req, st, blocks[0].energy, blocks[0].lo, blocks[0].hi), blocks[1..])
  }

  /** The final state of one scheduling call. */
  function Plan(req: Request): State
  {
    RunBlocks(req, Initial(), EnergyBlocks())
  }

  // ---------------------------------------------------------------------
  // Properties of a schedule

  /** Every entry lies in the day window. */
  predicate InDayWindow(s: seq<Entry>)
  {
    forall i :: 0 <= i < |s| ==> DayStart <= s[i].start && s[i].end <= DayEnd
  }

  /** Every entry ends by the time any later entry starts; so no two overlap. */
  predicate Chronological(s: seq<Entry>)
  {
    forall i, j :: 0 <= i < j < |s| ==> s[i].end <= s[j].start
  }

  /** The entries start at strictly ascending hours. */
  predicate AscendingStarts(s: seq<Entry>)
  {
    forall i, j :: 0 <= i < j < |s| ==> s[i].start < s[j].start
  }

  predicate DistinctNames(s: seq<Entry>)
  {
    forall i, j :: 0 <= i < j < |s| ==> s[i].task != s[j].task
  }

  /** Every entry is the entry of an input task started at the entry's start. */
  predicate FromTasks(s: seq<Entry>, tasks: seq<Task>)
  {
    forall i :: 0 <= i < |s| ==> exists k :: 0 <= k < |tasks| && s[i] == EntryOf(tasks[k], s[i].start)
  }

  /** The sum of the entries' lengths. */
  function TotalHours(s: seq<Entry>): int
  {
    if s == [] then 0 else TotalHours(s[..|s| - 1]) + (s[|s| - 1].end - s[|s| - 1].start)
  }

  function Names(s: seq<Entry>): set<string>
  {
    set i | 0 <= i < |s| :: s[i].task
  }

  /** Some entry of s covers hour h. */
  predicate Covered(s: seq<Entry>, h: int)
  {
    exists i :: 0 <= i < |s| && s[i].start <= h < s[i].end
  }

  /** Every entry starts before hour next. */
  predicate StartsBefore(s: seq<Entry>, next: int)
  {
    forall i :: 0 <= i < |s| ==> s[i].start < next
  }

  predicate ValidDurations(tasks: seq<Task>)
  {
    forall k :: 0 <= k < |tasks| ==> tasks[k].duration >= 1
  }

  /** What every state of the walk satisfies before the slot at hour next:
      the schedule so far has all of the properties above, its entries all
      start before next, and the accumulators agree with it. */
  ghost predicate Inv(req: Request, st: State, next: int)
  {
    ScheduleInv(st.schedule, req.tasks, next) && LedgerInv(st, req.availableHours)
  }

  /** The schedule so far has the properties promised of the result, and all
      of its entries start before hour next. */
  ghost predicate ScheduleInv(s: seq<Entry>, tasks: seq<Task>, next: int)
  {
    InDayWindow(s) && Chronological(s) && AscendingStarts(s) && DistinctNames(s) && FromTasks(s, tasks)
    && StartsBefore(s, next)
  }

  /** The accumulators agree with the schedule so far, which fits the budget. */
  ghost predicate LedgerInv(st: State, availableHours: int)
  {
    var s := st.schedule;
    st.usedHours == TotalHours(s)
    && (s == [] || TotalHours(s) <= availableHours)
    && st.scheduledTasks == Names(s)
    && OccupiedMatches(st.occupiedHours, s)
  }

  /** The occupied hours are exactly the hours some entry covers. */
  ghost predicate OccupiedMatches(occupied: set<int>, s: seq<Entry>)
  {
    forall h :: h in occupied <==> Covered(s, h)
  }

  lemma InvInitial(req: Request)
    ensures Inv(req, Initial(), DayStart)
  {
  }

  lemma NamesAppend(s: seq<Entry>, e: Entry)
    ensures Names(s + [e]) == Names(s) + {e.task}
  {
    var s' := s + [e];
    forall x | x in Names(s) ensures x in Names(s') {
      var i :| 0 <= i < |s| && s[i].task == x;
      assert s'[i].task == x;
    }
    assert s'[|s|].task == e.task;
  }

  lemma TotalHoursAppend(s: seq<Entry>, e: Entry)
    ensures TotalHours(s + [e]) == TotalHours(s) + (e.end - e.start)
  {
    assert (s + [e])[..|s|] == s;
  }

  /** Every entry that starts before a free hour has ended by then. */
  lemma EndedBeforeFreeHour(s: seq<Entry>, occupied: set<int>, hour: int)
    requires OccupiedMatches(occupied, s)
    requires hour !in occupied
    requires StartsBefore(s, hour)
    ensures forall i :: 0 <= i < |s| ==> s[i].end <= hour
  {
    forall i | 0 <= i < |s| ensures s[i].end <= hour {
    }
  }

  lemma AppendChronological(s: seq<Entry>, e: Entry)
    requires Chronological(s)
    requires forall i :: 0 <= i < |s| ==> s[i].end <= e.start
    ensures Chronological(s + [e])
  {
  }

  lemma AppendInDayWindow(s: seq<Entry>, e: Entry)
    requires InDayWindow(s)
    requires DayStart <= e.start && e.end <= DayEnd
    ensures InDayWindow(s + [e])
  {
  }

  lemma AppendAscending(s: seq<Entry>, e: Entry)
    requires AscendingStarts(s)
    requires StartsBefore(s, e.start)
    ensures AscendingStarts(s + [e])
  {
  }

  lemma AppendStartsBefore(s: seq<Entry>, e: Entry, next: int)
    requires StartsBefore(s, next)
    requires e.start < next + 1
    ensures StartsBefore(s + [e], next + 1)
  {
  }

  lemma AppendDistinct(s: seq<Entry>, e: Entry)
    requires DistinctNames(s)
    requires e.task !in Names(s)
    ensures DistinctNames(s + [e])
  {
    forall i | 0 <= i < |s| ensures s[i].task != e.task {
      assert s[i].task in Names(s);
    }
  }

  lemma AppendFromTasks(s: seq<Entry>, tasks: seq<Task>, k: nat, hour: int)
    requires FromTasks(s, tasks)
    requires k < |tasks|
    ensures FromTasks(s + [EntryOf(tasks[k], hour)], tasks)
  {
    var s' := s + [EntryOf(tasks[k], hour)];
    forall i | 0 <= i < |s'|
      ensures exists k' :: 0 <= k' < |tasks| && s'[i] == EntryOf(tasks[k'], s'[i].start)
    {
      if i == |s| {
        assert s'[i] == EntryOf(tasks[k], s'[i].start);
      } else {
        assert s'[i] == s[i];
      }
    }
  }

  lemma AppendCovered(s: seq<Entry>, occupied: set<int>, e: Entry)
    requires OccupiedMatches(occupied, s)
    ensures OccupiedMatches(occupied + HourRange(e.start, e.end), s + [e])
  {
    var s' := s + [e];
    forall h ensures h in occupied + HourRange(e.start, e.end) <==> Covered(s', h) {
      if h in occupied {
        var i :| 0 <= i < |s| && s[i].start <= h < s[i].end;
        assert s'[i] == s[i];
      } else if e.start <= h < e.end {
        assert s'[|s|] == e;
      }
    }
  }

  /** Appending the entry of a task that fits at a free hour keeps the
      schedule's properties. */
  lemma AppendKeepsScheduleInv(s: seq<Entry>, tasks: seq<Task>, occupied: set<int>, k: nat, hour: int)
    requires ScheduleInv(s, tasks, hour) && OccupiedMatches(occupied, s)
    requires DayStart <= hour && hour !in occupied
    requires k < |tasks| && hour + tasks[k].duration <= DayEnd && tasks[k].name !in Names(s)
    ensures ScheduleInv(s + [EntryOf(tasks[k], hour)], tasks, hour + 1)
  {
    var e := EntryOf(tasks[k], hour);
    EndedBeforeFreeHour(s, occupied, hour);
    AppendChronological(s, e);
    AppendDistinct(s, e);
    AppendFromTasks(s, tasks, k, hour);
    AppendInDayWindow(s, e);
    AppendStartsBefore(s, e, hour);
    AppendAscending(s, e);
  }

  /** Placing a task that fits the budget keeps the accumulators in step. */
  lemma AssignKeepsLedgerInv(st: State, t: Task, hour: int, availableHours: int)
    requires LedgerInv(st, availableHours)
    requires st.usedHours + t.duration <= availableHours
    ensures LedgerInv(Assign(st, t, hour), availableHours)
  {
    var e := EntryOf(t, hour);
    NamesAppend(st.schedule, e);
    TotalHoursAppend(st.schedule, e);
    AppendCovered(st.schedule, st.occupiedHours, e);
  }

  /** Placing an eligible task at a free hour keeps the invariant. */
  lemma AssignKeepsInv(req: Request, st: State, k: nat, hour: int)
    requires DayStart <= hour
    requires Inv(req, st, hour)
    requires k < |req.tasks| && hour !in st.occupiedHours
    requires Eligible(req.tasks[k], hour, st, req.availableHours)
    ensures Inv(req, Assign(st, req.tasks[k], hour), hour + 1)
  {
    AppendKeepsScheduleInv(st.schedule, req.tasks, st.occupiedHours, k, hour);
    AssignKeepsLedgerInv(st, req.tasks[k], hour, req.availableHours);
  }

  /** Step keeps the invariant and moves its hour on by one. */
  lemma StepKeepsInv(req: Request, st: State, energy: Energy, hour: int)
    requires DayStart <= hour
    requires Inv(req, st, hour)
    ensures Inv(req, Step(req, st, energy, hour), hour + 1)
  {
    if st.usedHours >= req.availableHours || hour in st.occupiedHours {
      return;
    }
    var p := Best(req, |req.tasks|, energy, hour, st);
    BestIsFirstMaximum(req, |req.tasks|, energy, hour, st);
    if p.task.Some? {
      AssignKeepsInv(req, st, p.task.value, hour);
    }
  }

  lemma RunHoursKeepsInv(req: Request, st: State, energy: Energy, hour: int, hi: int)
    requires DayStart <= hour <= hi
    requires Inv(req, st, hour)
    ensures Inv(req, RunHours(req, st, energy, hour, hi), hi)
  {
    var step := (s: State, h: int) => Step(req, s, energy, h);
    var P := (s: State, h: int) => Inv(req, s, h);
    forall s, h | hour <= h < hi && P(s, h)
      ensures P(step(s, h), h + 1)
    {
      StepKeepsInv(req, s, energy, h);
    }
    IterateKeeps(step, P, st, hour, hi);
  }

  /** Plan written out block by block. */
  lemma PlanUnfolded(req: Request)
    ensures Plan(req) ==
      RunHours(req, RunHours(req, RunHours(req, Initial(), High, 8, 12), Medium, 12, 16), Low, 16, 22)
  {
    var bs := EnergyBlocks();
    var s1 := RunHours(req, Initial(), High, 8, 12);
    var s2 := RunHours(req, s1, Medium, 12, 16);
    var s3 := RunHours(req, s2, Low, 16, 22);
    assert bs[1..] == [Block(Medium, 12, 16), Block(Low, 16, 22)];
    assert bs[1..][1..] == [Block(Low, 16, 22)];
    assert RunBlocks(req, s3, []) == s3;
  }

  lemma {:induction false} TotalHoursPositive(s: seq<Entry>)
    requires forall i :: 0 <= i < |s| ==> s[i].start < s[i].end
    ensures TotalHours(s) >= |s|
  {
    if s != [] {
      TotalHoursPositive(s[..|s| - 1]);
    }
  }

  /** The walk over the three blocks keeps the invariant to the end of the day. */
  lemma PlanKeepsInv(req: Request)
    ensures Inv(req, Plan(req), DayEnd)
  {
    PlanUnfolded(req);
    InvInitial(req);
    var s1 := RunHours(req, Initial(), High, 8, 12);
    RunHoursKeepsInv(req, Initial(), High, 8, 12);
    var s2 := RunHours(req, s1, Medium, 12, 16);
    RunHoursKeepsInv(req, s1, Medium, 12, 16);
    RunHoursKeepsInv(req, s2, Low, 16, 22);
  }

  lemma EntriesLast(s: seq<Entry>, tasks: seq<Task>)
    requires FromTasks(s, tasks) && ValidDurations(tasks)
    ensures forall i :: 0 <= i < |s| ==> s[i].start < s[i].end
  {
    forall i | 0 <= i < |s| ensures s[i].start < s[i].end {
      var e := s[i];
      var k :| 0 <= k < |tasks| && e == EntryOf(tasks[k], e.start);
    }
  }

  /** A budget of zero or less lets no task in: the walk leaves every
      block at its first hour. */
  lemma PlanWithoutBudget(req: Request)
    requires req.availableHours <= 0
    ensures Plan(req) == Initial()
  {
    PlanUnfolded(req);
    RunHoursIdle(req, Initial(), High, 8, 12);
    RunHoursIdle(req, Initial(), Medium, 12, 16);
    RunHoursIdle(req, Initial(), Low, 16, 22);
  }

  /** What the source promises of every schedule it returns: entries lie in
      08:00-22:00 and each echoes an input task started at the entry's hour,
      each ends by the time the next starts (so none overlap), no name
      repeats, the total length fits the budget, and a budget of zero or less
      gives an empty schedule. */
  lemma PlanSound(req: Request)
    ensures var s := Plan(req).schedule;
      InDayWindow(s) && Chronological(s) && AscendingStarts(s) && DistinctNames(s) && FromTasks(s, req.tasks)
      && TotalHours(s) <= (if req.availableHours < 0 then 0 else req.availableHours)
      && (req.availableHours <= 0 ==> s == [])
  {
    PlanKeepsInv(req);
    if req.availableHours <= 0 {
      PlanWithoutBudget(req);
    }
  }

  /** When every duration is at least one hour, every entry is a non-empty
      interval, and so there are no more entries than booked hours. */
  lemma PlanNonEmptyEntries(req: Request)
    requires ValidDurations(req.tasks)
    ensures var s := Plan(req).schedule;
      (forall i :: 0 <= i < |s| ==> s[i].start < s[i].end)
      && |s| <= TotalHours(s)
  {
    var s := Plan(req).schedule;
    assert FromTasks(s, req.tasks) by {
      PlanKeepsInv(req);
    }
    EntriesLast(s, req.tasks);
    TotalHoursPositive(s);
  }

  // ---------------------------------------------------------------------
  // The imperative scheduler

  /** The search over the tasks at one free hour (core.py, lines 47-70). */
  method SelectBest(req: Request, energy: Energy, hour: int, st: State) returns (bestTask: Option<nat>)
    ensures bestTask == Best(req, |req.tasks|, energy, hour, st).task
  {
    bestTask := None;
    var bestScore := -1;
    for i := 0 to |req.tasks|
      invariant Pick(bestTask, bestScore) == Best(req, i, energy, hour, st)
    {
      var task := req.tasks[i];
      var duration := task.duration;
      if task.name in st.scheduledTasks
         || st.usedHours + duration > req.availableHours
         || hour + duration > DayEnd
         || Overlaps(st.occupiedHours, hour, hour + duration)
      {
        continue;
      }
      var score := Score(task, energy, req.focusTag);
      if score > bestScore {
        bestScore := score;
        bestTask := Some(i);
      }
    }
  }

  lemma {:induction false} RunHoursIdle(req: Request, st: State, energy: Energy, hour: int, hi: int)
    requires st.usedHours >= req.availableHours
    ensures RunHours(req, st, energy, hour, hi) == st
    decreases hi - hour
  {
    if hour < hi {
      RunHoursIdle(req, st, energy, hour + 1, hi);
    }
  }

  lemma RunHoursFirst(req: Request, st: State, energy: Energy, hour: int, hi: int)
    requires hour < hi
    ensures RunHours(req, st, energy, hour, hi) == RunHours(req, Step(req, st, energy, hour), energy, hour + 1, hi)
  {
  }

  lemma RunBlocksFirst(req: Request, st: State, blocks: seq<Block>, b: nat)
    requires b < |blocks|
    ensures RunBlocks(req, st, blocks[b..])
            == RunBlocks(req, RunHours(req, st, blocks[b].energy, blocks[b].lo, blocks[b].hi), blocks[b + 1..])
  {
    assert blocks[b..][1..] == blocks[b + 1..];
  }

  /** The body of the hour loop once the budget is known to be left: a
      free hour receives the best task, if any (core.py, lines 44-88). */
  method VisitHour(req: Request, energy: Energy, hour: int,
                   schedule: seq<Entry>, usedHours: int, scheduledTasks: set<string>, occupiedHours: set<int>)
    returns (schedule': seq<Entry>, usedHours': int, scheduledTasks': set<string>, occupiedHours': set<int>)
    requires usedHours < req.availableHours
    ensures State(schedule', usedHours', scheduledTasks', occupiedHours')
            == Step(req, State(schedule, usedHours, scheduledTasks, occupiedHours), energy, hour)
  {
    schedule', usedHours', scheduledTasks', occupiedHours' := schedule, usedHours, scheduledTasks, occupiedHours;
    if hour in occupiedHours {
      return;
    }
    var st := State(schedule, usedHours, scheduledTasks, occupiedHours);
    var bestTask := SelectBest(req, energy, hour, st);
    if bestTask.Some? {
      var task := req.tasks[bestTask.value];
      var start := hour;
      var end := hour + task.duration;
      schedule' := schedule + [Entry(task.name, start, end, task.energy, task.tags)];
      usedHours' := usedHours + task.duration;
      scheduledTasks' := scheduledTasks + {task.name};
      occupiedHours' := occupiedHours + HourRange(start, end);
    }
  }

  /** The hour loop of one block: stops at the first hour at which the
      budget is used up (core.py, lines 39-89). */
  method VisitBlock(req: Request, block: Block,
                    schedule: seq<Entry>, usedHours: int, scheduledTasks: set<string>, occupiedHours: set<int>)
    returns (schedule': seq<Entry>, usedHours': int, scheduledTasks': set<string>, occupiedHours': set<int>)
    ensures State(schedule', usedHours', scheduledTasks', occupiedHours')
            == RunHours(req, State(schedule, usedHours, scheduledTasks, occupiedHours), block.energy, block.lo, block.hi)
  {
    schedule', usedHours', scheduledTasks', occupiedHours' := schedule, usedHours, scheduledTasks, occupiedHours;
    // the state the block's walk ends in
    ghost var blockEnd := RunHours(req, State(schedule, usedHours, scheduledTasks, occupiedHours),
                                   block.energy, block.lo, block.hi);
    if block.hi <= block.lo {
      return;
    }
    for hour := block.lo to block.hi
      invariant RunHours(req, State(schedule', usedHours', scheduledTasks', occupiedHours'),
                         block.energy, hour, block.hi) == blockEnd
    {
      var st := State(schedule', usedHours', scheduledTasks', occupiedHours');
      RunHoursFirst(req, st, block.energy, hour, block.hi);
      if usedHours' >= req.availableHours {
        RunHoursIdle(req, st, block.energy, hour, block.hi);
        return;
      }
      schedule', usedHours', scheduledTasks', occupiedHours' :=
        VisitHour(req, block.energy, hour, schedule', usedHours', scheduledTasks', occupiedHours');
    }
  }

  /** generate_schedule (core.py, lines 26-91). */
  method GenerateSchedule(tasks: seq<Task>, availableHours: int, focusTag: string) returns (schedule: seq<Entry>)
    ensures schedule == Plan(Request(tasks, availableHours, focusTag)).schedule
    ensures InDayWindow(schedule) && Chronological(schedule) && AscendingStarts(schedule) && DistinctNames(schedule)
    ensures FromTasks(schedule, tasks)
    ensures TotalHours(schedule) <= (if availableHours < 0 then 0 else availableHours)
    ensures availableHours <= 0 ==> schedule == []
  {
    var req := Request(tasks, availableHours, focusTag);
    var blocks := EnergyBlocks();
    schedule := [];
    var usedHours := 0;
    var scheduledTasks: set<string> := {};
    var occupiedHours: set<int> := {};

    for b := 0 to |blocks|
      invariant RunBlocks(req, State(schedule, usedHours, scheduledTasks, occupiedHours), blocks[b..]) == Plan(req)
    {
      var block := blocks[b];
      RunBlocksFirst(req, State(schedule, usedHours, scheduledTasks, occupiedHours), blocks, b);
      schedule, usedHours, scheduledTasks, occupiedHours :=
        VisitBlock(req, block, schedule, usedHours, scheduledTasks, occupiedHours);
    }
    assert blocks[|blocks|..] == [];
    PlanSound(req);
  }
}

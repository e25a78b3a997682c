/** The task record and the scoring function of the day scheduler
    (scheduler/core.py, compute_task_score). */
module Scoring {
  import opened Text

  /** The three energy tiers. A task's tier is one of these by construction,
      which is what the scheduler demands of every task it is given. */
  datatype Energy = High | Medium | Low

  /** The tier's name as the source spells it. */
  function EnergyName(e: Energy): (r: string)
    ensures r in {"high", "medium", "low"}
  {
    match e
    case High => "high"
    case Medium => "medium"
    case Low => "low"
  }

  /** How much energy a tier stands for: high above medium above low. */
  function Rank(e: Energy): int
  {
    match e
    case High => 3
    case Medium => 2
    case Low => 1
  }

  /** A candidate unit of work. Durations are whole hours. */
  datatype Task = Task(name: string, duration: int, priority: int, energy: Energy, tags: seq<string>)

  /** The energy-match table, keyed by (task tier, block tier); pairs that are
      not in the table weigh 0. */
  function EnergyWeight(taskEnergy: Energy, blockEnergy: Energy): (w: int)
    ensures 0 <= w <= 15
    ensures w == 15 <==> taskEnergy == High && blockEnergy == High
    ensures taskEnergy == blockEnergy ==> w >= 10
    ensures w > 0 ==> Rank(taskEnergy) >= Rank(blockEnergy)
    ensures Rank(taskEnergy) > Rank(blockEnergy) + 1 ==> w == 0
  {
    match (taskEnergy, blockEnergy)
    case (High, High) => 15
    case (Medium, Medium) => 10
    case (Low, Low) => 10
    case (High, Medium) => 5
    case (Medium, Low) => 2
    case _ => 0
  }

  /** A block rewards the task of its own tier at least as much as any other. */
  lemma ExactMatchWeighsMost(taskEnergy: Energy, blockEnergy: Energy)
    ensures EnergyWeight(taskEnergy, blockEnergy) <= EnergyWeight(blockEnergy, blockEnergy)
  {
  }

  /** The focus tag is non-empty and is among the task's tags, ignoring case. */
  predicate FocusMatches(tags: seq<string>, focusTag: string)
  {
    focusTag != "" && Lower(focusTag) in LowerAll(tags)
  }

  /** The desirability of placing task t in a block of tier blockEnergy. */
  function Score(t: Task, blockEnergy: Energy, focusTag: string): (r: int)
    ensures 1 <= t.priority <= 5 ==> 10 <= r <= 75
    ensures 10 * t.priority <= r <= 10 * t.priority + 25
  {
    t.priority * 10 + EnergyWeight(t.energy, blockEnergy) + (if FocusMatches(t.tags, focusTag) then 10 else 0)
  }

  /** The score is the priority weight plus the energy weight, plus 10 exactly
      when some tag of the task equals the non-empty focus tag up to case. */
  lemma ScoreParts(t: Task, blockEnergy: Energy, focusTag: string)
    ensures Score(t, blockEnergy, focusTag)
            == 10 * t.priority + EnergyWeight(t.energy, blockEnergy)
               + (if focusTag != "" && exists i :: 0 <= i < |t.tags| && Lower(t.tags[i]) == Lower(focusTag)
                  then 10 else 0)
  {
    LowerAllMember(t.tags, focusTag);
  }

  /** The case of the focus tag does not matter. */
  lemma ScoreIgnoresFocusCase(t: Task, blockEnergy: Energy, focusTag: string)
    ensures Score(t, blockEnergy, Lower(focusTag)) == Score(t, blockEnergy, focusTag)
  {
    LowerIdempotent(focusTag);
  }

  /** Nor does the case of the task's tags. */
  lemma ScoreIgnoresTagCase(t: Task, blockEnergy: Energy, focusTag: string)
    ensures Score(t.(tags := LowerAll(t.tags)), blockEnergy, focusTag) == Score(t, blockEnergy, focusTag)
  {
    var l := LowerAll(t.tags);
    forall i | 0 <= i < |l| ensures Lower(l[i]) == Lower(t.tags[i]) {
      LowerIdempotent(t.tags[i]);
    }
    assert LowerAll(l) == LowerAll(t.tags);
  }
}

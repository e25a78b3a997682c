# Time-Optimizer scheduler core in Dafny

This project models the core of a personal day planner. The planner takes a
list of tasks, each with a name, a duration in whole hours, a priority, an
energy tier (high, medium, low) and tags. It lays them greedily over a
08:00-22:00 day split into a high-energy block (8-12), a medium-energy block
(12-16) and a low-energy block (16-22). At each free hour it places the task
that scores best for that block and still fits the hour budget. The model
also covers the list filters and the plain-text rendering that consume the
resulting schedule.

Modules:

- `Text` (`text.dfy`) holds ASCII lower-casing, a `str.strip()` that cuts
  the whitespace Python's `str.isspace()` accepts, and decimal rendering and
  parsing of integers.
- `Scoring` (`scoring.dfy`) holds the task record, the energy-match table
  and the score of a task in a block.
- `Scheduler` (`scheduler.dfy`) holds the greedy slot filler and the
  relative block splitter. `GenerateSchedule` is an imperative method. Its
  nested loops and its four accumulators (`schedule`, `usedHours`,
  `scheduledTasks`, `occupiedHours`) are those of the source. The method is
  proved equal to `Plan`, a function that does the same walk one
  (block, hour) slot at a time. The promises about the schedule are proved
  about `Plan`. They rest on an invariant `Inv` that every slot keeps: the
  entries lie in the day window, they do not overlap, no name repeats, each
  entry comes from an input task, and the accumulators agree with the
  entries. The inner search over the tasks is the method `SelectBest`,
  proved equal to `Best`. `Best` is `RunningBest`, a fold over candidate
  indices with the source's running `best_score = -1` and strict `>`,
  applied to the skip test and the score of each task.
  `RunningBestIsFirstMaximum` proves that the fold picks the first candidate
  of maximal score, and `BestIsFirstMaximum` restates this for the tasks.
  The hours of one block are walked by `Iterate`, and `IterateKeeps`
  carries a per-hour invariant through them.
- `TaskFilters` (`task_filters.dfy`) holds the four list filters. In the
  source the records are dictionaries. Here each filter is generic in the
  record type and is given the field it reads as a function (`typeOf`,
  `tagsOf`). All four filters are built on one comprehension, `Keep`.
  `Keep` is proved to keep exactly the elements that satisfy the test, each
  as often as in the input and in input order.
- `Scenarios` (`scenarios.dfy`) works three small scheduling calls out to
  their exact schedules.
- `Display` (`display.dfy`) holds the schedule-to-text renderer, written as
  a loop over a list of lines that is then joined. It also holds the
  `"H:00"` hour rendering and its round trip.

## Model

| member | source | states |
|---|---|---|
| Scoring.EnergyWeight | scheduler/core.py:8-15 | the table weight lies in 0..15; it is 15 exactly for a high task in a high block; a task in its own tier gets at least 10; a positive weight never goes to a task below the block's tier; a task two tiers above the block gets 0 |
| Scoring.ExactMatchWeighsMost | scheduler/core.py:8-15 | no task tier weighs more in a block than the block's own tier |
| Scoring.EnergyName | scheduler/core.py:83 | the tier's name is one of "high", "medium", "low" |
| Scoring.Score | scheduler/core.py:1-23 | the score lies between 10·priority and 10·priority + 25, and so in [10, 75] for priorities 1..5 |
| Scoring.ScoreParts | scheduler/core.py:1-23 | the score is 10·priority plus the table weight, plus 10 exactly when the focus tag is non-empty and equals some task tag up to case |
| Scoring.ScoreIgnoresFocusCase | scheduler/core.py:18-21 | lower-casing the focus tag leaves the score unchanged |
| Scoring.ScoreIgnoresTagCase | scheduler/core.py:19-20 | lower-casing the task's tags leaves the score unchanged |
| Scheduler.AssignEnergyBlocks | scheduler/core.py:93-99 | one, two or three blocks for budgets ≤ 3, ≤ 6 and larger; they start at 0, each ends where the next starts, the last ends at the budget, the first two of a longer budget last two hours, they are labelled high, medium, low in order, and they are non-empty for a positive budget |
| Scheduler.AssignEnergyBlocksPartition | scheduler/core.py:93-99 | the hours in some block are exactly 0 ≤ h < budget, and no hour lies in two blocks |
| Scheduler.HourRange | scheduler/core.py:52 | the hours of `range(lo, hi)` are exactly those with lo ≤ h < hi |
| Scheduler.RunningBest | scheduler/core.py:47-70 | a chosen candidate is below the bound and the running score is its score; with no choice the running score stays -1 |
| Scheduler.RunningBestIsFirstMaximum | scheduler/core.py:47-70 | nothing is chosen exactly when no candidate that passes scores above -1; a chosen candidate passes, scores above -1, scores at least as much as every passing candidate and more than every passing candidate before it |
| Scheduler.Best | scheduler/core.py:47-70 | a chosen task index is in range and its score is the running best score; with no choice the running score stays -1 |
| Scheduler.BestIsFirstMaximum | scheduler/core.py:47-70 | no task is chosen exactly when no eligible task scores above -1; a chosen task is eligible, scores at least as much as every eligible task, and scores more than every eligible task before it in input order |
| Scheduler.SelectBest | scheduler/core.py:47-70 | the loop over the tasks returns the choice of `Best` over all of them |
| Scheduler.VisitHour | scheduler/core.py:43-89 | one visit of a free-or-occupied hour with budget left updates the four accumulators exactly as one slot of `Plan` does |
| Scheduler.VisitBlock | scheduler/core.py:39-89 | the hour loop of one block updates the four accumulators exactly as `Plan` walks that block |
| Scheduler.IterateKeeps | scheduler/core.py:39 | a property that each hour's step carries to the next hour holds after the block's hours in ascending order |
| Scheduler.RunHoursIdle | scheduler/core.py:40-41 | once the budget is used up, the rest of a block changes nothing |
| Scheduler.InvInitial | scheduler/core.py:33-36 | the empty accumulators satisfy the invariant |
| Scheduler.AssignKeepsInv | scheduler/core.py:72-89 | placing an eligible task at a free hour appends its entry and keeps the invariant |
| Scheduler.StepKeepsInv | scheduler/core.py:38-89 | every hour's step keeps the invariant |
| Scheduler.RunHoursKeepsInv | scheduler/core.py:39-89 | walking the hours of a block keeps the invariant |
| Scheduler.PlanKeepsInv | scheduler/core.py:26-91 | the walk over the three blocks ends in a state that satisfies the invariant |
| Scheduler.PlanWithoutBudget | scheduler/core.py:40-41 | a budget of zero or less leaves the accumulators empty |
| Scheduler.PlanSound | scheduler/core.py:26-91 | the schedule lies in 08:00-22:00; each entry is an input task's entry started at its hour, carrying the task's own tier; each entry ends by the time the next starts; entries start at strictly ascending hours, whatever the durations; no name repeats; the total length is at most the budget (and at most 0 for a negative one); a budget of zero or less gives an empty schedule |
| Scheduler.PlanNonEmptyEntries | scheduler/core.py:72-89 | with durations of at least one hour, entries are non-empty intervals and number no more than the hours they book |
| Scheduler.GenerateSchedule | scheduler/core.py:26-91 | the method's result is `Plan`'s schedule, and so lies in the day window, has no overlap, starts at strictly ascending hours, has no repeated name, comes from the input tasks, fits the budget, and is empty for a budget of zero or less |
| Scenarios.TwoTasksFillHighBlock | scheduler/core.py:38-89 | a priority-5 high task and a priority-3 medium task of two hours each with a budget of 4 give the high task 8-10 and the medium task 10-12, both in the high block |
| Scenarios.OverlongTaskNeverPlaced | scheduler/core.py:61 | a six-hour task with a budget of 2 gives an empty schedule |
| Scenarios.FocusTagBreaksTie | scheduler/core.py:17-70 | of two otherwise equal one-hour tasks, the one carrying the focus tag is placed at 8-9, and the one-hour budget then ends the day |
| Text.Lower | utils/task_utils.py:3 | lower-casing keeps the length and maps each character through the ASCII case fold |
| Text.LowerIdempotent | utils/task_utils.py:3 | lower-casing twice is lower-casing once |
| Text.LowerAllMember | scheduler/core.py:19-20 | a lower-cased string is in the lower-cased list exactly when it equals some element up to case |
| Text.Strip | utils/task_utils.py:11 | the result is a contiguous slice of the input with only whitespace cut before and after it; a non-empty result neither starts nor ends with whitespace; the result is empty exactly when the input is all whitespace |
| Text.NatToString | scheduler/core.py:81-82 | the rendering is a non-empty string of digits without a leading zero |
| Text.IntToString | scheduler/core.py:81-82 | the rendering is non-empty and starts with a digit exactly for non-negative numbers |
| Text.ParseNatToString | scheduler/core.py:81-82 | reading a rendered natural number back gives the number |
| TaskFilters.Keep | utils/task_utils.py:3 | the comprehension keeps exactly the elements that pass the test, each as many times as it occurs in the input |
| TaskFilters.KeepIsSubsequence | utils/task_utils.py:3 | the comprehension's result is an order-preserving subsequence of its input |
| TaskFilters.KeepIdempotent | utils/task_utils.py:3 | filtering twice by one test is filtering once |
| TaskFilters.KeepKeep | utils/task_utils.py:33-37 | filtering by one test and then another is filtering by both |
| TaskFilters.FilterScheduleByType | utils/task_utils.py:2-3 | "All" returns the list unchanged; any other type keeps exactly the records whose type equals it up to case, each as often as in the input; the result is a subsequence of the input |
| TaskFilters.FilterScheduleByTypeIdempotent | utils/task_utils.py:2-3 | applying the type filter twice is applying it once |
| TaskFilters.FilterByTags | utils/task_utils.py:6-7 | keeps exactly the records with at least one selected tag, each as often as in the input; no selected tag keeps nothing; the result is a subsequence of the input |
| TaskFilters.FilterByTagsIdempotent | utils/task_utils.py:6-7 | applying the tag filter twice is applying it once |
| TaskFilters.GetSmartSuggestions | utils/task_utils.py:10-17 | every suggestion is an input task that is not used and fits the unused time and, when the stripped focus tag is not empty, carries it up to case; each task that passes is kept as often as in the input and no other is kept; the result is a subsequence of the input |
| TaskFilters.SuggestionMembership | utils/task_utils.py:10-17 | a task is suggested exactly when it is an input task, is not used, fits the unused time and, if the stripped focus tag is not empty, has a tag equal to it up to case |
| TaskFilters.BlankFocusIgnored | utils/task_utils.py:11-16 | an empty or all-whitespace focus tag gives the same suggestions as no focus tag |
| TaskFilters.GetSmartSuggestionsIdempotent | utils/task_utils.py:10-17 | suggesting from the suggestions gives the same suggestions |
| TaskFilters.FilterScheduleByTypeAndTags | utils/task_utils.py:21-37 | keeps exactly the records whose type is selected and, unless no tag is selected, that carry a selected tag, each as often as in the input; the result is a subsequence of the input |
| TaskFilters.TypeAndTagsDecomposes | utils/task_utils.py:33-37 | with no tag selected the combined filter is the type-membership filter; otherwise it is that filter followed by the tag filter |
| TaskFilters.FilterScheduleByTypeAndTagsIdempotent | utils/task_utils.py:33-37 | applying the combined filter twice is applying it once |
| Display.HourStr | scheduler/core.py:81-82 | the rendering ends in ":00" and has no ':' before that |
| Display.UntilColon | app.py:156 | the part before the first ':' is a prefix without ':' that ends where the input ends or at a ':' |
| Display.HourRoundTrip | scheduler/core.py:81-82 | the digits before the ':' of a rendered hour read back as the hour |
| Display.EntryHoursRoundTrip | app.py:156 | an entry's length read back from its two rendered hours is end - start |
| Display.EntryLine | utils/display_utils.py:4 | an entry's line is non-empty and ends with ')' |
| Display.Join | utils/display_utils.py:5 | joining no parts gives the empty string and joining one part gives that part |
| Display.JoinLines | utils/display_utils.py:5 | joining a first line and further lines with newlines gives the first line followed by each further line on a new line |
| Display.BodyAppend | utils/display_utils.py:3-4 | an entry appended to the schedule adds its line at the end of the text, after a newline |
| Display.BodyEndsWithLastLine | utils/display_utils.py:5 | for a non-empty schedule the text ends with the last entry's line after a newline, so it ends with ')' and not with a newline |
| Display.FormatScheduleText | utils/display_utils.py:1-5 | the text is the header "Your optimized schedule:\n" followed by a newline and the line of each entry in schedule order; an empty schedule gives exactly the header; the text always starts with the header |

## Left out

- The debug `print` in `generate_schedule` (scheduler/core.py:77) is a side effect with no bearing on the result.
- Scheduler.Entry: the output entry keeps its tags as a list. The source joins them with ", " (scheduler/core.py:84); that string is not modelled.
- Scheduler.Entry: start and end are kept as hour numbers. `Display.HourStr` renders them as the source writes them, with no zero padding.
- Scoring.Energy: a task's energy is one of the three tiers by construction. In the source an unknown tier string weighs 0 and is echoed into the entry; the model cannot express such a task.
- Text.Lower: case folding is ASCII only. Python's `str.lower()` also folds non-ASCII letters.
- Missing dictionary keys are not modelled. In the source a missing key raises, except `tags`, which defaults to the empty list; here every record has every field.
- Scheduler.PlanNonEmptyEntries: start < end and the bound on the number of entries are stated only for durations of at least one hour. With a duration of zero or less the source emits an entry that books no hour.
- Scheduler.GenerateSchedule: the focus tag is a required parameter. In the source it defaults to the empty string (scheduler/core.py:26); pass `""` for the same call.
- TaskFilters: the filters in `utils/task_utils.py` are modelled on records of any type. No modelled file calls them. Their parameter names and the docstring (utils/task_utils.py:25-27) suggest they receive schedule entries, whose tags the scheduler joins into one string; that use is not modelled.
- app.py, utils/file_utils.py, utils/plot_utils.py and test.py are not part of this model. They hold the user interface, JSON files, charts and timing. app.py's second `format_schedule_text` (app.py:42-46) duplicates the one modelled here.

Malformed tasks (a duration below one, an unknown tier) are not skipped: the
code has no such check and treats them like any other task. This model
follows the code. `GenerateSchedule` accepts any durations, and only
`PlanNonEmptyEntries` assumes durations of at least one hour.

With a two-hour high task of priority 5 and a two-hour medium task of
priority 3 and a budget of 4, the intended outcome would put the medium task
at 12-14 in the medium block. The code places it at 10-12 instead. At hour 10
of the high block the medium task is free to start, fits the budget, and
scores 30. The energy pair (medium, high) is not in the table and weighs 0,
but 30 still beats the starting score of -1. The model follows the code;
`Scenarios.TwoTasksFillHighBlock` proves this outcome.

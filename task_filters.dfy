/** The list filters of utils/task_utils.py. Each is a list comprehension
    over records that are dictionaries in the source; here a filter is
    generic in the record type and is given the field it reads as a function
    (typeOf for "type" or "task_type", tagsOf for "tags", which is the empty
    list when the record has none). */
module TaskFilters {
  import opened Text
  import opened Scoring

  /** a is an order-preserving subsequence of b. */
  predicate IsSubsequence<T(==,!new)>(a: seq<T>, b: seq<T>)
    decreases |b|
  {
    if a == [] then true
    else if b == [] then false
    else if a[0] == b[0] then IsSubsequence(a[1..], b[1..])
    else IsSubsequence(a, b[1..])
  }

  lemma {:induction false} SubsequenceOfItself<T(!new)>(s: seq<T>)
    ensures IsSubsequence(s, s)
    decreases |s|
  {
    if s != [] {
      SubsequenceOfItself(s[1..]);
    }
  }

  /** The comprehension [x for x in s if p(x)]: exactly the elements of s that
      satisfy p, each as often as in s. */
  function Keep<T(==,!new)>(s: seq<T>, p: T -> bool): (r: seq<T>)
    ensures |r| <= |s|
    ensures forall x :: multiset(r)[x] == if p(x) then multiset(s)[x] else 0
    ensures forall x :: x in r <==> x in s && p(x)
  {
    if s == [] then []
    else
      assert s == [s[0]] + s[1..];
      if p(s[0]) then [s[0]] + Keep(s[1..], p) else Keep(s[1..], p)
  }

  lemma {:induction false} KeepIsSubsequence<T(!new)>(s: seq<T>, p: T -> bool)
    ensures IsSubsequence(Keep(s, p), s)
  {
    if s != [] {
      KeepIsSubsequence(s[1..], p);
      var r := Keep(s, p);
      if !p(s[0]) && r != [] {
        assert r[0] in r;
        assert r[0] != s[0];
      }
    }
  }

  lemma {:induction false} KeepIdempotent<T(!new)>(s: seq<T>, p: T -> bool)
    ensures Keep(Keep(s, p), p) == Keep(s, p)
  {
    if s != [] {
      KeepIdempotent(s[1..], p);
    }
  }

  /** Keep depends on the values of its predicate only. */
  lemma {:induction false} KeepCongruent<T(!new)>(s: seq<T>, p: T -> bool, q: T -> bool)
    requires forall x :: p(x) == q(x)
    ensures Keep(s, p) == Keep(s, q)
  {
    if s != [] {
      KeepCongruent(s[1..], p, q);
    }
  }

  /** Keeping by p and then by q is keeping by both at once. */
  lemma {:induction false} KeepKeep<T(!new)>(s: seq<T>, p: T -> bool, q: T -> bool)
    ensures Keep(Keep(s, p), q) == Keep(s, x => p(x) && q(x))
  {
    if s != [] {
      KeepKeep(s[1..], p, q);
    }
  }

  /** `any(tag in selected for tag in tags)`: some tag is one of the selected
      tags, compared exactly. */
  predicate AnyIn(tags: seq<string>, selected: seq<string>)
  {
    exists i :: 0 <= i < |tags| && tags[i] in selected
  }

  /** filter_schedule_by_type: "All" passes the list through; any other type
      keeps the records whose type equals it up to case. */
  function FilterScheduleByType<T(==,!new)>(schedule: seq<T>, typeOf: T -> string, selectedType: string): (r: seq<T>)
    ensures selectedType == "All" ==> r == schedule
    ensures selectedType != "All" ==>
      forall x :: x in r <==> x in schedule && Lower(typeOf(x)) == Lower(selectedType)
    ensures selectedType != "All" ==>
      forall x :: multiset(r)[x] == if Lower(typeOf(x)) == Lower(selectedType) then multiset(schedule)[x] else 0
    ensures IsSubsequence(r, schedule)
  {
    if selectedType != "All" then
      var p := x => Lower(typeOf(x)) == Lower(selectedType);
      KeepIsSubsequence(schedule, p);
      Keep(schedule, p)
    else
      SubsequenceOfItself(schedule);
      schedule
  }

  lemma FilterScheduleByTypeIdempotent<T(!new)>(schedule: seq<T>, typeOf: T -> string, selectedType: string)
    ensures FilterScheduleByType(FilterScheduleByType(schedule, typeOf, selectedType), typeOf, selectedType)
            == FilterScheduleByType(schedule, typeOf, selectedType)
  {
    if selectedType != "All" {
      KeepIdempotent(schedule, x => Lower(typeOf(x)) == Lower(selectedType));
    }
  }

  /** filter_by_tags: the records that carry at least one selected tag. */
  function FilterByTags<T(==,!new)>(schedule: seq<T>, tagsOf: T -> seq<string>, selectedTags: seq<string>): (r: seq<T>)
    ensures forall x :: x in r <==> x in schedule && AnyIn(tagsOf(x), selectedTags)
    ensures forall x :: multiset(r)[x] == if AnyIn(tagsOf(x), selectedTags) then multiset(schedule)[x] else 0
    ensures selectedTags == [] ==> r == []
    ensures IsSubsequence(r, schedule)
  {
    var p := x => AnyIn(tagsOf(x), selectedTags);
    KeepIsSubsequence(schedule, p);
    Keep(schedule, p)
  }

  lemma FilterByTagsIdempotent<T(!new)>(schedule: seq<T>, tagsOf: T -> seq<string>, selectedTags: seq<string>)
    ensures FilterByTags(FilterByTags(schedule, tagsOf, selectedTags), tagsOf, selectedTags)
            == FilterByTags(schedule, tagsOf, selectedTags)
  {
    KeepIdempotent(schedule, x => AnyIn(tagsOf(x), selectedTags));
  }

  /** The focus test of get_smart_suggestions: no test when the stripped,
      lower-cased focus tag is empty; otherwise it must be among the task's
      lower-cased tags. */
  predicate SuggestionFocus(t: Task, focus: string)
  {
    if focus != "" then focus in LowerAll(t.tags) else true
  }

  /** get_smart_suggestions: the tasks not yet used that fit in the unused
      time and, when the focus tag is not blank, carry it up to case. */
  function GetSmartSuggestions(tasks: seq<Task>, usedTasks: seq<string>, unusedTime: int, focusTag: string): (r: seq<Task>)
    ensures forall t :: t in r ==> t in tasks && t.name !in usedTasks && t.duration <= unusedTime
    ensures forall t :: t in r && Strip(focusTag) != "" ==> Lower(Strip(focusTag)) in LowerAll(t.tags)
    ensures forall t :: multiset(r)[t] ==
                        if t.name !in usedTasks && t.duration <= unusedTime && SuggestionFocus(t, Lower(Strip(focusTag)))
                        then multiset(tasks)[t] else 0
    ensures IsSubsequence(r, tasks)
  {
    var focus := Lower(Strip(focusTag));
    var p := (t: Task) => t.name !in usedTasks && t.duration <= unusedTime && SuggestionFocus(t, focus);
    KeepIsSubsequence(tasks, p);
    Keep(tasks, p)
  }

  /** A task is suggested exactly when it is unused, fits, and (if the focus
      tag is not blank) has a tag equal to the stripped focus tag up to case. */
  lemma SuggestionMembership(tasks: seq<Task>, usedTasks: seq<string>, unusedTime: int, focusTag: string, t: Task)
    ensures t in GetSmartSuggestions(tasks, usedTasks, unusedTime, focusTag)
            <==> t in tasks && t.name !in usedTasks && t.duration <= unusedTime
                 && (Strip(focusTag) != "" ==>
                       exists i :: 0 <= i < |t.tags| && Lower(t.tags[i]) == Lower(Strip(focusTag)))
  {
    var f := Strip(focusTag);
    LowerAllMember(t.tags, f);
    LowerIdempotent(f);
    assert Lower(f) == Lower(Lower(f));
  }

  /** A blank or all-whitespace focus tag imposes no tag constraint. */
  lemma BlankFocusIgnored(tasks: seq<Task>, usedTasks: seq<string>, unusedTime: int, focusTag: string)
    requires AllSpace(focusTag)
    ensures GetSmartSuggestions(tasks, usedTasks, unusedTime, focusTag)
            == GetSmartSuggestions(tasks, usedTasks, unusedTime, "")
  {
    assert Strip(focusTag) == [];
    assert AllSpace("");
    assert Lower(Strip("")) == "";
    KeepCongruent(tasks,
                  (t: Task) => t.name !in usedTasks && t.duration <= unusedTime && SuggestionFocus(t, Lower(Strip(focusTag))),
                  (t: Task) => t.name !in usedTasks && t.duration <= unusedTime && SuggestionFocus(t, Lower(Strip(""))));
  }

  lemma GetSmartSuggestionsIdempotent(tasks: seq<Task>, usedTasks: seq<string>, unusedTime: int, focusTag: string)
    ensures GetSmartSuggestions(GetSmartSuggestions(tasks, usedTasks, unusedTime, focusTag), usedTasks, unusedTime, focusTag)
            == GetSmartSuggestions(tasks, usedTasks, unusedTime, focusTag)
  {
    var focus := Lower(Strip(focusTag));
    KeepIdempotent(tasks, (t: Task) => t.name !in usedTasks && t.duration <= unusedTime && SuggestionFocus(t, focus));
  }

  /** filter_schedule_by_type_and_tags: the records whose type is one of the
      selected types and, unless no tag is selected, that carry a selected tag. */
  function FilterScheduleByTypeAndTags<T(==,!new)>(schedule: seq<T>, typeOf: T -> string, tagsOf: T -> seq<string>,
                                           selectedTypes: seq<string>, selectedTags: seq<string>): (r: seq<T>)
    ensures forall x :: x in r <==>
      x in schedule && typeOf(x) in selectedTypes && (selectedTags == [] || AnyIn(tagsOf(x), selectedTags))
    ensures forall x :: multiset(r)[x] ==
                        if typeOf(x) in selectedTypes && (selectedTags == [] || AnyIn(tagsOf(x), selectedTags))
                        then multiset(schedule)[x] else 0
    ensures IsSubsequence(r, schedule)
  {
    var p := x => typeOf(x) in selectedTypes && (selectedTags == [] || AnyIn(tagsOf(x), selectedTags));
    KeepIsSubsequence(schedule, p);
    Keep(schedule, p)
  }

  /** With no tag selected the combined filter is the type filter alone; with
      some tag selected it is the type filter followed by filter_by_tags. */
  lemma TypeAndTagsDecomposes<T(!new)>(schedule: seq<T>, typeOf: T -> string, tagsOf: T -> seq<string>,
                                 selectedTypes: seq<string>, selectedTags: seq<string>)
    ensures selectedTags == [] ==>
      FilterScheduleByTypeAndTags(schedule, typeOf, tagsOf, selectedTypes, selectedTags)
      == Keep(schedule, x => typeOf(x) in selectedTypes)
    ensures selectedTags != [] ==>
      FilterScheduleByTypeAndTags(schedule, typeOf, tagsOf, selectedTypes, selectedTags)
      == FilterByTags(Keep(schedule, x => typeOf(x) in selectedTypes), tagsOf, selectedTags)
  {
    var byType := x => typeOf(x) in selectedTypes;
    var byTags := x => AnyIn(tagsOf(x), selectedTags);
    var both := x => typeOf(x) in selectedTypes && (selectedTags == [] || AnyIn(tagsOf(x), selectedTags));
    if selectedTags == [] {
      KeepCongruent(schedule, both, byType);
    } else {
      KeepKeep(schedule, byType, byTags);
      KeepCongruent(schedule, both, x => byType(x) && byTags(x));
    }
  }

  lemma FilterScheduleByTypeAndTagsIdempotent<T(!new)>(schedule: seq<T>, typeOf: T -> string, tagsOf: T -> seq<string>,
                                                 selectedTypes: seq<string>, selectedTags: seq<string>)
    ensures FilterScheduleByTypeAndTags(FilterScheduleByTypeAndTags(schedule, typeOf, tagsOf, selectedTypes, selectedTags),
                                        typeOf, tagsOf, selectedTypes, selectedTags)
            == FilterScheduleByTypeAndTags(schedule, typeOf, tagsOf, selectedTypes, selectedTags)
  {
    KeepIdempotent(schedule, x => typeOf(x) in selectedTypes && (selectedTags == [] || AnyIn(tagsOf(x), selectedTags)));
  }
}

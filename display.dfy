/** The plain-text rendering of a schedule (utils/display_utils.py,
    format_schedule_text). */
module Display {
  import opened Text
  import opened Scoring
  import opened Scheduler

  /** The first line, whose own newline leaves a blank line under it. */
  const Header: string := "Your optimized schedule:\n"

  /** The "H:00" form in which the scheduler writes an entry's hours. */
  function HourStr(h: int): (r: string)
    ensures |r| >= 4 && r[|r| - 3..] == ":00"
    ensures forall i :: 0 <= i < |r| - 3 ==> r[i] != ':'
  {
    IntToString(h) + ":00"
  }

  /** What precedes the first ':' (the `split(":")[0]` with which the hour is
      read back). */
  function UntilColon(s: string): (r: string)
    ensures |r| <= |s| && r == s[..|r|]
    ensures forall i :: 0 <= i < |r| ==> r[i] != ':'
    ensures |r| < |s| ==> s[|r|] == ':'
  {
    if s == [] || s[0] == ':' then [] else [s[0]] + UntilColon(s[1..])
  }

  lemma {:induction false} UntilColonOfPrefix(x: string, y: string)
    requires forall i :: 0 <= i < |x| ==> x[i] != ':'
    ensures UntilColon(x + ":" + y) == x
  {
    if x != [] {
      assert (x + ":" + y)[1..] == x[1..] + ":" + y;
      UntilColonOfPrefix(x[1..], y);
    }
  }

  /** Reading an hour back from its rendering gives the hour. */
  lemma HourRoundTrip(h: nat)
    ensures var d := UntilColon(HourStr(h));
            (forall i :: 0 <= i < |d| ==> IsDigit(d[i])) && ParseNat(d) == h
  {
    UntilColonOfPrefix(NatToString(h), "00");
    assert HourStr(h) == NatToString(h) + ":" + "00";
    ParseNatToString(h);
  }

  /** So the length of an entry, recovered from its two rendered hours, is the
      number of hours it spans. */
  lemma EntryHoursRoundTrip(e: Entry)
    requires 0 <= e.start
    requires e.start <= e.end
    ensures var ds := UntilColon(HourStr(e.start));
            var de := UntilColon(HourStr(e.end));
            (forall i :: 0 <= i < |ds| ==> IsDigit(ds[i]))
            && (forall i :: 0 <= i < |de| ==> IsDigit(de[i]))
            && ParseNat(de) - ParseNat(ds) == e.end - e.start
  {
    HourRoundTrip(e.start);
    HourRoundTrip(e.end);
  }

  /** One entry: "<start> - <end>: <task> (<energy>)". */
  function EntryLine(e: Entry): (r: string)
    ensures |r| > 0 && r[|r| - 1] == ')'
  {
    HourStr(e.start) + " - " + HourStr(e.end) + ": " + e.task + " (" + EnergyName(e.energy) + ")"
  }

  /** str.join: the parts with sep between each two neighbours. */
  function Join(parts: seq<string>, sep: string): (r: string)
    ensures parts == [] ==> r == []
    ensures |parts| == 1 ==> r == parts[0]
    decreases |parts|
  {
    if parts == [] then []
    else if |parts| == 1 then parts[0]
    else parts[0] + sep + Join(parts[1..], sep)
  }

  /** [f(x) for x in s]. */
  function Map<A, B>(s: seq<A>, f: A -> B): (r: seq<B>)
    ensures |r| == |s|
    ensures forall i :: 0 <= i < |s| ==> r[i] == f(s[i])
  {
    if s == [] then [] else [f(s[0])] + Map(s[1..], f)
  }

  lemma MapAppend<A, B>(s: seq<A>, a: A, f: A -> B)
    ensures Map(s + [a], f) == Map(s, f) + [f(a)]
  {
    var l := Map(s + [a], f);
    var m := Map(s, f) + [f(a)];
    forall i | 0 <= i < |l| ensures l[i] == m[i] {
      assert (s + [a])[i] == if i < |s| then s[i] else a;
    }
  }

  /** Each line preceded by a newline. */
  function OnNewLines(lines: seq<string>): string
  {
    if lines == [] then [] else "\n" + lines[0] + OnNewLines(lines[1..])
  }

  /** What follows the header: a newline and a line for each entry, in order. */
  function Body(s: seq<Entry>): string
  {
    OnNewLines(Map(s, EntryLine))
  }

  /** Joining a line and further lines with newlines puts each further line
      on a new line after it. */
  lemma {:induction false} JoinLines(first: string, rest: seq<string>)
    ensures Join([first] + rest, "\n") == first + OnNewLines(rest)
    decreases |rest|
  {
    if rest != [] {
      assert ([first] + rest)[1..] == [rest[0]] + rest[1..];
      JoinLines(rest[0], rest[1..]);
    }
  }

  /** A line added at the end lands at the end of the text. */
  lemma {:induction false} OnNewLinesAppend(lines: seq<string>, l: string)
    ensures OnNewLines(lines + [l]) == OnNewLines(lines) + "\n" + l
  {
    if lines != [] {
      assert (lines + [l])[1..] == lines[1..] + [l];
      OnNewLinesAppend(lines[1..], l);
    }
  }

  /** Appending an entry to the schedule appends its line to the body. */
  lemma BodyAppend(s: seq<Entry>, e: Entry)
    ensures Body(s + [e]) == Body(s) + "\n" + EntryLine(e)
  {
    MapAppend(s, e, EntryLine);
    OnNewLinesAppend(Map(s, EntryLine), EntryLine(e));
  }

  /** The body ends with the last entry's line, and so with no newline. */
  lemma BodyEndsWithLastLine(s: seq<Entry>)
    requires s != []
    ensures var b := Body(s);
            var l := EntryLine(s[|s| - 1]);
            |b| > |l| && b[|b| - |l|..] == l && b[|b| - |l| - 1] == '\n' && b[|b| - 1] == ')'
  {
    var init := s[..|s| - 1];
    assert s == init + [s[|s| - 1]];
    BodyAppend(init, s[|s| - 1]);
  }

  /** format_schedule_text: the header line, then one line per entry. */
  method FormatScheduleText(schedule: seq<Entry>) returns (text: string)
    ensures text == Header + Body(schedule)
    ensures schedule == [] ==> text == Header
    ensures text[..|Header|] == Header
  {
    var lines := [Header];
    for i := 0 to |schedule|
      invariant lines == [Header] + Map(schedule[..i], EntryLine)
    {
      LinesGrow(Header, schedule, i, EntryLine);
      lines := lines + [EntryLine(schedule[i])];
    }
    assert schedule[..|schedule|] == schedule;
    text := Join(lines, "\n");
    JoinLines(Header, Map(schedule, EntryLine));
  }

  lemma LinesGrow<A>(first: string, s: seq<A>, i: nat, f: A -> string)
    requires i < |s|
    ensures [first] + Map(s[..i], f) + [f(s[i])] == [first] + Map(s[..i + 1], f)
  {
    assert s[..i + 1] == s[..i] + [s[i]];
    MapAppend(s[..i], s[i], f);
  }
}

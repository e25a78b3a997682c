/** Character and string helpers shared by the scheduler, the filters and the
    text renderer: ASCII case folding, whitespace stripping in the manner of
    Python's str.strip(), and decimal rendering of integers. */
module Text {

  /** Lower-cases one ASCII letter; every other character is left alone. */
  function LowerChar(c: char): char
  {
    if 'A' <= c <= 'Z' then (c as int + 32) as char else c
  }

  /** Lower-cases a string character by character (str.lower() on ASCII). */
  function Lower(s: string): (r: string)
    ensures |r| == |s|
    ensures forall i :: 0 <= i < |s| ==> r[i] == LowerChar(s[i])
  {
    if s == [] then [] else [LowerChar(s[0])] + Lower(s[1..])
  }

  lemma LowerIdempotent(s: string)
    ensures Lower(Lower(s)) == Lower(s)
  {
    var l := Lower(s);
    assert forall i :: 0 <= i < |l| ==> Lower(l)[i] == l[i];
  }

  /** Lower-cases every string of a list, keeping the order
      (the comprehension `[tag.lower() for tag in tags]`). */
  function LowerAll(ss: seq<string>): (r: seq<string>)
    ensures |r| == |ss|
    ensures forall i :: 0 <= i < |ss| ==> r[i] == Lower(ss[i])
  {
    if ss == [] then [] else [Lower(ss[0])] + LowerAll(ss[1..])
  }

  /** Membership in the lower-cased list is case-insensitive membership. */
  lemma LowerAllMember(ss: seq<string>, x: string)
    ensures Lower(x) in LowerAll(ss) <==> exists i :: 0 <= i < |ss| && Lower(ss[i]) == Lower(x)
  {
    var r := LowerAll(ss);
    if Lower(x) in r {
      var i :| 0 <= i < |r| && r[i] == Lower(x);
      assert Lower(ss[i]) == Lower(x);
    }
  }

  /** The characters Python's str.isspace() accepts. */
  predicate IsSpace(c: char)
  {
    var n := c as int;
    (9 <= n <= 13) || (28 <= n <= 32) || n == 0x85 || n == 0xA0 || n == 0x1680
    || (0x2000 <= n <= 0x200A) || n == 0x2028 || n == 0x2029 || n == 0x202F
    || n == 0x205F || n == 0x3000
  }

  predicate AllSpace(s: string)
  {
    forall k :: 0 <= k < |s| ==> IsSpace(s[k])
  }

  /** The number of whitespace characters that open s. */
  function LeadingSpace(s: string): (n: nat)
    ensures n <= |s|
    ensures AllSpace(s[..n])
    ensures n < |s| ==> !IsSpace(s[n])
  {
    if s != [] && IsSpace(s[0]) then
      var m := LeadingSpace(s[1..]);
      assert s[..m + 1] == [s[0]] + s[1..][..m];
      m + 1
    else 0
  }

  /** The number of whitespace characters that close s. */
  function TrailingSpace(s: string): (n: nat)
    ensures n <= |s|
    ensures AllSpace(s[|s| - n..])
    ensures n < |s| ==> !IsSpace(s[|s| - n - 1])
  {
    if s != [] && IsSpace(s[|s| - 1]) then
      var init := s[..|s| - 1];
      var m := TrailingSpace(init);
      forall k | |s| - (m + 1) <= k < |s| ensures IsSpace(s[k]) {
        if k < |s| - 1 {
          assert s[k] == init[|init| - m..][k - (|s| - (m + 1))];
        }
      }
      m + 1
    else 0
  }

  /** str.strip(): what remains of s once the whitespace at both ends is cut. */
  function Strip(s: string): (r: string)
    ensures exists i :: 0 <= i <= |s| - |r| && r == s[i..i + |r|]
                        && AllSpace(s[..i]) && AllSpace(s[i + |r|..])
    ensures r != [] ==> !IsSpace(r[0]) && !IsSpace(r[|r| - 1])
    ensures r == [] <==> AllSpace(s)
  {
    var i := LeadingSpace(s);
    var j := TrailingSpace(s[i..]);
    assert s[i..][|s[i..]| - j..] == s[|s| - j..];
    assert j < |s[i..]| ==> s[i..][|s[i..]| - j - 1] == s[|s| - j - 1];
    StripCut(s, i, j);
    s[i..|s| - j]
  }

  /** Cutting a maximal run of whitespace from each end of s. */
  lemma StripCut(s: string, i: nat, j: nat)
    requires i + j <= |s|
    requires AllSpace(s[..i]) && AllSpace(s[|s| - j..])
    requires i < |s| ==> !IsSpace(s[i])
    requires i + j < |s| ==> !IsSpace(s[|s| - j - 1])
    ensures var r := s[i..|s| - j];
            (r == s[i..i + |r|] && AllSpace(s[..i]) && AllSpace(s[i + |r|..]))
            && (r != [] ==> !IsSpace(r[0]) && !IsSpace(r[|r| - 1]))
            && (r == [] <==> AllSpace(s))
  {
    if i < |s| {
      assert !AllSpace(s) by { assert !IsSpace(s[i]); }
    } else {
      assert s[..i] == s;
    }
  }

  /** The character of a decimal digit. */
  function DigitChar(d: int): char
    requires 0 <= d < 10
  {
    ('0' as int + d) as char
  }

  predicate IsDigit(c: char)
  {
    '0' <= c <= '9'
  }

  function DigitValue(c: char): int
    requires IsDigit(c)
  {
    c as int - '0' as int
  }

  /** Decimal rendering of a natural number, as Python's str() writes it. */
  function NatToString(n: nat): (r: string)
    ensures |r| >= 1
    ensures forall i :: 0 <= i < |r| ==> IsDigit(r[i])
    ensures |r| > 1 ==> r[0] != '0'
  {
    if n < 10 then [DigitChar(n)] else NatToString(n / 10) + [DigitChar(n % 10)]
  }

  /** Decimal rendering of an integer, with a leading '-' when negative. */
  function IntToString(n: int): (r: string)
    ensures |r| >= 1
    ensures n >= 0 <==> IsDigit(r[0])
  {
    if n < 0 then "-" + NatToString(-n) else NatToString(n)
  }

  /** Reads a string of decimal digits back as a number (Python's int()). */
  function ParseNat(s: string): nat
    requires forall i :: 0 <= i < |s| ==> IsDigit(s[i])
  {
    if s == [] then 0 else 10 * ParseNat(s[..|s| - 1]) + DigitValue(s[|s| - 1])
  }

  lemma {:induction false} ParseNatToString(n: nat)
    ensures ParseNat(NatToString(n)) == n
  {
    if n >= 10 {
      var r := NatToString(n);
      assert r[..|r| - 1] == NatToString(n / 10);
      ParseNatToString(n / 10);
    }
  }
}

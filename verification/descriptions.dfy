/** `#workoutDescription` (script.js:158-160): the title shown in the list
    entry and the marker popup, "<Type> on <Month> <day>". */
module Descriptions {
  import opened Digits
  import opened Workouts

  /** The fixed month-name table of script.js:2, indexed by `getMonth()`. */
  const Months: seq<string> := ["January", "February", "March", "April", "May", "June",
                                "July", "August", "September", "October", "November", "December"]

  /** `toUpperCase` on the characters a type name can hold. */
  function UpperChar(c: char): (u: char)
    ensures 'a' <= c <= 'z' ==> u as int == c as int - 32
    ensures !('a' <= c <= 'z') ==> u == c
  {
    if 'a' <= c <= 'z' then (c as int - 32) as char else c
  }

  /** `s[0].toUpperCase() + s.slice(1)`. */
  function Capitalize(s: string): (r: string)
    requires |s| > 0
    ensures |r| == |s| && r[1..] == s[1..] && r[0] == UpperChar(s[0])
  {
    [UpperChar(s[0])] + s[1..]
  }

  /** "<Type> on " */
  function Heading(d: Detail): (h: string)
    ensures |h| == 11
  {
    Capitalize(TypeName(d)) + " on "
  }

  /** "<Month> <day>" */
  function DateText(date: Date): string
  {
    Months[date.month] + " " + Decimal(date.day)
  }

  function Describe(w: Workout): (text: string)
    ensures |text| > 11
    ensures text[0] == (if w.detail.Running? then 'R' else 'C')
    ensures text[1..7] == TypeName(w.detail)[1..]
    ensures text[7..11] == " on "
    ensures text[11..] == Months[w.date.month] + " " + Decimal(w.date.day)
  {
    Heading(w.detail) + DateText(w.date)
  }

  /** A running workout dated January 1st reads "Running on January 1". */
  lemma DescribeExample(w: Workout)
    requires w.detail.Running? && w.date.month == 0 && w.date.day == 1
    ensures Describe(w) == "Running on January 1"
  {
    assert Decimal(1) == "1";
  }

  predicate NoSpace(s: string) {
    forall i :: 0 <= i < |s| ==> s[i] != ' '
  }

  /** Equal strings with prefixes of equal length agree on prefix and rest. */
  lemma SplitAtLength(p: string, x: string, q: string, y: string)
    requires |p| == |q| && p + x == q + y
    ensures p == q && x == y
  {
    assert p == (p + x)[..|p|];
    assert q == (q + y)[..|q|];
    assert x == (p + x)[|p|..];
    assert y == (q + y)[|q|..];
  }

  /** In `a + " " + x` with no space in `a`, the first space is at `|a|`. */
  lemma FirstSpace(a: string, x: string)
    requires NoSpace(a)
    ensures |a + " " + x| > |a| && (a + " " + x)[|a|] == ' '
    ensures forall i :: 0 <= i < |a| ==> (a + " " + x)[i] != ' '
  {
  }

  /** Two strings joined at their first space split back apart uniquely. */
  lemma SplitAtSpace(a: string, x: string, b: string, y: string)
    requires NoSpace(a) && NoSpace(b)
    requires a + " " + x == b + " " + y
    ensures a == b && x == y
  {
    FirstSpace(a, x);
    FirstSpace(b, y);
    if |a| < |b| {
      assert false;
    } else if |b| < |a| {
      assert false;
    }
    SplitAtLength(a + " ", x, b + " ", y);
    assert a == (a + " ")[..|a|];
    assert b == (b + " ")[..|b|];
  }

  lemma MonthsHaveNoSpace(m: MonthIndex)
    ensures NoSpace(Months[m])
  {
  }

  lemma MonthsDistinct(m: MonthIndex, n: MonthIndex)
    requires Months[m] == Months[n]
    ensures m == n
  {
  }

  /** The description determines the workout's type, month and day: two
      workouts with the same title share all three. */
  lemma DescribeDetermines(v: Workout, w: Workout)
    requires Describe(v) == Describe(w)
    ensures v.detail.Running? == w.detail.Running?
    ensures v.date.month == w.date.month && v.date.day == w.date.day
  {
    SplitAtLength(Heading(v.detail), DateText(v.date), Heading(w.detail), DateText(w.date));
    assert Heading(v.detail)[0] == Heading(w.detail)[0];
    MonthsHaveNoSpace(v.date.month);
    MonthsHaveNoSpace(w.date.month);
    SplitAtSpace(Months[v.date.month], Decimal(v.date.day), Months[w.date.month], Decimal(w.date.day));
    MonthsDistinct(v.date.month, w.date.month);
    DecimalInjective(v.date.day, w.date.day);
  }
}

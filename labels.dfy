/** The "Day" column of the planner: Python's `str` on a non-negative
    integer, the label "Day <n>" built from it, and the list of day labels
    the planner iterates over (Contentplanner.py:36). */
module Labels {
  import opened Wrappers

  const DayPrefix: string := "Day "

  predicate IsDigit(c: char) {
    '0' <= c <= '9'
  }

  predicate AllDigits(s: string) {
    forall i :: 0 <= i < |s| ==> IsDigit(s[i])
  }

  function DigitValue(c: char): (d: nat)
    requires IsDigit(c)
    ensures d < 10
  {
    c as int - '0' as int
  }

  function DigitChar(d: nat): (c: char)
    requires d < 10
    ensures IsDigit(c) && DigitValue(c) == d
  {
    (('0' as int) + d) as char
  }

  /** Python's `str(n)` for `n >= 0`: decimal digits, most significant first,
      without leading zeros. */
  function NatToString(n: nat): (s: string)
    ensures |s| >= 1 && AllDigits(s)
    ensures (s[0] == '0') == (n == 0)
    ensures (|s| == 1) == (n < 10)
    decreases n
  {
    if n < 10 then [DigitChar(n)] else NatToString(n / 10) + [DigitChar(n % 10)]
  }

  /** The number a string of decimal digits denotes (leading zeros allowed). */
  function DigitsValue(s: string): nat
    requires AllDigits(s)
    decreases |s|
  {
    if s == [] then 0 else DigitsValue(s[..|s| - 1]) * 10 + DigitValue(s[|s| - 1])
  }

  /** Reading back the decimal rendering gives the number again. */
  lemma {:induction false} NatToStringRoundTrip(n: nat)
    ensures DigitsValue(NatToString(n)) == n
    decreases n
  {
    var s := NatToString(n);
    if n < 10 {
      assert s[..0] == [];
    } else {
      NatToStringRoundTrip(n / 10);
      assert s[..|s| - 1] == NatToString(n / 10);
    }
  }

  /** Distinct numbers have distinct decimal renderings. */
  lemma NatToStringInjective(m: nat, n: nat)
    ensures (NatToString(m) == NatToString(n)) == (m == n)
  {
    NatToStringRoundTrip(m);
    NatToStringRoundTrip(n);
  }

  /** The label `f"Day {n}"`. */
  function DayLabel(n: nat): string {
    DayPrefix + NatToString(n)
  }

  /** Inverse of DayLabel: the day number a label names, if it is one. */
  function ParseDayLabel(s: string): (r: Option<nat>)
    ensures r.Some? ==> |s| > |DayPrefix| && s[..|DayPrefix|] == DayPrefix
  {
    if |s| > |DayPrefix| && s[..|DayPrefix|] == DayPrefix && AllDigits(s[|DayPrefix|..])
    then Some(DigitsValue(s[|DayPrefix|..]))
    else None
  }

  lemma DayLabelRoundTrip(n: nat)
    ensures ParseDayLabel(DayLabel(n)) == Some(n)
  {
    var s := DayLabel(n);
    assert s[..|DayPrefix|] == DayPrefix;
    assert s[|DayPrefix|..] == NatToString(n);
    NatToStringRoundTrip(n);
  }

  /** Two days get the same label exactly when they are the same day. */
  lemma DayLabelInjective(m: nat, n: nat)
    ensures (DayLabel(m) == DayLabel(n)) == (m == n)
  {
    DayLabelRoundTrip(m);
    DayLabelRoundTrip(n);
  }

  /** `days_list = [f"Day {i+1}" for i in range(num_days)]`. */
  function DaysList(numDays: nat): (days: seq<string>)
    ensures |days| == numDays
  {
    seq(numDays, i requires 0 <= i < numDays => DayLabel(i + 1))
  }

  /** Entry `i` of the day list names day `i + 1`, and no two entries are
      equal, so every day of the plan is labelled apart from the others. */
  lemma DaysListLabels(numDays: nat, i: nat, j: nat)
    requires i < numDays && j < numDays
    ensures ParseDayLabel(DaysList(numDays)[i]) == Some(i + 1)
    ensures (DaysList(numDays)[i] == DaysList(numDays)[j]) == (i == j)
  {
    DayLabelRoundTrip(i + 1);
    DayLabelInjective(i + 1, j + 1);
  }
}

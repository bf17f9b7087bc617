/**
 * Calendar dates and the three date-fns patterns the application prints:
 * "dd-MM-yyyy", "yyyy-MM-dd" and "dd MMMM yyyy" in the French locale.
 * A date is a given (year, month, day) triple; parsing and time zones are
 * not modelled.
 */
module Dates {
  import opened Text

  type Month = m: nat | 1 <= m <= 12 witness 1
  type Day = d: nat | 1 <= d <= 31 witness 1

  /** Years of the common era. date-fns prints the year of era for "yyyy",
      so years before 1 would not print as their plain number. */
  type Year = y: nat | 1 <= y witness 1

  datatype CalendarDate = CalendarDate(year: Year, month: Month, day: Day)

  /** Two-digit zero-padded field ("dd", "MM"). */
  function Pad2(n: nat): string
  {
    PadZeros(NatToString(n), 2)
  }

  /** Zero-padded year, at least four digits ("yyyy"). */
  function Pad4(n: nat): string
  {
    PadZeros(NatToString(n), 4)
  }

  /** The patterns "dd-MM-yyyy" and "dd/MM/yyyy", by separator. */
  function FormatDayMonthYear(d: CalendarDate, sep: char): string
  {
    Pad2(d.day) + [sep] + Pad2(d.month) + [sep] + Pad4(d.year)
  }

  /** The pattern "yyyy-MM-dd". */
  function FormatIso(d: CalendarDate): string
  {
    Pad4(d.year) + "-" + Pad2(d.month) + "-" + Pad2(d.day)
  }

  /** Month names of the French locale of date-fns ("MMMM"). */
  const FRENCH_MONTHS: seq<string> :=
    ["janvier", "février", "mars", "avril", "mai", "juin",
     "juillet", "août", "septembre", "octobre", "novembre", "décembre"]

  /** The pattern "dd MMMM yyyy" in the French locale. */
  function FormatLong(d: CalendarDate): string
  {
    Pad2(d.day) + " " + FRENCH_MONTHS[d.month - 1] + " " + Pad4(d.year)
  }

  lemma Pad2Facts(n: nat)
    requires n < 100
    ensures |Pad2(n)| == 2 && AllDigits(Pad2(n)) && ParseDigits(Pad2(n)) == n
  {
    NatToStringLength(n, 2);
    ParsePadded(n, 2);
  }

  lemma Pad4Facts(n: nat)
    requires n < 10000
    ensures |Pad4(n)| == 4 && AllDigits(Pad4(n)) && ParseDigits(Pad4(n)) == n
  {
    NatToStringLength(n, 4);
    ParsePadded(n, 4);
  }

  /** Four-digit years: "dd-MM-yyyy" is ten characters with the separator
      at 2 and 5, and each field reads back as the date's own field. */
  lemma FormatDayMonthYearFields(d: CalendarDate, sep: char)
    requires d.year < 10000
    ensures var s := FormatDayMonthYear(d, sep);
      |s| == 10 && s[2] == sep && s[5] == sep &&
      AllDigits(s[..2]) && AllDigits(s[3..5]) && AllDigits(s[6..]) &&
      ParseDigits(s[..2]) == d.day && ParseDigits(s[3..5]) == d.month &&
      ParseDigits(s[6..]) == d.year
  {
    Pad2Facts(d.day);
    Pad2Facts(d.month);
    Pad4Facts(d.year);
    var s := FormatDayMonthYear(d, sep);
    assert s[..2] == Pad2(d.day);
    assert s[3..5] == Pad2(d.month);
    assert s[6..] == Pad4(d.year);
  }

  /** Four-digit years: "yyyy-MM-dd" is ten characters with dashes at 4 and 7,
      and each field reads back as the date's own field. */
  lemma FormatIsoFields(d: CalendarDate)
    requires d.year < 10000
    ensures var s := FormatIso(d);
      |s| == 10 && s[4] == '-' && s[7] == '-' &&
      AllDigits(s[..4]) && AllDigits(s[5..7]) && AllDigits(s[8..]) &&
      ParseDigits(s[..4]) == d.year && ParseDigits(s[5..7]) == d.month &&
      ParseDigits(s[8..]) == d.day
  {
    Pad2Facts(d.day);
    Pad2Facts(d.month);
    Pad4Facts(d.year);
    var s := FormatIso(d);
    assert s[..4] == Pad4(d.year);
    assert s[5..7] == Pad2(d.month);
    assert s[8..] == Pad2(d.day);
  }

  /** Distinct dates (of four-digit years) print differently as "dd-MM-yyyy". */
  lemma FormatDayMonthYearInjective(d1: CalendarDate, d2: CalendarDate, sep: char)
    requires d1.year < 10000 && d2.year < 10000
    ensures FormatDayMonthYear(d1, sep) == FormatDayMonthYear(d2, sep) <==> d1 == d2
  {
    FormatDayMonthYearFields(d1, sep);
    FormatDayMonthYearFields(d2, sep);
  }

  /** Distinct dates (of four-digit years) print differently as "yyyy-MM-dd". */
  lemma FormatIsoInjective(d1: CalendarDate, d2: CalendarDate)
    requires d1.year < 10000 && d2.year < 10000
    ensures FormatIso(d1) == FormatIso(d2) <==> d1 == d2
  {
    FormatIsoFields(d1);
    FormatIsoFields(d2);
  }

  /** Four-digit years: "dd MMMM yyyy" is the two-digit day, a space, the
      French name of the month, a space and the four-digit year, and the day
      and the year read back. */
  lemma FormatLongFields(d: CalendarDate)
    requires d.year < 10000
    ensures var s := FormatLong(d);
      |s| == |FRENCH_MONTHS[d.month - 1]| + 8 && s[2] == ' ' && s[|s| - 5] == ' ' &&
      AllDigits(s[..2]) && AllDigits(s[|s| - 4..]) &&
      ParseDigits(s[..2]) == d.day &&
      s[3..|s| - 5] == FRENCH_MONTHS[d.month - 1] &&
      ParseDigits(s[|s| - 4..]) == d.year
  {
    Pad2Facts(d.day);
    Pad4Facts(d.year);
    var s := FormatLong(d);
    var m := FRENCH_MONTHS[d.month - 1];
    assert s == Pad2(d.day) + " " + m + " " + Pad4(d.year);
    assert s[..2] == Pad2(d.day);
    assert s[3..|s| - 5] == m;
    assert s[|s| - 4..] == Pad4(d.year);
  }

  /** Distinct dates (of four-digit years) print differently as "dd MMMM yyyy". */
  lemma FormatLongInjective(d1: CalendarDate, d2: CalendarDate)
    requires d1.year < 10000 && d2.year < 10000
    ensures FormatLong(d1) == FormatLong(d2) <==> d1 == d2
  {
    FormatLongFields(d1);
    FormatLongFields(d2);
    if FormatLong(d1) == FormatLong(d2) {
      MonthNamesDistinct(d1.month, d2.month);
    }
  }

  /** The twelve month names are pairwise distinct. */
  lemma MonthNamesDistinct(m1: Month, m2: Month)
    ensures FRENCH_MONTHS[m1 - 1] == FRENCH_MONTHS[m2 - 1] <==> m1 == m2
  {
  }
}

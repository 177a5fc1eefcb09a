/**
 * Season classification of a match date (getSeason in src/player/info.ts).
 *
 * A date is a calendar reading as JavaScript's Date getters give it: full
 * year, month counted from 0 (January) as `getMonth` does, day of month, and
 * the milliseconds elapsed within that day. The release epoch is 2024-09-03;
 * seasons are four calendar months wide, counted from the epoch's month.
 */
module Season {
  import opened Text

  datatype DateTime = DateTime(year: int, month: int, day: int, millisOfDay: int)

  const ReleaseYear: int := 2024
  const ReleaseMonth: int := 8   // September, 0-based
  const ReleaseDay: int := 3
  const MillisPerDay: int := 86400000

  /** A calendar reading that a real Date can produce. */
  predicate WellFormed(d: DateTime) {
    0 <= d.month < 12 && 1 <= d.day <= 31 && 0 <= d.millisOfDay < MillisPerDay
  }

  /**
   * A number whose order is the order of `Date.getTime()` on well-formed
   * readings (see InstantOrderIsCalendarOrder); used to sort matches.
   */
  function Instant(d: DateTime): int {
    ((d.year * 12 + d.month) * 31 + (d.day - 1)) * MillisPerDay + d.millisOfDay
  }

  /** Lexicographic calendar order: `a` falls strictly before `b`. */
  predicate Earlier(a: DateTime, b: DateTime) {
    a.year < b.year
    || (a.year == b.year && a.month < b.month)
    || (a.year == b.year && a.month == b.month && a.day < b.day)
    || (a.year == b.year && a.month == b.month && a.day == b.day && a.millisOfDay < b.millisOfDay)
  }

  /** `matchDate < new Date('2024-09-03')`: the release instant is midnight of that day. */
  predicate BeforeRelease(d: DateTime) {
    Earlier(d, DateTime(ReleaseYear, ReleaseMonth, ReleaseDay, 0))
  }

  datatype SeasonId = Beta | Numbered(year: int, number: int)

  /** Calendar months from the release month to the date's month. */
  function MonthsSinceRelease(d: DateTime): int {
    (d.year - ReleaseYear) * 12 + d.month - ReleaseMonth
  }

  /** `Math.floor(months / 4)`: the floor of the quotient, for either sign. */
  function SeasonNumber(d: DateTime): (n: int)
    ensures 4 * n <= MonthsSinceRelease(d) < 4 * n + 4
  {
    MonthsSinceRelease(d) / 4
  }

  /** The branches of getSeason, as a season identifier. */
  function Classify(d: DateTime): SeasonId {
    if BeforeRelease(d) then Beta
    else if d.year == 2024 && d.month == 8 && d.day >= 3 then Numbered(2024, 0)
    else Numbered(d.year, SeasonNumber(d))
  }

  /** The label a season identifier is printed as: "Beta" or "{year}-S{number}". */
  function Label(s: SeasonId): string {
    match s
    case Beta => "Beta"
    case Numbered(y, n) => IntToString(y) + "-S" + IntToString(n)
  }

  /** getSeason. */
  function GetSeason(d: DateTime): string {
    Label(Classify(d))
  }

  // ---------------------------------------------------------------- properties

  /** "Beta" exactly for dates before the release instant; otherwise the
      generic formula, which the launch-month guard agrees with. */
  lemma ClassifySpec(d: DateTime)
    ensures Classify(d) == Beta <==> BeforeRelease(d)
    ensures !BeforeRelease(d) ==> Classify(d) == Numbered(d.year, SeasonNumber(d))
  {
    if !BeforeRelease(d) && d.year == 2024 && d.month == 8 {
      assert MonthsSinceRelease(d) == 0;
    }
  }

  /** Well-formed dates on or after the release never get a negative season. */
  lemma SeasonNumberNonNegative(d: DateTime)
    requires WellFormed(d) && !BeforeRelease(d)
    ensures Classify(d).Numbered? && Classify(d).number >= 0
  {
    ClassifySpec(d);
    assert MonthsSinceRelease(d) >= 0;
  }

  /** Season numbers never decrease as time moves forward. */
  lemma SeasonNumberMonotone(a: DateTime, b: DateTime)
    requires WellFormed(a) && WellFormed(b)
    requires !BeforeRelease(a) && !Earlier(b, a)
    ensures !BeforeRelease(b)
    ensures Classify(a).number <= Classify(b).number
  {
    ClassifySpec(a);
    ClassifySpec(b);
    assert MonthsSinceRelease(a) <= MonthsSinceRelease(b);
  }

  /** How a label begins, and where the "-S" separator of a numbered label sits. */
  lemma LabelShape(s: SeasonId)
    ensures s.Beta? ==> Label(s)[0] == 'B'
    ensures s.Numbered? ==> Label(s)[0] == '-' || IsDigit(Label(s)[0])
    ensures s.Numbered? ==> |Label(s)| > |IntToString(s.year)| + 1
    ensures s.Numbered? ==> Label(s)[|IntToString(s.year)| + 1] == 'S'
    ensures s.Numbered? ==> forall k :: 0 <= k <= |IntToString(s.year)| ==> Label(s)[k] != 'S'
  {
    if s.Numbered? {
      var ys := IntToString(s.year);
      assert Label(s) == ys + "-S" + IntToString(s.number);
      assert Label(s)[0] == ys[0];
    }
  }

  /** Different seasons get different labels, so season buckets keyed by the
      label never merge two seasons. */
  lemma LabelInjective(s: SeasonId, t: SeasonId)
    requires Label(s) == Label(t)
    ensures s == t
  {
    LabelShape(s);
    LabelShape(t);
    if s.Numbered? && t.Numbered? {
      var ys, ns := IntToString(s.year), IntToString(s.number);
      var yt, nt := IntToString(t.year), IntToString(t.number);
      var l := Label(s);
      assert l == ys + "-S" + ns;
      assert l == yt + "-S" + nt;
      assert ys == l[..|ys|] == yt;
      assert ns == l[|ys| + 2..] == nt;
      IntToStringInjective(s.year, t.year);
      IntToStringInjective(s.number, t.number);
    }
  }

  /** On well-formed readings the sort key orders dates as the calendar does. */
  lemma InstantOrderIsCalendarOrder(a: DateTime, b: DateTime)
    requires WellFormed(a) && WellFormed(b)
    ensures Earlier(a, b) <==> Instant(a) < Instant(b)
  {
    var da := (a.year * 12 + a.month) * 31 + (a.day - 1);
    var db := (b.year * 12 + b.month) * 31 + (b.day - 1);
    assert Instant(a) == da * MillisPerDay + a.millisOfDay;
    assert Instant(b) == db * MillisPerDay + b.millisOfDay;
    if da < db {
      assert da * MillisPerDay + MillisPerDay <= db * MillisPerDay;
    } else if db < da {
      assert db * MillisPerDay + MillisPerDay <= da * MillisPerDay;
    }
    assert (da < db) <==> Earlier(DateTime(a.year, a.month, a.day, 0), DateTime(b.year, b.month, b.day, 0)) by {
      var ma := a.year * 12 + a.month;
      var mb := b.year * 12 + b.month;
      if ma < mb {
        assert ma * 31 + 31 <= mb * 31;
      } else if mb < ma {
        assert mb * 31 + 31 <= ma * 31;
      }
      assert (ma < mb) <==> (a.year < b.year || (a.year == b.year && a.month < b.month));
    }
  }

  /** Worked examples of the classification. */
  lemma SeasonExamples()
    ensures GetSeason(DateTime(2024, 8, 2, 0)) == "Beta"
    ensures GetSeason(DateTime(2024, 8, 3, 0)) == "2024-S0"
    ensures GetSeason(DateTime(2024, 11, 31, 0)) == "2024-S0"
    ensures GetSeason(DateTime(2025, 0, 1, 0)) == "2025-S1"
    ensures GetSeason(DateTime(2025, 1, 10, 0)) == "2025-S1"
    ensures GetSeason(DateTime(2025, 4, 1, 0)) == "2025-S2"
  {
    YearNames();
    assert IntToString(0) == "0";
    assert IntToString(1) == "1";
    assert IntToString(2) == "2";
  }

  lemma YearNames()
    ensures NatToString(2024) == "2024" && NatToString(2025) == "2025"
  {
    assert NatToString(2) == "2";
    assert NatToString(20) == "20";
    assert NatToString(202) == "202";
  }
}

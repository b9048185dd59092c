/**
 * The reports screen: the selected period, the sample figures looked up by it, the
 * "from last ..." label and the name of the exported PDF file.
 */
module Reports {
  import opened Wrappers
  import opened Text

  datatype Period = Daily | Weekly | Monthly

  /** The tab values, which are also the keys of `productivityData`. */
  function PeriodName(p: Period): string {
    match p
    case Daily => "daily"
    case Weekly => "weekly"
    case Monthly => "monthly"
  }

  /** The period a tab value or data key names, if any. */
  function ParsePeriod(s: string): (r: Option<Period>)
    ensures r.Some? ==> PeriodName(r.value) == s
  {
    if s == "daily" then Some(Daily)
    else if s == "weekly" then Some(Weekly)
    else if s == "monthly" then Some(Monthly)
    else None
  }

  /** The three names are told apart: parsing a period's name gives that period back. */
  lemma ParsePeriodName(p: Period)
    ensures ParsePeriod(PeriodName(p)) == Some(p)
  {
  }

  /** One record of `productivityData`; the times are the display strings the source stores. */
  datatype PeriodData = PeriodData(
    tasksCompleted: nat, focusTime: string, screenTime: string,
    productivity: int, breaks: nat, distractions: nat)

  /** A percentage the `Progress` bar can show. */
  predicate IsPercentage(n: int) {
    0 <= n <= 100
  }

  /** The sample record of a period; its productivity figure is a percentage. */
  function DataFor(p: Period): (d: PeriodData)
    ensures IsPercentage(d.productivity)
  {
    match p
    case Daily => PeriodData(12, "4h 32m", "6h 15m", 78, 6, 3)
    case Weekly => PeriodData(84, "28h 45m", "42h 30m", 82, 35, 18)
    case Monthly => PeriodData(340, "125h 20m", "185h 45m", 85, 156, 67)
  }

  /** `productivityData[key]`: defined exactly for the three period names. */
  function ProductivityData(key: string): (r: Option<PeriodData>)
    ensures r.Some? <==> ParsePeriod(key).Some?
    ensures r.Some? ==> r.value == DataFor(ParsePeriod(key).value)
  {
    match ParsePeriod(key)
    case Some(p) => Some(DataFor(p))
    case None => None
  }

  /** One day of `weeklyTrends`; the screen time is in tenths of an hour (6.2 h is 62). */
  datatype DayTrend = DayTrend(day: string, productivity: int, screenTimeTenths: nat, tasks: nat)

  const WeeklyTrends: seq<DayTrend> := [
    DayTrend("Mon", 85, 62, 14),
    DayTrend("Tue", 78, 71, 12),
    DayTrend("Wed", 92, 58, 16),
    DayTrend("Thu", 88, 65, 15),
    DayTrend("Fri", 75, 78, 11),
    DayTrend("Sat", 65, 42, 8),
    DayTrend("Sun", 70, 39, 8)
  ]

  /** Every productivity figure, of a period or of a day, is a percentage. */
  lemma SamplePercentages(p: Period, i: nat)
    requires i < |WeeklyTrends|
    ensures IsPercentage(DataFor(p).productivity)
    ensures IsPercentage(WeeklyTrends[i].productivity)
  {
  }

  /** `s.slice(0, -2)`: `s` without its last two characters, or empty when it is shorter than two. */
  function SliceDropLastTwo(s: string): (r: string)
    ensures r <= s
    ensures |r| == if |s| >= 2 then |s| - 2 else 0
  {
    if |s| >= 2 then s[..|s| - 2] else ""
  }

  /** The "from last ..." word as the screen writes it: the period name without its final "ly". */
  function FromLastAsWritten(p: Period): (w: string)
    ensures PeriodName(p) == w + "ly"
  {
    SliceDropLastTwo(PeriodName(p))
  }

  /** Cutting two characters turns "weekly" and "monthly" into words, but "daily" into "dai". */
  lemma FromLastAsWrittenValues()
    ensures FromLastAsWritten(Weekly) == "week"
    ensures FromLastAsWritten(Monthly) == "month"
    ensures FromLastAsWritten(Daily) == "dai"
  {
  }

  /**
   * The unit of a period, the word the label evidently means: the name is the unit with "ly",
   * except "day", whose "y" becomes "i".
   */
  function PeriodUnit(p: Period): (u: string)
    ensures p != Daily ==> PeriodName(p) == u + "ly"
    ensures p == Daily ==> |u| == 3 && PeriodName(p) == u[..2] + "ily"
  {
    match p
    case Daily => "day"
    case Weekly => "week"
    case Monthly => "month"
  }

  /** The unit agrees with the cut-off name exactly for the weekly and monthly periods. */
  lemma PeriodUnitVersusSlice(p: Period)
    ensures PeriodUnit(p) == FromLastAsWritten(p) <==> p != Daily
  {
    FromLastAsWrittenValues();
  }

  /** The name of the saved PDF: `productivity-report-${period}-${iso.split('T')[0]}.pdf`. */
  function ExportFilename(period: string, iso: string): (f: string)
    ensures |f| == 20 + |period| + 1 + |DatePart(iso)| + 4
    ensures f[..20] == "productivity-report-" && f[20..20 + |period|] == period
    ensures f[|f| - 4..] == ".pdf"
  {
    "productivity-report-" + period + "-" + DatePart(iso) + ".pdf"
  }

  /** For a timestamp `date + "T" + time` the file name carries the date and not the time. */
  lemma ExportFilenameOfTimestamp(period: string, date: string, time: string)
    requires 'T' !in date
    ensures ExportFilename(period, date + "T" + time) == "productivity-report-" + period + "-" + date + ".pdf"
  {
    DatePartOfTimestamp(date, time);
  }

  /** The state of the reports screen. */
  class ReportsScreen {
    var selectedPeriod: string

    /** The selected period is always one of the three tab values. */
    ghost predicate Valid()
      reads this
    {
      ParsePeriod(selectedPeriod).Some?
    }

    constructor ()
      ensures Valid() && selectedPeriod == "weekly"
    {
      selectedPeriod := "weekly";
    }

    /** A tab sets its value. */
    method SelectTab(p: Period)
      modifies this`selectedPeriod
      ensures Valid() && selectedPeriod == PeriodName(p)
    {
      selectedPeriod := PeriodName(p);
      ParsePeriodName(p);
    }

    /** `currentData`: the record of the selected period, which always exists. */
    function CurrentData(): (d: PeriodData)
      reads this
      requires Valid()
      ensures ProductivityData(selectedPeriod) == Some(d)
      ensures IsPercentage(d.productivity)
    {
      SamplePercentages(ParsePeriod(selectedPeriod).value, 0);
      DataFor(ParsePeriod(selectedPeriod).value)
    }

    /**
     * The word after "from last" on the cards, `selectedPeriod.slice(0, -2)`: the selected
     * name without its "ly", which is the period's unit for weekly and monthly but "dai" for daily.
     */
    function FromLast(): (w: string)
      reads this
      requires Valid()
      ensures w == FromLastAsWritten(ParsePeriod(selectedPeriod).value)
      ensures selectedPeriod == w + "ly"
      ensures selectedPeriod != "daily" ==> w == PeriodUnit(ParsePeriod(selectedPeriod).value)
      ensures selectedPeriod == "daily" ==> w == "dai"
    {
      PeriodUnitVersusSlice(ParsePeriod(selectedPeriod).value);
      FromLastAsWrittenValues();
      SliceDropLastTwo(selectedPeriod)
    }

    /** The word the label evidently means: the unit of the selected period, which differs from the shown word only on the daily tab. */
    function IntendedFromLast(): (w: string)
      reads this
      requires Valid()
      ensures w == PeriodUnit(ParsePeriod(selectedPeriod).value)
      ensures w == FromLast() <==> selectedPeriod != "daily"
    {
      PeriodUnitVersusSlice(ParsePeriod(selectedPeriod).value);
      PeriodUnit(ParsePeriod(selectedPeriod).value)
    }

    /** The name of the exported file, given the moment's ISO 8601 string. */
    function ExportName(iso: string): (f: string)
      reads this
      ensures |f| > 20 + |selectedPeriod| + 4
      ensures f[..20] == "productivity-report-" && f[20..20 + |selectedPeriod|] == selectedPeriod
      ensures f[|f| - 4..] == ".pdf"
      ensures Valid() ==> ParsePeriod(f[20..20 + |selectedPeriod|]).Some?
    {
      ExportFilename(selectedPeriod, iso)
    }
  }
}

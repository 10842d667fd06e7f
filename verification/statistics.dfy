/** The three views of `show_stats` (app/handlers/statistics.py): today's meals and
    totals, the seven days before today with their mean over days that have data, and four
    7-day buckets with their mean over buckets that have data. Day totals come from
    `get_daily_totals`; macros are integers, so `int(x / n)` is a division truncated toward
    zero. */
module Statistics {
  import opened Values
  import opened Tables
  import opened Text

  // ---------------------------------------------------------------------------------
  // safe_int and has_nonzero_values

  const MacroKeys: seq<string> := ["calories", "protein", "fat", "carbs"]

  /** A dictionary of numeric values, as `has_nonzero_values` receives it. */
  type NumDict = map<string, RawNum>

  /** `d.get(k, 0)`. */
  function Lookup(d: NumDict, k: string): RawNum {
    if k in d then d[k] else Number(0)
  }

  /** `has_nonzero_values(d, keys)`: some named key holds a number above 0; an absent key
      counts as 0, and a value `safe_int` rejects counts as its default 0. */
  function HasNonzeroValues(d: NumDict, keys: seq<string>): (r: bool)
    ensures r <==> exists i :: 0 <= i < |keys| && keys[i] in d && d[keys[i]].Number? && d[keys[i]].n > 0
    decreases |keys|
  {
    if |keys| == 0 then false
    else if SafeInt(Lookup(d, keys[0]), 0) > 0 then true
    else
      var rest := HasNonzeroValues(d, keys[1..]);
      assert (exists i :: 0 <= i < |keys| && keys[i] in d && d[keys[i]].Number? && d[keys[i]].n > 0) ==> rest by {
        if exists i :: 0 <= i < |keys| && keys[i] in d && d[keys[i]].Number? && d[keys[i]].n > 0 {
          var i :| 0 <= i < |keys| && keys[i] in d && d[keys[i]].Number? && d[keys[i]].n > 0;
          assert keys[1..][i - 1] == keys[i];
        }
      }
      rest
  }

  /** The totals dictionary of `get_daily_totals`. */
  function AsDict(t: Totals): NumDict {
    map["calories" := Number(t.calories), "protein" := Number(t.protein),
        "fat" := Number(t.fat), "carbs" := Number(t.carbs)]
  }

  /** A day (or a week) counts when one of its four totals is above 0. */
  predicate Nonzero(t: Totals) {
    t.calories > 0 || t.protein > 0 || t.fat > 0 || t.carbs > 0
  }

  /** A text cell as `safe_int` sees it: a number when `int(float(s))` succeeds on it, a
      value it rejects otherwise. */
  function RawOfText(s: string): RawNum {
    match TruncOfFloatText(s)
    case Some(n) => Number(n)
    case None => Other(s)
  }

  /** `safe_int` of an integer text, signs, white space and `_` included, is `int()` of it. */
  lemma SafeIntOfIntegerText(s: string, default: int)
    requires ParseInt(s).Some?
    ensures SafeInt(RawOfText(s), default) == ParseInt(s).value
  {
    TruncOfIntegerText(s);
  }

  /** `safe_int` of a decimal text such as `"-12.75"` drops the fraction toward zero. */
  lemma SafeIntOfDecimalText(n: int, frac: string, default: int)
    requires IsDigitString(frac)
    ensures SafeInt(RawOfText(IntToDecimal(n) + "." + frac), default) == n
  {
    TruncOfDecimalText(n, frac);
  }

  /** A text without a single digit is rejected and gives the default. */
  lemma SafeIntOfNoDigit(s: string, default: int)
    requires forall i :: 0 <= i < |s| ==> !IsDigit(s[i])
    ensures SafeInt(RawOfText(s), default) == default
  {
  }

  /** `has_nonzero_values(total, MacroKeys)` is `Nonzero(total)`; negative totals do not count. */
  lemma NonzeroIsHasNonzeroValues(t: Totals)
    ensures HasNonzeroValues(AsDict(t), MacroKeys) <==> Nonzero(t)
  {
    var d := AsDict(t);
    if Nonzero(t) {
      if t.calories > 0 { assert MacroKeys[0] in d && d[MacroKeys[0]].n > 0; }
      else if t.protein > 0 { assert MacroKeys[1] in d && d[MacroKeys[1]].n > 0; }
      else if t.fat > 0 { assert MacroKeys[2] in d && d[MacroKeys[2]].n > 0; }
      else { assert MacroKeys[3] in d && d[MacroKeys[3]].n > 0; }
    }
  }

  // ---------------------------------------------------------------------------------
  // Sums and means

  /** `int(a / n)` for integers: the quotient truncated toward zero. */
  function TruncDiv(a: int, n: int): (r: int)
    requires n > 0
    ensures a >= 0 ==> 0 <= r && r * n <= a < r * n + n
    ensures a < 0 ==> r <= 0 && r * n - n < a <= r * n
  {
    if a >= 0 then a / n else -((-a) / n)
  }

  /** The days (or weeks) with some value above 0, in their order. */
  function NonzeroDays(ts: seq<Totals>): (r: seq<Totals>)
    ensures |r| <= |ts|
    ensures forall i :: 0 <= i < |r| ==> Nonzero(r[i])
    decreases |ts|
  {
    if |ts| == 0 then []
    else NonzeroDays(ts[..|ts| - 1]) + (if Nonzero(ts[|ts| - 1]) then [ts[|ts| - 1]] else [])
  }

  /** The per-key sums. */
  function SumTotals(ts: seq<Totals>): Totals
    decreases |ts|
  {
    if |ts| == 0 then Zero else SumTotals(ts[..|ts| - 1]).Plus(ts[|ts| - 1])
  }

  /** The per-key means, each truncated toward zero. */
  function MeanOf(ts: seq<Totals>): Totals
    requires |ts| > 0
  {
    var s := SumTotals(ts);
    Totals(TruncDiv(s.calories, |ts|), TruncDiv(s.protein, |ts|), TruncDiv(s.fat, |ts|), TruncDiv(s.carbs, |ts|))
  }

  /** No day is kept exactly when no day has a value above 0. */
  lemma {:induction false} NonzeroDaysEmptyIff(ts: seq<Totals>)
    ensures |NonzeroDays(ts)| == 0 <==> forall i :: 0 <= i < |ts| ==> !Nonzero(ts[i])
    decreases |ts|
  {
    if |ts| > 0 {
      var p := ts[..|ts| - 1];
      NonzeroDaysEmptyIff(p);
      assert forall i :: 0 <= i < |p| ==> p[i] == ts[i];
    }
  }

  // ---------------------------------------------------------------------------------
  // Day view

  /** `[m for m in get_meals() if user_id == u]`. */
  function Mine(meals: seq<Meal>, u: int): seq<Meal>
    decreases |meals|
  {
    if |meals| == 0 then []
    else Mine(meals[..|meals| - 1], u) + (if meals[|meals| - 1].userId == u then [meals[|meals| - 1]] else [])
  }

  /** The rows dated `d`, in log order. */
  function OnDay(meals: seq<Meal>, d: Day): seq<Meal>
    decreases |meals|
  {
    if |meals| == 0 then []
    else OnDay(meals[..|meals| - 1], d) + (if meals[|meals| - 1].date == Some(d) then [meals[|meals| - 1]] else [])
  }

  /** The per-key sums of a list of rows. */
  function SumMeals(meals: seq<Meal>): Totals
    decreases |meals|
  {
    if |meals| == 0 then Zero else SumMeals(meals[..|meals| - 1]).Plus(MealTotals(meals[|meals| - 1]))
  }

  datatype DayView = NoEventsToday | DayMeals(meals: seq<Meal>, total: Totals)

  /** "За день": no events when none of today's totals is above 0, otherwise the caller's
      rows dated today, in log order, and the day's totals. */
  function DayViewOf(meals: seq<Meal>, u: int, today: Day): DayView {
    var total := DailyTotals(meals, u, today);
    if !Nonzero(total) then NoEventsToday else DayMeals(TodayList(meals, u, today), total)
  }

  lemma MineAppend(p: seq<Meal>, m: Meal, u: int)
    ensures Mine(p + [m], u) == Mine(p, u) + (if m.userId == u then [m] else [])
  {
    assert (p + [m])[..|p|] == p;
  }

  lemma OnDayAppend(p: seq<Meal>, m: Meal, d: Day)
    ensures OnDay(p + [m], d) == OnDay(p, d) + (if m.date == Some(d) then [m] else [])
  {
    assert (p + [m])[..|p|] == p;
  }

  lemma SumMealsAppend(p: seq<Meal>, m: Meal)
    ensures SumMeals(p + [m]) == SumMeals(p).Plus(MealTotals(m))
  {
    assert (p + [m])[..|p|] == p;
  }

  /** The caller's rows of a day, in log order. */
  function TodayList(meals: seq<Meal>, u: int, d: Day): seq<Meal> {
    OnDay(Mine(meals, u), d)
  }

  lemma TodayListAppend(p: seq<Meal>, m: Meal, u: int, d: Day)
    ensures TodayList(p + [m], u, d) == TodayList(p, u, d) + (if Matches(m, u, d) then [m] else [])
  {
    MineAppend(p, m, u);
    if m.userId == u {
      OnDayAppend(Mine(p, u), m, d);
      assert TodayList(p + [m], u, d) == OnDay(Mine(p, u) + [m], d);
    } else {
      assert Mine(p + [m], u) == Mine(p, u) + [] == Mine(p, u);
    }
  }

  /** The listed rows add up to the totals shown. */
  lemma {:induction false} TodayListAddsUp(meals: seq<Meal>, u: int, d: Day)
    ensures SumMeals(TodayList(meals, u, d)) == DailyTotals(meals, u, d)
    decreases |meals|
  {
    if |meals| > 0 {
      var p := meals[..|meals| - 1];
      var m := meals[|meals| - 1];
      TodayListAddsUp(p, u, d);
      assert meals == p + [m];
      DailyTotalsAppend(p, m, u, d);
      TodayListAppend(p, m, u, d);
      if Matches(m, u, d) {
        SumMealsAppend(TodayList(p, u, d), m);
      } else {
        assert TodayList(meals, u, d) == TodayList(p, u, d) + [] == TodayList(p, u, d);
      }
    }
  }

  /** The listed rows are the caller's rows of that day. */
  lemma {:induction false} TodayListRows(meals: seq<Meal>, u: int, d: Day)
    ensures forall i :: 0 <= i < |TodayList(meals, u, d)| ==> Matches(TodayList(meals, u, d)[i], u, d)
    decreases |meals|
  {
    if |meals| > 0 {
      var p := meals[..|meals| - 1];
      var m := meals[|meals| - 1];
      TodayListRows(p, u, d);
      assert meals == p + [m];
      TodayListAppend(p, m, u, d);
    }
  }

  /** No events exactly when none of today's totals is above 0; otherwise the list holds
      only the caller's rows of today and they add up to the shown totals. */
  lemma DayViewMeaning(meals: seq<Meal>, u: int, today: Day)
    ensures DayViewOf(meals, u, today).NoEventsToday? <==> !Nonzero(DailyTotals(meals, u, today))
    ensures var v := DayViewOf(meals, u, today);
      v.DayMeals? ==> SumMeals(v.meals) == v.total && forall i :: 0 <= i < |v.meals| ==> Matches(v.meals[i], u, today)
  {
    TodayListAddsUp(meals, u, today);
    TodayListRows(meals, u, today);
  }

  // ---------------------------------------------------------------------------------
  // Week view

  /** The totals of the seven days before today, yesterday first. */
  function WeekDays(meals: seq<Meal>, u: int, today: Day): seq<Totals> {
    seq(7, i => DailyTotals(meals, u, today - (i + 1)))
  }

  datatype WeekView = WeekView(days: seq<Totals>, mean: Option<Totals>)

  /** "За неделю": the seven days and, when one of them has data, the mean over the days
      that have data. */
  function WeekViewOf(meals: seq<Meal>, u: int, today: Day): WeekView {
    var days := WeekDays(meals, u, today);
    var nz := NonzeroDays(days);
    WeekView(days, if |nz| == 0 then None else Some(MeanOf(nz)))
  }

  /** A mean is shown exactly when one of the seven days before today has data. */
  lemma WeekMeanIffSomeDay(meals: seq<Meal>, u: int, today: Day)
    ensures WeekViewOf(meals, u, today).mean.Some? <==>
      exists i :: 0 <= i < 7 && Nonzero(WeekDays(meals, u, today)[i])
  {
    NonzeroDaysEmptyIff(WeekDays(meals, u, today));
  }

  /** Today's meals do not enter the week view. */
  lemma WeekExcludesToday(meals: seq<Meal>, m: Meal, u: int, today: Day)
    requires m.date == Some(today)
    ensures WeekViewOf(meals + [m], u, today) == WeekViewOf(meals, u, today)
  {
    var before := WeekDays(meals, u, today);
    var after := WeekDays(meals + [m], u, today);
    forall i | 0 <= i < 7
      ensures after[i] == before[i]
    {
      var d := today - (i + 1);
      assert after[i] == DailyTotals(meals + [m], u, d);
      assert before[i] == DailyTotals(meals, u, d);
      assert !Matches(m, u, d);
      DailyTotalsAppend(meals, m, u, d);
    }
    assert after == before;
  }

  lemma NonzeroOfSample(ta: Totals, tb: Totals)
    requires Nonzero(ta) && Nonzero(tb)
    ensures NonzeroDays([ta, Zero, tb, Zero, Zero, Zero, Zero]) == [ta, tb]
  {
    var days := [ta, Zero, tb, Zero, Zero, Zero, Zero];
    assert days[..1][..0] == [];
    assert NonzeroDays(days[..1]) == [ta];
    assert days[..2][..1] == days[..1];
    assert NonzeroDays(days[..2]) == [ta];
    assert days[..3][..2] == days[..2];
    assert NonzeroDays(days[..3]) == [ta, tb];
    assert days[..4][..3] == days[..3];
    assert NonzeroDays(days[..4]) == [ta, tb];
    assert days[..5][..4] == days[..4];
    assert NonzeroDays(days[..5]) == [ta, tb];
    assert days[..6][..5] == days[..5];
    assert NonzeroDays(days[..6]) == [ta, tb];
    assert days[..6] == days[..7][..6];
    assert days[..7] == days;
  }

  /** Two of the seven days with data (yesterday and three days ago): the mean divides
      by 2, not by 7. */
  lemma WeekMeanOverTwoDays(meals: seq<Meal>, u: int, today: Day, ta: Totals, tb: Totals)
    requires Nonzero(ta) && Nonzero(tb)
    requires WeekDays(meals, u, today) == [ta, Zero, tb, Zero, Zero, Zero, Zero]
    ensures WeekViewOf(meals, u, today).mean == Some(Totals(
      TruncDiv(ta.calories + tb.calories, 2), TruncDiv(ta.protein + tb.protein, 2),
      TruncDiv(ta.fat + tb.fat, 2), TruncDiv(ta.carbs + tb.carbs, 2)))
  {
    NonzeroOfSample(ta, tb);
    assert SumTotals([ta, tb]) == ta.Plus(tb) by {
      assert [ta, tb][..1] == [ta];
      assert [ta][..0] == [];
      assert SumTotals([ta]) == ta;
    }
  }

  // ---------------------------------------------------------------------------------
  // 4-week view

  /** Bucket `w` (0 = the current one) runs from `BucketStart` to `BucketEnd`, both included. */
  function BucketStart(today: Day, w: int): Day { today - 7 * w - 6 }
  function BucketEnd(today: Day, w: int): Day { today - 7 * w }

  /** The totals of the seven days of bucket `w`, oldest first. */
  function BucketDays(meals: seq<Meal>, u: int, today: Day, w: int): seq<Totals> {
    seq(7, i => DailyTotals(meals, u, BucketStart(today, w) + i))
  }

  /** The bucket's per-key mean over its days with data, all zeros when it has none. */
  function BucketMean(meals: seq<Meal>, u: int, today: Day, w: int): Totals {
    var nz := NonzeroDays(BucketDays(meals, u, today, w));
    if |nz| == 0 then Zero else MeanOf(nz)
  }

  /** `weeks`: the four bucket means, the current bucket first. */
  function Weeks(meals: seq<Meal>, u: int, today: Day): seq<Totals> {
    seq(4, w => BucketMean(meals, u, today, w))
  }

  /** The precheck of `get_4weeks_stats` (app/services/user_data.py): the days with data
      among the 28 days from `today - 28` to `today - 1`. */
  function PrecheckDays(meals: seq<Meal>, u: int, today: Day): seq<Totals> {
    NonzeroDays(seq(28, i => DailyTotals(meals, u, today - 28 + i)))
  }

  /** One printed bucket. */
  datatype WeekLine = WeekLine(start: Day, end: Day, mean: Totals)

  /** The four buckets with their ranges, oldest first (`zip(reversed(weeks), reversed(week_ranges))`). */
  function AllLines(weeks: seq<Totals>, today: Day): seq<WeekLine>
    requires |weeks| == 4
  {
    seq(4, j requires 0 <= j < 4 => WeekLine(BucketStart(today, 3 - j), BucketEnd(today, 3 - j), weeks[3 - j]))
  }

  /** The printed lines: the buckets with some value above 0, in order. */
  function ShownLines(lines: seq<WeekLine>): (r: seq<WeekLine>)
    ensures forall i :: 0 <= i < |r| ==> Nonzero(r[i].mean)
    decreases |lines|
  {
    if |lines| == 0 then []
    else ShownLines(lines[..|lines| - 1]) + (if Nonzero(lines[|lines| - 1].mean) then [lines[|lines| - 1]] else [])
  }

  datatype FourWeekView = NoEvents | FourWeeks(shown: seq<WeekLine>, mean: Totals)

  /** "За 4 недели". */
  function FourWeekViewOf(meals: seq<Meal>, u: int, today: Day): FourWeekView {
    if |PrecheckDays(meals, u, today)| == 0 then NoEvents
    else
      var weeks := Weeks(meals, u, today);
      var valid := NonzeroDays(weeks);
      if |valid| == 0 then NoEvents
      else FourWeeks(ShownLines(AllLines(weeks, today)), MeanOf(valid))
  }

  /** Day `i` (0 to 6) of bucket `w`. */
  function BucketDay(today: Day, w: int, i: int): Day { BucketStart(today, w) + i }

  /** The buckets tile the 28 days from `today - 27` to `today`: every such day lies in
      exactly one bucket, and no other day lies in any. */
  lemma BucketsTile(today: Day, d: Day)
    ensures today - 27 <= d <= today <==> exists w, i :: 0 <= w < 4 && 0 <= i < 7 && d == BucketDay(today, w, i)
    ensures forall w, i, w', i' ::
      (0 <= w < 4 && 0 <= i < 7 && 0 <= w' < 4 && 0 <= i' < 7 &&
       d == BucketDay(today, w, i) && d == BucketDay(today, w', i')) ==> w == w' && i == i'
  {
    if today - 27 <= d <= today {
      var w := (today - d) / 7;
      var i := 6 - (today - d) % 7;
      assert d == BucketDay(today, w, i);
    }
    forall w, i, w', i' |
      0 <= w < 4 && 0 <= i < 7 && 0 <= w' < 4 && 0 <= i' < 7 &&
      d == BucketDay(today, w, i) && d == BucketDay(today, w', i')
      ensures w == w' && i == i'
    {
      assert 7 * w - i == 7 * w' - i';
    }
  }

  /** Consecutive buckets meet without a gap or an overlap, and the current one ends today. */
  lemma BucketsContiguous(today: Day)
    ensures BucketEnd(today, 0) == today && BucketStart(today, 3) == today - 27
    ensures forall w :: 0 <= w < 4 ==> BucketEnd(today, w) - BucketStart(today, w) == 6
    ensures forall w :: 0 <= w < 3 ==> BucketStart(today, w) == BucketEnd(today, w + 1) + 1
  {
  }

  /** A 4-week view is shown exactly when the precheck finds a day and some bucket has a
      value above 0; its mean is then over exactly the buckets with data. */
  lemma FourWeekMeanOverValidWeeks(meals: seq<Meal>, u: int, today: Day)
    ensures FourWeekViewOf(meals, u, today).FourWeeks? <==>
      |PrecheckDays(meals, u, today)| > 0 && exists w :: 0 <= w < 4 && Nonzero(BucketMean(meals, u, today, w))
    ensures var v := FourWeekViewOf(meals, u, today);
      v.FourWeeks? ==> |NonzeroDays(Weeks(meals, u, today))| > 0 && v.mean == MeanOf(NonzeroDays(Weeks(meals, u, today)))
  {
    var weeks := Weeks(meals, u, today);
    NonzeroDaysEmptyIff(weeks);
    if exists w :: 0 <= w < 4 && Nonzero(BucketMean(meals, u, today, w)) {
      var w :| 0 <= w < 4 && Nonzero(BucketMean(meals, u, today, w));
      assert weeks[w] == BucketMean(meals, u, today, w);
    }
  }

  /** The filter keeps lines in their order. */
  lemma {:induction false} ShownLinesOrdered(lines: seq<WeekLine>)
    requires forall i, j :: 0 <= i < j < |lines| ==> lines[i].end < lines[j].start
    ensures forall i, j :: 0 <= i < j < |ShownLines(lines)| ==> ShownLines(lines)[i].end < ShownLines(lines)[j].start
    ensures forall i :: 0 <= i < |ShownLines(lines)| ==> ShownLines(lines)[i] in lines
    decreases |lines|
  {
    if |lines| > 0 {
      var p := lines[..|lines| - 1];
      ShownLinesOrdered(p);
    }
  }

  /** The printed buckets are the ones with data, oldest first. */
  lemma FourWeeksOldestFirst(meals: seq<Meal>, u: int, today: Day)
    ensures var v := FourWeekViewOf(meals, u, today);
      v.FourWeeks? ==>
        && (forall i, j :: 0 <= i < j < |v.shown| ==> v.shown[i].end < v.shown[j].start)
        && (forall i :: 0 <= i < |v.shown| ==> Nonzero(v.shown[i].mean))
  {
    var lines := AllLines(Weeks(meals, u, today), today);
    ShownLinesOrdered(lines);
  }

  /** The precheck window ends yesterday, while the buckets include today: a user whose
      rows are all dated today gets no 4-week view, whatever the day view shows. */
  lemma OnlyTodayGivesNoEvents(meals: seq<Meal>, u: int, today: Day)
    requires forall i :: 0 <= i < |meals| && meals[i].userId == u ==> meals[i].date == Some(today)
    ensures FourWeekViewOf(meals, u, today) == NoEvents
  {
    var days := seq(28, i => DailyTotals(meals, u, today - 28 + i));
    forall i | 0 <= i < 28
      ensures !Nonzero(days[i])
    {
      DailyTotalsWithoutRows(meals, u, today - 28 + i);
      assert days[i] == Zero;
    }
    NonzeroDaysEmptyIff(days);
  }

  // ---------------------------------------------------------------------------------
  // show_stats

  datatype Period = ForDay | ForWeek | ForFourWeeks

  datatype StatsView = NotRegistered | DayStats(day: DayView) | WeekStats(week: WeekView) | FourWeekStats(fourWeeks: FourWeekView)

  function StatsOf(users: seq<UserRow>, meals: seq<Meal>, u: int, period: Period, today: Day): StatsView {
    if !UserExists(users, u) then NotRegistered
    else
      match period
      case ForDay => DayStats(DayViewOf(meals, u, today))
      case ForWeek => WeekStats(WeekViewOf(meals, u, today))
      case ForFourWeeks => FourWeekStats(FourWeekViewOf(meals, u, today))
  }

  /** The "За день" branch: today's totals, then one pass over the caller's rows. */
  method DayStatsOf(store: Store, u: int, today: Day) returns (v: DayView)
    ensures v == DayViewOf(store.meals, u, today)
  {
    var total := store.GetDailyTotals(u, today);
    if !Nonzero(total) {
      return NoEventsToday;
    }
    var mine := Mine(store.meals, u);
    var listed: seq<Meal> := [];
    var i := 0;
    while i < |mine|
      invariant 0 <= i <= |mine|
      invariant listed == OnDay(mine[..i], today)
    {
      if mine[i].date == Some(today) {
        listed := listed + [mine[i]];
      }
      assert mine[..i + 1][..i] == mine[..i];
      i := i + 1;
    }
    assert mine[..i] == mine;
    v := DayMeals(listed, total);
  }

  /** The "За неделю" branch: the seven day totals, then the mean over days with data. */
  method WeekStatsOf(store: Store, u: int, today: Day) returns (v: WeekView)
    ensures v == WeekViewOf(store.meals, u, today)
  {
    var days := WeekDays(store.meals, u, today);
    var totalsList: seq<Totals> := [];
    var i := 1;
    while i < 8
      invariant 1 <= i <= 8
      invariant totalsList == days[..i - 1]
    {
      var dayTotal := store.GetDailyTotals(u, today - i);
      assert days[i - 1] == DailyTotals(store.meals, u, today - ((i - 1) + 1));
      assert today - ((i - 1) + 1) == today - i;
      assert days[..i] == days[..i - 1] + [days[i - 1]];
      totalsList := totalsList + [dayTotal];
      i := i + 1;
    }
    assert totalsList == days;
    var nonzeroDays := NonzeroDays(totalsList);
    if |nonzeroDays| > 0 {
      v := WeekView(totalsList, Some(MeanOf(nonzeroDays)));
    } else {
      v := WeekView(totalsList, None);
    }
  }

  /** One bucket: the sum and the count of its days with data. */
  method BucketMeanOf(store: Store, u: int, today: Day, w: int) returns (mean: Totals)
    ensures mean == BucketMean(store.meals, u, today, w)
  {
    var days := BucketDays(store.meals, u, today, w);
    var startDay := BucketStart(today, w);
    var weekTotals := Zero;
    var daysCount := 0;
    var i := 0;
    while i < 7
      invariant 0 <= i <= 7
      invariant weekTotals == SumTotals(NonzeroDays(days[..i]))
      invariant daysCount == |NonzeroDays(days[..i])|
    {
      var dayTotal := store.GetDailyTotals(u, startDay + i);
      assert dayTotal == days[i];
      assert days[..i + 1][..i] == days[..i];
      var nz := NonzeroDays(days[..i]);
      if Nonzero(dayTotal) {
        assert NonzeroDays(days[..i + 1]) == nz + [dayTotal];
        assert (nz + [dayTotal])[..|nz|] == nz;
        weekTotals := weekTotals.Plus(dayTotal);
        daysCount := daysCount + 1;
      } else {
        assert NonzeroDays(days[..i + 1]) == nz;
      }
      i := i + 1;
    }
    assert days[..7] == days;
    if daysCount > 0 {
      mean := Totals(TruncDiv(weekTotals.calories, daysCount), TruncDiv(weekTotals.protein, daysCount),
                     TruncDiv(weekTotals.fat, daysCount), TruncDiv(weekTotals.carbs, daysCount));
    } else {
      mean := weekTotals;
    }
  }

  /** The "За 4 недели" branch. */
  method FourWeekStatsOf(store: Store, u: int, today: Day) returns (v: FourWeekView)
    ensures v == FourWeekViewOf(store.meals, u, today)
  {
    if |PrecheckDays(store.meals, u, today)| == 0 {
      return NoEvents;
    }
    var weeks: seq<Totals> := [];
    var w := 0;
    while w < 4
      invariant 0 <= w <= 4
      invariant weeks == Weeks(store.meals, u, today)[..w]
    {
      var weekMean := BucketMeanOf(store, u, today, w);
      weeks := weeks + [weekMean];
      w := w + 1;
    }
    assert weeks == Weeks(store.meals, u, today);
    var validWeeks := NonzeroDays(weeks);
    if |validWeeks| == 0 {
      return NoEvents;
    }
    v := FourWeeks(ShownLines(AllLines(weeks, today)), MeanOf(validWeeks));
  }

  /** `show_stats`. */
  method ShowStats(store: Store, u: int, period: Period, today: Day) returns (v: StatsView)
    ensures v == StatsOf(store.users, store.meals, u, period, today)
  {
    var user := GetUser(store.users, u);
    if user.None? {
      return NotRegistered;
    }
    match period {
      case ForDay =>
        var d := DayStatsOf(store, u, today);
        v := DayStats(d);
      case ForWeek =>
        var wk := WeekStatsOf(store, u, today);
        v := WeekStats(wk);
      case ForFourWeeks =>
        var f := FourWeekStatsOf(store, u, today);
        v := FourWeekStats(f);
    }
  }
}

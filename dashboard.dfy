/** The figures components/Dashboard.tsx derives from the profile and the history: today's
    macro totals, the seven-day calorie bars, the remaining calories, the clamped progress
    widths, the macro goal total and the greeting name. Days are numbered consecutively and
    `dayOf` maps a timestamp to its day in the viewer's time zone. */
module Dashboard {
  import opened Types
  import opened DailyLog
  import App

  // ================================================================ today's macros

  datatype MacroTotals = MacroTotals(protein: int, carbs: int, fat: int)

  /** `macroStats`: protein, carbs and fat over the entries logged today. */
  function MacroStats(history: seq<NutritionData>, today: int, dayOf: int -> int): MacroTotals
  {
    MacroTotals(DayTotal(history, today, dayOf, Protein),
                DayTotal(history, today, dayOf, Carbs),
                DayTotal(history, today, dayOf, Fat))
  }

  /** A meal logged today raises each macro total by that meal's amount; an entry of another
      day, or without a timestamp, leaves all three as they were. */
  lemma MacroStatsPrepend(meal: NutritionData, history: seq<NutritionData>, today: int, dayOf: int -> int)
    ensures OnDay(meal, today, dayOf) ==>
              MacroStats([meal] + history, today, dayOf) ==
              MacroTotals(MacroStats(history, today, dayOf).protein + meal.protein,
                          MacroStats(history, today, dayOf).carbs + meal.carbs,
                          MacroStats(history, today, dayOf).fat + meal.fat)
    ensures !OnDay(meal, today, dayOf) ==> MacroStats([meal] + history, today, dayOf) == MacroStats(history, today, dayOf)
  {
    DayTotalPrepend(meal, history, today, dayOf, Protein);
    DayTotalPrepend(meal, history, today, dayOf, Carbs);
    DayTotalPrepend(meal, history, today, dayOf, Fat);
  }

  // ================================================================ the seven-day chart

  /** One bar of the chart; the weekday label is not modelled. */
  datatype DayBar = DayBar(day: int, calories: int, isToday: bool)

  const ChartDays := 7

  /** The bar for the day `i` days before `today`. */
  function BarFor(history: seq<NutritionData>, today: int, dayOf: int -> int, i: int): DayBar
  {
    DayBar(today - i, DayTotal(history, today - i, dayOf, Calories), i == 0)
  }

  /** `dailyHistoryData`: one bar per day from six days ago to today, oldest first. Bar `k`
      is day `today - 6 + k` with that day's calories, and only the last bar is today. */
  method DailyHistoryData(history: seq<NutritionData>, today: int, dayOf: int -> int) returns (bars: seq<DayBar>)
    ensures |bars| == ChartDays
    ensures forall k :: 0 <= k < |bars| ==> bars[k].day == today - (ChartDays - 1) + k
    ensures forall k :: 0 <= k < |bars| ==> bars[k].calories == DayTotal(history, bars[k].day, dayOf, Calories)
    ensures forall k :: 0 <= k < |bars| ==> (bars[k].isToday <==> k == ChartDays - 1)
  {
    bars := [];
    var i := ChartDays - 1;
    while i >= 0
      invariant -1 <= i <= ChartDays - 1
      invariant |bars| == ChartDays - 1 - i
      invariant forall k :: 0 <= k < |bars| ==> bars[k] == BarFor(history, today, dayOf, ChartDays - 1 - k)
    {
      var dayCals := DayTotal(history, today - i, dayOf, Calories);
      bars := bars + [DayBar(today - i, dayCals, i == 0)];
      i := i - 1;
    }
  }

  /** The chart's last bar shows the same calories as the energy card (`currentCals`). */
  lemma TodayBarIsCurrentCals(bars: seq<DayBar>, history: seq<NutritionData>, today: int, dayOf: int -> int)
    requires |bars| == ChartDays
    requires forall k :: 0 <= k < |bars| ==> bars[k].day == today - (ChartDays - 1) + k
    requires forall k :: 0 <= k < |bars| ==> bars[k].calories == DayTotal(history, bars[k].day, dayOf, Calories)
    ensures bars[ChartDays - 1].calories == App.CurrentCals(history, today, dayOf)
  {
  }

  /** A meal logged at a non-zero time of one of the seven charted days raises exactly that
      day's bar by its calories and leaves the other bars unchanged. */
  lemma MealRaisesOneBar(meal: NutritionData, now: int, history: seq<NutritionData>, today: int, dayOf: int -> int, i: int)
    requires now != 0 && 0 <= i < ChartDays
    ensures BarFor([meal.(timestamp := Some(now))] + history, today, dayOf, i).calories ==
            BarFor(history, today, dayOf, i).calories + (if dayOf(now) == today - i then meal.calories else 0)
  {
    DayTotalPrepend(meal.(timestamp := Some(now)), history, today - i, dayOf, Calories);
  }

  // ================================================================ energy card

  /** `Math.max(0, goal - currentCals)`: the calories still to eat, never negative. */
  function RemainingCalories(goal: int, current: int): (r: int)
    ensures r >= 0 && r >= goal - current
    ensures r == 0 || r == goal - current
    ensures r == 0 <==> current >= goal
  {
    if goal - current > 0 then goal - current else 0
  }

  /** `Math.min((value / goal) * 100, 100)`: a bar width in percent, capped at 100. The goal
      is never 0 for a loaded or onboarded profile. */
  function ProgressWidth(value: int, goal: int): (w: real)
    requires goal != 0
    ensures w <= 100.0
    ensures w < 100.0 ==> w == (value as real / goal as real) * 100.0
    ensures goal > 0 ==> (w == 100.0 <==> value >= goal)
    ensures goal > 0 && value >= 0 ==> w >= 0.0
  {
    var progress := (value as real / goal as real) * 100.0;
    if progress < 100.0 then progress else 100.0
  }

  /** Eating more never shrinks the bar when the goal is positive. */
  lemma ProgressWidthMonotone(value: int, more: int, goal: int)
    requires goal > 0 && value <= more
    ensures ProgressWidth(value, goal) <= ProgressWidth(more, goal)
  {
    assert value as real / goal as real <= more as real / goal as real;
  }

  /** The goal total on the macro ring. */
  function MacroGoalTotal(goals: Goals): (g: int)
  {
    goals.protein + goals.carbs + goals.fat
  }

  /** Every loaded profile carries the fixed macro goals, 420 g in total. */
  lemma LoadedMacroGoalTotal(row: App.ProfileRow, today: string)
    ensures MacroGoalTotal(App.ProfileFromRow(row, today).goals) == 420
  {
  }

  // ================================================================ greeting and water

  const FallbackGreeting := "Architect"

  /** `s.split(' ')[0]`: the text before the first space. */
  function FirstWord(s: string): (w: string)
    ensures w <= s && ' ' !in w
    ensures |w| < |s| ==> s[|w|] == ' '
  {
    if s == [] || s[0] == ' ' then [] else [s[0]] + FirstWord(s[1..])
  }

  /** The greeting: the first word of the name, or the fallback when it is empty. */
  function GreetingName(name: string): (g: string)
    ensures g != ""
    ensures name != [] && name[0] != ' ' ==> g == FirstWord(name) && g <= name
    ensures (name == [] || name[0] == ' ') ==> g == FallbackGreeting
  {
    var w := FirstWord(name);
    if w == "" then FallbackGreeting else w
  }

  const SmallWaterMl := 250
  const LargeWaterMl := 500

  /** The two hydration buttons: each logs its fixed amount through `handleAddWater`. */
  method TapWaterButton(app: App.AppState, large: bool) returns (call: Option<App.RemoteCall>)
    requires app.Valid()
    modifies app`waterIntake
    ensures app.Valid()
    ensures app.session.Some? ==>
              app.waterIntake == old(app.waterIntake) + (if large then LargeWaterMl else SmallWaterMl)
    ensures app.session.None? ==> app.waterIntake == old(app.waterIntake) && call.None?
  {
    call := app.AddWater(if large then LargeWaterMl else SmallWaterMl);
  }
}

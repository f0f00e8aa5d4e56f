/** Per-day totals over the nutrition history, shared by App.tsx (`currentCals`) and
    components/Dashboard.tsx (`macroStats`, `dailyHistoryData`). Both keep the entries whose
    timestamp is truthy and falls on a given calendar day, then add up one field.
    The calendar day of a timestamp in the viewer's time zone (`toDateString`) is the
    parameter `dayOf`; days are numbered consecutively. */
module DailyLog {
  import opened Types

  /** The numeric fields of a history entry that get summed. */
  datatype Field = Calories | Protein | Carbs | Fat

  function FieldOf(d: NutritionData, f: Field): int
  {
    match f
    case Calories => d.calories
    case Protein => d.protein
    case Carbs => d.carbs
    case Fat => d.fat
  }

  /** `h.timestamp && toDay(h.timestamp) === day`: a missing or zero timestamp is falsy. */
  predicate OnDay(d: NutritionData, day: int, dayOf: int -> int)
  {
    d.timestamp.Some? && d.timestamp.value != 0 && dayOf(d.timestamp.value) == day
  }

  /** The number of entries of `history` logged on `day`. */
  function CountOn(history: seq<NutritionData>, day: int, dayOf: int -> int): nat
  {
    if history == [] then 0
    else (if OnDay(history[0], day, dayOf) then 1 else 0) + CountOn(history[1..], day, dayOf)
  }

  /** `history.filter(h => OnDay(h))`: the entries of the day, each once and in order. */
  function LogsOn(history: seq<NutritionData>, day: int, dayOf: int -> int): (logs: seq<NutritionData>)
    ensures |logs| == CountOn(history, day, dayOf)
    ensures IsSubsequence(logs, history)
    ensures forall d :: d in logs <==> d in history && OnDay(d, day, dayOf)
  {
    if history == [] then []
    else if OnDay(history[0], day, dayOf) then [history[0]] + LogsOn(history[1..], day, dayOf)
    else LogsOn(history[1..], day, dayOf)
  }

  /** `logs.reduce((s, h) => s + h[f], 0)`. */
  function SumField(logs: seq<NutritionData>, f: Field): int
  {
    if logs == [] then 0 else FieldOf(logs[0], f) + SumField(logs[1..], f)
  }

  /** The total of one field over the entries logged on `day`. */
  function DayTotal(history: seq<NutritionData>, day: int, dayOf: int -> int, f: Field): int
  {
    SumField(LogsOn(history, day, dayOf), f)
  }

  /** The total splits over a concatenation of histories. */
  lemma {:induction false} DayTotalAppend(a: seq<NutritionData>, b: seq<NutritionData>, day: int, dayOf: int -> int, f: Field)
    ensures DayTotal(a + b, day, dayOf, f) == DayTotal(a, day, dayOf, f) + DayTotal(b, day, dayOf, f)
    decreases |a|
  {
    if a == [] {
      assert a + b == b;
    } else {
      assert (a + b)[0] == a[0];
      assert (a + b)[1..] == a[1..] + b;
      DayTotalAppend(a[1..], b, day, dayOf, f);
    }
  }

  /** Prepending one entry adds its field to the total of its own day and changes no other
      day's total. */
  lemma DayTotalPrepend(d: NutritionData, history: seq<NutritionData>, day: int, dayOf: int -> int, f: Field)
    ensures DayTotal([d] + history, day, dayOf, f) ==
            DayTotal(history, day, dayOf, f) + (if OnDay(d, day, dayOf) then FieldOf(d, f) else 0)
  {
    DayTotalAppend([d], history, day, dayOf, f);
    assert LogsOn([d], day, dayOf) == if OnDay(d, day, dayOf) then [d] else [];
  }

  /** Entries of other days, or without a timestamp, never count toward a day's total. */
  lemma {:induction false} DayTotalIgnoresOtherDays(history: seq<NutritionData>, day: int, dayOf: int -> int, f: Field)
    requires forall i :: 0 <= i < |history| ==> !OnDay(history[i], day, dayOf)
    ensures DayTotal(history, day, dayOf, f) == 0
    decreases |history|
  {
    if history != [] {
      DayTotalIgnoresOtherDays(history[1..], day, dayOf, f);
    }
  }
}

/** The weekly day bucketing of the stats handler (backend/lib/server.py,
    lines 112-122): seven daily totals, today first, each the sum over the
    meals dated exactly that day, with a zero total reported as absent. */
module Bucketing {
  import opened Wrappers
  import opened Nutrition

  /** The number of buckets: today and the six days before it. */
  const Days: nat := 7

  /** Sum of the calories of the meals dated `day`. */
  function DayTotal(meals: seq<Meal>, day: int): real
  {
    if meals == [] then 0.0
    else (if meals[0].createdDay == day then meals[0].calories else 0.0) + DayTotal(meals[1..], day)
  }

  /** The comprehension of lines 112-121: entry `d` totals the day `today - d`. */
  function DailyTotals(meals: seq<Meal>, today: int): (r: seq<NutritionInfo>)
    ensures |r| == Days
  {
    seq(Days, d requires 0 <= d < Days => NutritionInfo(DayTotal(meals, today - d)))
  }

  /** The comprehension of line 122: a total whose calories are falsy becomes `None`. */
  function DropEmpty(infos: seq<NutritionInfo>): (r: seq<Option<NutritionInfo>>)
    ensures |r| == |infos|
  {
    seq(|infos|, i requires 0 <= i < |infos| => if infos[i].calories != 0.0 then Some(infos[i]) else None)
  }

  /** The `past_data` list handed to the recommendation provider. */
  function PastData(meals: seq<Meal>, today: int): (r: seq<Option<NutritionInfo>>)
    ensures |r| == Days
    // day d is absent exactly when the meals dated today - d sum to zero
    ensures forall d :: 0 <= d < Days ==>
      r[d] == if DayTotal(meals, today - d) == 0.0 then None else Some(NutritionInfo(DayTotal(meals, today - d)))
  {
    DropEmpty(DailyTotals(meals, today))
  }

  /** The seven dates that have a bucket. */
  predicate InWeek(day: int, today: int)
  {
    today - (Days - 1) <= day <= today
  }

  lemma {:induction false} DayTotalAppend(a: seq<Meal>, b: seq<Meal>, day: int)
    ensures DayTotal(a + b, day) == DayTotal(a, day) + DayTotal(b, day)
  {
    if a == [] {
      assert a + b == b;
    } else {
      assert (a + b)[0] == a[0] && (a + b)[1..] == a[1..] + b;
      DayTotalAppend(a[1..], b, day);
    }
  }

  /** A day on which no meal is dated totals zero. */
  lemma {:induction false} DayTotalNoMeals(meals: seq<Meal>, day: int)
    requires forall i :: 0 <= i < |meals| ==> meals[i].createdDay != day
    ensures DayTotal(meals, day) == 0.0
  {
    if meals != [] {
      DayTotalNoMeals(meals[1..], day);
    }
  }

  /** The repository's row order does not matter: a day's total depends only
      on the multiset of meals. */
  lemma {:induction false} DayTotalPermutation(a: seq<Meal>, b: seq<Meal>, day: int)
    requires multiset(a) == multiset(b)
    ensures DayTotal(a, day) == DayTotal(b, day)
    decreases |a|
  {
    if a == [] {
      assert |b| == |multiset(b)| == 0;
    } else {
      var m := a[0];
      assert m in multiset(b);
      var i :| 0 <= i < |b| && b[i] == m;
      var rest := b[..i] + b[i + 1..];
      assert b == b[..i] + [m] + b[i + 1..];
      DayTotalAppend(b[..i] + [m], b[i + 1..], day);
      DayTotalAppend(b[..i], [m], day);
      DayTotalAppend(b[..i], b[i + 1..], day);
      assert a == [m] + a[1..];
      assert multiset(a) == multiset{m} + multiset(a[1..]);
      assert multiset(b) == multiset(b[..i]) + multiset{m} + multiset(b[i + 1..]);
      assert multiset(rest) == multiset(b[..i]) + multiset(b[i + 1..]);
      assert multiset(a[1..]) == multiset(a) - multiset{m};
      assert multiset(rest) == multiset(b) - multiset{m};
      DayTotalPermutation(a[1..], rest, day);
    }
  }

  /** Bucketing ignores the order in which the repository returns the meals. */
  lemma PastDataIgnoresOrder(a: seq<Meal>, b: seq<Meal>, today: int)
    requires multiset(a) == multiset(b)
    ensures PastData(a, today) == PastData(b, today)
  {
    forall d | 0 <= d < Days
      ensures PastData(a, today)[d] == PastData(b, today)[d]
    {
      DayTotalPermutation(a, b, today - d);
    }
  }

  /** Meals dated on none of the seven bucket dates change no bucket. */
  lemma PastDataIgnoresOutsideWeek(a: seq<Meal>, b: seq<Meal>, today: int)
    requires forall i :: 0 <= i < |b| ==> !InWeek(b[i].createdDay, today)
    ensures PastData(a + b, today) == PastData(a, today)
  {
    forall d | 0 <= d < Days
      ensures PastData(a + b, today)[d] == PastData(a, today)[d]
    {
      DayTotalAppend(a, b, today - d);
      DayTotalNoMeals(b, today - d);
    }
  }

  /** The repository's window reaches back to `today - 7`, one day more than
      the buckets: a meal of that day reaches the handler and is dropped. */
  lemma EighthDayDropped(meals: seq<Meal>, m: Meal, today: int)
    requires m.createdDay == today - Days
    ensures PastData(meals + [m], today) == PastData(meals, today)
  {
    PastDataIgnoresOutsideWeek(meals, [m], today);
  }

  /** A day with no meals and a day whose meals sum to zero are both absent. */
  lemma AbsentDays(meals: seq<Meal>, today: int, d: int)
    requires 0 <= d < Days
    ensures (forall i :: 0 <= i < |meals| ==> meals[i].createdDay != today - d) ==> PastData(meals, today)[d] == None
    ensures DayTotal(meals, today - d) == 0.0 ==> PastData(meals, today)[d] == None
    ensures PastData(meals, today)[d] == None ==> DayTotal(meals, today - d) == 0.0
  {
    if forall i :: 0 <= i < |meals| ==> meals[i].createdDay != today - d {
      DayTotalNoMeals(meals, today - d);
    }
  }

  lemma {:induction false} DayTotalNonNegative(meals: seq<Meal>, day: int)
    requires forall i :: 0 <= i < |meals| ==> meals[i].calories >= 0.0
    ensures DayTotal(meals, day) >= 0.0
  {
    if meals != [] {
      DayTotalNonNegative(meals[1..], day);
    }
  }

  /** With non-negative estimates every reported day is positive. */
  lemma PresentDaysPositive(meals: seq<Meal>, today: int)
    requires forall i :: 0 <= i < |meals| ==> meals[i].calories >= 0.0
    ensures forall d :: 0 <= d < Days && PastData(meals, today)[d].Some? ==>
      PastData(meals, today)[d].value.calories > 0.0
  {
    forall d | 0 <= d < Days
      ensures PastData(meals, today)[d].Some? ==> PastData(meals, today)[d].value.calories > 0.0
    {
      DayTotalNonNegative(meals, today - d);
    }
  }

  // ---- Conservation: the reported week holds every in-week calorie once ----

  /** The calories a bucket list reports, an absent day counting zero. */
  function Reported(buckets: seq<Option<NutritionInfo>>): real
  {
    if buckets == [] then 0.0
    else (if buckets[0].Some? then buckets[0].value.calories else 0.0) + Reported(buckets[1..])
  }

  /** Sum of the calories of the meals dated within the seven bucket dates. */
  function WeekCalories(meals: seq<Meal>, today: int): real
  {
    if meals == [] then 0.0
    else (if InWeek(meals[0].createdDay, today) then meals[0].calories else 0.0) + WeekCalories(meals[1..], today)
  }

  /** Day totals of `count` consecutive days, going back from `from`. */
  function SpanTotal(meals: seq<Meal>, from: int, count: nat): real
    decreases count
  {
    if count == 0 then 0.0 else DayTotal(meals, from) + SpanTotal(meals, from - 1, count - 1)
  }

  /** Sum of the calories of the meals dated in `(from - count, from]`. */
  function SpanCalories(meals: seq<Meal>, from: int, count: nat): real
  {
    if meals == [] then 0.0
    else
      (if from - count < meals[0].createdDay <= from then meals[0].calories else 0.0)
      + SpanCalories(meals[1..], from, count)
  }

  lemma {:induction false} SpanCaloriesStep(meals: seq<Meal>, from: int, count: nat)
    requires count > 0
    ensures SpanCalories(meals, from, count) == DayTotal(meals, from) + SpanCalories(meals, from - 1, count - 1)
  {
    if meals != [] {
      SpanCaloriesStep(meals[1..], from, count);
    }
  }

  lemma {:induction false} SpanTotalIsSpanCalories(meals: seq<Meal>, from: int, count: nat)
    ensures SpanTotal(meals, from, count) == SpanCalories(meals, from, count)
    decreases count, |meals|
  {
    if count == 0 {
      if meals != [] {
        SpanTotalIsSpanCalories(meals[1..], from, 0);
      }
    } else {
      SpanTotalIsSpanCalories(meals, from - 1, count - 1);
      SpanCaloriesStep(meals, from, count);
    }
  }

  lemma {:induction false} ReportedIsSpanTotal(buckets: seq<Option<NutritionInfo>>, meals: seq<Meal>, from: int)
    requires forall i :: 0 <= i < |buckets| ==>
      (if buckets[i].Some? then buckets[i].value.calories else 0.0) == DayTotal(meals, from - i)
    ensures Reported(buckets) == SpanTotal(meals, from, |buckets|)
  {
    if buckets != [] {
      forall i | 0 <= i < |buckets[1..]|
        ensures (if buckets[1..][i].Some? then buckets[1..][i].value.calories else 0.0) == DayTotal(meals, from - 1 - i)
      {
        assert buckets[1..][i] == buckets[i + 1];
      }
      ReportedIsSpanTotal(buckets[1..], meals, from - 1);
    }
  }

  lemma {:induction false} WeekCaloriesIsSpan(meals: seq<Meal>, today: int)
    ensures WeekCalories(meals, today) == SpanCalories(meals, today, Days)
  {
    if meals != [] {
      WeekCaloriesIsSpan(meals[1..], today);
    }
  }

  /** Every calorie of a meal dated within the week is reported exactly once,
      on its own day; every other meal is dropped. */
  lemma PastDataConservesWeek(meals: seq<Meal>, today: int)
    ensures Reported(PastData(meals, today)) == WeekCalories(meals, today)
  {
    var buckets := PastData(meals, today);
    forall i | 0 <= i < |buckets|
      ensures (if buckets[i].Some? then buckets[i].value.calories else 0.0) == DayTotal(meals, today - i)
    {
    }
    ReportedIsSpanTotal(buckets, meals, today);
    SpanTotalIsSpanCalories(meals, today, Days);
    WeekCaloriesIsSpan(meals, today);
  }

  // ---- The stats test of backend/test/test_server.py and a one-meal week ----

  /** Four meals: two today, one two days ago, one four days ago. */
  lemma FourMealsScenario(today: int)
    ensures PastData([Meal(0, "42", "", 100.0, today), Meal(1, "42", "", 200.0, today),
                      Meal(2, "42", "", 400.0, today - 2), Meal(3, "42", "", 1000.0, today - 4)], today)
         == [Some(NutritionInfo(300.0)), None, Some(NutritionInfo(400.0)), None,
             Some(NutritionInfo(1000.0)), None, None]
  {
    var ms := [Meal(0, "42", "", 100.0, today), Meal(1, "42", "", 200.0, today),
               Meal(2, "42", "", 400.0, today - 2), Meal(3, "42", "", 1000.0, today - 4)];
    var expected := [Some(NutritionInfo(300.0)), None, Some(NutritionInfo(400.0)), None,
                     Some(NutritionInfo(1000.0)), None, None];
    assert ms[1..][1..][1..][1..] == [];
    forall d | 0 <= d < Days
      ensures PastData(ms, today)[d] == expected[d]
    {
      assert DayTotal(ms[1..][1..][1..], today - d) == if d == 4 then 1000.0 else 0.0;
      assert DayTotal(ms[1..][1..], today - d) == if d == 4 then 1000.0 else if d == 2 then 400.0 else 0.0;
      assert DayTotal(ms, today - d) ==
        if d == 0 then 300.0 else if d == 2 then 400.0 else if d == 4 then 1000.0 else 0.0;
    }
  }

  /** One 95-calorie meal today fills bucket 0 alone. */
  lemma SingleMealScenario(m: Meal, today: int)
    requires m.createdDay == today && m.calories == 95.0
    ensures PastData([m], today) == [Some(NutritionInfo(95.0)), None, None, None, None, None, None]
  {
    assert [m][1..] == [];
    var expected := [Some(NutritionInfo(95.0)), None, None, None, None, None, None];
    forall d | 0 <= d < Days
      ensures PastData([m], today)[d] == expected[d]
    {
      assert DayTotal([m], today - d) == if d == 0 then 95.0 else 0.0;
    }
  }
}

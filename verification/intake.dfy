/** Meal intake: `add_meal_handler` of app/main.py, which buffers the text while the
    classifier asks for a clarification, and the variant of app/handlers/meals.py, which
    never buffers and always writes a row with coerced macros. */
module MealIntake {
  import opened Values
  import opened Text
  import opened Tables
  import opened Fsm
  import opened Oracle
  import opened Session

  /** The text sent to the classifier: the buffered text and the new message joined by a
      space and stripped, or the message alone when nothing is buffered. */
  function MealText(pending: string, text: string): string {
    if pending != "" then Strip(pending + " " + text) else text
  }

  /** The buffered text, `""` when the key is absent. */
  function Pending(w: World): string {
    w.conv.data.pendingMeal.GetOr("")
  }

  /** `add_meal_handler` of app/main.py. */
  function MealStep(w: World, u: int, text: string, r: Replies): World {
    if w.conv.state != Idle || !UserExists(w.users, u) then w
    else
      var mealText := MealText(Pending(w), text);
      var parsed := r.classify(mealText, u);
      var w1 := w.(calls := w.calls + [ClassifyCall(mealText, u)]);
      if parsed.clarification != "" then
        w1.(conv := w.conv.(data := w.conv.data.(pendingMeal := Some(mealText))))
      else
        w1.(conv := w.conv.(data := w.conv.data.(pendingMeal := Some(""))),
            meals := w.meals + [Meal(u, parsed.date, mealText, parsed.protein, parsed.fat, parsed.carbs, parsed.calories)])
  }

  /** The row the variant writes: each macro through `safe_int` with 0 as the fallback. */
  function CoercedMeal(u: int, mealText: string, parsed: RawMealReply): Meal {
    Meal(u, parsed.date, mealText, SafeInt(parsed.protein, 0), SafeInt(parsed.fat, 0),
      SafeInt(parsed.carbs, 0), SafeInt(parsed.calories, 0))
  }

  /** `add_meal_handler` of app/handlers/meals.py. */
  function MealStepVariant(w: World, u: int, text: string, r: Replies): World {
    if w.conv.state != Idle || !UserExists(w.users, u) then w
    else
      var mealText := MealText(Pending(w), text);
      var parsed := r.classifyRaw(mealText, u);
      w.(calls := w.calls + [ClassifyCall(mealText, u)],
         conv := w.conv.(data := w.conv.data.(pendingMeal := Some(""))),
         meals := w.meals + [CoercedMeal(u, mealText, parsed)])
  }

  /** The day whose totals the reply shows: the row's date, today when it has none. */
  function ReplyDay(date: Option<Day>, today: Day): Day {
    date.GetOr(today)
  }

  /** app/main.py's handler. On success it also returns the day's totals that the reply
      shows (`get_daily_totals` after the append). */
  method AddMealHandler(ctx: FsmContext, store: Store, llm: LanguageModel, u: int, text: string, today: Day)
    returns (dayTotals: Option<Totals>)
    modifies ctx, store, llm
    ensures Snapshot(ctx, store, llm) == MealStep(old(Snapshot(ctx, store, llm)), u, text, llm.replies)
    ensures dayTotals.Some? <==> |store.meals| == |old(store.meals)| + 1
    ensures dayTotals.Some? ==> dayTotals.value == DailyTotals(store.meals, u, ReplyDay(store.meals[|store.meals| - 1].date, today))
  {
    dayTotals := None;
    if ctx.state != Idle {
      return;
    }
    if !UserExists(store.users, u) {
      return;
    }
    var pending := ctx.data.pendingMeal.GetOr("");
    var mealText := if pending != "" then Strip(pending + " " + text) else text;
    var parsed := llm.ParseMealText(mealText, u);
    if parsed.clarification != "" {
      ctx.UpdatePendingMeal(mealText);
      return;
    }
    ctx.UpdatePendingMeal("");
    store.AddMeal(Meal(u, parsed.date, mealText, parsed.protein, parsed.fat, parsed.carbs, parsed.calories));
    var t := store.GetDailyTotals(u, ReplyDay(parsed.date, today));
    dayTotals := Some(t);
  }

  /** app/handlers/meals.py's handler. */
  method AddMealHandlerVariant(ctx: FsmContext, store: Store, llm: LanguageModel, u: int, text: string)
    modifies ctx, store, llm
    ensures Snapshot(ctx, store, llm) == MealStepVariant(old(Snapshot(ctx, store, llm)), u, text, llm.replies)
  {
    if ctx.state != Idle {
      return;
    }
    if !UserExists(store.users, u) {
      return;
    }
    var pending := ctx.data.pendingMeal.GetOr("");
    var mealText := if pending != "" then Strip(pending + " " + text) else text;
    var parsed := llm.ParseMealTextRaw(mealText, u);
    ctx.UpdatePendingMeal("");
    var protein := SafeInt(parsed.protein, 0);
    var fat := SafeInt(parsed.fat, 0);
    var carbs := SafeInt(parsed.carbs, 0);
    var calories := SafeInt(parsed.calories, 0);
    store.AddMeal(Meal(u, parsed.date, mealText, protein, fat, carbs, calories));
  }

  // ---------------------------------------------------------------------------------
  // Properties

  /** While a flow is active, and for a user without a row, both handlers change nothing:
      no call, no buffered text, no row. */
  lemma GuardedNoop(w: World, u: int, text: string, r: Replies)
    requires w.conv.state != Idle || !UserExists(w.users, u)
    ensures MealStep(w, u, text, r) == w
    ensures MealStepVariant(w, u, text, r) == w
  {
  }

  /** A clarification keeps the whole text sent to the classifier and writes no row. */
  lemma ClarificationBuffers(w: World, u: int, text: string, r: Replies)
    requires w.conv.state == Idle && UserExists(w.users, u)
    requires r.classify(MealText(Pending(w), text), u).clarification != ""
    ensures var w' := MealStep(w, u, text, r);
      && w'.meals == w.meals && w'.users == w.users
      && w'.conv.state == Idle && Pending(w') == MealText(Pending(w), text)
      && w'.calls == w.calls + [ClassifyCall(MealText(Pending(w), text), u)]
  {
  }

  /** Two clarifications in a row leave `t1 + " " + t2` buffered. */
  lemma TwoClarifications(w: World, u: int, t1: string, t2: string, r: Replies)
    requires w.conv.state == Idle && UserExists(w.users, u) && Pending(w) == ""
    requires |t1| > 0 && !IsSpace(t1[0]) && |t2| > 0 && !IsSpace(t2[|t2| - 1])
    requires r.classify(t1, u).clarification != ""
    requires r.classify(t1 + " " + t2, u).clarification != ""
    ensures var w' := MealStep(MealStep(w, u, t1, r), u, t2, r);
      && Pending(w') == t1 + " " + t2
      && w'.meals == w.meals
      && w'.calls == w.calls + [ClassifyCall(t1, u), ClassifyCall(t1 + " " + t2, u)]
  {
    var s := t1 + " " + t2;
    assert s[0] == t1[0] && s[|s| - 1] == t2[|t2| - 1];
    StripNoSpace(s);
    var w1 := MealStep(w, u, t1, r);
    assert Pending(w1) == t1;
    assert MealText(t1, t2) == s;
  }

  /** A classified meal is written as exactly one row at the end of the log, the buffer is
      emptied, and that day's totals of the user go up by the row's values. */
  lemma SuccessAppendsOne(w: World, u: int, text: string, r: Replies, d: Day)
    requires w.conv.state == Idle && UserExists(w.users, u)
    requires r.classify(MealText(Pending(w), text), u).clarification == ""
    ensures var w' := MealStep(w, u, text, r);
      var parsed := r.classify(MealText(Pending(w), text), u);
      var row := Meal(u, parsed.date, MealText(Pending(w), text), parsed.protein, parsed.fat, parsed.carbs, parsed.calories);
      && w'.meals == w.meals + [row]
      && Pending(w') == ""
      && (parsed.date == Some(d) ==> DailyTotals(w'.meals, u, d) == DailyTotals(w.meals, u, d).Plus(MealTotals(row)))
      && (parsed.date != Some(d) ==> DailyTotals(w'.meals, u, d) == DailyTotals(w.meals, u, d))
  {
    var mealText := MealText(Pending(w), text);
    var parsed := r.classify(mealText, u);
    var row := Meal(u, parsed.date, mealText, parsed.protein, parsed.fat, parsed.carbs, parsed.calories);
    assert MealStep(w, u, text, r).meals == w.meals + [row];
    DailyTotalsAppend(w.meals, row, u, d);
  }

  /** After a classified meal nothing is buffered, so the next message is sent alone. */
  lemma NextMessageAlone(w: World, u: int, text: string, next: string, r: Replies)
    requires w.conv.state == Idle && UserExists(w.users, u)
    requires r.classify(MealText(Pending(w), text), u).clarification == ""
    ensures var w' := MealStep(w, u, text, r);
      MealStep(w', u, next, r).calls == w'.calls + [ClassifyCall(next, u)]
  {
  }

  /** The variant writes a row for every message it handles, clarification or not, with
      each macro coerced to an integer (0 when absent or not numeric), and never buffers. */
  lemma VariantAlwaysAppends(w: World, u: int, text: string, r: Replies)
    requires w.conv.state == Idle && UserExists(w.users, u)
    ensures var w' := MealStepVariant(w, u, text, r);
      var parsed := r.classifyRaw(MealText(Pending(w), text), u);
      var row := w'.meals[|w'.meals| - 1];
      && |w'.meals| == |w.meals| + 1 && w'.meals[..|w.meals|] == w.meals
      && row.text == MealText(Pending(w), text) && row.userId == u && row.date == parsed.date
      && (parsed.protein.Number? ==> row.protein == parsed.protein.n)
      && (!parsed.protein.Number? ==> row.protein == 0)
      && (parsed.calories.Number? ==> row.calories == parsed.calories.n)
      && (!parsed.calories.Number? ==> row.calories == 0)
      && (parsed.fat.Number? ==> row.fat == parsed.fat.n)
      && (!parsed.fat.Number? ==> row.fat == 0)
      && (parsed.carbs.Number? ==> row.carbs == parsed.carbs.n)
      && (!parsed.carbs.Number? ==> row.carbs == 0)
      && Pending(w') == ""
  {
    var w' := MealStepVariant(w, u, text, r);
    assert w'.meals[..|w.meals|] == w.meals;
  }
}

/** The two CSV tables of app/services/csv_client.py, held in memory: `users` (one row per
    registration) and `meals` (an ordered log of meal events). */
module Tables {
  import opened Values

  /** A users row: `user_id, age, sex, height, weight, activity, goal, target_cal, p_goal,
      f_goal, c_goal`. */
  datatype UserRow = UserRow(
    userId: int, age: Field, sex: Field, height: Field, weight: Field, activity: Field,
    goal: Field, targetCal: Field, pGoal: Field, fGoal: Field, cGoal: Field)

  /** A meals row: `user_id, date, meal_text, protein, fat, carbs, calories`. A date the
      classifier did not supply is `None`; it equals no day. */
  datatype Meal = Meal(
    userId: int, date: Option<Day>, text: string,
    protein: int, fat: int, carbs: int, calories: int)

  /** The `total` dictionary of `get_daily_totals` and the per-day and per-week values of
      the statistics. */
  datatype Totals = Totals(calories: int, protein: int, fat: int, carbs: int) {
    function Plus(o: Totals): Totals {
      Totals(calories + o.calories, protein + o.protein, fat + o.fat, carbs + o.carbs)
    }
  }

  const Zero: Totals := Totals(0, 0, 0, 0)

  /** A goal to be written by `update_user_target`: the goal text and four targets. */
  datatype Goal = Goal(goal: string, targetCal: Field, pGoal: Field, fGoal: Field, cGoal: Field)

  /** `user_exists`: some row carries the id. */
  function UserExists(users: seq<UserRow>, u: int): (r: bool)
    ensures r <==> exists i :: 0 <= i < |users| && users[i].userId == u
  {
    if |users| == 0 then false
    else if users[0].userId == u then true
    else
      var rest := UserExists(users[1..], u);
      assert (exists i :: 0 <= i < |users| && users[i].userId == u) ==> rest by {
        if exists i :: 0 <= i < |users| && users[i].userId == u {
          var i :| 0 <= i < |users| && users[i].userId == u;
          assert users[1..][i - 1] == users[i];
        }
      }
      rest
  }

  /** `get_user`: the first row that carries the id, `None` when there is none. */
  function GetUser(users: seq<UserRow>, u: int): (r: Option<UserRow>)
    ensures r.Some? <==> UserExists(users, u)
    ensures r.Some? ==> exists i :: 0 <= i < |users| && users[i] == r.value && r.value.userId == u && !UserExists(users[..i], u)
  {
    if |users| == 0 then None
    else if users[0].userId == u then
      assert users[..0] == [];
      Some(users[0])
    else
      var rest := GetUser(users[1..], u);
      assert rest.Some? ==> exists i :: 0 <= i < |users| && users[i] == rest.value && rest.value.userId == u && !UserExists(users[..i], u) by {
        if rest.Some? {
          var j :| 0 <= j < |users[1..]| && users[1..][j] == rest.value && rest.value.userId == u && !UserExists(users[1..][..j], u);
          assert users[..j + 1] == [users[0]] + users[1..][..j];
          assert users[..j + 1][1..] == users[1..][..j];
        }
      }
      rest
  }

  /** A meal row counts towards the totals of user `u` on day `d`. */
  predicate Matches(m: Meal, u: int, d: Day) {
    m.userId == u && m.date == Some(d)
  }

  function MealTotals(m: Meal): Totals {
    Totals(m.calories, m.protein, m.fat, m.carbs)
  }

  /** What one row adds to the totals of (`u`, `d`). */
  function Contribution(m: Meal, u: int, d: Day): Totals {
    if Matches(m, u, d) then MealTotals(m) else Zero
  }

  /** The four sums over exactly the rows of user `u` dated `d`, in log order. */
  function DailyTotals(meals: seq<Meal>, u: int, d: Day): Totals {
    if |meals| == 0 then Zero else Contribution(meals[0], u, d).Plus(DailyTotals(meals[1..], u, d))
  }

  /** Totals of two logs one after the other add up. */
  lemma {:induction false} DailyTotalsConcat(a: seq<Meal>, b: seq<Meal>, u: int, d: Day)
    ensures DailyTotals(a + b, u, d) == DailyTotals(a, u, d).Plus(DailyTotals(b, u, d))
  {
    if |a| == 0 {
      assert a + b == b;
    } else {
      assert (a + b)[1..] == a[1..] + b;
      DailyTotalsConcat(a[1..], b, u, d);
    }
  }

  /** Additivity: appending a row raises the totals of (`u`, `d`) by that row's values when
      it is a row of `u` dated `d`, and leaves them as they were otherwise. */
  lemma DailyTotalsAppend(meals: seq<Meal>, m: Meal, u: int, d: Day)
    ensures DailyTotals(meals + [m], u, d) == DailyTotals(meals, u, d).Plus(Contribution(m, u, d))
    ensures Matches(m, u, d) ==> DailyTotals(meals + [m], u, d) == DailyTotals(meals, u, d).Plus(MealTotals(m))
    ensures !Matches(m, u, d) ==> DailyTotals(meals + [m], u, d) == DailyTotals(meals, u, d)
  {
    DailyTotalsConcat(meals, [m], u, d);
    DailyTotalsSingle(m, u, d);
  }

  lemma DailyTotalsSingle(m: Meal, u: int, d: Day)
    ensures DailyTotals([m], u, d) == Contribution(m, u, d)
  {
    assert [m][1..] == [];
  }

  /** With no row of `u` dated `d`, all four totals are 0. */
  lemma {:induction false} DailyTotalsWithoutRows(meals: seq<Meal>, u: int, d: Day)
    requires forall i :: 0 <= i < |meals| ==> !Matches(meals[i], u, d)
    ensures DailyTotals(meals, u, d) == Zero
  {
    if |meals| != 0 {
      assert !Matches(meals[0], u, d);
      DailyTotalsWithoutRows(meals[1..], u, d);
    }
  }

  /** Taking one row out of the log takes its contribution out of the totals. */
  lemma {:induction false} DailyTotalsWithout(b: seq<Meal>, k: int, u: int, d: Day)
    requires 0 <= k < |b|
    ensures DailyTotals(b, u, d) == Contribution(b[k], u, d).Plus(DailyTotals(b[..k] + b[k + 1..], u, d))
  {
    if k == 0 {
      assert b[..0] + b[1..] == b[1..];
    } else {
      var rest := b[1..];
      DailyTotalsWithout(rest, k - 1, u, d);
      var c := b[..k] + b[k + 1..];
      assert rest[k - 1] == b[k];
      assert |c| > 0 && c[0] == b[0];
      assert c[1..] == rest[..k - 1] + rest[k..];
      PlusSwap(Contribution(b[0], u, d), Contribution(b[k], u, d), DailyTotals(c[1..], u, d));
    }
  }

  lemma PlusSwap(x: Totals, y: Totals, z: Totals)
    ensures x.Plus(y.Plus(z)) == y.Plus(x.Plus(z))
  {
  }

  lemma MultisetWithout(a: seq<Meal>, b: seq<Meal>, k: int)
    requires |a| > 0 && 0 <= k < |b| && b[k] == a[0] && multiset(a) == multiset(b)
    ensures multiset(a[1..]) == multiset(b[..k] + b[k + 1..])
  {
    var x, p, q := a[0], b[..k], b[k + 1..];
    assert a == [x] + a[1..];
    assert b == p + [x] + q;
    calc {
      multiset(a[1..]);
      multiset(a) - multiset([x]);
      multiset(b) - multiset([x]);
      (multiset(p) + multiset([x]) + multiset(q)) - multiset([x]);
      multiset(p) + multiset(q);
      multiset(p + q);
    }
  }

  /** The totals do not depend on the order of the rows. */
  lemma {:induction false} DailyTotalsOrderFree(a: seq<Meal>, b: seq<Meal>, u: int, d: Day)
    requires multiset(a) == multiset(b)
    ensures DailyTotals(a, u, d) == DailyTotals(b, u, d)
    decreases |a|
  {
    if |a| == 0 {
      assert |b| == |multiset(b)| == 0;
    } else {
      assert a[0] in multiset(b);
      var k :| 0 <= k < |b| && b[k] == a[0];
      MultisetWithout(a, b, k);
      DailyTotalsOrderFree(a[1..], b[..k] + b[k + 1..], u, d);
      DailyTotalsWithout(b, k, u, d);
    }
  }

  /** Two meals of 500 and 700 kcal on the same day give 1200 kcal. */
  lemma DailyTotalsExample(u: int, d: Day)
    ensures DailyTotals([Meal(u, Some(d), "завтрак", 20, 10, 60, 500),
                         Meal(u, Some(d), "обед", 35, 25, 70, 700)], u, d)
            == Totals(1200, 55, 35, 130)
  {
    var m1 := Meal(u, Some(d), "завтрак", 20, 10, 60, 500);
    var m2 := Meal(u, Some(d), "обед", 35, 25, 70, 700);
    assert [m1, m2] == [m1] + [m2];
    DailyTotalsConcat([m1], [m2], u, d);
    DailyTotalsSingle(m1, u, d);
    DailyTotalsSingle(m2, u, d);
  }

  /** A row of `u` after `update_user_target`: new goal and targets, the rest kept. */
  function Retarget(row: UserRow, g: Goal): UserRow {
    row.(goal := Str(g.goal), targetCal := g.targetCal, pGoal := g.pGoal, fGoal := g.fGoal, cGoal := g.cGoal)
  }

  /** `update_user_target`, which app/services/csv_client.py calls but does not define: the
      goal and the four targets of every row of `u` are overwritten, nothing else changes. */
  function WithTarget(users: seq<UserRow>, u: int, g: Goal): (r: seq<UserRow>)
    ensures |r| == |users|
    ensures forall i :: 0 <= i < |users| ==> r[i].userId == users[i].userId
    ensures forall i :: 0 <= i < |users| && users[i].userId != u ==> r[i] == users[i]
  {
    seq(|users|, i requires 0 <= i < |users| =>
      if users[i].userId == u then Retarget(users[i], g) else users[i])
  }

  /** After the update, the row `get_user` finds is the row it found before, with the new
      goal and targets and the rest of the profile kept. */
  lemma {:induction false} GetUserAfterTarget(users: seq<UserRow>, u: int, g: Goal)
    ensures GetUser(WithTarget(users, u, g), u)
         == if UserExists(users, u) then Some(Retarget(GetUser(users, u).value, g)) else None
  {
    if |users| != 0 {
      var w := WithTarget(users, u, g);
      assert w[1..] == WithTarget(users[1..], u, g);
      GetUserAfterTarget(users[1..], u, g);
    }
  }

  /** The two CSV files as one store object. `AddUser`, `AddMeal` and `GetDailyTotals` stand
      for the `CSVClient` methods of app/services/csv_client.py. `SaveUsers`, `SaveMeals` and
      `UpdateUserTarget` stand for calls the handlers make to methods that class does not
      define; they are given the behaviour their callers evidently expect. */
  class Store {
    var users: seq<UserRow>
    var meals: seq<Meal>

    constructor (users: seq<UserRow>, meals: seq<Meal>)
      ensures this.users == users && this.meals == meals
    {
      this.users := users;
      this.meals := meals;
    }

    /** `add_user`: one row appended at the end. */
    method AddUser(row: UserRow)
      modifies this
      ensures users == old(users) + [row] && meals == old(meals)
    {
      users := users + [row];
    }

    /** `add_meal`: one row appended at the end. */
    method AddMeal(row: Meal)
      modifies this
      ensures meals == old(meals) + [row] && users == old(users)
    {
      meals := meals + [row];
    }

    /** `save_users(rows)`, as restart.py calls it: the users file rewritten with `rows`. */
    method SaveUsers(rows: seq<UserRow>)
      modifies this
      ensures users == rows && meals == old(meals)
    {
      users := rows;
    }

    /** `save_meals(rows)`, as restart.py and meals_delete.py call it: the meals file
        rewritten with `rows`. */
    method SaveMeals(rows: seq<Meal>)
      modifies this
      ensures meals == rows && users == old(users)
    {
      meals := rows;
    }

    /** `update_user_target`; `ioError` stands for a write that raises, which changes
        nothing and is reported as `ok == false`. */
    method UpdateUserTarget(u: int, g: Goal, ioError: bool) returns (ok: bool)
      modifies this
      ensures ok == !ioError
      ensures users == (if ok then WithTarget(old(users), u, g) else old(users))
      ensures meals == old(meals)
    {
      ok := !ioError;
      if ok {
        users := WithTarget(users, u, g);
      }
    }

    /** `get_daily_totals(user_id, for_date)`: one pass over the log, adding up the rows of
        the user on that day. */
    method GetDailyTotals(u: int, d: Day) returns (total: Totals)
      ensures total == DailyTotals(meals, u, d)
    {
      total := Zero;
      var i := 0;
      while i < |meals|
        invariant 0 <= i <= |meals|
        invariant total == DailyTotals(meals[..i], u, d)
      {
        var m := meals[i];
        if m.userId == u && m.date == Some(d) {
          total := Totals(total.calories + m.calories, total.protein + m.protein,
                          total.fat + m.fat, total.carbs + m.carbs);
        }
        assert meals[..i + 1] == meals[..i] + [m];
        DailyTotalsAppend(meals[..i], m, u, d);
        i := i + 1;
      }
      assert meals[..i] == meals;
    }
  }
}

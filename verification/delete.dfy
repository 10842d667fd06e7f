/** Deleting the caller's most recent meal (app/handlers/meals_delete.py): the command
    proposes the index of the caller's last row and puts it in the confirm button's data;
    the confirm press deletes the row at that index if it is still the caller's, and the
    caller's last row otherwise. */
module MealsDelete {
  import opened Values
  import opened Text
  import opened Tables

  /** The callback-data prefix of the confirm button. */
  const DeletePrefix: string := "confirm_delete:"

  /** The position of the caller's last row in the log (`user_indices[-1]`), `None` when
      the caller has no row. */
  function LastIndex(meals: seq<Meal>, u: int): (r: Option<nat>)
    ensures r.Some? ==> r.value < |meals| && meals[r.value].userId == u
    ensures r.Some? ==> forall j :: r.value < j < |meals| ==> meals[j].userId != u
    ensures r.None? <==> forall j :: 0 <= j < |meals| ==> meals[j].userId != u
    decreases |meals|
  {
    if |meals| == 0 then None
    else if meals[|meals| - 1].userId == u then Some(|meals| - 1)
    else LastIndex(meals[..|meals| - 1], u)
  }

  /** What `/delete_last_meal` shows. */
  datatype Proposal =
    | NothingToPropose
    | Propose(index: nat, meal: Meal, callbackData: string)

  function ProposeDelete(meals: seq<Meal>, u: int): Proposal {
    match LastIndex(meals, u)
    case None => NothingToPropose
    case Some(i) => Propose(i, meals[i], DeletePrefix + IntToDecimal(i))
  }

  /** What a confirm press does: refuse data whose index is not an integer, report that the
      caller has nothing to delete, or delete the row at an index. */
  datatype Resolution =
    | Malformed
    | NoMeal
    | Deleted(index: nat, meal: Meal)

  /** `suffix` is the callback data after `confirm_delete:`. */
  function ResolveConfirm(meals: seq<Meal>, u: int, suffix: string): Resolution {
    match ParseInt(suffix)
    case None => Malformed
    case Some(idx) =>
      if 0 <= idx < |meals| && meals[idx].userId == u then Deleted(idx, meals[idx])
      else
        match LastIndex(meals, u)
        case None => NoMeal
        case Some(i) => Deleted(i, meals[i])
  }

  /** The log without the row at `i`, every other row kept in order. */
  function RemoveAt(meals: seq<Meal>, i: nat): (r: seq<Meal>)
    requires i < |meals|
    ensures |r| == |meals| - 1
    ensures forall j :: 0 <= j < i ==> r[j] == meals[j]
    ensures forall j :: i <= j < |r| ==> r[j] == meals[j + 1]
  {
    meals[..i] + meals[i + 1..]
  }

  /** The log after a confirm press. */
  function AfterConfirm(meals: seq<Meal>, res: Resolution): seq<Meal>
    requires res.Deleted? ==> res.index < |meals|
  {
    if res.Deleted? then RemoveAt(meals, res.index) else meals
  }

  /** `/delete_last_meal`: reads the log, changes nothing. */
  method DeleteLastMeal(store: Store, u: int) returns (p: Proposal)
    ensures p == ProposeDelete(store.meals, u)
  {
    p := ProposeDelete(store.meals, u);
  }

  /** The `confirm_delete:` press; the router only delivers data with that prefix. */
  method ConfirmDelete(store: Store, u: int, data: string) returns (res: Resolution)
    requires StartsWith(data, DeletePrefix)
    modifies store
    ensures res == ResolveConfirm(old(store.meals), u, data[|DeletePrefix|..])
    ensures res.Deleted? ==> res.index < |old(store.meals)|
    ensures store.meals == AfterConfirm(old(store.meals), res)
    ensures store.users == old(store.users)
  {
    res := ResolveConfirm(store.meals, u, data[|DeletePrefix|..]);
    if res.Deleted? {
      DeletedIsCallers(store.meals, u, data[|DeletePrefix|..]);
      store.SaveMeals(RemoveAt(store.meals, res.index));
    }
  }

  /** The `cancel_delete` press only edits the message. */
  method CancelDelete(store: Store, u: int)
    ensures unchanged(store)
  {
  }

  // ---------------------------------------------------------------------------------
  // Properties

  /** Whatever the button data says, a press deletes a row of the caller, the one it names. */
  lemma DeletedIsCallers(meals: seq<Meal>, u: int, suffix: string)
    ensures var res := ResolveConfirm(meals, u, suffix);
      res.Deleted? ==> res.index < |meals| && meals[res.index] == res.meal && res.meal.userId == u
  {
  }

  /** Data whose index is not an integer deletes nothing. */
  lemma MalformedKeepsLog(meals: seq<Meal>, u: int, suffix: string)
    requires ParseInt(suffix).None?
    ensures ResolveConfirm(meals, u, suffix) == Malformed
    ensures AfterConfirm(meals, Malformed) == meals
  {
  }

  /** With a well-formed index, a press deletes nothing exactly when the caller has no row. */
  lemma NoMealIffNoRow(meals: seq<Meal>, u: int, suffix: string)
    requires ParseInt(suffix).Some?
    ensures ResolveConfirm(meals, u, suffix) == NoMeal <==> forall j :: 0 <= j < |meals| ==> meals[j].userId != u
  {
  }

  /** An index that no longer names a row of the caller (out of range, negative, or now
      another user's row) falls back to the caller's last row. */
  lemma StaleIndexFallsBack(meals: seq<Meal>, u: int, suffix: string, last: nat)
    requires ParseInt(suffix).Some?
    requires var idx := ParseInt(suffix).value; !(0 <= idx < |meals| && meals[idx].userId == u)
    requires LastIndex(meals, u) == Some(last)
    ensures ResolveConfirm(meals, u, suffix) == Deleted(last, meals[last])
  {
  }

  /** The data of a proposal, pressed on an unchanged log, deletes the proposed row. */
  lemma ProposeConfirmRoundTrip(meals: seq<Meal>, u: int)
    requires ProposeDelete(meals, u).Propose?
    ensures var p := ProposeDelete(meals, u);
      && StartsWith(p.callbackData, DeletePrefix)
      && ResolveConfirm(meals, u, p.callbackData[|DeletePrefix|..]) == Deleted(p.index, p.meal)
  {
    var p := ProposeDelete(meals, u);
    assert p.callbackData[|DeletePrefix|..] == IntToDecimal(p.index);
    ParseIntOfDecimal(p.index);
  }

  /** A proposal exists exactly when the caller has a row. */
  lemma ProposalIffRow(meals: seq<Meal>, u: int)
    ensures ProposeDelete(meals, u).Propose? <==> exists j :: 0 <= j < |meals| && meals[j].userId == u
  {
    if ProposeDelete(meals, u).NothingToPropose? {
      assert LastIndex(meals, u).None?;
    } else {
      var i := LastIndex(meals, u).value;
      assert meals[i].userId == u;
    }
  }

  /** Deleting a row takes exactly that row out of the log: as a multiset, and for any day
      no other user's totals change. */
  lemma RemoveAtTakesOneRow(meals: seq<Meal>, i: nat, other: int, d: Day)
    requires i < |meals| && meals[i].userId != other
    ensures multiset(RemoveAt(meals, i)) + multiset{meals[i]} == multiset(meals)
    ensures DailyTotals(RemoveAt(meals, i), other, d) == DailyTotals(meals, other, d)
  {
    var r := RemoveAt(meals, i);
    assert r == meals[..i] + meals[i + 1..];
    assert meals == meals[..i] + [meals[i]] + meals[i + 1..];
    assert multiset(meals) == multiset(meals[..i]) + multiset{meals[i]} + multiset(meals[i + 1..]);
    DailyTotalsWithout(meals, i, other, d);
    assert Contribution(meals[i], other, d) == Zero;
  }

  /** A confirm press never changes the day totals of any other user. */
  lemma ConfirmSparesOthers(meals: seq<Meal>, u: int, suffix: string, other: int, d: Day)
    requires other != u
    ensures var res := ResolveConfirm(meals, u, suffix);
      res.Deleted? ==> DailyTotals(RemoveAt(meals, res.index), other, d) == DailyTotals(meals, other, d)
  {
    var res := ResolveConfirm(meals, u, suffix);
    if res.Deleted? {
      RemoveAtTakesOneRow(meals, res.index, other, d);
    }
  }

  /** An index that still names a row of the caller deletes that row, even when the caller
      has logged newer meals since the proposal: the press deletes the row that was shown,
      which is then no longer the last. */
  lemma ProposalSurvivesAppend(meals: seq<Meal>, u: int, newer: Meal)
    requires ProposeDelete(meals, u).Propose?
    ensures var p := ProposeDelete(meals, u);
      ResolveConfirm(meals + [newer], u, p.callbackData[|DeletePrefix|..]) == Deleted(p.index, p.meal)
  {
    var p := ProposeDelete(meals, u);
    assert p.callbackData[|DeletePrefix|..] == IntToDecimal(p.index);
    ParseIntOfDecimal(p.index);
    assert (meals + [newer])[p.index] == meals[p.index];
  }

  /** Round trip: after a user logs a meal, the proposal names that row, and confirming it
      gives back the log as it was before. */
  lemma AppendThenDeleteRestores(meals: seq<Meal>, m: Meal)
    ensures ProposeDelete(meals + [m], m.userId) == Propose(|meals|, m, DeletePrefix + IntToDecimal(|meals|))
    ensures ResolveConfirm(meals + [m], m.userId, IntToDecimal(|meals|)) == Deleted(|meals|, m)
    ensures AfterConfirm(meals + [m], Deleted(|meals|, m)) == meals
  {
    ParseIntOfDecimal(|meals|);
    assert (meals + [m])[..|meals|] == meals;
  }
}

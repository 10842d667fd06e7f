/** Deleting a profile (app/handlers/restart.py): `/restart` asks for confirmation and
    clears the conversation; the confirm press drops every row of the caller from both
    tables. */
module Restart {
  import opened Values
  import opened Tables
  import opened Fsm
  import opened Oracle
  import opened Session

  /** The rows whose key is not `u`, in their original order. */
  function Without<T>(rows: seq<T>, key: T -> int, u: int): (r: seq<T>)
    ensures forall i :: 0 <= i < |r| ==> key(r[i]) != u
    ensures |r| <= |rows|
    decreases |rows|
  {
    if |rows| == 0 then []
    else (if key(rows[0]) == u then [] else [rows[0]]) + Without(rows[1..], key, u)
  }

  /** The rows whose key is `v`, in their original order. */
  function Only<T>(rows: seq<T>, key: T -> int, v: int): (r: seq<T>)
    ensures |r| <= |rows|
    ensures forall i :: 0 <= i < |r| ==> key(r[i]) == v
    ensures forall i :: 0 <= i < |rows| && key(rows[i]) == v ==> rows[i] in r
    decreases |rows|
  {
    if |rows| == 0 then []
    else (if key(rows[0]) == v then [rows[0]] else []) + Only(rows[1..], key, v)
  }

  function UserKey(row: UserRow): int { row.userId }
  function MealKey(m: Meal): int { m.userId }

  /** `/restart`: for a user with a row the conversation is cleared (the confirmation is
      only a message); otherwise nothing changes. */
  function RestartProfile(w: World, u: int): World {
    if UserExists(w.users, u) then w.(conv := Cleared) else w
  }

  /** The `confirm_restart` press: both tables lose the caller's rows; the conversation
      stays as it is. */
  function ConfirmRestart(w: World, u: int): World {
    w.(users := Without(w.users, UserKey, u), meals := Without(w.meals, MealKey, u))
  }

  method RestartProfileCommand(ctx: FsmContext, store: Store, llm: LanguageModel, u: int)
    modifies ctx
    ensures Snapshot(ctx, store, llm) == RestartProfile(old(Snapshot(ctx, store, llm)), u)
  {
    if !UserExists(store.users, u) {
      return;
    }
    ctx.Clear();
  }

  method ConfirmRestartCallback(ctx: FsmContext, store: Store, llm: LanguageModel, u: int)
    modifies store
    ensures Snapshot(ctx, store, llm) == ConfirmRestart(old(Snapshot(ctx, store, llm)), u)
  {
    store.SaveUsers(Without(store.users, UserKey, u));
    store.SaveMeals(Without(store.meals, MealKey, u));
  }

  /** The `cancel_restart` press only edits the message. */
  method CancelRestartCallback(ctx: FsmContext, store: Store, u: int)
    ensures unchanged(ctx, store)
  {
  }

  // ---------------------------------------------------------------------------------
  // Properties

  /** A row survives exactly when it was there and is not the caller's. */
  lemma {:induction false} WithoutMembers<T>(rows: seq<T>, key: T -> int, u: int, x: T)
    ensures x in Without(rows, key, u) <==> x in rows && key(x) != u
    decreases |rows|
  {
    if |rows| > 0 {
      WithoutMembers(rows[1..], key, u, x);
      assert rows == [rows[0]] + rows[1..];
    }
  }

  /** Every other key keeps all its rows, in the same order. */
  lemma {:induction false} WithoutKeepsOthers<T>(rows: seq<T>, key: T -> int, u: int, v: int)
    requires v != u
    ensures Only(Without(rows, key, u), key, v) == Only(rows, key, v)
    decreases |rows|
  {
    if |rows| > 0 {
      WithoutKeepsOthers(rows[1..], key, u, v);
      var head := if key(rows[0]) == u then [] else [rows[0]];
      OnlyConcat(head, Without(rows[1..], key, u), key, v);
    }
  }

  lemma {:induction false} OnlyConcat<T>(a: seq<T>, b: seq<T>, key: T -> int, v: int)
    ensures Only(a + b, key, v) == Only(a, key, v) + Only(b, key, v)
    decreases |a|
  {
    if |a| > 0 {
      assert (a + b)[1..] == a[1..] + b;
      OnlyConcat(a[1..], b, key, v);
    } else {
      assert a + b == b;
    }
  }

  /** Deleting twice deletes nothing more. */
  lemma {:induction false} WithoutIdempotent<T>(rows: seq<T>, key: T -> int, u: int)
    ensures Without(Without(rows, key, u), key, u) == Without(rows, key, u)
    decreases |rows|
  {
    var r := Without(rows, key, u);
    WithoutOfClean(r, key, u);
  }

  /** Rows none of which has the key are left as they are. */
  lemma {:induction false} WithoutOfClean<T>(rows: seq<T>, key: T -> int, u: int)
    requires forall i :: 0 <= i < |rows| ==> key(rows[i]) != u
    ensures Without(rows, key, u) == rows
    decreases |rows|
  {
    if |rows| > 0 {
      WithoutOfClean(rows[1..], key, u);
      assert rows == [rows[0]] + rows[1..];
    }
  }

  /** Every other user's row is found exactly as before. */
  lemma {:induction false} GetUserWithout(users: seq<UserRow>, u: int, v: int)
    requires v != u
    ensures GetUser(Without(users, UserKey, u), v) == GetUser(users, v)
    decreases |users|
  {
    if |users| > 0 {
      GetUserWithout(users[1..], u, v);
      var r := Without(users, UserKey, u);
      var rest := Without(users[1..], UserKey, u);
      if users[0].userId == u {
        assert r == rest;
        assert GetUser(users, v) == GetUser(users[1..], v);
      } else {
        assert r == [users[0]] + rest;
        assert r[0] == users[0] && r[1..] == rest;
        if users[0].userId != v {
          assert GetUser(r, v) == GetUser(rest, v);
          assert GetUser(users, v) == GetUser(users[1..], v);
        }
      }
    }
  }

  /** Every other user's day totals are as before. */
  lemma {:induction false} DailyTotalsWithoutUser(meals: seq<Meal>, u: int, v: int, d: Day)
    requires v != u
    ensures DailyTotals(Without(meals, MealKey, u), v, d) == DailyTotals(meals, v, d)
    decreases |meals|
  {
    if |meals| > 0 {
      DailyTotalsWithoutUser(meals[1..], u, v, d);
      var head := if meals[0].userId == u then [] else [meals[0]];
      DailyTotalsConcat(head, Without(meals[1..], MealKey, u), v, d);
      if meals[0].userId != u {
        DailyTotalsSingle(meals[0], v, d);
      }
    }
  }

  /** After the confirm press the caller is unregistered and has logged nothing, while every
      other user's profile and totals are as before. */
  lemma ConfirmRestartForgets(w: World, u: int, v: int, d: Day)
    requires v != u
    ensures var w' := ConfirmRestart(w, u);
      && !UserExists(w'.users, u)
      && DailyTotals(w'.meals, u, d) == Zero
      && GetUser(w'.users, v) == GetUser(w.users, v)
      && DailyTotals(w'.meals, v, d) == DailyTotals(w.meals, v, d)
      && w'.conv == w.conv
  {
    var w' := ConfirmRestart(w, u);
    DailyTotalsWithoutRows(w'.meals, u, d);
    GetUserWithout(w.users, u, v);
    DailyTotalsWithoutUser(w.meals, u, v, d);
  }

  /** Pressing confirm twice is the same as pressing it once. */
  lemma ConfirmRestartIdempotent(w: World, u: int)
    ensures ConfirmRestart(ConfirmRestart(w, u), u) == ConfirmRestart(w, u)
  {
    WithoutIdempotent(w.users, UserKey, u);
    WithoutIdempotent(w.meals, MealKey, u);
  }

  /** `/restart` clears the conversation exactly for a registered user. */
  lemma RestartClearsRegistered(w: World, u: int)
    ensures UserExists(w.users, u) ==> RestartProfile(w, u).conv == Cleared
    ensures !UserExists(w.users, u) ==> RestartProfile(w, u) == w
    ensures RestartProfile(w, u).users == w.users && RestartProfile(w, u).meals == w.meals
  {
  }
}

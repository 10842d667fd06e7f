/** The dispatcher of app/main.py: its own meal handler first, then the registration
    router (the only router it includes, app/main.py:22), whose handlers are tried in the
    order they are declared. The first handler whose filters match takes the update; an
    update no handler matches changes nothing. */
module Dispatch {
  import opened Values
  import opened Text
  import opened Tables
  import opened Fsm
  import opened Oracle
  import opened Session
  import opened Registration
  import opened MealIntake

  /** An update from the caller: a text message, a message without text (a photo, a
      sticker), or a button press with its callback data. `writeFails` says whether
      `update_user_target` raises if that press calls it. */
  datatype Event = Text(text: string) | NonText | Press(data: string, writeFails: bool)

  /** The meal handler's filters: no active state, and a non-empty text that is not a command. */
  predicate IsMealText(w: World, t: string) {
    w.conv.state == Idle && |t| > 0 && !StartsWith(t, "/")
  }

  /** One update, routed as the dispatcher routes it. */
  function Handle(w: World, u: int, e: Event, r: Replies): World {
    match e
    case Text(t) =>
      if IsMealText(w, t) then MealStep(w, u, t, r)
      else if t == "/start" then Start(w, u)
      else if w.conv.state == Collecting then Collect(w, Some(t), r)
      else if t == "/update_goal" then UpdateGoal(w, u)
      else if w.conv.state == ChooseMethod then ChooseMethodStep(w, t)
      else if w.conv.state == ManualInput then ManualInputStep(w, t)
      else if w.conv.state == AiRequest then AiRequestStep(w, u, t, r)
      else w
    case NonText =>
      // The meal handler and the two commands filter on text; the state handlers read
      // `message.text or ""`, and `collect_answers` stores `None`.
      if w.conv.state == Collecting then Collect(w, None, r)
      else if w.conv.state == ChooseMethod then ChooseMethodStep(w, "")
      else if w.conv.state == ManualInput then ManualInputStep(w, "")
      else if w.conv.state == AiRequest then AiRequestStep(w, u, "", r)
      else w
    case Press(d, writeFails) =>
      if d == "confirm_goal" then ConfirmGoalPress(w, u)
      else if d == "edit_goal" then EditGoalPress(w)
      else if d == "accept_goal" || d == "accept_manual_goal" then AcceptPress(w, u, writeFails)
      else if d == "cancel_goal" then CancelGoalPress(w)
      else w
  }

  /** A sequence of updates from the caller, in order. */
  function Run(w: World, u: int, events: seq<Event>, r: Replies): World
    decreases |events|
  {
    if |events| == 0 then w else Run(Handle(w, u, events[0], r), u, events[1..], r)
  }

  /** The same routing on the objects: each update is passed to the handler method. */
  method HandleUpdate(ctx: FsmContext, store: Store, llm: LanguageModel, u: int, e: Event, today: Day)
    modifies ctx, store, llm
    ensures Snapshot(ctx, store, llm) == Handle(old(Snapshot(ctx, store, llm)), u, e, llm.replies)
  {
    match e {
      case Text(t) =>
        if ctx.state == Idle && |t| > 0 && !StartsWith(t, "/") {
          var _ := AddMealHandler(ctx, store, llm, u, t, today);
        } else if t == "/start" {
          StartRegistration(ctx, store, llm, u);
        } else if ctx.state == Collecting {
          CollectAnswers(ctx, store, llm, Some(t));
        } else if t == "/update_goal" {
          UpdateGoalCommand(ctx, store, llm, u);
        } else if ctx.state == ChooseMethod {
          HandleGoalUpdateChoice(ctx, store, llm, t);
        } else if ctx.state == ManualInput {
          ManualGoalInput(ctx, store, llm, t);
        } else if ctx.state == AiRequest {
          HandleAiRequest(ctx, store, llm, u, t);
        }
      case NonText =>
        if ctx.state == Collecting {
          CollectAnswers(ctx, store, llm, None);
        } else if ctx.state == ChooseMethod {
          HandleGoalUpdateChoice(ctx, store, llm, "");
        } else if ctx.state == ManualInput {
          ManualGoalInput(ctx, store, llm, "");
        } else if ctx.state == AiRequest {
          HandleAiRequest(ctx, store, llm, u, "");
        }
      case Press(d, writeFails) =>
        if d == "confirm_goal" {
          ConfirmGoalCallback(ctx, store, llm, u);
        } else if d == "edit_goal" {
          EditGoalCallback(ctx, store, llm);
        } else if d == "accept_goal" || d == "accept_manual_goal" {
          AcceptGoalCallback(ctx, store, llm, u, writeFails);
        } else if d == "cancel_goal" {
          CancelGoalCallback(ctx, store, llm);
        }
    }
  }

  // ---------------------------------------------------------------------------------
  // Properties

  /** `Registration.set_macros` is never entered: no update leads into it. */
  lemma NeverSetMacros(w: World, u: int, e: Event, r: Replies)
    requires w.conv.state != SetMacros
    ensures Handle(w, u, e, r).conv.state != SetMacros
  {
    match e
    case Text(_) =>
    case NonText =>
    case Press(_, _) =>
  }

  lemma {:induction false} RunNeverSetMacros(w: World, u: int, events: seq<Event>, r: Replies)
    requires w.conv.state != SetMacros
    ensures Run(w, u, events, r).conv.state != SetMacros
    decreases |events|
  {
    if |events| > 0 {
      NeverSetMacros(w, u, events[0], r);
      RunNeverSetMacros(Handle(w, u, events[0], r), u, events[1..], r);
    }
  }

  /** Only the meal handler writes to the meals log, and only with no flow active and a
      text that is not a command. */
  lemma MealsChangeOnlyByMealText(w: World, u: int, e: Event, r: Replies)
    requires Handle(w, u, e, r).meals != w.meals
    ensures e.Text? && IsMealText(w, e.text)
  {
    match e
    case Text(_) =>
    case NonText =>
    case Press(_, _) =>
  }

  /** No text message writes to the users table; only the `confirm_goal` and the accept
      presses do. */
  lemma UsersChangeOnlyByPress(w: World, u: int, e: Event, r: Replies)
    requires Handle(w, u, e, r).users != w.users
    ensures e.Press? && (e.data == "confirm_goal" || e.data == "accept_goal" || e.data == "accept_manual_goal")
  {
    match e
    case Text(_) =>
    case NonText =>
    case Press(_, _) =>
  }

  /** `cancel_goal`, in any state, ends the flow and writes nothing. */
  lemma CancelGoalAlwaysClears(w: World, u: int, writeFails: bool, r: Replies)
    ensures var w' := Handle(w, u, Press("cancel_goal", writeFails), r);
      w'.conv == Cleared && w'.users == w.users && w'.meals == w.meals && w'.calls == w.calls
  {
  }

  lemma UserExistsAfterAppend(users: seq<UserRow>, row: UserRow, u: int)
    requires UserExists(users, u)
    ensures UserExists(users + [row], u)
  {
    var i :| 0 <= i < |users| && users[i].userId == u;
    assert (users + [row])[i] == users[i];
  }

  /** The goal-update menu is only ever open for a registered user. */
  predicate MenuInvariant(w: World, u: int) {
    w.conv.state == ChooseMethod ==> UserExists(w.users, u)
  }

  lemma MenuInvariantKept(w: World, u: int, e: Event, r: Replies)
    requires MenuInvariant(w, u)
    ensures MenuInvariant(Handle(w, u, e, r), u)
  {
    match e
    case Text(_) =>
    case NonText =>
    case Press(d, _) =>
      if d == "confirm_goal" {
        var p := w.conv.data.profile.GetOr(map[]);
        if |p| != 0 && w.conv.state == ChooseMethod {
          UserExistsAfterAppend(w.users, ProfileRow(u, p), u);
        }
      }
  }

  /** Starting with the menu closed or open for a registered user, no sequence of updates
      opens it for an unregistered one. */
  lemma {:induction false} MenuOnlyForRegistered(w: World, u: int, events: seq<Event>, r: Replies)
    requires MenuInvariant(w, u)
    ensures MenuInvariant(Run(w, u, events, r), u)
    decreases |events|
  {
    if |events| > 0 {
      MenuInvariantKept(w, u, events[0], r);
      MenuOnlyForRegistered(Handle(w, u, events[0], r), u, events[1..], r);
    }
  }

  /** `update_user_target` for a user without a row changes no row. */
  lemma WithTargetAbsent(users: seq<UserRow>, u: int, g: Goal)
    requires !UserExists(users, u)
    ensures WithTarget(users, u, g) == users
  {
  }

  /** A user without a row stays without one, and the users table unchanged, on any update
      except `confirm_goal`: the accept presses only update existing rows. */
  lemma UnregisteredStepKeepsUsers(w: World, u: int, e: Event, r: Replies)
    requires !UserExists(w.users, u)
    requires !(e.Press? && e.data == "confirm_goal")
    ensures Handle(w, u, e, r).users == w.users
  {
    match e
    case Text(_) =>
    case NonText =>
    case Press(d, _) =>
      if w.conv.data.pendingGoal.Some? {
        WithTargetAbsent(w.users, u, w.conv.data.pendingGoal.value);
      }
  }

  predicate NoConfirmPress(events: seq<Event>) {
    forall i :: 0 <= i < |events| ==> !(events[i].Press? && events[i].data == "confirm_goal")
  }

  lemma {:induction false} UnregisteredRunKeepsUsers(w: World, u: int, events: seq<Event>, r: Replies)
    requires !UserExists(w.users, u)
    requires NoConfirmPress(events)
    ensures Run(w, u, events, r).users == w.users
    decreases |events|
  {
    if |events| > 0 {
      UnregisteredStepKeepsUsers(w, u, events[0], r);
      assert NoConfirmPress(events[1..]) by {
        forall i | 0 <= i < |events[1..]|
          ensures !(events[1..][i].Press? && events[1..][i].data == "confirm_goal")
        {
          assert events[1..][i] == events[i + 1];
        }
      }
      UnregisteredRunKeepsUsers(Handle(w, u, events[0], r), u, events[1..], r);
    }
  }

  /** Running two sequences one after the other is running their concatenation. */
  lemma {:induction false} RunConcat(w: World, u: int, a: seq<Event>, b: seq<Event>, r: Replies)
    ensures Run(w, u, a + b, r) == Run(Run(w, u, a, r), u, b, r)
    decreases |a|
  {
    if |a| > 0 {
      assert (a + b)[0] == a[0];
      assert (a + b)[1..] == a[1..] + b;
      RunConcat(Handle(w, u, a[0], r), u, a[1..], b, r);
    } else {
      assert a + b == b;
    }
  }

  /** A goal text is neither a meal nor a command: it begins with a digit or `-`. */
  lemma GoalTextIsNoCommand(w: World, cal: int, p: int, f: int, c: int)
    ensures var t := ManualGoalText(cal, p, f, c);
      !StartsWith(t, "/") && t != "/start" && t != "/update_goal"
  {
    var t := ManualGoalText(cal, p, f, c);
    var a := IntToDecimal(cal);
    assert t[0] == a[0];
    DecimalChars(cal);
    assert t[0] != '/' by { assert IsGoalTextChar(a[0]) && a[0] != '/' by { NoSlashInDecimal(cal); } }
    assert "/start"[0] == '/' && "/update_goal"[0] == '/';
  }

  /** Registration through the edit button offered with the derived goal: `/start`, six
      messages, "Изменить", a goal typed as `cal/p/f/c` and its accept button. The goal is
      staged as the user typed it, but the accept handler only updates existing rows, so
      the user ends the flow without a row and the users table is as it was. */
  lemma EditAtRegistrationNeverRegisters(w: World, u: int, msgs: seq<Answer>, cal: int, p: int, f: int, c: int,
                                         writeFails: bool, r: Replies)
    requires !UserExists(w.users, u)
    requires |msgs| == |Questions|
    requires forall i :: 0 <= i < |msgs| ==> msgs[i] != Some("/start")
    requires |r.derive(DeriverInput(msgs))| != 0
    ensures var w1 := Run(w, u, [Text("/start")] + Messages(msgs), r);
      var w2 := Handle(Handle(w1, u, Press("edit_goal", false), r), u, Text(ManualGoalText(cal, p, f, c)), r);
      var w3 := Run(w, u, [Text("/start")] + Messages(msgs)
                          + [Press("edit_goal", false), Text(ManualGoalText(cal, p, f, c)), Press("accept_manual_goal", writeFails)], r);
      && w1.conv.state == ConfirmGoal
      && w2.conv.state == ConfirmNewGoal
      && w2.conv.data.pendingGoal == Some(Goal(ManualGoalName, Int(cal), Int(p), Int(f), Int(c)))
      && w3.users == w.users && !UserExists(w3.users, u) && w3.conv == Cleared
  {
    var head := [Text("/start")] + Messages(msgs);
    var t := ManualGoalText(cal, p, f, c);
    var e1, e2, e3 := Press("edit_goal", false), Text(t), Press("accept_manual_goal", writeFails);
    RegistrationDerivesOnce(w, u, msgs, r);
    var w1 := Run(w, u, head, r);
    EditThenGoal(w1, u, cal, p, f, c, r);
    RunConcat(w, u, head, [e1, e2, e3], r);
    RunThree(w1, u, e1, e2, e3, r);
    var w2 := Handle(Handle(w1, u, e1, r), u, e2, r);
    WithTargetAbsent(w.users, u, w2.conv.data.pendingGoal.value);
  }

  /** The edit button, then a goal text: the goal is staged and no table is written. */
  lemma EditThenGoal(w: World, u: int, cal: int, p: int, f: int, c: int, r: Replies)
    ensures var w2 := Handle(Handle(w, u, Press("edit_goal", false), r), u, Text(ManualGoalText(cal, p, f, c)), r);
      && w2.users == w.users
      && w2.conv.state == ConfirmNewGoal
      && w2.conv.data.pendingGoal == Some(Goal(ManualGoalName, Int(cal), Int(p), Int(f), Int(c)))
  {
    var we := Handle(w, u, Press("edit_goal", false), r);
    assert we == EditGoalPress(w);
    GoalTextIsNoCommand(we, cal, p, f, c);
    HandleInManualInput(we, u, ManualGoalText(cal, p, f, c), r);
    ManualInputStages(we, cal, p, f, c);
  }

  /** In the manual input every text but the two commands goes to `manual_goal_input`. */
  lemma HandleInManualInput(w: World, u: int, t: string, r: Replies)
    requires w.conv.state == ManualInput && t != "/start" && t != "/update_goal"
    ensures Handle(w, u, Text(t), r) == ManualInputStep(w, t)
  {
  }

  lemma RunThree(w: World, u: int, e1: Event, e2: Event, e3: Event, r: Replies)
    ensures Run(w, u, [e1, e2, e3], r) == Handle(Handle(Handle(w, u, e1, r), u, e2, r), u, e3, r)
  {
    var w1 := Handle(w, u, e1, r);
    var w2 := Handle(w1, u, e2, r);
    assert [e1, e2, e3][1..] == [e2, e3];
    assert [e2, e3][1..] == [e3];
    assert [e3][1..] == [];
    assert Run(w, u, [e1, e2, e3], r) == Run(w1, u, [e2, e3], r);
    assert Run(w1, u, [e2, e3], r) == Run(w2, u, [e3], r);
    assert Run(w2, u, [e3], r) == Run(Handle(w2, u, e3, r), u, [], r);
  }

  /** The updates of a sequence of messages: a text, or a message without text. */
  function Messages(msgs: seq<Answer>): (r: seq<Event>)
    ensures |r| == |msgs|
    ensures forall i :: 0 <= i < |msgs| ==> (r[i].Text? <==> msgs[i].Some?)
  {
    seq(|msgs|, i requires 0 <= i < |msgs| => match msgs[i] case Some(t) => Text(t) case None => NonText)
  }

  /** While collecting, every message except `/start` goes to `collect_answers`, a command
      and a message without text included. */
  lemma {:induction false} RunWhileCollecting(w: World, u: int, texts: seq<Answer>, r: Replies, k: int)
    requires w.conv.state == Collecting && w.conv.data.current == Some(k)
    requires 0 <= k && k + |texts| <= |Questions|
    requires forall i :: 0 <= i < |texts| ==> texts[i] != Some("/start")
    ensures Run(w, u, Messages(texts), r) == CollectAll(w, texts, r)
    decreases |texts|
  {
    if |texts| > 0 {
      var es := Messages(texts);
      assert es[1..] == Messages(texts[1..]);
      var w1 := Collect(w, texts[0], r);
      assert Handle(w, u, es[0], r) == w1;
      if k + 1 < |Questions| {
        RunWhileCollecting(w1, u, texts[1..], r, k + 1);
      } else {
        assert |texts[1..]| == 0;
      }
    }
  }

  /** `/start` by a new user followed by six messages that are not `/start`: the deriver
      is asked exactly once, with the six question blocks, and nothing is written. */
  lemma RegistrationDerivesOnce(w: World, u: int, texts: seq<Answer>, r: Replies)
    requires !UserExists(w.users, u)
    requires |texts| == |Questions|
    requires forall i :: 0 <= i < |texts| ==> texts[i] != Some("/start")
    ensures var w' := Run(w, u, [Text("/start")] + Messages(texts), r);
      var profile := r.derive(DeriverInput(texts));
      && w'.calls == w.calls + [DeriveCall(DeriverInput(texts))]
      && w'.users == w.users && w'.meals == w.meals
      && (|profile| == 0 ==> w'.conv == Cleared)
      && (|profile| != 0 ==> w'.conv.state == ConfirmGoal && w'.conv.data.profile == Some(profile))
  {
    var events := [Text("/start")] + Messages(texts);
    assert events[0] == Text("/start");
    assert events[1..] == Messages(texts);
    assert !IsMealText(w, "/start") by {
      assert StartsWith("/start", "/");
    }
    var w0 := Start(w, u);
    assert Handle(w, u, events[0], r) == w0;
    RunWhileCollecting(w0, u, texts, r, 0);
    SixAnswersDeriveOnce(w, u, texts, r);
  }

  /** In the assistant input a message without text is sent to the advisor as an empty
      request: only the cancel test reads the text, and `""` is no cancel. */
  lemma NonTextInAssistantAsksAdvisor(w: World, u: int, r: Replies)
    requires w.conv.state == AiRequest
    ensures Handle(w, u, NonText, r).calls == w.calls + [AdviseCall(u, "")]
  {
    assert !Contains(Lower(""), "отмена");
  }

  /** While collecting, a message without text is an answer: `None` is recorded and the
      next question follows. */
  lemma NonTextCountsAsAnswer(w: World, u: int, r: Replies, answers: seq<Answer>, k: nat)
    requires w.conv.state == Collecting && w.conv.data.current == Some(k)
    requires w.conv.data.answers == Some(answers)
    requires k + 1 < |Questions|
    ensures var w' := Handle(w, u, NonText, r);
      w'.conv.state == Collecting && w'.conv.data.answers == Some(answers + [None])
      && w'.conv.data.current == Some(k + 1) && w'.calls == w.calls
  {
  }

  /** Outside those four states a message without text is ignored. */
  lemma NonTextElsewhereIgnored(w: World, u: int, r: Replies)
    requires w.conv.state !in {Collecting, ChooseMethod, ManualInput, AiRequest}
    ensures Handle(w, u, NonText, r) == w
  {
  }

  /** On the choice panel and in the manual input a message without text changes nothing. */
  lemma NonTextOnPanelsChangesNothing(w: World, u: int, r: Replies)
    requires w.conv.state == ChooseMethod || w.conv.state == ManualInput
    ensures Handle(w, u, NonText, r) == w
  {
    assert !Contains(Lower(Strip("")), "отмена") && !Contains(Lower(Strip("")), "вручную");
    assert !Contains(Lower(Strip("")), "ассистент") && !Contains(Lower(Strip("")), "ai");
  }
}

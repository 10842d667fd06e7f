/** Registration and goal update (app/handlers/registration.py). Each handler is a step
    function on `World` and a method on the objects that takes exactly that step. */
module Registration {
  import opened Values
  import opened Text
  import opened Tables
  import opened Fsm
  import opened Oracle
  import opened Session

  /** `questions`, in the order they are asked. */
  const Questions: seq<string> := [
    "Сколько тебе лет?",
    "Какого ты пола?",
    "Какой у тебя рост и вес?",
    "Опиши свой уровень активности в течение дня. Как часто и каким видом спорта ты занимаешься?",
    "Что ты хочешь достичь в первую очередь? Цель по весу?",
    "За какой срок ты хочешь прийти к результату?"
  ]

  /** An answer as `collect_answers` stores it: `message.text`, which is `None` for a
      message without text (a photo, a sticker). */
  type Answer = Option<string>

  /** `f"{a}"`: the text, or `"None"` for a message without text. */
  function AnswerText(a: Answer): string {
    match a
    case Some(t) => t
    case None => "None"
  }

  /** `f"{i+1}. {q}\n{a}"`. */
  function AnswerBlock(i: nat, q: string, a: Answer): string {
    IntToDecimal(i + 1) + ". " + q + "\n" + AnswerText(a)
  }

  /** The blocks of `zip(questions, answers)`: as many as the shorter of the two. */
  function AnswerBlocks(answers: seq<Answer>): seq<string> {
    var n := if |answers| < |Questions| then |answers| else |Questions|;
    seq(n, i requires 0 <= i < n => AnswerBlock(i, Questions[i], answers[i]))
  }

  /** The text handed to the goal deriver. */
  function DeriverInput(answers: seq<Answer>): string {
    Join("\n", AnswerBlocks(answers))
  }

  /** `profile.get(key, "")`. */
  function Get(p: Profile, key: string): Field {
    if key in p then p[key] else Str("")
  }

  /** The users row `add_user_profile` writes for a profile. */
  function ProfileRow(u: int, p: Profile): UserRow {
    UserRow(u, Get(p, "age"), Get(p, "sex"), Get(p, "height"), Get(p, "weight"), Get(p, "activity"),
      Get(p, "goal"), Get(p, "target_cal"), Get(p, "p_goal"), Get(p, "f_goal"), Get(p, "c_goal"))
  }

  /** The keys the confirmation text reads with `profile[...]`; a missing one raises. */
  predicate HasDisplayKeys(p: Profile) {
    "goal" in p && "target_cal" in p && "p_goal" in p && "f_goal" in p && "c_goal" in p
  }

  /** A users row as the dictionary `get_user` returns. */
  function RowProfile(row: UserRow): Profile {
    map["user_id" := Int(row.userId), "age" := row.age, "sex" := row.sex, "height" := row.height,
        "weight" := row.weight, "activity" := row.activity, "goal" := row.goal,
        "target_cal" := row.targetCal, "p_goal" := row.pGoal, "f_goal" := row.fGoal, "c_goal" := row.cGoal]
  }

  // ---------------------------------------------------------------------------------
  // Step functions

  /** `start_registration`. */
  function Start(w: World, u: int): World {
    if UserExists(w.users, u) then w.(conv := Cleared)
    else w.(conv := Conv(Collecting, w.conv.data.(answers := Some([]), current := Some(0))))
  }

  /** `collect_answers`: the answer is recorded; after the last question the deriver is
      asked once and its profile is staged, or the flow ends when it is empty. */
  function Collect(w: World, text: Answer, r: Replies): World {
    var answers := w.conv.data.answers.GetOr([]) + [text];
    var current := w.conv.data.current.GetOr(0) + 1;
    var data := w.conv.data.(answers := Some(answers), current := Some(current));
    if current < |Questions| then w.(conv := Conv(w.conv.state, data))
    else Derive(w, data, answers, r)
  }

  /** The end of `collect_answers`: the deriver is asked once with the answers' blocks; an
      empty profile ends the flow, and a non-empty one is staged for confirmation. */
  function Derive(w: World, data: FsmData, answers: seq<Answer>, r: Replies): World {
    var input := DeriverInput(answers);
    var profile := r.derive(input);
    var w1 := w.(calls := w.calls + [DeriveCall(input)]);
    if |profile| == 0 then w1.(conv := Cleared)
    else w1.(conv := Conv(ConfirmGoal, data.(profile := Some(profile))))
  }

  /** `confirm_goal_callback`. The row is written before the confirmation text is built;
      building it raises when a display key is missing, and then the state is not cleared. */
  function ConfirmGoalPress(w: World, u: int): World {
    var p := w.conv.data.profile.GetOr(map[]);
    if |p| == 0 then w
    else w.(users := w.users + [ProfileRow(u, p)], conv := if HasDisplayKeys(p) then Cleared else w.conv)
  }

  /** `edit_goal_callback`. */
  function EditGoalPress(w: World): World {
    w.(conv := w.conv.(state := ManualInput))
  }

  /** `update_goal`. */
  function UpdateGoal(w: World, u: int): World {
    match GetUser(w.users, u)
    case None => w
    case Some(row) => w.(conv := Conv(ChooseMethod, w.conv.data.(profile := Some(RowProfile(row)))))
  }

  /** The answer on the choice panel, classified in the order the handler checks it. */
  datatype Choice = CancelChoice | Manual | Assistant | Unrecognised

  predicate IsChoiceCancel(choice: string) {
    Contains(choice, "отмена") || choice == "❌"
  }

  function ClassifyChoice(text: string): Choice {
    var choice := Lower(Strip(text));
    if IsChoiceCancel(choice) then CancelChoice
    else if Contains(choice, "вручную") then Manual
    else if Contains(choice, "ассистент") || Contains(choice, "ai") then Assistant
    else Unrecognised
  }

  /** `handle_goal_update_choice`. */
  function ChooseMethodStep(w: World, text: string): World {
    match ClassifyChoice(text)
    case CancelChoice => w.(conv := Cleared)
    case Manual => w.(conv := w.conv.(state := ManualInput))
    case Assistant => w.(conv := w.conv.(state := AiRequest))
    case Unrecognised => w
  }

  /** The cancel test of the manual and the assistant input, on the stripped text. */
  predicate IsTextCancel(t: string) {
    t == "❌" || Contains(Lower(t), "отмена")
  }

  const ManualGoalName: string := "пользовательская цель"

  function StripAll(parts: seq<string>): (r: seq<string>)
    ensures |r| == |parts|
  {
    seq(|parts|, i requires 0 <= i < |parts| => Strip(parts[i]))
  }

  /** The parse of `manual_goal_input`: four integers separated by `/`. A text with any
      other number of separators is a format error, and a parsed goal is the user's own
      with four integer targets. */
  function ParseManualGoal(text: string): (r: Option<Goal>)
    ensures r.Some? ==> Count(text, '/') == 3
    ensures r.Some? ==> (r.value.goal == ManualGoalName
      && r.value.targetCal.Int? && r.value.pGoal.Int? && r.value.fGoal.Int? && r.value.cGoal.Int?)
  {
    SplitLength(text, '/');
    var parts := StripAll(Split(text, '/'));
    if |parts| != 4 then None
    else
      match (ParseInt(parts[0]), ParseInt(parts[1]), ParseInt(parts[2]), ParseInt(parts[3]))
      case (Some(cal), Some(p), Some(f), Some(c)) => Some(Goal(ManualGoalName, Int(cal), Int(p), Int(f), Int(c)))
      case _ => None
  }

  /** `manual_goal_input`. */
  function ManualInputStep(w: World, text: string): World {
    var t := Strip(text);
    if IsTextCancel(t) then w.(conv := Cleared)
    else
      match ParseManualGoal(t)
      case None => w
      case Some(g) => w.(conv := Conv(ConfirmNewGoal, w.conv.data.(pendingGoal := Some(g))))
  }

  /** One target of the advisor's goal: 0 when absent, the number when numeric, and the
      value as given otherwise (the `except` branch keeps the raw values). */
  function NormalizeNum(v: RawNum): Field {
    match v
    case Missing => Int(0)
    case Number(n) => Int(n)
    case Other(t) => Str(t)
  }

  /** A normalised target is the number `safe_int` gives for the raw value, or that value
      kept as text exactly when `int(float(...))` raised on it. */
  predicate NormalizedAs(raw: RawNum, f: Field) {
    (f.Int? ==> f.n == SafeInt(raw, 0)) && (f.Str? <==> raw.Other?)
  }

  function Normalize(g: RawGoal): (r: Goal)
    ensures NormalizedAs(g.targetCal, r.targetCal) && NormalizedAs(g.pGoal, r.pGoal)
    ensures NormalizedAs(g.fGoal, r.fGoal) && NormalizedAs(g.cGoal, r.cGoal)
    ensures g.goal.Some? ==> r.goal == g.goal.value
  {
    Goal(g.goal.GetOr("не указано"), NormalizeNum(g.targetCal), NormalizeNum(g.pGoal),
      NormalizeNum(g.fGoal), NormalizeNum(g.cGoal))
  }

  /** `handle_ai_request`. */
  function AiRequestStep(w: World, u: int, text: string, r: Replies): World {
    var t := Strip(text);
    if IsTextCancel(t) then w.(conv := Cleared)
    else
      var w1 := w.(calls := w.calls + [AdviseCall(u, t)]);
      match r.advise(u, t)
      case AdvisorError(_) => w1.(conv := Cleared)
      case Advice(_, None) => w1.(conv := Cleared)
      case Advice(_, Some(g)) => w1.(conv := Conv(ConfirmNewGoal, w.conv.data.(pendingGoal := Some(Normalize(g)))))
  }

  /** `accept_goal_callback`; `ioError` says whether `update_user_target` raises. */
  function AcceptPress(w: World, u: int, ioError: bool): World {
    match w.conv.data.pendingGoal
    case None => w.(conv := Cleared)
    case Some(g) => w.(users := if ioError then w.users else WithTarget(w.users, u, g), conv := Cleared)
  }

  /** `cancel_goal_callback`. */
  function CancelGoalPress(w: World): World {
    w.(conv := Cleared)
  }

  // ---------------------------------------------------------------------------------
  // Handlers

  method StartRegistration(ctx: FsmContext, store: Store, llm: LanguageModel, u: int)
    modifies ctx
    ensures Snapshot(ctx, store, llm) == Start(old(Snapshot(ctx, store, llm)), u)
  {
    if UserExists(store.users, u) {
      ctx.Clear();
      return;
    }
    ctx.SetState(Collecting);
    ctx.UpdateAnswers([], 0);
  }

  method CollectAnswers(ctx: FsmContext, store: Store, llm: LanguageModel, text: Answer)
    modifies ctx, llm
    ensures Snapshot(ctx, store, llm) == Collect(old(Snapshot(ctx, store, llm)), text, llm.replies)
  {
    ghost var w0 := Snapshot(ctx, store, llm);
    var answers := ctx.data.answers.GetOr([]);
    var current := ctx.data.current.GetOr(0);
    answers := answers + [text];
    current := current + 1;
    ctx.UpdateAnswers(answers, current);
    if current < |Questions| {
      assert Snapshot(ctx, store, llm) == w0.(conv := Conv(w0.conv.state, ctx.data));
      return;
    }
    DeriveProfile(ctx, store, llm, answers);
  }

  /** The deriver call at the end of `collect_answers`, on the answers just stored. */
  method DeriveProfile(ctx: FsmContext, store: Store, llm: LanguageModel, answers: seq<Answer>)
    modifies ctx, llm
    ensures Snapshot(ctx, store, llm)
      == Derive(old(Snapshot(ctx, store, llm)), old(ctx.data), answers, llm.replies)
  {
    var answersText := DeriverInput(answers);
    var profile := llm.GetUserGoal(answersText);
    if |profile| == 0 {
      ctx.Clear();
      return;
    }
    ctx.UpdateProfile(profile);
    ctx.SetState(ConfirmGoal);
  }

  method ConfirmGoalCallback(ctx: FsmContext, store: Store, llm: LanguageModel, u: int)
    modifies ctx, store
    ensures Snapshot(ctx, store, llm) == ConfirmGoalPress(old(Snapshot(ctx, store, llm)), u)
  {
    var profile := ctx.data.profile.GetOr(map[]);
    if |profile| > 0 {
      store.AddUser(ProfileRow(u, profile));
      if HasDisplayKeys(profile) {
        ctx.Clear();
      }
    }
  }

  method EditGoalCallback(ctx: FsmContext, store: Store, llm: LanguageModel)
    modifies ctx
    ensures Snapshot(ctx, store, llm) == EditGoalPress(old(Snapshot(ctx, store, llm)))
  {
    ctx.SetState(ManualInput);
  }

  method UpdateGoalCommand(ctx: FsmContext, store: Store, llm: LanguageModel, u: int)
    modifies ctx
    ensures Snapshot(ctx, store, llm) == UpdateGoal(old(Snapshot(ctx, store, llm)), u)
  {
    var user := GetUser(store.users, u);
    if user.None? {
      return;
    }
    ctx.UpdateProfile(RowProfile(user.value));
    ctx.SetState(ChooseMethod);
  }

  method HandleGoalUpdateChoice(ctx: FsmContext, store: Store, llm: LanguageModel, text: string)
    modifies ctx
    ensures Snapshot(ctx, store, llm) == ChooseMethodStep(old(Snapshot(ctx, store, llm)), text)
  {
    var choice := Lower(Strip(text));
    if Contains(choice, "отмена") || choice == "❌" {
      ctx.Clear();
      return;
    }
    if Contains(choice, "вручную") {
      ctx.SetState(ManualInput);
      return;
    }
    if Contains(choice, "ассистент") || Contains(choice, "ai") {
      ctx.SetState(AiRequest);
      return;
    }
  }

  method ManualGoalInput(ctx: FsmContext, store: Store, llm: LanguageModel, text: string)
    modifies ctx
    ensures Snapshot(ctx, store, llm) == ManualInputStep(old(Snapshot(ctx, store, llm)), text)
  {
    var t := Strip(text);
    if t == "❌" || Contains(Lower(t), "отмена") {
      ctx.Clear();
      return;
    }
    var goal := ParseManualGoal(t);
    if goal.None? {
      return;
    }
    ctx.UpdatePendingGoal(goal.value);
    ctx.SetState(ConfirmNewGoal);
  }

  method HandleAiRequest(ctx: FsmContext, store: Store, llm: LanguageModel, u: int, text: string)
    modifies ctx, llm
    ensures Snapshot(ctx, store, llm) == AiRequestStep(old(Snapshot(ctx, store, llm)), u, text, llm.replies)
  {
    var request := Strip(text);
    if request == "❌" || Contains(Lower(request), "отмена") {
      ctx.Clear();
      return;
    }
    var result := llm.AiAssistantFeedback(u, request);
    if result.AdvisorError? {
      ctx.Clear();
      return;
    }
    if result.newGoal.None? {
      ctx.Clear();
      return;
    }
    ctx.UpdatePendingGoal(Normalize(result.newGoal.value));
    ctx.SetState(ConfirmNewGoal);
  }

  method AcceptGoalCallback(ctx: FsmContext, store: Store, llm: LanguageModel, u: int, ioError: bool)
    modifies ctx, store
    ensures Snapshot(ctx, store, llm) == AcceptPress(old(Snapshot(ctx, store, llm)), u, ioError)
  {
    var g := ctx.data.pendingGoal;
    if g.None? {
      ctx.Clear();
      return;
    }
    var _ := store.UpdateUserTarget(u, g.value, ioError);
    ctx.Clear();
  }

  method CancelGoalCallback(ctx: FsmContext, store: Store, llm: LanguageModel)
    modifies ctx
    ensures Snapshot(ctx, store, llm) == CancelGoalPress(old(Snapshot(ctx, store, llm)))
  {
    ctx.Clear();
  }

  // ---------------------------------------------------------------------------------
  // Properties

  /** `collect_answers` applied to each message in turn. */
  function CollectAll(w: World, texts: seq<Answer>, r: Replies): World
    decreases |texts|
  {
    if |texts| == 0 then w else CollectAll(Collect(w, texts[0], r), texts[1..], r)
  }

  /** Before the last question, each answer is appended to `answers`, `current` goes up by
      one, the state stays and nothing else changes. */
  lemma {:induction false} CollectBeforeLast(w: World, texts: seq<Answer>, r: Replies, answers: seq<Answer>)
    requires w.conv.data.answers == Some(answers) && w.conv.data.current == Some(|answers|)
    requires |answers| + |texts| < |Questions|
    ensures var w' := CollectAll(w, texts, r);
      && w'.conv.state == w.conv.state
      && w'.conv.data == w.conv.data.(answers := Some(answers + texts), current := Some(|answers| + |texts|))
      && w'.users == w.users && w'.meals == w.meals && w'.calls == w.calls
    decreases |texts|
  {
    if |texts| != 0 {
      var w1 := Collect(w, texts[0], r);
      assert answers + [texts[0]] + texts[1..] == answers + texts;
      CollectBeforeLast(w1, texts[1..], r, answers + [texts[0]]);
    } else {
      assert answers + texts == answers;
    }
  }

  /** `/start` by a new user, then six messages, with or without text: the deriver is asked
      exactly once, with the six question blocks; nothing is written to either table; an
      empty profile ends the flow and a non-empty one is staged for confirmation. */
  lemma SixAnswersDeriveOnce(w: World, u: int, texts: seq<Answer>, r: Replies)
    requires !UserExists(w.users, u)
    requires |texts| == |Questions|
    ensures var w' := CollectAll(Start(w, u), texts, r);
      var profile := r.derive(DeriverInput(texts));
      && w'.calls == w.calls + [DeriveCall(DeriverInput(texts))]
      && w'.users == w.users && w'.meals == w.meals
      && (|profile| == 0 ==> w'.conv == Cleared)
      && (|profile| != 0 ==> w'.conv.state == ConfirmGoal && w'.conv.data.profile == Some(profile)
                             && w'.conv.data.answers == Some(texts))
  {
    var w0 := Start(w, u);
    var first := texts[..5];
    assert texts == first + [texts[5]];
    CollectAllSplit(w0, first, [texts[5]], r);
    CollectBeforeLast(w0, first, r, []);
    assert [] + first == first;
    var w5 := CollectAll(w0, first, r);
    assert first + [texts[5]] == texts;
    assert CollectAll(w5, [texts[5]], r) == Collect(w5, texts[5], r);
  }

  lemma {:induction false} CollectAllSplit(w: World, a: seq<Answer>, b: seq<Answer>, r: Replies)
    ensures CollectAll(w, a + b, r) == CollectAll(CollectAll(w, a, r), b, r)
    decreases |a|
  {
    if |a| == 0 {
      assert a + b == b;
    } else {
      assert (a + b)[1..] == a[1..] + b;
      CollectAllSplit(Collect(w, a[0], r), a[1..], b, r);
    }
  }

  /** An old confirmation button pressed during a goal update (the callback has no state
      filter) writes a second copy of the caller's row and ends the update. */
  lemma StaleConfirmDuplicatesRow(w: World, u: int)
    requires UserExists(w.users, u)
    ensures var w' := ConfirmGoalPress(UpdateGoal(w, u), u);
      && w'.users == w.users + [GetUser(w.users, u).value]
      && w'.conv == Cleared
  {
    var row := GetUser(w.users, u).value;
    var p := RowProfile(row);
    assert "user_id" in p;
    assert ProfileRow(u, p) == row;
  }

  /** A goal in the form the handler asks for: four numbers separated by `/`. */
  function ManualGoalText(cal: int, p: int, f: int, c: int): string {
    IntToDecimal(cal) + "/" + (IntToDecimal(p) + "/" + (IntToDecimal(f) + "/" + IntToDecimal(c)))
  }

  lemma NoSlashInDecimal(n: int)
    ensures '/' !in IntToDecimal(n)
    ensures Strip(IntToDecimal(n)) == IntToDecimal(n)
  {
    var s := IntToDecimal(n);
    var d := NatToDecimal(if n < 0 then -n else n);
    assert forall i :: 0 <= i < |d| ==> IsDigit(d[i]);
    if n < 0 {
      assert s == "-" + d;
      assert forall i :: 1 <= i < |s| ==> s[i] == d[i - 1];
    }
    StripNoSpace(s);
  }

  /** The goal text is `"/".join` of the four numerals. */
  lemma ManualGoalTextIsJoin(cal: int, p: int, f: int, c: int)
    ensures ManualGoalText(cal, p, f, c) == Join("/", [IntToDecimal(cal), IntToDecimal(p), IntToDecimal(f), IntToDecimal(c)])
  {
    var a, b, e, d := IntToDecimal(cal), IntToDecimal(p), IntToDecimal(f), IntToDecimal(c);
    assert Join("/", [d]) == d;
    assert [e, d][1..] == [d];
    assert Join("/", [e, d]) == e + "/" + d;
    assert [b, e, d][1..] == [e, d];
    assert Join("/", [b, e, d]) == b + "/" + (e + "/" + d);
    assert [a, b, e, d][1..] == [b, e, d];
  }

  /** Every goal written as `cal/p/f/c` is accepted, negative numbers included, and gives
      exactly those four targets in that order. */
  lemma ManualGoalRoundTrip(cal: int, p: int, f: int, c: int)
    ensures ParseManualGoal(ManualGoalText(cal, p, f, c)) == Some(Goal(ManualGoalName, Int(cal), Int(p), Int(f), Int(c)))
  {
    ManualGoalParts(cal, p, f, c);
    ParseIntOfDecimal(cal);
    ParseIntOfDecimal(p);
    ParseIntOfDecimal(f);
    ParseIntOfDecimal(c);
  }

  /** The stripped pieces of a goal text are the four numerals. */
  lemma ManualGoalParts(cal: int, p: int, f: int, c: int)
    ensures StripAll(Split(ManualGoalText(cal, p, f, c), '/'))
      == [IntToDecimal(cal), IntToDecimal(p), IntToDecimal(f), IntToDecimal(c)]
  {
    var parts := [IntToDecimal(cal), IntToDecimal(p), IntToDecimal(f), IntToDecimal(c)];
    SplitGoalText(cal, p, f, c);
    NoSlashInDecimal(cal);
    NoSlashInDecimal(p);
    NoSlashInDecimal(f);
    NoSlashInDecimal(c);
    assert forall i :: 0 <= i < |parts| ==> Strip(parts[i]) == parts[i] by {
      forall i | 0 <= i < |parts|
        ensures Strip(parts[i]) == parts[i]
      {
        if i == 0 {} else if i == 1 {} else if i == 2 {} else {}
      }
    }
    StripAllFixed(parts);
  }

  lemma StripAllFixed(parts: seq<string>)
    requires forall i :: 0 <= i < |parts| ==> Strip(parts[i]) == parts[i]
    ensures StripAll(parts) == parts
  {
  }

  lemma SplitGoalText(cal: int, p: int, f: int, c: int)
    ensures Split(ManualGoalText(cal, p, f, c), '/')
      == [IntToDecimal(cal), IntToDecimal(p), IntToDecimal(f), IntToDecimal(c)]
  {
    var parts := [IntToDecimal(cal), IntToDecimal(p), IntToDecimal(f), IntToDecimal(c)];
    NoSlashInDecimal(cal);
    NoSlashInDecimal(p);
    NoSlashInDecimal(f);
    NoSlashInDecimal(c);
    assert forall i :: 0 <= i < |parts| ==> '/' !in parts[i] by {
      forall i | 0 <= i < |parts|
        ensures '/' !in parts[i]
      {
        if i == 0 {} else if i == 1 {} else if i == 2 {} else {}
      }
    }
    ManualGoalTextIsJoin(cal, p, f, c);
    SplitOfJoin(parts, '/');
  }

  /** In the manual input a well-formed goal is staged and awaits confirmation, and no table
      is written. */
  lemma ManualInputStages(w: World, cal: int, p: int, f: int, c: int)
    ensures var w' := ManualInputStep(w, ManualGoalText(cal, p, f, c));
      && w'.users == w.users && w'.meals == w.meals && w'.calls == w.calls
      && w'.conv.state == ConfirmNewGoal
      && w'.conv.data.pendingGoal == Some(Goal(ManualGoalName, Int(cal), Int(p), Int(f), Int(c)))
  {
    ManualGoalRoundTrip(cal, p, f, c);
    GoalTextStripped(cal, p, f, c);
    GoalTextNotCancel(cal, p, f, c);
  }

  /** In the manual input, any text that is neither a cancel nor a well-formed goal changes
      nothing: the state stays, so the user can type again. */
  lemma ManualInputParseErrorKeeps(w: World, text: string)
    requires !IsTextCancel(Strip(text)) && ParseManualGoal(Strip(text)).None?
    ensures ManualInputStep(w, text) == w
  {
  }

  /** `handle_goal_update_choice` on any text: no call and no write; a cancel clears, and
      otherwise the data is kept and the state is the manual input for "вручную", the
      assistant for "ассистент" or "ai", and unchanged for anything else, in that order. */
  lemma ChooseMethodOutcome(w: World, text: string)
    requires w.conv.state == ChooseMethod
    ensures var c := Lower(Strip(text)); var w' := ChooseMethodStep(w, text);
      && w'.users == w.users && w'.meals == w.meals && w'.calls == w.calls
      && (w'.conv == Cleared <==> IsChoiceCancel(c))
      && (!IsChoiceCancel(c) ==> w'.conv.data == w.conv.data)
      && (w'.conv.state == ManualInput <==> !IsChoiceCancel(c) && Contains(c, "вручную"))
      && (w'.conv.state == AiRequest <==>
            !IsChoiceCancel(c) && !Contains(c, "вручную") && (Contains(c, "ассистент") || Contains(c, "ai")))
      && (w'.conv == w.conv <==>
            !IsChoiceCancel(c) && !Contains(c, "вручную") && !Contains(c, "ассистент") && !Contains(c, "ai"))
  {
  }

  /** A goal text has no white space at either end. */
  lemma GoalTextStripped(cal: int, p: int, f: int, c: int)
    ensures Strip(ManualGoalText(cal, p, f, c)) == ManualGoalText(cal, p, f, c)
  {
    var t := ManualGoalText(cal, p, f, c);
    NoSlashInDecimal(cal);
    NoSlashInDecimal(c);
    var a := IntToDecimal(cal);
    var d := IntToDecimal(c);
    assert t[0] == a[0] && t[|t| - 1] == d[|d| - 1];
    LeadingSpaceIsStripped(a);
    TrailingSpaceIsStripped(d);
    StripNoSpace(t);
  }

  lemma GoalTextNotCancel(cal: int, p: int, f: int, c: int)
    ensures !IsTextCancel(ManualGoalText(cal, p, f, c))
  {
    var t := ManualGoalText(cal, p, f, c);
    var a := IntToDecimal(cal);
    assert t[0] == a[0];
    DecimalChars(cal);
    assert t != "❌" by { assert t[0] != '❌'; }
    NoCancelWordInGoalText(cal, p, f, c);
  }

  lemma LeadingSpaceIsStripped(s: string)
    requires |s| > 0 && Strip(s) == s
    ensures !IsSpace(s[0])
  {
    LStripIsLongestSuffix(s);
    RStripIsLongestPrefix(LStrip(s));
  }

  lemma TrailingSpaceIsStripped(s: string)
    requires |s| > 0 && Strip(s) == s
    ensures !IsSpace(s[|s| - 1])
  {
    RStripIsLongestPrefix(LStrip(s));
  }

  /** A goal text holds only digits, `-` and `/`, so it never reads as a cancel. */
  lemma NoCancelWordInGoalText(cal: int, p: int, f: int, c: int)
    ensures !Contains(Lower(ManualGoalText(cal, p, f, c)), "отмена")
  {
    var t := ManualGoalText(cal, p, f, c);
    GoalTextChars(cal, p, f, c);
    var l := Lower(t);
    assert forall k :: 0 <= k < |l| ==> l[k] != 'о' by {
      assert forall k :: 0 <= k < |l| ==> l[k] == t[k];
    }
    FirstCharAbsent(l, "отмена");
  }

  lemma FirstCharAbsent(s: string, sub: string)
    requires |sub| > 0 && forall k :: 0 <= k < |s| ==> s[k] != sub[0]
    ensures !Contains(s, sub)
  {
    forall i | 0 <= i && i + |sub| <= |s|
      ensures !OccursAt(s, sub, i)
    {
      assert s[i..i + |sub|][0] == s[i];
    }
  }

  predicate IsGoalTextChar(ch: char) {
    IsDigit(ch) || ch == '-' || ch == '/'
  }

  lemma DecimalChars(n: int)
    ensures forall k :: 0 <= k < |IntToDecimal(n)| ==> IsGoalTextChar(IntToDecimal(n)[k])
  {
    var d := NatToDecimal(if n < 0 then -n else n);
    assert forall i :: 0 <= i < |d| ==> IsDigit(d[i]);
  }

  lemma GoalTextChars(cal: int, p: int, f: int, c: int)
    ensures forall k :: 0 <= k < |ManualGoalText(cal, p, f, c)| ==> IsGoalTextChar(ManualGoalText(cal, p, f, c)[k])
  {
    DecimalChars(cal);
    DecimalChars(p);
    DecimalChars(f);
    DecimalChars(c);
    var a, b, e, d := IntToDecimal(cal), IntToDecimal(p), IntToDecimal(f), IntToDecimal(c);
    var t := ManualGoalText(cal, p, f, c);
    assert t == a + "/" + b + "/" + e + "/" + d;
    forall k | 0 <= k < |t|
      ensures IsGoalTextChar(t[k])
    {
      if k < |a| {
        assert t[k] == a[k];
      } else if k == |a| {
      } else if k < |a| + 1 + |b| {
        assert t[k] == b[k - |a| - 1];
      } else if k == |a| + 1 + |b| {
      } else if k < |a| + 2 + |b| + |e| {
        assert t[k] == e[k - |a| - 2 - |b|];
      } else if k == |a| + 2 + |b| + |e| {
      } else {
        assert t[k] == d[k - |a| - 3 - |b| - |e|];
      }
    }
  }

  /** A cancel in the manual or the assistant input ends the update without asking the
      advisor and without writing anything. */
  lemma CancelDiscards(w: World, u: int, text: string, r: Replies)
    requires IsTextCancel(Strip(text))
    ensures ManualInputStep(w, text) == w.(conv := Cleared)
    ensures AiRequestStep(w, u, text, r) == w.(conv := Cleared)
  {
  }

  /** Accepting a staged goal with a write that succeeds makes it the goal `get_user`
      returns afterwards; the rest of the profile stays, and the flow ends. */
  lemma AcceptCommits(w: World, u: int)
    requires w.conv.data.pendingGoal.Some? && UserExists(w.users, u)
    ensures var w' := AcceptPress(w, u, false);
      && GetUser(w'.users, u) == Some(Retarget(GetUser(w.users, u).value, w.conv.data.pendingGoal.value))
      && w'.conv == Cleared && w'.meals == w.meals
  {
    GetUserAfterTarget(w.users, u, w.conv.data.pendingGoal.value);
  }

  /** Accept clears the state whether or not the write raised; a failed write, or no staged
      goal, leaves the users table as it was. */
  lemma AcceptAlwaysClears(w: World, u: int, ioError: bool)
    ensures AcceptPress(w, u, ioError).conv == Cleared
    ensures (ioError || w.conv.data.pendingGoal.None?) ==> AcceptPress(w, u, ioError).users == w.users
  {
  }

  lemma DecimalsOfExample()
    ensures IntToDecimal(1900) == "1900" && IntToDecimal(75) == "75"
    ensures IntToDecimal(100) == "100" && IntToDecimal(250) == "250"
  {
    assert NatToDecimal(19) == NatToDecimal(1) + "9";
    assert NatToDecimal(190) == "19" + "0";
    assert NatToDecimal(1900) == "190" + "0";
    assert NatToDecimal(75) == NatToDecimal(7) + "5";
    assert NatToDecimal(10) == NatToDecimal(1) + "0";
    assert NatToDecimal(100) == "10" + "0";
    assert NatToDecimal(25) == NatToDecimal(2) + "5";
    assert NatToDecimal(250) == "25" + "0";
  }

  /** The handler's own example is accepted. */
  lemma ManualGoalExample()
    ensures ManualGoalText(1900, 75, 100, 250) == "1900/75/100/250"
  {
    DecimalsOfExample();
  }

  /** Three numbers instead of four are a format error. */
  lemma ManualGoalShortExample()
    ensures ParseManualGoal("1900/75/100") == None
  {
    DecimalsOfExample();
    NoSlashInDecimal(1900);
    NoSlashInDecimal(75);
    NoSlashInDecimal(100);
    var t2 := "75" + ['/'] + "100";
    assert "1900/75/100" == "1900" + ['/'] + t2;
    SplitAtFirst("75", "100", '/');
    assert Split("100", '/') == ["100"];
    SplitAtFirst("1900", t2, '/');
    assert |Split("1900/75/100", '/')| == 3;
  }

  /** The "Вручную" button of the choice panel selects the manual input. */
  lemma ManualButton()
    ensures ClassifyChoice("Вручную") == Manual
  {
    var t := "Вручную";
    StripNoSpace(t);
    var l := Lower(t);
    assert l == "вручную";
    FirstCharAbsent(l, "отмена");
    assert l != "❌";
    assert StartsWith(l, "вручную");
  }

  /** The "AI-ассистент" button selects the assistant: its text has no cancel word and does
      not say "вручную". */
  lemma AssistantButton()
    ensures ClassifyChoice("AI-ассистент") == Assistant
  {
    AssistantChoiceText();
    AssistantWords("ai-ассистент");
  }

  lemma AssistantWords(l: string)
    requires l == "ai-ассистент"
    ensures !IsChoiceCancel(l) && !Contains(l, "вручную") && Contains(l, "ассистент")
  {
    FirstCharAbsent(l, "отмена");
    assert |l| != |"❌"|;
    FirstCharAbsent(l, "вручную");
    assert OccursAt(l, "ассистент", 3);
  }

  lemma AssistantChoiceText()
    ensures Lower(Strip("AI-ассистент")) == "ai-ассистент"
  {
    AssistantStrip();
    AssistantLower();
  }

  lemma AssistantStrip()
    ensures Strip("AI-ассистент") == "AI-ассистент"
  {
    StripNoSpace("AI-ассистент");
  }

  lemma AssistantLower()
    ensures Lower("AI-ассистент") == "ai-ассистент"
  {
    AssistantHalves();
    LowerConcat("AI-", "ассистент");
    AiLower();
    AssistantWordLower();
  }

  lemma AssistantHalves()
    ensures "AI-ассистент" == "AI-" + "ассистент"
    ensures "ai-ассистент" == "ai-" + "ассистент"
  {
  }

  lemma AiLower()
    ensures Lower("AI-") == "ai-"
  {
    var la := Lower("AI-");
    assert la[0] == 'a' && la[1] == 'i' && la[2] == '-';
  }

  lemma AssistantWordLower()
    ensures Lower("ассистент") == "ассистент"
  {
    LowercaseCyrillicFixed("ассистент");
  }

  /** `lower` distributes over concatenation. */
  lemma LowerConcat(a: string, b: string)
    ensures Lower(a + b) == Lower(a) + Lower(b)
  {
    var l, r := Lower(a + b), Lower(a) + Lower(b);
    assert |l| == |r|;
    forall i | 0 <= i < |l|
      ensures l[i] == r[i]
    {
      if i < |a| {
        assert r[i] == Lower(a)[i];
        assert (a + b)[i] == a[i];
      } else {
        assert r[i] == Lower(b)[i - |a|];
        assert (a + b)[i] == b[i - |a|];
      }
    }
  }

  /** A text of lower-case Cyrillic letters (U+0430..U+044F) is its own `lower`. */
  lemma LowercaseCyrillicFixed(s: string)
    requires forall i :: 0 <= i < |s| ==> '\U{430}' <= s[i] <= '\U{44F}'
    ensures Lower(s) == s
  {
    var l := Lower(s);
    forall i | 0 <= i < |s|
      ensures l[i] == s[i]
    {
      assert l[i] == LowerChar(s[i]);
    }
  }

  /** The "❌ Отмена" button cancels. */
  lemma CancelButton()
    ensures ClassifyChoice("❌ Отмена") == CancelChoice
  {
    var t := "❌ Отмена";
    StripNoSpace(t);
    var l := Lower(t);
    assert l == "❌ отмена";
    assert OccursAt(l, "отмена", 2);
  }
}

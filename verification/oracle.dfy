/** The language-model calls the handlers make. Their replies are taken as given: a fixed
    function of the request, chosen by whoever builds the `LanguageModel`. Every call is
    recorded, so that the model can say how often each one is made. */
module Oracle {
  import opened Values

  /** The `new_goal` dictionary of the advisor's reply; `None` is an absent `goal` key. */
  datatype RawGoal = RawGoal(goal: Option<string>, targetCal: RawNum, pGoal: RawNum, fGoal: RawNum, cGoal: RawNum)

  /** The advisor's reply: a dictionary with an `error` key, or one with `summary` and
      `new_goal`; a `new_goal` that is absent, null or empty is `None`. */
  datatype AdvisorReply =
    | AdvisorError(message: string)
    | Advice(summary: string, newGoal: Option<RawGoal>)

  /** `parse_meal_text` as app/main.py reads it: the clarification question (`""` when the
      key is absent or empty), the date, and the four macros with 0 for an absent key. */
  datatype MealReply = MealReply(
    clarification: string, date: Option<Day>,
    protein: int, fat: int, carbs: int, calories: int)

  /** `parse_meal_text` as app/handlers/meals.py reads it: the macros as delivered. */
  datatype RawMealReply = RawMealReply(
    clarification: string, date: Option<Day>,
    protein: RawNum, fat: RawNum, carbs: RawNum, calories: RawNum)

  /** One request sent to the language model. */
  datatype Call =
    | DeriveCall(answersText: string)
    | AdviseCall(userId: int, request: string)
    | ClassifyCall(text: string, userId: int)

  /** What the model answers to each request. */
  datatype Replies = Replies(
    derive: string -> Profile,
    advise: (int, string) -> AdvisorReply,
    classify: (string, int) -> MealReply,
    classifyRaw: (string, int) -> RawMealReply)

  class LanguageModel {
    const replies: Replies
    var calls: seq<Call>

    constructor (replies: Replies)
      ensures this.replies == replies && calls == []
    {
      this.replies := replies;
      calls := [];
    }

    /** `get_user_goal(answers_text)`; an unparsable answer is the empty profile. */
    method GetUserGoal(answersText: string) returns (profile: Profile)
      modifies this
      ensures profile == replies.derive(answersText)
      ensures calls == old(calls) + [DeriveCall(answersText)]
    {
      profile := replies.derive(answersText);
      calls := calls + [DeriveCall(answersText)];
    }

    /** `ai_assistant_feedback(user_id, user_request)`, as registration.py imports and calls
        it: a reply that is an error or a summary with an optional new goal. */
    method AiAssistantFeedback(userId: int, request: string) returns (reply: AdvisorReply)
      modifies this
      ensures reply == replies.advise(userId, request)
      ensures calls == old(calls) + [AdviseCall(userId, request)]
    {
      reply := replies.advise(userId, request);
      calls := calls + [AdviseCall(userId, request)];
    }

    /** `parse_meal_text(text, user_id)`, read as app/main.py reads it. */
    method ParseMealText(text: string, userId: int) returns (reply: MealReply)
      modifies this
      ensures reply == replies.classify(text, userId)
      ensures calls == old(calls) + [ClassifyCall(text, userId)]
    {
      reply := replies.classify(text, userId);
      calls := calls + [ClassifyCall(text, userId)];
    }

    /** `parse_meal_text(text, user_id)`, read as app/handlers/meals.py reads it. */
    method ParseMealTextRaw(text: string, userId: int) returns (reply: RawMealReply)
      modifies this
      ensures reply == replies.classifyRaw(text, userId)
      ensures calls == old(calls) + [ClassifyCall(text, userId)]
    {
      reply := replies.classifyRaw(text, userId);
      calls := calls + [ClassifyCall(text, userId)];
    }
  }
}

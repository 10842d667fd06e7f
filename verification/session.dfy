/** Everything one handler call can read or change, as one value: the caller's
    conversation, the two tables and the record of language-model calls. The handlers are
    written twice: as a step function from one `World` to the next, and as a method on the
    objects, proved to take the step. */
module Session {
  import opened Tables
  import opened Fsm
  import opened Oracle

  datatype World = World(conv: Conv, users: seq<UserRow>, meals: seq<Meal>, calls: seq<Call>)

  function Snapshot(ctx: FsmContext, store: Store, llm: LanguageModel): World
    reads ctx, store, llm
  {
    World(ctx.Value(), store.users, store.meals, llm.calls)
  }
}

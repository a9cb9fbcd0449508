/** The domain types of types.ts, plus the authentication provider's session
    and user records that the App component caches. */
module Types {
  import opened Wrappers

  /** One entry of the weekly roadmap: a day label and its ordered actions. */
  datatype DayPlan = DayPlan(day: string, actions: seq<string>)

  /** The generated artifact: a goal summary, a week-by-day breakdown,
      immediate first steps and longer-term habits. */
  datatype ActionPlan = ActionPlan(
    goal: string,
    weeklyPlan: seq<DayPlan>,
    firstSteps: seq<string>,
    suggestedHabits: seq<string>)

  /** What the code holds where its types say `ActionPlan | null`. The reply
      is parsed with `JSON.parse` and cast without any check, so the value can
      be any JSON value; the code only ever tests it for truthiness and reads
      its fields. `Falsy` is `null` (the initial value) and every other falsy
      JSON value (`false`, `0`, `""`); `Complete` is an object with all of
      ActionPlan's fields; `Incomplete` is any other truthy value (an object
      missing fields, an array, a number, a non-empty string). */
  datatype PlanValue = Falsy | Complete(plan: ActionPlan) | Incomplete

  /** The screen selector; the five values of the source's enum and no others. */
  datatype AppState = LANDING | LOGIN | DASHBOARD | PROCESSING | RESULT

  /** The signed-in principal as the authentication provider reports it
      (the App component only ever reads its email). */
  datatype User = User(id: string, email: string)

  /** A session as delivered by the provider; the App reads it through
      `session?.user`, so the user part is optional. */
  datatype Session = Session(user: Option<User>)

  /** The names of ActionPlan's four fields, in declaration order. */
  const PlanFields: seq<string> := ["goal", "weeklyPlan", "firstSteps", "suggestedHabits"]

  /** The names of a weekly-plan entry's two fields. */
  const DayPlanFields: seq<string> := ["day", "actions"]
}

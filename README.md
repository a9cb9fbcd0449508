# Pinterest-to-Life: the screen state machine and the plan-generation adapter

The application turns a Pinterest board URL into a generated "life action
plan". Almost all of it is React markup; what has behaviour is:

- the **App component** (App.tsx), which holds the current screen (`AppState`),
  the signed-in user, the last plan, the last error and an `initializing` flag,
  and changes them in its event handlers: the startup session lookup,
  auth-state notifications, logout, "get started", plan generation (start and
  completion, success or failure) and "new board";
- two small pieces of sub-component state: the **Login** form's
  `loading`/`error` flags and the **Processing** screen's rotating message
  index;
- **`generatePlanFromBoard`** (services/geminiService.ts), which builds a
  prompt around the board URL, makes one call to the Gemini service with a
  response schema, and turns the reply into whatever `JSON.parse` makes of it
  or one of three failures: the call itself rejects, the reply has no text,
  or the text does not parse.

## Layout

| file | module | models |
|---|---|---|
| wrappers.dfy | `Wrappers` | `Option` (the source's `null`/`undefined`) and `Result` (a value or a thrown error) |
| types.dfy | `Types` | types.ts: `ActionPlan`, `DayPlan`, the five-valued `AppState`; `PlanValue`, what a variable typed `ActionPlan \| null` can really hold; the provider's `User` and `Session` |
| constants.dfy | `Constants` | constants.ts: `LoadingMessages` |
| gemini_service.dfy | `GeminiService` | the prompt, the response schema, the request, and the reply handling, as pure functions |
| processing.dfy | `ProcessingTicker` | `class Processing`: the message index and its tick |
| login.dfy | `LoginForm` | `class Login`: the form fields and `handleAuth` / `handleGoogleLogin` |
| app.dfy | `AppController` | `class App` and its handlers; the pure specification `AppView`/`Event`/`Apply`/`Run`; what `renderContent` shows and offers in each state (`Render`, `Enabled`); lemmas over every sequence of events; the adapter composed with the App |

The App's fields are updated in place, so `App` is a class and every handler a
method. Each method states its effect field by field and also that
`View() == Apply(old(View()), e)` for its event `e`; `Apply` and `Run` (events
applied in order) are what the lemmas about many events speak of. The handlers
that `await` are split at the await (`StartGenerate` / `FinishGenerate`,
`BeginAuth` / `FinishAuth`) so that other events can come in between;
`HandleGenerate` and `HandleAuth` are the uninterrupted runs.

The Gemini call is a function parameter `GenerateRequest -> Reply`: the promise
rejects with a message, or resolves to a response whose `text` may be absent.
`JSON.parse` is a function parameter `string -> Option<PlanValue>` (`None` for
text that does not parse). The parsed value is cast to `ActionPlan` with no
check, so `PlanValue` distinguishes a falsy value (`null`, `false`, `0`, `""`),
a complete plan, and any other truthy value. The adapter's result records the
requests sent, the texts handed to the parser and the texts logged, so "exactly
one call", "no parse of an empty reply" and "the raw text is only logged" can
be stated.

Some behaviour of the code is easy to expect otherwise, and the model follows
the code. "New board" goes back to the dashboard and keeps the plan. The parsed
reply is returned with no field-level check. A startup lookup with no session leaves the
screen where it is; it does not set the landing page. The only thing that
prevents a second generation from starting while one is awaited is that the
processing screen offers no generate button: an auth notification that moves
the App back to the dashboard offers it again
(`SecondGenerationAfterAuthNotification`).

## Model

| member | source | states |
|---|---|---|
| `GeminiService.Prompt` | services/geminiService.ts:9-17 | the prompt is the fixed instructions with the board URL spliced in, and the URL can be read back out of it unchanged |
| `GeminiService.UrlInPrompt` | services/geminiService.ts:9-17 | whatever URL is read back out of a text rebuilds exactly that text as a prompt |
| `GeminiService.PromptInjective` | services/geminiService.ts:9-10 | different URLs give different prompts |
| `GeminiService.PromptQuotesUrl` | services/geminiService.ts:10 | the URL sits in the prompt directly between two double quotes |
| `GeminiService.PlanSchemaRequiresEveryField` | services/geminiService.ts:24-54 | the response schema declares exactly ActionPlan's four fields and a day entry's `day`/`actions`, and every object in it marks all its properties required |
| `GeminiService.BuildRequest` | services/geminiService.ts:19-56 | the request names the Gemini model, carries the prompt for the URL (the URL reads back out of it), asks for JSON, and pins the plan schema with every field required |
| `GeminiService.ErrorMessage` | services/geminiService.ts:19-65 | the adapter's own two failures carry fixed, non-empty, distinct messages: "No response from AI" exactly for the empty reply and "Invalid AI response format" for unparsable text; a rejected call carries its own message |
| `GeminiService.GeneratePlanFromBoard` | services/geminiService.ts:8-67 | exactly one request is sent, its contents are the prompt for the URL and its schema is the plan schema |
| `GeminiService.CallFailedExactlyWhenRejected` | services/geminiService.ts:19 | the result is the call's own failure if and only if the call rejects, and then nothing is parsed or logged |
| `GeminiService.NoResponseExactlyWithoutText` | services/geminiService.ts:58-59 | the result is "no response" if and only if the reply text is absent or empty, and then nothing is parsed or logged |
| `GeminiService.InvalidFormatExactlyWhenParseFails` | services/geminiService.ts:61-65 | the result is "invalid format" if and only if the text is present and does not parse, and then the raw text is logged (and not returned) |
| `GeminiService.SuccessIsParsedValue` | services/geminiService.ts:61-62 | success if and only if the text is present and parses; the result is the parser's value unchanged, falsy or incomplete ones included; nothing is logged |
| `GeminiService.GeneratePlanValidated` | services/geminiService.ts:61-62 | the adapter with the missing check: a success is always a complete plan; the same request is sent; it agrees with `generatePlanFromBoard` on every failure and every complete plan and turns any other parsed value into "invalid format" |
| `ProcessingTicker.NextIndex` | App.tsx:203 | one tick stays below the number of loading messages, steps by one, and wraps from the last message to the first |
| `ProcessingTicker.IndexAfter` | App.tsx:199-204 | the index after any number of ticks from a fresh screen is a valid message index |
| `ProcessingTicker.IndexAfterIsModulo` | App.tsx:199-204 | after n ticks the index is n modulo the number of messages |
| `ProcessingTicker.MessagesCycle` | constants.ts:2-9 | the six messages come round every six ticks and each is shown once per round |
| `ProcessingTicker.Processing.constructor` | App.tsx:199 | the index starts at 0 |
| `ProcessingTicker.Processing.Tick` | App.tsx:202-203 | a tick maps the index to `(i + 1) % 6`, keeps it in range and equal to the tick count modulo 6 |
| `ProcessingTicker.Processing.Message` | App.tsx:218 | the message shown is one of the loading messages, the one at the index |
| `LoginForm.AuthErrorText` | App.tsx:78 | the error shown is the provider's message when non-empty and the fixed fallback otherwise; never empty |
| `LoginForm.Login.constructor` | App.tsx:57-61 | empty fields, log-in mode, not loading, no error |
| `LoginForm.Login.EditEmail` | App.tsx:127 | the email input sets the email and nothing else |
| `LoginForm.Login.EditPassword` | App.tsx:135 | the password input sets the password and nothing else |
| `LoginForm.Login.ToggleSignUp` | App.tsx:153 | the link flips sign-up mode and nothing else |
| `LoginForm.Login.BeginAuth` | App.tsx:63-76 | on entry `loading` is raised and `error` cleared; the call is sign-up or password sign-in by the mode, with the form's email and password |
| `LoginForm.Login.FinishAuth` | App.tsx:71-81 | on an error reply `error` is its message or the fallback; `loading` is lowered in every case |
| `LoginForm.Login.HandleAuth` | App.tsx:63-82 | the uninterrupted handler ends not loading, with no error on success and a non-empty one on failure |
| `LoginForm.Login.GoogleLogin` | App.tsx:84-91 | an OAuth sign-in with "google"; an error reply sets `error` to its message as it is; `loading` is untouched |
| `AppController.Apply` | App.tsx:301-365 | one event's effect: only the startup lookup ends initialization; only a successful generation changes the plan; only session reports and logout change the user; only generation changes the error |
| `AppController.Render` | App.tsx:342-368 | the spinner exactly while initializing; nothing at all exactly on RESULT with a falsy plan; a rendered plan is the stored complete plan; the dashboard shows the stored error as its banner exactly when that error is non-empty, and no banner otherwise |
| `AppController.Enabled` | App.tsx:342-372 | once initialization is over, and only then: "get started" exactly on LANDING, generation exactly on DASHBOARD with a non-empty URL (Dashboard's button is disabled otherwise, App.tsx:185-187), "new board" exactly on RESULT with a complete plan, logout exactly when there is a user; collaborator events at any time |
| `AppController.NoSecondGenerationWhileProcessing` | App.tsx:364 | right after a generation starts the processing screen is shown and it offers no second generation |
| `AppController.RunKeepsOnlyGenericError` | App.tsx:328-339 | after any sequence of events the only error ever held is the generic generation message |
| `AppController.BannerIsGenericOrAbsent` | App.tsx:356-360 | from the initial state the dashboard banner is absent or the generic message, and it is shown exactly when an error is held |
| `AppController.PlanIsLatestSuccess` | App.tsx:333 | the plan is always the value of the last successful generation: logout, new board and failures never change it |
| `AppController.UserIsLatestReport` | App.tsx:304-324 | the user is always the one the latest startup lookup, auth notification or logout reported |
| `AppController.InitializingUntilSessionLoaded` | App.tsx:299-306 | the App is initializing if and only if it was and the startup lookup has not answered yet |
| `AppController.FailuresLookAlike` | App.tsx:335-339 | a failed generation, whichever of the three failures, ends on DASHBOARD with the generic message, plan and user unchanged; once initialization is over the dashboard shows the generic banner |
| `AppController.EveryFailureKindLooksAlike` | services/geminiService.ts:19-65 | a rejected call, an absent reply and an unparsable one fail for three different reasons and leave the App in the same state |
| `AppController.SuccessShowsParsedValue` | App.tsx:332-365 | a successful generation stores exactly the parsed value, clears the error and shows RESULT; a complete plan is rendered with "new board" offered, a falsy value renders nothing and offers nothing |
| `AppController.FalsyReplyLeavesBlankResult` | App.tsx:333-365 | a reply whose text is `null` is a success, lands on RESULT, renders nothing, and offers neither "new board", "get started" nor generation |
| `AppController.ValidatedRunKeepsResultHasPlan` | App.tsx:328-339 | when every completion is validated, RESULT always holds a complete plan after any sequence of events |
| `AppController.NeverBlankWithValidatedGeneration` | App.tsx:365 | with the checked adapter, from the initial state RESULT never renders nothing or an incomplete plan, and always offers "new board" |
| `AppController.CompletionAfterLogoutStillShowsPlan` | App.tsx:322-339 | a generation that completes after a logout is still applied: RESULT with the plan and no user |
| `AppController.SecondGenerationAfterAuthNotification` | App.tsx:310-361 | an auth notification during PROCESSING moves to DASHBOARD, where a second generation can start while the first is still awaited |
| `AppController.App.constructor` | App.tsx:295-299 | LANDING, no user, a `null` plan, no error, initializing |
| `AppController.App.OnSessionLoaded` | App.tsx:303-307 | the user is the session's user; DASHBOARD only if there is one, otherwise the screen stays; initialization ends either way |
| `AppController.App.OnAuthStateChange` | App.tsx:310-317 | from any state the user is overwritten, then DASHBOARD with a user and LANDING without |
| `AppController.App.HandleLogout` | App.tsx:322-326 | no user and LANDING; plan and error untouched |
| `AppController.App.GetStarted` | App.tsx:352 | LANDING's button moves to LOGIN and changes nothing else |
| `AppController.App.NewBoard` | App.tsx:365 | RESULT's reset moves to DASHBOARD and keeps the plan |
| `AppController.App.StartGenerate` | App.tsx:329-330 | PROCESSING with the error cleared |
| `AppController.App.FinishGenerate` | App.tsx:331-339 | without looking at state or user: success stores the value as it is and shows RESULT; failure sets the generic message, shows DASHBOARD and keeps the plan |
| `AppController.App.HandleGenerate` | App.tsx:328-340 | the uninterrupted handler makes one adapter call and ends on RESULT with the parsed value and no error, or on DASHBOARD with the generic message and the old plan |
| `AppController.App.SubmitLogin` | App.tsx:63-82 | submitting the login form never changes the App's screen or state |

## Findings

| source | as written | input that shows it | evidently intended | confidence | as-written member | corrected member |
|---|---|---|---|---|---|---|
| services/geminiService.ts:61-62 | the parsed reply is cast to `ActionPlan` unchecked; App.tsx:333-334 stores it and moves to RESULT, and App.tsx:365 renders nothing for a falsy plan, leaving a blank page with no "new board" button | a reply whose text is `null` (also `false`, `0`, `""` as JSON) | only a complete plan counts as a success; any other value fails like unparsable text and the user is sent back to the dashboard | not executed; low, since the response schema should keep the service from answering `null` | `AppController.FalsyReplyLeavesBlankResult` | `GeminiService.GeneratePlanValidated`, `AppController.NeverBlankWithValidatedGeneration` |

`App.HandleGenerate` calls the adapter as written, so that the App's methods
keep modelling the code; the checked adapter and the lemmas about it describe
the corrected behaviour.

## Left out

- Rendering and styling: `Header`, `Landing`, `Dashboard` and `PlanResult` markup, the inert "Export as PDF" button and `COLORS`. Only what each screen offers is modelled (`Render`, `Enabled`).
- services/supabaseClient.ts and every provider call (`getSession`, `signUp`, `signInWithPassword`, `signInWithOAuth`, `signOut`, `onAuthStateChange`): foreign network client. Their results are event inputs; the calls the form makes are returned as `AuthCall` values.
- A startup lookup that rejects: the source attaches no handler, so it is not an event of the model (the spinner would stay).
- The subscription's `unsubscribe` on unmount, and Login and Processing being unmounted and remounted: component lifecycle. A fresh `Processing` object stands for a remounted screen.
- The Gemini SDK and `JSON.parse`: foreign libraries, modelled as the two function parameters. Which texts parse to which values is not modelled.
- `alert` after sign-up, `console.error`, and the 2500 ms `setInterval` period: side effects and timing; only the index step and the logged text are modelled.
- Real asynchrony: events are applied one at a time in some order. `HandleLogout` is the single step at which `signOut()` has resolved (nothing changes before the await). A completion event is not tied to an earlier start.
- `AppController.Render`: a truthy value that is not a complete plan is one screen, `IncompleteResultScreen`. `PlanResult` would throw while rendering if an array field is missing and render with a blank goal if only `goal` is missing; the model does not tell these apart.
- `AppController.Enabled`: "new board" is offered only for a complete plan. On an incomplete value that still renders, the button would appear; the model does not offer it.
- `AppController.App.SubmitLogin`: states only what it guarantees about the App and the form's `loading`; the rest of the form's new state is `LoginForm.Login.HandleAuth`'s contract.

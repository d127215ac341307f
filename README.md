# Arth-Sarthi chat controller, modelled in Dafny

Arth-Sarthi is a personal-finance chat assistant. Its main screen
(`my-app/src/App.jsx`) holds four pieces of logic, and this project models
them:

- **Command router and executor.** It trims the typed or spoken message and routes it.
  - The first rule that matches wins: an expense text (the message contains "at" and a rupee amount), then an "add goal" command, then a request for advice.
  - The executor makes the remote call the route needs and appends exactly one answer to the transcript.
  - Further submissions are ignored while the processing flag is set. A dashboard reload that finishes meanwhile clears the flag, and a second send is then accepted.
- **Voice capture session.** The `isListening` flag and the speech-engine instances the listening effect creates, restarts and stops.
  - Engine events arrive as method calls: result, error and end.
- **Dashboard aggregator.** Six reads that replace the snapshot together or not at all.
  - A 401 signs the user out.
  - A mood held in the profile overrides the chat mood.
- **Level and experience.** Both are shown in the header and derived from the user's points.

Layout:

- `wrappers.dfy`: `Option` and `Reply` (a remote call's `Success(value)` or `Failure(status)`).
- `text.dfy`: the JavaScript string operations the router uses.
  - `trim`, ASCII `toLowerCase`, `includes`, `startsWith`, and `split`/`join` on one character.
  - The round trips between split and join are proved here.
- `intents.dfy`: the router as a pure function, `Classify`, and its character-level characterisation.
- `progress.dfy`: level and experience.
- `coach.dfy`: the controller class with the transcript, input, single-flight flag, mood, voice session, dashboard and token.
  - Also here: the executor's answer function `Dispatch`, and the `onresult` loop.

Remote calls and engine events are inputs. Each remote call is a `Reply`; the mood helper `analyzeMoodFromQuery` is a function parameter (it lives in `utils/helpers`, which is not part of this model). Engine events are method calls carrying the instance's identifier.

Behaviours of the code worth noting, all of which the model keeps:
- A voice permission error only clears `isListening`; there is no separate "denied" state.
- A 401 during a chat command does not sign the user out; only the dashboard reload does.
- The user's own message carries no mood; the bot's answer carries the detected mood, and the error line carries none.
- The expense and goal confirmations include the check-mark and target emoji and the rupee sign.
  - In `App.jsx` these characters are stored as double-encoded UTF-8 byte sequences. The model uses the characters those bytes encode (U+2705, U+1F3AF, U+20B9).
- Switching listening off calls the engine's `stop`, not `abort`. A stopped engine may still deliver its final result, and that result replaces the input, even after a submission has just cleared it.
- The dashboard reload clears `isProcessing` when it finishes. This happens even while a submission still awaits its answer, so the next send goes through and two submissions are then in flight at once.

## Model

| member | source | states |
|---|---|---|
| Text.TrimSpec | my-app/src/App.jsx:230-234 | the trimmed message is a slice of the input with only whitespace around it, does not start or end with whitespace, and is empty exactly when the input is all whitespace |
| Text.TrimIdempotent | my-app/src/App.jsx:230-234 | trimming twice is trimming once |
| Text.ToLower | my-app/src/App.jsx:245 | lower-casing keeps the length, works character by character, and leaves no ASCII capital in the result |
| Text.ToLowerIdempotent | my-app/src/App.jsx:245 | lower-casing an already lower-cased text changes nothing |
| Text.Contains | my-app/src/App.jsx:245 | `includes` holds exactly when some position starts a copy of the substring |
| Text.Split | my-app/src/App.jsx:255 | `split(" ")` gives at least one part and no part holds a space |
| Text.JoinSplit | my-app/src/App.jsx:255-258 | joining the parts of a split with the same separator gives the message back |
| Text.SplitJoin | my-app/src/App.jsx:255-258 | splitting a join of separator-free parts gives the parts back |
| Text.SplitCount | my-app/src/App.jsx:255-256 | a split has one more part than the message has spaces, so "four parts or more" means "three spaces or more" |
| Intents.MatchAmountAt | my-app/src/App.jsx:245 | trying the regex `rs\.?\s?\d+` (case-insensitive) at one position succeeds exactly when rs, an optional dot, at most one whitespace character and a digit start there |
| Intents.FindAmount | my-app/src/App.jsx:245 | the regex test succeeds exactly when the amount pattern starts at some position |
| Intents.MentionsAtContains | my-app/src/App.jsx:245 | "at" in the lower-cased message is the same as an a/A followed by a t/T |
| Intents.Classify | my-app/src/App.jsx:245-269 | expense exactly when "at" and an amount occur, whatever else the message says; goal creation exactly when it is not an expense, starts with "add goal" (any case) and has four or more space-separated parts; the usage hint when it has fewer; advice otherwise; the expense carries the message itself |
| Intents.JoinOuterParts | my-app/src/App.jsx:257-258 | popping the last part and joining the parts from the third on gives the text between the second and the last separator |
| Intents.GoalShape | my-app/src/App.jsx:254-258 | a goal message reads back as its first two words, the title and the target, separated by single spaces; the title keeps its original case and the target holds no space |
| Intents.ExpenseExample | my-app/src/App.jsx:245 | "Paid Rs 500 at Starbucks" is an expense text |
| Intents.GoalExample | my-app/src/App.jsx:254-258 | "Add goal Vacation 20000" is the goal "Vacation" with target "20000" |
| Intents.UsageExample | my-app/src/App.jsx:254-264 | "Add goal Car" gets the usage hint |
| Intents.ExpenseBeatsGoalExample | my-app/src/App.jsx:245-254 | "Add goal Flat Rs 500000" starts with "add goal" and is still routed as an expense, because the expense test runs first |
| Progress.Level | my-app/src/App.jsx:319 | the level is the one whose band of 100 points holds the points (floor division plus one) |
| Progress.Xp | my-app/src/App.jsx:320 | the experience is JavaScript's remainder: below 100 in size, with the sign of the points, and it differs from the points by a multiple of 100 |
| Progress.LevelAndXp | my-app/src/App.jsx:319-320 | for points of zero or more, the level is at least 1, the experience is between 0 and 99, and (level - 1) * 100 + experience gives the points back |
| Progress.NegativePoints | my-app/src/App.jsx:319-320 | at -50 points the level is 0 and the experience is -50, and the two no longer add up to the points |
| Coach.ExpenseConfirmation | my-app/src/App.jsx:248 | the expense confirmation contains the parsed amount and the parsed merchant |
| Coach.GoalConfirmation | my-app/src/App.jsx:260 | the goal confirmation contains the goal's title and its target |
| Coach.DispatchOutcome | my-app/src/App.jsx:242-281 | the answer is a bot line. The parser is called (with the message) exactly for an expense text, the goal service exactly for a well-formed goal command, nothing exactly for a short one, and the advice service otherwise. A reload follows only a successful parse or goal. A parse failure gives the fixed hint; a goal or advice failure gives the fixed error line without a mood; every other answer carries the detected mood. A confirmation contains the amount and merchant, or the title and target, it confirms, and successful advice is shown verbatim |
| Coach.ExpenseScenario | my-app/src/App.jsx:245-249 | "Paid Rs 500 at Starbucks", parsed as 500 at Starbucks, gives "✅ Recorded expense: ₹500 at Starbucks." and a reload |
| Coach.GoalScenario | my-app/src/App.jsx:254-261 | "Add goal Vacation 20000" calls the goal service with ("Vacation", "20000"), confirms both values and reloads |
| Coach.UsageScenario | my-app/src/App.jsx:262-264 | "Add goal Car" gives only the usage hint and calls nothing, whatever the services would have returned |
| Coach.FirstAlternativesAppend | my-app/src/App.jsx:100-104 | the transcript of two runs of result segments is their two transcripts one after the other |
| Coach.CollectTranscript | my-app/src/App.jsx:101-104 | the `onresult` loop returns the first alternatives of all segments, concatenated in order |
| Coach.Controller.constructor | my-app/src/App.jsx:33-61 | the app starts with the stored token, an empty dashboard, the greeting as the only message, an empty input, the motivational mood, nothing in flight and no engine instance |
| Coach.Controller.StopListening | my-app/src/App.jsx:126-131 | leaving the listening state stops the capturing instance: it moves to the instances being stopped, none is capturing afterwards, and nothing else changes |
| Coach.Controller.ToggleListen | my-app/src/App.jsx:79-124 | the microphone button (lines 374 and 417) with the listening effect and its `start` call: it stops listening and its instance; otherwise, with a speech engine, it starts exactly one new instance; without one, nothing changes |
| Coach.Controller.OnResult | my-app/src/App.jsx:100-108 | a result event of a capturing instance, or the final result of one being stopped, replaces (does not extend) the input with the transcript of all segments, unless that transcript is blank; nothing else changes |
| Coach.Controller.OnError | my-app/src/App.jsx:110-115 | "not-allowed" and "service-not-allowed" end listening and stop the instance; any other error changes nothing |
| Coach.Controller.OnEnd | my-app/src/App.jsx:117-121 | an ended instance is restarted only if it is still current and the session is still listening; the end of a stopped instance is final, so it can deliver no further result; while not listening no instance is capturing |
| Coach.Controller.OnEndAsWritten | my-app/src/App.jsx:117-121 | the end handler as written restarts every ended instance whose `start` succeeds, stopped ones included |
| Coach.Controller.SetInput | my-app/src/App.jsx:414 | typing replaces the input and changes nothing else |
| Coach.Controller.Submit | my-app/src/App.jsx:229-240 | a blank input or a submission in flight is refused and changes nothing. Otherwise listening stops, the trimmed message is appended and awaits its answer, the input is cleared, the flag is set, and the mood becomes the helper's verdict on the message |
| Coach.Controller.Complete | my-app/src/App.jsx:242-281 | when an awaited call returns, exactly one answer (the one `Dispatch` gives for that message and mood) is appended, the submission leaves the in-flight list, and the flag is cleared; the input, the mood, the token and the dashboard are untouched |
| Coach.SubmitWhileInFlight | my-app/src/App.jsx:229-282 | while a submission awaits its answer, a second send is refused; after the answer the transcript has grown by exactly the message and its answer, the text typed meanwhile is still in the box, and nothing is in flight |
| Coach.ReloadReopensSend | my-app/src/App.jsx:164-240 | a reload that finishes while a submission awaits its answer clears the flag, so a second send is accepted and both submissions are in flight, in order |
| Coach.Controller.Logout | my-app/src/App.jsx:147-152 | the token and the user are cleared; nothing else changes |
| Coach.Controller.LoadDashboard | my-app/src/App.jsx:164-193 | all six fields are replaced together when all six reads succeed, and the mood becomes `MoodAfterLoad` of the profile: a non-empty mood in the profile replaces it, lower-cased. When a read fails, no field changes, except that a 401 on the reported read clears the token and the user. The flag is clear afterwards |
| Coach.HeaderPoints | my-app/src/App.jsx:319-321 | the header uses the user's points, and 0 without a user, which shows level 1 with no experience |
| Coach.StaleRestartAsWritten | my-app/src/App.jsx:117-132 | with the end handler as written, switching the microphone on and off and then ending the instance leaves an instance capturing while not listening, and its next result overwrites the input |
| Coach.NoRestartAfterStop | my-app/src/App.jsx:117-132 | the same steps with the guard read at event time: the stopped instance delivers its final result and then ends, after which no instance is capturing or being stopped, so no further result event can reach the input |

## Left out

- Rendering, tabs, modals, confetti and scrolling: presentation only.
- The profile modal, the header component and `handleAddExpense`, `handleUpdateProfile`, `handleGoalComplete`, `handleLoginSuccess` and `handleGuestLogin`. These are UI forms and forwarding handlers outside the controller core. `handleAddExpense`'s `Number(...)` conversion is numeric coercion of form input.
- `analyzeMoodFromQuery`: not part of this model. It is a total function parameter of `Submit`.
- The HTTP layer, Google sign-in, `localStorage`, `API.setAuthToken`, `alert` and console logging: I/O and foreign calls. Their outcomes are `Reply` inputs; the storage writes are not modelled.
- Real concurrency:
  - `Promise.all` is one atomic step. Which failed read it reports is the `rejected` parameter.
  - The await inside the send action splits it into `Submit` and `Complete`. Each remote call's outcome is a parameter of `Complete`.
  - The un-awaited reload after an expense or goal is the `refresh` result of `Complete`; the reload itself is a separate `LoadDashboard` call, and its own await is not split.
  - React's batching of state updates is not modelled.
- The speech engine's audio and accuracy. Its events are method calls. A result event's segments are required to hold at least one alternative each, as the engine guarantees.
- The `InputBox` component is not part of this model. Its `disabled` input is not modelled; the send action's own guard is.
- Text.ToLower: lower-cases ASCII letters only. This is exact for the "at", "add goal" and `rs` tests, because no other character lower-cases to those letters. It is not exact for a non-ASCII `moodState`.
- Progress.Level: uses whole-number points. The service's points are JavaScript numbers, and fractional points are not modelled.
- Coach.Controller.LoadDashboard: a profile field `moodState` that is not a string is not modelled; it is an optional string here.
- The response of the advice service is taken to carry its `message`; a response without one is not modelled.

## Findings

| source | as written | input that shows it | evidently intended | confidence | as-written member | corrected member |
|---|---|---|---|---|---|---|
| my-app/src/App.jsx:117-121 | the `onend` guard reads the `isListening` captured when the effect created the instance, which is always true, so an instance stopped by the cleanup restarts when its end event arrives | switch the microphone on, switch it off, let the stopped instance end (its `start` succeeds), then speak: the instance is capturing while `isListening` is false, and its result replaces the input | restart only while the session is still listening and the instance is still the current one; once a stopped instance has ended, none of its results reaches the input | not executed | Coach.StaleRestartAsWritten | Coach.Controller.OnEnd |

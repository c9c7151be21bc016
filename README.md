# Aura Sentinel chat round trip, in Dafny

This project models the chat controller of the `App` component of LifeAx (`index.tsx`), together with the send gate of its `ChatInput`. The parts modelled:

- **The send.** `handleSendMessage` is refused while a request is loading or a cooldown runs. Otherwise it appends the user turn and an empty assistant placeholder, runs the query, and ends with the cleanup in `finally`.
- **The query.** `executeQuery` builds the request: the last six turns, the model chosen by the attempt number, and the system instruction made from the stored profile. It then consumes the response stream fragment by fragment, rewriting the placeholder with the accumulated text, and stops quietly once the abort signal is set.
- **Errors.** A failure whose message mentions `429` or, in any letter case, `quota` is a rate limit. It starts a 15 s cooldown and shows the traffic-surge banner. Every failure is re-thrown and then swallowed by the send.
- **The cooldown.** After a normal return the send starts a 4 s cooldown. `startCooldown` replaces any running interval, and each tick counts down to zero and then clears the interval.

The component's state is written twice:

- `Session.State` describes it as a value. Each operation is a function from the state before to the state after, and the properties are proved about those functions as lemmas.
- `App.Controller` is a class whose fields are that state and whose methods perform each step in place. The stream loop is a `while` loop with its invariants. Every method's postcondition says that its new state, and what it returns, is the matching `Session` function applied to the old state.
- A state is *consistent* when `Session.Valid` holds. Message ids are distinct and below `nextId`. At most one interval runs, the one the ref holds, and a positive cooldown has it running. Every mutating method of the class keeps a consistent state consistent.

The other modules:

- `Text`: `includes`, ASCII `toLowerCase` and `trim`.
- `Transcript`: messages, their ids, and the update sink.
- `Baseline`: the stored profile.
- `Query`: the request.
- `Stream`: fragments, accumulation and abort.
- `RateLimit`: error classification.
- `Cooldown`: the countdown arithmetic.

The environment becomes parameters:

- **The model service's answer** is a `Response`. Either it rejects the request (`Refused`), or it streams a sequence of fragments, each with or without text, that ends normally or with an error (`Streamed`).
- **A press of the Stop button** is `abortAt`: `Some(k)` means the button is pressed before fragment k is looked at. `k` equal to or greater than the number of fragments means a press while the end of the stream is awaited. With a refused request, `Some(_)` means a press while the request is pending.
- **The clock values** the two messages carry are `userStamp` and `assistantStamp`.
- **Message ids** come from a counter `nextId`. This gives the freshness `generateId` is relied on for.
- **Intervals** are ids: a `running` set, the ref `timerRef` (0 standing for `null`), and a counter `nextTimer`.

Two consequences of the code are worth noting:

- `executeQuery` receives `[...messages, userMsg]` (index.tsx:270-276). So the empty assistant placeholder, appended afterwards, is never part of the request.
- A stopped query returns normally (index.tsx:247). So the send still starts the 4 s cooldown (index.tsx:279), as `Session.SendAbortedStillCoolsDown` states.

## Model

| member | source | states |
|---|---|---|
| Query.SliceFrom | index.tsx:229 | a negative start keeps the last min(n, -start) elements; a non-negative start drops that many from the front |
| Query.ApiRoleOf | index.tsx:230 | a turn is sent as `user` exactly when its role is `user`; every other role is sent as `model` |
| Query.ToContent | index.tsx:229-232 | the content entry carries the message text unchanged and its mapped role |
| Query.ContextWindowIsRecentTurns | index.tsx:229-232 | the window has min(\|history\|, 6) entries; entry i is the turn at the same position among the last ones, in order, with the same text, sent as `user` iff it is a user turn |
| Query.ContextWindowEndsWithNewest | index.tsx:229-232 | the newest turn of the history is always the last entry of the window |
| Query.ModelIndex | index.tsx:217-219 | the clamped index is always inside the model list; attempt 0 picks the first model and every later attempt the last |
| Query.StatusProcessingIffFirst | index.tsx:220 | the status line is "Processing..." exactly on the first attempt |
| Query.AuthorityText | index.tsx:224 | the phrase is one of the two, and it is "authoritative mentor" exactly when a profile exists and prefers a mentor |
| Query.DossierNamesProfile | index.tsx:225-227 | the dossier of a profile contains its name, its primary goal and its main blocker |
| Query.DossierShape | index.tsx:225-227 | both dossiers start with "USER DOSSIER: ", and a profile never yields the placeholder dossier |
| Query.ContextWindow | index.tsx:229-232 | models `history.slice(-6).map(...)`; `Query.ContextWindowIsRecentTurns` and `Query.ContextWindowEndsWithNewest` state its contents |
| Query.ModelFor | index.tsx:218-219 | the model is one of the two listed, and attempt 0 asks the first |
| Query.StatusFor | index.tsx:220 | models the status line set before the request; `Query.StatusProcessingIffFirst` states when it is "Processing..." |
| Query.Dossier | index.tsx:225-227 | models `baselineContext`; `Query.DossierNamesProfile` and `Query.DossierShape` state its contents |
| Query.InstructionFor | index.tsx:224-227 | models the dossier and the authority phrase computed from the profile; `Session.SendRequestContents` states that a send's request carries them |
| Query.InstructionText | index.tsx:238-239 | models the `systemInstruction` template literal; `Query.InstructionCarriesDossier` and `Query.InstructionCarriesAuthority` state what it contains |
| Query.BuildRequest | index.tsx:234-242 | models the arguments of `generateContentStream`; `App.Controller.ExecuteQuery` issues it and `Session.SendRequestContents` states its contents |
| Query.InstructionCarriesDossier | index.tsx:238-239 | the rendered system instruction contains the dossier |
| Query.InstructionCarriesAuthority | index.tsx:238-239 | the rendered system instruction contains the authority phrase |
| Text.Contains | index.tsx:252 | models `String.prototype.includes`; `Text.ContainsIffOccurs` states its meaning |
| Text.Trim | index.tsx:68 | models `value.trim()`; `Text.TrimEmptyIffBlank` states when it is empty |
| Text.ContainsIffOccurs | index.tsx:252 | `includes` holds exactly when the needle occurs at some index |
| Text.LowerChar | index.tsx:252 | a capital ASCII letter becomes its own lower-case letter (32 code points further on) and every other character is kept |
| Text.ToLower | index.tsx:252 | lower-casing keeps the length and maps each character by itself |
| Text.ContainsLowerCaseless | index.tsx:252 | a needle with no letters at all occurs in a text exactly when it occurs in the lower-cased text |
| Text.TrimEmptyIffBlank | index.tsx:68 | the trimmed input is empty exactly when every character is white space |
| RateLimit.IsRateLimit | index.tsx:252 | models the rate-limit test, an absent message failing both parts; the lemmas below state which messages pass |
| RateLimit.RateLimitCaseInsensitive | index.tsx:252 | lower-casing a message does not change whether it is a rate limit |
| RateLimit.StatusCodeIsRateLimit | index.tsx:252 | a message with "429" anywhere in it is a rate limit |
| RateLimit.QuotaIsRateLimit | index.tsx:252 | a message with "quota" anywhere in it, in any letter case, is a rate limit |
| RateLimit.StatusCodeExample | index.tsx:252 | "Error: 429 Too Many Requests" is a rate limit |
| RateLimit.QuotaExample | index.tsx:252 | "Quota Exceeded" is a rate limit |
| Cooldown.NextCooldown | index.tsx:178-184 | a tick never raises the countdown; it yields zero exactly from one or less, and otherwise one less |
| Cooldown.CountdownReachesZero | index.tsx:177-185 | from n, k ticks give n - k while k <= n, and zero from then on |
| Stream.ChunkText | index.tsx:248 | models `(chunk as any).text \|\| ''` |
| Stream.Accumulated | index.tsx:245-248 | models `fullText` after the given fragments; `Stream.AccumulatedAppend` states it is concatenation |
| Stream.Updates | index.tsx:246-249 | models the successive `onUpdate` arguments; the lemmas below state their growth |
| Stream.QueryOutcome | index.tsx:246-258 | models how `executeQuery` ends: a normal return after a stop or the end of the stream, otherwise the error re-thrown; `Stream.AbortBeforeChunk` and `Stream.NoAbortProcessesAll` state it |
| Stream.AccumulatedAppend | index.tsx:248 | the text accumulated over two runs of fragments is the concatenation of their accumulated texts |
| Stream.AbortLosesRest | index.tsx:247-249 | a Stop press before fragment j loses exactly the text of fragments j onwards: the reply left, followed by that text, is the uninterrupted reply |
| Stream.UpdatesGrow | index.tsx:245-250 | every `onUpdate` argument extends each earlier one, and consecutive arguments differ by the newer fragment's text, `''` when it has none |
| Stream.UpdatesSnoc | index.tsx:246-249 | one more fragment adds exactly one update: the text so far followed by that fragment's text |
| Stream.FinalTextIsAccumulated | index.tsx:245-249 | after the loop the last argument is the concatenation of all processed fragments' texts |
| Stream.UpdatesExample | index.tsx:248 | fragments "A", none, "B" give the arguments "A", "A", "AB" |
| Stream.StopIndex | index.tsx:247 | the loop never processes more fragments than the stream has |
| Stream.AbortBeforeChunk | index.tsx:247 | a Stop press before fragment j gives exactly j updates, the last holding the first j fragments' text, and a normal return that is not a rate limit |
| Stream.NoAbortProcessesAll | index.tsx:235-250 | without a Stop press every fragment reaches the sink, and the outcome is the rejection, the stream's error, or a normal return |
| Transcript.SetText | index.tsx:277 | the sink keeps the transcript's length |
| Transcript.SetTextOnly | index.tsx:277 | with distinct ids the sink rewrites exactly the text of the one message carrying the id |
| Transcript.SetTextAbsent | index.tsx:277 | an id no message carries leaves the transcript unchanged |
| Transcript.SetTextTwice | index.tsx:277 | of two rewrites of one message only the later is visible |
| Transcript.SetTextLast | index.tsx:272-277 | rewriting a freshly appended message leaves all earlier messages untouched |
| Transcript.SetTextKeepsIds | index.tsx:277 | the sink keeps ids distinct and below their bound |
| Transcript.AppendKeepsIds | index.tsx:265-273 | appending a message with a fresh id keeps ids distinct and raises the bound past it |
| Transcript.IdsBelowExcludes | index.tsx:265-266 | an id at or beyond the bound is carried by no message |
| Session.StartCooldown | index.tsx:174-177 | models `startCooldown`: the count is set, the held interval cleared, a new one started; `Session.StartCooldownReplacesTimer` states it |
| Session.Tick | index.tsx:178-184 | models one firing of the interval; `Session.TicksCountDown` states where repeated firings lead |
| Session.Abort | index.tsx:433 | models `abortControllerRef.current?.abort()`; `Session.AbortEffect` states it |
| Session.QueryError | index.tsx:251-257 | models the catch of `executeQuery` before the re-throw; `Session.QueryErrorEffect` states it |
| Session.ConsumeChunks | index.tsx:245-250 | models the `for await` loop in closed form; `App.Controller.ConsumeChunks` runs it as a loop, and `Session.ExecuteQueryStream` relates it to the stream functions |
| Session.ConsumeStream | index.tsx:244-258 | models the opened stream: the loop, a press while its end is awaited, and the end |
| Session.ExecuteQuery | index.tsx:212-259 | models `executeQuery` on the state; the `Session.ExecuteQuery...` lemmas state its effects |
| Session.UserTurn | index.tsx:269 | models the `userMsg` literal, with the next fresh id; `Session.SendTranscript` states where it lands |
| Session.Placeholder | index.tsx:275 | models the empty assistant placeholder, with the id after the user turn's; `Session.SendTranscript` states what it ends holding |
| Session.SendPermitted | index.tsx:262 | models the guard of `handleSendMessage`; `Session.SendIgnoredWhileBusy` states that a refused send changes nothing |
| Session.SubmitPermitted | index.tsx:68 | models the guard of `ChatInput.handleSend`; `Session.SubmitGate` states when the input sends |
| Session.BeginRoundTrip | index.tsx:263-275 | models the flags and the two appended turns before the query |
| Session.FinishRoundTrip | index.tsx:279-286 | models the 4 s cooldown after a normal return and the `finally` cleanup; `Session.FinishRoundTripEffect` states it |
| Session.Send | index.tsx:261-287 | models `handleSendMessage`; the `Session.Send...` lemmas state its effects |
| Session.SendQuery | index.tsx:274-278 | models the query a permitted send runs, on the state with both turns appended |
| Session.SendRequest | index.tsx:270-276 | models the request a send issues, built from `[...messages, userMsg]`; `Session.SendRequestContents` states it |
| Session.Submit | index.tsx:67-72 | models `ChatInput.handleSend`; `Session.SubmitGate` states its gate |
| Session.AbortEffect | index.tsx:433 | the Stop button marks an existing controller aborted, does nothing without one, changes nothing else, and keeps the state consistent |
| Session.SameTranscriptKeepsValid | index.tsx:174-186 | touching only the intervals, never the transcript or the id counter, keeps the state consistent |
| Session.StartCooldownKeepsValid | index.tsx:174-177 | `startCooldown` keeps the state consistent |
| Session.Initial | index.tsx:127-152 | the mounted component is consistent, with an empty transcript, nothing loading, no cooldown and no interval |
| Session.StartCooldownReplacesTimer | index.tsx:174-177 | the countdown shows the new value; exactly one interval runs, a new one, and none of the old ones survives; nothing else changes |
| Session.TickKeepsValid | index.tsx:178-184 | a tick keeps the state consistent, never raises the countdown, and touches only the timers |
| Session.TicksCountDown | index.tsx:177-185 | a running cooldown of c shows c - k after k ticks, and its interval runs exactly while k < c |
| Session.CooldownRunsOut | index.tsx:174-186 | seconds ticks after `startCooldown(seconds)` the countdown is zero and no interval runs |
| Session.QueryErrorEffect | index.tsx:251-257 | a rate limit starts the 15 s cooldown with a new interval and sets the banner; any other error changes nothing |
| Session.ConsumeChunksKeepsValid | index.tsx:245-250 | the stream loop keeps the state consistent |
| Session.ExecuteQueryStream | index.tsx:244-250 | the sink receives one accumulated text per processed fragment, the query ends as the response and the Stop press decide, and only the target message is rewritten |
| Session.ExecuteQueryFlags | index.tsx:220-247 | the status line is left at the attempt's text only when the request is refused, and cleared once the stream opens; a Stop press leaves the controller aborted; loading and ids are untouched |
| Session.ExecuteQueryErrors | index.tsx:251-258 | only a rate limit touches the cooldown and the banner (15 s, traffic surge, one new interval); otherwise both are unchanged |
| Session.ExecuteQueryKeepsValid | index.tsx:212-259 | a query keeps the state consistent |
| Session.SendIgnoredWhileBusy | index.tsx:262 | while loading or cooling down a send changes nothing and issues no request |
| Session.BeginRoundTripKeepsValid | index.tsx:263-273 | appending the two turns with fresh ids keeps the state consistent |
| Session.FinishRoundTripEffect | index.tsx:279-286 | the cleanup stops loading, clears the status and the controller, and starts the 4 s cooldown only after a normal return; the transcript and the banner are kept |
| Session.FinishRoundTripKeepsValid | index.tsx:279-286 | the cleanup keeps the state consistent |
| Session.SendIsQuery | index.tsx:274-277 | a send's transcript is the one its query leaves, and the sink receives the updates the response and the Stop press determine |
| Session.SendTranscript | index.tsx:269-277 | a permitted send appends exactly the user turn and the assistant turn holding the final accumulated text; earlier turns are untouched |
| Session.SendCleansUp | index.tsx:282-286 | every permitted send ends with nothing loading, no status text, no abort controller, and two ids used |
| Session.SendQueryOutcome | index.tsx:276 | the query of a send ends as the response and the Stop press decide |
| Session.SendQueryErrors | index.tsx:263-276 | a send's query sets the banner and the 15 s cooldown for a rate limit only; otherwise the banner stays cleared and the timers are untouched |
| Session.SendCooldown | index.tsx:263-281 | after a permitted send: a normal return gives the 4 s cooldown and no banner; a rate limit gives 15 s and the banner; any other failure gives no banner and leaves the timers alone |
| Session.SendRequestContents | index.tsx:229-276 | a permitted send asks the first model, the last entry of the context is the user's text, and the instruction is made from the profile |
| Session.SendQueryKeepsValid | index.tsx:263-276 | a send's query keeps the state consistent |
| Session.SendKeepsValid | index.tsx:261-287 | every send keeps the state consistent |
| Session.SendAbortedStillCoolsDown | index.tsx:247-279 | a Stop press before fragment j leaves the reply at the first j fragments' text, and still ends with the 4 s cooldown and no banner |
| Session.SubmitGate | index.tsx:67-72 | the input sends exactly when its text is not all white space and nothing is loading or cooling down; otherwise nothing changes |
| App.Controller.constructor | index.tsx:127-152 | the fields start as the mounted component's state |
| App.Controller.StartCooldown | index.tsx:174-177 | the fields become `Session.StartCooldown` of the old ones; a consistent state stays consistent |
| App.Controller.Tick | index.tsx:177-185 | the fields become `Session.Tick` of the old ones; a consistent state stays consistent |
| App.Controller.Abort | index.tsx:433 | the fields become `Session.Abort` of the old ones; a consistent state stays consistent |
| App.Controller.CatchQueryError | index.tsx:251-257 | the fields become `Session.QueryError` of the old ones; a consistent state stays consistent |
| App.Controller.ConsumeChunks | index.tsx:244-250 | the loop's fields, `onUpdate` arguments and early return are those of `Session.ConsumeChunks`; a consistent state stays consistent |
| App.Controller.ConsumeStream | index.tsx:244-258 | the fields, updates and outcome are those of `Session.ConsumeStream`; a consistent state stays consistent |
| App.Controller.ExecuteQuery | index.tsx:212-259 | the request is `BuildRequest` of the history, the profile and the attempt; the fields, updates and outcome are those of `Session.ExecuteQuery`; a consistent state stays consistent |
| App.Controller.BeginRoundTrip | index.tsx:263-273 | the fields become `Session.BeginRoundTrip` of the old ones; a consistent state stays consistent |
| App.Controller.FinishRoundTrip | index.tsx:279-286 | the fields become `Session.FinishRoundTrip` of the old ones; a consistent state stays consistent |
| App.Controller.Send | index.tsx:261-287 | the fields become `Session.Send` of the old ones, and the issued request is `Session.SendRequest`; a consistent state stays consistent |
| App.Controller.Submit | index.tsx:67-72 | the fields become `Session.Submit` of the old ones, and a request is issued only when the input may send; a consistent state stays consistent |

## Left out

- The model service (`GoogleGenAI`, `generateContentStream`) is not modelled. Its answer is the `Response` parameter, and the request handed to it is returned as a `Request` value.
- The API key and the `temperature` setting are not part of `Request`. The key comes from the environment, and the temperature is a floating-point setting passed through untouched.
- The system instruction is kept in the `Request` as its two variable parts, the dossier and the authority phrase. `Query.InstructionText` renders the template around them character for character, and the lemmas about it are stated on that rendering.
- Asynchrony is not modelled: `await`, `for await`, React's batching of state updates, and `useCallback` closures. Each operation runs to completion in order, and a Stop press can only fall at the points `abortAt` names.
- `window.setInterval` and `clearInterval` are modelled as interval ids. One firing of the running interval is an explicit `Tick`, and real time is not modelled.
- `Date.now()` is replaced by the timestamp parameters.
- `generateId` (utils.ts is not part of this model) is replaced by the counter `nextId`. Only the ids' freshness is used.
- `console.error` in the send's `catch` is not modelled. It is output only; the error is otherwise swallowed, as modelled.
- `setActiveView('chat')` and the other view routing, the scrolling effect and all rendering are not modelled. The same goes for the onboarding wizard, `handleAuth`, `localStorage` and the AI Studio key selection.
- Retry with another model is not modelled. No caller passes a non-zero attempt, so `attempt` appears only as a parameter of `ExecuteQuery` and of the request functions.
- `Text.ToLower`: only the ASCII letters A-Z are lowered. JavaScript's `toLowerCase` also lowers other alphabets, which cannot change whether "quota" occurs.
- `Text.Trim`: uses the white-space and line-terminator characters of ECMAScript listed in `Text.IsJsSpace`. Lone surrogates and other encoding questions are not modelled.
- The contents of the input box are not modelled. `ChatInput.handleSend` also clears it with `setValue('')` (index.tsx:70), and `Submit` takes the value as a parameter.
- The `role: 'system-error'` message is part of the `Message` type but is never created by the code modelled here.

/**
 * The controller's state as a value, and each of its operations as a
 * function from the state before to the state after. The class in App runs
 * these operations in place and is proved to agree with them; the
 * properties the controller promises are proved here, about the functions.
 */
module Session {
  import opened Wrappers
  import opened Text
  import opened Transcript
  import opened Baseline
  import opened Query
  import opened RateLimit
  import opened Stream
  import opened Cooldown

  /**
   * The component state the round trip touches. `timerRef` is
   * `cooldownTimerRef.current` (0 for `null`), `running` the intervals still
   * scheduled, `nextTimer` the id the next `setInterval` returns (ids are
   * positive), `abortRef` is `abortControllerRef.current`, and `nextId` the
   * next id the id generator hands out.
   */
  datatype State = State(
    messages: seq<Message>,
    isLoading: bool,
    statusText: string,
    apiError: Option<string>,
    cooldown: nat,
    timerRef: nat,
    running: set<nat>,
    nextTimer: nat,
    abortRef: Option<AbortController>,
    nextId: nat)

  /**
   * Message ids are distinct and below `nextId`; at most one interval runs,
   * the one the ref holds; a positive cooldown has its interval running.
   */
  predicate Valid(s: State) {
    && IdsDistinct(s.messages)
    && IdsBelow(s.messages, s.nextId)
    && TimersValid(s)
  }

  /** The interval part of the invariant. */
  predicate TimersValid(s: State) {
    && 0 !in s.running
    && s.running <= {s.timerRef}
    && 0 < s.nextTimer
    && s.timerRef < s.nextTimer
    && (s.cooldown > 0 ==> s.running == {s.timerRef})
  }

  predicate TimerActive(s: State) {
    s.running != {}
  }

  /** Only the four timer fields may differ. */
  predicate SameExceptTimer(s: State, t: State) {
    t == s.(cooldown := t.cooldown, timerRef := t.timerRef, running := t.running, nextTimer := t.nextTimer)
  }

  /** The state when the component mounts. */
  function Initial(): (s: State)
    ensures Valid(s) && s.messages == [] && !s.isLoading && s.cooldown == 0 && !TimerActive(s)
  {
    State([], false, "", None, 0, 0, {}, 1, None, 0)
  }

  // ---------------------------------------------------------------- cooldown

  /** `startCooldown(seconds)`: clear the interval the ref holds, then start a new one. */
  function StartCooldown(s: State, seconds: nat): State {
    var cleared := if s.timerRef != 0 then s.running - {s.timerRef} else s.running;
    s.(cooldown := seconds, timerRef := s.nextTimer, running := cleared + {s.nextTimer},
       nextTimer := s.nextTimer + 1)
  }

  /**
   * A new cooldown replaces the old one: the countdown shows the new value,
   * exactly one interval runs afterwards, and it is not one that ran before.
   */
  lemma StartCooldownReplacesTimer(s: State, seconds: nat)
    requires TimersValid(s)
    ensures var t := StartCooldown(s, seconds);
      && TimersValid(t)
      && t.cooldown == seconds
      && t.running == {t.timerRef}
      && s.running !! t.running
      && SameExceptTimer(s, t)
  {
  }

  /** A state that keeps the transcript and the id counter stays consistent when its intervals do. */
  lemma SameTranscriptKeepsValid(s: State, t: State)
    requires Valid(s) && TimersValid(t)
    requires t.messages == s.messages && t.nextId == s.nextId
    ensures Valid(t)
  {
  }

  lemma StartCooldownKeepsValid(s: State, seconds: nat)
    requires Valid(s)
    ensures Valid(StartCooldown(s, seconds))
  {
    StartCooldownReplacesTimer(s, seconds);
    SameTranscriptKeepsValid(s, StartCooldown(s, seconds));
  }

  /** One firing of the running interval (the updater `prev <= 1 ? 0 : prev - 1`); none without one. */
  function Tick(s: State): State {
    if s.running == {} then s
    else
      var stop := s.cooldown <= 1 && s.timerRef != 0;
      s.(cooldown := NextCooldown(s.cooldown), running := if stop then s.running - {s.timerRef} else s.running)
  }

  function Ticks(s: State, n: nat): State {
    if n == 0 then s else Tick(Ticks(s, n - 1))
  }

  lemma TickKeepsValid(s: State)
    requires Valid(s)
    ensures Valid(Tick(s)) && SameExceptTimer(s, Tick(s))
    ensures Tick(s).cooldown <= s.cooldown
  {
  }

  /**
   * A running cooldown of c seconds shows c - k after k ticks and keeps its
   * interval until it reaches zero, when the interval is cleared.
   */
  lemma {:induction false} TicksCountDown(s: State, k: nat)
    requires Valid(s) && s.cooldown > 0
    requires k <= s.cooldown
    ensures var t := Ticks(s, k);
      && Valid(t)
      && t.cooldown == s.cooldown - k
      && t.cooldown == CooldownAfter(s.cooldown, k)
      && (TimerActive(t) <==> k < s.cooldown)
      && SameExceptTimer(s, t)
      && t.timerRef == s.timerRef && t.nextTimer == s.nextTimer
  {
    CountdownReachesZero(s.cooldown, k);
    if k > 0 {
      TicksCountDown(s, k - 1);
    }
  }

  /** After `startCooldown(n)` with n > 0, n ticks bring the countdown to zero and stop the interval. */
  lemma CooldownRunsOut(s: State, seconds: nat)
    requires Valid(s) && seconds > 0
    ensures var t := Ticks(StartCooldown(s, seconds), seconds);
      t.cooldown == 0 && !TimerActive(t) && Valid(t)
  {
    StartCooldownReplacesTimer(s, seconds);
    TicksCountDown(StartCooldown(s, seconds), seconds);
  }

  // ------------------------------------------------------------------- query

  /** `abortControllerRef.current?.abort()`. */
  function Abort(s: State): State {
    if s.abortRef.Some? then s.(abortRef := Some(AbortController(true))) else s
  }

  /**
   * The Stop button marks an existing controller aborted, does nothing
   * without one, and touches no other part of the state.
   */
  lemma AbortEffect(s: State)
    ensures Abort(s).abortRef == if s.abortRef.Some? then Some(AbortController(true)) else None
    ensures Abort(s) == s.(abortRef := Abort(s).abortRef)
    ensures Valid(s) ==> Valid(Abort(s))
  {
  }

  /** The `catch` of `executeQuery` before the re-throw. */
  function QueryError(s: State, e: Error): State {
    if IsRateLimit(e.message) then StartCooldown(s, RateLimitCooldown).(apiError := Some(SurgeMessage))
    else s
  }

  /** The loop's result: the state, the `onUpdate` arguments, and whether it returned early. */
  datatype Chunked = Chunked(state: State, updates: seq<string>, stopped: bool)

  /** The state after the `for await` loop over `chunks`, with the sink rewriting `assistantId`. */
  function ConsumeChunks(s: State, chunks: seq<Chunk>, assistantId: nat, abortAt: Option<nat>): Chunked {
    var k := StopIndex(|chunks|, s.abortRef, abortAt);
    var updates := Updates(chunks[..k]);
    var stopped := k < |chunks|;
    var messages := if updates == [] then s.messages else SetText(s.messages, assistantId, FinalText(updates));
    var signal := if stopped then SignalAfter(s.abortRef, abortAt) else s.abortRef;
    Chunked(s.(messages := messages, abortRef := signal), updates, stopped)
  }

  /** A query's result: the state, the `onUpdate` arguments, and how it ended. */
  datatype Step = Step(state: State, updates: seq<string>, outcome: Outcome)

  /** The stream after it is opened: the loop, a Stop press while its end is awaited, and the end. */
  function ConsumeStream(s: State, chunks: seq<Chunk>, tail: Tail, assistantId: nat, abortAt: Option<nat>): Step {
    var c := ConsumeChunks(s, chunks, assistantId, abortAt);
    if c.stopped then Step(c.state, c.updates, Returned)
    else
      var t := if abortAt.Some? && abortAt.value >= |chunks| then Abort(c.state) else c.state;
      match tail
      case Ends => Step(t, c.updates, Returned)
      case Fails(e) => Step(QueryError(t, e), c.updates, Threw(e))
  }

  /** `executeQuery(_, history, onUpdate, attempt)` with the sink rewriting `assistantId`. */
  function ExecuteQuery(s: State, assistantId: nat, response: Response, abortAt: Option<nat>, attempt: nat): Step {
    var opening := s.(statusText := StatusFor(attempt));
    match response
    case Refused(e) =>
      var t := if abortAt.Some? then Abort(opening) else opening;
      Step(QueryError(t, e), [], Threw(e))
    case Streamed(chunks, tail) =>
      ConsumeStream(opening.(statusText := ""), chunks, tail, assistantId, abortAt)
  }

  /** The error path: a rate limit starts the 15 s cooldown and sets the banner; any other error changes nothing. */
  lemma QueryErrorEffect(s: State, e: Error)
    requires TimersValid(s)
    ensures var t := QueryError(s, e);
      && TimersValid(t)
      && t.messages == s.messages && t.isLoading == s.isLoading && t.statusText == s.statusText
      && t.abortRef == s.abortRef && t.nextId == s.nextId
      && (IsRateLimit(e.message) ==>
            t.cooldown == RateLimitCooldown && t.apiError == Some(SurgeMessage)
            && t.running == {t.timerRef} && t.timerRef == s.nextTimer)
      && (!IsRateLimit(e.message) ==> t == s)
  {
    StartCooldownReplacesTimer(s, RateLimitCooldown);
  }

  /** The sink only rewrites texts, so the loop keeps the state invariant. */
  lemma ConsumeChunksKeepsValid(s: State, chunks: seq<Chunk>, assistantId: nat, abortAt: Option<nat>)
    requires Valid(s)
    ensures Valid(ConsumeChunks(s, chunks, assistantId, abortAt).state)
  {
    var k := StopIndex(|chunks|, s.abortRef, abortAt);
    SetTextKeepsIds(s.messages, assistantId, FinalText(Updates(chunks[..k])), s.nextId);
  }

  /**
   * A query hands the sink one accumulated text per processed fragment, ends
   * as the response and the abort signal decide, and rewrites no message but
   * the one the sink targets.
   */
  lemma ExecuteQueryStream(s: State, assistantId: nat, response: Response, abortAt: Option<nat>, attempt: nat)
    ensures var q := ExecuteQuery(s, assistantId, response, abortAt, attempt);
      && q.updates == UpdatesOf(response, s.abortRef, abortAt)
      && q.outcome == QueryOutcome(response, s.abortRef, abortAt)
      && q.state.messages == (if q.updates == [] then s.messages
                              else SetText(s.messages, assistantId, FinalText(q.updates)))
  {
  }

  /** The status line and the abort controller after a query; the loading flag and ids are untouched. */
  lemma ExecuteQueryFlags(s: State, assistantId: nat, response: Response, abortAt: Option<nat>, attempt: nat)
    ensures var q := ExecuteQuery(s, assistantId, response, abortAt, attempt);
      && q.state.statusText == (if response.Refused? then StatusFor(attempt) else "")
      && q.state.abortRef == SignalAfter(s.abortRef, abortAt)
      && q.state.isLoading == s.isLoading && q.state.nextId == s.nextId
  {
    var opening := s.(statusText := StatusFor(attempt));
    match response
    case Refused(e) =>
    case Streamed(chunks, tail) =>
      var c := ConsumeChunks(opening.(statusText := ""), chunks, assistantId, abortAt);
      assert c.state.statusText == "" && c.state.isLoading == s.isLoading && c.state.nextId == s.nextId;
  }

  /**
   * A query re-throws every failure; it touches the cooldown and the banner
   * only for a rate limit, starting the 15 s cooldown, and keeps the invariant.
   */
  lemma ExecuteQueryErrors(s: State, assistantId: nat, response: Response, abortAt: Option<nat>, attempt: nat)
    requires TimersValid(s)
    ensures var q := ExecuteQuery(s, assistantId, response, abortAt, attempt);
      && TimersValid(q.state)
      && (RateLimited(q.outcome) ==>
            q.state.cooldown == RateLimitCooldown && q.state.apiError == Some(SurgeMessage)
            && q.state.running == {q.state.timerRef} && q.state.timerRef == s.nextTimer)
      && (!RateLimited(q.outcome) ==>
            q.state.cooldown == s.cooldown && q.state.apiError == s.apiError
            && q.state.running == s.running && q.state.timerRef == s.timerRef)
  {
    var opening := s.(statusText := StatusFor(attempt));
    match response
    case Refused(e) =>
      QueryErrorEffect(if abortAt.Some? then Abort(opening) else opening, e);
    case Streamed(chunks, tail) =>
      var c := ConsumeChunks(opening.(statusText := ""), chunks, assistantId, abortAt);
      if !c.stopped && tail.Fails? {
        QueryErrorEffect(if abortAt.Some? && abortAt.value >= |chunks| then Abort(c.state) else c.state, tail.error);
      }
  }

  /** A query keeps the state invariant: the sink only rewrites texts, and the ids are untouched. */
  lemma ExecuteQueryKeepsValid(s: State, assistantId: nat, response: Response, abortAt: Option<nat>, attempt: nat)
    requires Valid(s)
    ensures Valid(ExecuteQuery(s, assistantId, response, abortAt, attempt).state)
  {
    var opening := s.(statusText := StatusFor(attempt));
    match response
    case Refused(e) =>
      QueryErrorEffect(if abortAt.Some? then Abort(opening) else opening, e);
    case Streamed(chunks, tail) =>
      var open := opening.(statusText := "");
      ConsumeChunksKeepsValid(open, chunks, assistantId, abortAt);
      var c := ConsumeChunks(open, chunks, assistantId, abortAt);
      if !c.stopped && tail.Fails? {
        QueryErrorEffect(if abortAt.Some? && abortAt.value >= |chunks| then Abort(c.state) else c.state, tail.error);
      }
  }


  // ------------------------------------------------------------------- send

  function UserTurn(s: State, text: string, userStamp: int): Message {
    Message(s.nextId, User, text, userStamp)
  }

  function Placeholder(s: State, assistantStamp: int): Message {
    Message(s.nextId + 1, Assistant, "", assistantStamp)
  }

  /** The synchronous start of `handleSendMessage`. */
  function BeginRoundTrip(s: State, text: string, userStamp: int, assistantStamp: int): State {
    s.(isLoading := true, apiError := None, nextId := s.nextId + 2,
       abortRef := Some(AbortController(false)),
       messages := s.messages + [UserTurn(s, text, userStamp), Placeholder(s, assistantStamp)])
  }

  /** The short cooldown after a normal return, then the `finally` cleanup. */
  function FinishRoundTrip(s: State, outcome: Outcome): State {
    var t := if outcome.Returned? then StartCooldown(s, SuccessCooldown) else s;
    t.(isLoading := false, statusText := "", abortRef := None)
  }

  /** A send is permitted when no request is in flight and no cooldown runs. */
  predicate SendPermitted(s: State) {
    !s.isLoading && s.cooldown == 0
  }

  /** The state after `handleSendMessage(text)`. */
  function Send(s: State, text: string, response: Response, abortAt: Option<nat>,
                userStamp: int, assistantStamp: int): State
  {
    if !SendPermitted(s) then s
    else
      var q := SendQuery(s, text, response, abortAt, userStamp, assistantStamp);
      FinishRoundTrip(q.state, q.outcome)
  }

  /** The query a permitted send runs: on the state after the two turns are appended. */
  function SendQuery(s: State, text: string, response: Response, abortAt: Option<nat>,
                     userStamp: int, assistantStamp: int): Step
  {
    ExecuteQuery(BeginRoundTrip(s, text, userStamp, assistantStamp), s.nextId + 1, response, abortAt, 0)
  }

  /** The request `handleSendMessage(text)` issues, built from `[...messages, userMsg]`; none when not permitted. */
  function SendRequest(s: State, baseline: Option<UserBaseline>, text: string, userStamp: int): Option<Request> {
    if !SendPermitted(s) then None
    else Some(BuildRequest(s.messages + [UserTurn(s, text, userStamp)], baseline, 0))
  }

  /** A send while loading or cooling down changes nothing and issues no request. */
  lemma SendIgnoredWhileBusy(s: State, baseline: Option<UserBaseline>, text: string, response: Response,
                             abortAt: Option<nat>, userStamp: int, assistantStamp: int)
    requires s.isLoading || s.cooldown > 0
    ensures Send(s, text, response, abortAt, userStamp, assistantStamp) == s
    ensures SendRequest(s, baseline, text, userStamp) == None
  {
  }

  lemma BeginRoundTripKeepsValid(s: State, text: string, userStamp: int, assistantStamp: int)
    requires Valid(s)
    ensures Valid(BeginRoundTrip(s, text, userStamp, assistantStamp))
  {
    var history := s.messages + [UserTurn(s, text, userStamp)];
    AppendKeepsIds(s.messages, UserTurn(s, text, userStamp), s.nextId);
    AppendKeepsIds(history, Placeholder(s, assistantStamp), s.nextId + 1);
    assert BeginRoundTrip(s, text, userStamp, assistantStamp).messages == history + [Placeholder(s, assistantStamp)];
  }


  /** The cleanup keeps the interval invariant and leaves the transcript and the banner alone. */
  lemma FinishRoundTripEffect(s: State, outcome: Outcome)
    requires TimersValid(s)
    ensures var t := FinishRoundTrip(s, outcome);
      && TimersValid(t)
      && t.messages == s.messages && t.apiError == s.apiError && t.nextId == s.nextId
      && !t.isLoading && t.statusText == "" && t.abortRef == None
      && (outcome.Returned? ==>
            t.cooldown == SuccessCooldown && t.running == {t.timerRef} && t.timerRef == s.nextTimer)
      && (outcome.Threw? ==>
            t.cooldown == s.cooldown && t.running == s.running && t.timerRef == s.timerRef)
  {
    StartCooldownReplacesTimer(s, SuccessCooldown);
  }

  /** A permitted send ends with the transcript and the sink's arguments its query left. */
  lemma SendIsQuery(s: State, text: string, response: Response,
                    abortAt: Option<nat>, userStamp: int, assistantStamp: int)
    requires SendPermitted(s)
    ensures var q := SendQuery(s, text, response, abortAt, userStamp, assistantStamp);
      && Send(s, text, response, abortAt, userStamp, assistantStamp).messages == q.state.messages
      && q.updates == UpdatesOf(response, Some(AbortController(false)), abortAt)
      && q.state.messages == (if q.updates == [] then BeginRoundTrip(s, text, userStamp, assistantStamp).messages
                              else SetText(BeginRoundTrip(s, text, userStamp, assistantStamp).messages,
                                           s.nextId + 1, FinalText(q.updates)))
  {
    ExecuteQueryStream(BeginRoundTrip(s, text, userStamp, assistantStamp), s.nextId + 1, response, abortAt, 0);
  }

  /**
   * A permitted send appends exactly the user turn and the assistant turn,
   * the latter holding the last accumulated text; earlier turns are untouched.
   */
  lemma SendTranscript(s: State, text: string, response: Response,
                       abortAt: Option<nat>, userStamp: int, assistantStamp: int)
    requires Valid(s) && SendPermitted(s)
    ensures var t := Send(s, text, response, abortAt, userStamp, assistantStamp);
      var reply := FinalText(UpdatesOf(response, Some(AbortController(false)), abortAt));
      t.messages == s.messages + [UserTurn(s, text, userStamp), Placeholder(s, assistantStamp).(text := reply)]
  {
    var history := s.messages + [UserTurn(s, text, userStamp)];
    var placeholder := Placeholder(s, assistantStamp);
    assert BeginRoundTrip(s, text, userStamp, assistantStamp).messages == history + [placeholder];
    SendIsQuery(s, text, response, abortAt, userStamp, assistantStamp);
    var updates := UpdatesOf(response, Some(AbortController(false)), abortAt);
    if updates != [] {
      AppendKeepsIds(s.messages, UserTurn(s, text, userStamp), s.nextId);
      IdsBelowExcludes(history, s.nextId + 1, placeholder.id);
      SetTextLast(history, placeholder, FinalText(updates));
    }
  }

  /** Every permitted send ends not loading, with no status text and no abort controller. */
  lemma SendCleansUp(s: State, text: string, response: Response,
                     abortAt: Option<nat>, userStamp: int, assistantStamp: int)
    requires SendPermitted(s)
    ensures var t := Send(s, text, response, abortAt, userStamp, assistantStamp);
      !t.isLoading && t.statusText == "" && t.abortRef == None && t.nextId == s.nextId + 2
  {
    var b := BeginRoundTrip(s, text, userStamp, assistantStamp);
    ExecuteQueryFlags(b, s.nextId + 1, response, abortAt, 0);
  }

  /** The way a permitted send's query ends is decided by the response and the Stop press alone. */
  lemma SendQueryOutcome(s: State, text: string, response: Response,
                         abortAt: Option<nat>, userStamp: int, assistantStamp: int)
    ensures SendQuery(s, text, response, abortAt, userStamp, assistantStamp).outcome
            == QueryOutcome(response, Some(AbortController(false)), abortAt)
  {
    ExecuteQueryStream(BeginRoundTrip(s, text, userStamp, assistantStamp), s.nextId + 1, response, abortAt, 0);
  }

  /** A send's query sets the banner and the 15 s cooldown for a rate limit only. */
  lemma SendQueryErrors(s: State, text: string, response: Response,
                        abortAt: Option<nat>, userStamp: int, assistantStamp: int)
    requires TimersValid(s)
    ensures var q := SendQuery(s, text, response, abortAt, userStamp, assistantStamp);
      && TimersValid(q.state)
      && (RateLimited(q.outcome) ==>
            q.state.cooldown == RateLimitCooldown && q.state.apiError == Some(SurgeMessage)
            && q.state.running == {q.state.timerRef})
      && (!RateLimited(q.outcome) ==>
            q.state.cooldown == s.cooldown && q.state.apiError == None
            && q.state.running == s.running && q.state.timerRef == s.timerRef)
  {
    ExecuteQueryErrors(BeginRoundTrip(s, text, userStamp, assistantStamp), s.nextId + 1, response, abortAt, 0);
  }

  /**
   * The banner and the cooldown after a permitted send: 4 s after a normal
   * return (aborted or not), 15 s and the banner after a rate limit, and
   * no banner and the timers untouched after any other failure.
   */
  lemma SendCooldown(s: State, text: string, response: Response,
                     abortAt: Option<nat>, userStamp: int, assistantStamp: int)
    requires TimersValid(s) && SendPermitted(s)
    ensures var t := Send(s, text, response, abortAt, userStamp, assistantStamp);
      var outcome := QueryOutcome(response, Some(AbortController(false)), abortAt);
      && TimersValid(t)
      && t.apiError == (if RateLimited(outcome) then Some(SurgeMessage) else None)
      && t.cooldown == (if outcome.Returned? then SuccessCooldown
                        else if RateLimited(outcome) then RateLimitCooldown
                        else s.cooldown)
      && (outcome.Returned? || RateLimited(outcome) ==> t.running == {t.timerRef})
      && (!outcome.Returned? && !RateLimited(outcome) ==> t.running == s.running && t.timerRef == s.timerRef)
  {
    SendQueryOutcome(s, text, response, abortAt, userStamp, assistantStamp);
    SendQueryErrors(s, text, response, abortAt, userStamp, assistantStamp);
    var q := SendQuery(s, text, response, abortAt, userStamp, assistantStamp);
    FinishRoundTripEffect(q.state, q.outcome);
  }

  /**
   * A permitted send issues the request built from the transcript plus the
   * user turn (the empty assistant turn is not part of it), so the last entry
   * of the context is the user's text, sent to the first model.
   */
  lemma SendRequestContents(s: State, baseline: Option<UserBaseline>, text: string, userStamp: int)
    requires SendPermitted(s)
    ensures var r := SendRequest(s, baseline, text, userStamp);
      && r.Some?
      && r.value.model == Models[0]
      && |r.value.contents| > 0
      && r.value.contents[|r.value.contents| - 1] == Content(UserRole, text)
      && r.value.systemInstruction == InstructionFor(baseline)
  {
    ContextWindowEndsWithNewest(s.messages, UserTurn(s, text, userStamp));
  }

  lemma SendQueryKeepsValid(s: State, text: string, response: Response,
                            abortAt: Option<nat>, userStamp: int, assistantStamp: int)
    requires Valid(s)
    ensures Valid(SendQuery(s, text, response, abortAt, userStamp, assistantStamp).state)
  {
    BeginRoundTripKeepsValid(s, text, userStamp, assistantStamp);
    ExecuteQueryKeepsValid(BeginRoundTrip(s, text, userStamp, assistantStamp), s.nextId + 1, response, abortAt, 0);
  }

  lemma FinishRoundTripKeepsValid(s: State, outcome: Outcome)
    requires Valid(s)
    ensures Valid(FinishRoundTrip(s, outcome))
  {
    FinishRoundTripEffect(s, outcome);
  }

  /** A send keeps the state invariant. */
  lemma SendKeepsValid(s: State, text: string, response: Response,
                       abortAt: Option<nat>, userStamp: int, assistantStamp: int)
    requires Valid(s)
    ensures Valid(Send(s, text, response, abortAt, userStamp, assistantStamp))
  {
    if SendPermitted(s) {
      SendQueryKeepsValid(s, text, response, abortAt, userStamp, assistantStamp);
      var q := SendQuery(s, text, response, abortAt, userStamp, assistantStamp);
      FinishRoundTripKeepsValid(q.state, q.outcome);
    }
  }

  /**
   * A Stop press before fragment j of a stream of more than j fragments
   * leaves the reply at the text of the first j fragments, and the send still
   * ends with the 4 s cooldown and no banner, since the query returned normally.
   */
  lemma SendAbortedStillCoolsDown(s: State, text: string, chunks: seq<Chunk>, tail: Tail, j: nat,
                                  userStamp: int, assistantStamp: int)
    requires Valid(s) && SendPermitted(s)
    requires j < |chunks|
    ensures var t := Send(s, text, Streamed(chunks, tail), Some(j), userStamp, assistantStamp);
      && |t.messages| == |s.messages| + 2
      && t.messages[|t.messages| - 1].text == Accumulated(chunks[..j])
      && t.cooldown == SuccessCooldown
      && t.apiError == None
  {
    SendTranscript(s, text, Streamed(chunks, tail), Some(j), userStamp, assistantStamp);
    SendCooldown(s, text, Streamed(chunks, tail), Some(j), userStamp, assistantStamp);
    AbortBeforeChunk(chunks, tail, j);
  }

  /** `ChatInput.handleSend` gates on the trimmed text as well. */
  predicate SubmitPermitted(s: State, value: string) {
    Trim(value) != "" && !s.isLoading && s.cooldown == 0
  }

  /** The state after `ChatInput.handleSend` with `value` in the input. */
  function Submit(s: State, value: string, response: Response, abortAt: Option<nat>,
                  userStamp: int, assistantStamp: int): State
  {
    if SubmitPermitted(s, value) then Send(s, value, response, abortAt, userStamp, assistantStamp) else s
  }

  /** The input sends exactly when the text has a visible character and no request or cooldown is active. */
  lemma SubmitGate(s: State, value: string, response: Response, abortAt: Option<nat>,
                   userStamp: int, assistantStamp: int)
    ensures SubmitPermitted(s, value) <==> !Blank(value) && SendPermitted(s)
    ensures !SubmitPermitted(s, value) ==> Submit(s, value, response, abortAt, userStamp, assistantStamp) == s
  {
    TrimEmptyIffBlank(value);
  }
}

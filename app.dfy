/**
 * The `App` component's chat round trip as an object whose fields are the
 * component's state and refs. Each method performs its step in place and is
 * proved to agree with the corresponding function of Session, where the
 * properties of the round trip are proved.
 */
module App {
  import opened Wrappers
  import opened Text
  import opened Transcript
  import opened Baseline
  import opened Query
  import opened RateLimit
  import opened Stream
  import opened Cooldown
  import Session

  class Controller {
    var messages: seq<Message>
    var isLoading: bool
    var statusText: string
    var apiError: Option<string>
    var cooldown: nat
    /** `cooldownTimerRef.current`, 0 standing for `null`. */
    var timerRef: nat
    /** The intervals still scheduled. */
    var running: set<nat>
    /** The id the next `setInterval` hands out. */
    var nextTimer: nat
    /** `abortControllerRef.current`. */
    var abortRef: Option<AbortController>
    /** The next id the id generator hands out. */
    var nextId: nat
    /** The stored profile, read by `executeQuery`. */
    const baseline: Option<UserBaseline>

    /** The fields as a Session state. */
    function View(): Session.State
      reads this
    {
      Session.State(messages, isLoading, statusText, apiError, cooldown,
                    timerRef, running, nextTimer, abortRef, nextId)
    }

    ghost predicate Valid()
      reads this
    {
      Session.Valid(View())
    }

    constructor (baseline: Option<UserBaseline>)
      ensures View() == Session.Initial() && Valid()
      ensures this.baseline == baseline
    {
      messages := [];
      isLoading := false;
      statusText := "";
      apiError := None;
      cooldown := 0;
      timerRef := 0;
      running := {};
      nextTimer := 1;
      abortRef := None;
      nextId := 0;
      this.baseline := baseline;
    }

    /** `startCooldown(seconds)`. */
    method StartCooldown(seconds: nat)
      modifies this
      ensures View() == Session.StartCooldown(old(View()), seconds)
      ensures old(Valid()) ==> Valid()
    {
      ghost var before := View();
      cooldown := seconds;
      if timerRef != 0 {
        running := running - {timerRef};
      }
      timerRef := nextTimer;
      running := running + {nextTimer};
      nextTimer := nextTimer + 1;
      if Session.Valid(before) {
        Session.StartCooldownKeepsValid(before, seconds);
      }
    }

    /** One firing of the running interval; nothing without one. */
    method Tick()
      modifies this
      ensures View() == Session.Tick(old(View()))
      ensures old(Valid()) ==> Valid()
    {
      ghost var before := View();
      if running != {} {
        if cooldown <= 1 {
          if timerRef != 0 {
            running := running - {timerRef};
          }
        }
        cooldown := NextCooldown(cooldown);
      }
      if Session.Valid(before) {
        Session.TickKeepsValid(before);
      }
    }

    /** The Stop button: `abortControllerRef.current?.abort()`. */
    method Abort()
      modifies this
      ensures View() == Session.Abort(old(View()))
      ensures old(Valid()) ==> Valid()
    {
      ghost var before := View();
      if abortRef.Some? {
        abortRef := Some(AbortController(true));
      }
      Session.AbortEffect(before);
    }

    /** The `catch` of `executeQuery`, before the error is re-thrown. */
    method CatchQueryError(e: Error)
      modifies this
      ensures View() == Session.QueryError(old(View()), e)
      ensures old(Valid()) ==> Valid()
    {
      if IsRateLimit(e.message) {
        StartCooldown(RateLimitCooldown);
        apiError := Some(SurgeMessage);
      }
    }

    /**
     * The `for await` loop: before fragment k the Stop button is pressed when
     * `abortAt == Some(k)`; an aborted signal returns, otherwise the text
     * grows and the sink rewrites message `assistantId`.
     */
    method ConsumeChunks(chunks: seq<Chunk>, assistantId: nat, abortAt: Option<nat>)
      returns (updates: seq<string>, stopped: bool)
      modifies this
      ensures Session.ConsumeChunks(old(View()), chunks, assistantId, abortAt)
              == Session.Chunked(View(), updates, stopped)
      ensures old(Valid()) ==> Valid()
    {
      ghost var before := View();
      ghost var stop := StopIndex(|chunks|, abortRef, abortAt);
      var fullText := "";
      var k := 0;
      updates := [];
      stopped := false;
      while k < |chunks| && !stopped
        invariant k <= stop <= |chunks|
        invariant stopped ==> k == stop < |chunks|
        invariant fullText == Accumulated(chunks[..k])
        invariant updates == Updates(chunks[..k])
        invariant messages == if k == 0 then old(messages)
                              else SetText(old(messages), assistantId, fullText)
        invariant abortRef == if stopped then SignalAfter(old(abortRef), abortAt) else old(abortRef)
        invariant View() == old(View()).(messages := messages, abortRef := abortRef)
        decreases |chunks| - k, if stopped then 0 else 1
      {
        if abortAt == Some(k) {
          Abort();
        }
        if abortRef.Some? && abortRef.value.aborted {
          stopped := true;
        } else {
          UpdatesSnoc(chunks, k);
          assert chunks[..k + 1][..k] == chunks[..k];
          fullText := fullText + ChunkText(chunks[k]);
          updates := updates + [fullText];
          if k > 0 {
            SetTextTwice(old(messages), assistantId, Accumulated(chunks[..k]), fullText);
          }
          messages := SetText(messages, assistantId, fullText);
          k := k + 1;
        }
      }
      FinalTextIsAccumulated(chunks[..k]);
      if Session.Valid(before) {
        Session.ConsumeChunksKeepsValid(before, chunks, assistantId, abortAt);
      }
    }

    /** The opened stream: the loop, a Stop press while its end is awaited, then its end. */
    method ConsumeStream(chunks: seq<Chunk>, tail: Tail, assistantId: nat, abortAt: Option<nat>)
      returns (updates: seq<string>, outcome: Outcome)
      modifies this
      ensures Session.ConsumeStream(old(View()), chunks, tail, assistantId, abortAt)
              == Session.Step(View(), updates, outcome)
      ensures old(Valid()) ==> Valid()
    {
      var stopped;
      updates, stopped := ConsumeChunks(chunks, assistantId, abortAt);
      if stopped {
        outcome := Returned;
      } else {
        if abortAt.Some? && abortAt.value >= |chunks| {
          Abort();
        }
        match tail
        case Ends =>
          outcome := Returned;
        case Fails(e) =>
          CatchQueryError(e);
          outcome := Threw(e);
      }
    }

    /**
     * `executeQuery(text, history, onUpdate, attempt)` with the sink rewriting
     * `assistantId`; `request` is what it hands to the model service, and
     * `response` what the service answers.
     */
    method ExecuteQuery(history: seq<Message>, assistantId: nat, response: Response,
                        abortAt: Option<nat>, attempt: nat)
      returns (request: Request, updates: seq<string>, outcome: Outcome)
      modifies this
      ensures request == BuildRequest(history, baseline, attempt)
      ensures Session.ExecuteQuery(old(View()), assistantId, response, abortAt, attempt)
              == Session.Step(View(), updates, outcome)
      ensures old(Valid()) ==> Valid()
    {
      statusText := StatusFor(attempt);
      request := Request(ModelFor(attempt), ContextWindow(history), InstructionFor(baseline));
      match response
      case Refused(e) =>
        if abortAt.Some? {
          Abort();
        }
        CatchQueryError(e);
        updates := [];
        outcome := Threw(e);
      case Streamed(chunks, tail) =>
        statusText := "";
        updates, outcome := ConsumeStream(chunks, tail, assistantId, abortAt);
    }

    /** The two turns appended before the query, and the flags it sets. */
    method BeginRoundTrip(text: string, userStamp: int, assistantStamp: int)
      modifies this
      ensures View() == Session.BeginRoundTrip(old(View()), text, userStamp, assistantStamp)
      ensures old(Valid()) ==> Valid()
    {
      ghost var before := View();
      isLoading := true;
      apiError := None;
      var userId := nextId;
      var assistantId := nextId + 1;
      nextId := nextId + 2;
      abortRef := Some(AbortController(false));
      messages := messages + [Message(userId, User, text, userStamp)];
      messages := messages + [Message(assistantId, Assistant, "", assistantStamp)];
      if Session.Valid(before) {
        Session.BeginRoundTripKeepsValid(before, text, userStamp, assistantStamp);
      }
    }

    /** The 4 s cooldown after a normal return, then the `finally` cleanup. */
    method FinishRoundTrip(outcome: Outcome)
      modifies this
      ensures View() == Session.FinishRoundTrip(old(View()), outcome)
      ensures old(Valid()) ==> Valid()
    {
      if outcome.Returned? {
        StartCooldown(SuccessCooldown);
      }
      isLoading := false;
      statusText := "";
      abortRef := None;
    }

    /** `handleSendMessage(text)`; `request` is the one issued, if any. */
    method Send(text: string, response: Response, abortAt: Option<nat>,
                userStamp: int, assistantStamp: int)
      returns (request: Option<Request>)
      modifies this
      ensures View() == Session.Send(old(View()), text, response, abortAt, userStamp, assistantStamp)
      ensures request == Session.SendRequest(old(View()), baseline, text, userStamp)
      ensures old(Valid()) ==> Valid()
    {
      if isLoading || cooldown > 0 {
        request := None;
        return;
      }
      ghost var before := View();
      var history := messages + [Message(nextId, User, text, userStamp)];
      var assistantId := nextId + 1;
      assert history == before.messages + [Session.UserTurn(before, text, userStamp)];
      BeginRoundTrip(text, userStamp, assistantStamp);
      ghost var q := Session.SendQuery(before, text, response, abortAt, userStamp, assistantStamp);
      assert q == Session.ExecuteQuery(View(), assistantId, response, abortAt, 0);
      var sent, updates, outcome := ExecuteQuery(history, assistantId, response, abortAt, 0);
      assert q == Session.Step(View(), updates, outcome);
      FinishRoundTrip(outcome);
      request := Some(sent);
    }

    /** `ChatInput.handleSend` with `value` in the input box. */
    method Submit(value: string, response: Response, abortAt: Option<nat>,
                  userStamp: int, assistantStamp: int)
      returns (request: Option<Request>)
      modifies this
      ensures View() == Session.Submit(old(View()), value, response, abortAt, userStamp, assistantStamp)
      ensures request == if Session.SubmitPermitted(old(View()), value)
                         then Session.SendRequest(old(View()), baseline, value, userStamp) else None
      ensures old(Valid()) ==> Valid()
    {
      if Trim(value) != "" && !isLoading && cooldown == 0 {
        request := Send(value, response, abortAt, userStamp, assistantStamp);
      } else {
        request := None;
      }
    }
  }
}

/**
 * Consumption of the response stream: text accumulation, the updates handed
 * to the sink, the point where a raised abort signal stops the loop, and the
 * outcome of the query.
 */
module Stream {
  import opened Wrappers
  import opened RateLimit

  /** One streamed fragment; its `text` may be absent. */
  datatype Chunk = Chunk(text: Option<string>)

  /** How the stream ends once its fragments are delivered. */
  datatype Tail = Ends | Fails(error: Error)

  /** The endpoint's answer: the request is refused outright, or a stream is opened. */
  datatype Response = Refused(error: Error) | Streamed(chunks: seq<Chunk>, tail: Tail)

  /** The abort controller's signal. */
  datatype AbortController = AbortController(aborted: bool)

  /** How `executeQuery` ends: its promise resolves, or it rejects with the error. */
  datatype Outcome = Returned | Threw(error: Error)

  /** `chunk.text || ''`. */
  function ChunkText(c: Chunk): string {
    match c.text
    case Some(t) => t
    case None => ""
  }

  /** `fullText` after the given fragments: each one's text appended in turn. */
  function Accumulated(cs: seq<Chunk>): string {
    if cs == [] then "" else Accumulated(cs[..|cs| - 1]) + ChunkText(cs[|cs| - 1])
  }

  /** The arguments of the successive `onUpdate` calls, one per fragment. */
  function Updates(cs: seq<Chunk>): seq<string> {
    seq(|cs|, k requires 0 <= k < |cs| => Accumulated(cs[..k + 1]))
  }

  /** The text the sink holds after the updates: the last argument, or the placeholder's ''. */
  function FinalText(updates: seq<string>): string {
    if updates == [] then "" else updates[|updates| - 1]
  }

  /** Accumulation over fragments is concatenation of their texts. */
  lemma {:induction false} AccumulatedAppend(cs: seq<Chunk>, ds: seq<Chunk>)
    ensures Accumulated(cs + ds) == Accumulated(cs) + Accumulated(ds)
    decreases |ds|
  {
    if ds != [] {
      var last := ds[|ds| - 1];
      assert (cs + ds)[..|cs + ds| - 1] == cs + ds[..|ds| - 1];
      AccumulatedAppend(cs, ds[..|ds| - 1]);
    } else {
      assert cs + ds == cs;
    }
  }

  /** The text accumulated over a prefix of the fragments is a prefix of the whole. */
  lemma {:induction false} AccumulatedPrefix(cs: seq<Chunk>, i: nat)
    requires i <= |cs|
    ensures Accumulated(cs[..i]) <= Accumulated(cs)
    decreases |cs|
  {
    if i < |cs| {
      var init := cs[..|cs| - 1];
      assert init[..i] == cs[..i];
      AccumulatedPrefix(init, i);
    } else {
      assert cs[..i] == cs;
    }
  }

  /**
   * Each update extends every earlier one, and consecutive updates differ by
   * exactly the text of the newer fragment.
   */
  lemma UpdatesGrow(cs: seq<Chunk>, i: nat, j: nat)
    requires i <= j < |cs|
    ensures Updates(cs)[i] <= Updates(cs)[j]
    ensures j == i + 1 ==> Updates(cs)[j] == Updates(cs)[i] + ChunkText(cs[j])
  {
    var upto := cs[..j + 1];
    assert upto[..i + 1] == cs[..i + 1];
    AccumulatedPrefix(upto, i + 1);
    if j == i + 1 {
      assert upto[..|upto| - 1] == cs[..i + 1];
    }
  }

  /** After all updates the sink holds the accumulated text of every fragment. */
  lemma FinalTextIsAccumulated(cs: seq<Chunk>)
    ensures FinalText(Updates(cs)) == Accumulated(cs)
  {
    if cs != [] {
      assert cs[..|cs|] == cs;
    }
  }

  /** One more fragment adds exactly one update, the text accumulated so far. */
  lemma UpdatesSnoc(cs: seq<Chunk>, k: nat)
    requires k < |cs|
    ensures Updates(cs[..k + 1]) == Updates(cs[..k]) + [Accumulated(cs[..k]) + ChunkText(cs[k])]
  {
    var next := cs[..k + 1];
    var lhs := Updates(next);
    var rhs := Updates(cs[..k]) + [Accumulated(cs[..k]) + ChunkText(cs[k])];
    assert next[..|next| - 1] == cs[..k];
    forall i | 0 <= i < |lhs| ensures lhs[i] == rhs[i] {
      if i < k {
        assert next[..i + 1] == cs[..k][..i + 1];
      } else {
        assert next[..i + 1] == next;
      }
    }
  }

  /** Fragments "A", (no text), "B" give the updates "A", "A", "AB". */
  lemma UpdatesExample()
    ensures Updates([Chunk(Some("A")), Chunk(None), Chunk(Some("B"))]) == ["A", "A", "AB"]
  {
    var cs := [Chunk(Some("A")), Chunk(None), Chunk(Some("B"))];
    assert cs[..1][..0] == [];
    assert cs[..2][..1] == cs[..1];
    assert cs[..3][..2] == cs[..2];
    assert Accumulated(cs[..1]) == "A";
    assert Accumulated(cs[..2]) == "A";
    assert Accumulated(cs[..3]) == "AB";
  }

  function Chunks(r: Response): seq<Chunk> {
    match r
    case Refused(_) => []
    case Streamed(cs, _) => cs
  }

  /**
   * The index of the fragment whose check sees the signal raised, or `n` when
   * none does: with no controller the loop never stops, a signal already
   * raised stops it at once, and a Stop press before fragment `j` stops it there.
   */
  function StopIndex(n: nat, signal: Option<AbortController>, abortAt: Option<nat>): (k: nat)
    ensures k <= n
  {
    if signal.None? then n
    else if signal.value.aborted then 0
    else match abortAt
      case Some(j) => Min(j, n)
      case None => n
  }

  /** How many fragments reach the sink. */
  function Processed(r: Response, signal: Option<AbortController>, abortAt: Option<nat>): nat {
    StopIndex(|Chunks(r)|, signal, abortAt)
  }

  /** The loop returned early because the signal was raised. */
  predicate StoppedEarly(r: Response, signal: Option<AbortController>, abortAt: Option<nat>) {
    r.Streamed? && Processed(r, signal, abortAt) < |r.chunks|
  }

  /** The updates the sink receives. */
  function UpdatesOf(r: Response, signal: Option<AbortController>, abortAt: Option<nat>): seq<string> {
    Updates(Chunks(r)[..Processed(r, signal, abortAt)])
  }

  /** An early stop returns normally; otherwise a failure of the request or of the stream is thrown. */
  function QueryOutcome(r: Response, signal: Option<AbortController>, abortAt: Option<nat>): Outcome {
    match r
    case Refused(e) => Threw(e)
    case Streamed(_, tail) =>
      if StoppedEarly(r, signal, abortAt) then Returned
      else match tail
        case Ends => Returned
        case Fails(e) => Threw(e)
  }

  /** The controller after a Stop press during the query (absent controllers ignore it). */
  function SignalAfter(signal: Option<AbortController>, abortAt: Option<nat>): Option<AbortController> {
    if signal.Some? && abortAt.Some? then Some(AbortController(true)) else signal
  }

  /** The query failed with a rate-limit error. */
  predicate RateLimited(o: Outcome) {
    o.Threw? && IsRateLimit(o.error.message)
  }

  /**
   * With a controller not yet aborted, a Stop press before fragment j of the stream
   * stops the loop after exactly j updates, the j-th being the text of the
   * first j fragments, and the query returns normally without any error.
   */
  lemma AbortBeforeChunk(cs: seq<Chunk>, tail: Tail, j: nat)
    requires j < |cs|
    ensures var r := Streamed(cs, tail);
      var unset := Some(AbortController(false));
      && |UpdatesOf(r, unset, Some(j))| == j
      && FinalText(UpdatesOf(r, unset, Some(j))) == Accumulated(cs[..j])
      && QueryOutcome(r, unset, Some(j)) == Returned
      && !RateLimited(QueryOutcome(r, unset, Some(j)))
  {
    FinalTextIsAccumulated(cs[..j]);
  }

  /**
   * A Stop press before fragment j loses exactly the text of fragments j
   * onwards: the reply it leaves, followed by that text, is the reply an
   * uninterrupted stream leaves.
   */
  lemma AbortLosesRest(cs: seq<Chunk>, tail: Tail, j: nat)
    requires j < |cs|
    ensures var r := Streamed(cs, tail);
      var unset := Some(AbortController(false));
      FinalText(UpdatesOf(r, unset, Some(j))) + Accumulated(cs[j..]) == FinalText(UpdatesOf(r, unset, None))
  {
    AbortBeforeChunk(cs, tail, j);
    NoAbortProcessesAll(Streamed(cs, tail), Some(AbortController(false)));
    AccumulatedAppend(cs[..j], cs[j..]);
    assert cs[..j] + cs[j..] == cs;
  }

  /**
   * Without a Stop press every fragment reaches the sink and the outcome is
   * decided by how the stream ends.
   */
  lemma NoAbortProcessesAll(r: Response, signal: Option<AbortController>)
    requires signal != Some(AbortController(true))
    ensures Processed(r, signal, None) == |Chunks(r)|
    ensures FinalText(UpdatesOf(r, signal, None)) == Accumulated(Chunks(r))
    ensures QueryOutcome(r, signal, None) == match r
      case Refused(e) => Threw(e)
      case Streamed(_, Ends) => Returned
      case Streamed(_, Fails(e)) => Threw(e)
  {
    assert Chunks(r)[..|Chunks(r)|] == Chunks(r);
    FinalTextIsAccumulated(Chunks(r));
  }
}

/** The chat transcript: the `Message` records the controller appends and rewrites. */
module Transcript {

  datatype Role = User | Assistant | SystemError

  /** One turn; `id` comes from the id generator, `timestamp` from the clock. */
  datatype Message = Message(id: nat, role: Role, text: string, timestamp: int)

  /** The id of the i-th message; the id invariants are stated through it. */
  function IdAt(ms: seq<Message>, i: nat): nat
    requires i < |ms|
  {
    ms[i].id
  }

  /** No two messages of the transcript share an id. */
  predicate IdsDistinct(ms: seq<Message>) {
    forall i, j :: 0 <= i < j < |ms| ==> IdAt(ms, i) != IdAt(ms, j)
  }

  /** Every id in the transcript is below `bound`, so ids from `bound` on are fresh. */
  predicate IdsBelow(ms: seq<Message>, bound: nat) {
    forall i :: 0 <= i < |ms| ==> IdAt(ms, i) < bound
  }

  /** No message carries an id at or above the bound. */
  lemma IdsBelowExcludes(ms: seq<Message>, bound: nat, id: nat)
    requires IdsBelow(ms, bound) && bound <= id
    ensures forall i :: 0 <= i < |ms| ==> ms[i].id != id
  {
    forall i | 0 <= i < |ms|
      ensures ms[i].id != id
    {
      assert IdAt(ms, i) < bound;
    }
  }

  /** Appending a message with a fresh id keeps the ids distinct and raises the bound past it. */
  lemma AppendKeepsIds(ms: seq<Message>, m: Message, bound: nat)
    requires IdsDistinct(ms) && IdsBelow(ms, bound) && bound <= m.id
    ensures IdsDistinct(ms + [m]) && IdsBelow(ms + [m], m.id + 1)
  {
    var r := ms + [m];
    forall i | 0 <= i < |ms|
      ensures IdAt(r, i) == IdAt(ms, i) < bound
    {
    }
    assert IdAt(r, |ms|) == m.id;
  }

  /** The update sink: `prev.map(m => m.id === id ? { ...m, text } : m)`. */
  function SetText(ms: seq<Message>, id: nat, text: string): (r: seq<Message>)
    ensures |r| == |ms|
  {
    seq(|ms|, i requires 0 <= i < |ms| => if ms[i].id == id then ms[i].(text := text) else ms[i])
  }

  /** The sink changes the text of the message that carries `id` and nothing else. */
  lemma SetTextOnly(ms: seq<Message>, k: nat, text: string)
    requires IdsDistinct(ms)
    requires k < |ms|
    ensures SetText(ms, ms[k].id, text) == ms[k := ms[k].(text := text)]
  {
    forall i | 0 <= i < |ms| && i != k
      ensures ms[i].id != ms[k].id
    {
      if i < k {
        assert IdAt(ms, i) != IdAt(ms, k);
      } else {
        assert IdAt(ms, k) != IdAt(ms, i);
      }
    }
  }

  /** A message id the transcript does not hold leaves the transcript unchanged. */
  lemma SetTextAbsent(ms: seq<Message>, id: nat, text: string)
    requires forall i :: 0 <= i < |ms| ==> ms[i].id != id
    ensures SetText(ms, id, text) == ms
  {
  }

  /** Only the last of several updates to one message is visible. */
  lemma SetTextTwice(ms: seq<Message>, id: nat, a: string, b: string)
    ensures SetText(SetText(ms, id, a), id, b) == SetText(ms, id, b)
  {
  }

  /** A rewrite of the appended last message leaves the earlier ones alone. */
  lemma SetTextLast(ms: seq<Message>, m: Message, text: string)
    requires forall i :: 0 <= i < |ms| ==> ms[i].id != m.id
    ensures SetText(ms + [m], m.id, text) == ms + [m.(text := text)]
  {
    SetTextAbsent(ms, m.id, text);
  }

  /** Rewriting texts keeps ids (and so their distinctness and bounds). */
  lemma SetTextKeepsIds(ms: seq<Message>, id: nat, text: string, bound: nat)
    ensures IdsDistinct(ms) ==> IdsDistinct(SetText(ms, id, text))
    ensures IdsBelow(ms, bound) ==> IdsBelow(SetText(ms, id, text), bound)
  {
    var r := SetText(ms, id, text);
    forall i | 0 <= i < |ms|
      ensures IdAt(r, i) == IdAt(ms, i)
    {
    }
  }
}

/**
 * Construction of the generation request: the context window taken from the
 * history, the model picked by attempt number, the status line and the
 * system instruction built from the profile.
 */
module Query {
  import opened Wrappers
  import opened Text
  import opened Transcript
  import opened Baseline

  /** The two roles the generation endpoint understands. */
  datatype ApiRole = UserRole | ModelRole

  /** One entry of `contents`: `{ role, parts: [{ text }] }`. */
  datatype Content = Content(role: ApiRole, text: string)

  /** The system instruction: the fixed template with its two holes, the dossier and the authority phrase. */
  datatype Instruction = Instruction(dossier: string, authority: string)

  /** What is sent: model name, contents and system instruction (the temperature is left out). */
  datatype Request = Request(model: string, contents: seq<Content>, systemInstruction: Instruction)

  /** How many turns of history are sent. */
  const WindowSize: nat := 6

  /** The model list, first entry the default and last entry the fallback. */
  const Models: seq<string> := ["gemini-2.5-flash-lite-latest", "gemini-3-flash-preview"]

  /** `Array.prototype.slice(start)`, where a negative `start` counts from the end. */
  function SliceFrom<T>(s: seq<T>, start: int): (r: seq<T>)
    ensures start < 0 ==> |r| == Min(|s|, -start) && r == s[|s| - |r|..]
    ensures start >= 0 ==> r == s[Min(start, |s|)..]
  {
    var from := if start < 0 then Max(|s| + start, 0) else Min(start, |s|);
    s[from..]
  }

  /** `m.role === 'user' ? 'user' : 'model'`. */
  function ApiRoleOf(role: Role): (r: ApiRole)
    ensures r == UserRole <==> role == User
  {
    if role == User then UserRole else ModelRole
  }

  function ToContent(m: Message): (c: Content)
    ensures c.text == m.text
    ensures c.role == ApiRoleOf(m.role)
  {
    Content(ApiRoleOf(m.role), m.text)
  }

  /** `history.slice(-6).map(...)`. */
  function ContextWindow(history: seq<Message>): seq<Content> {
    var recent := SliceFrom(history, -(WindowSize as int));
    seq(|recent|, i requires 0 <= i < |recent| => ToContent(recent[i]))
  }

  /**
   * The context window holds the last min(|history|, 6) turns, in their
   * original order, with user turns sent as `user`, every other turn as
   * `model`, and the text unchanged.
   */
  lemma ContextWindowIsRecentTurns(history: seq<Message>)
    ensures |ContextWindow(history)| == Min(|history|, WindowSize)
    ensures forall i :: 0 <= i < |ContextWindow(history)| ==>
      var m := history[|history| - |ContextWindow(history)| + i];
      && ContextWindow(history)[i].text == m.text
      && (ContextWindow(history)[i].role == UserRole <==> m.role == User)
  {
    var recent := SliceFrom(history, -(WindowSize as int));
    forall i | 0 <= i < |recent|
      ensures recent[i] == history[|history| - |recent| + i]
    {
    }
  }

  /** The newest turn of the history is the last entry of the window. */
  lemma ContextWindowEndsWithNewest(prior: seq<Message>, m: Message)
    ensures |ContextWindow(prior + [m])| > 0
    ensures ContextWindow(prior + [m])[|ContextWindow(prior + [m])| - 1] == ToContent(m)
  {
    ContextWindowIsRecentTurns(prior + [m]);
  }

  /** `Math.min(attempt, models.length - 1)`. */
  function ModelIndex(attempt: nat): (i: nat)
    ensures i < |Models|
    ensures attempt == 0 ==> i == 0
    ensures attempt >= 1 ==> i == |Models| - 1
  {
    Min(attempt, |Models| - 1)
  }

  /** The model the request goes to. */
  function ModelFor(attempt: nat): (r: string)
    ensures r in Models
    ensures attempt == 0 ==> r == Models[0]
  {
    Models[ModelIndex(attempt)]
  }

  /** The status line shown while the request is being opened. */
  function StatusFor(attempt: nat): string {
    if attempt > 0 then "Re-routing via " + ModelFor(attempt) + "..." else "Processing..."
  }

  /** The first attempt, and only it, shows "Processing...". */
  lemma StatusProcessingIffFirst(attempt: nat)
    ensures StatusFor(attempt) == "Processing..." <==> attempt == 0
  {
    if attempt > 0 {
      assert StatusFor(attempt)[0] == 'R';
    }
  }

  /** `baseline?.authorityPreference === 'mentor' ? ... : ...`; no profile reads as the advisor. */
  function AuthorityText(baseline: Option<UserBaseline>): (r: string)
    ensures r == "authoritative mentor" || r == "advisory guide"
    ensures r == "authoritative mentor" <==> baseline.Some? && baseline.value.authorityPreference == Mentor
  {
    if baseline.Some? && baseline.value.authorityPreference == Mentor then "authoritative mentor"
    else "advisory guide"
  }

  const DossierPrefix: string := "USER DOSSIER: "

  /** The one-line dossier summarising the profile. */
  function Dossier(baseline: Option<UserBaseline>): string {
    match baseline
    case Some(b) =>
      DossierPrefix + "Identity: " + b.name + ", Focus: " + b.primaryGoal + ", Constraint: " + b.mainBlocker + "."
    case None => DossierPrefix + "Initializing."
  }

  /** The dossier names the user, the goal and the blocker of the profile when there is one. */
  lemma DossierNamesProfile(b: UserBaseline)
    ensures Contains(Dossier(Some(b)), b.name)
    ensures Contains(Dossier(Some(b)), b.primaryGoal)
    ensures Contains(Dossier(Some(b)), b.mainBlocker)
  {
    var d := Dossier(Some(b));
    var p1 := DossierPrefix + "Identity: ";
    var p2 := p1 + b.name + ", Focus: ";
    var p3 := p2 + b.primaryGoal + ", Constraint: ";
    assert d == p1 + b.name + (", Focus: " + b.primaryGoal + ", Constraint: " + b.mainBlocker + ".");
    ContainsMiddle(p1, b.name, ", Focus: " + b.primaryGoal + ", Constraint: " + b.mainBlocker + ".");
    assert d == p2 + b.primaryGoal + (", Constraint: " + b.mainBlocker + ".");
    ContainsMiddle(p2, b.primaryGoal, ", Constraint: " + b.mainBlocker + ".");
    assert d == p3 + b.mainBlocker + ".";
    ContainsMiddle(p3, b.mainBlocker, ".");
  }

  /** Both dossiers open with the same marker, and a profile never yields the placeholder one. */
  lemma DossierShape(baseline: Option<UserBaseline>)
    ensures Dossier(baseline)[..|DossierPrefix|] == DossierPrefix
    ensures baseline.Some? ==> Dossier(baseline) != Dossier(None)
  {
    if baseline.Some? {
      var d := Dossier(baseline);
      assert d[|DossierPrefix|] == 'I';
      assert d[|DossierPrefix| + 1] == 'd';
      assert Dossier(None)[|DossierPrefix| + 1] == 'n';
    }
  }

  /** The template literal of the system instruction, line break and indentation included. */
  const Greeting := "You are Aura Sentinel. "
  const ProtocolOpening := " \n                PROTOCOL: 1. Act as a "
  const ProtocolRules := ". 2. Challenge the user's blockers aggressively but constructively. 3. Ask EXACTLY ONE sharp question. 4. Text only."

  /** The system instruction as the template in `executeQuery` renders it. */
  function InstructionText(i: Instruction): string {
    Greeting + i.dossier + ProtocolOpening + i.authority + ProtocolRules
  }

  /** The two variable parts of the system instruction, computed from the profile. */
  function InstructionFor(baseline: Option<UserBaseline>): Instruction {
    Instruction(Dossier(baseline), AuthorityText(baseline))
  }

  /** The rendered instruction carries the dossier. */
  lemma InstructionCarriesDossier(i: Instruction)
    ensures Contains(InstructionText(i), i.dossier)
  {
    var s := InstructionText(i);
    assert s[|Greeting|..|Greeting| + |i.dossier|] == i.dossier;
    OccursImpliesContains(s, i.dossier, |Greeting|);
  }

  /** The rendered instruction carries the authority phrase. */
  lemma InstructionCarriesAuthority(i: Instruction)
    ensures Contains(InstructionText(i), i.authority)
  {
    ContainsMiddle(Greeting + i.dossier + ProtocolOpening, i.authority, ProtocolRules);
  }

  /** The request `executeQuery` issues for a history, a profile and an attempt number. */
  function BuildRequest(history: seq<Message>, baseline: Option<UserBaseline>, attempt: nat): Request {
    Request(ModelFor(attempt), ContextWindow(history), InstructionFor(baseline))
  }
}

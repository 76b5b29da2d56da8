/**
 * The prompt-chaining workspace: a list of numbered steps, each a prompt with the
 * response it received and a completion flag. Running a step sends its prompt, prefixed
 * with the previous step's response when there is one, and records the outcome.
 */
module Chaining {
  import opened Wrappers
  import opened Text

  /** One entry of `chainSteps`. */
  datatype Step = Step(id: int, prompt: string, response: string, completed: bool)

  /** An `updateChainStep(id, field, value)` argument pair: the field together with its new value. */
  datatype FieldValue = Prompt(text: string) | Response(text: string) | Completed(done: bool)

  /** The list the page starts with: one empty, uncompleted step numbered 1. */
  const InitialSteps: seq<Step> := [Step(1, "", "", false)]

  /** The value `s` holds in the field that `like` names. */
  function FieldOf(s: Step, like: FieldValue): FieldValue {
    match like
    case Prompt(_) => Prompt(s.prompt)
    case Response(_) => Response(s.response)
    case Completed(_) => Completed(s.completed)
  }

  /** Whether `v` and `w` name the same field. */
  predicate SameField(v: FieldValue, w: FieldValue) {
    v.Prompt? == w.Prompt? && v.Response? == w.Response?
  }

  /** `{ ...s, [field]: value }`: the named field takes the value, the id and the other fields stay. */
  function Set(s: Step, v: FieldValue): (t: Step)
    ensures t.id == s.id
    ensures FieldOf(t, v) == v
    ensures forall w :: !SameField(v, w) ==> FieldOf(t, w) == FieldOf(s, w)
  {
    match v
    case Prompt(text) => s.(prompt := text)
    case Response(text) => s.(response := text)
    case Completed(done) => s.(completed := done)
  }

  /** Ids run 1, 2, ..., n in list order. */
  predicate WellNumbered(steps: seq<Step>) {
    forall i :: 0 <= i < |steps| ==> steps[i].id == i + 1
  }

  /** `addChainStep`: the list with one empty, uncompleted step appended, numbered one past the old length. */
  function AddChainStep(steps: seq<Step>): (r: seq<Step>)
    ensures |r| == |steps| + 1 && r[..|steps|] == steps
    ensures r[|steps|].prompt == "" && r[|steps|].response == "" && !r[|steps|].completed
    ensures WellNumbered(steps) ==> WellNumbered(r) && r[|steps|].id == |steps| + 1
  {
    steps + [Step(|steps| + 1, "", "", false)]
  }

  /** `updateChainStep(id, field, value)`: every step carrying `id` gets the field set, all others stay. */
  function UpdateChainStep(steps: seq<Step>, id: int, v: FieldValue): (r: seq<Step>)
    ensures |r| == |steps|
    ensures forall i :: 0 <= i < |steps| ==> r[i].id == steps[i].id
    ensures forall i :: 0 <= i < |steps| && steps[i].id != id ==> r[i] == steps[i]
    ensures forall i :: 0 <= i < |steps| && steps[i].id == id ==> r[i] == Set(steps[i], v)
    ensures WellNumbered(steps) ==> WellNumbered(r)
    ensures Find(steps, id) == None ==> r == steps
  {
    seq(|steps|, i requires 0 <= i < |steps| => if steps[i].id == id then Set(steps[i], v) else steps[i])
  }

  /** `steps.find(s => s.id === id)`: the first step carrying `id`, if any. */
  function Find(steps: seq<Step>, id: int): (found: Option<Step>)
    ensures found == None <==> forall i :: 0 <= i < |steps| ==> steps[i].id != id
    ensures found != None ==> exists i :: 0 <= i < |steps| && steps[i] == found.value
    ensures found != None ==> found.value.id == id
  {
    if steps == [] then None
    else if steps[0].id == id then Some(steps[0])
    else
      var rest := Find(steps[1..], id);
      assert forall i :: 0 < i < |steps| ==> steps[i] == steps[1..][i - 1];
      rest
  }

  /**
   * The prompt actually sent for `step`: when the step before it exists and has a
   * non-empty response, that response is passed as context ahead of the task.
   */
  function EffectivePrompt(step: Step, prev: Option<Step>): (prompt: string)
    ensures prev == None || prev.value.response == "" ==> prompt == step.prompt
    ensures prev != None && prev.value.response != "" ==>
      prompt == "Kontext: " + prev.value.response + "\n\nAufgabe: " + step.prompt
  {
    if prev != None && prev.value.response != "" then
      "Kontext: " + prev.value.response + "\n\nAufgabe: " + step.prompt
    else
      step.prompt
  }

  /** The step at position `idx` is unlocked: it is the first, or its predecessor is completed. Its text area accepts input exactly then. */
  predicate Unlocked(steps: seq<Step>, idx: int)
    requires 0 <= idx < |steps|
  {
    idx > 0 ==> steps[idx - 1].completed
  }

  /** The run button of the step at `idx` is enabled. */
  predicate CanRun(steps: seq<Step>, idx: int, loading: bool)
    requires 0 <= idx < |steps|
  {
    !loading && Trim(steps[idx].prompt) != "" && Unlocked(steps, idx)
  }

  /** The stored key counts as missing when absent or empty. */
  predicate KeyMissing(storedKey: Option<string>) {
    storedKey == None || storedKey.value == ""
  }

  /** What the request of a run yields: a parsed body with the first choice's content, if any, or an exception. */
  datatype Outcome = Answered(content: Option<string>) | Failed

  /** The text a run writes as the step's response: the content when non-empty, else "Fehler". */
  function AnswerText(content: Option<string>): (text: string)
    ensures text != ""
    ensures content != None && content.value != "" ==> text == content.value
    ensures content == None || content.value == "" ==> text == "Fehler"
  {
    if content != None && content.value != "" then content.value else "Fehler"
  }

  /**
   * The list a finished run leaves behind. Both writes are computed from the list as it
   * was when the run started, so the second, which marks the step completed, replaces
   * the first, which recorded the response. A failed request writes nothing.
   */
  function AfterRun(snapshot: seq<Step>, id: int, outcome: Outcome): (r: seq<Step>)
    ensures |r| == |snapshot|
  {
    match outcome
    case Failed => snapshot
    case Answered(_) => UpdateChainStep(snapshot, id, Completed(true))
  }

  /** A run marks the step completed and leaves every response as it was, the new one included. */
  lemma RunDropsResponse(snapshot: seq<Step>, id: int, content: Option<string>)
    ensures var r := AfterRun(snapshot, id, Answered(content));
      forall i :: 0 <= i < |snapshot| ==>
        r[i].response == snapshot[i].response && r[i].prompt == snapshot[i].prompt
        && r[i].completed == (snapshot[i].completed || snapshot[i].id == id)
  {
    var r := AfterRun(snapshot, id, Answered(content));
    forall i | 0 <= i < |snapshot|
      ensures r[i].response == snapshot[i].response && r[i].prompt == snapshot[i].prompt
      ensures r[i].completed == (snapshot[i].completed || snapshot[i].id == id)
    {
      if snapshot[i].id == id {
        assert r[i] == Set(snapshot[i], Completed(true));
      }
    }
  }

  /** The two writes as the page evidently means them: record the response, then mark the step completed. */
  function CommitIntended(snapshot: seq<Step>, id: int, text: string): (r: seq<Step>)
    ensures |r| == |snapshot|
  {
    UpdateChainStep(UpdateChainStep(snapshot, id, Response(text)), id, Completed(true))
  }

  /** With both writes kept, the run's step holds the answer and is completed; no other step changes. */
  lemma CommitIntendedKeepsBoth(snapshot: seq<Step>, id: int, text: string)
    ensures var r := CommitIntended(snapshot, id, text);
      forall i :: 0 <= i < |snapshot| ==>
        if snapshot[i].id == id then r[i] == snapshot[i].(response := text, completed := true)
        else r[i] == snapshot[i]
  {
    var first := UpdateChainStep(snapshot, id, Response(text));
    var r := UpdateChainStep(first, id, Completed(true));
    forall i | 0 <= i < |snapshot|
      ensures if snapshot[i].id == id then r[i] == snapshot[i].(response := text, completed := true)
        else r[i] == snapshot[i]
    {
      if snapshot[i].id == id {
        assert first[i] == Set(snapshot[i], Response(text));
        assert r[i] == Set(first[i], Completed(true));
      }
    }
  }

  // Numbering

  /** The new step is the one the lookup by its id finds. */
  lemma AddedStepFound(steps: seq<Step>)
    requires WellNumbered(steps)
    ensures Find(AddChainStep(steps), |steps| + 1) == Some(Step(|steps| + 1, "", "", false))
  {
    FindByPosition(AddChainStep(steps), |steps| + 1);
  }

  /** In a well-numbered list the lookup by id is the lookup by position id - 1. */
  lemma FindByPosition(steps: seq<Step>, id: int)
    requires WellNumbered(steps)
    ensures Find(steps, id) == if 1 <= id <= |steps| then Some(steps[id - 1]) else None
  {
  }

  /** The first step has no predecessor, so it is always sent without context. */
  lemma FirstStepSentRaw(steps: seq<Step>)
    requires WellNumbered(steps) && steps != []
    ensures EffectivePrompt(steps[0], Find(steps, steps[0].id - 1)) == steps[0].prompt
  {
    FindByPosition(steps, 0);
  }

  /**
   * The run button's gate looks at position idx - 1; the run itself looks up id - 1.
   * In a well-numbered list both name the same step, so the button is enabled exactly
   * when the step found by id, if any, is completed (and the other two conditions hold).
   */
  lemma GateMatchesIdLookup(steps: seq<Step>, idx: int, loading: bool)
    requires WellNumbered(steps) && 0 <= idx < |steps|
    ensures CanRun(steps, idx, loading) <==>
      !loading && Trim(steps[idx].prompt) != ""
      && match Find(steps, steps[idx].id - 1) case None => true case Some(prev) => prev.completed
  {
    FindByPosition(steps, idx);
  }

  // The response is never kept

  /** No step holds a response. */
  predicate NoResponses(steps: seq<Step>) {
    forall i :: 0 <= i < |steps| ==> steps[i].response == ""
  }

  /** Nothing the page does to the list ever fills in a response. */
  lemma NoResponsesPreserved(steps: seq<Step>, id: int, text: string, done: bool, outcome: Outcome)
    ensures NoResponses(InitialSteps)
    ensures NoResponses(steps) ==> NoResponses(AddChainStep(steps))
    ensures NoResponses(steps) ==> NoResponses(UpdateChainStep(steps, id, Prompt(text)))
    ensures NoResponses(steps) ==> NoResponses(UpdateChainStep(steps, id, Completed(done)))
    ensures NoResponses(steps) ==> NoResponses(AfterRun(steps, id, outcome))
  {
    var p := UpdateChainStep(steps, id, Prompt(text));
    var c := UpdateChainStep(steps, id, Completed(done));
    assert forall i :: 0 <= i < |steps| && steps[i].id == id ==> p[i] == Set(steps[i], Prompt(text));
    assert forall i :: 0 <= i < |steps| && steps[i].id == id ==> c[i] == Set(steps[i], Completed(done));
  }

  /** So, as the page is written, no step is ever sent with the previous step's answer as context. */
  lemma ContextNeverPassed(steps: seq<Step>, id: int)
    requires NoResponses(steps)
    requires Find(steps, id) != None
    ensures EffectivePrompt(Find(steps, id).value, Find(steps, id - 1)) == Find(steps, id).value.prompt
  {
  }

  /** With the intended writes, the answer to step `id` becomes the context of step `id + 1`. */
  lemma CommitIntendedPassesContext(steps: seq<Step>, id: int, text: string)
    requires WellNumbered(steps) && 1 <= id < |steps| && text != ""
    ensures var r := CommitIntended(steps, id, text);
      EffectivePrompt(r[id], Find(r, id)) == "Kontext: " + text + "\n\nAufgabe: " + steps[id].prompt
  {
    var r := CommitIntended(steps, id, text);
    CommitIntendedKeepsBoth(steps, id, text);
    assert WellNumbered(r);
    FindByPosition(r, id);
  }

  /** The workspace component: its step list and the shared `loading` flag. */
  class ChainLab {
    var chainSteps: seq<Step>
    var loading: bool

    /** Steps are numbered 1..n. */
    predicate Valid()
      reads this
    {
      WellNumbered(chainSteps)
    }

    /** The component as it mounts. */
    constructor ()
      ensures chainSteps == InitialSteps && !loading
      ensures Valid()
    {
      chainSteps := InitialSteps;
      loading := false;
    }

    /** The add-step button. */
    method AddStep()
      requires Valid()
      modifies this
      ensures chainSteps == AddChainStep(old(chainSteps)) && loading == old(loading)
      ensures Valid()
    {
      chainSteps := AddChainStep(chainSteps);
    }

    /** Typing into the text area of step `id`. */
    method EditPrompt(id: int, text: string)
      requires Valid()
      modifies this
      ensures chainSteps == UpdateChainStep(old(chainSteps), id, Prompt(text)) && loading == old(loading)
      ensures Valid()
    {
      chainSteps := UpdateChainStep(chainSteps, id, Prompt(text));
    }

    /**
     * `executeChainStep(id)`, with the request taken as one step: `storedKey` is what
     * storage holds, `outcome` what the request yields, and the result is the prompt sent.
     * A missing key changes nothing. An id no step carries fails before the request, with
     * `loading` left set. Otherwise the run sends the effective prompt, writes the response
     * and the completion flag from the same snapshot, one after the other, and clears
     * `loading`.
     */
    method ExecuteStep(id: int, storedKey: Option<string>, outcome: Outcome) returns (sent: Option<string>)
      requires Valid()
      modifies this
      ensures Valid()
      ensures KeyMissing(storedKey) ==>
        sent == None && chainSteps == old(chainSteps) && loading == old(loading)
      ensures !KeyMissing(storedKey) && Find(old(chainSteps), id) == None ==>
        sent == None && chainSteps == old(chainSteps) && loading
      ensures !KeyMissing(storedKey) && Find(old(chainSteps), id) != None ==>
        sent == Some(EffectivePrompt(Find(old(chainSteps), id).value, Find(old(chainSteps), id - 1)))
        && chainSteps == AfterRun(old(chainSteps), id, outcome) && !loading
    {
      if KeyMissing(storedKey) {
        return None;
      }
      loading := true;
      var step := Find(chainSteps, id);
      var prev := Find(chainSteps, id - 1);
      if step == None {
        return None;
      }
      var prompt := EffectivePrompt(step.value, prev);
      sent := Some(prompt);
      var snapshot := chainSteps;
      match outcome {
        case Failed =>
        case Answered(content) =>
          chainSteps := UpdateChainStep(snapshot, id, Response(AnswerText(content)));
          chainSteps := UpdateChainStep(snapshot, id, Completed(true));
      }
      loading := false;
    }
  }
}

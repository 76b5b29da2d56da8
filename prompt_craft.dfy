/**
 * The structured-prompt page: six text fields assembled into one prompt, a completion
 * meter over the fields, and the send action with its gates and its classification of
 * the server's reply.
 */
module PromptCraft {
  import opened Wrappers
  import opened Text

  /** The six fields of the `promptData` record. */
  datatype Field = Aufgabe | Kontext | Format | Beispiel | Persona | Tonfall

  datatype PromptData = PromptData(
    aufgabe: string, kontext: string, format: string,
    beispiel: string, persona: string, tonfall: string)

  /** The record the page starts with: every field empty. */
  const EmptyPromptData := PromptData("", "", "", "", "", "")

  /** The order of the step cards on screen. */
  const StepOrder: seq<Field> := [Aufgabe, Kontext, Format, Beispiel, Persona, Tonfall]

  /** The order in which the assembled prompt lists the sections. */
  const PromptOrder: seq<Field> := [Persona, Kontext, Aufgabe, Format, Tonfall, Beispiel]

  /** `promptData[field]`. */
  function Get(d: PromptData, f: Field): string {
    match f
    case Aufgabe => d.aufgabe
    case Kontext => d.kontext
    case Format => d.format
    case Beispiel => d.beispiel
    case Persona => d.persona
    case Tonfall => d.tonfall
  }

  /** `updatePromptData(field, value)`: the record spread with one field replaced. */
  function UpdatePromptData(d: PromptData, f: Field, v: string): (r: PromptData)
    ensures Get(r, f) == v
    ensures forall g :: g != f ==> Get(r, g) == Get(d, g)
  {
    match f
    case Aufgabe => d.(aufgabe := v)
    case Kontext => d.(kontext := v)
    case Format => d.(format := v)
    case Beispiel => d.(beispiel := v)
    case Persona => d.(persona := v)
    case Tonfall => d.(tonfall := v)
  }

  /** The text a non-empty field contributes: its label and line breaks around the value. */
  function Section(f: Field, v: string): string {
    match f
    case Persona => v + "\n\n"
    case Kontext => "Kontext: " + v + "\n\n"
    case Aufgabe => "Aufgabe: " + v + "\n"
    case Format => "Format: " + v + "\n"
    case Tonfall => "Tonfall: " + v + "\n"
    case Beispiel => "\nBeispiel: " + v
  }

  /** What field `f` adds to the prompt: its section when the value is truthy, nothing otherwise. */
  function Part(d: PromptData, f: Field): string {
    if Get(d, f) == "" then "" else Section(f, Get(d, f))
  }

  /** The parts of `fields`, in the order given. */
  function Parts(d: PromptData, fields: seq<Field>): (parts: seq<string>)
    ensures |parts| == |fields|
    ensures forall i :: 0 <= i < |fields| ==> parts[i] == Part(d, fields[i])
  {
    seq(|fields|, i requires 0 <= i < |fields| => Part(d, fields[i]))
  }

  /** The prompt the page assembles: the six parts appended one after the other, persona first. */
  function FullPrompt(d: PromptData): string {
    "" + Part(d, Persona) + Part(d, Kontext) + Part(d, Aufgabe) + Part(d, Format) + Part(d, Tonfall) + Part(d, Beispiel)
  }

  /** `buildFullPrompt`: six guarded appends to a local string. */
  method BuildFullPrompt(d: PromptData) returns (prompt: string)
    ensures prompt == FullPrompt(d)
  {
    prompt := "";
    if d.persona != "" {
      prompt := prompt + (d.persona + "\n\n");
    }
    assert prompt == "" + Part(d, Persona);
    if d.kontext != "" {
      prompt := prompt + ("Kontext: " + d.kontext + "\n\n");
    }
    assert prompt == "" + Part(d, Persona) + Part(d, Kontext);
    if d.aufgabe != "" {
      prompt := prompt + ("Aufgabe: " + d.aufgabe + "\n");
    }
    assert prompt == "" + Part(d, Persona) + Part(d, Kontext) + Part(d, Aufgabe);
    if d.format != "" {
      prompt := prompt + ("Format: " + d.format + "\n");
    }
    assert prompt == "" + Part(d, Persona) + Part(d, Kontext) + Part(d, Aufgabe) + Part(d, Format);
    if d.tonfall != "" {
      prompt := prompt + ("Tonfall: " + d.tonfall + "\n");
    }
    assert prompt == "" + Part(d, Persona) + Part(d, Kontext) + Part(d, Aufgabe) + Part(d, Format) + Part(d, Tonfall);
    if d.beispiel != "" {
      prompt := prompt + ("\nBeispiel: " + d.beispiel);
    }
  }

  /** Each field has one place in the section order. */
  function Position(f: Field): (i: nat)
    ensures i < |PromptOrder| && PromptOrder[i] == f
  {
    match f
    case Persona => 0
    case Kontext => 1
    case Aufgabe => 2
    case Format => 3
    case Tonfall => 4
    case Beispiel => 5
  }

  /** No field is listed twice in the section order. */
  lemma PromptOrderDistinct()
    ensures forall i, j :: 0 <= i < j < |PromptOrder| ==> PromptOrder[i] != PromptOrder[j]
  {
    assert forall i :: 0 <= i < |PromptOrder| ==> Position(PromptOrder[i]) == i;
  }

  /** The sections follow persona, Kontext, Aufgabe, Format, Tonfall, Beispiel: the same six fields as the step cards, in another order. */
  lemma SectionOrderDiffersFromSteps()
    ensures multiset(PromptOrder) == multiset(StepOrder)
    ensures PromptOrder != StepOrder
  {
    assert PromptOrder[0] != StepOrder[0];
  }

  /** The assembled prompt is the parts of the fields taken in section order. */
  lemma FullPromptIsConcat(d: PromptData)
    ensures FullPrompt(d) == Concat(Parts(d, PromptOrder))
  {
    var ps := Parts(d, PromptOrder);
    assert ps[..1][..0] == [];
    assert Concat(ps[..1]) == "" + Part(d, Persona);
    assert ps[..2][..1] == ps[..1];
    assert Concat(ps[..2]) == "" + Part(d, Persona) + Part(d, Kontext);
    assert ps[..3][..2] == ps[..2];
    assert Concat(ps[..3]) == "" + Part(d, Persona) + Part(d, Kontext) + Part(d, Aufgabe);
    assert ps[..4][..3] == ps[..3];
    assert Concat(ps[..4]) == "" + Part(d, Persona) + Part(d, Kontext) + Part(d, Aufgabe) + Part(d, Format);
    assert ps[..5][..4] == ps[..4];
    assert Concat(ps[..5])
      == "" + Part(d, Persona) + Part(d, Kontext) + Part(d, Aufgabe) + Part(d, Format) + Part(d, Tonfall);
    assert ps[..5] == ps[..|ps| - 1];
  }

  /**
   * Each field owns exactly one part, at its own place in the section order: updating a
   * field sets that part to the field's section (or nothing, for an empty value) and
   * leaves every other part as it was.
   */
  lemma UpdateReplacesOnlyItsSection(d: PromptData, f: Field, v: string)
    ensures var after := Parts(UpdatePromptData(d, f, v), PromptOrder);
      after[Position(f)] == (if v == "" then "" else Section(f, v))
    ensures var before, after := Parts(d, PromptOrder), Parts(UpdatePromptData(d, f, v), PromptOrder);
      forall j :: 0 <= j < |PromptOrder| && j != Position(f) ==> after[j] == before[j]
  {
    PromptOrderDistinct();
  }

  /** The assembled prompt is empty exactly when every field is. */
  lemma FullPromptEmptyIff(d: PromptData)
    ensures FullPrompt(d) == "" <==> d == EmptyPromptData
  {
    assert |FullPrompt(d)|
      == |Part(d, Persona)| + |Part(d, Kontext)| + |Part(d, Aufgabe)|
       + |Part(d, Format)| + |Part(d, Tonfall)| + |Part(d, Beispiel)|;
  }

  /** `Object.values(promptData)`: the fields in the order the record declares them, which is the step order. */
  function Values(d: PromptData): (values: seq<string>)
    ensures |values| == |StepOrder|
    ensures forall i :: 0 <= i < |StepOrder| ==> values[i] == Get(d, StepOrder[i])
  {
    [d.aufgabe, d.kontext, d.format, d.beispiel, d.persona, d.tonfall]
  }

  /** How many of `values` keep some character after `trim`: `values.filter(v => v.trim()).length`. */
  function CountFilled(values: seq<string>): (n: nat)
    ensures n <= |values|
    ensures n == 0 <==> forall k :: 0 <= k < |values| ==> Blank(values[k])
    ensures n == |values| <==> forall k :: 0 <= k < |values| ==> !Blank(values[k])
  {
    if values == [] then 0
    else (if Trim(values[0]) != "" then 1 else 0) + CountFilled(values[1..])
  }

  /** Number of fields the completion meter counts as filled. */
  function Filled(d: PromptData): (n: nat)
    ensures n <= 6
  {
    CountFilled(Values(d))
  }

  /** `Math.round(filled / 6 * 100)`: the whole percentage nearest to `filled` sixths. */
  function CompletionPercent(filled: nat): (score: nat)
    ensures 6 * score - 3 <= 100 * filled < 6 * score + 3
  {
    (filled * 100 + 3) / 6
  }

  /** `getCompletionScore`. */
  function CompletionScore(d: PromptData): (score: nat)
    ensures score <= 100
  {
    CompletionPercent(Filled(d))
  }

  /** The card a field is edited on, counted from 0. */
  function StepIndex(f: Field): (i: nat)
    ensures i < |StepOrder| && StepOrder[i] == f
  {
    match f
    case Aufgabe => 0
    case Kontext => 1
    case Format => 2
    case Beispiel => 3
    case Persona => 4
    case Tonfall => 5
  }

  /** No field has more filled values in `xs` than in `ys` if every non-blank value of `xs` is non-blank in `ys`. */
  lemma {:induction false} CountFilledMonotone(xs: seq<string>, ys: seq<string>)
    requires |xs| == |ys|
    requires forall k :: 0 <= k < |xs| && !Blank(xs[k]) ==> !Blank(ys[k])
    ensures CountFilled(xs) <= CountFilled(ys)
  {
    if xs != [] {
      CountFilledMonotone(xs[1..], ys[1..]);
      assert !Blank(xs[0]) ==> !Blank(ys[0]);
    }
  }

  /** The meter counts a field exactly when its value is not all whitespace. */
  lemma FilledFields(d: PromptData)
    ensures Filled(d) == 0 <==> forall f :: Blank(Get(d, f))
    ensures Filled(d) == 6 <==> forall f :: !Blank(Get(d, f))
  {
    var values := Values(d);
    forall f ensures values[StepIndex(f)] == Get(d, f) { }
  }

  /** The meter reads 0 exactly when no field has content, and 100 exactly when all six have. */
  lemma CompletionBounds(d: PromptData)
    ensures CompletionScore(d) == 0 <==> forall f :: Blank(Get(d, f))
    ensures CompletionScore(d) == 100 <==> forall f :: !Blank(Get(d, f))
  {
    FilledFields(d);
  }

  /** More filled fields never give a lower percentage. */
  lemma PercentMonotone(a: nat, b: nat)
    requires a <= b
    ensures CompletionPercent(a) <= CompletionPercent(b)
  {
    assert a * 100 + 3 <= b * 100 + 3;
  }

  /** Typing content into a field never lowers the meter. */
  lemma FillingNeverLowers(d: PromptData, f: Field, v: string)
    requires !Blank(v)
    ensures CompletionScore(d) <= CompletionScore(UpdatePromptData(d, f, v))
  {
    var e := UpdatePromptData(d, f, v);
    forall k | 0 <= k < 6 && !Blank(Values(d)[k]) ensures !Blank(Values(e)[k]) {
      assert Values(d)[k] == Get(d, StepOrder[k]) && Values(e)[k] == Get(e, StepOrder[k]);
    }
    CountFilledMonotone(Values(d), Values(e));
    PercentMonotone(Filled(d), Filled(e));
  }

  /** Only whether a field is blank matters to the meter, not what its value is. */
  lemma FilledDependsOnBlankness(d: PromptData, f: Field, v: string, w: string)
    requires Blank(v) <==> Blank(w)
    ensures Filled(UpdatePromptData(d, f, v)) == Filled(UpdatePromptData(d, f, w))
  {
    var e, z := UpdatePromptData(d, f, v), UpdatePromptData(d, f, w);
    forall k | 0 <= k < 6 ensures Blank(Values(e)[k]) <==> Blank(Values(z)[k]) {
      assert Values(e)[k] == Get(e, StepOrder[k]) && Values(z)[k] == Get(z, StepOrder[k]);
    }
    CountFilledMonotone(Values(e), Values(z));
    CountFilledMonotone(Values(z), Values(e));
  }

  /** A whitespace-only field is left out of the meter but still goes into the assembled prompt. */
  lemma BlankFieldShownNotCounted(d: PromptData, f: Field, v: string)
    requires v != "" && Blank(v)
    ensures CompletionScore(UpdatePromptData(d, f, v)) == CompletionScore(UpdatePromptData(d, f, ""))
    ensures FullPrompt(UpdatePromptData(d, f, v)) != ""
  {
    var e := UpdatePromptData(d, f, v);
    FilledDependsOnBlankness(d, f, v, "");
    FullPromptEmptyIff(e);
    assert Get(e, f) != Get(EmptyPromptData, f);
  }

  /** What the backend's reply amounts to once parsed, or `Failed` when the request or the parsing threw. */
  datatype Reply =
    | Received(
        error: Option<string>,    // `data.error`, in its string form
        content: Option<string>,  // `data.choices[0].message.content`, when that path exists
        serialized: string)       // `JSON.stringify(data)`
    | Failed

  /** JavaScript truthiness of an optional string: present and not empty. */
  predicate Truthy(o: Option<string>) {
    o.Some? && o.value != ""
  }

  const MissingKeyHint := "Bitte gib zuerst deinen OpenRouter API Key ein."
  const ServerDownMessage := "Fehler: Stelle sicher, dass der Backend-Server läuft (npm run server)"
  const ErrorPrefix := "Fehler: "
  const UnexpectedPrefix := "Unerwartetes Antwortformat: "

  /**
   * The text `sendPrompt` shows for a reply: the error behind "Fehler: " when there is one,
   * else the first choice's content, else the serialized reply behind a notice; a failed
   * request gives the server-down message. It is never empty.
   */
  function ResponseText(reply: Reply): (text: string)
    ensures text != ""
    ensures reply.Failed? ==> text == ServerDownMessage
    ensures reply.Received? && Truthy(reply.error) ==> text == ErrorPrefix + reply.error.value
    ensures reply.Received? && !Truthy(reply.error) && Truthy(reply.content) ==> text == reply.content.value
    ensures reply.Received? && !Truthy(reply.error) && !Truthy(reply.content) ==> text == UnexpectedPrefix + reply.serialized
  {
    match reply
    case Failed => ServerDownMessage
    case Received(error, content, serialized) =>
      if Truthy(error) then ErrorPrefix + error.value
      else if Truthy(content) then content.value
      else UnexpectedPrefix + serialized
  }

  /** The send button's state: `disabled={loading || !promptData.aufgabe || !apiKey}`, negated. */
  predicate SendEnabled(loading: bool, d: PromptData, apiKey: string) {
    !loading && d.aufgabe != "" && apiKey != ""
  }

  /** A click on an enabled button always gets past both gates of `sendPrompt`. */
  lemma EnabledButtonPassesGates(loading: bool, d: PromptData, apiKey: string)
    requires SendEnabled(loading, d, apiKey)
    ensures apiKey != ""
    ensures Trim(FullPrompt(d)) != ""
  {
    var before := "" + Part(d, Persona) + Part(d, Kontext);
    assert FullPrompt(d)[|before|] == 'A';
  }

  /** The page's state: the six fields, the shown response, the loading flag and the API key. */
  class PromptCraftPage {
    var promptData: PromptData
    var response: string
    var loading: bool
    var apiKey: string

    /** The page as it mounts, with the key found in storage or "". */
    constructor (storedKey: string)
      ensures promptData == EmptyPromptData && response == "" && !loading && apiKey == storedKey
    {
      promptData := EmptyPromptData;
      response := "";
      loading := false;
      apiKey := storedKey;
    }

    /** Typing into a field's text area. */
    method UpdateField(f: Field, v: string)
      modifies this
      ensures promptData == UpdatePromptData(old(promptData), f, v)
      ensures response == old(response) && loading == old(loading) && apiKey == old(apiKey)
    {
      promptData := UpdatePromptData(promptData, f, v);
    }

    /** Typing into the API key input. */
    method EnterApiKey(key: string)
      modifies this
      ensures apiKey == key
      ensures promptData == old(promptData) && response == old(response) && loading == old(loading)
    {
      apiKey := key;
    }

    /**
     * `sendPrompt`, with the request and its reply taken as one step: `reply` is what the
     * request yields, and the result is the prompt sent, if any.
     */
    method SendPrompt(reply: Reply) returns (sent: Option<string>)
      modifies this
      ensures promptData == old(promptData) && apiKey == old(apiKey)
      ensures apiKey == "" ==>
        sent == None && response == MissingKeyHint && loading == old(loading)
      ensures apiKey != "" && Trim(FullPrompt(promptData)) == "" ==>
        sent == None && response == old(response) && loading == old(loading)
      ensures apiKey != "" && Trim(FullPrompt(promptData)) != "" ==>
        sent == Some(FullPrompt(promptData)) && response == ResponseText(reply) && !loading
    {
      if apiKey == "" {
        response := MissingKeyHint;
        return None;
      }
      var fullPrompt := BuildFullPrompt(promptData);
      if Trim(fullPrompt) == "" {
        return None;
      }
      loading := true;
      response := "";
      sent := Some(fullPrompt);
      response := ResponseText(reply);
      loading := false;
    }
  }
}

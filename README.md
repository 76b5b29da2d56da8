# Prompting lessons: a verified model of the page logic

The "prompting" web application teaches prompt writing on three pages. This project
models the logic inside those pages in Dafny and proves what that logic promises.

- **Techniques page** (`techniques_lab.dfy`, module `Techniques`). The prompt-quality
  heuristic `analyzePromptQuality` applies five rules to a prompt: too short, vague words,
  no format, negations, and no context. Each rule that fires adds an issue and takes a
  fixed penalty off 100. The module also covers the score colour, the issue icon, and the
  gate that runs the heuristic only on a prompt with content.
- **Prompt builder page** (`prompt_craft.dfy`, module `PromptCraft`). The user fills six
  fields. `buildFullPrompt` assembles them into one prompt, and the completion meter
  counts the filled fields. `sendPrompt` checks the API key and the prompt, then turns the
  backend's reply into the text shown. The page state is the class `PromptCraftPage`.
- **Advanced page, prompt chaining** (`advanced_lab.dfy`, module `Chaining`). A list of
  numbered steps. A step can be appended, and one field of a step can be updated by id.
  Running a step sends its prompt, prefixed with the previous step's response when there
  is one. The component state (`chainSteps`, `loading`) is the class `ChainLab`.
- **String primitives** (`text.dfy`, module `Text`). The JavaScript operations the pages
  rely on: `trim`, `toLowerCase`, `includes`, `split(' ')`. `wrappers.dfy` holds `Option`.

Imperative code is modelled imperatively:
- `analyzePromptQuality` and `buildFullPrompt` are methods over local variables. Each is
  proved equal to a specification function.
- The two page components are classes. Their methods update the fields the way the
  component's state setters do.

Pure code is modelled as functions: record updates, the list operations, the completion
meter, the colour and icon mappings.

Network requests are atomic. The reply is a parameter of the method that sends the
request:
- `Reply` for the builder page: a parsed body, or an exception.
- `Outcome` for a chain step.

## Model

| member | source | states |
|---|---|---|
| Techniques.AnalyzePromptQuality | src/TechniquesLab.jsx:50-82 | The five guarded steps over the local score and issue list yield the report of the rule table (`Report`). |
| Techniques.ReportIsTable | src/TechniquesLab.jsx:50-82 | The report consists of the issues of exactly the fired rules, in checking order. The score is 100 minus their penalties, floored at 0. |
| Techniques.ApplyAllIsTable | src/TechniquesLab.jsx:52-79 | Applying rules one at a time to a running report subtracts the fired rules' penalties and appends their issues. |
| Techniques.ScoreRange | src/TechniquesLab.jsx:52-81 | The score is exactly 100 minus the penalties of the fired rules. It always lies in [40, 100], so the floor at 0 never binds. |
| Techniques.FiredPenaltyBound | src/TechniquesLab.jsx:52-81 | The fired rules' penalties total at most the sum of all penalties. The total is 0 only when no rule fired. |
| Techniques.PerfectIffNoIssues | src/TechniquesLab.jsx:52-81 | The score is 100 if and only if the issue list is empty. |
| Techniques.FiredAmongSelects | src/TechniquesLab.jsx:54-79 | A rule is among the fired rules iff it is checked and its check objects. Filtering keeps the checking order. |
| Techniques.FiredIffFires | src/TechniquesLab.jsx:54-79 | A rule appears among the fired rules of a prompt iff its check objects to the prompt. |
| Techniques.EveryRuleChecked | src/TechniquesLab.jsx:54-79 | Every one of the five rules is checked. |
| Techniques.IssuesInFixedOrder | src/TechniquesLab.jsx:54-79 | Issues appear once per fired rule, in the order short, vague, format, negation, context, so there are at most five. |
| Techniques.ShortPromptWarnsFirst | src/TechniquesLab.jsx:54-57 | A prompt under 20 characters gets the short-prompt issue first, with kind "warning", and scores at most 80. |
| Techniques.GutachtenIsVague | src/TechniquesLab.jsx:59-61 | The vague-word check matches substrings regardless of case: "Gutachten" triggers it through "gut". |
| Techniques.BohneIsNegation | src/TechniquesLab.jsx:71-74 | The negation regex matches substrings regardless of case: "Bohne" triggers it through "ohne". |
| Techniques.ContextRuleIff | src/TechniquesLab.jsx:76-79 | The context rule fires iff the prompt has at least ten single spaces (more than ten pieces) and neither case-sensitive marker "Kontext:" nor "Hintergrund:". |
| Techniques.FotosyntheseExample | src/TechniquesLab.jsx:21 | The built-in zero-shot example "Erkläre, was Fotosynthese ist." scores 90 with the single "info" format issue. |
| Techniques.ExampleSpaces | src/TechniquesLab.jsx:21 | The example prompt has three single spaces, so it splits into four pieces. |
| Techniques.ExampleNotVague | src/TechniquesLab.jsx:59-60 | The lower-cased example contains none of the vague words. |
| Techniques.ExampleNoFormat | src/TechniquesLab.jsx:66 | The lower-cased example contains none of the format words. |
| Techniques.ExampleNoNegation | src/TechniquesLab.jsx:71 | The lower-cased example contains none of the negation words. |
| Techniques.ScoreColor | src/TechniquesLab.jsx:146-150 | The colour is green iff the score is at least 80, yellow iff it is in [60, 80), and red iff it is below 60. |
| Techniques.ReportColor | src/TechniquesLab.jsx:146-150 | A report is green iff its penalties total at most 20, and red iff they exceed 40. |
| Techniques.IssueIcon | src/TechniquesLab.jsx:152-156 | "error" maps to a cross, "warning" to a warning sign, and any other kind to a light bulb. |
| Techniques.IssueIconByRule | src/TechniquesLab.jsx:152-156 | The cross marks exactly the vague-word issue. The warning sign marks exactly the short and negation issues. The bulb marks exactly the two tips. |
| Techniques.UserPromptReport | src/TechniquesLab.jsx:116-120 | A report is computed iff the user's prompt has a non-whitespace character, and it is then the prompt's report. |
| Text.Trim | src/TechniquesLab.jsx:117 | `trim()` yields "" iff every character is whitespace; otherwise the result neither starts nor ends with whitespace. |
| Text.Lower | src/TechniquesLab.jsx:60 | `toLowerCase()` keeps the length and lower-cases each character in place. |
| Text.ContainsIffOccurs | src/TechniquesLab.jsx:60 | `includes` finds a word iff it occurs at some position of the string. |
| Text.OccurrenceHasPair | src/TechniquesLab.jsx:60 | Where a word occurs, each pair of its adjacent characters occurs side by side. |
| Text.SplitLength | src/TechniquesLab.jsx:76 | `split(' ')` yields one piece more than there are spaces. |
| Text.CountJoin | src/TechniquesLab.jsx:76 | Joining space-free pieces with single spaces puts one space between neighbours. |
| Text.JoinSplit | src/TechniquesLab.jsx:76 | Joining the pieces of `split(sep)` with `sep` gives back the string. |
| PromptCraft.UpdatePromptData | src/App.jsx:82-84 | The named field takes the value, and the other five fields are unchanged. |
| PromptCraft.BuildFullPrompt | src/App.jsx:86-95 | The six guarded appends produce the assembled prompt `FullPrompt`. |
| PromptCraft.FullPromptIsConcat | src/App.jsx:86-95 | The assembled prompt is the fields' parts concatenated in the order persona, Kontext, Aufgabe, Format, Tonfall, Beispiel. A non-empty field gives its fixed wrapping; an empty one gives nothing. |
| PromptCraft.SectionOrderDiffersFromSteps | src/App.jsx:22-71 | The section order lists the same six fields as the on-screen step cards, but in a different order. |
| PromptCraft.PromptOrderDistinct | src/App.jsx:88-93 | Each field has exactly one section in the assembled prompt. |
| PromptCraft.UpdateReplacesOnlyItsSection | src/App.jsx:82-93 | Updating a field replaces its own section (removing it if the value is empty) and leaves every other section as it was. |
| PromptCraft.FullPromptEmptyIff | src/App.jsx:88-94 | The assembled prompt is "" iff all six fields are "". |
| PromptCraft.CountFilled | src/App.jsx:145 | The count of values that do not trim to "" is 0 iff all are blank, and it equals the number of values iff none is blank. |
| PromptCraft.Values | src/App.jsx:145 | `Object.values(promptData)` lists the six fields in declaration order, which is the step order. |
| PromptCraft.CompletionPercent | src/App.jsx:146 | `Math.round(filled / 6 * 100)` is the whole number within half a percent of filled·100/6. |
| PromptCraft.CompletionScore | src/App.jsx:144-147 | The completion percentage is at most 100. |
| PromptCraft.FilledFields | src/App.jsx:145 | No field is counted iff all six are blank; six are counted iff none is blank. |
| PromptCraft.CompletionBounds | src/App.jsx:144-147 | The meter reads 0 iff no field has content, and 100 iff all six do. |
| PromptCraft.CountFilledMonotone | src/App.jsx:145 | Turning blank values into non-blank ones never lowers the count. |
| PromptCraft.PercentMonotone | src/App.jsx:146 | The percentage never decreases as the filled count grows. |
| PromptCraft.FillingNeverLowers | src/App.jsx:144-147 | Typing content into any field never lowers the meter. |
| PromptCraft.FilledDependsOnBlankness | src/App.jsx:145 | Only whether a field is blank matters to the meter, not its value. |
| PromptCraft.BlankFieldShownNotCounted | src/App.jsx:88-147 | A whitespace-only field does not count toward the meter, yet it still puts text into the assembled prompt. |
| PromptCraft.ResponseText | src/App.jsx:130-138 | The shown text is never empty. It is "Fehler: " + error when an error is present, else the first choice's content when present, else "Unerwartetes Antwortformat: " + the serialised body. A failed request shows the server-down message. |
| PromptCraft.EnabledButtonPassesGates | src/App.jsx:292 | When the send button is enabled, both gates of `sendPrompt` pass: the key is non-empty and the assembled prompt does not trim to "". |
| PromptCraft.PromptCraftPage.constructor | src/App.jsx:9-19 | The page mounts with all fields empty, no response, not loading, and the stored key. |
| PromptCraft.PromptCraftPage.UpdateField | src/App.jsx:277 | Typing into a field applies `updatePromptData`, and nothing else changes. |
| PromptCraft.PromptCraftPage.EnterApiKey | src/App.jsx:177 | Typing the key replaces the key only. |
| PromptCraft.PromptCraftPage.SendPrompt | src/App.jsx:102-142 | With no key: nothing is sent and the hint is shown. With a prompt that trims to "": nothing is sent and nothing changes. Otherwise the assembled prompt is sent, the classified reply is shown, and `loading` ends false. |
| Chaining.Set | src/AdvancedLab.jsx:16 | Setting a field sets that field to the value and keeps the id and the other fields. |
| Chaining.AddChainStep | src/AdvancedLab.jsx:15 | One empty, uncompleted step is appended and the existing steps are untouched. When ids run 1..n, the new step has id n + 1 and ids still run 1..n+1. |
| Chaining.AddedStepFound | src/AdvancedLab.jsx:15 | The lookup by id n + 1 finds the appended step. |
| Chaining.UpdateChainStep | src/AdvancedLab.jsx:16 | Length and every id are kept. Steps with another id are unchanged, and the step with the id gets the field set. The result is well numbered when the input is, and an unknown id changes nothing. |
| Chaining.Find | src/AdvancedLab.jsx:22-23 | `find` returns nothing iff no step has the id; otherwise it returns a step of the list that has that id. |
| Chaining.FindByPosition | src/AdvancedLab.jsx:22-23 | When ids run 1..n, the lookup by id finds the step at position id - 1, and nothing outside 1..n. |
| Chaining.EffectivePrompt | src/AdvancedLab.jsx:24 | With a predecessor whose response is non-empty, the prompt is "Kontext: " + that response + "\n\nAufgabe: " + the step's prompt. Otherwise it is the step's prompt alone. |
| Chaining.FirstStepSentRaw | src/AdvancedLab.jsx:22-24 | Step 1 has no predecessor, so its prompt is always sent as written. |
| Chaining.GateMatchesIdLookup | src/AdvancedLab.jsx:177 | The button's index-based gate (position idx - 1 completed, not loading, prompt not blank) holds iff the same holds with the predecessor found by id - 1. |
| Chaining.AnswerText | src/AdvancedLab.jsx:32 | The response written is the content when it is non-empty, and "Fehler" otherwise. |
| Chaining.AfterRun | src/AdvancedLab.jsx:32-33 | A run's writes keep the list's length. Both are computed from the snapshot, so the second write is the one that survives. |
| Chaining.RunDropsResponse | src/AdvancedLab.jsx:32-33 | After a run, the step is completed, and every prompt and response, including the one just received, is as in the snapshot. |
| Chaining.NoResponsesPreserved | src/AdvancedLab.jsx:7-33 | The initial list, appending, editing a prompt, marking completion, and a run never put a response into any step. |
| Chaining.ContextNeverPassed | src/AdvancedLab.jsx:22-24 | In every list without responses, each step is sent without context. |
| Chaining.CommitIntended | src/AdvancedLab.jsx:32-33 | The two writes applied one after the other keep the list's length. |
| Chaining.CommitIntendedKeepsBoth | src/AdvancedLab.jsx:32-33 | With both writes kept, the run's step holds the answer and is completed, and every other step is unchanged. |
| Chaining.CommitIntendedPassesContext | src/AdvancedLab.jsx:22-33 | With both writes kept, the next step is sent with "Kontext: " + the answer ahead of its prompt. |
| Chaining.ChainLab.constructor | src/AdvancedLab.jsx:7-8 | The component mounts with one empty, uncompleted step numbered 1, and not loading. |
| Chaining.ChainLab.AddStep | src/AdvancedLab.jsx:15 | The add button applies `addChainStep` and keeps ids 1..n. |
| Chaining.ChainLab.EditPrompt | src/AdvancedLab.jsx:169 | Typing into a step's text area applies `updateChainStep(id, 'prompt', text)`. |
| Chaining.ChainLab.ExecuteStep | src/AdvancedLab.jsx:18-35 | A missing key changes nothing. An unknown id fails before the request and leaves `loading` set. Otherwise the effective prompt is sent, the list becomes the snapshot with only the step's completion set, and `loading` ends false. |

## Left out

- The HTTP proxy server, the router set-up, and the Refinement and Self-Consistency
  modules, whose buttons do nothing. They hold no page logic.
- `fetch`, JSON parsing, `localStorage`, `alert` and `console`. Each request is one atomic
  step. Its result is a parameter (`Reply`, `Outcome`), the stored key is a parameter, and
  alerts and logging are dropped.
- Concurrency: interleaved requests, and state edited while a request is in flight.
- PromptCraft.PromptCraftPage.SendPrompt: the request is atomic, so the cleared response
  and `loading == true` while it runs are not observable in the post-state.
- Chaining.ChainLab.ExecuteStep: for the same reason, `loading == true` during the request
  is not observable. The post-state is stated as the code leaves it.
- Techniques.AnalyzePromptQuality: an issue is represented by the rule that raised it.
  `Issue.Kind` and `Issue.Text` give its `type` and `text` strings.
- Text.LowerChar: lower-cases only ASCII and Latin-1 capitals. These are the only capitals
  the word lists can meet, since each list is in German and ASCII; full Unicode case
  folding is not modelled.
- Techniques.IsShort: counts Unicode code points. JavaScript's `length` counts UTF-16 code
  units, so the two differ for characters outside the Basic Multilingual Plane.
- PromptCraft.ResponseText: a reply's error and content are optional strings. The case of
  a non-string value in those fields is not modelled, and `JSON.stringify` output is an
  opaque string.
- Chaining.AnswerText: the content is an optional string; non-string values are not
  modelled.
- Rendering, styling, category colours and the static tables of techniques and modules.

## Findings

| source | as written | input that shows it | evidently intended | confidence | as-written member | corrected member |
|---|---|---|---|---|---|---|
| src/AdvancedLab.jsx:32-33 | `executeChainStep` calls `updateChainStep` twice. Both calls map over the `chainSteps` captured when the run began, so the second write (completed) replaces the first (response). | Any successful run of step 1 with content "A": step 1 ends completed with response "", so step 2 is sent without "Kontext: A". | Record the response and mark the step completed, so the next step receives the answer as context. | not executed | Chaining.RunDropsResponse | Chaining.CommitIntendedPassesContext |

`ChainLab.ExecuteStep` keeps the code's semantics, since it models the page as written.
Because of this, `Chaining.ContextNeverPassed` holds for every list the page can reach.
The corrected two-write commit, `Chaining.CommitIntended`, is what the chaining feature
needs.

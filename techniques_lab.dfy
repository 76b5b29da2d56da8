/**
 * The prompt-quality heuristic of the techniques page: five independent rules, each
 * adding an issue and a fixed penalty off a base score of 100, plus the colour and
 * icon the page shows for a score and an issue.
 */
module Techniques {
  import opened Wrappers
  import opened Text

  /** What `analyzePromptQuality` returns: the score and the issues raised, in order. */
  datatype QualityReport = QualityReport(score: int, issues: seq<Issue>)

  /** The five rules, named after what they object to. */
  datatype Rule = TooShort | Vague | NoFormat | Negation | NoContext

  /** The order in which the rules are checked, and so the order of the issues. */
  const RuleOrder: seq<Rule> := [TooShort, Vague, NoFormat, Negation, NoContext]

  const VagueWords: seq<string> := ["gut", "schön", "nice", "irgendwie", "vielleicht"]
  const FormatWords: seq<string> := ["format", "struktur", "länge", "wörter", "sätze", "liste", "tabelle"]
  const NegationWords: seq<string> := ["nicht", "kein", "ohne", "vermeide"]

  function Rank(r: Rule): nat {
    match r
    case TooShort => 0
    case Vague => 1
    case NoFormat => 2
    case Negation => 3
    case NoContext => 4
  }

  function Penalty(r: Rule): nat {
    match r
    case TooShort => 20
    case Vague => 15
    case NoFormat => 10
    case Negation => 10
    case NoContext => 5
  }

  /**
   * One entry of the report's `issues` list. Its `type` and `text` strings are fixed per
   * rule, so an issue is represented by the rule that raised it.
   */
  datatype Issue = Issue(rule: Rule) {
    /** The `type` field: "warning", "error" or "info". */
    function Kind(): string {
      match rule
      case TooShort => "warning"
      case Vague => "error"
      case NoFormat => "info"
      case Negation => "warning"
      case NoContext => "info"
    }

    /** The `text` field shown to the user. */
    function Text(): string {
      match rule
      case TooShort => "Prompt ist sehr kurz - sei spezifischer!"
      case Vague => "Vermeide vage Begriffe wie \"gut\" oder \"schön\" - sei konkret!"
      case NoFormat => "Tipp: Gib ein gewünschtes Format an (z.B. \"in 3 Sätzen\", \"als Liste\")"
      case Negation => "Sag lieber WAS du willst, statt was du NICHT willst"
      case NoContext => "Bei komplexen Aufgaben: Gib Kontext oder Hintergrund an"
    }
  }

  /** Some word of `words` occurs in `s` (`words.some(w => s.includes(w))`, or a regex alternation). */
  predicate ContainsAny(s: string, words: seq<string>) {
    exists k :: 0 <= k < |words| && Contains(s, words[k])
  }

  predicate IsShort(prompt: string) {
    |prompt| < 20
  }

  /** `vagueWords.some(word => prompt.toLowerCase().includes(word))`. */
  predicate HasVagueWords(prompt: string) {
    ContainsAny(Lower(prompt), VagueWords)
  }

  /** The format regex carries the `i` flag, so it matches the lower-cased prompt. */
  predicate MentionsFormat(prompt: string) {
    ContainsAny(Lower(prompt), FormatWords)
  }

  predicate HasNegation(prompt: string) {
    ContainsAny(Lower(prompt), NegationWords)
  }

  /** More than ten space-separated pieces and neither case-sensitive marker. */
  predicate LacksContext(prompt: string) {
    |Split(prompt, ' ')| > 10 && !Contains(prompt, "Kontext:") && !Contains(prompt, "Hintergrund:")
  }

  /** The outcome of the five checks on one prompt. */
  datatype Checks = Checks(short: bool, vague: bool, noFormat: bool, negation: bool, noContext: bool) {
    /** Whether the check behind rule `r` objected. */
    predicate Flags(r: Rule) {
      match r
      case TooShort => short
      case Vague => vague
      case NoFormat => noFormat
      case Negation => negation
      case NoContext => noContext
    }
  }

  function Check(prompt: string): Checks {
    Checks(IsShort(prompt), HasVagueWords(prompt), !MentionsFormat(prompt), HasNegation(prompt), LacksContext(prompt))
  }

  /** Whether a rule objects to a prompt. */
  predicate Fires(r: Rule, prompt: string)
    ensures Fires(r, prompt) == Check(prompt).Flags(r)
  {
    match r
    case TooShort => IsShort(prompt)
    case Vague => HasVagueWords(prompt)
    case NoFormat => !MentionsFormat(prompt)
    case Negation => HasNegation(prompt)
    case NoContext => LacksContext(prompt)
  }

  /** Rules listed in strictly increasing rank: each at most once, in checking order. */
  predicate InRuleOrder(rules: seq<Rule>) {
    forall i, j :: 0 <= i < j < |rules| ==> Rank(rules[i]) < Rank(rules[j])
  }

  /** The rules of `rules` whose check objected, in the order given. */
  function FiredAmong(rules: seq<Rule>, checks: Checks): (fired: seq<Rule>)
    ensures |fired| <= |rules|
  {
    if rules == [] then []
    else if checks.Flags(rules[0]) then [rules[0]] + FiredAmong(rules[1..], checks)
    else FiredAmong(rules[1..], checks)
  }

  /** Filtering keeps exactly the rules whose check objected, and keeps them in checking order. */
  lemma {:induction false} FiredAmongSelects(rules: seq<Rule>, checks: Checks)
    ensures forall r :: r in FiredAmong(rules, checks) <==> r in rules && checks.Flags(r)
    ensures InRuleOrder(rules) ==> InRuleOrder(FiredAmong(rules, checks))
  {
    if rules != [] {
      FiredAmongSelects(rules[1..], checks);
      if InRuleOrder(rules) {
        forall r | r in rules[1..] ensures Rank(rules[0]) < Rank(r) {
          var k :| 0 <= k < |rules[1..]| && rules[1..][k] == r;
          assert rules[k + 1] == r;
        }
      }
    }
  }

  function TotalPenalty(rules: seq<Rule>): nat {
    if rules == [] then 0 else Penalty(rules[0]) + TotalPenalty(rules[1..])
  }

  function IssuesOf(rules: seq<Rule>): (issues: seq<Issue>)
    ensures |issues| == |rules|
    ensures forall k :: 0 <= k < |rules| ==> issues[k] == Issue(rules[k])
  {
    if rules == [] then [] else [Issue(rules[0])] + IssuesOf(rules[1..])
  }

  /** The rules that fire on `prompt`, in checking order. */
  function Fired(prompt: string): seq<Rule> {
    FiredAmong(RuleOrder, Check(prompt))
  }

  /** Applying rule `r` to a running report: its issue and penalty are added if its check objected. */
  function Apply(report: QualityReport, r: Rule, checks: Checks): QualityReport {
    if checks.Flags(r) then QualityReport(report.score - Penalty(r), report.issues + [Issue(r)])
    else report
  }

  /** Applying `rules` in turn to a running report. */
  function ApplyAll(rules: seq<Rule>, report: QualityReport, checks: Checks): QualityReport {
    if rules == [] then report else ApplyAll(rules[1..], Apply(report, rules[0], checks), checks)
  }

  /** The report for given check outcomes: the five rules applied in order from 100 and no issues, floored at 0. */
  function ReportFor(checks: Checks): QualityReport {
    var start := QualityReport(100, []);
    var tally := Apply(Apply(Apply(Apply(Apply(start, TooShort, checks), Vague, checks), NoFormat, checks), Negation, checks), NoContext, checks);
    QualityReport(if tally.score < 0 then 0 else tally.score, tally.issues)
  }

  /** The report the heuristic gives a prompt. */
  function Report(prompt: string): QualityReport {
    ReportFor(Check(prompt))
  }

  /** `analyzePromptQuality`: five guarded steps over a local score and issue list. */
  method AnalyzePromptQuality(prompt: string) returns (report: QualityReport)
    ensures report == Report(prompt)
  {
    ghost var checks := Check(prompt);
    var issues: seq<Issue> := [];
    var score := 100;

    if IsShort(prompt) {
      issues := issues + [Issue(TooShort)];
      score := score - 20;
    }
    assert QualityReport(score, issues) == Apply(QualityReport(100, []), TooShort, checks);

    var hasVagueWords := HasVagueWords(prompt);
    ghost var before := QualityReport(score, issues);
    if hasVagueWords {
      issues := issues + [Issue(Vague)];
      score := score - 15;
    }
    assert QualityReport(score, issues) == Apply(before, Vague, checks);

    before := QualityReport(score, issues);
    if !MentionsFormat(prompt) {
      issues := issues + [Issue(NoFormat)];
      score := score - 10;
    }
    assert QualityReport(score, issues) == Apply(before, NoFormat, checks);

    before := QualityReport(score, issues);
    if HasNegation(prompt) {
      issues := issues + [Issue(Negation)];
      score := score - 10;
    }
    assert QualityReport(score, issues) == Apply(before, Negation, checks);

    before := QualityReport(score, issues);
    if LacksContext(prompt) {
      issues := issues + [Issue(NoContext)];
      score := score - 5;
    }
    assert QualityReport(score, issues) == Apply(before, NoContext, checks);

    report := QualityReport(if score < 0 then 0 else score, issues);
  }

  /** Applying the rule order is applying the five rules one after the other. */
  lemma ApplyInRuleOrder(start: QualityReport, checks: Checks)
    ensures ApplyAll(RuleOrder, start, checks)
      == Apply(Apply(Apply(Apply(Apply(start, TooShort, checks), Vague, checks), NoFormat, checks), Negation, checks), NoContext, checks)
  {
    var r1 := Apply(start, TooShort, checks);
    var r2 := Apply(r1, Vague, checks);
    var r3 := Apply(r2, NoFormat, checks);
    var r4 := Apply(r3, Negation, checks);
    var r5 := Apply(r4, NoContext, checks);
    assert ApplyAll([], r5, checks) == r5;
    assert ApplyAll([NoContext], r4, checks) == r5;
    assert ApplyAll([Negation, NoContext], r3, checks) == r5;
    assert ApplyAll([NoFormat, Negation, NoContext], r2, checks) == r5;
    assert ApplyAll([Vague, NoFormat, Negation, NoContext], r1, checks) == r5;
  }

  /** One step of the table: applying `r` and then the fired `rest` is applying the fired list `r` heads when it fires. */
  lemma ApplyStep(report: QualityReport, r: Rule, rest: seq<Rule>, checks: Checks)
    ensures var next := Apply(report, r, checks);
      var fired := if checks.Flags(r) then [r] + rest else rest;
      QualityReport(next.score - TotalPenalty(rest), next.issues + IssuesOf(rest))
        == QualityReport(report.score - TotalPenalty(fired), report.issues + IssuesOf(fired))
  {
    if checks.Flags(r) {
      assert ([r] + rest)[1..] == rest;
      assert IssuesOf([r] + rest) == [Issue(r)] + IssuesOf(rest);
      assert report.issues + [Issue(r)] + IssuesOf(rest) == report.issues + ([Issue(r)] + IssuesOf(rest));
    }
  }

  /** Applying rules one by one is the table lookup: subtract the fired rules' penalties, append their issues. */
  lemma {:induction false} ApplyAllIsTable(rules: seq<Rule>, report: QualityReport, checks: Checks)
    ensures var fired := FiredAmong(rules, checks);
      ApplyAll(rules, report, checks) == QualityReport(report.score - TotalPenalty(fired), report.issues + IssuesOf(fired))
  {
    if rules != [] {
      ApplyAllIsTable(rules[1..], Apply(report, rules[0], checks), checks);
      ApplyStep(report, rules[0], FiredAmong(rules[1..], checks), checks);
    }
  }

  lemma {:induction false} FiredPenaltyBound(rules: seq<Rule>, checks: Checks)
    ensures TotalPenalty(FiredAmong(rules, checks)) <= TotalPenalty(rules)
    ensures TotalPenalty(FiredAmong(rules, checks)) == 0 <==> FiredAmong(rules, checks) == []
  {
    if rules != [] {
      FiredPenaltyBound(rules[1..], checks);
    }
  }

  /** The report in table form: the fired rules' issues, and 100 less their penalties, floored at 0. */
  lemma ReportIsTable(prompt: string)
    ensures var fired := Fired(prompt);
      var score := 100 - TotalPenalty(fired);
      Report(prompt) == QualityReport(if score < 0 then 0 else score, IssuesOf(fired))
  {
    ApplyInRuleOrder(QualityReport(100, []), Check(prompt));
    ApplyAllIsTable(RuleOrder, QualityReport(100, []), Check(prompt));
  }

  /** The score lies in [40, 100] and is exactly 100 minus the fired rules' penalties: the floor at 0 never binds. */
  lemma ScoreRange(prompt: string)
    ensures Report(prompt).score == 100 - TotalPenalty(Fired(prompt))
    ensures 40 <= Report(prompt).score <= 100
  {
    ReportIsTable(prompt);
    FiredPenaltyBound(RuleOrder, Check(prompt));
    assert TotalPenalty(RuleOrder) == 60;
  }

  /** A perfect score means no issue was raised, and no issue means a perfect score. */
  lemma PerfectIffNoIssues(prompt: string)
    ensures Report(prompt).score == 100 <==> Report(prompt).issues == []
  {
    ScoreRange(prompt);
    FiredPenaltyBound(RuleOrder, Check(prompt));
  }

  /** Every rule is checked. */
  lemma EveryRuleChecked(r: Rule)
    ensures r in RuleOrder
  {
    match r
    case TooShort => assert RuleOrder[0] == r;
    case Vague => assert RuleOrder[1] == r;
    case NoFormat => assert RuleOrder[2] == r;
    case Negation => assert RuleOrder[3] == r;
    case NoContext => assert RuleOrder[4] == r;
  }

  /** A rule is among the fired ones exactly when its check objects to the prompt. */
  lemma FiredIffFires(prompt: string, r: Rule)
    ensures r in Fired(prompt) <==> Fires(r, prompt)
  {
    FiredAmongSelects(RuleOrder, Check(prompt));
    EveryRuleChecked(r);
  }

  /** The checking order lists the rules by increasing rank. */
  lemma RuleOrderRanked()
    ensures InRuleOrder(RuleOrder)
  {
    assert forall i :: 0 <= i < |RuleOrder| ==> Rank(RuleOrder[i]) == i;
  }

  /** Each fired rule raises its issue once, in checking order; so there are at most five. */
  lemma IssuesInFixedOrder(prompt: string)
    ensures var issues := Report(prompt).issues;
      && |issues| <= 5
      && |issues| == |Fired(prompt)|
      && (forall k :: 0 <= k < |issues| ==> issues[k] == Issue(Fired(prompt)[k]))
    ensures InRuleOrder(Fired(prompt))
  {
    RuleOrderRanked();
    FiredAmongSelects(RuleOrder, Check(prompt));
    ReportIsTable(prompt);
  }

  /** A prompt under 20 characters always gets the short-prompt warning first and at most 80 points. */
  lemma ShortPromptWarnsFirst(prompt: string)
    requires |prompt| < 20
    ensures var report := Report(prompt);
      && report.issues != []
      && report.issues[0] == Issue(TooShort)
      && report.issues[0].Kind() == "warning"
      && report.score <= 80
  {
    ReportIsTable(prompt);
    FiredPenaltyBound(RuleOrder[1..], Check(prompt));
  }

  /** The word count is the number of single spaces plus one, so the context rule asks for at least ten spaces. */
  lemma ContextRuleIff(prompt: string)
    ensures Fires(NoContext, prompt) <==>
      Count(prompt, ' ') >= 10 && !Contains(prompt, "Kontext:") && !Contains(prompt, "Hintergrund:")
  {
    SplitLength(prompt, ' ');
  }

  /** The vague-word check is a case-insensitive substring match: "Gutachten" contains "gut". */
  lemma GutachtenIsVague()
    ensures HasVagueWords("Gutachten")
  {
    var lower := Lower("Gutachten");
    assert lower[0] == 'g' && lower[1] == 'u' && lower[2] == 't';
    assert StartsWith(lower, VagueWords[0]);
  }

  /** The negation check is a substring match too: "Bohne" contains "ohne". */
  lemma BohneIsNegation()
    ensures HasNegation("Bohne")
  {
    var lower := Lower("Bohne");
    assert lower[1] == 'o' && lower[2] == 'h' && lower[3] == 'n' && lower[4] == 'e';
    assert StartsWith(lower[1..], NegationWords[2]);
  }

  /** The first half of the zero-shot example lower-cases character by character. */
  lemma ExampleLowerFront(prompt: string, lower: string)
    requires prompt == "Erkläre, was Fotosynthese ist."
    requires lower == "erkläre, was fotosynthese ist."
    ensures forall i :: 0 <= i < 15 ==> LowerChar(prompt[i]) == lower[i]
  {
  }

  /** The second half likewise. */
  lemma ExampleLowerBack(prompt: string, lower: string)
    requires prompt == "Erkläre, was Fotosynthese ist."
    requires lower == "erkläre, was fotosynthese ist."
    ensures forall i :: 15 <= i < 30 ==> LowerChar(prompt[i]) == lower[i]
  {
  }

  /** The zero-shot example in lower case. */
  lemma ExampleLower(prompt: string)
    requires prompt == "Erkläre, was Fotosynthese ist."
    ensures Lower(prompt) == "erkläre, was fotosynthese ist."
  {
    var lower := "erkläre, was fotosynthese ist.";
    ExampleLowerFront(prompt, lower);
    ExampleLowerBack(prompt, lower);
  }

  /** The zero-shot example is four words joined by single spaces. */
  lemma ExampleSpaces(prompt: string)
    requires prompt == "Erkläre, was Fotosynthese ist."
    ensures Count(prompt, ' ') == 3
  {
    var words := ["Erkläre,", "was", "Fotosynthese", "ist."];
    assert prompt == Join(words, ' ');
    CountJoin(words, ' ');
  }

  /** The lower-cased zero-shot example contains none of the vague words. */
  lemma ExampleNotVague(lower: string)
    requires lower == "erkläre, was fotosynthese ist."
    ensures !ContainsAny(lower, VagueWords)
  {
    NoneContained(lower, VagueWords, [0, 0, 0, 0, 0]);
  }

  /** The lower-cased zero-shot example contains none of the format words. */
  lemma ExampleNoFormat(lower: string)
    requires lower == "erkläre, was fotosynthese ist."
    ensures !ContainsAny(lower, FormatWords)
  {
    NoneContained(lower, FormatWords, [1, 1, 1, 0, 0, 0, 0]);
  }

  /** The lower-cased zero-shot example contains none of the negation words. */
  lemma ExampleNoNegation(lower: string)
    requires lower == "erkläre, was fotosynthese ist."
    ensures !ContainsAny(lower, NegationWords)
  {
    NoneContained(lower, NegationWords, [0, 0, 0, 0]);
  }

  /** The zero-shot example of the page scores 90, with only the format tip. */
  lemma FotosyntheseExample(prompt: string)
    requires prompt == "Erkläre, was Fotosynthese ist."
    ensures Report(prompt) == QualityReport(90, [Issue(NoFormat)])
    ensures Report(prompt).issues[0].Kind() == "info"
  {
    ExampleLower(prompt);
    var lower := Lower(prompt);
    ExampleNotVague(lower);
    ExampleNoFormat(lower);
    ExampleNoNegation(lower);
    ExampleSpaces(prompt);
    SplitLength(prompt, ' ');
    assert Check(prompt) == Checks(false, false, true, false, false);
  }

  /** `getScoreColor`: green from 80, yellow from 60, red below. */
  function ScoreColor(score: int): (color: string)
    ensures color == "text-green-600" <==> score >= 80
    ensures color == "text-yellow-600" <==> 60 <= score < 80
    ensures color == "text-red-600" <==> score < 60
  {
    if score >= 80 then "text-green-600"
    else if score >= 60 then "text-yellow-600"
    else "text-red-600"
  }

  /** A report is shown green exactly when its penalties total at most 20, and red when they exceed 40. */
  lemma ReportColor(prompt: string)
    ensures ScoreColor(Report(prompt).score) == "text-green-600" <==> TotalPenalty(Fired(prompt)) <= 20
    ensures ScoreColor(Report(prompt).score) == "text-red-600" <==> TotalPenalty(Fired(prompt)) > 40
  {
    ScoreRange(prompt);
  }

  /** `getIssueIcon`: a cross for errors, a warning sign for warnings, a light bulb for anything else. */
  function IssueIcon(kind: string): (icon: string)
    ensures kind == "error" ==> icon == "\U{274C}"
    ensures kind == "warning" ==> icon == "\U{26A0}\U{FE0F}"
    ensures kind != "error" && kind != "warning" ==> icon == "\U{1F4A1}"
  {
    if kind == "error" then "\U{274C}"
    else if kind == "warning" then "\U{26A0}\U{FE0F}"
    else "\U{1F4A1}"
  }

  /** The page shows a cross only for the vague-word issue, a warning sign for the short and negation issues, a bulb for the tips. */
  lemma IssueIconByRule(r: Rule)
    ensures IssueIcon(Issue(r).Kind()) == "\U{274C}" <==> r == Vague
    ensures IssueIcon(Issue(r).Kind()) == "\U{26A0}\U{FE0F}" <==> r == TooShort || r == Negation
    ensures IssueIcon(Issue(r).Kind()) == "\U{1F4A1}" <==> r == NoFormat || r == NoContext
  {
  }

  /** `testUserPrompt` computes a report only for a prompt with some non-whitespace character. */
  function UserPromptReport(userPrompt: string): (report: Option<QualityReport>)
    ensures report.Some? <==> exists i :: 0 <= i < |userPrompt| && !IsWhitespace(userPrompt[i])
    ensures report.Some? ==> report.value == Report(userPrompt)
  {
    if Trim(userPrompt) == "" then None else Some(Report(userPrompt))
  }

}

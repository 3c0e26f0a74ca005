/**
 Building a listening test from the groups, answers and explanations an import text was read into.

 Texts are already cut into lines, tokens and values; numbers are unbounded naturals. A prompt is a sequence of
 tokens, surrounding white space aside.
 */
module ListeningImport {
  import opened Common
  import opened Sorting

  datatype Kind =
    | Missing
    | MultipleChoice | Matching | MapLabelling | PlanLabelling | DiagramLabelling
    | FormCompletion | NoteCompletion | TableCompletion | FlowCompletion | SentenceCompletion | ShortAnswer
    | Other(text: string)

  predicate Supported(k: Kind) { !k.Missing? && !k.Other? }

  predicate EndsWith(s: string, suffix: string) { |s| >= |suffix| && s[|s| - |suffix|..] == suffix }

  predicate Completion(k: Kind)
  {
    || k.FormCompletion? || k.NoteCompletion? || k.TableCompletion? || k.FlowCompletion? || k.SentenceCompletion?
    || (k.Other? && EndsWith(k.text, "completion"))
  }

  /** Questions of these kinds are answered by naming options. */
  predicate Choosing(k: Kind)
  {
    || k.MultipleChoice? || k.Matching? || k.MapLabelling? || k.PlanLabelling? || k.DiagramLabelling?
    || (k.Other? && EndsWith(k.text, "labelling"))
  }

  /** `plain`: the digits in the braces are the number's own digits, without leading zeros. */
  datatype Token = Text(text: string) | Slot(number: int, plain: bool) | AnswerSlot

  predicate Blank(prompt: seq<Token>)
  {
    forall t | t in prompt :: t.Text? && forall c | c in t.text :: IsSpace(c)
  }

  datatype Choice = Choice(id: string, text: string)
  datatype Answer = NoAnswer | OptionId(id: string) | OptionIds(ids: seq<string>) | Accepted(values: seq<string>)

  datatype Question = Question(
    position: nat, number: int, prompt: seq<Token>, options: seq<Choice>, answer: Answer, explanation: string)

  datatype Group = Group(position: nat, kind: Kind, shared: seq<Choice>, limited: bool, questions: seq<Question>)
  datatype Part = Part(position: nat, groups: seq<Group>)

  /** A group as it was read: its questions, and the lines of its context with their placeholders. */
  datatype Builder = Builder(
    part: nat, line: nat, start: nat, end: nat, kind: Kind, limit: string, shared: seq<Choice>,
    questions: seq<Question>, context: seq<seq<Token>>)

  datatype Code =
    | GroupRangeMissing | GroupTypeMissing | InvalidAnswerLimit | DuplicateQuestion | DuplicatePlaceholder
    | QuestionOutsideRange | InvalidPlaceholder | RangeQuestionMissing
    | UnknownQuestionNumber | InvalidAnswer | AnswerMissing | UnknownExplanationQuestion
    | ReadingError

  datatype Issue = Issue(code: Code, line: nat, number: int)
  datatype Ref = Ref(part: nat, group: nat, question: nat, line: nat)

  // ---- One group. ----

  function SlotsOf(prompt: seq<Token>): seq<Token>
  {
    if prompt == [] then []
    else SlotsOf(prompt[..|prompt| - 1]) + (if prompt[|prompt| - 1].Slot? then [prompt[|prompt| - 1]] else [])
  }

  function NewQuestion(number: int, prompt: seq<Token>): Question
  {
    Question(0, number, prompt, [], NoAnswer, "")
  }

  function QuestionsOfLine(line: seq<Token>, slots: seq<Token>): seq<Question>
    requires forall t | t in slots :: t.Slot?
  {
    seq(|slots|, i requires 0 <= i < |slots| => NewQuestion(slots[i].number, line))
  }

  lemma {:induction false} SlotsAreSlots(prompt: seq<Token>)
    ensures forall t | t in SlotsOf(prompt) :: t.Slot? && t in prompt
  {
    if prompt != [] { SlotsAreSlots(prompt[..|prompt| - 1]); }
  }

  /** One question per placeholder of the context. */
  function FromContext(context: seq<seq<Token>>): seq<Question>
  {
    if context == [] then []
    else
      var line := context[|context| - 1];
      SlotsAreSlots(line);
      FromContext(context[..|context| - 1]) + QuestionsOfLine(line, SlotsOf(line))
  }

  predicate ByNumber(p: Question, q: Question) { p.number < q.number }

  function Found(b: Builder): seq<Question> { Sort(ByNumber, b.questions + FromContext(b.context)) }

  function ReplaceSlot(prompt: seq<Token>): seq<Token>
  {
    if prompt == [] then [] else if prompt[0].Slot? then [AnswerSlot] + prompt[1..] else [prompt[0]] + ReplaceSlot(prompt[1..])
  }

  predicate ExactSlot(q: Question) { SlotsOf(q.prompt) == [Slot(q.number, true)] }

  /** What a placed question looks like. */
  function Finished(b: Builder, q: Question, position: nat): Question
  {
    q.(prompt := if Completion(b.kind) && ExactSlot(q) then ReplaceSlot(q.prompt) else q.prompt,
       options := if q.options == [] then b.shared else q.options,
       position := position)
  }

  /** `placed` and `refs` after some of a group's questions, with the issues they raised. */
  datatype Placing = Placing(placed: seq<Question>, refs: map<int, Ref>, issues: seq<Issue>)

  function IssuesOf(b: Builder, q: Question): seq<Issue>
  {
    (if q.number < b.start || q.number > b.end then [Issue(QuestionOutsideRange, b.line, q.number)] else [])
    + (if Completion(b.kind) && !ExactSlot(q) then [Issue(InvalidPlaceholder, b.line, q.number)] else [])
  }

  function NumbersOf(qs: seq<Question>): set<int> { set q | q in qs :: q.number }

  function Place(b: Builder, group: nat, s: Placing, q: Question): Placing
  {
    if q.number in s.refs then s.(issues := s.issues + [Issue(DuplicateQuestion, b.line, q.number)])
    else if q.number in NumbersOf(s.placed) then s.(issues := s.issues + [Issue(DuplicatePlaceholder, b.line, q.number)])
    else
      Placing(s.placed + [Finished(b, q, |s.placed| + 1)],
              s.refs[q.number := Ref(b.part, group, |s.placed|, b.line)],
              s.issues + IssuesOf(b, q))
  }

  function PlaceAll(b: Builder, group: nat, refs: map<int, Ref>, qs: seq<Question>): Placing
  {
    if qs == [] then Placing([], refs, [])
    else Place(b, group, PlaceAll(b, group, refs, qs[..|qs| - 1]), qs[|qs| - 1])
  }

  const LIMITS: set<string> := {
    "ONE_WORD_ONLY", "ONE_WORD_OR_A_NUMBER", "ONE_WORD_AND_OR_NUMBER", "ONE_WORD_OR_NUMBER",
    "NO_MORE_THAN_TWO_WORDS", "NO_MORE_THAN_TWO_WORDS_AND_OR_NUMBER", "NO_MORE_THAN_TWO_WORDS_OR_A_NUMBER",
    "NO_MORE_THAN_TWO_WORDS_OR_NUMBER", "NO_MORE_THAN_THREE_WORDS", "NO_MORE_THAN_THREE_WORDS_AND_OR_NUMBER",
    "NO_MORE_THAN_THREE_WORDS_OR_A_NUMBER", "NO_MORE_THAN_THREE_WORDS_OR_NUMBER"}

  function HeadIssues(b: Builder): seq<Issue>
  {
    (if b.start < 1 || b.end < b.start then [Issue(GroupRangeMissing, b.line, 0)] else [])
    + (if b.kind.Missing? then [Issue(GroupTypeMissing, b.line, 0)] else [])
    + (if b.limit !in LIMITS && b.limit != "" then [Issue(InvalidAnswerLimit, b.line, 0)] else [])
  }

  /** Numbers from `low` to before `high` that are not there. */
  function Absent(b: Builder, seen: set<int>, low: nat, high: nat): seq<Issue>
    decreases high - low
  {
    if high <= low then []
    else Absent(b, seen, low, high - 1) + (if high - 1 in seen then [] else [Issue(RangeQuestionMissing, b.line, high - 1)])
  }

  datatype Built = Built(parts: seq<Part>, refs: map<int, Ref>, issues: seq<Issue>)

  function BuildOne(s: Built, b: Builder): Built
    requires b.part < |s.parts|
  {
    var part := s.parts[b.part];
    var p := PlaceAll(b, |part.groups|, s.refs, Found(b));
    var group := Group(|part.groups| + 1, b.kind, b.shared, b.limit in LIMITS, p.placed);
    Built(s.parts[b.part := part.(groups := part.groups + [group])], p.refs,
          s.issues + HeadIssues(b) + p.issues + Absent(b, NumbersOf(p.placed), b.start, b.end + 1))
  }

  function Build(parts: seq<Part>, issues: seq<Issue>, builders: seq<Builder>): (r: Built)
    requires forall b | b in builders :: b.part < |parts|
    ensures |r.parts| == |parts|
  {
    if builders == [] then Built(parts, map[], issues)
    else
      assert forall b | b in builders[..|builders| - 1] :: b in builders;
      BuildOne(Build(parts, issues, builders[..|builders| - 1]), builders[|builders| - 1])
  }

  // ---- The methods. ----

  /** The group's own questions and those of its context, by number. */
  method GatherQuestions(b: Builder) returns (questions: seq<Question>)
    ensures questions == Found(b)
  {
    questions := b.questions;
    for i := 0 to |b.context|
      invariant questions == b.questions + FromContext(b.context[..i])
    {
      assert b.context[..i + 1][..i] == b.context[..i];
      var line := b.context[i];
      SlotsAreSlots(line);
      ghost var before := questions;
      var slots := SlotsOf(line);
      for j := 0 to |slots|
        invariant questions == before + QuestionsOfLine(line, slots)[..j]
      {
        questions := questions + [NewQuestion(slots[j].number, line)];
      }
      assert QuestionsOfLine(line, slots)[..|slots|] == QuestionsOfLine(line, slots);
    }
    assert b.context[..|b.context|] == b.context;
    questions := Sort(ByNumber, questions);
  }

  method CheckQuestion(b: Builder, q: Question, issues0: seq<Issue>) returns (prompt: seq<Token>, options: seq<Choice>, issues: seq<Issue>)
    ensures issues == issues0 + IssuesOf(b, q)
    ensures q.(prompt := prompt, options := options) == Finished(b, q, q.position)
  {
    prompt, options, issues := q.prompt, q.options, issues0;
    if q.number < b.start || q.number > b.end {
      issues := issues + [Issue(QuestionOutsideRange, b.line, q.number)];
    }
    if Completion(b.kind) {
      var matches := SlotsOf(q.prompt);
      if |matches| != 1 || matches[0] != Slot(q.number, true) {
        issues := issues + [Issue(InvalidPlaceholder, b.line, q.number)];
      } else {
        prompt := ReplaceSlot(q.prompt);
      }
    }
    if options == [] && |b.shared| > 0 { options := b.shared; }
  }

  lemma SeenOneMore(placed: seq<Question>, q: Question)
    ensures NumbersOf(placed + [q]) == NumbersOf(placed) + {q.number}
  {
    var more := placed + [q];
    assert forall x | x in placed :: x in more;
    assert more[|placed|] == q;
  }

  lemma PlaceNext(b: Builder, group: nat, refs0: map<int, Ref>, questions: seq<Question>, i: nat)
    requires i < |questions|
    ensures PlaceAll(b, group, refs0, questions[..i + 1])
         == Place(b, group, PlaceAll(b, group, refs0, questions[..i]), questions[i])
  {
    assert questions[..i + 1][..i] == questions[..i];
  }

  method PlaceQuestions(b: Builder, group: nat, refs0: map<int, Ref>) returns (placed: seq<Question>, refs: map<int, Ref>, issues: seq<Issue>)
    ensures Placing(placed, refs, issues) == PlaceAll(b, group, refs0, Found(b))
  {
    var questions := GatherQuestions(b);
    placed, refs, issues := [], refs0, [];
    var seen: set<int> := {};
    for i := 0 to |questions|
      invariant Placing(placed, refs, issues) == PlaceAll(b, group, refs0, questions[..i])
      invariant seen == NumbersOf(placed)
    {
      PlaceNext(b, group, refs0, questions, i);
      var q := questions[i];
      if q.number in refs {
        issues := issues + [Issue(DuplicateQuestion, b.line, q.number)];
        continue;
      }
      if q.number in seen {
        issues := issues + [Issue(DuplicatePlaceholder, b.line, q.number)];
        continue;
      }
      seen := seen + {q.number};
      var prompt, options, checked := CheckQuestion(b, q, issues);
      issues := checked;
      SeenOneMore(placed, q.(prompt := prompt, options := options, position := |placed| + 1));
      placed := placed + [q.(prompt := prompt, options := options, position := |placed| + 1)];
      refs := refs[q.number := Ref(b.part, group, |placed| - 1, b.line)];
    }
    assert questions[..|questions|] == questions;
  }

  method CheckHead(b: Builder, issues0: seq<Issue>) returns (issues: seq<Issue>)
    ensures issues == issues0 + HeadIssues(b)
  {
    issues := issues0;
    if b.start < 1 || b.end < b.start { issues := issues + [Issue(GroupRangeMissing, b.line, 0)]; }
    if b.kind.Missing? { issues := issues + [Issue(GroupTypeMissing, b.line, 0)]; }
    if b.limit !in LIMITS && b.limit != "" { issues := issues + [Issue(InvalidAnswerLimit, b.line, 0)]; }
  }

  method CheckRange(b: Builder, seen: set<int>, issues0: seq<Issue>) returns (issues: seq<Issue>)
    ensures issues == issues0 + Absent(b, seen, b.start, b.end + 1)
  {
    issues := issues0;
    var n := b.start;
    while n <= b.end
      invariant b.start <= n && (n <= b.end + 1 || n == b.start)
      invariant issues == issues0 + Absent(b, seen, b.start, n)
    {
      if n !in seen { issues := issues + [Issue(RangeQuestionMissing, b.line, n)]; }
      n := n + 1;
    }
  }

  method BuildGroups(parts0: seq<Part>, issues0: seq<Issue>, builders: seq<Builder>)
    returns (parts: seq<Part>, refs: map<int, Ref>, issues: seq<Issue>)
    requires forall b | b in builders :: b.part < |parts0|
    ensures Built(parts, refs, issues) == Build(parts0, issues0, builders)
  {
    parts, refs, issues := parts0, map[], issues0;
    for i := 0 to |builders|
      invariant |parts| == |parts0| && forall b | b in builders[..i] :: b.part < |parts0|
      invariant Built(parts, refs, issues) == Build(parts0, issues0, builders[..i])
    {
      var b := builders[i];
      assert builders[..i + 1][..i] == builders[..i];
      issues := CheckHead(b, issues);
      var index := |parts[b.part].groups|;
      var placed, refs', more := PlaceQuestions(b, index, refs);
      issues := CheckRange(b, NumbersOf(placed), issues + more);
      var group := Group(index + 1, b.kind, b.shared, b.limit in LIMITS, placed);
      parts := parts[b.part := parts[b.part].(groups := parts[b.part].groups + [group])];
      refs := refs';
    }
    assert builders[..|builders|] == builders;
  }
}

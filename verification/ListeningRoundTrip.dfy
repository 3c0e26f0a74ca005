/** Importing: reading, building, answering. A test that is written out line by line is read back as it was. */
module ListeningRoundTrip {
  import opened Common
  import opened Sorting
  import opened ListeningImport
  import opened ListeningImportTheorems
  import opened ListeningAnswers
  import opened ListeningSave
  import opened ListeningImportSound
  import opened ListeningReader

  /** The order in which a map with these keys is visited is any enumeration of them. */
  ghost predicate Enumerates(order: set<int> -> seq<int>)
  {
    forall s: set<int> ::
      (forall n :: n in order(s) <==> n in s) && forall i, j | 0 <= i < j < |order(s)| :: order(s)[i] != order(s)[j]
  }

  /** The first line that is not blank. */
  function First(lines: seq<Line>): Option<Line>
  {
    if lines == [] then None else if !lines[0].isBlank then Some(lines[0]) else First(lines[1..])
  }

  method ReadLines(lines: seq<Line>) returns (r: Reader)
    ensures r == Flush(ReadAll(START, lines, 0))
  {
    r := START;
    for i := 0 to |lines|
      invariant r == ReadAll(START, lines[..i], 0)
    {
      assert lines[..i + 1][..i] == lines[..i];
      r := Read(r, lines[i], i + 1);
    }
    assert lines[..|lines|] == lines;
    r := Flush(r);
  }

  lemma FindHeader(lines: seq<Line>, i: nat)
    requires i <= |lines| && forall k | 0 <= k < i :: lines[k].isBlank
    ensures First(lines) == First(lines[i..])
  {
    if i > 0 {
      FindHeader(lines[1..], i - 1);
      assert lines[1..][i - 1..] == lines[i..];
    } else {
      assert lines[0..] == lines;
    }
  }

  method HasHeader(lines: seq<Line>) returns (ok: bool)
    ensures ok <==> First(lines).Some? && First(lines).value.isHeader
  {
    var i := 0;
    while i < |lines| && lines[i].isBlank
      invariant 0 <= i <= |lines| && forall k | 0 <= k < i :: lines[k].isBlank
    {
      i := i + 1;
    }
    FindHeader(lines, i);
    return i < |lines| && lines[i].isHeader;
  }

  /** What building makes of what was read. */
  function BuildOf(r: Reader): Built
  {
    if forall b | b in r.builders :: b.part < |r.parts| then Build(r.parts, r.issues, r.builders) else Built(r.parts, map[], r.issues)
  }

  /** Nothing was wrong while reading, every group is proper, no two overlap, and the answers fit. */
  ghost predicate Accepted(r: Reader)
  {
    && r.issues == [] && r.parts != [] && AllProper(r.builders)
    && var b := BuildOf(r); Exact(b.parts, b.refs) && Fit(b.parts, b.refs, r.answers, r.explanations)
  }

  /** Once its positions are renumbered the test passes validation, and its questions are numbered as the groups said. */
  ghost predicate SavesSoundly(parts: seq<Part>, builders: seq<Builder>)
  {
    forall saved :: Renumbered(parts, saved) ==> FineParts(saved) && AllNumbered(saved, builders)
  }

  /** The parts are those the groups build, with the answers and explanations that were read in place. */
  ghost predicate TestOf(r: Reader, parts: seq<Part>)
  {
    var b := BuildOf(r); Answered(b.parts, parts, Known(r.answers, b.refs), Explained(b.refs, r.explanations))
  }

  lemma ReportedMore(builders: seq<Builder>, issues: seq<Issue>, more: seq<Issue>)
    requires AllReported(builders, issues) && issues <= more && NoPlaceholderRepeated(more)
    ensures AllReported(builders, more)
  {
    forall k | 0 <= k < |builders| ensures ReportsRepeats(builders[k], more) {
      assert more == issues + more[|issues|..];
      ReportedStays(builders[k], issues, more[|issues|..]);
    }
  }

  lemma ImportedSavesSoundly(r: Reader, parts: seq<Part>)
    requires ReaderOk(r) && Accepted(r) && TestOf(r, parts)
    ensures SavesSoundly(parts, r.builders)
  {
    assert forall b | b in r.builders :: b.part < |r.parts| && Readable(b);
    CleanBuild(r.parts, r.issues, r.builders);
    forall saved | Renumbered(parts, saved) ensures FineParts(saved) && AllNumbered(saved, r.builders) {
      ImportedTestIsSound(r.parts, r.builders, r.answers, r.explanations, parts, saved);
    }
  }

  method ImportRead(r: Reader, order: set<int> -> seq<int>) returns (parts: seq<Part>, issues: seq<Issue>)
    requires ReaderOk(r) && Enumerates(order)
    ensures issues == [] <==> Accepted(r)
    ensures TestOf(r, parts) && AllReported(r.builders, issues)
    ensures issues == [] ==> SavesSoundly(parts, r.builders)
  {
    assert forall b | b in r.builders :: b.part < |r.parts|;
    var built, refs, issues1 := BuildGroups(r.parts, r.issues, r.builders);
    BuildExact(r.parts, r.issues, r.builders);
    CleanBuild(r.parts, r.issues, r.builders);
    BuildReportsRepeats(r.parts, r.issues, r.builders);
    parts, issues := ApplyAnswers(built, issues1, refs, r.answers, r.explanations,
                                  order(r.answers.Keys), order(refs.Keys), order(r.explanations.Keys));
    if |r.parts| == 0 { issues := issues + [Issue(ReadingError, 0, 0)]; }
    ReportedMore(r.builders, issues1, issues);
    if issues == [] { ImportedSavesSoundly(r, parts); }
  }

  /**
   The whole import. Of a text with a header the groups are those that were read, the test is the one they build with
   the answers and explanations in place, and every number a group repeats is reported; no issue is raised exactly
   when the text is one to accept, and then the test saves soundly.
   */
  method ParseImport(lines: seq<Line>, order: set<int> -> seq<int>)
    returns (parts: seq<Part>, builders: seq<Builder>, issues: seq<Issue>)
    requires (forall l | l in lines :: Classified(l)) && Enumerates(order)
    ensures issues == [] <==>
            First(lines).Some? && First(lines).value.isHeader && Accepted(Flush(ReadAll(START, lines, 0)))
    ensures First(lines).Some? && First(lines).value.isHeader ==>
              var r := Flush(ReadAll(START, lines, 0));
              builders == r.builders && TestOf(r, parts) && AllReported(builders, issues)
    ensures !(First(lines).Some? && First(lines).value.isHeader) ==>
              parts == [] && builders == [] && issues == [Issue(ReadingError, 1, 0)]
    ensures issues == [] ==> SavesSoundly(parts, builders)
  {
    var header := HasHeader(lines);
    if !header { return [], [], [Issue(ReadingError, 1, 0)]; }
    ReadAllKeeps(lines, 0);
    FlushKeeps(ReadAll(START, lines, 0));
    var r := ReadLines(lines);
    builders := r.builders;
    parts, issues := ImportRead(r, order);
  }

  // ---- Writing a test down. ----

  /** A group and the lines its context is written in. They may match other patterns too, as long as they are kept. */
  datatype GroupText = GroupText(group: Builder, context: seq<Line>)
  datatype PartText = PartText(position: nat, groups: seq<GroupText>)

  function ChoiceLines(choices: seq<Choice>): seq<Line>
  {
    seq(|choices|, i requires 0 <= i < |choices| => PLAIN.(choice := Some(choices[i])))
  }

  function TokensOf(lines: seq<Line>): seq<seq<Token>>
  {
    seq(|lines|, i requires 0 <= i < |lines| => lines[i].tokens)
  }

  function QuestionLines(q: Question): seq<Line>
  {
    [PLAIN.(question := Some((if q.number < 0 then 0 else q.number, q.prompt)))] + ChoiceLines(q.options)
  }

  function QuestionsLines(qs: seq<Question>): seq<Line>
  {
    if qs == [] then [] else QuestionsLines(qs[..|qs| - 1]) + QuestionLines(qs[|qs| - 1])
  }

  function RangeAndKind(b: Builder): seq<Line>
  {
    [PLAIN.(range := Good((b.start, b.end)))] + [PLAIN.(kind := Some(b.kind))]
  }

  function FieldLines(b: Builder): seq<Line>
  {
    RangeAndKind(b) + [PLAIN.(limit := Some(b.limit))]
  }

  function HeadLines(b: Builder): seq<Line> { [PLAIN.(isGroup := true)] + FieldLines(b) }

  /** A group as one writes it: its questions carry number, prompt and options only. */
  ghost predicate Writable(t: GroupText)
  {
    && Supported(t.group.kind) && (forall q | q in t.group.questions :: Plain(q))
    && t.group.context == TokensOf(t.context) && forall l | l in t.context :: Kept(l)
  }

  // ---- Reading it back, piece by piece. ----

  lemma {:induction false} StepConcat<S>(step: (S, Line, nat) -> S, s: S, a: seq<Line>, b: seq<Line>, from: nat)
    ensures OneByOne(step, s, a + b, from) == OneByOne(step, OneByOne(step, s, a, from), b, from + |a|)
  {
    if b == [] {
      assert a + b == a;
    } else {
      StepConcat(step, s, a, b[..|b| - 1], from);
      assert (a + b)[..|a + b| - 1] == a + b[..|b| - 1];
    }
  }

  lemma ReadConcat(r: Reader, a: seq<Line>, b: seq<Line>, from: nat)
    ensures ReadAll(r, a + b, from) == ReadAll(ReadAll(r, a, from), b, from + |a|)
  {
    StepConcat(Read, r, a, b, from);
  }

  lemma ReadOne(r: Reader, l: Line, from: nat)
    ensures ReadAll(r, [l], from) == Read(r, l, from + 1)
  {
    assert [l][..0] == [];
    assert OneByOne(Read, r, [l], from) == Read(OneByOne(Read, r, [l][..0], from), l, from + 1);
  }

  /** Reading goes on where it stopped. */
  lemma Then(r: Reader, done: seq<Line>, middle: Reader, more: seq<Line>, end: Reader, from: nat)
    requires ReadAll(r, done, from) == middle && ReadAll(middle, more, from + |done|) == end
    ensures ReadAll(r, done + more, from) == end
  {
    ReadConcat(r, done, more, from);
  }

  /** The reader after it has read all of a group so far, in some mode. */
  function Reading(r: Reader, b: Builder, mode: Mode, current: Option<nat>): Reader
  {
    r.(builders := r.builders + [b], inGroup := true, mode := mode, current := current)
  }

  ghost predicate Outside(m: Mode) { !m.AnswerList? && !m.ExplanationList? && !m.Explanation? }

  lemma EditReading(r: Reader, b: Builder, b': Builder, mode: Mode, current: Option<nat>)
    ensures Edit(Reading(r, b, mode, current), b') == Reading(r, b', mode, current)
  {
    assert (r.builders + [b])[..|r.builders|] == r.builders;
  }

  lemma {:induction false} ReadShared(r: Reader, b: Builder, choices: seq<Choice>, from: nat)
    ensures ReadAll(Reading(r, b, OptionList, None), ChoiceLines(choices), from)
         == Reading(r, b.(shared := b.shared + choices), OptionList, None)
    decreases |choices|
  {
    if choices == [] {
      assert b.shared + choices == b.shared;
    } else {
      var front, last := choices[..|choices| - 1], choices[|choices| - 1];
      ReadShared(r, b, front, from);
      assert ChoiceLines(choices)[..|choices| - 1] == ChoiceLines(front);
      var b1 := b.(shared := b.shared + front);
      EditReading(r, b1, b1.(shared := b1.shared + [last]), OptionList, None);
      assert b1.shared + [last] == b.shared + choices;
    }
  }

  lemma StepLast<S>(step: (S, Line, nat) -> S, s: S, front: seq<Line>, last: Line, from: nat)
    ensures OneByOne(step, s, front + [last], from) == step(OneByOne(step, s, front, from), last, from + |front| + 1)
  {
    assert (front + [last])[..|front|] == front;
  }

  ghost predicate TakesContext(step: (Reader, Line, nat) -> Reader)
  {
    forall r: Reader, b: Builder, l: Line, n: nat {:trigger step(Reading(r, b, Context, None), l, n)} ::
      Kept(l) ==> step(Reading(r, b, Context, None), l, n) == Reading(r, b.(context := b.context + [l.tokens]), Context, None)
  }

  lemma ReadTakesContext()
    ensures TakesContext(Read)
  {
    forall r: Reader, b: Builder, l: Line, n: nat {:trigger Read(Reading(r, b, Context, None), l, n)} | Kept(l)
      ensures Read(Reading(r, b, Context, None), l, n) == Reading(r, b.(context := b.context + [l.tokens]), Context, None)
    {
      ContextTakesExactly(Reading(r, b, Context, None), l, n);
      EditReading(r, b, b.(context := b.context + [l.tokens]), Context, None);
    }
  }

  lemma TokensEnd(lines: seq<Line>)
    requires lines != []
    ensures TokensOf(lines) == TokensOf(lines[..|lines| - 1]) + [lines[|lines| - 1].tokens]
    ensures lines == lines[..|lines| - 1] + [lines[|lines| - 1]]
  {
  }

  lemma NextContext(step: (Reader, Line, nat) -> Reader, r: Reader, b: Builder, front: seq<Line>, last: Line, from: nat)
    requires TakesContext(step) && Kept(last)
    requires OneByOne(step, Reading(r, b, Context, None), front, from)
          == Reading(r, b.(context := b.context + TokensOf(front)), Context, None)
    ensures OneByOne(step, Reading(r, b, Context, None), front + [last], from)
         == Reading(r, b.(context := b.context + (TokensOf(front) + [last.tokens])), Context, None)
  {
    StepLast(step, Reading(r, b, Context, None), front, last, from);
    assert b.context + TokensOf(front) + [last.tokens] == b.context + (TokensOf(front) + [last.tokens]);
  }

  lemma {:induction false} StepContext(step: (Reader, Line, nat) -> Reader, r: Reader, b: Builder, lines: seq<Line>, from: nat)
    requires TakesContext(step) && forall l | l in lines :: Kept(l)
    ensures OneByOne(step, Reading(r, b, Context, None), lines, from)
         == Reading(r, b.(context := b.context + TokensOf(lines)), Context, None)
    decreases |lines|
  {
    if lines == [] {
      assert b.context + TokensOf(lines) == b.context;
    } else {
      var front, last := lines[..|lines| - 1], lines[|lines| - 1];
      TokensEnd(lines);
      StepContext(step, r, b, front, from);
      NextContext(step, r, b, front, last, from);
    }
  }

  lemma ReadContext(r: Reader, b: Builder, lines: seq<Line>, from: nat)
    requires forall l | l in lines :: Kept(l)
    ensures ReadAll(Reading(r, b, Context, None), lines, from)
         == Reading(r, b.(context := b.context + TokensOf(lines)), Context, None)
  {
    ReadTakesContext();
    StepContext(Read, r, b, lines, from);
  }

  lemma {:induction false} ReadOwnChoices(r: Reader, b: Builder, q: Question, choices: seq<Choice>, from: nat)
    ensures ReadAll(Reading(r, b.(questions := b.questions + [q]), QuestionList, Some(|b.questions|)), ChoiceLines(choices), from)
         == Reading(r, b.(questions := b.questions + [q.(options := q.options + choices)]), QuestionList, Some(|b.questions|))
    decreases |choices|
  {
    if choices == [] {
      assert q.options + choices == q.options;
    } else {
      var front, last := choices[..|choices| - 1], choices[|choices| - 1];
      ReadOwnChoices(r, b, q, front, from);
      assert ChoiceLines(choices)[..|choices| - 1] == ChoiceLines(front);
      var q1 := q.(options := q.options + front);
      var b1, q2 := b.(questions := b.questions + [q1]), q1.(options := q1.options + [last]);
      EditReading(r, b1, b1.(questions := b1.questions[|b.questions| := q2]), QuestionList, Some(|b.questions|));
      assert q2.options == q.options + choices;
      assert b1.questions[|b.questions| := q2] == b.questions + [q2];
    }
  }

  lemma ReadBare(r: Reader, b: Builder, q: Question, mode: Mode, current: Option<nat>, from: nat)
    requires q.number >= 0 && q == NewQuestion(q.number, q.prompt) && Outside(mode)
    ensures ReadAll(Reading(r, b, mode, current), [PLAIN.(question := Some((q.number, q.prompt)))], from)
         == Reading(r, b.(questions := b.questions + [q]), QuestionList, Some(|b.questions|))
  {
    var first := PLAIN.(question := Some((q.number, q.prompt)));
    ReadOne(Reading(r, b, mode, current), first, from);
    EditReading(r, b, b.(questions := b.questions + [q]), mode, current);
  }

  lemma ReadQuestion(r: Reader, b: Builder, q: Question, mode: Mode, current: Option<nat>, from: nat)
    requires Plain(q) && Outside(mode)
    ensures ReadAll(Reading(r, b, mode, current), QuestionLines(q), from)
         == Reading(r, b.(questions := b.questions + [q]), QuestionList, Some(|b.questions|))
  {
    var first, bare := PLAIN.(question := Some((q.number, q.prompt))), NewQuestion(q.number, q.prompt);
    ReadBare(r, b, bare, mode, current, from);
    ReadOwnChoices(r, b, bare, q.options, from + 1);
    assert [] + q.options == q.options;
    Then(Reading(r, b, mode, current), [first], Reading(r, b.(questions := b.questions + [bare]), QuestionList, Some(|b.questions|)),
         ChoiceLines(q.options), Reading(r, b.(questions := b.questions + [q]), QuestionList, Some(|b.questions|)), from);
  }

  /** The reader at the end of a group. */
  function AtEnd(r: Reader, b: Builder): Reader
  {
    if b.questions == [] then Reading(r, b, Context, None) else Reading(r, b, QuestionList, Some(|b.questions| - 1))
  }

  ghost predicate Plain(q: Question) { q.number >= 0 && q == NewQuestion(q.number, q.prompt).(options := q.options) }

  /** What matters of a step here is what it does with the lines of one question. */
  ghost predicate ReadsQuestions(step: (Reader, Line, nat) -> Reader)
  {
    forall r: Reader, b: Builder, q: Question, mode: Mode, current: Option<nat>, from: nat
      {:trigger OneByOne(step, Reading(r, b, mode, current), QuestionLines(q), from)} ::
      Plain(q) && Outside(mode) ==>
        OneByOne(step, Reading(r, b, mode, current), QuestionLines(q), from)
        == Reading(r, b.(questions := b.questions + [q]), QuestionList, Some(|b.questions|))
  }

  lemma ReadReadsQuestions()
    ensures ReadsQuestions(Read)
  {
    forall r: Reader, b: Builder, q: Question, mode: Mode, current: Option<nat>, from: nat
      {:trigger OneByOne(Read, Reading(r, b, mode, current), QuestionLines(q), from)} | Plain(q) && Outside(mode)
      ensures OneByOne(Read, Reading(r, b, mode, current), QuestionLines(q), from)
           == Reading(r, b.(questions := b.questions + [q]), QuestionList, Some(|b.questions|))
    {
      ReadQuestion(r, b, q, mode, current, from);
    }
  }

  lemma QuestionOneMore(step: (Reader, Line, nat) -> Reader, r: Reader, b: Builder, q: Question, from: nat)
    requires ReadsQuestions(step) && Plain(q)
    ensures OneByOne(step, AtEnd(r, b), QuestionLines(q), from) == AtEnd(r, b.(questions := b.questions + [q]))
  {
    if b.questions == [] {
      assert OneByOne(step, Reading(r, b, Context, None), QuestionLines(q), from)
          == Reading(r, b.(questions := b.questions + [q]), QuestionList, Some(|b.questions|));
    } else {
      assert OneByOne(step, Reading(r, b, QuestionList, Some(|b.questions| - 1)), QuestionLines(q), from)
          == Reading(r, b.(questions := b.questions + [q]), QuestionList, Some(|b.questions|));
    }
  }

  lemma {:induction false} StepQuestions(step: (Reader, Line, nat) -> Reader, r: Reader, b: Builder, qs: seq<Question>, from: nat)
    requires ReadsQuestions(step) && b.questions == [] && forall q | q in qs :: Plain(q)
    ensures OneByOne(step, Reading(r, b, Context, None), QuestionsLines(qs), from) == AtEnd(r, b.(questions := qs))
    decreases |qs|
  {
    if qs == [] {
      assert b.(questions := qs) == b;
    } else {
      var front, last := qs[..|qs| - 1], qs[|qs| - 1];
      StepQuestions(step, r, b, front, from);
      StepConcat(step, Reading(r, b, Context, None), QuestionsLines(front), QuestionLines(last), from);
      QuestionOneMore(step, r, b.(questions := front), last, from + |QuestionsLines(front)|);
      assert front + [last] == qs;
    }
  }

  lemma ReadRange(r: Reader, b: Builder, start: nat, end: nat, from: nat)
    ensures ReadAll(Reading(r, b, InGroup, None), [PLAIN.(range := Good((start, end)))], from)
         == Reading(r, b.(start := start, end := end), InGroup, None)
  {
    ReadOne(Reading(r, b, InGroup, None), PLAIN.(range := Good((start, end))), from);
    EditReading(r, b, b.(start := start, end := end), InGroup, None);
  }

  lemma ReadKind(r: Reader, b: Builder, kind: Kind, from: nat)
    requires Supported(kind)
    ensures ReadAll(Reading(r, b, InGroup, None), [PLAIN.(kind := Some(kind))], from)
         == Reading(r, b.(kind := kind), InGroup, None)
  {
    ReadOne(Reading(r, b, InGroup, None), PLAIN.(kind := Some(kind)), from);
    EditReading(r, b, b.(kind := kind), InGroup, None);
  }

  lemma ReadLimit(r: Reader, b: Builder, limit: string, from: nat)
    ensures ReadAll(Reading(r, b, InGroup, None), [PLAIN.(limit := Some(limit))], from)
         == Reading(r, b.(limit := limit), InGroup, None)
  {
    ReadOne(Reading(r, b, InGroup, None), PLAIN.(limit := Some(limit)), from);
    EditReading(r, b, b.(limit := limit), InGroup, None);
  }

  /** A group at its mark, and once its fields have been read. */
  function Unread(part: nat, line: nat): Builder { Builder(part, line, 0, 0, Missing, "", [], [], []) }

  function Bare(b: Builder, part: nat, line: nat): Builder
  {
    Builder(part, line, b.start, b.end, b.kind, b.limit, [], [], [])
  }

  lemma ReadGroupMark(r: Reader, from: nat)
    requires r.parts != []
    ensures ReadAll(r, [PLAIN.(isGroup := true)], from)
         == Reading(Flush(r), Unread(|r.parts| - 1, from + 1), InGroup, None)
  {
    ReadOne(r, PLAIN.(isGroup := true), from);
  }

  lemma ReadRangeAndKind(r: Reader, b0: Builder, b: Builder, from: nat)
    requires Supported(b.kind)
    ensures ReadAll(Reading(r, b0, InGroup, None), RangeAndKind(b), from)
         == Reading(r, b0.(start := b.start, end := b.end, kind := b.kind), InGroup, None)
  {
    var b1 := b0.(start := b.start, end := b.end);
    ReadRange(r, b0, b.start, b.end, from);
    ReadKind(r, b1, b.kind, from + 1);
    Then(Reading(r, b0, InGroup, None), [PLAIN.(range := Good((b.start, b.end)))], Reading(r, b1, InGroup, None),
         [PLAIN.(kind := Some(b.kind))], Reading(r, b1.(kind := b.kind), InGroup, None), from);
  }

  lemma ReadFields(r: Reader, b0: Builder, b: Builder, from: nat)
    requires Supported(b.kind)
    ensures ReadAll(Reading(r, b0, InGroup, None), FieldLines(b), from)
         == Reading(r, b0.(start := b.start, end := b.end, kind := b.kind, limit := b.limit), InGroup, None)
  {
    var b2 := b0.(start := b.start, end := b.end, kind := b.kind);
    ReadRangeAndKind(r, b0, b, from);
    ReadLimit(r, b2, b.limit, from + 2);
    Then(Reading(r, b0, InGroup, None), RangeAndKind(b), Reading(r, b2, InGroup, None), [PLAIN.(limit := Some(b.limit))],
         Reading(r, b2.(limit := b.limit), InGroup, None), from);
  }

  ghost predicate ReadsFields(step: (Reader, Line, nat) -> Reader)
  {
    forall r: Reader, b: Builder, part: nat, line: nat, from: nat
      {:trigger OneByOne(step, Reading(r, Unread(part, line), InGroup, None), FieldLines(b), from)} ::
      Supported(b.kind) ==>
        OneByOne(step, Reading(r, Unread(part, line), InGroup, None), FieldLines(b), from)
        == Reading(r, Bare(b, part, line), InGroup, None)
  }

  lemma ReadReadsFields()
    ensures ReadsFields(Read)
  {
    forall r: Reader, b: Builder, part: nat, line: nat, from: nat
      {:trigger OneByOne(Read, Reading(r, Unread(part, line), InGroup, None), FieldLines(b), from)} | Supported(b.kind)
      ensures OneByOne(Read, Reading(r, Unread(part, line), InGroup, None), FieldLines(b), from)
           == Reading(r, Bare(b, part, line), InGroup, None)
    {
      ReadFields(r, Unread(part, line), b, from);
    }
  }

  lemma StepHead(step: (Reader, Line, nat) -> Reader, r: Reader, b: Builder, part: nat, from: nat)
    requires ReadsFields(step) && Supported(b.kind)
    requires OneByOne(step, r, [PLAIN.(isGroup := true)], from) == Reading(Flush(r), Unread(part, from + 1), InGroup, None)
    ensures OneByOne(step, r, HeadLines(b), from) == Reading(Flush(r), Bare(b, part, from + 1), InGroup, None)
  {
    StepConcat(step, r, [PLAIN.(isGroup := true)], FieldLines(b), from);
  }

  lemma ReadHead(r: Reader, b: Builder, from: nat)
    requires r.parts != [] && Supported(b.kind)
    ensures ReadAll(r, HeadLines(b), from)
         == Reading(Flush(r), Bare(b, |r.parts| - 1, from + 1), InGroup, None)
  {
    ReadReadsFields();
    ReadGroupMark(r, from);
    StepHead(Read, r, b, |r.parts| - 1, from);
  }

  lemma ReadOptionList(r: Reader, b: Builder, choices: seq<Choice>, from: nat)
    requires b.shared == []
    ensures ReadAll(Reading(r, b, InGroup, None), [PLAIN.(isOptions := true)] + ChoiceLines(choices), from)
         == Reading(r, b.(shared := choices), OptionList, None)
  {
    var start := Reading(r, b, InGroup, None);
    ReadOne(start, PLAIN.(isOptions := true), from);
    ReadShared(r, b, choices, from + 1);
    assert [] + choices == choices;
    Then(start, [PLAIN.(isOptions := true)], Reading(r, b, OptionList, None), ChoiceLines(choices),
         Reading(r, b.(shared := choices), OptionList, None), from);
  }

  lemma ReadContent(r: Reader, b: Builder, lines: seq<Line>, from: nat)
    requires b.context == [] && forall l | l in lines :: Kept(l)
    ensures ReadAll(Reading(r, b, OptionList, None), [PLAIN.(isContent := true)] + lines, from)
         == Reading(r, b.(context := TokensOf(lines)), Context, None)
  {
    var start := Reading(r, b, OptionList, None);
    ReadOne(start, PLAIN.(isContent := true), from);
    ReadContext(r, b, lines, from + 1);
    assert [] + TokensOf(lines) == TokensOf(lines);
    Then(start, [PLAIN.(isContent := true)], Reading(r, b, Context, None), lines,
         Reading(r, b.(context := TokensOf(lines)), Context, None), from);
  }

  function MaterialLines(t: GroupText): seq<Line>
  {
    [PLAIN.(isOptions := true)] + ChoiceLines(t.group.shared) + ([PLAIN.(isContent := true)] + t.context)
  }

  lemma ReadMaterial(r: Reader, b0: Builder, t: GroupText, from: nat)
    requires Writable(t) && b0.shared == [] && b0.context == []
    ensures ReadAll(Reading(r, b0, InGroup, None), MaterialLines(t), from)
         == Reading(r, b0.(shared := t.group.shared, context := t.group.context), Context, None)
  {
    var options, content := [PLAIN.(isOptions := true)] + ChoiceLines(t.group.shared), [PLAIN.(isContent := true)] + t.context;
    var b1 := b0.(shared := t.group.shared);
    ReadOptionList(r, b0, t.group.shared, from);
    ReadContent(r, b1, t.context, from + |options|);
    Then(Reading(r, b0, InGroup, None), options, Reading(r, b1, OptionList, None), content,
         Reading(r, b1.(context := t.group.context), Context, None), from);
  }

  function BodyLines(t: GroupText): seq<Line>
  {
    MaterialLines(t) + QuestionsLines(t.group.questions)
  }

  ghost predicate ReadsMaterial(step: (Reader, Line, nat) -> Reader)
  {
    forall r: Reader, b: Builder, t: GroupText, from: nat
      {:trigger OneByOne(step, Reading(r, b, InGroup, None), MaterialLines(t), from)} ::
      Writable(t) && b.shared == [] && b.context == [] ==>
        OneByOne(step, Reading(r, b, InGroup, None), MaterialLines(t), from)
        == Reading(r, b.(shared := t.group.shared, context := t.group.context), Context, None)
  }

  lemma ReadReadsMaterial()
    ensures ReadsMaterial(Read)
  {
    forall r: Reader, b: Builder, t: GroupText, from: nat
      {:trigger OneByOne(Read, Reading(r, b, InGroup, None), MaterialLines(t), from)} |
      Writable(t) && b.shared == [] && b.context == []
      ensures OneByOne(Read, Reading(r, b, InGroup, None), MaterialLines(t), from)
           == Reading(r, b.(shared := t.group.shared, context := t.group.context), Context, None)
    {
      ReadMaterial(r, b, t, from);
    }
  }

  lemma StepBody(step: (Reader, Line, nat) -> Reader, r: Reader, b0: Builder, t: GroupText, from: nat)
    requires ReadsMaterial(step) && ReadsQuestions(step)
    requires Writable(t) && b0 == t.group.(shared := [], context := [], questions := [])
    ensures OneByOne(step, Reading(r, b0, InGroup, None), BodyLines(t), from) == AtEnd(r, t.group)
  {
    var b1 := t.group.(questions := []);
    assert OneByOne(step, Reading(r, b0, InGroup, None), MaterialLines(t), from) == Reading(r, b1, Context, None);
    StepQuestions(step, r, b1, t.group.questions, from + |MaterialLines(t)|);
    StepConcat(step, Reading(r, b0, InGroup, None), MaterialLines(t), QuestionsLines(t.group.questions), from);
  }

  lemma ReadBody(r: Reader, b0: Builder, t: GroupText, from: nat)
    requires Writable(t) && b0 == t.group.(shared := [], context := [], questions := [])
    ensures ReadAll(Reading(r, b0, InGroup, None), BodyLines(t), from) == AtEnd(r, t.group)
  {
    ReadReadsMaterial();
    ReadReadsQuestions();
    StepBody(Read, r, b0, t, from);
  }

  function GroupLines(t: GroupText): seq<Line>
  {
    HeadLines(t.group) + BodyLines(t)
  }

  /** Where a group is filed makes no difference to its lines. */
  lemma FiledIsWrittenAlike(t: GroupText, part: nat, line: nat)
    requires Writable(t)
    ensures var t' := GroupText(t.group.(part := part, line := line), t.context); Writable(t') && BodyLines(t') == BodyLines(t)
  {
  }

  lemma ReadFiledBody(r: Reader, t: GroupText, part: nat, line: nat, from: nat)
    requires Writable(t)
    ensures ReadAll(Reading(r, Bare(t.group, part, line), InGroup, None), BodyLines(t), from)
         == AtEnd(r, t.group.(part := part, line := line))
  {
    FiledIsWrittenAlike(t, part, line);
    ReadBody(r, Bare(t.group, part, line), GroupText(t.group.(part := part, line := line), t.context), from);
  }

  ghost predicate ReadsHeads(step: (Reader, Line, nat) -> Reader)
  {
    forall r: Reader, b: Builder, from: nat {:trigger OneByOne(step, r, HeadLines(b), from)} ::
      r.parts != [] && Supported(b.kind) ==>
        OneByOne(step, r, HeadLines(b), from) == Reading(Flush(r), Bare(b, |r.parts| - 1, from + 1), InGroup, None)
  }

  ghost predicate ReadsBodies(step: (Reader, Line, nat) -> Reader)
  {
    forall r: Reader, t: GroupText, part: nat, line: nat, from: nat
      {:trigger OneByOne(step, Reading(r, Bare(t.group, part, line), InGroup, None), BodyLines(t), from)} ::
      Writable(t) ==>
        OneByOne(step, Reading(r, Bare(t.group, part, line), InGroup, None), BodyLines(t), from)
        == AtEnd(r, t.group.(part := part, line := line))
  }

  lemma ReadReadsHeads()
    ensures ReadsHeads(Read)
  {
    forall r: Reader, b: Builder, from: nat {:trigger OneByOne(Read, r, HeadLines(b), from)} | r.parts != [] && Supported(b.kind)
      ensures OneByOne(Read, r, HeadLines(b), from) == Reading(Flush(r), Bare(b, |r.parts| - 1, from + 1), InGroup, None)
    {
      ReadHead(r, b, from);
    }
  }

  lemma ReadReadsBodies()
    ensures ReadsBodies(Read)
  {
    forall r: Reader, t: GroupText, part: nat, line: nat, from: nat
      {:trigger OneByOne(Read, Reading(r, Bare(t.group, part, line), InGroup, None), BodyLines(t), from)} | Writable(t)
      ensures OneByOne(Read, Reading(r, Bare(t.group, part, line), InGroup, None), BodyLines(t), from)
           == AtEnd(r, t.group.(part := part, line := line))
    {
      ReadFiledBody(r, t, part, line, from);
    }
  }

  lemma StepGroup(step: (Reader, Line, nat) -> Reader, r: Reader, t: GroupText, from: nat)
    requires ReadsHeads(step) && ReadsBodies(step) && r.parts != [] && Writable(t)
    ensures OneByOne(step, r, GroupLines(t), from) == AtEnd(Flush(r), t.group.(part := |r.parts| - 1, line := from + 1))
  {
    StepConcat(step, r, HeadLines(t.group), BodyLines(t), from);
    var mid := Reading(Flush(r), Bare(t.group, |r.parts| - 1, from + 1), InGroup, None);
    assert OneByOne(step, r, HeadLines(t.group), from) == mid;
    assert OneByOne(step, mid, BodyLines(t), from + |HeadLines(t.group)|)
        == AtEnd(Flush(r), t.group.(part := |r.parts| - 1, line := from + 1));
  }

  /** A group that is written down is read back as it was. */
  lemma ReadGroup(r: Reader, t: GroupText, from: nat)
    requires r.parts != [] && Writable(t)
    ensures ReadAll(r, GroupLines(t), from) == AtEnd(Flush(r), t.group.(part := |r.parts| - 1, line := from + 1))
  {
    ReadReadsHeads();
    ReadReadsBodies();
    StepGroup(Read, r, t, from);
  }

  // ---- The whole text. ----

  ghost predicate AllWritable(gs: seq<GroupText>) { forall i | 0 <= i < |gs| :: Writable(gs[i]) }

  function GroupsLines(gs: seq<GroupText>): seq<Line>
    requires AllWritable(gs)
  {
    if gs == [] then [] else GroupsLines(gs[..|gs| - 1]) + GroupLines(gs[|gs| - 1])
  }

  function PartsLines(text: seq<PartText>): seq<Line>
    requires forall i | 0 <= i < |text| :: AllWritable(text[i].groups)
  {
    if text == [] then []
    else
      var last := text[|text| - 1];
      PartsLines(text[..|text| - 1]) + ([PLAIN.(part := Some(last.position))] + GroupsLines(last.groups))
  }

  function AnswerLines(answers: seq<(int, seq<string>)>): seq<Line>
  {
    seq(|answers|, i requires 0 <= i < |answers| => AnswerLine(answers[i]))
  }

  /** An explanation: the number of its question and its lines. */
  type Explaining = (nat, seq<string>)

  function LinesOf(texts: seq<string>): seq<Line>
  {
    seq(|texts|, i requires 0 <= i < |texts| => PLAIN.(text := texts[i]))
  }

  function ExplanationLines(e: Explaining): seq<Line> { [PLAIN.(heading := Some(e.0))] + LinesOf(e.1) }

  function ExplanationsLines(es: seq<Explaining>): seq<Line>
  {
    if es == [] then [] else ExplanationsLines(es[..|es| - 1]) + ExplanationLines(es[|es| - 1])
  }

  function TextLines(text: seq<PartText>, answers: seq<(int, seq<string>)>, explanations: seq<Explaining>): seq<Line>
    requires forall i | 0 <= i < |text| :: AllWritable(text[i].groups)
  {
    [PLAIN.(isHeader := true)] + PartsLines(text) + ([PLAIN.(section := Some(AnswersSection))] + AnswerLines(answers))
    + ([PLAIN.(section := Some(ExplanationsSection))] + ExplanationsLines(explanations))
  }

  /** The groups of a part as the reader files them, line numbers aside. */
  function Filed(gs: seq<GroupText>, part: nat): seq<Builder>
  {
    seq(|gs|, i requires 0 <= i < |gs| => gs[i].group.(part := part, line := 0))
  }

  function Heads(text: seq<PartText>): seq<Part>
  {
    seq(|text|, i requires 0 <= i < |text| => Part(text[i].position, []))
  }

  function AllGroups(text: seq<PartText>): seq<Builder>
  {
    if text == [] then [] else AllGroups(text[..|text| - 1]) + Filed(text[|text| - 1].groups, |text| - 1)
  }

  /** The reader has these parts and groups, nothing else, and no issue. */
  ghost predicate Holds(r: Reader, parts: seq<Part>, groups: seq<Builder>)
  {
    && r.parts == parts && |r.builders| == |groups| && (forall i | 0 <= i < |groups| :: r.builders[i].(line := 0) == groups[i])
    && r.issues == [] && r.answers == map[] && r.explanations == map[] && r.explaining == 0
  }

  lemma HoldsOneMore(r: Reader, parts: seq<Part>, groups: seq<Builder>, t: GroupText, from: nat)
    requires Holds(r, parts, groups) && parts != [] && Writable(t)
    ensures Holds(ReadAll(r, GroupLines(t), from), parts, groups + [t.group.(part := |parts| - 1, line := 0)])
  {
    ReadGroup(r, t, from);
  }

  // From here on it matters only what a step does with a whole group, or with the mark of a part.

  ghost predicate ReadsGroups(step: (Reader, Line, nat) -> Reader)
  {
    forall r: Reader, parts: seq<Part>, groups: seq<Builder>, t: GroupText, from: nat
      {:trigger Holds(r, parts, groups), OneByOne(step, r, GroupLines(t), from)} ::
      Holds(r, parts, groups) && parts != [] && Writable(t) ==>
        Holds(OneByOne(step, r, GroupLines(t), from), parts, groups + [t.group.(part := |parts| - 1, line := 0)])
  }

  ghost predicate ReadsParts(step: (Reader, Line, nat) -> Reader)
  {
    forall r: Reader, parts: seq<Part>, groups: seq<Builder>, position: nat, from: nat ::
      Holds(r, parts, groups) ==>
        Holds(OneByOne(step, r, [PLAIN.(part := Some(position))], from), parts + [Part(position, [])], groups)
  }

  lemma ReadDoes()
    ensures ReadsGroups(Read) && ReadsParts(Read)
  {
    forall r: Reader, parts: seq<Part>, groups: seq<Builder>, t: GroupText, from: nat
      {:trigger Holds(r, parts, groups), OneByOne(Read, r, GroupLines(t), from)} |
      Holds(r, parts, groups) && parts != [] && Writable(t)
      ensures Holds(OneByOne(Read, r, GroupLines(t), from), parts, groups + [t.group.(part := |parts| - 1, line := 0)])
    {
      HoldsOneMore(r, parts, groups, t, from);
    }
    forall r: Reader, parts: seq<Part>, groups: seq<Builder>, position: nat, from: nat | Holds(r, parts, groups)
      ensures Holds(OneByOne(Read, r, [PLAIN.(part := Some(position))], from), parts + [Part(position, [])], groups)
    {
      ReadOne(r, PLAIN.(part := Some(position)), from);
    }
  }

  lemma {:induction false} ReadGroups(step: (Reader, Line, nat) -> Reader, r: Reader, parts: seq<Part>, groups: seq<Builder>,
                                      gs: seq<GroupText>, from: nat)
    requires ReadsGroups(step) && Holds(r, parts, groups) && parts != [] && AllWritable(gs)
    ensures Holds(OneByOne(step, r, GroupsLines(gs), from), parts, groups + Filed(gs, |parts| - 1))
    decreases |gs|
  {
    var p := |parts| - 1;
    if gs == [] {
      assert groups + Filed(gs, p) == groups;
    } else {
      var front, last := gs[..|gs| - 1], gs[|gs| - 1];
      ReadGroups(step, r, parts, groups, front, from);
      StepConcat(step, r, GroupsLines(front), GroupLines(last), from);
      var r1 := OneByOne(step, r, GroupsLines(front), from);
      assert Holds(OneByOne(step, r1, GroupLines(last), from + |GroupsLines(front)|), parts,
                   groups + Filed(front, p) + [last.group.(part := p, line := 0)]);
      assert groups + Filed(front, p) + [last.group.(part := p, line := 0)] == groups + Filed(gs, p);
    }
  }

  lemma ReadPart(step: (Reader, Line, nat) -> Reader, r: Reader, parts: seq<Part>, groups: seq<Builder>, t: PartText, from: nat)
    requires ReadsGroups(step) && ReadsParts(step) && Holds(r, parts, groups) && AllWritable(t.groups)
    ensures Holds(OneByOne(step, r, [PLAIN.(part := Some(t.position))] + GroupsLines(t.groups), from),
                  parts + [Part(t.position, [])], groups + Filed(t.groups, |parts|))
  {
    var mark := [PLAIN.(part := Some(t.position))];
    var r1 := OneByOne(step, r, mark, from);
    assert Holds(r1, parts + [Part(t.position, [])], groups);
    ReadGroups(step, r1, parts + [Part(t.position, [])], groups, t.groups, from + 1);
    StepConcat(step, r, mark, GroupsLines(t.groups), from);
  }

  lemma HeadsEnd(text: seq<PartText>)
    requires text != []
    ensures Heads(text) == Heads(text[..|text| - 1]) + [Part(text[|text| - 1].position, [])]
  {
  }

  lemma {:induction false} ReadParts(step: (Reader, Line, nat) -> Reader, r: Reader, text: seq<PartText>, from: nat)
    requires ReadsGroups(step) && ReadsParts(step) && Holds(r, [], [])
    requires forall i | 0 <= i < |text| :: AllWritable(text[i].groups)
    ensures Holds(OneByOne(step, r, PartsLines(text), from), Heads(text), AllGroups(text))
    decreases |text|
  {
    if text != [] {
      var front, last := text[..|text| - 1], text[|text| - 1];
      ReadParts(step, r, front, from);
      var lines := PartsLines(front);
      ReadPart(step, OneByOne(step, r, lines, from), Heads(front), AllGroups(front), last, from + |lines|);
      StepConcat(step, r, lines, [PLAIN.(part := Some(last.position))] + GroupsLines(last.groups), from);
      HeadsEnd(text);
    }
  }

  ghost predicate DistinctNumbers(answers: seq<(int, seq<string>)>)
  {
    forall i, j | 0 <= i < j < |answers| :: answers[i].0 != answers[j].0
  }

  /** Exactly these answers have been read. */
  ghost predicate HasAnswers(r: Reader, answers: seq<(int, seq<string>)>)
  {
    && (forall i | 0 <= i < |answers| :: answers[i].0 in r.answers && r.answers[answers[i].0].values == answers[i].1)
    && (forall n | n in r.answers :: exists i :: 0 <= i < |answers| && answers[i].0 == n)
  }

  function AnswerLine(answer: (int, seq<string>)): Line { PLAIN.(answer := Some(answer)) }

  ghost predicate TakesAnswers(step: (Reader, Line, nat) -> Reader)
  {
    forall r: Reader, answer: (int, seq<string>), n: nat {:trigger step(r, AnswerLine(answer), n)} ::
      r.mode.AnswerList? && answer.0 !in r.answers ==>
        step(r, AnswerLine(answer), n) == r.(answers := r.answers[answer.0 := Value(answer.1, n)])
  }

  lemma HasOneMore(r: Reader, answers: seq<(int, seq<string>)>, n: nat)
    requires answers != [] && DistinctNumbers(answers) && HasAnswers(r, answers[..|answers| - 1])
    ensures var last := answers[|answers| - 1];
            last.0 !in r.answers && HasAnswers(r.(answers := r.answers[last.0 := Value(last.1, n)]), answers)
  {
    var front, last := answers[..|answers| - 1], answers[|answers| - 1];
    forall i | 0 <= i < |front| ensures front[i].0 != last.0 {
      assert answers[i].0 != answers[|answers| - 1].0;
    }
    forall m | m in r.answers ensures m != last.0 {
      var i :| 0 <= i < |front| && front[i].0 == m;
    }
    var r' := r.(answers := r.answers[last.0 := Value(last.1, n)]);
    forall n | n in r'.answers ensures exists i :: 0 <= i < |answers| && answers[i].0 == n {
      if n == last.0 {
        assert answers[|answers| - 1].0 == n;
      } else {
        var i :| 0 <= i < |front| && front[i].0 == n;
        assert answers[i].0 == n;
      }
    }
  }

  lemma ReadTakesAnswers()
    ensures TakesAnswers(Read)
  {
  }

  lemma AnswerLinesEnd(answers: seq<(int, seq<string>)>)
    requires answers != []
    ensures AnswerLines(answers) == AnswerLines(answers[..|answers| - 1]) + [AnswerLine(answers[|answers| - 1])]
  {
  }

  /** The reader has read these answers and is otherwise as before. */
  ghost predicate HasRead(r: Reader, r': Reader, answers: seq<(int, seq<string>)>)
  {
    HasAnswers(r', answers) && r' == r.(answers := r'.answers)
  }

  lemma TakesOneMore(step: (Reader, Line, nat) -> Reader, r: Reader, r1: Reader, answers: seq<(int, seq<string>)>, n: nat)
    requires TakesAnswers(step) && r.mode.AnswerList? && answers != [] && DistinctNumbers(answers)
    requires HasRead(r, r1, answers[..|answers| - 1])
    ensures HasRead(r, step(r1, AnswerLine(answers[|answers| - 1]), n), answers)
  {
    HasOneMore(r1, answers, n);
  }

  lemma {:induction false} StepAnswers(step: (Reader, Line, nat) -> Reader, r: Reader, answers: seq<(int, seq<string>)>, from: nat)
    requires TakesAnswers(step) && r.mode.AnswerList? && r.answers == map[] && DistinctNumbers(answers)
    ensures HasRead(r, OneByOne(step, r, AnswerLines(answers), from), answers)
    decreases |answers|
  {
    if answers != [] {
      var front, last := answers[..|answers| - 1], answers[|answers| - 1];
      StepAnswers(step, r, front, from);
      AnswerLinesEnd(answers);
      StepLast(step, r, AnswerLines(front), AnswerLine(last), from);
      TakesOneMore(step, r, OneByOne(step, r, AnswerLines(front), from), answers, from + |answers|);
    }
  }

  lemma ReadMark(r: Reader, from: nat)
    requires r.explaining == 0
    ensures ReadAll(r, [PLAIN.(section := Some(AnswersSection))], from) == r.(mode := AnswerList, inGroup := false, explained := "")
  {
    ReadOne(r, PLAIN.(section := Some(AnswersSection)), from);
  }

  lemma StepAnswerSection(step: (Reader, Line, nat) -> Reader, r: Reader, answers: seq<(int, seq<string>)>, from: nat)
    requires TakesAnswers(step) && r.answers == map[] && DistinctNumbers(answers)
    requires OneByOne(step, r, [PLAIN.(section := Some(AnswersSection))], from)
          == r.(mode := AnswerList, inGroup := false, explained := "")
    ensures var r' := OneByOne(step, r, [PLAIN.(section := Some(AnswersSection))] + AnswerLines(answers), from);
            HasAnswers(r', answers) && r' == r.(mode := AnswerList, inGroup := false, explained := "", answers := r'.answers)
  {
    StepAnswers(step, r.(mode := AnswerList, inGroup := false, explained := ""), answers, from + 1);
    StepConcat(step, r, [PLAIN.(section := Some(AnswersSection))], AnswerLines(answers), from);
  }

  lemma ReadAnswerSection(r: Reader, answers: seq<(int, seq<string>)>, from: nat)
    requires r.answers == map[] && r.explaining == 0 && DistinctNumbers(answers)
    ensures var r' := ReadAll(r, [PLAIN.(section := Some(AnswersSection))] + AnswerLines(answers), from);
            HasAnswers(r', answers) && r' == r.(mode := AnswerList, inGroup := false, explained := "", answers := r'.answers)
  {
    ReadMark(r, from);
    ReadTakesAnswers();
    StepAnswerSection(Read, r, answers, from);
  }

  // ---- Explanations. ----

  /** Lines put together again, each with its end. */
  function Joined(texts: seq<string>): string
  {
    if texts == [] then "" else Joined(texts[..|texts| - 1]) + texts[|texts| - 1] + "\n"
  }

  ghost predicate DistinctHeadings(es: seq<Explaining>)
  {
    (forall i | 0 <= i < |es| :: es[i].0 > 0) && forall i, j | 0 <= i < j < |es| :: es[i].0 != es[j].0
  }

  /** Exactly these explanations have been read, without the white space around them. */
  ghost predicate HasExplanations(notes: map<int, Note>, es: seq<Explaining>)
  {
    && (forall i | 0 <= i < |es| :: es[i].0 in notes && notes[es[i].0].text == Trim(Joined(es[i].1)))
    && (forall n | n in notes :: exists i :: 0 <= i < |es| && es[i].0 == n)
  }

  /** In the middle of an explanation. */
  ghost predicate Explains(r: Reader) { r.mode.Explanation? && r.explaining > 0 }

  /** What the lines of one explanation do, first the heading and then a line of its text. */
  ghost predicate TakesExplanations(step: (Reader, Line, nat) -> Reader)
  {
    && (forall r: Reader, h: nat, n: nat {:trigger step(r, PLAIN.(heading := Some(h)), n)} ::
          (r.mode.ExplanationList? || r.mode.Explanation?) && h !in Flush(r).explanations ==>
            step(r, PLAIN.(heading := Some(h)), n)
            == Flush(r).(explaining := h, explanations := Flush(r).explanations[h := Note("", n)], mode := Explanation))
    && (forall r: Reader, text: string, n: nat {:trigger step(r, PLAIN.(text := text), n)} ::
          Explains(r) ==> step(r, PLAIN.(text := text), n) == r.(explained := r.explained + text + "\n"))
  }

  lemma ReadTakesExplanations()
    ensures TakesExplanations(Read)
  {
  }

  lemma {:induction false} StepTexts(step: (Reader, Line, nat) -> Reader, r: Reader, texts: seq<string>, from: nat)
    requires TakesExplanations(step) && Explains(r)
    ensures OneByOne(step, r, LinesOf(texts), from) == r.(explained := r.explained + Joined(texts))
    decreases |texts|
  {
    if texts == [] {
      assert r.explained + Joined(texts) == r.explained;
    } else {
      var front, last := texts[..|texts| - 1], texts[|texts| - 1];
      StepTexts(step, r, front, from);
      assert LinesOf(texts)[..|texts| - 1] == LinesOf(front) && LinesOf(texts)[|texts| - 1] == PLAIN.(text := last);
      assert r.explained + Joined(texts) == r.explained + Joined(front) + last + "\n";
    }
  }

  /** The reader once it has read a heading and some text after it. */
  function InNote(r: Reader, heading: nat, line: nat, text: string): Reader
  {
    r.(explaining := heading, explained := text, explanations := r.explanations[heading := Note("", line)], mode := Explanation)
  }

  function Noted(r: Reader, heading: nat, line: nat, text: string): Reader
  {
    r.(explanations := r.explanations[heading := Note(Trim(text), line)], mode := Explanation)
  }

  lemma FlushNote(r: Reader, heading: nat, line: nat, text: string)
    requires heading > 0 && r.explaining == 0 && r.explained == ""
    ensures Flush(InNote(r, heading, line, text)) == Noted(r, heading, line, text)
  {
    var m := r.explanations;
    assert m[heading := Note("", line)][heading := Note(Trim(text), line)] == m[heading := Note(Trim(text), line)];
  }

  lemma StepNote(step: (Reader, Line, nat) -> Reader, r: Reader, heading: nat, line: nat, texts: seq<string>, from: nat)
    requires TakesExplanations(step) && heading > 0
    ensures OneByOne(step, InNote(r, heading, line, ""), LinesOf(texts), from) == InNote(r, heading, line, Joined(texts))
  {
    StepTexts(step, InNote(r, heading, line, ""), texts, from);
    assert "" + Joined(texts) == Joined(texts);
  }

  lemma StepHeading(step: (Reader, Line, nat) -> Reader, r: Reader, heading: nat, from: nat)
    requires TakesExplanations(step) && (r.mode.ExplanationList? || r.mode.Explanation?)
    requires heading !in Flush(r).explanations
    ensures OneByOne(step, r, [PLAIN.(heading := Some(heading))], from) == InNote(Flush(r), heading, from + 1, "")
  {
    var l := PLAIN.(heading := Some(heading));
    assert [l][..0] == [];
    assert OneByOne(step, r, [l], from) == step(r, l, from + 1);
  }

  /** One explanation, the reader being outside or at the end of another one. */
  lemma StepExplanation(step: (Reader, Line, nat) -> Reader, r: Reader, e: Explaining, from: nat)
    requires TakesExplanations(step) && (r.mode.ExplanationList? || r.mode.Explanation?)
    requires e.0 > 0 && e.0 !in Flush(r).explanations
    ensures var r' := OneByOne(step, r, ExplanationLines(e), from);
            r'.mode.Explanation? && Flush(r') == Noted(Flush(r), e.0, from + 1, Joined(e.1))
  {
    StepHeading(step, r, e.0, from);
    StepNote(step, Flush(r), e.0, from + 1, e.1, from + 1);
    StepConcat(step, r, [PLAIN.(heading := Some(e.0))], LinesOf(e.1), from);
    FlushNote(Flush(r), e.0, from + 1, Joined(e.1));
  }

  lemma LastIsNew(notes: map<int, Note>, es: seq<Explaining>)
    requires es != [] && DistinctHeadings(es) && HasExplanations(notes, es[..|es| - 1])
    ensures es[|es| - 1].0 !in notes && forall i | 0 <= i < |es| - 1 :: es[i].0 != es[|es| - 1].0
  {
    var front, last := es[..|es| - 1], es[|es| - 1];
    forall m | m in notes ensures m != last.0 {
      var i :| 0 <= i < |front| && front[i].0 == m;
      assert es[i].0 != es[|es| - 1].0;
    }
  }

  lemma HasOneMoreExplanation(notes: map<int, Note>, es: seq<Explaining>, line: nat)
    requires es != [] && DistinctHeadings(es) && HasExplanations(notes, es[..|es| - 1])
    ensures var last := es[|es| - 1];
            last.0 !in notes && HasExplanations(notes[last.0 := Note(Trim(Joined(last.1)), line)], es)
  {
    var front, last := es[..|es| - 1], es[|es| - 1];
    LastIsNew(notes, es);
    var notes' := notes[last.0 := Note(Trim(Joined(last.1)), line)];
    forall n | n in notes' ensures exists i :: 0 <= i < |es| && es[i].0 == n {
      if n == last.0 {
        assert es[|es| - 1].0 == n;
      } else {
        var i :| 0 <= i < |front| && front[i].0 == n;
        assert es[i].0 == n;
      }
    }
  }

  /** From `r` to `r'` these explanations have been read; the last one may still be open. */
  ghost predicate HasExplained(r: Reader, r': Reader, es: seq<Explaining>)
  {
    && (r'.mode.ExplanationList? || r'.mode.Explanation?) && HasExplanations(Flush(r').explanations, es)
    && Flush(r') == r.(explanations := Flush(r').explanations, mode := r'.mode)
  }

  lemma ExplainedOneMore(step: (Reader, Line, nat) -> Reader, r: Reader, r1: Reader, r2: Reader, es: seq<Explaining>, from: nat)
    requires TakesExplanations(step) && es != [] && DistinctHeadings(es) && HasExplained(r, r1, es[..|es| - 1])
    requires r2 == OneByOne(step, r1, ExplanationLines(es[|es| - 1]), from)
    ensures HasExplained(r, r2, es)
  {
    HasOneMoreExplanation(Flush(r1).explanations, es, from + 1);
    StepExplanation(step, r1, es[|es| - 1], from);
  }

  lemma NothingExplained(r: Reader)
    requires r.mode.ExplanationList? && r.explaining == 0 && r.explained == "" && r.explanations == map[]
    ensures HasExplained(r, r, [])
  {
  }

  lemma NextExplained(step: (Reader, Line, nat) -> Reader, r: Reader, lines: seq<Line>, es: seq<Explaining>, from: nat)
    requires TakesExplanations(step) && es != [] && DistinctHeadings(es)
    requires HasExplained(r, OneByOne(step, r, lines, from), es[..|es| - 1])
    ensures HasExplained(r, OneByOne(step, r, lines + ExplanationLines(es[|es| - 1]), from), es)
  {
    var more := ExplanationLines(es[|es| - 1]);
    StepConcat(step, r, lines, more, from);
    ExplainedOneMore(step, r, OneByOne(step, r, lines, from), OneByOne(step, r, lines + more, from), es, from + |lines|);
  }

  lemma FrontIsDistinct(es: seq<Explaining>)
    requires es != [] && DistinctHeadings(es)
    ensures DistinctHeadings(es[..|es| - 1])
  {
  }

  lemma {:induction false} StepExplanations(step: (Reader, Line, nat) -> Reader, r: Reader, es: seq<Explaining>, from: nat)
    requires TakesExplanations(step) && DistinctHeadings(es)
    requires r.mode.ExplanationList? && r.explaining == 0 && r.explained == "" && r.explanations == map[]
    ensures HasExplained(r, OneByOne(step, r, ExplanationsLines(es), from), es)
    decreases |es|
  {
    if es == [] {
      NothingExplained(r);
    } else {
      FrontIsDistinct(es);
      StepExplanations(step, r, es[..|es| - 1], from);
      NextExplained(step, r, ExplanationsLines(es[..|es| - 1]), es, from);
    }
  }

  lemma ReadExplanationSection(r: Reader, es: seq<Explaining>, from: nat)
    requires r.explanations == map[] && r.explaining == 0 && DistinctHeadings(es)
    ensures var r' := Flush(ReadAll(r, [PLAIN.(section := Some(ExplanationsSection))] + ExplanationsLines(es), from));
            && HasExplanations(r'.explanations, es)
            && r' == r.(mode := r'.mode, inGroup := false, explained := "", explanations := r'.explanations)
  {
    var mark, r1 := [PLAIN.(section := Some(ExplanationsSection))], r.(mode := ExplanationList, inGroup := false, explained := "");
    ReadOne(r, PLAIN.(section := Some(ExplanationsSection)), from);
    ReadTakesExplanations();
    StepExplanations(Read, r1, es, from + 1);
    StepConcat(Read, r, mark, ExplanationsLines(es), from);
  }

  lemma ReadHeader(from: nat)
    ensures ReadAll(START, [PLAIN.(isHeader := true)], from) == START && Holds(START, [], [])
  {
    ReadOne(START, PLAIN.(isHeader := true), from);
  }

  lemma InFour<S>(step: (S, Line, nat) -> S, s: S, a: seq<Line>, b: seq<Line>, c: seq<Line>, d: seq<Line>, s1: S, s2: S, s3: S)
    requires OneByOne(step, s, a, 0) == s1 && OneByOne(step, s1, b, |a|) == s2 && OneByOne(step, s2, c, |a + b|) == s3
    ensures OneByOne(step, s, a + b + c + d, 0) == OneByOne(step, s3, d, |a + b + c|)
  {
    StepConcat(step, s, a, b, 0);
    StepConcat(step, s, a + b, c, 0);
    StepConcat(step, s, a + b + c, d, 0);
  }

  /**
   Round trip: a test written down part by part, group by group, with its answers and explanations, is read back with
   exactly its parts, groups, answers and explanations, and without an issue.
   */
  lemma WrittenIsReadBack(text: seq<PartText>, answers: seq<(int, seq<string>)>, explanations: seq<Explaining>)
    requires (forall i | 0 <= i < |text| :: AllWritable(text[i].groups))
    requires DistinctNumbers(answers) && DistinctHeadings(explanations)
    ensures var r := Flush(ReadAll(START, TextLines(text, answers, explanations), 0));
            && r.parts == Heads(text) && r.issues == []
            && HasAnswers(r, answers) && HasExplanations(r.explanations, explanations)
            && |r.builders| == |AllGroups(text)|
            && forall i | 0 <= i < |AllGroups(text)| :: r.builders[i].(line := 0) == AllGroups(text)[i]
  {
    var header, parts := [PLAIN.(isHeader := true)], PartsLines(text);
    var solution := [PLAIN.(section := Some(AnswersSection))] + AnswerLines(answers);
    var rest := [PLAIN.(section := Some(ExplanationsSection))] + ExplanationsLines(explanations);
    ReadHeader(0);
    ReadDoes();
    ReadParts(Read, START, text, 1);
    var r1 := OneByOne(Read, START, parts, 1);
    ReadAnswerSection(r1, answers, |header + parts|);
    var r2 := OneByOne(Read, r1, solution, |header + parts|);
    InFour(Read, START, header, parts, solution, rest, START, r1, r2);
    ReadExplanationSection(r2, explanations, |header + parts + solution|);
  }

  // ---- A text whose answer line has no values. ----

  /** Of a text that was read and accepted: every question is saved with a value exactly when every answer line has one. */
  lemma ReadAnswersHaveValues(r: Reader, parts: seq<Part>, saved: seq<Part>)
    requires ReaderOk(r) && Accepted(r) && TestOf(r, parts) && Renumbered(parts, saved)
    ensures AllHaveValues(saved) <==> forall n | n in r.answers :: r.answers[n].values != []
  {
    assert forall b | b in r.builders :: b.part < |r.parts| && Readable(b);
    CleanBuild(r.parts, r.issues, r.builders);
    AnswersHaveValues(r.parts, r.builders, r.answers, r.explanations, parts, saved);
  }

  /** One short question and an answer line that holds nothing but separators. */
  const SILENT := Builder(0, 0, 1, 1, ShortAnswer, "", [], [NewQuestion(1, [Text("Why?")])], [])
  const SILENT_TEXT := [PartText(1, [GroupText(SILENT, [])])]
  const SILENT_ANSWERS: seq<(int, seq<string>)> := [(1, [])]

  lemma SilentIsProper(b: Builder)
    requires b.(line := 0) == SILENT
    ensures Proper(b)
  {
    var q := NewQuestion(1, [Text("Why?")]);
    assert FromContext([]) == [];
    assert b.questions + FromContext(b.context) == [q];
    SortIsPermutation(ByNumber, [q]);
    SameMembers([q], Found(b));
    assert |multiset(Found(b))| == |Found(b)| && |multiset([q])| == 1;
    assert Found(b)[0] in Found(b);
  }

  ghost predicate ReadsSilent(r: Reader)
  {
    && r.parts == [Part(1, [])] && r.issues == [] && |r.builders| == 1 && r.builders[0].(line := 0) == SILENT
    && forall b | b in r.builders :: b.part < |r.parts|
  }

  lemma SilentIsRead()
    ensures AllWritable(SILENT_TEXT[0].groups)
    ensures forall i | 0 <= i < |SILENT_TEXT| :: AllWritable(SILENT_TEXT[i].groups)
    ensures var r := Flush(ReadAll(START, TextLines(SILENT_TEXT, SILENT_ANSWERS, []), 0));
            ReadsSilent(r) && HasAnswers(r, SILENT_ANSWERS) && HasExplanations(r.explanations, [])
  {
    assert TokensOf([]) == [];
    assert Writable(GroupText(SILENT, []));
    assert SILENT_TEXT[..0] == [];
    assert AllGroups(SILENT_TEXT) == AllGroups([]) + Filed([GroupText(SILENT, [])], 0);
    assert Filed([GroupText(SILENT, [])], 0) == [SILENT];
    WrittenIsReadBack(SILENT_TEXT, SILENT_ANSWERS, []);
  }

  lemma SilentIsReadable(b: Builder)
    requires b.(line := 0) == SILENT
    ensures Readable(b)
  {
    var t := Text("Why?");
    assert t.text[0] == 'W' && 'W' in t.text && !IsSpace('W');
    assert t in [t] && !Blank([t]);
    assert b.questions == [NewQuestion(1, [t])];
  }

  lemma SilentIsClean(r: Reader)
    requires ReadsSilent(r)
    ensures AllProper(r.builders) && forall n :: Covers(r.builders, n) <==> n == 1
  {
    var x := r.builders[0];
    SilentIsProper(x);
    assert x in r.builders;
    forall n ensures Covers(r.builders, n) <==> n == 1 {
      assert Covers(r.builders, n) <==> x.start <= n <= x.end;
    }
  }

  lemma SilentBuildsCleanly(r: Reader)
    requires ReadsSilent(r)
    ensures var b := Build(r.parts, [], r.builders);
            b.issues == [] && Exact(b.parts, b.refs) && (forall n :: n in b.refs <==> n == 1)
  {
    SilentIsClean(r);
    CleanBuild(r.parts, [], r.builders);
    BuildExact(r.parts, [], r.builders);
  }

  lemma SilentBuilds(r: Reader)
    requires ReadsSilent(r)
    ensures var b := Build(r.parts, [], r.builders);
            && BuildOf(r) == b && b.issues == [] && Exact(b.parts, b.refs) && AllNumbered(b.parts, r.builders)
            && AllProper(r.builders) && (forall n :: n in b.refs <==> n == 1)
  {
    SilentIsClean(r);
    SilentBuildsCleanly(r);
    SilentIsReadable(r.builders[0]);
    CleanBuildIsNumbered(r.parts, r.builders);
  }

  lemma SilentIsAccepted(r: Reader)
    requires ReadsSilent(r) && HasAnswers(r, SILENT_ANSWERS) && HasExplanations(r.explanations, [])
    ensures Accepted(r) && 1 in r.answers && r.answers[1].values == []
  {
    assert SILENT_ANSWERS[0].0 in r.answers && SILENT_ANSWERS[0].1 == [];
    SilentBuilds(r);
    forall n | n in r.answers ensures n == 1 {
      var i :| 0 <= i < |SILENT_ANSWERS| && SILENT_ANSWERS[i].0 == n;
    }
    var b := BuildOf(r);
    SilentSuits(b, r.builders, r.answers[1]);
  }

  lemma SilentSuits(b: Built, builders: seq<Builder>, v: Value)
    requires Exact(b.parts, b.refs) && AllNumbered(b.parts, builders) && 1 in b.refs
    requires |builders| == 1 && builders[0].(line := 0) == SILENT
    ensures Suits(b.parts, b.refs[1], v)
  {
    var r := b.refs[1];
    assert Valid(b.parts, r.part, r.group, r.question);
    assert GroupAt(b.parts, r.part, r.group);
  }

  lemma SilentHasOneQuestion(r: Reader)
    requires ReadsSilent(r)
    ensures var b := BuildOf(r); |b.parts| == 1 && |b.parts[0].groups| == 1 && |b.parts[0].groups[0].questions| == 1
  {
    SilentBuilds(r);
    var b := BuildOf(r);
    assert r.builders[..0] == [];
    assert b == BuildOne(Build(r.parts, [], []), r.builders[0]);
    assert GroupAt(b.parts, 0, 0);
  }

  lemma SilentIsImported(r: Reader, parts: seq<Part>, saved: seq<Part>)
    requires ReadsSilent(r) && Accepted(r) && TestOf(r, parts) && Renumbered(parts, saved)
    ensures Imported(r.parts, r.builders, r.answers, r.explanations, parts, saved)
  {
    SilentBuilds(r);
    SilentIsReadable(r.builders[0]);
    assert forall b | b in r.builders :: b == r.builders[0];
  }

  lemma OnlyPlace(r: Reader, parts: seq<Part>, saved: seq<Part>, p: nat, g: nat, i: nat)
    requires TestOf(r, parts) && Renumbered(parts, saved) && Valid(saved, p, g, i)
    requires var b := BuildOf(r); |b.parts| == 1 && |b.parts[0].groups| == 1 && |b.parts[0].groups[0].questions| == 1
    ensures p == 0 && g == 0 && i == 0
  {
    var b := BuildOf(r);
    assert GroupAt(saved, p, g);
    SavedAt(b.parts, parts, saved, Known(r.answers, b.refs), Explained(b.refs, r.explanations), p, g);
  }

  lemma SilentIsSaved(r: Reader, parts: seq<Part>, saved: seq<Part>)
    requires ReadsSilent(r) && Accepted(r) && TestOf(r, parts) && Renumbered(parts, saved)
    requires 1 in r.answers && r.answers[1].values == []
    ensures Valid(saved, 0, 0, 0) && ValuesOf(At(saved, 0, 0, 0).answer) == []
  {
    SilentHasOneQuestion(r);
    SilentIsImported(r, parts, saved);
    var p, g, i := AnswerHasAQuestion(r.parts, r.builders, r.answers, r.explanations, parts, saved, 1);
    OnlyPlace(r, parts, saved, p, g, i);
    ImportedAnswer(r.parts, r.builders, r.answers, r.explanations, parts, saved, 0, 0, 0);
  }

  ghost predicate AllClassified(lines: seq<Line>) { forall l | l in lines :: Classified(l) }

  lemma SilentIsClassified()
    requires forall i | 0 <= i < |SILENT_TEXT| :: AllWritable(SILENT_TEXT[i].groups)
    ensures AllClassified(TextLines(SILENT_TEXT, SILENT_ANSWERS, []))
    ensures First(TextLines(SILENT_TEXT, SILENT_ANSWERS, [])).Some?
    ensures First(TextLines(SILENT_TEXT, SILENT_ANSWERS, [])).value.isHeader
  {
    var t := GroupText(SILENT, []);
    var q := SILENT.questions[0];
    SilentIsReadable(SILENT);
    assert q in SILENT.questions;
    assert SILENT.questions[..0] == [] && QuestionsLines(SILENT.questions) == QuestionsLines([]) + QuestionLines(q);
    assert AllClassified(GroupLines(t));
    assert [t][..0] == [] && GroupsLines([t]) == GroupsLines([]) + GroupLines(t);
    assert SILENT_TEXT[..0] == [] && PartsLines(SILENT_TEXT) == PartsLines([]) + ([PLAIN.(part := Some(1))] + GroupsLines([t]));
    assert AllClassified(PartsLines(SILENT_TEXT));
    assert TextLines(SILENT_TEXT, SILENT_ANSWERS, [])[0] == PLAIN.(isHeader := true);
  }

  /** Importing and saving that text succeeds, and its question is saved without a value. */
  method ImportSilent(order: set<int> -> seq<int>) returns (saved: seq<Part>, issues: seq<Issue>)
    requires Enumerates(order)
    ensures issues == [] && FineParts(saved)
    ensures Valid(saved, 0, 0, 0) && ValuesOf(At(saved, 0, 0, 0).answer) == []
  {
    SilentIsRead();
    SilentIsClassified();
    ghost var r := Flush(ReadAll(START, TextLines(SILENT_TEXT, SILENT_ANSWERS, []), 0));
    SilentIsAccepted(r);
    var parts, builders;
    parts, builders, issues := ParseImport(TextLines(SILENT_TEXT, SILENT_ANSWERS, []), order);
    saved := Normalize(parts);
    SilentIsSaved(r, parts, saved);
  }
}

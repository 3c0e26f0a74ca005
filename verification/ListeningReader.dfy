/**
 Reading an import text line by line. Each line comes with what every pattern makes of it: a line may match several,
 and the reader's state decides which one counts.
 */
module ListeningReader {
  import opened Common
  import opened Sorting
  import opened ListeningImport
  import opened ListeningImportTheorems
  import opened ListeningAnswers
  import opened ListeningSave
  import opened ListeningImportSound

  datatype Section = AnswersSection | ExplanationsSection

  /** A field that is there may hold an unusable value. */
  datatype Field<T> = Absent | Bad | Good(value: T)

  datatype Line = Line(
    isHeader: bool, isBlank: bool, part: Option<nat>, isGroup: bool, section: Option<Section>,
    answer: Option<(int, seq<string>)>, heading: Option<nat>, title: bool, audio: Field<Uuid>,
    range: Field<(nat, nat)>, kind: Option<Kind>, reuse: Field<bool>, image: Field<Uuid>, limit: Option<string>,
    isInstruction: bool, isContent: bool, isOptions: bool, question: Option<(nat, seq<Token>)>, choice: Option<Choice>,
    examType: Field<string>, duration: Field<nat>, tokens: seq<Token>, text: string)

  const PLAIN := Line(false, false, None, false, None, None, None, false, Absent, Absent, None, Absent, Absent, None,
                      false, false, false, None, None, Absent, Absent, [], "")

  datatype Mode =
    | Meta | InPart | InGroup | Instruction | Context | OptionList | QuestionList | AnswerList | ExplanationList | Explanation

  datatype Reader = Reader(
    mode: Mode, parts: seq<Part>, builders: seq<Builder>, inPart: bool, inGroup: bool, current: Option<nat>,
    answers: map<int, Value>, explanations: map<int, Note>, explaining: nat, explained: string, issues: seq<Issue>)

  const START := Reader(Meta, [], [], false, false, None, map[], map[], 0, "", [])

  function Fail(r: Reader, line: nat): Reader { r.(issues := r.issues + [Issue(ReadingError, line, 0)]) }

  /** An explanation ends where another heading begins. */
  function Flush(r: Reader): Reader
  {
    if r.explaining > 0 then
      var note := if r.explaining in r.explanations then r.explanations[r.explaining] else Note("", 0);
      r.(explanations := r.explanations[r.explaining := note.(text := Trim(r.explained))], explaining := 0, explained := "")
    else r.(explained := "")
  }

  /** Changes the group that is being read. */
  function Edit(r: Reader, b: Builder): (e: Reader)
    requires r.builders != []
    ensures |e.builders| == |r.builders| && e.builders[|r.builders| - 1] == b
  {
    r.(builders := r.builders[..|r.builders| - 1] + [b])
  }

  function ReadAnswerLine(r: Reader, l: Line, n: nat): Reader
  {
    if l.answer.None? then Fail(r, n)
    else if l.answer.value.0 in r.answers then Fail(r, n)
    else r.(answers := r.answers[l.answer.value.0 := Value(l.answer.value.1, n)])
  }

  function ReadExplanationLine(r: Reader, l: Line, n: nat): Reader
  {
    if l.heading.Some? then
      var r1 := Flush(r);
      var r2 := if l.heading.value in r1.explanations then Fail(r1, n) else r1;
      r2.(explaining := l.heading.value, explanations := r2.explanations[l.heading.value := Note("", n)], mode := Explanation)
    else if r.explaining > 0 then r.(explained := r.explained + l.text + "\n")
    else Fail(r, n)
  }

  function ReadGroupLine(r: Reader, l: Line, n: nat): Reader
    requires r.builders != []
  {
    var b := r.builders[|r.builders| - 1];
    if !l.range.Absent? then (if l.range.Bad? then Fail(r, n) else Edit(r, b.(start := l.range.value.0, end := l.range.value.1)))
    else if l.kind.Some? then
      var r1 := Edit(r, b.(kind := l.kind.value));
      if Supported(l.kind.value) then r1 else Fail(r1, n)
    else if !l.reuse.Absent? then (if l.reuse.Bad? then Fail(r, n) else r)
    else if !l.image.Absent? then (if l.image.Bad? then Fail(r, n) else r)
    else if l.limit.Some? then Edit(r, b.(limit := l.limit.value))
    else if l.isInstruction then r.(mode := Instruction)
    else if l.isContent then r.(mode := Context)
    else if l.isOptions then r.(mode := OptionList)
    else if l.question.Some? then
      var q := NewQuestion(l.question.value.0, l.question.value.1);
      Edit(r, b.(questions := b.questions + [q])).(current := Some(|b.questions|), mode := QuestionList)
    else if l.choice.Some? && (r.mode.OptionList? || r.mode.QuestionList?) then
      (if r.mode.OptionList? || r.current.None? || r.current.value >= |b.questions| then Edit(r, b.(shared := b.shared + [l.choice.value]))
       else
         var q := b.questions[r.current.value];
         Edit(r, b.(questions := b.questions[r.current.value := q.(options := q.options + [l.choice.value])])))
    else if r.mode.Instruction? then r
    else if r.mode.Context? then Edit(r, b.(context := b.context + [l.tokens]))
    else Fail(r, n)
  }

  /** One line, numbered `n`. */
  function Read(r: Reader, l: Line, n: nat): Reader
  {
    if l.isHeader then r
    else if l.isBlank then (if r.mode.Explanation? then r.(explained := r.explained + "\n") else r)
    else if l.part.Some? then
      Flush(r).(parts := r.parts + [Part(l.part.value, [])], inPart := true, inGroup := false, current := None, mode := InPart)
    else if l.isGroup then
      (if |r.parts| == 0 then Fail(Flush(r), n)
       else Flush(r).(builders := r.builders + [Builder(|r.parts| - 1, n, 0, 0, Missing, "", [], [], [])],
                      inGroup := true, current := None, mode := InGroup))
    else if l.section.Some? then
      Flush(r).(mode := if l.section.value.AnswersSection? then AnswerList else ExplanationList, inGroup := false)
    else if r.mode.AnswerList? then ReadAnswerLine(r, l, n)
    else if r.mode.ExplanationList? || r.mode.Explanation? then ReadExplanationLine(r, l, n)
    else if r.inPart && !r.inGroup && l.title then r
    else if r.inPart && !r.inGroup && !l.audio.Absent? then (if l.audio.Bad? then Fail(r, n) else r)
    else if r.inGroup && r.builders != [] then ReadGroupLine(r, l, n)
    else if l.title then r
    else if !l.examType.Absent? then (if l.examType.Bad? then Fail(r, n) else r)
    else if !l.duration.Absent? then (if l.duration.Bad? then Fail(r, n) else r)
    else Fail(r, n)
  }

  /** Line after line; the first one has number `from + 1`. */
  function OneByOne<S>(step: (S, Line, nat) -> S, s: S, lines: seq<Line>, from: nat): S
  {
    if lines == [] then s
    else step(OneByOne(step, s, lines[..|lines| - 1], from), lines[|lines| - 1], from + |lines|)
  }

  function ReadAll(r: Reader, lines: seq<Line>, from: nat): Reader { OneByOne(Read, r, lines, from) }

  // ---- Lines that match more than one pattern. ----

  /** These lines count wherever they stand. */
  predicate IsMark(l: Line) { l.isHeader || l.isBlank || l.part.Some? || l.isGroup || l.section.Some? }

  /** The line is none of those that count inside a group, whatever its text looks like otherwise. */
  predicate Kept(l: Line)
  {
    && !IsMark(l) && l.range.Absent? && l.kind.None? && l.reuse.Absent? && l.image.Absent?
    && l.limit.None? && !l.isInstruction && !l.isContent && !l.isOptions && l.question.None?
  }

  lemma OthersLeaveContext(r: Reader, l: Line, n: nat)
    requires r.builders != [] && r.mode.Context? && !IsMark(l) && !Kept(l)
    ensures var r', k := ReadGroupLine(r, l, n), |r.builders| - 1;
            |r'.builders| == |r.builders| && r'.builders[k].context == r.builders[k].context
  {
    if !l.range.Absent? || l.kind.Some? {
      FieldsLeaveContext(r, l, n);
    }
  }

  lemma FieldsLeaveContext(r: Reader, l: Line, n: nat)
    requires r.builders != [] && (!l.range.Absent? || l.kind.Some?)
    ensures var r', k := ReadGroupLine(r, l, n), |r.builders| - 1;
            |r'.builders| == |r.builders| && r'.builders[k].context == r.builders[k].context
  {}

  /**
   While the context of a group is read, a line is added to it exactly when it is none of the lines that count inside
   a group. A line that looks like an option, a title or an answer is added, one that looks like a question is not.
   */
  lemma ContextTakesExactly(r: Reader, l: Line, n: nat)
    requires r.inGroup && r.builders != [] && r.mode.Context?
    ensures var b := r.builders[|r.builders| - 1];
            Kept(l) <==> Read(r, l, n) == Edit(r, b.(context := b.context + [l.tokens]))
  {
    var b, k := r.builders[|r.builders| - 1], |r.builders| - 1;
    var kept := Edit(r, b.(context := b.context + [l.tokens]));
    assert |kept.builders| == |r.builders| && |kept.builders[k].context| == |b.context| + 1;
    if !Kept(l) && !IsMark(l) {
      OthersLeaveContext(r, l, n);
    }
  }

  // ---- What reading guarantees. ----

  /** A question line has something to ask: the pattern demands it. */
  ghost predicate Classified(l: Line)
  {
    l.question.Some? ==> !Blank(l.question.value.1)
  }

  /** Groups belong to parts; without an issue so far, their types are usable and their questions have prompts. */
  ghost predicate ReaderOk(r: Reader)
  {
    && (forall p | p in r.parts :: p.groups == [])
    && (forall i | 0 <= i < |r.builders| :: r.builders[i].part < |r.parts|)
    && (r.inGroup ==> r.builders != []) && (r.inPart <==> r.parts != [])
    && (r.current.Some? ==> r.builders != [] && r.current.value < |r.builders[|r.builders| - 1].questions|)
    && (r.issues == [] ==> forall i | 0 <= i < |r.builders| :: Readable(r.builders[i]))
    && NoPlaceholderRepeated(r.issues)
  }

  lemma EditKeeps(r: Reader, b: Builder)
    requires ReaderOk(r) && r.builders != [] && b.part == r.builders[|r.builders| - 1].part
    requires |b.questions| >= |r.builders[|r.builders| - 1].questions| && (r.issues == [] ==> Readable(b))
    ensures ReaderOk(Edit(r, b)) && Edit(r, b).issues == r.issues
  {
    var r' := Edit(r, b);
    forall i | 0 <= i < |r'.builders|
      ensures r'.builders[i].part < |r'.parts| && (r.issues == [] ==> Readable(r'.builders[i]))
    {
      if i < |r.builders| - 1 { assert r'.builders[i] == r.builders[i]; }
    }
  }

  lemma FailKeeps(r: Reader, n: nat)
    requires ReaderOk(r)
    ensures ReaderOk(Fail(r, n)) && r.issues <= Fail(r, n).issues != []
  {
  }

  lemma ReadKindKeeps(r: Reader, l: Line, n: nat)
    requires ReaderOk(r) && r.inGroup && l.range.Absent? && l.kind.Some?
    ensures ReaderOk(ReadGroupLine(r, l, n)) && r.issues <= ReadGroupLine(r, l, n).issues
  {
    var b := r.builders[|r.builders| - 1].(kind := l.kind.value);
    if Supported(l.kind.value) {
      EditKeeps(r, b);
    } else {
      FailKeeps(r, n);
      EditKeeps(Fail(r, n), b);
      assert Fail(Edit(r, b), n) == Edit(Fail(r, n), b);
    }
  }

  lemma ReadQuestionKeeps(r: Reader, question: (nat, seq<Token>))
    requires ReaderOk(r) && r.inGroup && !Blank(question.1)
    ensures var b := r.builders[|r.builders| - 1];
            var q := NewQuestion(question.0, question.1);
            ReaderOk(Edit(r, b.(questions := b.questions + [q])).(current := Some(|b.questions|), mode := QuestionList))
  {
    var b := r.builders[|r.builders| - 1];
    EditKeeps(r, b.(questions := b.questions + [NewQuestion(question.0, question.1)]));
  }

  lemma ReadChoiceKeeps(r: Reader, choice: Choice)
    requires ReaderOk(r) && r.inGroup
    ensures var b := r.builders[|r.builders| - 1];
            && ReaderOk(Edit(r, b.(shared := b.shared + [choice])))
            && (r.current.Some? ==>
                  var q := b.questions[r.current.value];
                  ReaderOk(Edit(r, b.(questions := b.questions[r.current.value := q.(options := q.options + [choice])]))))
  {
    var b := r.builders[|r.builders| - 1];
    EditKeeps(r, b.(shared := b.shared + [choice]));
    if r.current.Some? {
      var q := b.questions[r.current.value];
      assert q in b.questions;
      EditKeeps(r, b.(questions := b.questions[r.current.value := q.(options := q.options + [choice])]));
    }
  }

  lemma ReadGroupLineKeeps(r: Reader, l: Line, n: nat)
    requires ReaderOk(r) && Classified(l) && r.inGroup
    ensures ReaderOk(ReadGroupLine(r, l, n)) && r.issues <= ReadGroupLine(r, l, n).issues
  {
    var b := r.builders[|r.builders| - 1];
    if !l.range.Absent? {
      if l.range.Bad? { FailKeeps(r, n); } else { EditKeeps(r, b.(start := l.range.value.0, end := l.range.value.1)); }
    } else if l.kind.Some? {
      ReadKindKeeps(r, l, n);
    } else {
      ReadOtherKeeps(r, l, n);
    }
  }

  lemma ReadTextKeeps(r: Reader, l: Line, n: nat)
    requires ReaderOk(r) && Classified(l) && r.inGroup && l.range.Absent? && l.kind.None? && l.reuse.Absent? && l.image.Absent?
    requires l.limit.None? && !l.isInstruction && !l.isContent && !l.isOptions
    ensures ReaderOk(ReadGroupLine(r, l, n)) && r.issues <= ReadGroupLine(r, l, n).issues
  {
    var b := r.builders[|r.builders| - 1];
    if l.question.Some? {
      ReadQuestionKeeps(r, l.question.value);
    } else if l.choice.Some? && (r.mode.OptionList? || r.mode.QuestionList?) {
      ReadChoiceKeeps(r, l.choice.value);
    } else {
      EditKeeps(r, b.(context := b.context + [l.tokens]));
      FailKeeps(r, n);
    }
  }

  lemma ReadOtherKeeps(r: Reader, l: Line, n: nat)
    requires ReaderOk(r) && Classified(l) && r.inGroup && l.range.Absent? && l.kind.None?
    ensures ReaderOk(ReadGroupLine(r, l, n)) && r.issues <= ReadGroupLine(r, l, n).issues
  {
    var b := r.builders[|r.builders| - 1];
    if !l.reuse.Absent? || !l.image.Absent? {
      FailKeeps(r, n);
    } else if l.limit.Some? {
      EditKeeps(r, b.(limit := l.limit.value));
    } else if l.isInstruction || l.isContent || l.isOptions {
    } else {
      ReadTextKeeps(r, l, n);
    }
  }

  lemma FlushKeeps(r: Reader)
    requires ReaderOk(r)
    ensures ReaderOk(Flush(r)) && Flush(r).issues == r.issues
  {
  }

  lemma StartPartKeeps(r: Reader, position: nat)
    requires ReaderOk(r)
    ensures ReaderOk(r.(parts := r.parts + [Part(position, [])], inPart := true, inGroup := false, current := None, mode := InPart))
  {
  }

  lemma StartGroupKeeps(r: Reader, n: nat)
    requires ReaderOk(r) && r.parts != []
    ensures ReaderOk(r.(builders := r.builders + [Builder(|r.parts| - 1, n, 0, 0, Missing, "", [], [], [])],
                        inGroup := true, current := None, mode := InGroup))
  {
  }

  lemma ReadAnswerLineKeeps(r: Reader, l: Line, n: nat)
    requires ReaderOk(r)
    ensures ReaderOk(ReadAnswerLine(r, l, n)) && r.issues <= ReadAnswerLine(r, l, n).issues
  {
    FailKeeps(r, n);
  }

  lemma ReadHeadingKeeps(r: Reader, heading: nat, n: nat)
    requires ReaderOk(r)
    ensures var r1 := Flush(r);
            var r2 := if heading in r1.explanations then Fail(r1, n) else r1;
            var r3 := r2.(explaining := heading, explanations := r2.explanations[heading := Note("", n)], mode := Explanation);
            ReaderOk(r3) && r.issues <= r3.issues
  {
    FlushKeeps(r);
    FailKeeps(Flush(r), n);
  }

  lemma ReadExplanationLineKeeps(r: Reader, l: Line, n: nat)
    requires ReaderOk(r)
    ensures ReaderOk(ReadExplanationLine(r, l, n)) && r.issues <= ReadExplanationLine(r, l, n).issues
  {
    if l.heading.Some? {
      ReadHeadingKeeps(r, l.heading.value, n);
    } else {
      FailKeeps(r, n);
    }
  }

  lemma ReadGroupMarkKeeps(r: Reader, l: Line, n: nat)
    requires ReaderOk(r) && l.isGroup && !l.isHeader && !l.isBlank && l.part.None?
    ensures ReaderOk(Read(r, l, n)) && r.issues <= Read(r, l, n).issues
  {
    FlushKeeps(r);
    if |r.parts| == 0 { FailKeeps(Flush(r), n); } else { StartGroupKeeps(Flush(r), n); }
  }

  lemma BlankKeeps(r: Reader)
    requires ReaderOk(r)
    ensures ReaderOk(r.(explained := r.explained + "\n"))
  {
  }

  lemma StartSectionKeeps(r: Reader, section: Section)
    requires ReaderOk(r)
    ensures ReaderOk(r.(mode := if section.AnswersSection? then AnswerList else ExplanationList, inGroup := false))
  {
  }

  lemma ReadMarkKeeps(r: Reader, l: Line, n: nat)
    requires ReaderOk(r) && IsMark(l)
    ensures ReaderOk(Read(r, l, n)) && r.issues <= Read(r, l, n).issues
  {
    FlushKeeps(r);
    if l.isHeader || l.isBlank {
      BlankKeeps(r);
    } else if l.part.Some? {
      StartPartKeeps(Flush(r), l.part.value);
    } else if l.isGroup {
      ReadGroupMarkKeeps(r, l, n);
    } else {
      StartSectionKeeps(Flush(r), l.section.value);
    }
  }

  lemma ReadKeeps(r: Reader, l: Line, n: nat)
    requires ReaderOk(r) && Classified(l)
    ensures ReaderOk(Read(r, l, n)) && r.issues <= Read(r, l, n).issues
  {
    if IsMark(l) {
      ReadMarkKeeps(r, l, n);
    } else if r.mode.AnswerList? {
      ReadAnswerLineKeeps(r, l, n);
    } else if r.mode.ExplanationList? || r.mode.Explanation? {
      ReadExplanationLineKeeps(r, l, n);
    } else if r.inGroup {
      ReadGroupLineKeeps(r, l, n);
    } else {
      FailKeeps(r, n);
    }
  }

  lemma {:induction false} ReadAllKeeps(lines: seq<Line>, from: nat)
    requires forall l | l in lines :: Classified(l)
    ensures ReaderOk(ReadAll(START, lines, from))
  {
    if lines != [] {
      ReadAllKeeps(lines[..|lines| - 1], from);
      ReadKeeps(ReadAll(START, lines[..|lines| - 1], from), lines[|lines| - 1], from + |lines|);
    }
  }
}

/** Attaching the answers and explanations of an import to the questions they are for. */
module ListeningAnswers {
  import opened Common
  import opened ListeningImport
  import opened ListeningImportTheorems

  /** The values of an answer line, split and trimmed: there may be none. */
  datatype Value = Value(values: seq<string>, line: nat)
  datatype Note = Note(text: string, line: nat)

  function Upper(s: string): string
  {
    seq(|s|, i requires 0 <= i < |s| => if 'a' <= s[i] <= 'z' then s[i] - 'a' + 'A' else s[i])
  }

  function UpperAll(values: seq<string>): seq<string>
  {
    seq(|values|, i requires 0 <= i < |values| => Upper(values[i]))
  }

  function AnswerOf(kind: Kind, values: seq<string>): Answer
  {
    if Choosing(kind) then (if |values| == 1 then OptionId(Upper(values[0])) else OptionIds(UpperAll(values)))
    else Accepted(values)
  }

  function ValuesOf(a: Answer): seq<string>
  {
    match a
    case NoAnswer => []
    case OptionId(id) => [id]
    case OptionIds(ids) => ids
    case Accepted(values) => values
  }

  /** An answer always counts as given and has as many values as its line: none, when the line is separators only. */
  lemma AnswerHasItsValues(kind: Kind, values: seq<string>)
    ensures !AnswerOf(kind, values).NoAnswer?
    ensures ValuesOf(AnswerOf(kind, values)) == if Choosing(kind) then UpperAll(values) else values
  {
    if |values| == 1 { assert UpperAll(values) == [Upper(values[0])]; }
  }

  function Ids(choices: seq<Choice>): set<string> { set c | c in choices :: c.id }

  /** The question's own options, or else those of its group. */
  function Options(q: Question, g: Group): seq<Choice> { if q.options == [] then g.shared else q.options }

  predicate Allowed(q: Question, g: Group, values: seq<string>)
  {
    Options(q, g) != [] && forall v | v in UpperAll(values) :: v in Ids(Options(q, g))
  }

  // ---- The test with the answers in place. ----

  function With(q: Question, kind: Kind, answers: map<int, Value>, explanations: map<int, Note>): Question
  {
    var answered := if q.number in answers then q.(answer := AnswerOf(kind, answers[q.number].values)) else q;
    if q.number in explanations then answered.(explanation := explanations[q.number].text) else answered
  }

  /** The parts differ from the earlier ones in answers and explanations only, and there as the two maps say. */
  ghost predicate Answered(before: seq<Part>, after: seq<Part>, answers: map<int, Value>, explanations: map<int, Note>)
  {
    && |after| == |before|
    && forall p | 0 <= p < |before| :: AnsweredPart(before[p], after[p], answers, explanations)
  }

  ghost predicate AnsweredPart(before: Part, after: Part, answers: map<int, Value>, explanations: map<int, Note>)
  {
    && after.position == before.position && |after.groups| == |before.groups|
    && forall g | 0 <= g < |before.groups| :: AnsweredGroup(before.groups[g], after.groups[g], answers, explanations)
  }

  ghost predicate AnsweredGroup(before: Group, after: Group, answers: map<int, Value>, explanations: map<int, Note>)
  {
    && after == before.(questions := after.questions) && |after.questions| == |before.questions|
    && forall i | 0 <= i < |before.questions| ::
         after.questions[i] == With(before.questions[i], before.kind, answers, explanations)
  }

  lemma AnsweredAt(before: seq<Part>, after: seq<Part>, answers: map<int, Value>, explanations: map<int, Note>, p: nat, g: nat, i: nat)
    requires Answered(before, after, answers, explanations) && Valid(before, p, g, i)
    ensures Valid(after, p, g, i)
    ensures At(after, p, g, i) == With(At(before, p, g, i), before[p].groups[g].kind, answers, explanations)
    ensures after[p].groups[g] == before[p].groups[g].(questions := after[p].groups[g].questions)
  {
    assert AnsweredPart(before[p], after[p], answers, explanations);
    assert AnsweredGroup(before[p].groups[g], after[p].groups[g], answers, explanations);
  }

  function Put(parts: seq<Part>, r: Ref, q: Question): seq<Part>
    requires r.part < |parts| && r.group < |parts[r.part].groups| && r.question < |parts[r.part].groups[r.group].questions|
  {
    var part := parts[r.part];
    var group := part.groups[r.group];
    parts[r.part := part.(groups := part.groups[r.group := group.(questions := group.questions[r.question := q])])]
  }

  /** Only the question of number `n` changes when the maps change at `n` only. */
  lemma PutAnswers(before: seq<Part>, after: seq<Part>, refs: map<int, Ref>, n: int,
                   answers: map<int, Value>, explanations: map<int, Note>,
                   answers': map<int, Value>, explanations': map<int, Note>, q: Question)
    requires Exact(before, refs) && Answered(before, after, answers, explanations) && n in refs
    requires forall k | k != n :: (k in answers <==> k in answers') && (k in explanations <==> k in explanations')
    requires forall k | k != n && k in answers :: answers'[k] == answers[k]
    requires forall k | k != n && k in explanations :: explanations'[k] == explanations[k]
    requires Valid(before, refs[n].part, refs[n].group, refs[n].question)
    requires Valid(after, refs[n].part, refs[n].group, refs[n].question)
    requires q == With(At(before, refs[n].part, refs[n].group, refs[n].question),
                       before[refs[n].part].groups[refs[n].group].kind, answers', explanations')
    ensures Answered(before, Put(after, refs[n], q), answers', explanations')
  {
    var r, put := refs[n], Put(after, refs[n], q);
    forall p: nat | p < |before| ensures AnsweredPart(before[p], put[p], answers', explanations') {
      assert AnsweredPart(before[p], after[p], answers, explanations);
      forall g: nat | g < |before[p].groups|
        ensures AnsweredGroup(before[p].groups[g], put[p].groups[g], answers', explanations')
      {
        assert AnsweredGroup(before[p].groups[g], after[p].groups[g], answers, explanations);
        forall i: nat | i < |before[p].groups[g].questions|
          ensures put[p].groups[g].questions[i] == With(before[p].groups[g].questions[i], before[p].groups[g].kind, answers', explanations')
        {
          assert Valid(before, p, g, i);
          var number := At(before, p, g, i).number;
          if number == n {
            assert r.part == p && r.group == g && r.question == i;
          } else {
            assert r.part != p || r.group != g || r.question != i;
          }
        }
      }
    }
  }

  lemma NothingAnswered(parts: seq<Part>)
    ensures Answered(parts, parts, map[], map[])
  {
  }

  /** Nothing is wrong with the answers and explanations. */
  ghost predicate Fit(parts: seq<Part>, refs: map<int, Ref>, answers: map<int, Value>, explanations: map<int, Note>)
    requires Exact(parts, refs)
  {
    && (forall n | n in answers :: n in refs && Suits(parts, refs[n], answers[n]))
    && (forall n | n in refs :: n in answers) && (forall n | n in explanations :: n in refs)
  }

  ghost predicate Suits(parts: seq<Part>, r: Ref, v: Value)
    requires Valid(parts, r.part, r.group, r.question)
  {
    var g := parts[r.part].groups[r.group];
    Choosing(g.kind) ==> Allowed(At(parts, r.part, r.group, r.question), g, v.values)
  }

  // ---- The three passes. ----

  /** The order in which a map's keys are visited is arbitrary, but each comes once. */
  ghost predicate Visits<V>(order: seq<int>, m: map<int, V>)
  {
    (forall n :: n in order <==> n in m) && forall i, j | 0 <= i < j < |order| :: order[i] != order[j]
  }

  function Restrict<V>(m: map<int, V>, keys: seq<int>): map<int, V> { map n | n in m && n in keys :: m[n] }

  ghost predicate SameMap<V>(a: map<int, V>, b: map<int, V>)
  {
    (forall n :: n in a <==> n in b) && forall n | n in a :: a[n] == b[n]
  }

  lemma SameAnswers(before: seq<Part>, after: seq<Part>, answers: map<int, Value>, explanations: map<int, Note>,
                    answers': map<int, Value>, explanations': map<int, Note>)
    requires Answered(before, after, answers, explanations)
    requires SameMap(answers, answers') && SameMap(explanations, explanations')
    ensures Answered(before, after, answers', explanations')
  {
    forall p | 0 <= p < |before| ensures AnsweredPart(before[p], after[p], answers', explanations') {
      assert AnsweredPart(before[p], after[p], answers, explanations);
      forall g | 0 <= g < |before[p].groups|
        ensures AnsweredGroup(before[p].groups[g], after[p].groups[g], answers', explanations')
      {
        assert AnsweredGroup(before[p].groups[g], after[p].groups[g], answers, explanations);
      }
    }
  }

  /** What a pass has still to do shows up in one more key at a time. */
  lemma RestrictMore<V>(m: map<int, V>, order: seq<int>, i: nat)
    requires i < |order| && order[i] in m
    ensures Restrict(m, order[..i + 1]) == Restrict(m, order[..i])[order[i] := m[order[i]]]
  {
    assert order[..i + 1] == order[..i] + [order[i]];
  }

  lemma RestrictSame<V>(m: map<int, V>, order: seq<int>, i: nat)
    requires i < |order| && order[i] !in m
    ensures Restrict(m, order[..i + 1]) == Restrict(m, order[..i])
  {
    assert order[..i + 1] == order[..i] + [order[i]];
  }

  /** The answers that have a question. */
  function Known(answers: map<int, Value>, refs: map<int, Ref>): map<int, Value>
  {
    map n | n in answers && n in refs :: answers[n]
  }

  method ReadAnswer(g: Group, q: Question, v: Value) returns (answer: Answer, fits: bool)
    ensures answer == AnswerOf(g.kind, v.values)
    ensures fits <==> (Choosing(g.kind) ==> Allowed(q, g, v.values))
  {
    if !Choosing(g.kind) { return Accepted(v.values), true; }
    var values := UpperAll(v.values);
    if |values| == 1 { answer := OptionId(values[0]); } else { answer := OptionIds(values); }
    var options := if q.options == [] then g.shared else q.options;
    var allowed := Ids(options);
    fits := options != [];
    for i := 0 to |values|
      invariant fits <==> options != [] && forall v | v in values[..i] :: v in allowed
    {
      assert values[..i + 1] == values[..i] + [values[i]];
      if values[i] !in allowed { fits := false; }
    }
    assert values[..|values|] == values;
  }

  /** One answer goes to its question. */
  method GiveOne(ghost parts0: seq<Part>, parts1: seq<Part>, refs: map<int, Ref>, n: int, v: Value,
                 ghost before: map<int, Value>, ghost after: map<int, Value>)
    returns (parts: seq<Part>, fits: bool)
    requires Exact(parts0, refs) && n in refs && Answered(parts0, parts1, before, map[]) && after == before[n := v]
    ensures Answered(parts0, parts, after, map[])
    ensures fits <==> Suits(parts0, refs[n], v)
  {
    var ref := refs[n];
    assert Valid(parts0, ref.part, ref.group, ref.question);
    AnsweredAt(parts0, parts1, before, map[], ref.part, ref.group, ref.question);
    var g := parts1[ref.part].groups[ref.group];
    var q := g.questions[ref.question];
    var answer;
    answer, fits := ReadAnswer(g, q, v);
    PutAnswers(parts0, parts1, refs, n, before, map[], after, map[], q.(answer := answer));
    parts := Put(parts1, ref, q.(answer := answer));
  }

  method GiveAnswers(parts0: seq<Part>, issues0: seq<Issue>, refs: map<int, Ref>, answers: map<int, Value>, order: seq<int>)
    returns (parts: seq<Part>, issues: seq<Issue>)
    requires Exact(parts0, refs) && Visits(order, answers)
    ensures Answered(parts0, parts, Known(answers, refs), map[]) && issues0 <= issues
    ensures NoPlaceholderRepeated(issues0) ==> NoPlaceholderRepeated(issues)
    ensures issues == issues0 <==> forall n | n in answers :: n in refs && Suits(parts0, refs[n], answers[n])
  {
    parts, issues := parts0, issues0;
    ghost var known := Known(answers, refs);
    NothingAnswered(parts0);
    for i := 0 to |order|
      invariant Answered(parts0, parts, Restrict(known, order[..i]), map[]) && issues0 <= issues
      invariant issues == issues0 <==> forall n | n in order[..i] :: n in refs && Suits(parts0, refs[n], answers[n])
      invariant NoPlaceholderRepeated(issues0) ==> NoPlaceholderRepeated(issues)
    {
      var n := order[i];
      assert order[..i + 1] == order[..i] + [n] && n in answers;
      if n !in refs {
        issues := issues + [Issue(UnknownQuestionNumber, answers[n].line, n)];
        SameAnswers(parts0, parts, Restrict(known, order[..i]), map[], Restrict(known, order[..i + 1]), map[]);
        continue;
      }
      RestrictMore(known, order, i);
      var fits;
      parts, fits := GiveOne(parts0, parts, refs, n, answers[n], Restrict(known, order[..i]), Restrict(known, order[..i + 1]));
      if !fits { issues := issues + [Issue(InvalidAnswer, answers[n].line, n)]; }
    }
    assert order[..|order|] == order;
    SameAnswers(parts0, parts, Restrict(known, order), map[], known, map[]);
  }

  function Explained(refs: map<int, Ref>, explanations: map<int, Note>): map<int, Note>
  {
    map n | n in explanations && n in refs :: explanations[n]
  }

  /** One explanation goes to its question. */
  method ExplainOne(ghost parts0: seq<Part>, parts1: seq<Part>, refs: map<int, Ref>, n: int, note: Note,
                    ghost known: map<int, Value>, ghost before: map<int, Note>, ghost after: map<int, Note>)
    returns (parts: seq<Part>)
    requires Exact(parts0, refs) && n in refs && Answered(parts0, parts1, known, before) && after == before[n := note]
    ensures Answered(parts0, parts, known, after)
  {
    var ref := refs[n];
    assert Valid(parts0, ref.part, ref.group, ref.question);
    AnsweredAt(parts0, parts1, known, before, ref.part, ref.group, ref.question);
    var q := parts1[ref.part].groups[ref.group].questions[ref.question];
    PutAnswers(parts0, parts1, refs, n, known, before, known, after, q.(explanation := note.text));
    parts := Put(parts1, ref, q.(explanation := note.text));
  }

  method GiveExplanations(parts0: seq<Part>, parts1: seq<Part>, issues0: seq<Issue>, refs: map<int, Ref>,
                          answers: map<int, Value>, explanations: map<int, Note>, order: seq<int>)
    returns (parts: seq<Part>, issues: seq<Issue>)
    requires Exact(parts0, refs) && Visits(order, refs) && Answered(parts0, parts1, Known(answers, refs), map[])
    ensures Answered(parts0, parts, Known(answers, refs), Explained(refs, explanations)) && issues0 <= issues
    ensures NoPlaceholderRepeated(issues0) ==> NoPlaceholderRepeated(issues)
    ensures issues == issues0 <==> forall n | n in refs :: n in answers
  {
    parts, issues := parts1, issues0;
    ghost var known, explained := Known(answers, refs), Explained(refs, explanations);
    for i := 0 to |order|
      invariant Answered(parts0, parts, known, Restrict(explained, order[..i])) && issues0 <= issues
      invariant issues == issues0 <==> forall n | n in order[..i] :: n in answers
      invariant NoPlaceholderRepeated(issues0) ==> NoPlaceholderRepeated(issues)
    {
      var n := order[i];
      assert order[..i + 1] == order[..i] + [n] && n in refs;
      var ref := refs[n];
      if n !in answers { issues := issues + [Issue(AnswerMissing, ref.line, n)]; }
      if n in explanations {
        RestrictMore(explained, order, i);
        parts := ExplainOne(parts0, parts, refs, n, explanations[n], known, Restrict(explained, order[..i]),
                            Restrict(explained, order[..i + 1]));
      } else {
        RestrictSame(explained, order, i);
      }
    }
    assert order[..|order|] == order;
    SameAnswers(parts0, parts, known, Restrict(explained, order), known, explained);
  }

  method CheckExplanations(issues0: seq<Issue>, refs: map<int, Ref>, explanations: map<int, Note>, order: seq<int>)
    returns (issues: seq<Issue>)
    requires Visits(order, explanations)
    ensures issues0 <= issues && (issues == issues0 <==> forall n | n in explanations :: n in refs)
    ensures NoPlaceholderRepeated(issues0) ==> NoPlaceholderRepeated(issues)
  {
    issues := issues0;
    for i := 0 to |order|
      invariant issues0 <= issues && (issues == issues0 <==> forall n | n in order[..i] :: n in refs)
      invariant NoPlaceholderRepeated(issues0) ==> NoPlaceholderRepeated(issues)
    {
      var n := order[i];
      assert order[..i + 1] == order[..i] + [n] && n in order;
      if n !in refs { issues := issues + [Issue(UnknownExplanationQuestion, explanations[n].line, n)]; }
    }
    assert order[..|order|] == order;
  }

  /**
   Answers and explanations go to the questions of their numbers and change nothing else, in whatever order the maps
   are visited; an issue is raised exactly when something does not fit.
   */
  method ApplyAnswers(parts0: seq<Part>, issues0: seq<Issue>, refs: map<int, Ref>,
                      answers: map<int, Value>, explanations: map<int, Note>,
                      answerOrder: seq<int>, refOrder: seq<int>, explanationOrder: seq<int>)
    returns (parts: seq<Part>, issues: seq<Issue>)
    requires Exact(parts0, refs)
    requires Visits(answerOrder, answers) && Visits(refOrder, refs) && Visits(explanationOrder, explanations)
    ensures Answered(parts0, parts, Known(answers, refs), Explained(refs, explanations)) && issues0 <= issues
    ensures NoPlaceholderRepeated(issues0) ==> NoPlaceholderRepeated(issues)
    ensures issues == issues0 <==> Fit(parts0, refs, answers, explanations)
  {
    var parts1, issues1 := GiveAnswers(parts0, issues0, refs, answers, answerOrder);
    var parts2, issues2 := GiveExplanations(parts0, parts1, issues1, refs, answers, explanations, refOrder);
    parts := parts2;
    issues := CheckExplanations(issues2, refs, explanations, explanationOrder);
  }
}

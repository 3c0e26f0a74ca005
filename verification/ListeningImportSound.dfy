/** An import without issues is a test that saving accepts, numbered as its groups say. */
module ListeningImportSound {
  import opened Common
  import opened Sorting
  import opened ListeningImport
  import opened ListeningImportTheorems
  import opened ListeningAnswers
  import opened ListeningSave

  // ---- What validation accepts, said without its order. ----

  ghost predicate GroupAt(ps: seq<Part>, p: nat, g: nat) { p < |ps| && g < |ps[p].groups| }

  ghost predicate AllSane(ps: seq<Part>)
  {
    && (forall p: nat, g: nat | GroupAt(ps, p, g) :: Supported(ps[p].groups[g].kind))
    && (forall p: nat, g: nat, i: nat | Valid(ps, p, g, i) :: Sane(At(ps, p, g, i)))
  }

  /** A number is found in one place only. */
  ghost predicate Unique(ps: seq<Part>)
  {
    forall p: nat, g: nat, i: nat, p': nat, g': nat, i': nat |
      Valid(ps, p, g, i) && Valid(ps, p', g', i') && At(ps, p, g, i).number == At(ps, p', g', i').number ::
      p == p' && g == g' && i == i'
  }

  lemma {:induction false} GroupNumbers(gs: seq<Group>, n: int)
    ensures n in NumbersOfGroups(gs) <==> exists g: nat, i: nat :: g < |gs| && i < |gs[g].questions| && gs[g].questions[i].number == n
  {
    if gs != [] {
      var front, last := gs[..|gs| - 1], gs[|gs| - 1];
      GroupNumbers(front, n);
      if n in NumbersOf(last.questions) {
        var i: nat :| i < |last.questions| && last.questions[i].number == n;
        assert gs[|gs| - 1].questions[i].number == n;
      }
      if g: nat, i: nat :| g < |gs| && i < |gs[g].questions| && gs[g].questions[i].number == n {
        if g < |front| { assert front[g].questions[i].number == n; } else { assert last.questions[i] in last.questions; }
      }
      if g: nat, i: nat :| g < |front| && i < |front[g].questions| && front[g].questions[i].number == n {
        assert gs[g].questions[i].number == n;
      }
    }
  }

  lemma {:induction false} PartNumbers(ps: seq<Part>, n: int)
    ensures n in NumbersOfParts(ps) <==> exists p: nat, g: nat, i: nat :: Valid(ps, p, g, i) && At(ps, p, g, i).number == n
  {
    if ps != [] {
      var front, last := ps[..|ps| - 1], ps[|ps| - 1];
      PartNumbers(front, n);
      GroupNumbers(last.groups, n);
      if n in NumbersOfGroups(last.groups) {
        var g: nat, i: nat :| g < |last.groups| && i < |last.groups[g].questions| && last.groups[g].questions[i].number == n;
        assert Valid(ps, |ps| - 1, g, i) && At(ps, |ps| - 1, g, i).number == n;
      }
      if p: nat, g: nat, i: nat :| Valid(ps, p, g, i) && At(ps, p, g, i).number == n {
        if p < |front| { assert Valid(front, p, g, i) && At(front, p, g, i).number == n; }
      }
      if p: nat, g: nat, i: nat :| Valid(front, p, g, i) && At(front, p, g, i).number == n {
        assert Valid(ps, p, g, i) && At(ps, p, g, i).number == n;
      }
    }
  }

  /** Groups are fine when their questions are sane, differ, and are new. */
  lemma {:induction false} UniqueGroupsAreFine(gs: seq<Group>, seen: set<int>)
    requires forall g | 0 <= g < |gs| :: Supported(gs[g].kind)
    requires forall g: nat, i: nat | g < |gs| && i < |gs[g].questions| ::
               Sane(gs[g].questions[i]) && gs[g].questions[i].number !in seen
    requires forall g: nat, i: nat, h: nat, j: nat |
               g < |gs| && i < |gs[g].questions| && h < |gs| && j < |gs[h].questions| &&
               gs[g].questions[i].number == gs[h].questions[j].number :: g == h && i == j
    ensures FineGroups(gs, seen)
  {
    if gs != [] {
      var front, last := gs[..|gs| - 1], gs[|gs| - 1];
      UniqueGroupsAreFine(front, seen);
      forall i | 0 <= i < |last.questions| ensures last.questions[i].number !in NumbersOfGroups(front) {
        GroupNumbers(front, last.questions[i].number);
        assert last == gs[|gs| - 1];
      }
    }
  }

  lemma {:induction false} UniquePartsAreFine(ps: seq<Part>)
    requires AllSane(ps) && Unique(ps)
    ensures FineParts(ps)
  {
    if ps != [] {
      var front, last, k := ps[..|ps| - 1], ps[|ps| - 1], |ps| - 1;
      forall p: nat, g: nat | GroupAt(front, p, g) ensures Supported(front[p].groups[g].kind) { assert GroupAt(ps, p, g); }
      forall p: nat, g: nat, i: nat | Valid(front, p, g, i) ensures Sane(At(front, p, g, i)) { assert Valid(ps, p, g, i); }
      forall p: nat, g: nat, i: nat, p': nat, g': nat, i': nat |
        Valid(front, p, g, i) && Valid(front, p', g', i') && At(front, p, g, i).number == At(front, p', g', i').number
        ensures p == p' && g == g' && i == i'
      {
        assert Valid(ps, p, g, i) && Valid(ps, p', g', i') && At(ps, p, g, i).number == At(ps, p', g', i').number;
      }
      UniquePartsAreFine(front);
      forall g: nat, i: nat | g < |last.groups| && i < |last.groups[g].questions|
        ensures Sane(last.groups[g].questions[i]) && last.groups[g].questions[i].number !in NumbersOfParts(front)
      {
        assert Valid(ps, k, g, i);
        var n := At(ps, k, g, i).number;
        PartNumbers(front, n);
        forall p: nat, h: nat, j: nat | Valid(front, p, h, j) ensures At(front, p, h, j).number != n {
          assert Valid(ps, p, h, j) && At(ps, p, h, j) == At(front, p, h, j);
        }
      }
      forall g | 0 <= g < |last.groups| ensures Supported(last.groups[g].kind) { assert GroupAt(ps, k, g); }
      forall g: nat, i: nat, h: nat, j: nat |
        g < |last.groups| && i < |last.groups[g].questions| && h < |last.groups| && j < |last.groups[h].questions| &&
        last.groups[g].questions[i].number == last.groups[h].questions[j].number
        ensures g == h && i == j
      {
        assert Valid(ps, k, g, i) && Valid(ps, k, h, j) && At(ps, k, g, i).number == At(ps, k, h, j).number;
      }
      UniqueGroupsAreFine(last.groups, NumbersOfParts(front));
    }
  }

  // ---- Prompts. ----

  /** What reading guarantees of a group once it has raised no issue. */
  ghost predicate Readable(b: Builder)
  {
    (b.kind.Missing? || Supported(b.kind)) && forall q | q in b.questions :: !Blank(q.prompt)
  }

  lemma {:induction false} ContextHasPrompts(context: seq<seq<Token>>)
    ensures forall q | q in FromContext(context) :: !Blank(q.prompt)
  {
    if context != [] {
      var line := context[|context| - 1];
      ContextHasPrompts(context[..|context| - 1]);
      SlotsAreSlots(line);
      forall q | q in QuestionsOfLine(line, SlotsOf(line)) ensures !Blank(q.prompt) {
        assert SlotsOf(line)[0] in SlotsOf(line);
      }
    }
  }

  lemma {:induction false} ReplacedIsNotBlank(prompt: seq<Token>)
    requires exists t :: t in prompt && t.Slot?
    ensures AnswerSlot in ReplaceSlot(prompt)
  {
    if !prompt[0].Slot? { ReplacedIsNotBlank(prompt[1..]); }
  }

  lemma FinishedHasPrompt(b: Builder, q: Question, position: nat)
    requires !Blank(q.prompt)
    ensures !Blank(Finished(b, q, position).prompt)
  {
    if Completion(b.kind) && ExactSlot(q) {
      SlotsAreSlots(q.prompt);
      assert Slot(q.number, true) in SlotsOf(q.prompt);
      ReplacedIsNotBlank(q.prompt);
    }
  }

  lemma FoundHavePrompts(b: Builder)
    requires Readable(b)
    ensures forall q | q in Found(b) :: !Blank(q.prompt)
  {
    var all := b.questions + FromContext(b.context);
    ContextHasPrompts(b.context);
    SortIsPermutation(ByNumber, all);
    SameMembers(all, Found(b));
  }

  // ---- The numbering. ----

  /** Question `i` of the group has number `start + i` and position `i + 1`. */
  ghost predicate NumberedAs(g: Group, b: Builder)
  {
    && g.kind == b.kind && Consecutive(g.questions, b.start, b.end)
    && forall i | 0 <= i < |g.questions| :: g.questions[i].position == i + 1 && !Blank(g.questions[i].prompt)
  }

  lemma CleanGroupIsNumbered(s: Built, b: Builder)
    requires b.part < |s.parts| && Readable(b) && GroupIssues(b, |s.parts[b.part].groups|, s.refs) == []
    ensures var r := BuildOne(s, b); |r.parts[b.part].groups| > 0 && NumberedAs(r.parts[b.part].groups[|r.parts[b.part].groups| - 1], b)
  {
    var k := |s.parts[b.part].groups|;
    var p := PlaceAll(b, k, s.refs, Found(b));
    CleanGroup(b, k, s.refs);
    PlacedWhole(b, k, s.refs, Found(b));
    FoundHavePrompts(b);
    forall i | 0 <= i < |p.placed| ensures !Blank(p.placed[i].prompt) {
      assert Found(b)[i] in Found(b);
      FinishedHasPrompt(b, Found(b)[i], i + 1);
    }
  }

  ghost predicate AllNumbered(ps: seq<Part>, builders: seq<Builder>)
  {
    forall p: nat, g: nat | GroupAt(ps, p, g) :: exists b :: b in builders && b.part == p && NumberedAs(ps[p].groups[g], b)
  }

  lemma {:induction false} CleanBuildIsNumbered(parts: seq<Part>, builders: seq<Builder>)
    requires (forall b | b in builders :: b.part < |parts| && Readable(b)) && forall p | p in parts :: p.groups == []
    requires Build(parts, [], builders).issues == []
    ensures AllNumbered(Build(parts, [], builders).parts, builders)
  {
    if builders == [] {
      assert forall p: nat | p < |parts| :: parts[p] in parts;
    } else {
      var front, b := builders[..|builders| - 1], builders[|builders| - 1];
      var s := Build(parts, [], front);
      BuildOneIssues(s, b);
      CleanBuildIsNumbered(parts, front);
      CleanGroupIsNumbered(s, b);
      var r := BuildOne(s, b);
      forall p: nat, g: nat | GroupAt(r.parts, p, g)
        ensures exists x :: x in builders && x.part == p && NumberedAs(r.parts[p].groups[g], x)
      {
        if p == b.part && g == |s.parts[p].groups| {
          assert b in builders;
        } else {
          assert GroupAt(s.parts, p, g) && r.parts[p].groups[g] == s.parts[p].groups[g];
          var x :| x in front && x.part == p && NumberedAs(s.parts[p].groups[g], x);
        }
      }
    }
  }

  // ---- From the import to the saved test. ----

  /** The saved test is the built one with answers in place and positions renumbered. */
  lemma SavedAt(built: seq<Part>, answered: seq<Part>, saved: seq<Part>, answers: map<int, Value>, explanations: map<int, Note>,
                p: nat, g: nat)
    requires Answered(built, answered, answers, explanations) && Renumbered(answered, saved) && GroupAt(saved, p, g)
    ensures GroupAt(built, p, g) && saved[p].groups[g].kind == built[p].groups[g].kind
    ensures |saved[p].groups[g].questions| == |built[p].groups[g].questions|
    ensures forall i | 0 <= i < |saved[p].groups[g].questions| ::
              saved[p].groups[g].questions[i]
              == With(built[p].groups[g].questions[i], built[p].groups[g].kind, answers, explanations).(position := i + 1)
  {
    assert AnsweredPart(built[p], answered[p], answers, explanations);
    assert RenumberedGroups(answered[p].groups, saved[p].groups);
    assert AnsweredGroup(built[p].groups[g], answered[p].groups[g], answers, explanations);
    assert RenumberedQuestions(answered[p].groups[g].questions, saved[p].groups[g].questions);
  }

  /** The whole way: `saved` is what the groups, answers and explanations become. */
  ghost predicate Imported(parts: seq<Part>, builders: seq<Builder>, answers: map<int, Value>, explanations: map<int, Note>,
                           answered: seq<Part>, saved: seq<Part>)
  {
    && (forall b | b in builders :: b.part < |parts| && Readable(b)) && (forall p | p in parts :: p.groups == [])
    && var b := Build(parts, [], builders);
       && b.issues == [] && Exact(b.parts, b.refs) && Fit(b.parts, b.refs, answers, explanations)
       && Answered(b.parts, answered, Known(answers, b.refs), Explained(b.refs, explanations))
       && Renumbered(answered, saved)
  }

  lemma BuiltGroup(parts: seq<Part>, builders: seq<Builder>, p: nat, g: nat) returns (x: Builder)
    requires (forall b | b in builders :: b.part < |parts| && Readable(b)) && forall p | p in parts :: p.groups == []
    requires Build(parts, [], builders).issues == [] && GroupAt(Build(parts, [], builders).parts, p, g)
    ensures x in builders && x.part == p && Proper(x) && NumberedAs(Build(parts, [], builders).parts[p].groups[g], x)
  {
    CleanBuild(parts, [], builders);
    CleanBuildIsNumbered(parts, builders);
    x :| x in builders && x.part == p && NumberedAs(Build(parts, [], builders).parts[p].groups[g], x);
    var i :| 0 <= i < |builders| && builders[i] == x;
    assert Proper(builders[i]);
  }

  lemma StillNumbered(before: Group, after: Group, x: Builder, answers: map<int, Value>, explanations: map<int, Note>)
    requires NumberedAs(before, x) && after.kind == before.kind && |after.questions| == |before.questions|
    requires forall i | 0 <= i < |after.questions| ::
               after.questions[i] == With(before.questions[i], before.kind, answers, explanations).(position := i + 1)
    ensures NumberedAs(after, x)
  {
  }

  lemma ImportedGroup(parts: seq<Part>, builders: seq<Builder>, answers: map<int, Value>, explanations: map<int, Note>,
                      answered: seq<Part>, saved: seq<Part>, p: nat, g: nat)
    returns (x: Builder)
    requires Imported(parts, builders, answers, explanations, answered, saved) && GroupAt(saved, p, g)
    ensures x in builders && x.part == p && NumberedAs(saved[p].groups[g], x) && Proper(x) && Supported(saved[p].groups[g].kind)
  {
    var b := Build(parts, [], builders);
    var known, explained := Known(answers, b.refs), Explained(b.refs, explanations);
    SavedAt(b.parts, answered, saved, known, explained, p, g);
    x := BuiltGroup(parts, builders, p, g);
    StillNumbered(b.parts[p].groups[g], saved[p].groups[g], x, known, explained);
  }

  lemma ImportedQuestion(parts: seq<Part>, builders: seq<Builder>, answers: map<int, Value>, explanations: map<int, Note>,
                         answered: seq<Part>, saved: seq<Part>, p: nat, g: nat, i: nat)
    requires Imported(parts, builders, answers, explanations, answered, saved) && Valid(saved, p, g, i)
    ensures var built := Build(parts, [], builders).parts;
            Valid(built, p, g, i) && At(saved, p, g, i).number == At(built, p, g, i).number && Sane(At(saved, p, g, i))
  {
    var b := Build(parts, [], builders);
    var x := ImportedGroup(parts, builders, answers, explanations, answered, saved, p, g);
    SavedAt(b.parts, answered, saved, Known(answers, b.refs), Explained(b.refs, explanations), p, g);
    assert Valid(b.parts, p, g, i);
    var n := At(b.parts, p, g, i).number;
    assert n in b.refs && n in Known(answers, b.refs);
    AnsweredIsSane(At(b.parts, p, g, i), b.parts[p].groups[g].kind, Known(answers, b.refs), Explained(b.refs, explanations),
                   x, saved[p].groups[g], i);
  }

  lemma AnsweredIsSane(before: Question, kind: Kind, answers: map<int, Value>, explanations: map<int, Note>,
                       x: Builder, g: Group, i: nat)
    requires before.number in answers && Proper(x) && NumberedAs(g, x) && i < |g.questions|
    requires g.questions[i] == With(before, kind, answers, explanations).(position := i + 1)
    ensures Sane(g.questions[i])
  {
  }

  /**
   Groups without issues and answers that fit make a test that validation has no objection to: every type is
   supported, numbers are positive and unique, every question has a prompt and an answer, and question `i` of a group
   carries the number `start + i` at position `i + 1`.
   */
  lemma ImportedTestIsSound(parts: seq<Part>, builders: seq<Builder>, answers: map<int, Value>, explanations: map<int, Note>,
                            answered: seq<Part>, saved: seq<Part>)
    requires Imported(parts, builders, answers, explanations, answered, saved)
    ensures FineParts(saved) && AllNumbered(saved, builders)
  {
    var b := Build(parts, [], builders);
    forall p: nat, g: nat | GroupAt(saved, p, g)
      ensures Supported(saved[p].groups[g].kind)
      ensures exists x :: x in builders && x.part == p && NumberedAs(saved[p].groups[g], x)
    {
      var x := ImportedGroup(parts, builders, answers, explanations, answered, saved, p, g);
    }
    forall p: nat, g: nat, i: nat | Valid(saved, p, g, i)
      ensures Valid(b.parts, p, g, i) && At(saved, p, g, i).number == At(b.parts, p, g, i).number && Sane(At(saved, p, g, i))
    {
      ImportedQuestion(parts, builders, answers, explanations, answered, saved, p, g, i);
    }
    UniquePartsAreFine(saved);
  }

  // ---- Answers without values. ----

  /** A saved question has a value exactly when its answer line had one. */
  lemma ImportedAnswer(parts: seq<Part>, builders: seq<Builder>, answers: map<int, Value>, explanations: map<int, Note>,
                       answered: seq<Part>, saved: seq<Part>, p: nat, g: nat, i: nat)
    requires Imported(parts, builders, answers, explanations, answered, saved) && Valid(saved, p, g, i)
    ensures var q := At(saved, p, g, i);
            q.number in answers && (ValuesOf(q.answer) == [] <==> answers[q.number].values == [])
  {
    var b := Build(parts, [], builders);
    SavedAt(b.parts, answered, saved, Known(answers, b.refs), Explained(b.refs, explanations), p, g);
    assert Valid(b.parts, p, g, i);
    var n := At(b.parts, p, g, i).number;
    assert n in b.refs && n in Known(answers, b.refs);
    AnswerHasItsValues(b.parts[p].groups[g].kind, answers[n].values);
  }

  /** Every answer line is some saved question's. */
  lemma AnswerHasAQuestion(parts: seq<Part>, builders: seq<Builder>, answers: map<int, Value>, explanations: map<int, Note>,
                           answered: seq<Part>, saved: seq<Part>, n: int)
    returns (p: nat, g: nat, i: nat)
    requires Imported(parts, builders, answers, explanations, answered, saved) && n in answers
    ensures Valid(saved, p, g, i) && At(saved, p, g, i).number == n
  {
    var b := Build(parts, [], builders);
    assert n in b.refs;
    p, g, i := b.refs[n].part, b.refs[n].group, b.refs[n].question;
    assert Valid(b.parts, p, g, i) && At(b.parts, p, g, i).number == n;
    AnsweredAt(b.parts, answered, Known(answers, b.refs), Explained(b.refs, explanations), p, g, i);
    assert RenumberedGroups(answered[p].groups, saved[p].groups);
    assert RenumberedQuestions(answered[p].groups[g].questions, saved[p].groups[g].questions);
  }

  ghost predicate AllHaveValues(ps: seq<Part>)
  {
    forall p: nat, g: nat, i: nat | Valid(ps, p, g, i) :: ValuesOf(At(ps, p, g, i).answer) != []
  }

  /**
   An import without issues gives every question an answer with a value exactly when no answer line consists of
   separators only: such a line counts as an answer and is accepted.
   */
  lemma AnswersHaveValues(parts: seq<Part>, builders: seq<Builder>, answers: map<int, Value>, explanations: map<int, Note>,
                          answered: seq<Part>, saved: seq<Part>)
    requires Imported(parts, builders, answers, explanations, answered, saved)
    ensures AllHaveValues(saved) <==> forall n | n in answers :: answers[n].values != []
  {
    forall p: nat, g: nat, i: nat | Valid(saved, p, g, i)
      ensures var q := At(saved, p, g, i);
              q.number in answers && (ValuesOf(q.answer) == [] <==> answers[q.number].values == [])
    {
      ImportedAnswer(parts, builders, answers, explanations, answered, saved, p, g, i);
    }
    if n :| n in answers && answers[n].values == [] {
      var p, g, i := AnswerHasAQuestion(parts, builders, answers, explanations, answered, saved, n);
      assert ValuesOf(At(saved, p, g, i).answer) == [];
    }
  }
}

/** What saving checks about a listening test's structure, and why an import without issues passes those checks. */
module ListeningSave {
  import opened Common
  import opened Sorting
  import opened ListeningImport
  import opened ListeningImportTheorems
  import opened ListeningAnswers

  // ---- Renumbering positions. ----

  ghost predicate Renumbered(before: seq<Part>, after: seq<Part>)
  {
    && |after| == |before|
    && forall p | 0 <= p < |before| :: after[p].position == p + 1 && RenumberedGroups(before[p].groups, after[p].groups)
  }

  ghost predicate RenumberedGroups(before: seq<Group>, after: seq<Group>)
  {
    && |after| == |before|
    && forall g | 0 <= g < |before| ::
         && after[g] == before[g].(position := g + 1, questions := after[g].questions)
         && RenumberedQuestions(before[g].questions, after[g].questions)
  }

  ghost predicate RenumberedQuestions(before: seq<Question>, after: seq<Question>)
  {
    && |after| == |before|
    && forall i | 0 <= i < |before| :: after[i] == before[i].(position := i + 1)
  }

  method NormalizeQuestions(before: seq<Question>) returns (after: seq<Question>)
    ensures RenumberedQuestions(before, after)
  {
    after := before;
    for i := 0 to |after|
      invariant |after| == |before|
      invariant forall k | 0 <= k < |before| :: after[k] == if k < i then before[k].(position := k + 1) else before[k]
    {
      after := after[i := after[i].(position := i + 1)];
    }
  }

  method NormalizeGroups(before: seq<Group>) returns (after: seq<Group>)
    ensures RenumberedGroups(before, after)
  {
    after := before;
    for g := 0 to |after|
      invariant |after| == |before| && RenumberedGroups(before[..g], after[..g]) && after[g..] == before[g..]
    {
      var questions := NormalizeQuestions(after[g].questions);
      assert after[g] == after[g..][0] == before[g];
      after := after[g := after[g].(position := g + 1, questions := questions)];
    }
    assert before[..|before|] == before && after[..|before|] == after;
  }

  method Normalize(before: seq<Part>) returns (after: seq<Part>)
    ensures Renumbered(before, after)
  {
    after := before;
    for p := 0 to |after|
      invariant |after| == |before| && Renumbered(before[..p], after[..p]) && after[p..] == before[p..]
    {
      var groups := NormalizeGroups(after[p].groups);
      assert after[p] == after[p..][0] == before[p];
      after := after[p := after[p].(position := p + 1, groups := groups)];
    }
    assert before[..|before|] == before && after[..|before|] == after;
  }

  // ---- Validation. ----

  datatype Flaw =
    | PartCount
    | NoGroups(part: nat)
    | UnsupportedType(part: nat, group: nat)
    | QuestionCount(part: nat, group: nat)
    | BadNumber(part: nat, group: nat, question: nat)
    | NoPrompt(part: nat, group: nat, question: nat)
    | NoAnswerGiven(part: nat, group: nat, question: nat)

  /** A flaw of a question or of a group's type. */
  predicate Grave(f: Flaw) { f.UnsupportedType? || f.BadNumber? || f.NoPrompt? || f.NoAnswerGiven? }

  predicate Mild(flaws: set<Flaw>) { forall f | f in flaws :: !Grave(f) }

  predicate Sane(q: Question) { q.number >= 1 && !Blank(q.prompt) && !q.answer.NoAnswer? }

  /** The sizes that are flaws: a part without groups, a group without questions or with more than fifty. */
  ghost predicate SizeFlaw(ps: seq<Part>, f: Flaw)
  {
    match f
    case NoGroups(p) => p < |ps| && ps[p].groups == []
    case QuestionCount(p, g) => p < |ps| && g < |ps[p].groups| && !(1 <= |ps[p].groups[g].questions| <= 50)
    case _ => false
  }

  /** No question repeats a number of the group or of `seen`, and each is whole. */
  ghost predicate FineQuestions(qs: seq<Question>, seen: set<int>)
  {
    && (forall i | 0 <= i < |qs| :: Sane(qs[i]) && qs[i].number !in seen)
    && (forall i, j | 0 <= i < j < |qs| :: qs[i].number != qs[j].number)
  }

  function NumbersOfGroups(gs: seq<Group>): set<int>
  {
    if gs == [] then {} else NumbersOfGroups(gs[..|gs| - 1]) + NumbersOf(gs[|gs| - 1].questions)
  }

  function NumbersOfParts(ps: seq<Part>): set<int>
  {
    if ps == [] then {} else NumbersOfParts(ps[..|ps| - 1]) + NumbersOfGroups(ps[|ps| - 1].groups)
  }

  ghost predicate FineGroups(gs: seq<Group>, seen: set<int>)
  {
    gs == [] ||
    var front, last := gs[..|gs| - 1], gs[|gs| - 1];
    FineGroups(front, seen) && Supported(last.kind) && FineQuestions(last.questions, seen + NumbersOfGroups(front))
  }

  /** Every type is supported, every question has a prompt and an answer, every number is positive and new. */
  ghost predicate FineParts(ps: seq<Part>)
  {
    ps == [] || (FineParts(ps[..|ps| - 1]) && FineGroups(ps[|ps| - 1].groups, NumbersOfParts(ps[..|ps| - 1])))
  }

  method ValidateQuestions(p: nat, g: nat, qs: seq<Question>, seen: set<int>) returns (flaws: set<Flaw>, numbers: set<int>)
    ensures numbers == seen + NumbersOf(qs)
    ensures Mild(flaws) <==> FineQuestions(qs, seen)
    ensures forall f | f in flaws :: Grave(f)
  {
    flaws, numbers := {}, seen;
    for i := 0 to |qs|
      invariant numbers == seen + NumbersOf(qs[..i]) && forall f | f in flaws :: Grave(f)
      invariant Mild(flaws) <==> FineQuestions(qs[..i], seen)
    {
      var q, front := qs[i], qs[..i];
      assert qs[..i + 1] == front + [q];
      if q.number < 1 || q.number in numbers { flaws := flaws + {BadNumber(p, g, i)}; }
      numbers := numbers + {q.number};
      if Blank(q.prompt) { flaws := flaws + {NoPrompt(p, g, i)}; }
      if q.answer.NoAnswer? { flaws := flaws + {NoAnswerGiven(p, g, i)}; }
      OneMoreFine(front, q, seen);
    }
    assert qs[..|qs|] == qs;
  }

  lemma OneMoreFine(front: seq<Question>, q: Question, seen: set<int>)
    ensures FineQuestions(front + [q], seen) <==> FineQuestions(front, seen) && Sane(q) && q.number !in seen + NumbersOf(front)
    ensures NumbersOf(front + [q]) == NumbersOf(front) + {q.number}
  {
    var all := front + [q];
    if FineQuestions(all, seen) {
      assert forall i | 0 <= i < |front| :: all[i] == front[i];
      assert all[|front|] == q;
      forall x | x in front ensures x.number != q.number {
        var i :| 0 <= i < |front| && front[i] == x;
        assert all[i].number != all[|front|].number;
      }
    }
    if FineQuestions(front, seen) && Sane(q) && q.number !in seen + NumbersOf(front) {
      forall i, j | 0 <= i < j < |all| ensures all[i].number != all[j].number {
        if j == |front| { assert front[i] in front; } else { assert front[i].number != front[j].number; }
      }
    }
  }

  method ValidateGroups(p: nat, gs: seq<Group>, seen: set<int>) returns (flaws: set<Flaw>, numbers: set<int>)
    ensures numbers == seen + NumbersOfGroups(gs)
    ensures Mild(flaws) <==> FineGroups(gs, seen)
    ensures forall f | f in flaws && !Grave(f) :: f.QuestionCount? && f.part == p
    ensures forall g: nat :: QuestionCount(p, g) in flaws <==> g < |gs| && !(1 <= |gs[g].questions| <= 50)
  {
    flaws, numbers := {}, seen;
    for g := 0 to |gs|
      invariant numbers == seen + NumbersOfGroups(gs[..g])
      invariant forall f | f in flaws && !Grave(f) :: f.QuestionCount? && f.part == p
      invariant forall k: nat :: QuestionCount(p, k) in flaws <==> k < g && !(1 <= |gs[k].questions| <= 50)
      invariant Mild(flaws) <==> FineGroups(gs[..g], seen)
    {
      assert gs[..g + 1][..g] == gs[..g];
      if !Supported(gs[g].kind) { flaws := flaws + {UnsupportedType(p, g)}; }
      if |gs[g].questions| < 1 || |gs[g].questions| > 50 { flaws := flaws + {QuestionCount(p, g)}; }
      var more, grown := ValidateQuestions(p, g, gs[g].questions, numbers);
      flaws, numbers := flaws + more, grown;
    }
    assert gs[..|gs|] == gs;
  }

  method ValidateParts(ps: seq<Part>) returns (flaws: set<Flaw>)
    ensures Mild(flaws) <==> FineParts(ps)
    ensures forall f | !Grave(f) :: f in flaws <==> SizeFlaw(ps, f)
  {
    flaws := {};
    var numbers: set<int> := {};
    for p := 0 to |ps|
      invariant numbers == NumbersOfParts(ps[..p])
      invariant forall f | !Grave(f) :: f in flaws <==> SizeFlaw(ps[..p], f)
      invariant Mild(flaws) <==> FineParts(ps[..p])
    {
      assert ps[..p + 1][..p] == ps[..p];
      if |ps[p].groups| < 1 { flaws := flaws + {NoGroups(p)}; }
      var more, grown := ValidateGroups(p, ps[p].groups, numbers);
      flaws, numbers := flaws + more, grown;
    }
    assert ps[..|ps|] == ps;
  }

  /**
   Validation finds a flaw in a type, number, prompt or answer exactly when one of them is not fine, and the flaws of
   size are exactly those there are.
   */
  method Validate(ps: seq<Part>) returns (flaws: set<Flaw>)
    ensures |ps| < 1 || |ps| > 10 ==> flaws == {PartCount}
    ensures 1 <= |ps| <= 10 ==> (Mild(flaws) <==> FineParts(ps))
    ensures 1 <= |ps| <= 10 ==> forall f | !Grave(f) :: f in flaws <==> SizeFlaw(ps, f)
  {
    if |ps| < 1 || |ps| > 10 { return {PartCount}; }
    flaws := ValidateParts(ps);
  }
}

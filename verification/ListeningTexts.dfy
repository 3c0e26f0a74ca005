/** The whole way from a written text to the imported test, and when the import raises no issue. */
module ListeningTexts {
  import opened Common
  import opened Sorting
  import opened ListeningImport
  import opened ListeningImportTheorems
  import opened ListeningAnswers
  import opened ListeningSave
  import opened ListeningImportSound
  import opened ListeningReader
  import opened ListeningRoundTrip
  import opened ListeningWritten

  type Answering = (int, seq<string>)

  // ---- What a question must look like, given the answers and explanations of the text. ----

  ghost predicate Uppercased(s: string, u: string)
  {
    && |u| == |s|
    && forall i | 0 <= i < |s| :: u[i] == if 'a' <= s[i] <= 'z' then ((s[i] as int) - 32) as char else s[i]
  }

  /** Options are named by their ids in capitals; other answers are kept as they are. */
  ghost predicate AnswerWritten(kind: Kind, values: seq<string>, a: Answer)
  {
    if !Choosing(kind) then a == Answer.Accepted(values)
    else if |values| == 1 then a.OptionId? && Uppercased(values[0], a.id)
    else a.OptionIds? && |a.ids| == |values| && forall i | 0 <= i < |values| :: Uppercased(values[i], a.ids[i])
  }

  ghost predicate Answerless(answers: seq<Answering>, n: int) { forall i | 0 <= i < |answers| :: answers[i].0 != n }

  ghost predicate Unexplained(es: seq<Explaining>, n: int) { forall i | 0 <= i < |es| :: es[i].0 != n }

  ghost predicate SolvedAsWritten(kind: Kind, q: Question, answers: seq<Answering>, es: seq<Explaining>)
  {
    && (forall i | 0 <= i < |answers| && answers[i].0 == q.number :: AnswerWritten(kind, answers[i].1, q.answer))
    && (Answerless(answers, q.number) ==> q.answer.NoAnswer?)
    && (forall i | 0 <= i < |es| && es[i].0 == q.number :: q.explanation == Trim(Joined(es[i].1)))
    && (Unexplained(es, q.number) ==> q.explanation == "")
  }

  ghost predicate GroupAsWritten(b: Builder, index: nat, g: Group, answers: seq<Answering>, es: seq<Explaining>)
  {
    && g.position == index + 1 && g.kind == b.kind && g.shared == b.shared && (g.limited <==> b.limit in LIMITS)
    && forall i | 0 <= i < |g.questions| ::
         AskedSomewhere(b, g.questions[i]) && SolvedAsWritten(b.kind, g.questions[i], answers, es)
  }

  /** Part by part and group by group, the test is what the text says. */
  ghost predicate TestAsWritten(text: seq<PartText>, answers: seq<Answering>, es: seq<Explaining>, parts: seq<Part>)
  {
    && |parts| == |text|
    && forall p | 0 <= p < |text| ::
         && parts[p].position == text[p].position && |parts[p].groups| == |text[p].groups|
         && forall g | 0 <= g < |text[p].groups| ::
              GroupAsWritten(text[p].groups[g].group, g, parts[p].groups[g], answers, es)
  }

  // ---- Which group of the text a group of the test is. ----

  ghost predicate FileAlike(bs: seq<Builder>, gs: seq<Builder>)
  {
    |bs| == |gs| && forall i | 0 <= i < |gs| :: bs[i].(line := 0) == gs[i]
  }

  lemma {:induction false} CountAlike(bs: seq<Builder>, gs: seq<Builder>, p: nat)
    requires FileAlike(bs, gs)
    ensures CountPart(bs, p) == CountPart(gs, p)
  {
    if gs != [] { CountAlike(bs[..|bs| - 1], gs[..|gs| - 1], p); }
  }

  lemma {:induction false} CountConcat(a: seq<Builder>, b: seq<Builder>, p: nat)
    ensures CountPart(a + b, p) == CountPart(a, p) + CountPart(b, p)
  {
    if b == [] {
      assert a + b == a;
    } else {
      assert (a + b)[..|a + b| - 1] == a + b[..|b| - 1];
      CountConcat(a, b[..|b| - 1], p);
    }
  }

  lemma {:induction false} CountAll(gs: seq<Builder>, p: nat, n: nat)
    requires n <= |gs| && forall b | b in gs :: b.part == p
    ensures CountPart(gs[..n], p) == n
  {
    if n > 0 {
      assert gs[..n][..n - 1] == gs[..n - 1];
      CountAll(gs, p, n - 1);
    }
  }

  lemma {:induction false} CountNone(gs: seq<Builder>, p: nat)
    requires forall b | b in gs :: b.part != p
    ensures CountPart(gs, p) == 0
  {
    if gs != [] { CountNone(gs[..|gs| - 1], p); }
  }

  lemma {:induction false} PartsOfGroups(text: seq<PartText>)
    ensures forall b | b in AllGroups(text) :: b.part < |text|
  {
    if text != [] { PartsOfGroups(text[..|text| - 1]); }
  }

  /** The text's parts have their groups. */
  lemma {:induction false} CountGroups(text: seq<PartText>, p: nat)
    requires p < |text|
    ensures CountPart(AllGroups(text), p) == |text[p].groups|
    decreases |text|
  {
    var front, last := text[..|text| - 1], |text| - 1;
    var filed := ListeningRoundTrip.Filed(text[last].groups, last);
    CountConcat(AllGroups(front), filed, p);
    PartsOfGroups(front);
    if p < last {
      CountGroups(front, p);
      CountNone(filed, p);
    } else {
      CountNone(AllGroups(front), p);
      CountAll(filed, p, |filed|);
      assert filed[..|filed|] == filed;
    }
  }

  /** The `k`-th of all groups is the `g`-th of the part `p`. */
  ghost predicate IsPlace(text: seq<PartText>, p: nat, g: nat, k: nat)
  {
    && p < |text| && g < |text[p].groups| && k < |AllGroups(text)|
    && AllGroups(text)[k] == text[p].groups[g].group.(part := p, line := 0) && CountPart(AllGroups(text)[..k], p) == g
  }

  lemma {:induction false} PlaceOf(text: seq<PartText>, p: nat, g: nat) returns (k: nat)
    requires p < |text| && g < |text[p].groups|
    ensures IsPlace(text, p, g, k)
    decreases |text|
  {
    var front, last := text[..|text| - 1], |text| - 1;
    var before, filed := AllGroups(front), ListeningRoundTrip.Filed(text[last].groups, last);
    if p < last {
      k := PlaceOf(front, p, g);
      assert (before + filed)[..k] == before[..k];
    } else {
      k := |before| + g;
      PartsOfGroups(front);
      CountNone(before, p);
      CountAll(filed, p, g);
      CountConcat(before, filed[..g], p);
      assert (before + filed)[..k] == before + filed[..g];
    }
  }

  /** Where a group is filed makes no difference to what it asks. */
  lemma AskedAlike(b: Builder, b': Builder)
    requires b' == b.(part := b'.part, line := b'.line)
    ensures forall s :: IsSpot(b', s) <==> IsSpot(b, s)
    ensures forall s, q :: AskedAt(b', s, q) <==> AskedAt(b, s, q)
    ensures forall q :: AskedSomewhere(b', q) <==> AskedSomewhere(b, q)
    ensures forall n :: IsAsked(b', n) <==> IsAsked(b, n)
  {
    forall q ensures AskedSomewhere(b', q) <==> AskedSomewhere(b, q) {
      if s :| AskedAt(b', s, q) { assert AskedAt(b, s, q); }
      if s :| AskedAt(b, s, q) { assert AskedAt(b', s, q); }
    }
    forall n ensures IsAsked(b', n) <==> IsAsked(b, n) {
      if s :| IsSpot(b', s) && NumberAt(b', s) == n { assert IsSpot(b, s) && NumberAt(b, s) == n; }
      if s :| IsSpot(b, s) && NumberAt(b, s) == n { assert IsSpot(b', s) && NumberAt(b', s) == n; }
    }
  }

  // ---- The test is as written, whatever the issues. ----

  /** What reading has made of the text. */
  ghost predicate ReadAs(text: seq<PartText>, answers: seq<Answering>, es: seq<Explaining>, r: Reader)
  {
    && r.parts == Heads(text) && r.issues == [] && HasAnswers(r, answers) && HasExplanations(r.explanations, es)
    && FileAlike(r.builders, AllGroups(text))
  }

  lemma UpperIsUppercased(s: string)
    ensures forall u :: Uppercased(s, u) <==> u == Upper(s)
  {
    forall u | Uppercased(s, u) ensures u == Upper(s) {}
  }

  lemma AnswerOfIsWritten(kind: Kind, values: seq<string>)
    ensures AnswerWritten(kind, values, AnswerOf(kind, values)) && !AnswerOf(kind, values).NoAnswer?
  {
    forall v: string ensures Uppercased(v, Upper(v)) { UpperIsUppercased(v); }
  }

  lemma Solved(kind: Kind, q: Question, refs: map<int, Ref>, r: Reader, answers: seq<Answering>, es: seq<Explaining>)
    requires Untouched(q) && q.number in refs && HasAnswers(r, answers) && HasExplanations(r.explanations, es)
    ensures SolvedAsWritten(kind, With(q, kind, Known(r.answers, refs), Explained(refs, r.explanations)), answers, es)
  {
    if q.number in r.answers { AnswerOfIsWritten(kind, r.answers[q.number].values); }
  }

  lemma AskedUnsolved(b: Builder, q: Question, q': Question)
    requires AskedSomewhere(b, q) && q' == q.(answer := q'.answer, explanation := q'.explanation)
    ensures AskedSomewhere(b, q')
  {
    var s :| AskedAt(b, s, q);
    assert AskedAt(b, s, q');
  }

  lemma SolvedGroup(b: Builder, index: nat, before: Group, after: Group, refs: map<int, Ref>, r: Reader,
                    answers: seq<Answering>, es: seq<Explaining>)
    requires BuiltFrom(b, index, before) && AllUntouched(b.questions)
    requires AnsweredGroup(before, after, Known(r.answers, refs), Explained(refs, r.explanations))
    requires HasAnswers(r, answers) && HasExplanations(r.explanations, es)
    requires forall i | 0 <= i < |before.questions| :: before.questions[i].number in refs
    ensures GroupAsWritten(b, index, after, answers, es)
  {
    forall i | 0 <= i < |after.questions|
      ensures AskedSomewhere(b, after.questions[i]) && SolvedAsWritten(b.kind, after.questions[i], answers, es)
    {
      var q := before.questions[i];
      assert PlacedFrom(b, q);
      Solved(b.kind, q, refs, r, answers, es);
      AskedUnsolved(b, q, after.questions[i]);
    }
  }

  lemma GroupWrittenAlike(b: Builder, b': Builder, index: nat, g: Group, answers: seq<Answering>, es: seq<Explaining>)
    requires b' == b.(part := b'.part, line := b'.line) && GroupAsWritten(b', index, g, answers, es)
    ensures GroupAsWritten(b, index, g, answers, es)
  {
    AskedAlike(b, b');
  }

  lemma FiledParts(text: seq<PartText>, r: Reader, answers: seq<Answering>, es: seq<Explaining>)
    requires ReadAs(text, answers, es, r)
    ensures forall b | b in r.builders :: b.part < |r.parts|
    ensures forall p | p in r.parts :: p.groups == []
  {
    PartsOfGroups(text);
    forall b | b in r.builders ensures b.part < |r.parts| {
      var i :| 0 <= i < |r.builders| && r.builders[i] == b;
      assert AllGroups(text)[i] in AllGroups(text);
    }
  }

  /** The builder of a group of the text, once it has been read. */
  lemma BuilderOf(text: seq<PartText>, answers: seq<Answering>, es: seq<Explaining>, r: Reader, p: nat, g: nat)
    returns (k: nat)
    requires ReadAs(text, answers, es, r) && p < |text| && g < |text[p].groups|
    ensures k < |r.builders| && r.builders[k].part == p && CountPart(r.builders[..k], p) == g
    ensures r.builders[k] == text[p].groups[g].group.(part := p, line := r.builders[k].line)
  {
    k := PlaceOf(text, p, g);
    assert r.builders[k].(line := 0) == AllGroups(text)[k];
    CountAlike(r.builders[..k], AllGroups(text)[..k], p);
  }

  lemma WrittenIsUntouched(t: GroupText, b: Builder)
    requires Writable(t) && b.questions == t.group.questions
    ensures AllUntouched(b.questions)
  {
  }

  lemma TextGroup(text: seq<PartText>, answers: seq<Answering>, es: seq<Explaining>, r: Reader, parts: seq<Part>, p: nat, g: nat)
    requires ReadAs(text, answers, es, r) && TestOf(r, parts) && p < |text| && g < |text[p].groups|
    requires Writable(text[p].groups[g]) && p < |parts| && g < |parts[p].groups|
    ensures GroupAsWritten(text[p].groups[g].group, g, parts[p].groups[g], answers, es)
  {
    var k := BuilderOf(text, answers, es, r, p, g);
    var b, built := r.builders[k], BuildOf(r);
    FiledParts(text, r, answers, es);
    BuildKeepsPlaces(r.parts, r.issues, r.builders, k);
    BuildExact(r.parts, r.issues, r.builders);
    var before := built.parts[p].groups[g];
    assert AnsweredPart(built.parts[p], parts[p], Known(r.answers, built.refs), Explained(built.refs, r.explanations));
    assert AnsweredGroup(before, parts[p].groups[g], Known(r.answers, built.refs), Explained(built.refs, r.explanations));
    forall i | 0 <= i < |before.questions| ensures before.questions[i].number in built.refs {
      assert Valid(built.parts, p, g, i) && At(built.parts, p, g, i) == before.questions[i];
    }
    WrittenIsUntouched(text[p].groups[g], b);
    SolvedGroup(b, g, before, parts[p].groups[g], built.refs, r, answers, es);
    GroupWrittenAlike(text[p].groups[g].group, b, g, parts[p].groups[g], answers, es);
  }

  lemma TextParts(text: seq<PartText>, answers: seq<Answering>, es: seq<Explaining>, r: Reader, parts: seq<Part>)
    requires ReadAs(text, answers, es, r) && TestOf(r, parts)
    ensures |parts| == |text|
    ensures forall p | 0 <= p < |text| :: parts[p].position == text[p].position && |parts[p].groups| == |text[p].groups|
  {
    var built := BuildOf(r);
    FiledParts(text, r, answers, es);
    BuildCounts(r.parts, r.issues, r.builders);
    forall p | 0 <= p < |text| ensures parts[p].position == text[p].position && |parts[p].groups| == |text[p].groups| {
      CountAlike(r.builders, AllGroups(text), p);
      CountGroups(text, p);
      assert AnsweredPart(built.parts[p], parts[p], Known(r.answers, built.refs), Explained(built.refs, r.explanations));
    }
  }

  lemma TextTest(text: seq<PartText>, answers: seq<Answering>, es: seq<Explaining>, r: Reader, parts: seq<Part>)
    requires ReadAs(text, answers, es, r) && TestOf(r, parts) && forall i | 0 <= i < |text| :: AllWritable(text[i].groups)
    ensures TestAsWritten(text, answers, es, parts)
  {
    TextParts(text, answers, es, r, parts);
    forall p, g | 0 <= p < |text| && 0 <= g < |text[p].groups|
      ensures GroupAsWritten(text[p].groups[g].group, g, parts[p].groups[g], answers, es)
    {
      TextGroup(text, answers, es, r, parts, p, g);
    }
  }

  // ---- When the import raises no issue. ----

  /** Every value is the id of an option, capitals aside. */
  ghost predicate Named(options: seq<Choice>, values: seq<string>)
  {
    options != [] && forall i | 0 <= i < |values| :: NamesOne(options, values[i])
  }

  ghost predicate NamesOne(options: seq<Choice>, value: string)
  {
    exists c :: 0 <= c < |options| && Uppercased(value, options[c].id)
  }

  /** The group asks for the number at `s`, and if it is to be answered by options, these are some of them. */
  ghost predicate AnswerAt(b: Builder, s: Spot, n: int, values: seq<string>)
  {
    IsSpot(b, s) && NumberAt(b, s) == n && (Choosing(b.kind) ==> Named(OptionsAt(b, s), values))
  }

  ghost predicate AnswerFits(bs: seq<Builder>, n: int, values: seq<string>)
  {
    exists k: nat, s :: k < |bs| && AnswerAt(bs[k], s, n, values)
  }

  ghost predicate AsksFor(bs: seq<Builder>, n: int) { exists k: nat :: k < |bs| && IsAsked(bs[k], n) }

  ghost predicate GroupsInOrder(bs: seq<Builder>)
  {
    (forall k | 0 <= k < |bs| :: Complete(bs[k])) && forall i, j | 0 <= i < j < |bs| :: DisjointRanges(bs[i], bs[j])
  }

  /**
   Every group asks for the numbers of its range, each once, and no two ranges overlap; every answer is for a question
   and names its options, every question has an answer, every explanation is for a question.
   */
  ghost predicate InOrder(bs: seq<Builder>, answers: seq<Answering>, es: seq<Explaining>)
  {
    && GroupsInOrder(bs)
    && (forall i | 0 <= i < |answers| :: AnswerFits(bs, answers[i].0, answers[i].1))
    && (forall n | AsksFor(bs, n) :: !Answerless(answers, n))
    && (forall i | 0 <= i < |es| :: AsksFor(bs, es[i].0))
  }

  lemma GroupsInOrderAreProper(bs: seq<Builder>)
    requires forall b | b in bs :: Supported(b.kind)
    ensures AllProper(bs) <==> GroupsInOrder(bs)
  {
    forall k | 0 <= k < |bs| ensures Proper(bs[k]) <==> Complete(bs[k]) {
      ProperIsComplete(bs[k]);
      assert bs[k] in bs;
    }
  }

  lemma AskedInRange(b: Builder, n: int)
    requires Complete(b)
    ensures IsAsked(b, n) <==> b.start <= n <= b.end
  {
  }

  lemma CoveredIsAsked(bs: seq<Builder>, n: int)
    requires GroupsInOrder(bs)
    ensures Covers(bs, n) <==> AsksFor(bs, n)
  {
    if Covers(bs, n) {
      var b :| b in bs && b.start <= n <= b.end;
      var k: nat :| k < |bs| && bs[k] == b;
      AskedInRange(bs[k], n);
    }
    if k: nat :| k < |bs| && IsAsked(bs[k], n) {
      AskedInRange(bs[k], n);
      assert bs[k] in bs;
    }
  }

  lemma RangesApart(bs: seq<Builder>)
    requires GroupsInOrder(bs)
    ensures forall i, j | 0 <= i < |bs| && 0 <= j < |bs| && i != j :: DisjointRanges(bs[i], bs[j])
  {
    forall i, j | 0 <= i < |bs| && 0 <= j < |bs| && i != j ensures DisjointRanges(bs[i], bs[j]) {
      var low, high := if i < j then i else j, if i < j then j else i;
      assert DisjointRanges(bs[low], bs[high]);
    }
  }

  /** A number is asked for in one place. */
  lemma OnePlaceAsks(bs: seq<Builder>, n: int, k: nat, s: Spot, k': nat, s': Spot)
    requires GroupsInOrder(bs) && k < |bs| && k' < |bs|
    requires IsSpot(bs[k], s) && NumberAt(bs[k], s) == n && IsSpot(bs[k'], s') && NumberAt(bs[k'], s') == n
    ensures k == k' && s == s'
  {
    assert bs[k].start <= n <= bs[k].end && bs[k'].start <= n <= bs[k'].end;
    RangesApart(bs);
  }

  lemma {:induction false} FindBuilder(bs: seq<Builder>, p: nat, g: nat) returns (k: nat)
    requires g < CountPart(bs, p)
    ensures k < |bs| && bs[k].part == p && CountPart(bs[..k], p) == g
  {
    var front := bs[..|bs| - 1];
    if g < CountPart(front, p) {
      k := FindBuilder(front, p, g);
      assert front[..k] == bs[..k];
    } else {
      k := |bs| - 1;
    }
  }

  lemma NamedIsAllowed(options: seq<Choice>, values: seq<string>)
    ensures Named(options, values) <==> options != [] && forall v | v in UpperAll(values) :: v in Ids(options)
  {
    forall i | 0 <= i < |values| ensures NamesOne(options, values[i]) <==> Upper(values[i]) in Ids(options) {
      UpperIsUppercased(values[i]);
      if Upper(values[i]) in Ids(options) {
        var c :| c in options && c.id == Upper(values[i]);
        var j :| 0 <= j < |options| && options[j] == c;
      }
      if c :| 0 <= c < |options| && Uppercased(values[i], options[c].id) { assert options[c] in options; }
    }
    assert forall i | 0 <= i < |values| :: UpperAll(values)[i] == Upper(values[i]) && UpperAll(values)[i] in UpperAll(values);
  }

  lemma SuitsAsNamed(b: Builder, s: Spot, index: nat, g: Group, q: Question, values: seq<string>)
    requires BuiltFrom(b, index, g) && AskedAt(b, s, q)
    ensures (Choosing(g.kind) ==> Allowed(q, g, values)) <==> AnswerAt(b, s, q.number, values)
  {
    assert Options(q, g) == OptionsAt(b, s);
    NamedIsAllowed(OptionsAt(b, s), values);
  }

  /** The question of a number is asked somewhere in the group it is built from. */
  lemma QuestionIsAsked(r: Reader, n: int) returns (k: nat, s: Spot)
    requires (forall b | b in r.builders :: b.part < |r.parts|) && (forall p | p in r.parts :: p.groups == [])
    requires var b := BuildOf(r); Exact(b.parts, b.refs) && n in b.refs
    ensures var b := BuildOf(r);
            var ref := b.refs[n];
            && Valid(b.parts, ref.part, ref.group, ref.question) && k < |r.builders|
            && BuiltFrom(r.builders[k], ref.group, b.parts[ref.part].groups[ref.group])
            && AskedAt(r.builders[k], s, At(b.parts, ref.part, ref.group, ref.question))
  {
    var b := BuildOf(r);
    var ref := b.refs[n];
    BuildCounts(r.parts, r.issues, r.builders);
    k := FindBuilder(r.builders, ref.part, ref.group);
    BuildKeepsPlaces(r.parts, r.issues, r.builders, k);
    assert PlacedFrom(r.builders[k], b.parts[ref.part].groups[ref.group].questions[ref.question]);
    s :| AskedAt(r.builders[k], s, At(b.parts, ref.part, ref.group, ref.question));
  }

  lemma SuitsAsWritten(r: Reader, n: int, v: Value)
    requires (forall b | b in r.builders :: b.part < |r.parts|) && (forall p | p in r.parts :: p.groups == [])
    requires GroupsInOrder(r.builders)
    requires var b := BuildOf(r); Exact(b.parts, b.refs) && n in b.refs
    ensures var b := BuildOf(r); Suits(b.parts, b.refs[n], v) <==> AnswerFits(r.builders, n, v.values)
  {
    var b := BuildOf(r);
    var ref := b.refs[n];
    var k, s := QuestionIsAsked(r, n);
    var g, q := b.parts[ref.part].groups[ref.group], At(b.parts, ref.part, ref.group, ref.question);
    SuitsAsNamed(r.builders[k], s, ref.group, g, q, v.values);
    if k': nat, s' :| k' < |r.builders| && AnswerAt(r.builders[k'], s', n, v.values) {
      OnePlaceAsks(r.builders, n, k, s, k', s');
    }
  }

  lemma AnswersFitAsWritten(r: Reader, answers: seq<Answering>)
    requires (forall b | b in r.builders :: b.part < |r.parts|) && (forall p | p in r.parts :: p.groups == [])
    requires GroupsInOrder(r.builders) && HasAnswers(r, answers)
    requires var b := BuildOf(r); Exact(b.parts, b.refs) && forall n :: n in b.refs <==> AsksFor(r.builders, n)
    ensures var b := BuildOf(r);
            (forall n | n in r.answers :: n in b.refs && Suits(b.parts, b.refs[n], r.answers[n]))
            <==> forall i | 0 <= i < |answers| :: AnswerFits(r.builders, answers[i].0, answers[i].1)
  {
    var b := BuildOf(r);
    forall n | n in r.answers
      ensures AnswerFits(r.builders, n, r.answers[n].values) <==> n in b.refs && Suits(b.parts, b.refs[n], r.answers[n])
    {
      if n in b.refs { SuitsAsWritten(r, n, r.answers[n]); }
      if k: nat, s :| k < |r.builders| && AnswerAt(r.builders[k], s, n, r.answers[n].values) {
        assert IsAsked(r.builders[k], n);
        assert AsksFor(r.builders, n);
      }
    }
    forall n | n in r.answers ensures exists i :: 0 <= i < |answers| && answers[i].0 == n && answers[i].1 == r.answers[n].values {
      var i :| 0 <= i < |answers| && answers[i].0 == n;
    }
  }

  lemma AnsweredIsWritten(r: Reader, answers: seq<Answering>, n: int)
    requires HasAnswers(r, answers)
    ensures n in r.answers <==> !Answerless(answers, n)
  {
  }

  lemma ExplanationsFitAsWritten(notes: map<int, Note>, es: seq<Explaining>, asked: set<int>)
    requires HasExplanations(notes, es)
    ensures (forall n | n in notes :: n in asked) <==> forall i | 0 <= i < |es| :: es[i].0 in asked
  {
  }

  lemma FitAsWritten(r: Reader, answers: seq<Answering>, es: seq<Explaining>)
    requires (forall b | b in r.builders :: b.part < |r.parts|) && (forall p | p in r.parts :: p.groups == [])
    requires GroupsInOrder(r.builders) && HasAnswers(r, answers) && HasExplanations(r.explanations, es)
    requires var b := BuildOf(r); Exact(b.parts, b.refs) && forall n :: n in b.refs <==> AsksFor(r.builders, n)
    ensures var b := BuildOf(r); Fit(b.parts, b.refs, r.answers, r.explanations) <==> InOrder(r.builders, answers, es)
  {
    var refs := BuildOf(r).refs;
    AnswersFitAsWritten(r, answers);
    forall n ensures n in r.answers <==> !Answerless(answers, n) { AnsweredIsWritten(r, answers, n); }
    ExplanationsFitAsWritten(r.explanations, es, refs.Keys);
    assert forall n :: n in refs.Keys <==> AsksFor(r.builders, n);
  }

  /** Of a text that has been read: what is accepted is what is in order. */
  lemma AcceptedAsWritten(text: seq<PartText>, answers: seq<Answering>, es: seq<Explaining>, r: Reader)
    requires ReadAs(text, answers, es, r) && forall b | b in r.builders :: Supported(b.kind)
    ensures ListeningRoundTrip.Accepted(r) <==> text != [] && InOrder(r.builders, answers, es)
  {
    FiledParts(text, r, answers, es);
    assert |r.parts| == |text|;
    BuildExact(r.parts, r.issues, r.builders);
    GroupsInOrderAreProper(r.builders);
    if GroupsInOrder(r.builders) {
      RefsAreAsked(r);
      FitAsWritten(r, answers, es);
    }
  }

  lemma RefsAreAsked(r: Reader)
    requires (forall b | b in r.builders :: b.part < |r.parts|) && r.issues == []
    requires GroupsInOrder(r.builders) && AllProper(r.builders)
    ensures forall n :: n in BuildOf(r).refs <==> AsksFor(r.builders, n)
  {
    CleanBuild(r.parts, r.issues, r.builders);
    forall n ensures n in BuildOf(r).refs <==> AsksFor(r.builders, n) { CoveredIsAsked(r.builders, n); }
  }

  // ---- Line numbers do not matter. ----

  lemma CompleteAlike(b: Builder, b': Builder)
    requires b' == b.(part := b'.part, line := b'.line)
    ensures Complete(b') <==> Complete(b)
    ensures forall s, n, values :: AnswerAt(b', s, n, values) <==> AnswerAt(b, s, n, values)
  {
    AskedAlike(b, b');
    assert forall s :: IsSpot(b, s) ==> NumberAt(b, s) == NumberAt(b', s) && PromptAt(b, s) == PromptAt(b', s);
    assert forall s :: IsSpot(b, s) ==> OptionsAt(b, s) == OptionsAt(b', s);
  }

  lemma InOrderAlike(bs: seq<Builder>, gs: seq<Builder>, answers: seq<Answering>, es: seq<Explaining>)
    requires FileAlike(bs, gs)
    ensures InOrder(bs, answers, es) <==> InOrder(gs, answers, es)
  {
    forall k | 0 <= k < |bs|
      ensures Complete(bs[k]) <==> Complete(gs[k])
      ensures forall n :: IsAsked(bs[k], n) <==> IsAsked(gs[k], n)
      ensures forall s, n, values :: AnswerAt(bs[k], s, n, values) <==> AnswerAt(gs[k], s, n, values)
    {
      CompleteAlike(bs[k], gs[k]);
      AskedAlike(bs[k], gs[k]);
    }
    assert GroupsInOrder(bs) <==> GroupsInOrder(gs);
    forall n ensures AsksFor(bs, n) <==> AsksFor(gs, n) {
      if k: nat :| k < |bs| && IsAsked(bs[k], n) { assert IsAsked(gs[k], n); }
      if k: nat :| k < |gs| && IsAsked(gs[k], n) { assert IsAsked(bs[k], n); }
    }
    forall n, values ensures AnswerFits(bs, n, values) <==> AnswerFits(gs, n, values) {
      if k: nat, s :| k < |bs| && AnswerAt(bs[k], s, n, values) { assert AnswerAt(gs[k], s, n, values); }
      if k: nat, s :| k < |gs| && AnswerAt(gs[k], s, n, values) { assert AnswerAt(bs[k], s, n, values); }
    }
  }

  // ---- The whole import. ----

  /** A group as one writes it, every question with something to ask. */
  ghost predicate WrittenOut(t: GroupText) { Writable(t) && forall q | q in t.group.questions :: !Blank(q.prompt) }

  lemma {:induction false} QuestionsClassified(qs: seq<Question>)
    requires forall q | q in qs :: !Blank(q.prompt)
    ensures AllClassified(QuestionsLines(qs))
  {
    if qs != [] {
      QuestionsClassified(qs[..|qs| - 1]);
      assert AllClassified(QuestionLines(qs[|qs| - 1]));
    }
  }

  lemma GroupClassified(t: GroupText)
    requires WrittenOut(t)
    ensures AllClassified(GroupLines(t))
  {
    QuestionsClassified(t.group.questions);
    assert AllClassified(MaterialLines(t)) && AllClassified(HeadLines(t.group));
  }

  lemma {:induction false} GroupsClassified(gs: seq<GroupText>)
    requires AllWritable(gs) && forall i | 0 <= i < |gs| :: WrittenOut(gs[i])
    ensures AllClassified(GroupsLines(gs))
  {
    if gs != [] {
      GroupsClassified(gs[..|gs| - 1]);
      GroupClassified(gs[|gs| - 1]);
    }
  }

  ghost predicate AllWrittenOut(text: seq<PartText>)
  {
    forall p | 0 <= p < |text| :: AllWritable(text[p].groups) && forall g | 0 <= g < |text[p].groups| :: WrittenOut(text[p].groups[g])
  }

  lemma {:induction false} PartsClassified(text: seq<PartText>)
    requires AllWrittenOut(text)
    ensures AllClassified(PartsLines(text))
  {
    if text != [] {
      PartsClassified(text[..|text| - 1]);
      GroupsClassified(text[|text| - 1].groups);
    }
  }

  lemma {:induction false} ExplanationsClassified(es: seq<Explaining>)
    ensures AllClassified(ExplanationsLines(es))
  {
    if es != [] { ExplanationsClassified(es[..|es| - 1]); }
  }

  lemma TextClassified(text: seq<PartText>, answers: seq<Answering>, es: seq<Explaining>)
    requires AllWrittenOut(text)
    ensures AllClassified(TextLines(text, answers, es))
    ensures First(TextLines(text, answers, es)).Some? && First(TextLines(text, answers, es)).value.isHeader
  {
    PartsClassified(text);
    ExplanationsClassified(es);
    assert TextLines(text, answers, es)[0] == PLAIN.(isHeader := true);
  }

  lemma {:induction false} GroupsAreSupported(text: seq<PartText>)
    requires AllWrittenOut(text)
    ensures forall b | b in AllGroups(text) :: Supported(b.kind)
  {
    if text != [] {
      var last := text[|text| - 1].groups;
      GroupsAreSupported(text[..|text| - 1]);
      forall g | 0 <= g < |last| ensures Supported(last[g].group.kind) { assert Writable(last[g]); }
    }
  }

  lemma ReadBuildersAreSupported(text: seq<PartText>, bs: seq<Builder>)
    requires AllWrittenOut(text) && FileAlike(bs, AllGroups(text))
    ensures forall b | b in bs :: Supported(b.kind)
  {
    GroupsAreSupported(text);
    forall b | b in bs ensures Supported(b.kind) {
      var i :| 0 <= i < |bs| && bs[i] == b;
      assert AllGroups(text)[i] in AllGroups(text);
    }
  }

  /** Every number of every group is there, in order. */
  ghost predicate EveryNumber(text: seq<PartText>, parts: seq<Part>)
  {
    forall p, g | 0 <= p < |text| && 0 <= g < |text[p].groups| && p < |parts| && g < |parts[p].groups| ::
      Consecutive(parts[p].groups[g].questions, text[p].groups[g].group.start, text[p].groups[g].group.end)
  }

  lemma NumberedBySameGroup(bs: seq<Builder>, k: nat, g: Group, index: nat, x: Builder)
    requires GroupsInOrder(bs) && k < |bs| && x in bs && BuiltFrom(bs[k], index, g) && NumberedAs(g, x)
    ensures x == bs[k]
  {
    var j: nat :| j < |bs| && bs[j] == x;
    assert Complete(bs[j]);
    assert PlacedFrom(bs[k], g.questions[0]);
    var s :| AskedAt(bs[k], s, g.questions[0]);
    assert bs[k].start <= x.start <= bs[k].end;
    RangesApart(bs);
  }

  lemma BuiltIsNumbered(r: Reader, k: nat)
    requires (forall b | b in r.builders :: b.part < |r.parts| && Readable(b)) && (forall p | p in r.parts :: p.groups == [])
    requires r.issues == [] && AllProper(r.builders) && GroupsInOrder(r.builders) && k < |r.builders|
    ensures var b, parts := r.builders[k], BuildOf(r).parts;
            var g := CountPart(r.builders[..k], b.part);
            b.part < |parts| && g < |parts[b.part].groups| && NumberedAs(parts[b.part].groups[g], b)
  {
    var b, built := r.builders[k], BuildOf(r);
    var p, g := b.part, CountPart(r.builders[..k], b.part);
    CleanBuild(r.parts, r.issues, r.builders);
    CleanBuildIsNumbered(r.parts, r.builders);
    BuildKeepsPlaces(r.parts, r.issues, r.builders, k);
    assert GroupAt(built.parts, p, g);
    var x :| x in r.builders && x.part == p && NumberedAs(built.parts[p].groups[g], x);
    NumberedBySameGroup(r.builders, k, built.parts[p].groups[g], g, x);
  }

  lemma NumbersStay(before: Group, after: Group, answers: map<int, Value>, explanations: map<int, Note>, b: Builder)
    requires NumberedAs(before, b) && AnsweredGroup(before, after, answers, explanations)
    ensures Consecutive(after.questions, b.start, b.end)
  {
  }

  lemma GroupIsNumbered(text: seq<PartText>, answers: seq<Answering>, es: seq<Explaining>, r: Reader, parts: seq<Part>, p: nat, g: nat)
    requires ReadAs(text, answers, es, r) && ReaderOk(r) && TestOf(r, parts) && ListeningRoundTrip.Accepted(r)
    requires GroupsInOrder(r.builders)
    requires p < |text| && g < |text[p].groups| && p < |parts| && g < |parts[p].groups|
    ensures Consecutive(parts[p].groups[g].questions, text[p].groups[g].group.start, text[p].groups[g].group.end)
  {
    var k := BuilderOf(text, answers, es, r, p, g);
    var built := BuildOf(r);
    FiledParts(text, r, answers, es);
    BuiltIsNumbered(r, k);
    assert AnsweredPart(built.parts[p], parts[p], Known(r.answers, built.refs), Explained(built.refs, r.explanations));
    NumbersStay(built.parts[p].groups[g], parts[p].groups[g], Known(r.answers, built.refs),
                Explained(built.refs, r.explanations), r.builders[k]);
  }

  lemma TextIsRead(text: seq<PartText>, answers: seq<Answering>, es: seq<Explaining>)
    requires AllWrittenOut(text) && DistinctNumbers(answers) && DistinctHeadings(es)
    ensures var r := Flush(ReadAll(START, TextLines(text, answers, es), 0)); ReadAs(text, answers, es, r) && ReaderOk(r)
  {
    WrittenIsReadBack(text, answers, es);
    TextClassified(text, answers, es);
    ReadAllKeeps(TextLines(text, answers, es), 0);
    FlushKeeps(ReadAll(START, TextLines(text, answers, es), 0));
  }

  lemma TextNumbers(text: seq<PartText>, answers: seq<Answering>, es: seq<Explaining>, r: Reader, parts: seq<Part>)
    requires AllWrittenOut(text) && ReadAs(text, answers, es, r) && ReaderOk(r) && TestOf(r, parts)
    ensures ListeningRoundTrip.Accepted(r) <==> text != [] && InOrder(AllGroups(text), answers, es)
    ensures ListeningRoundTrip.Accepted(r) ==> EveryNumber(text, parts)
  {
    ReadBuildersAreSupported(text, r.builders);
    AcceptedAsWritten(text, answers, es, r);
    InOrderAlike(r.builders, AllGroups(text), answers, es);
    if ListeningRoundTrip.Accepted(r) {
      forall p, g | 0 <= p < |text| && 0 <= g < |text[p].groups| && p < |parts| && g < |parts[p].groups|
        ensures Consecutive(parts[p].groups[g].questions, text[p].groups[g].group.start, text[p].groups[g].group.end)
      {
        GroupIsNumbered(text, answers, es, r, parts, p, g);
      }
    }
  }

  /**
   A text that is written out and imported: the test is what the text says, question by question, whatever the issues.
   No issue is raised exactly when the text is in order, and then every number of every group is there.
   */
  method ImportWritten(text: seq<PartText>, answers: seq<Answering>, es: seq<Explaining>, order: set<int> -> seq<int>)
    returns (parts: seq<Part>, issues: seq<Issue>)
    requires AllWrittenOut(text) && DistinctNumbers(answers) && DistinctHeadings(es) && Enumerates(order)
    ensures TestAsWritten(text, answers, es, parts)
    ensures issues == [] <==> text != [] && InOrder(AllGroups(text), answers, es)
    ensures issues == [] ==> EveryNumber(text, parts)
  {
    TextClassified(text, answers, es);
    TextIsRead(text, answers, es);
    ghost var r := Flush(ReadAll(START, TextLines(text, answers, es), 0));
    var builders;
    parts, builders, issues := ParseImport(TextLines(text, answers, es), order);
    TextTest(text, answers, es, r, parts);
    TextNumbers(text, answers, es, r, parts);
  }
}
